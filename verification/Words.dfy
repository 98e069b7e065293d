/** 32-bit words and the 512-byte and 1024-byte units the on-disk structures are made of. */
module Words {

  const WORD_RANGE := 0x1_0000_0000

  type word = x: int | 0 <= x < 0x1_0000_0000

  /** The sum of the words, modulo 2^32. */
  function WordSum(s: seq<word>): word
  {
    if s == [] then 0 else (WordSum(s[..|s| - 1]) + s[|s| - 1]) % WORD_RANGE
  }

  lemma {:induction false} ZeroSum(s: seq<word>)
    requires forall i :: 0 <= i < |s| ==> s[i] == 0
    ensures WordSum(s) == 0
  {
    if s != [] {
      ZeroSum(s[..|s| - 1]);
    }
  }

  /** What changes in one word changes in the sum, so that no single change goes unnoticed. */
  lemma {:induction false} ChangedWord(s: seq<word>, i: nat, x: word)
    requires i < |s|
    ensures WordSum(s[i := x]) == (WordSum(s) - s[i] + x) % WORD_RANGE
    ensures WordSum(s[i := x]) == WordSum(s) <==> x == s[i]
  {
    var n, t := |s| - 1, s[i := x];
    assert WordSum(s) == (WordSum(s[..n]) + s[n]) % WORD_RANGE && WordSum(t) == (WordSum(t[..n]) + t[n]) % WORD_RANGE;
    if i == n {
      assert t[..n] == s[..n];
    } else {
      assert t[..n] == s[..n][i := x];
      ChangedWord(s[..n], i, x);
    }
    hide WordSum;
    ChangedStep(WordSum(s[..n]), s[n], s[i], x);
    SameWord(WordSum(s), s[i], x);
  }

  /** Changing a word before another one is added, or that one. */
  lemma ChangedStep(sum: int, last: int, a: int, x: int)
    ensures ((sum - a + x) % WORD_RANGE + last) % WORD_RANGE == ((sum + last) % WORD_RANGE - a + x) % WORD_RANGE
    ensures (sum + x) % WORD_RANGE == ((sum + a) % WORD_RANGE - a + x) % WORD_RANGE
  {
    AddedWord(sum - a + x, last);
    AddedWord(sum + last, x - a);
    AddedWord(sum + a, x - a);
  }

  lemma AddedWord(a: int, b: int)
    ensures (a % WORD_RANGE + b) % WORD_RANGE == (a + b) % WORD_RANGE
  {
  }

  lemma SameWord(sum: word, a: word, b: word)
    ensures (sum - a + b) % WORD_RANGE == sum <==> a == b
  {
  }

  datatype Sector = Sector(words: seq<word>)

  /** Two sectors whose first word may be a checksum of all the others. */
  datatype Block = Block(sum: word, low: seq<word>, high: seq<word>)
  {
    function First(): Sector
    {
      Sector([sum] + low)
    }

    function Second(): Sector
    {
      Sector(high)
    }

    function Stamped(): Block
    {
      this.(sum := WordSum(low + high))
    }
  }

  /** The block whose two sectors these are. */
  function Join(first: Sector, second: Sector): Block
    requires first.words != []
  {
    Block(first.words[0], first.words[1..], second.words)
  }

  lemma JoinSplit(b: Block)
    ensures Join(b.First(), b.Second()) == b
  {
    assert ([b.sum] + b.low)[1..] == b.low;
  }

  /** The sum over all words of a block but the first. */
  method CheckSum(b: Block) returns (sum: word)
    ensures sum == b.Stamped().sum
  {
    var words := b.low + b.high;
    sum := 0;
    var i := 0;
    while i < |words|
      invariant 0 <= i <= |words|
      invariant sum == WordSum(words[..i])
    {
      assert words[..i + 1][..i] == words[..i];
      sum := (sum + words[i]) % WORD_RANGE;
      i := i + 1;
    }
    assert words[..i] == words;
  }
}
