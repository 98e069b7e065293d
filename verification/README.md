# APA and PFS: journals, allocation, repair and relocation

This project models the two on-disk storage formats of the repository, the APA partition chain
and the PFS file system inside a partition, together with the partition checker (hdck), the
defragmenter (hdsk) and the file system checker (fsck), and proves properties of the model.

| file | what it is about |
|---|---|
| Words.dfy | 32-bit words, sectors, two-sector blocks and the header checksum |
| Device.dfy | a drive with a volatile write cache, and what a power cut can leave on it |
| WriteAhead.dfy | the commit protocol both journals share |
| ApaJournal.dfy | the partition header cache, its journal, and crash atomicity |
| PfsJournal.dfy | the file system journal with its sparse index, and crash atomicity |
| PfsCache.dfy | the write-back cache with pins and its ring, refined to a flat block store |
| Powers.dfy | powers of two and divisibility |
| ApaChain.dfy | the partition chain and its algebra: split, merge, insert, delete |
| ApaTable.dfy | the partition table in memory and on the platter: the code that splits, merges, inserts and deletes, batch by batch |
| JournalRuns.dfy | runs of journalled batches with other data in between, and power cuts anywhere in them |
| ChainCrash.dfy | the partition table and the journal together: power cuts inside a change |
| Coalesce.dfy | hdck's sweep that merges free partitions |
| LinkRepair.dfy | hdck's repair of arbitrary links |
| Relocation.dfy | what moving a partition does to main/sub references |
| History.dfy | histories of data writes and commits, and what the partitions of the start have become |
| Packing.dfy | when no partition of a size lies above a free slot of that size, and what keeps it so |
| Defrag.dfy | the defragmenter |
| MoveCrash.dfy | the defragmenter and the journal together: power cuts inside a move |
| ZoneBitmap.dfy | the zone allocator over chunked bitmaps |
| InodeSync.dfy | file positions over extent lists |
| InodeGrowth.dfy | growing a file |
| Directory.dfy | directory packing |
| FsckMap.dfy | fsck's paged map of claimed zones |
| Des.dfy, DesPassword.dfy | the block cipher of FIPS PUB 46-3 and the code that computes it |
| DesNumbers.dfy, DesAnswers.dfy | the steps of the cipher on 64-bit numbers, and its known answers followed by them |

Conventions. Device calls succeed. A drive is a map from addresses to values with a list of
pending writes; after a cut every address independently has its durable value or any value that
was waiting for it, and a flush makes all of them durable. Log headers are written as one unit.
In `ApaTable`, `PartitionTable.FlushAllDirty` takes all dirty headers to the platter in one step
and records it; that a real flush, a run of log writes, cache flushes, home writes and a reset,
is all or nothing is not assumed: `ApaJournal.CrashAtomic` proves it of any batch of up to 126
headers, `ChainCrash.ChangeCrash` and `ChainCrash.ChangeSurvives` carry it to whole insertions,
deletions and passes of hdck, and `MoveCrash.HistoryCrash` to runs of the defragmenter, whose
copied data waits in the cache of the drive until the batch that names it; the log header sector
is atomic. Integers are unbounded but for the words of headers, logs and positions, where the
wrap is written out. Words of bitmaps and of the cipher are sequences of bits. Loops of the
sources are loops here; one loop body is often a method of its own. Where a source loop is
repeated with other tables, as in the cipher, it is written once.

Where the code does not do what its surroundings suggest, the code is followed:

- `pfsInodeSync` computes zones modulo 2^32. `InodeSync.SyncWraps` is the input that shows it
  departs from addition, and `InodeSync.SyncExactlyWhen` is the exact condition.
- `pfsBitmapSearchFreeZone` tests an unsigned counter with `>= 0`, so the search ends exactly when
  some zone is free (common/libpfs/src/bitmap.c:231-245): `ZoneBitmap.ZoneMap.SearchFreeZone` and
  `ZoneBitmap.ZoneMap.SearchInVain` are the two halves.
- `fsckCheckZones` leaves its page pinned when it reports an overlap (fsck/fsck.c:324-327).
- The temporary map of fsck leaves out up to 7 zones at the end of a set whose size leaves such a
  rest on a page of its own (fsck/bitmap.c:114-150); `FsckMap.Pager.constructor` says when.
- `apaDelete` makes two rounds of merging (common/libapa/src/apa.c:363-368), which do not always
  reach the maximal merge. `Coalesce.TwoRoundsMiss` is a chain that shows it, and
  `Coalesce.DeleteSettlesExactlyWhen` is the exact condition; hdck's pass reaches the maximal merge
  on every chain (`Coalesce.FullyCoalesced`).
- `pfsJournalChecksum` keeps 16 bits of a sum of words (common/libpfs/src/journal.c:34-42), so it does not
  cover the upper half of any word of the index: `PfsJournal.ChangeUnnoticed` is the exact condition.

## Model

| member | source | states |
|---|---|---|
| Words.CheckSum | common/libapa/src/apa.c:378-386 | The loop over a header adds all words but the first modulo 2^32; equals the recursive word sum. |
| Words.ChangedWord | common/libapa/src/apa.c:378-386 | Changing one word changes the sum by the difference modulo 2^32, so no change of a single word goes unnoticed. |
| WriteAhead.CommitCrash | common/libapa/src/cache.c:93-108 | For any log, header and home areas that do not overlap: a power cut after any prefix of the commands, every unflushed sector surviving or not on its own, leaves the disk as before the batch (outside the log), or with the log complete and its header in place, or with the batch home. |
| WriteAhead.InstallCrash | common/libapa/src/journal.c:59-85 | A cut during the copy home and the reset of the log leaves the committed header with an intact log, or the finished disk. |
| ApaJournal.CrashAtomic | common/libapa/src/cache.c:93-108 | A flush of up to 126 dirty headers cut after any command, then any number of recoveries each cut anywhere, then one that completes: every home header is new (and all earlier writes are settled), or everything outside the log is as a cut just before the flush could have left it. |
| ApaJournal.FlushAtomic | common/libapa/src/cache.c:93-108 | The same for one recovery. |
| ApaJournal.RestoreRestarts | common/libapa/src/journal.c:59-85 | A recovery cut at any point, with any unflushed sectors lost, recovers next time to the very disk the first would have left. |
| ApaJournal.FlushCompletes | common/libapa/src/cache.c:93-108 | An undisturbed flush puts every logged header home, makes it durable and leaves an empty log. |
| ApaJournal.DecodeEncode | common/libapa/src/journal.c:66-67 | The one-sector log header reads back as it was written, the count as a signed 32-bit number. |
| ApaJournal.HeaderCache.JournalFlush | common/libapa/src/journal.c:30-39 | Sends exactly flush, header write, flush. |
| ApaJournal.HeaderCache.JournalReset | common/libapa/src/journal.c:41-46 | Empties the journal buffer and writes it between two flushes. |
| ApaJournal.HeaderCache.JournalWrite | common/libapa/src/journal.c:48-57 | Seals the header with its checksum, logs it in slot num and names its home there. |
| ApaJournal.HeaderCache.FlushAllDirty | common/libapa/src/cache.c:93-108 | The commands sent are exactly those of the plan that CrashAtomic is about, for the dirty buffers 1 to n of the device in order; those buffers end clean and sealed, all others, buffer 0 included, untouched. |
| ApaJournal.HeaderCache.JournalRestore | common/libapa/src/journal.c:59-85 | Sends exactly the recovery of the disk found, and leaves the disk as Recover says; a log with another magic is only emptied. |
| ApaJournal.LogIntact | common/libapa/src/journal.c:72-80 | The replay loop never overwrites a log sector it still has to read. |
| PfsJournal.CrashAtomic | common/libpfs/src/journal.c:44-146 | With the log header written as one unit: a flush cut anywhere, any number of recoveries cut anywhere, then a complete one leave all home blocks of main and sub partitions new, or all as before. |
| PfsJournal.FlushAtomic | common/libpfs/src/journal.c:44-65 | The same for one recovery. |
| PfsJournal.RestoreRestarts | common/libpfs/src/journal.c:105-146 | A recovery cut at any point recovers next time to the same disk. |
| PfsJournal.FlushCompletes | common/libpfs/src/cache.c:110-130 | An undisturbed flush puts every dirty block home and leaves an empty log. |
| PfsJournal.ReadBack | common/libpfs/src/journal.c:130-142 | The sparse index over the dump of the whole buffer array reads back exactly the dirty blocks. |
| PfsJournal.EmptyValid | common/libpfs/src/journal.c:67-81 | A log just reset passes its own checksum: it is a valid empty one. |
| PfsJournal.ChangeUnnoticed | common/libpfs/src/journal.c:34-42 | Exactly which change of one log entry the 16-bit checksum misses: one that changes sector plus partition by a multiple of 2^16; the place in the log, the upper half of a word, it never notices. |
| PfsJournal.PlanSound | common/libpfs/src/journal.c:44-65 | Dump, header and home blocks of at most 127 buffers are on the drive and do not overlap. |
| PfsJournal.InLogExactly | common/libpfs/src/superWrite.c:93-96 | What the journal owns is its header and 256 sectors of the main partition from the start of the log on. |
| PfsCache.LinkInRing | common/libpfs/src/cache.c:56-62 | The four pointer updates insert one buffer behind a given one in the doubly linked ring. |
| PfsCache.LinkOutRing | common/libpfs/src/cache.c:64-69 | The two pointer updates remove one buffer from anywhere in the ring. |
| PfsCache.FlushKeeps | common/libpfs/src/cache.c:110-130 | A journalled flush of one mount changes no block value seen through the cache, of any mount. |
| PfsCache.FlushEffect | common/libpfs/src/cache.c:110-130 | The commands of a flush leave every dirty block of the mount home and no other block touched, with nothing pending and a log ready for the next flush. |
| PfsCache.FlushCrash | common/libpfs/src/cache.c:110-130 | A flush of the cache cut after any command, then any number of recoveries cut anywhere, then one that completes: no block of any mount has changed, or every dirty block of the mount is home and no other has changed. |
| PfsCache.ResetCrash | common/libpfs/src/journal.c:67-81 | A flush with nothing to write, which only resets the log, cut anywhere: nothing outside the log has changed. |
| PfsCache.RetakeKeeps | common/libpfs/src/cache.c:145-152 | Giving a clean buffer to another block loses no block value. |
| PfsCache.ItemsComplete | common/libpfs/src/journal.c:49-59 | Every dirty buffer of the mount is indexed. |
| PfsCache.ItemsOrdered | common/libpfs/src/journal.c:49-59 | Indexed buffers are in buffer order, none twice, so 127 buffers give at most 127 entries and log offsets below 256. |
| PfsCache.Cache.constructor | common/libpfs/src/cache.c:220-231 | All buffers start free, on the ring in order, holding nothing. |
| PfsCache.Init | common/libpfs/src/cache.c:205-233 | More than 127 buffers are refused, and only they. |
| PfsCache.Cache.Link | common/libpfs/src/cache.c:56-62 | The pointer updates of inserting. |
| PfsCache.Cache.Unlink | common/libpfs/src/cache.c:64-69 | The pointer updates of removing. |
| PfsCache.Cache.JournalWrite | common/libpfs/src/journal.c:44-65 | The index names exactly the dirty buffers of the mount and the dump is the whole array; inode checksums are brought up to date first. |
| PfsCache.Cache.JournalFlush | common/libpfs/src/journal.c:90-103 | Checksums the index and sends it between two flushes. |
| PfsCache.Cache.JournalReset | common/libpfs/src/journal.c:67-81 | Sends the empty log between two flushes. |
| PfsCache.Cache.FlushAllDirty | common/libpfs/src/cache.c:110-130 | Every dirty buffer of the mount ends clean, no other changes, the commands are those of the plan, and the cache still stands for the same store. |
| PfsCache.Cache.Alloc | common/libpfs/src/cache.c:132-153 | The victim is the ring head; a dirty one is flushed first with its mount; null exactly when the ring is empty; no block value is lost. |
| PfsCache.Cache.GetData | common/libpfs/src/cache.c:155-189 | A loaded read sees the last value written; a block with a buffer keeps it and only gains a user; a block without takes the ring head; no value of any block changes. |
| PfsCache.Cache.Find | common/libpfs/src/cache.c:163-167 | Finds the buffer of a (mount, sub, block) if there is one. |
| PfsCache.Cache.Free | common/libpfs/src/cache.c:30-54 | One user fewer; the last puts an owned buffer at the end of the ring and an invalidated one at its head; an unused one is left alone. |
| PfsCache.Cache.UsedAdd | common/libpfs/src/cache.c:71-75 | One user more, nothing else. |
| PfsCache.Cache.Modify | common/libpfs/src/blockWrite.c:110-112 | A client of a pinned buffer writes it: the flat store changes at that block only. |
| PfsCache.Cache.AllocClean | common/libpfs/src/cache.c:191-195 | A buffer of no mount from the ring head; no block value changes. |
| PfsCache.Cache.Close | common/libpfs/src/cache.c:235-244 | Flushes the mount and disowns all its buffers, losing no value. |
| PfsCache.Cache.MarkClean | common/libpfs/src/cache.c:246-256 | Forgets changes to exactly the blocks of the range; the only discard there is. |
| PfsCache.Cache.JournalRestore | common/libpfs/src/journal.c:105-146 | Replays a believed, non-empty log and empties it; the disk ends as Recover says and the store of the other mounts is kept; fails only without a free buffer; the ring is afterwards as it was. |
| ApaTable.PartitionTable.FillHeader | common/libapa/src/apa.c:95-124 | A header from scratch; only a sub partition names its main and number. |
| ApaTable.PartitionTable.MakeEmpty | common/libapa/src/apa.c:216-236 | Keeps place and links and forgets everything else. |
| ApaTable.PartitionTable.RemovePartition | common/libapa/src/apa.c:196-214 | The header of a free partition from scratch. |
| ApaTable.PartitionTable.DeleteFixPrev | common/libapa/src/apa.c:238-281 | The block grows down over free partitions as long as the result is a power of two that divides its start; in one batch; terminates. |
| ApaTable.PartitionTable.DeleteFixNext | common/libapa/src/apa.c:284-328 | The same upwards; a block that grows is emptied. |
| ApaTable.PartitionTable.Delete | common/libapa/src/apa.c:331-376 | The first partition is refused with -EACCES; the last goes with all free ones before it; any other is merged twice or emptied; every committed batch leaves a gapless, correctly linked chain with all other used partitions untouched. |
| ApaChain.DeletedFacts | common/libapa/src/apa.c:331-376 | Deleting keeps the chain sound (no gaps, power-of-two lengths dividing starts, last in use), keeps every other used partition, and leaves nothing in use at the target. |
| ApaChain.MergeDownFacts | common/libapa/src/apa.c:248-266 | The downward merge stops only at a used partition or a sum that does not fit. |
| ApaChain.MergeUpFacts | common/libapa/src/apa.c:295-313 | The upward merge stops only at a used partition or a sum that does not fit. |
| ApaTable.PartitionTable.InsertPartition | common/libapa/src/apa.c:126-157 | A free partition is halved to size, each halving one batch; the new one takes the bottom piece; every batch is good. |
| ApaChain.InsertedFacts | common/libapa/src/apa.c:126-157 | Inserting keeps the chain sound and every used partition, and puts the new one at the start of the free block with the asked size. |
| ApaChain.InsertDelete | common/libapa/src/apa.c:126-376 | Inserting into a free block without a mergeable buddy and deleting again brings back every start, length, link and type; the block ends with an emptied body, whatever its body was. |
| ApaChain.InsertDeleteExactlyWhen | common/libapa/src/apa.c:126-376 | Inserting and deleting gives back the chain (the body of the block emptied) if and only if no free buddy can be merged with the free block. |
| ApaChain.InsertDeleteShrinks | common/libapa/src/apa.c:126-376 | With a mergeable buddy the deletion swallows it: the chain is shorter than before the insertion. |
| ApaChain.JoinedHolds | common/libapa/src/apa.c:267-279 | The header updates of a merge give exactly the links of the joined chain: prev stays the inverse of next. |
| ApaChain.HalvedHolds | common/libapa/src/apa.c:135-151 | The header updates of a split give exactly the links of the halved chain. |
| ApaChain.TrimmedHolds | common/libapa/src/apa.c:349-358 | Cutting off the last partition keeps the links, with the first header naming the new last one. |
| ApaTable.PartitionTable.FlushAllDirty | common/libapa/src/cache.c:93-108 | The platter takes all dirty headers, at most 126 and each of a partition of the new chain, and nothing else; the commit is recorded. ChainCrash proves that a power cut within it is all or nothing. |
| ChainCrash.StartGrid | common/libapa/src/apa.c:126-157 | Partitions no smaller than the unit start on its grid, so their headers are clear of the log and of each other. |
| ChainCrash.FlushLists | common/libapa/src/cache.c:93-108 | If the cache buffers hold the dirty headers of the table, the batch that the flush sends lists each of them once, checksummed. |
| JournalRuns.EventEnds | common/libapa/src/cache.c:93-108 | A batch makes durable all data sent before it, and leaves the journal at rest; data alone only waits. |
| JournalRuns.EventCrash | common/libapa/src/cache.c:93-108 | A batch cut after any command, with data still in the cache of the drive and unflushed writes lost in any way, and after any number of recoveries cut short: what a cut just before it or just after it could have left. |
| JournalRuns.RunCrash | common/libapa/src/journal.c:30-85 | The same for any run of batches and data: outside the log, what a cut between two events could have left. |
| ChainCrash.DoneShows | common/libapa/src/cache.c:93-108 | After a batch every header of the next chain is on the platter, those written and those left alone. |
| ChainCrash.TableCrash | common/libapa/src/journal.c:30-85 | Cut anywhere in a run of batches, with data written in between that misses the headers, recovery shows the chain of one of the commits. |
| ChainCrash.ChangeCrash | common/libapa/src/apa.c:126-376 | Cut anywhere inside an insertion, a deletion or hdck's pass over free partitions, the drive recovers to the chain before it or to one that a batch of it committed. |
| ChainCrash.ChangeSurvives | common/libapa/src/apa.c:126-376 | So after a cut the drive shows a gapless, correctly linked chain in which every used partition but the target is untouched. |
| Coalesce.DeleteSettlesExactlyWhen | common/libapa/src/apa.c:363-368 | Deleting inside a chain without buddies leaves none if and only if, in the chain before the deletion, the partition below those that two rounds reach is in use or does not fit with them. |
| Coalesce.MergedBlock | common/libapa/src/apa.c:363-368 | What the two rounds merge, read off the chain before the deletion. |
| Coalesce.TwoRoundsMiss | common/libapa/src/apa.c:363-368 | A chain of eight partitions without buddies on which the two rounds leave a pair of them. |
| Coalesce.LastSettles | common/libapa/src/apa.c:344-359 | Deleting the last partition of a chain that has no buddies makes none. |
| Coalesce.DeleteFreePartitions | hdck/hdck.c:414-429 | One left-to-right pass computes Swept of the chain, every batch on the way good; terminates. |
| Coalesce.SweptSettled | hdck/hdck.c:414-429 | The pass keeps every used partition and leaves no two free partitions that could merge. |
| Coalesce.NothingLarger | hdck/hdck.c:414-429 | Then no aligned power-of-two extent larger than a free partition in it is entirely free. |
| Coalesce.FullyCoalesced | hdck/hdck.c:414-429 | So after the pass every such extent has a used partition in it, and used partitions are untouched. |
| LinkRepair.LinkChecker.AddPartitionToList | hdck/hdck.c:101-121 | -EEXIST exactly for a sector already listed; otherwise it is listed. |
| LinkRepair.LinkChecker.CheckLinks | hdck/hdck.c:124-223 | Terminates on any links; 0 exactly when the walk up ends, or the walk down does once the walk up mended its back links; on 0 the links are right; right links are left alone with result 0; only links change. The four error addresses are where the stuck walk up and, if that is stuck too, the walk down lead and the headers before. |
| LinkRepair.LinkChecker.ScanUp | hdck/hdck.c:145-161 | Meets each header once, mends its prev, and stops only at the end, a header met before or an unreadable one. |
| LinkRepair.LinkChecker.ScanDown | hdck/hdck.c:179-200 | The same along prev, mending next. |
| LinkRepair.LinkChecker.FallBack | hdck/hdck.c:178-219 | Mends the table exactly when the walk down completes. |
| LinkRepair.StuckUnique | hdck/hdck.c:145-161 | All walks that go as far as they can are the same. |
| LinkRepair.BothWays | hdck/hdck.c:202-213 | Right links read from the other end are right links. |
| LinkRepair.RepairedRight | hdck/hdck.c:163-169 | A completed walk with its back links mended, and the first header's, has prev as the exact inverse of next. |
| LinkRepair.ChainLinks | hdck/hdck.c:124-223 | Every table that holds a chain of ApaChain has right links, so the repair leaves it alone. |
| Relocation.LinkedMoved | hdsk/hdsk.c:326-360 | Renaming partition addresses injectively keeps every main/sub reference pair consistent. |
| Relocation.SwappedLives | hdsk/hdsk.c:295-379 | After the header switch the partitions in use are exactly the old ones renamed: same identity, length and references, only addresses changed. |
| Relocation.SubReferred | hdsk/hdsk.c:326-343 | When a sub moves, one entry of its main's list is all that refers to it, and the entry the search finds is that one. |
| Relocation.MainReferred | hdsk/hdsk.c:346-360 | When a main moves, exactly the partitions on its list refer to it. |
| Relocation.LinkedMinus | hdsk/hdsk.c:61-77 | Removing a main with all its subs leaves no dangling reference. |
| Relocation.ImageThen | hdsk/hdsk.c:468-530 | Two moves after each other are one renaming. |
| Defrag.Defragmenter.CopyPartition | hdsk/hdsk.c:251-293 | Sectors 2 to the end of the slot become those of the source, by exactly the buffer writes of the copy in their order; nothing else is written, and no write hits a partition in use. |
| Defrag.Defragmenter.SwapPartition | hdsk/hdsk.c:295-379 | The chain ends as Swapped says, in exactly one batch; MoveCrash.SwapCrash says what a power cut inside that batch leaves; at the old place a _tmp header of the same type is left that says nothing else. |
| Defrag.Defragmenter.TellMain | hdsk/hdsk.c:326-343 | The main's list names the moved sub's new address. |
| Defrag.Defragmenter.TellSubs | hdsk/hdsk.c:346-360 | Every sub names the moved main's new address. |
| Defrag.Defragmenter.MovePartition | hdsk/hdsk.c:381-407 | 0 exactly when the slot is free and of the source's size; then the history is the copy and after it one commit, every partition in use is kept under the renaming with its data, and no data write hits one; otherwise -1 and nothing changes. |
| Defrag.Defragmenter.FindTmp | hdsk/hdsk.c:48-59 | Finds the left-over partition if there is one. |
| Defrag.Defragmenter.RemoveTmp | hdsk/hdsk.c:41-85 | The left-over partition and its subs go; all others keep identity, references and data, in every batch committed on the way; two sectors are blanked after the last batch, where neither a header nor a partition in use is; without a left-over nothing happens. |
| Defrag.MovedData | hdsk/hdsk.c:251-293 | With the copy made, every partition has at its address after the move the data it had. |
| Defrag.Defragmenter.FindEmptyPartition | hdsk/hdsk.c:87-108 | The first free partition of exactly that size. |
| Defrag.Defragmenter.IsPartitionOfSize | hdsk/hdsk.c:110-124 | False exactly for a free partition of that size. |
| Defrag.Defragmenter.FindLastUsedPartition | hdsk/hdsk.c:139-178 | The last used partition of that size above the slot, in mode 1 only one whose buddy is free or missing at the end. |
| Defrag.Defragmenter.MoveSize | hdsk/hdsk.c:479-519 | The inner loop terminates, the sum of addresses falling with every move, and leaves nothing of that size in use above a free slot of that size, nor of any smaller one if that held before; everything is carried along. |
| Defrag.Defragmenter.MoveOne | hdsk/hdsk.c:479-519 | A turn moves to the first free slot of the size the last partition of that size above it whose buddy is free, or else the last of that size; it ends the loop when there is none, and the sum of the addresses falls otherwise. |
| Defrag.StepFalls | hdsk/hdsk.c:504-516 | Each move strictly lowers the sum of the addresses of the partitions there were at the start. |
| Defrag.Defragmenter.HdskThread | hdsk/hdsk.c:468-530 | At the end, for every size from the smallest up to partitionMaxSize, nothing of that size in use lies above a free slot of that size. Over the whole run there is one injective renaming, never upwards, under which every partition of the start is there with identity, length, references and data; the history of data writes and commits is told by views that each show such a renaming; the run ends. |
| Packing.DeletedThins | hdsk/hdsk.c:41-90 | Deleting a left-over partition with its two rounds of merging adds and moves no partition smaller than it. |
| Packing.SwappedPacked | hdsk/hdsk.c:295-373 | Moving a partition leaves all smaller sizes as packed as they were. |
| Packing.PackedThin | hdsk/hdsk.c:477-526 | A size of which partitions have only gone stays packed. |
| History.ToldCopy | hdsk/hdsk.c:251-293 | While a partition is being copied to a slot where nothing is in use, every partition of the start is still there with its data. |
| History.ToldSwap | hdsk/hdsk.c:295-379 | The switch of headers after a copy: what moves has all been written at its new place since the last commit. |
| History.ToldCommits | hdsk/hdsk.c:41-85 | Batches that move nothing leave every partition of the start where it is. |
| MoveCrash.SwapCrash | hdsk/hdsk.c:295-379 | The batch of a move cut after any command while the copied data is still in the cache of the drive, and recovered with any number of cuts: the old headers with every sector outside log and slot as it was, or the new headers with every sector that is neither log nor header as copied. |
| MoveCrash.WroteBears | hdsk/hdsk.c:251-293 | Data sent to a slot disturbs no data that the drive already has. |
| MoveCrash.CommitBears | hdsk/hdsk.c:368-370 | The first flush of the batch makes the copy durable before the headers name it. |
| MoveCrash.HistoryCrash | hdsk/hdsk.c:251-407 | Cut anywhere in a history of copies, switches and removals, and recovered with any number of cuts, the disk shows the gapless, linked chain of some point of it with every partition of the start in it, references and data and all: at its old place or its new one, never neither. |
| MoveCrash.DefragCrash | hdsk/hdsk.c:468-530 | The same of a whole run of the defragmenter, by the history and the views that HdskThread leaves. |
| ZoneBitmap.ZoneMap.AllocFree | common/libpfs/src/bitmap.c:39-78 | Sets or clears exactly count bits from the given one on, across words and chunks. |
| ZoneBitmap.ZoneMap.AllocZones | common/libpfs/src/bitmap.c:148-209 | Found exactly when `amount` free zones in a row exist at or after bi.number; takes the lowest such start and sets exactly min(count, amount) bits. |
| ZoneBitmap.ZoneMap.FindRun | common/libpfs/src/bitmap.c:160-207 | The scan finds the first run or proves there is none. |
| ZoneBitmap.MarkedBack | common/libpfs/src/bitmap.c:249-267 | Freeing the zones just taken from a free run restores the bitmap. |
| ZoneBitmap.ZoneMap.AllocateAdditionalZones | common/libpfs/src/bitmap.c:81-144 | Takes the longest free run right behind the segment within the request and the 16-bit count; counts follow. |
| ZoneBitmap.ZoneMap.SearchFreeZone | common/libpfs/src/bitmap.c:214-246 | With a free zone anywhere it succeeds within one visit more than there are partitions, in the first partition of the tour that has a free zone where it is tried (from the given zone on at first, then from zone 0), with the first of the longest runs among count, count/2, ..., 1 there are, of which it takes at most what was asked for; count is the larger of the request and the lesser of maxCount and 32. |
| ZoneBitmap.ZoneMap.TryPartition | common/libpfs/src/bitmap.c:232-239 | Found exactly when there is a free zone at or after the position; then the first run of the first length among count, count/2, ..., 1 that has one, and no run of a longer one is there. |
| ZoneBitmap.ZoneMap.SearchInVain | common/libpfs/src/bitmap.c:231-244 | With no free zone at all, after any number of turns of the loop nothing is found, nothing has changed and the test of the loop still holds: it never ends. |
| ZoneBitmap.ZoneMap.FreeBlockSegment | common/libpfs/src/bitmap.c:249-267 | Clears exactly the segment's bits; counts follow. |
| ZoneBitmap.ZoneMap.CalcFreeZones | common/libpfs/src/bitmap.c:270-300 | The nibble-table recount is the number of clear bits. |
| ZoneBitmap.NibbleClear | common/libpfs/src/bitmap.c:273-292 | The nibble table holds the free zones of each nibble. |
| ZoneBitmap.TourGoesOn | common/libpfs/src/bitmap.c:229-244 | As long as no visited partition had a free zone, one not visited has. |
| InodeSync.SyncIsAddition | common/libpfs/src/inode.c:67-106 | While the zone count does not wrap, a move is byte addition: it succeeds exactly within capacity and lands on the target. |
| InodeSync.SyncExactlyWhen | common/libpfs/src/inode.c:67-106 | Exactly when the 32-bit zone arithmetic agrees with addition about success, for every size. |
| InodeSync.SyncWraps | common/libpfs/src/inode.c:67-106 | A move by a multiple of 2^32 zones succeeds and stays put: the arithmetic does wrap. |
| InodeSync.SyncAdditive | common/libpfs/src/inode.c:67-106 | Two moves are one move by the sum. |
| InodeSync.OnePosition | common/libpfs/src/block.c:68-80 | A byte of the file has one (segment, zone, byte) position. |
| InodeSync.BlockPos.SyncPos | common/libpfs/src/block.c:68-80 | Takes the byte part of a move with carry and leaves the zones, modulo 2^32. |
| InodeSync.BlockPos.Sync | common/libpfs/src/inode.c:67-106 | The walk over direct and indirect descriptors computes Synced: the position, or -EINVAL. |
| InodeSync.EndIsBeyond | common/libpfs/src/inode.c:67-106 | From just behind the last byte a move of a zone or more fails. |
| InodeSync.StartIsFirst | common/libpfs/src/inode.c:67-106 | From the start of a file of size 0 the walk goes as from its first data zone. |
| InodeSync.InitPos | common/libpfs/src/block.c:82-95 | Opening at a byte offset gives that position, or fails exactly past capacity. |
| InodeSync.NextEntry | common/libpfs/src/misc.c:163-170 | Descriptors never follow one another, and the next segment is in the same descriptor unless it is one. |
| InodeGrowth.Inode.ExpandSegment | common/libpfs/src/blockWrite.c:25-43 | The last extent grows by exactly the zones that are free in a row behind it, up to the request and what its 16-bit count can say; a descriptor's zone never grows; totals follow. |
| InodeGrowth.Inode.AddExtent | common/libpfs/src/blockWrite.c:55-68 | A new extent is what the search from the end of the last one comes upon for the zones asked for. |
| InodeGrowth.Inode.AllocNewSegment | common/libpfs/src/blockWrite.c:46-125 | -ENOMEM changes nothing; otherwise a descriptor where one is due, an extent found from the end of the last one, and its growth by what is still wanting; the result is the data zones added; extents stay disjoint and all totals exact. |
| InodeGrowth.Inode.AllocZones | common/libpfs/src/dir.c:599-624 | First the last extent grows as far as it can towards ceil(msize / zone size); then segments are added, each for all that is wanting, until nothing is (result 0) or the buffers are used up (-ENOMEM). Success adds exactly that many data zones, keeping number_blocks the sum of extents, number_segdesg the descriptors, last_segment the last one, all extents disjoint; nothing is done in mode 0 when there is enough. |
| InodeGrowth.FilledKeeps | common/libpfs/src/dir.c:617-621 | Extents are added only when zones are wanting, and those there were stay as they are. |
| InodeGrowth.OwnedSnoc | common/libpfs/src/blockWrite.c:99-117 | An extent taken from free zones is disjoint from all others. |
| InodeGrowth.OwnedGrow | common/libpfs/src/blockWrite.c:33-40 | An extent grown by free zones stays disjoint from all others. |
| InodeGrowth.TallySnoc | common/libpfs/src/blockWrite.c:56-119 | Appending an extent, a descriptor or not, keeps the totals and the descriptor links. |
| InodeGrowth.CeilLeast | common/libpfs/src/dir.c:606-607 | The zones asked for are the fewest that hold msize bytes. |
| InodeGrowth.HeadsStep | common/libpfs/src/misc.c:163-170 | A descriptor is due exactly after 114 segments and every 123 from there. |
| Directory.Directory.GetDentry | common/libpfs/src/dir.c:28-110 | On any bytes the scan ends: from 0 on, each offset where the last entry ended, past sound entries that do not meet the criterion, up to the first that does, to a malformed one, or to the end. In a directory that is in order it is the first of all entries that meets the criterion, or there is none. |
| Directory.Directory.AddEntry | common/libpfs/src/dir.c:158-187 | If a directory of the same size that has one entry more for the name, all others saying what they said where they were, can exist at all, the result is one, with the new entry at the lowest offset possible; otherwise a sector is appended, or, without room for that, it fails and nothing changes. The tiling holds and the name map gains exactly that name. |
| Directory.LowestPlace | common/libpfs/src/dir.c:71-73 | The first entry with room by the criterion of the scan gives the lowest offset of all where the new entry could go. |
| Directory.FullCannot | common/libpfs/src/dir.c:71-73 | When no entry has room by the criterion, no well-formed directory of the same size holds the old entries and the new one. |
| Directory.Directory.RemoveEntry | common/libpfs/src/dir.c:189-227 | False exactly for a name that is not there; the tiling holds, the name map loses exactly that name. |
| Directory.CarveMerge | common/libpfs/src/dir.c:189-227 | Removing an entry carved from slack gives the slack back exactly. |
| Directory.CarvedValid | common/libpfs/src/dir.c:165-186 | Carving keeps every sector exactly tiled and names unique. |
| Directory.MergedValid | common/libpfs/src/dir.c:209-211 | Merging into the entry before keeps the tiling and drops only that name. |
| Directory.DroppedValid | common/libpfs/src/dir.c:212-218 | An empty last sector goes without loss. |
| Directory.TakenFacts | common/libpfs/src/dir.c:72-72 | The rounded length of an entry is a multiple of 4 that holds header and name. |
| FsckMap.Pager.constructor | fsck/bitmap.c:114-150 | A blank map; its pages cover the size exactly when no rest of less than a byte of zones begins a page; with more than four pages, all are blank on disk. |
| FsckMap.Pager.Read | fsck/bitmap.c:50-83 | Pins the buffer of a page, giving it the oldest free buffer with a write-back when it has none; the flat set reads the same. |
| FsckMap.Pager.Free | fsck/bitmap.c:86-95 | One user fewer; the last puts the buffer at the end of the ring. |
| FsckMap.Pager.GetEntry | fsck/bitmap.c:98-111 | Buffer and word of a zone, with nothing left pinned. |
| FsckMap.Pager.CheckZones | fsck/fsck.c:308-342 | 0 exactly when none of the zones was claimed; then exactly they are added and the claim joins disjoint claims whose union the set is; 1 names a claimed zone hit, the ones before it set, and the page of that zone has one user more than before, every other page as many; on 0 every page has as many. |
| FsckMap.Pager.Reserve | fsck/fsck.c:1038-1045 | The reserved zones of all partitions are claimed without overlap. |
| FsckMap.Pager.CompareBitmap | fsck/fsck.c:707-747 | Each word that differs is replaced exactly where the reply says so; with all accepted the bitmap on disk is the claimed set; exactly the words that differ are asked about, and exactly the blocks that changed are written. |
| FsckMap.EvictContent | fsck/bitmap.c:65-80 | Write-back and reload of a buffer change no page as read. |
| FsckMap.SetContent | fsck/fsck.c:329-330 | Setting a bit of a buffered page sets exactly that bit of the flat set. |
| FsckMap.ClaimJoins | fsck/fsck.c:308-342 | A claim of unclaimed zones is disjoint from all claims, and the set stays their union. |
| FsckMap.DisjointExactly | fsck/fsck.c:308-342 | Claims are disjoint exactly when no zone is in both. |
| FsckMap.BlockInPage | fsck/fsck.c:715-723 | A bitmap block never straddles a page. |
| Des.DecipherEncipher | common/libapa/src/password.c:315-493 | FIPS PUB 46-3, Deciphering: the same rounds with the keys in reverse undo enciphering, for every key schedule and block. |
| Des.Bijection | common/libapa/src/password.c:315-493 | For every key schedule the block map is injective and onto. |
| Des.RoundsUndone | common/libapa/src/password.c:352-457 | The Feistel rounds, halves swapped and keys reversed, undo themselves whatever the round function. |
| Des.InitialThenFinal | common/libapa/src/password.c:73-118 | FP and IP are inverse permutations. |
| Des.FullCircle | common/libapa/src/password.c:64-64 | FIPS PUB 46-3, Appendix 1: the rotations sum to 28, so C16 = C0 and D16 = D0. |
| DesPassword.Permute | common/libapa/src/password.c:141-165 | The loop with shifted masks computes exactly the table's permutation of the 64 bits, zeros behind. |
| DesPassword.Rotate | common/libapa/src/password.c:186-248 | The shifts and masks rotate 28 bits left by one or two; the upper word stays 0. |
| DesPassword.KeySchedule | common/libapa/src/password.c:130-304 | The sixteen pairs are the sixteen round keys of the cipher. |
| DesPassword.Substitute | common/libapa/src/password.c:388-420 | The loop from the last box to the first computes the eight substitutions. |
| DesPassword.RoundFunction | common/libapa/src/password.c:352-453 | Expansion, key addition, boxes and permutation compute the cipher function; the lower word stays 0. |
| DesPassword.SixteenRounds | common/libapa/src/password.c:341-457 | The loop computes the rounds of the cipher, lower words staying 0. |
| DesPassword.DESEncryptPassword | common/libapa/src/password.c:52-498 | The word-level code enciphers the identifier with the round keys of the password; on the nineteen keys and blocks of the substitution table test it gives the published answers. |
| DesAnswers.KnownAnswers | common/libapa/src/password.c:60-118 | The nineteen answers of the substitution table test of NIST SP 800-17, which reach every entry of every box, by all tables and rotations. |
| DesAnswers.RoundWord | common/libapa/src/password.c:352-457 | A round on 64-bit numbers with shifts and masks is the round of the cipher on their bits. |
| DesNumbers.BoxedWord | common/libapa/src/password.c:388-420 | The boxes packed in 64-bit numbers, a row to a number, compute the substitution. |
| DesNumbers.SelectedWord | common/libapa/src/password.c:254-304 | Picking the round key from 56 bits by shifts and masks is the second choice of the key schedule. |

## Left out

- User interface, graphics, module loading, ioctl and devctl plumbing, messages, clocks and time stamps.
- I/O errors and the branches they take, in all modules; the parameters `alloc` (Directory) and `room` (InodeGrowth) stand for what allocation outside the model came to.
- ApaJournal.HeaderCache.FlushAllDirty: asks for at most 126 dirty headers, which the code does not check.
- ApaJournal.HeaderCache.JournalRestore: asks that a log with the right magic has at most 126 headers whose homes are on the drive, clear of the log and disjoint; the code replays any.
- ApaJournal.CrashAtomic: the log header sector is written whole or not at all.
- PfsJournal.CrashAtomic: the two sectors of the log header are written as one unit.
- PfsCache.Cache.JournalRestore: asks that the buffer it takes needs no spill, for a spill uses the journal buffer the log was just read into; the mount is new and the log is sane.
- PfsCache.Cache.Modify: stands for what clients do with a pinned buffer and PFS_CACHE_FLAG_DIRTY; the code has no such function.
- PfsCache.Cache.GetData: a failed read (the error path with an invalidated buffer) is not modelled.
- The ring of the APA header cache, its pins and apaCacheGetHeader: PartitionTable reads and writes headers by sector.
- ApaTable.PartitionTable.InsertPartition: asks for a free partition that is not the last and a power-of-two size that fits and is no less than the smallest partition, as its callers choose them; passwords and time stamps are not part of a header here.
- ApaTable.PartitionTable.FlushAllDirty: one step here; the commands it stands for, and what a cut among them leaves, are in ApaJournal, JournalRuns and ChainCrash.
- ChainCrash.ChangeCrash: the layout of a header in its two sectors is a parameter; the cache buffers are any that hold the dirty headers (`Mirrors`), the smallest partition is a power of two of at least 262 sectors; the journal is at rest when the change begins.
- LinkRepair.LinkChecker.CheckLinks: built with HDCK_CHECK_CROSSLINK; each header's start is its LBA and there are at most 16384 headers; each fix is one update of the table, its journalled flush is ApaJournal's.
- The rest of hdck: erasing, recovering sub partitions, CheckPartitions, MarkUnreadablePartionAsEmpty.
- Defrag.Defragmenter.HdskThread: moves single partitions; the search for blocks of partitions finds nothing (hdskFindLastUsedBlock, MovePartitionsBlock and SplitEmptyPartition are not modelled), no stop is requested, and HDLoader slices are not rewritten.
- MoveCrash.HistoryCrash: the data of the first partition is claimed outside the log area only, and what a sector holds is a parameter of the model; reads of the defragmenter see the data it wrote.
- Defrag.Defragmenter.MovePartition: asks that no _tmp partition is left over, as its caller sees to; references between mains and subs are consistent, partitions are at least 128 MB and a multiple of the copy buffer, and the first partition is a main one.
- Defrag.Defragmenter.RemoveTmp: asks for at most one left-over _tmp partition.
- Defrag.Defragmenter.SwapPartition: the early return for a sub that its main does not list cannot happen with consistent references and is not written out.
- hdsk/sim.c and fssk are not modelled.
- ZoneBitmap.ZoneMap.SearchFreeZone: asks for a free zone, for SearchInVain covers the case without one, and for a count of at least 1.
- ZoneBitmap.ZoneMap.AllocZones: asks for a positive amount and count; zone counts of partitions are multiples of 32.
- pfsBitmapFreeInodeBlocks and pfsFreeZones.
- InodeSync.BlockPos.Sync: the position is in the file, behind its last byte, or at the start of a file of size 0.
- InodeGrowth.Inode.AllocZones: asks for at most 65535 zones and for as many free zones as the growth can need at worst; the search for zones would not end without one.
- Directory.Directory.AddEntry: names are unique, not empty and at most 255 characters; the caller looked the name up first.
- pfsGetDentry with the option that looks for any entry besides . and .., and directories of more than one mount.
- FsckMap.Pager.CheckZones: asks for zones within the map and for a buffer nobody has pinned, which holds for up to three results of 1.
- FsckMap.Pager.CompareBitmap: the main partition only, of a multiple of 32 zones, with blocks that divide a page.
- fsck of sub partitions, of directories and inodes.
- DesPassword.DESEncryptPassword: shift counts are taken modulo 32, as the target machine does; words are given, not bytes.
