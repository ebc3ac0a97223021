# Seal FTL: a verified model

The flash translation layer in `ftl_seal/` maps 4 KB chunks of a host's address space to
pages of NAND flash.  It is log structured: host data goes to per-bank DRAM buffers or
straight to the open block of a bank, superseded versions are only counted, and a greedy
collector wins blocks back.  Pages written with the overwrite bit live in blocks whose low
pages may be programmed again in place, up to eight times.  Everything the host sees depends
on a dozen tables agreeing with each other.

This project models those tables, the flash and every procedure that changes them, and proves
that the whole is a flat array of sectors: any sequence of writes, overwrites, trims and reads,
started on a freshly formatted device, that runs to its end returns for each read exactly what
the flat array holds.  A run for which the device has room without collecting does run to its
end; so does any run at all without overwrites on one bank that keeps to 126 host pages for each
block but one, with all the collections it takes (`Run.Session`).

## How it is built

- `Base`, `State`: values, constants, the state of the FTL as one value (`St`), the invariant
  `Inv`, and the logical content of a state (`ContentOf`): for each mapped chunk its data,
  wherever it is.
- `Nand`: the trace of all programs, erases and seals since format, and the rules it keeps.  `Inv`
  says that the trace kept them and that it accounts for every program of every page.
- `Steps`: the moves the FTL is made of.  `ChunkMoves`, `PageMoves`, `BlockMoves`: each move
  keeps `Inv` and changes the content only as told.
- `Measure`, `VictimFrame`, `Internal`, `Sealing`, `Collecting`: what nested internal work
  leaves alone, the measure by which collections terminate, the steps of a seal and of a
  collection, and what the collector's search returns.  `Room`: how much the tables of a bank can
  still take, by which calls are proved to succeed.  `Victims`: which full block a bank gives up,
  when a collection can be afforded, and what it leaves.  `Endurance`: the counting argument by which
  one bank never runs out of blocks.
- `Ftl`: the class with the source's tables as fields (record `Tables`), and beside them the
  ghost fields of the proof (record `Proof`); `View()` is the `St` they stand for.
- `Log` (log.c, garbage_collection.c, the flush path of write.c), `Write`, `Read`, `Trim`,
  `OwLog` and `Overwrite` (overwrite.c), `Host` (ftl.c): the methods, in the source's own form.
- `Shares`: what each bank takes of a sequence of page writes that go to the banks in turn.
- `Run`: whole runs against a reference device.  `Guarantees`: what `Inv` says about every
  state between two host calls, in terms of the tables and the flash.  `Hazards`: what makes a
  block's entries and its heap value disagree, and states in which the collector goes wrong with
  such a block; `Reached` builds two of them from format by the FTL's own moves.
- `Heap`, `CleanList`, `BlockTable`, `AddressCodec`: the data structures under those tables
  (the indexed heap, the pooled linked lists, the block table with its ring of spares, the
  32-bit chunk addresses), each proved against the abstract value that the FTL model uses:
  counts and a member set, a sequence, a flash indexed by log block, a decoded place.
- `Refinement`: at each move of the FTL, from format on, the heap, the clean lists and the block
  table accept the calls the source makes there and stand for the new state afterwards.

A `while(1);` trap is the outcome `Fail(Halted)`.  Three more outcomes mark where a run leaves
the model; they are explained under "Left out".  Method contracts say what holds when the
outcome is `Pass`, and when it must be: `Room.Lasts` says of a call that it passes if every bank
has room for a stated number of chunks, and that no bank loses more than that; `Room.Pays` says it
of one bank.  Each call's number is its own: the chunks it writes, the mapped chunks of a victim for
a collection.  Room is what a bank can take without a collection; beside it the contracts follow all
that it can take, to which a collection adds a block, and so show that a bank short of clean blocks
gets one back.

The flash is NAND flash: programming a page clears bits (`Steps.NandProgram` ANDs with what is
there), only an erase sets them.  That a page or an LPN list is stored as written is proved from
the page being erased, each time.

What the proofs show about the code, beyond the contracts:

- one bank that is never overwritten, and that the host uses for at most 126 pages per block but one,
  never traps, whatever the host writes, trims and reads (`Run.Session`, `Endurance`);
- the collecting branch of `getRWLpn` is never taken (`Log.GetRWLpn`);
- the page loop of the collector always ends by its early return, because the heap value is
  exact (`Log.CollectPages`), and `sealOWBlk` finds exactly the chunks the heap promised
  (`Log.SealOWBlk`), unless a chunk that is only in RAM still has an entry in the block or a count
  is owed to it (`Hazards.TrippedIff`);
- the queue of clean blocks is never full when a block is released (`Internal.CleanRoom`);
- the collector's search returns the owner of a slot unless a chunk that is only in RAM still has
  an entry for that slot, under a smaller index of the same page (`Collecting.SearchRightIff`);
  there is a state in which it does (`Hazards.ReusedSlotMisread`);
- overwriting a whole page that has a chunk in flash, with no open overwrite block and at most one
  clean block in the next bank, makes `overwrite.c` collect with the old versions still in the map
  (`Overwrite.OverwriteCompletePage`); from format three host commands lead to a state where that
  erases mapped chunks (`Hazards.OverwriteWouldErase`);
- overwriting part of an exhausted page can make it collect the block to which it owes a count, and
  give the count back to a block that is clean by then (`Hazards.ExhaustedWouldMiscount`);
- decrementing a count below zero is impossible (`Write.AbandonChunk`, `Overwrite.DecrementByN`);
- overwriting in place equals replacing exactly when the host clears bits only
  (`Overwrite.AgreeIffOnlyClears`);
- `resetValidChunksAndRemove` only lets the moved element sink, so it keeps the heap order
  exactly when that element is not smaller than the father of the removed place
  (`Heap.ValidChunksHeap.ResetAndRemove`, a failing heap in `Heap.RemovalCanBreak`);
- an address encodes and decodes to itself for every place except the eight slots of page 127
  of a bank's last block, whose numbers the DRAM buffer uses (`AddressCodec.RoundTrip`); no
  chunk is ever mapped there (`AddressCodec.TableRoundTrip`).

## Model

| member | source | states |
|---|---|---|
| Run.Session | ftl_seal/ftl.c:795-1062 | From format on, every read of a completed run returns what a flat sector array would, for any writes, trims, reads, and overwrites that only clear bits.  A run completes when its cost, a chunk for each written sector and a block's 1016 for each overwritten one, is below what all blocks of a bank but one hold; a run without overwrites, when that is so of each bank's share of its pages, dealt to the banks in turn; and a run of any length without overwrites on one bank, when it writes to no more than 126 host pages for each block but one, however often it writes them and whatever it collects |
| Run.RunAll | ftl_seal/ftl.c:795-1062 | The same from any ready state and any reference device that agrees with it; afterwards they agree again; room in every bank, or in each bank for its share, makes it complete, and one bank that never saw an overwrite serves its capacity for ever |
| Run.Execute | ftl_seal/ftl.c:795-1062 | One command: its answer and the new content are those of the reference device; after a write the banks are as background cleaning leaves them |
| Run.WholePagesFit | ftl_seal/write.c:192-197 | A run of whole pages leaves each bank's share below what all its blocks but one hold, if all banks together have room for the pages |
| Shares.EqualShares | ftl_seal/write.c:192-197 | Of `n` whole pages written from format on, bank `b` gets exactly `n` divided by the number of banks, rounded up for the banks that come first in turn and down for the others |
| Shares.SharedThen | ftl_seal/ftl.c:987-1004 | Page writes one after the other cost each bank exactly the sum of its shares, and continue the turn where it was |
| Endurance.EnduresRefills | ftl_seal/log.c:218-283 | One bank without overwrites that serves at most 126 host pages for each block but one: when it closes its RW block with one clean block left, all other blocks are full RW blocks, one of them has at most 1008 mapped chunks, and the last clean block is room for them, so a collection can start and ends with a clean block |
| Endurance.IncreaseEndures | ftl_seal/log.c:192-299 | There the next page always finds a block, and the bank is left as it was found |
| Run.PlainRunClears | ftl_seal/ftl.c:970-972 | A run without the overwrite bit asks nothing of the host |
| Run.BlankedAllAgrees | ftl_seal/ftl.c:811-832 | A trim command's range list acts on the chunk map as blanking whole aligned chunks of the flat device |
| Run.AndedAgrees | host_side/device.cpp:98-107 | A bit-clearing overwrite, whichever path the FTL took, is the bitwise AND of the reference device |
| Host.Format | ftl_seal/ftl.c:683-707 | A formatted device satisfies the whole invariant and is empty |
| FtlTables.Ftl.constructor | ftl_seal/log.c:68-101 | Every bank's clean list holds all its blocks in order; nothing is mapped, open, or in a heap |
| Host.FtlWrite | ftl_seal/ftl.c:960-1042 | Without the bit exactly the addressed sectors take the host's data; with it each is replaced by or ANDed with it; no other sector changes.  The call ends with background cleaning: the tables are what it makes of those right after the write, in which each idle bank with an empty full RW block then gives exactly one back and no other bank changes.  Without the bit it succeeds when each bank has room for its share of the pages |
| Host.MarkRoundTrip | ftl_seal/ftl.c:922-923 | An address below the overwrite bit survives marking and masking |
| Host.WriteSectors | ftl_seal/ftl.c:987-1004 | The splitting loop writes exactly the requested range, each page to the bank next in turn; it succeeds when each bank has room for its share, and always on one bank that never saw an overwrite and serves no more than its capacity |
| Host.OverwriteSectors | ftl_seal/ftl.c:1016-1033 | The splitting loop overwrites exactly the requested range |
| Host.BackgroundCleaning | ftl_seal/ftl.c:1044-1062 | Cleaning changes no sector and cannot fail; in each idle bank with an empty full RW block exactly one such block is erased, queued as clean and leaves the heap with its count reset; the clean lists, heaps and counts of all other banks, the cursors and the map are unchanged |
| Host.CleanBank | ftl_seal/ftl.c:1046-1060 | One idle bank: with an empty full RW block exactly one such block is given back and nothing else changes, otherwise nothing changes |
| Write.WriteToLogBlk | ftl_seal/write.c:503-550 | One page's worth of host data replaces exactly its sectors and goes to the bank next in turn: unless a block is erased, its chunks are mapped into that bank, but for those changed in a write buffer that holds them, every other chunk stays where it was, and the turn stands at that bank; with room in that bank for the chunks it touches it succeeds and erases nothing |
| Write.WriteCompletePage | ftl_seal/write.c:552-570 | The eight chunks of the page become the host's, no other chunk changes, though the old versions are given up before the new ones are mapped; unless a block is erased they end in the given bank; with room for a page there it succeeds |
| Write.ManageOldCompletePage | ftl_seal/write.c:223-283 | After all eight old versions are invalidated the state is still consistent, the page's data being only in RAM |
| Write.WritePartialPageOld | ftl_seal/write.c:611-630 | Part of a page, chunk by chunk, replaces exactly its sectors; its chunks go to one bank, but for those changed in a write buffer, and cost it one slot each |
| Write.WriteChunkOld | ftl_seal/write.c:632-730 | The new chunk is the old one, or 0xFF, with the host's sectors in place, for each of the five locations; nothing else changes even if a flush collects |
| Write.NewChunk | ftl_seal/write.c:745-799 | The data assembled in the buffer is the old content with the host's sectors, wherever the old version is |
| Write.AbandonChunk | ftl_seal/write.c:234-283 | Giving up an old version keeps counts and buffer slots in agreement; the count it decrements is never zero |
| Log.GarbageCollectLog | ftl_seal/garbage_collection.c:26-296 | A returning collection erased a full block of the bank with the smallest promise in its heap, in which entries and promise agreed, and changed no chunk's content, no chunk held by another collection, no block owned by one, and no place in a block that is owed a count; nest levels are restored; it terminates by fuel and the number of dead slots; it traps at nest level two and in a bank without a full block; a collection that nothing stops from starting, with no disagreeing block in the bank, completes when every bank has room for the victim's mapped chunks, as with three clean blocks; what the bank can take in all then grows by a block less the chunks moved, and a bank with at most one clean block has one more |
| Log.ChooseVictim | ftl_seal/garbage_collection.c:40-74 | The victim has the smallest heap value of the bank's full blocks, less 504 in overwrite mode; it is an overwrite block if and only if some overwrite value less 504 is below every RW value; there is none exactly when the bank has no full block; it is refused if and only if a chunk that is only in RAM has an entry in it or it is owed a count; otherwise the value is the exact number of its mapped chunks, and fuel is missed exactly when every full block of the bank is an RW block without a dead slot |
| Log.CollectVictim | ftl_seal/garbage_collection.c:76-296 | The chosen block is emptied and erased once more, and the collection completes when every bank has room for exactly its mapped chunks |
| Log.CollectPages | ftl_seal/garbage_collection.c:81-285 | The victim ends without a mapped chunk and erased; the early return is always taken |
| Log.VisitPage | ftl_seal/garbage_collection.c:84-275 | One page more: the mapped chunks found so far never exceed the heap value, and when they reach it the victim is erased and the nest level restored |
| Log.CollectPage | ftl_seal/garbage_collection.c:180-275 | One page with mapped chunks: unless anything but the victim is erased, a page of eight ends as one page of the bank next in turn, each chunk in its slot, and the chunks of any other page go one by one to the banks in turn |
| Log.CopyToNextBank | ftl_seal/garbage_collection.c:181-203 | The page of eight becomes the next page of the bank next in turn, each chunk in its slot; with room for a page there it succeeds |
| Log.CollectFullPage | ftl_seal/garbage_collection.c:181-226 | The eight chunks of a page keep their data while they move; with the last page the victim is released before the cursor moves, so that a bank without another block to open succeeds by taking the victim |
| Log.CollectPartialPage | ftl_seal/garbage_collection.c:228-245 | The mapped chunks of a page keep their data while they go through the GC buffer |
| Log.CollectLastPage | ftl_seal/garbage_collection.c:228-270 | The same when the block is released and may be reused while its last chunks are only in RAM: they succeed if there is room for them with that block |
| Log.FindValidChunks | ftl_seal/garbage_collection.c:90-130 | Slot by slot the search returns the first chunk of the named page whose table entry is that slot |
| Collecting.SearchRightIff | ftl_seal/garbage_collection.c:101-122 | The search returns the slot's mapped chunk, or nothing for a dead slot, if and only if no chunk that is only in RAM has an entry for the slot under a smaller index of the page the list names |
| Collecting.SearchFinds | ftl_seal/garbage_collection.c:90-130 | With no such entry in the block the search of a page finds each mapped chunk there at its slot and nothing else |
| Log.RewriteChunks | ftl_seal/garbage_collection.c:240-252 | Every chunk of the GC buffer becomes mapped again, whatever flushes and collections that takes; unless a block is erased, the `n`th of them is in the bank of the `n`th turn |
| Log.WriteChunkDuringGC | ftl_seal/write.c:122-154 | One chunk held in RAM becomes mapped again with its data; unless a block is erased, in the bank next in turn, and no other chunk leaves its bank |
| Log.FlushLogBuffer | ftl_seal/write.c:62-120 | Flushing a full buffer changes no content and nothing other collections own; unless a block is erased only the flushed chunks move, to a page of the same bank; with room for one page in the bank it succeeds, uses no more and erases nothing |
| Log.ProgramLogBuffer | ftl_seal/write.c:62-92 | The programmed page, LPN list, map and count are one consistent move of the buffered chunks |
| Log.StoreChunk | ftl_seal/write.c:331-357 | A chunk in RAM enters a buffer slot that names it, and the buffer is flushed when full; unless a block is erased it is then in that bank; with room for one chunk in the bank it succeeds and erases nothing |
| Log.GetRWLpn | ftl_seal/log.c:103-190 | Yields the open RW block, else the next clean block while another is left, else the cheapest full overwrite block, sealed and at page 2, the clean list untouched; it never collects; content unchanged; it traps only when the bank has at most one clean block and no full block at all, and otherwise fails only when the block to seal is owed a count |
| Log.IncreaseRWLpn | ftl_seal/log.c:192-299 | Advances or replaces the RW block without changing content, nest levels or blocks under collection; it succeeds before page 126, and at page 126 with two clean blocks.  At page 126 with one clean block it seals if and only if the best overwrite value less 504 is below the best RW value, which fails only if that block is owed a count; otherwise it takes the clean block and collects, and it succeeds and leaves a clean block when the collection can start, no full block disagrees with its heap value, every other bank has room for a cheapest block's mapped chunks, and so has the new block; without a clean block it fails |
| Log.SealOWBlk | ftl_seal/log.c:506-576 | Traps exactly when the bank has no full overwrite block; otherwise one with the smallest heap value becomes the RW block, sealed and at page 2, content and clean list unchanged, unless it is owed a count; without an entry of a chunk in RAM the chunks found match the heap value |
| Log.EachBankOnce | ftl_seal/write.c:192-197 | As many successive choices as there are banks choose each bank exactly once, wherever they start |
| Log.GetVictim | ftl_seal/heap.c:396-428 | A member of the bank with the smallest count, or INVALID exactly when there is none |
| Room.MoreClean | ftl_seal/garbage_collection.c:286-289 | A bank with at most one clean block has one more after a collection for whose chunks every bank had room |
| Internal.CleanRoom | ftl_seal/cleanList.c:41-50 | A block in any use leaves its bank's queue of clean blocks shorter than the number of blocks, so queueing it never traps |
| OwLog.CollectForOw | ftl_seal/log.c:425-445 | It collects if and only if the bank has at most one clean block, and when it passes the bank has two, the content, the overwrite buffers and the places in a block that is owed a count unchanged, whatever is held in RAM; otherwise nothing changes; with one clean block it passes if the collection can start, no full block disagrees with its heap value and every bank has room for a cheapest block's mapped chunks, as always with an empty full block; it cannot complete if every full block of the bank disagrees with its heap value |
| OwLog.GetOWLpn | ftl_seal/log.c:410-454 | An open overwrite block is kept as it is, otherwise a clean one is opened at page 0, content unchanged; it collects if and only if no block is open and at most one is clean; without a collection it succeeds, and with one clean block also if the collection has room |
| OwLog.IncreaseOWLpn | ftl_seal/log.c:456-504 | Moves to the next low page, or stores the list and opens a new block after page 123, content unchanged; it collects if and only if the page is 123 and at most one block is clean; without a collection it succeeds, and with one clean block also if a collection has room once the full block is closed |
| OwLog.FlushOwLogBuffer | ftl_seal/overwrite.c:161-198 | Flushing a full overwrite buffer changes no content and no place in a block that is owed a count; without a collection only the flushed chunks move, to a page of the same bank; with one clean block it succeeds if the collection it needs has room |
| OwLog.ProgramOwBuffer | ftl_seal/overwrite.c:175-196 | Page, counter, LPN list, map and count are one consistent move of the buffered chunks |
| Overwrite.OverwriteToLogBlk | ftl_seal/overwrite.c:119-134 | Each addressed sector ends as the host's data or its AND with the old one, no other sector changes, for every location and the exhausted page; when the chunks fill one overwrite page in order that is not exhausted, or for part of a page none of them has to move, nothing moves and the call succeeds; any other whole page goes to the bank next in turn unless that has to collect; a collection is started between giving up old versions and accounting for it if and only if a condition on the tables before the call holds, and only then can the overwrite meet a block whose entries and heap value disagree |
| Overwrite.ClearingIsExact | host_side/device.cpp:98-107 | If the host only clears bits, that is both the replacing and the AND device |
| Overwrite.AgreeIffOnlyClears | host_side/device.cpp:98-107 | The two devices agree if and only if the host only clears bits |
| Overwrite.FreshRangeClears | host_side/device.cpp:98-107 | Unwritten sectors, and repeated data, never ask for a bit to be set |
| Overwrite.OldVersionIsInOwLogInOrder | ftl_seal/overwrite.c:395-439 | The chain of offset comparisons holds exactly when all requested chunks fill one overwrite flash page, each at its own slot |
| Overwrite.OverwriteInOrder | ftl_seal/overwrite.c:441-513 | In place if and only if the counter is not used up, else by a new page; exactly the requested sectors change; a collection is started between giving up old versions and accounting for it if and only if the counter is exhausted and a new page or slot cannot be had without one |
| Overwrite.BurnInPlace | ftl_seal/overwrite.c:453-466 | One partial program ANDs exactly the requested sectors, though the page holds other chunks |
| Overwrite.PatchBurned | ftl_seal/overwrite.c:453-466 | On the map: a partial program of an aligned range burns that range of the device and nothing else |
| Overwrite.OverwriteExhausted | ftl_seal/overwrite.c:473-506 | Exactly the requested sectors are replaced, also when collections run in between, and the counts owed to the old block are given back in the end; a collection is started while counts are owed if and only if one of the loop's successive stores fills a buffer that cannot be flushed without one, and otherwise the call succeeds |
| Overwrite.MoveOwing | ftl_seal/overwrite.c:480-503 | One chunk moves to the next bank's overwrite buffer, one more count is owed, and the others stay in the old block whatever is collected; a collection is started if and only if the move fills the buffer and the flush needs a block that is not there; without one the chunk is mapped into that bank |
| Overwrite.DecrementByN | ftl_seal/heap.c:265-301 | The count owed never exceeds the block's value, and paying it restores the exact counts |
| Overwrite.OverwriteCompletePage | ftl_seal/overwrite.c:334-364 | The eight chunks of the page become the host's and no other chunk changes, also when a collection runs while their old versions are given up; if the next bank needs no collection it takes the page and the call succeeds; such a collection starts with old versions in flash still in the table if and only if the next bank has no open overwrite block and at most one clean one, and some chunk of the page is in flash; only then can it be refused, and it is if every full block of the bank holds an old version |
| Overwrite.OverwriteNotInOrder | ftl_seal/overwrite.c:541-613 | Chunk by chunk, exactly the requested sectors change; if no chunk has to move, counting the programs that the chunks before it cost its page, none does |
| Overwrite.OverwriteChunk | ftl_seal/overwrite.c:616-758 | One chunk, for each of the five locations: it stays where it is if it is in an overwrite buffer or in a page that is not exhausted, and otherwise goes to the bank next in turn, where it ends unless that needs a collection |
| Overwrite.MoveToOwBuf | ftl_seal/overwrite.c:686-758 | The old version is given up and the new one goes to the overwrite buffer of the bank next in turn; if that bank needs no collection for it the call succeeds, the chunk is mapped there and only a flush of that buffer moves others |
| Read.FtlRead | ftl_seal/ftl.c:926-958 | Returns exactly the device's sectors, whatever an earlier read left in the buffer |
| Read.ReadFromLogBlk | ftl_seal/read.c:332-347 | Part of one page, as the device holds it |
| Read.RebuildPageToFtlBuf | ftl_seal/read.c:84-145 | Each requested chunk equals a direct look-up, each other chunk of the buffer is unchanged, whatever mix of whole-page and single reads is used |
| Read.SetupFlashPageRead | ftl_seal/read.c:188-265 | Exactly the requested chunks of the same flash page that are still missing are gathered, no more than fit the arrays |
| Read.ChunkInFlashLog | ftl_seal/read.c:174-330 | Chunks marked done hold their data, the first is always done, earlier ones stay done |
| Trim.TrimRange | ftl_seal/ftl.c:839-919 | Exactly the chunks fully inside the range are unmapped; it terminates and keeps the invariant |
| Trim.TrimmedSector | ftl_seal/ftl.c:862-868 | On sectors: a whole chunk in the range reads as 0xFF, a chunk cut by the range keeps its data |
| Trim.TrimChunk | ftl_seal/ftl.c:875-912 | One chunk is unmapped with counts and buffer slots kept in agreement, in all five cases |
| Trim.FtlTrim | ftl_seal/ftl.c:795-837 | The list of ranges acts as trims in sequence, skipping empty ones and those that start beyond the device |
| Guarantees.OwnedOnce | ftl_seal/log.c:68-101 | Between host calls every block is in exactly one of clean list, RW cursor, overwrite cursor, write heap, overwrite heap |
| Guarantees.OwnedAtMostOnce | ftl_seal/garbage_collection.c:40-74 | While collections run no block is in two of these places, and it is in none exactly when it is a victim |
| Guarantees.VictimExists | ftl_seal/log.c:119-136 | With three blocks or more, a bank short of clean blocks and missing an open block has a full one to seal or collect |
| Guarantees.CountsAreExact | ftl_seal/heap.c:226-263 | Between host calls a block's heap value is its mapped chunks plus eight for each of its data pages that the flash has erased; a clean block has both initial values |
| Guarantees.BufferedNamed | ftl_seal/write.c:331-357 | A chunk is mapped to a buffer slot if and only if that slot, below the buffer's chunk pointer, names it |
| Guarantees.FlashNamed | ftl_seal/write.c:74-90 | A chunk mapped to flash is in a block of the mode its address says and named by that block's LPN list, in page 127 or 125 when the block is full, else in RAM |
| Guarantees.SealedStaysSealed | ftl_seal/log.c:506-576 | A block in RW use, open or full, has no entry with the overwrite bit and zero counters; a sealed or full one has every low page programmed, and the next page of an open one is erased, an even page if it was sealed |
| Guarantees.CommandsKeepRules | ftl_seal/log.c:456-576 | Every command of the whole history kept the rules of the flash: erased pages only, except low pages in overwrite mode up to eight times; overwrite and RW use separated by a seal; no low page of a sealed block programmed before the next erase |
| Guarantees.ProgramsBounded | ftl_seal/overwrite.c:82-103 | A page is programmed at most once between two erases, a low page at most eight times; the history agrees with what the flash holds |
| Nand.SealedUntilErase | ftl_seal/log.c:506-576 | In any history that keeps the rules, a low page is never programmed between a seal of its block and the next erase |
| Nand.BurnsBound | ftl_seal/overwrite.c:82-103 | In any history that keeps the rules, the programs of a page since the last erase are at most eight, and more than one only for a low page |
| Guarantees.FreeIsErased | ftl_seal/log.c:286-298 | The free slots that the heaps count for an open or full block are those of its data pages that are erased; in overwrite mode the high pages are 504 of them |
| Guarantees.WithinBudget | ftl_seal/overwrite.c:82-103 | A mapped overwrite chunk sits in a low page whose counter is its number of programs, at most eight |
| Hazards.ReusedSlotMisread | ftl_seal/garbage_collection.c:234-253 | A state of the invariant, not shown to be reached: a chunk of the GC buffer whose old block was erased, filled again and closed has a stale entry for a slot that another chunk of its page now owns; the search returns the stale one, reaches the heap value, and the mapped chunk would be erased |
| Hazards.TrippedIff | ftl_seal/garbage_collection.c:40-130 | A full block is refused if and only if the entries for it, which are what the collector counts, are not as many as its heap value promises |
| Hazards.PromiseKeptIff | ftl_seal/garbage_collection.c:101-130 | A full RW block's heap value is the number of table entries for it, which is what the collector counts, if and only if no chunk that is only in RAM has an entry there |
| Hazards.OwPromiseKeptIff | ftl_seal/overwrite.c:474-505 | A full overwrite block's heap value less 504 is that number if and only if as much is owed to it as it has stale entries |
| Hazards.OverwriteWouldErase | ftl_seal/overwrite.c:334-364 | The state after format, writing pages 5 to 131 of a bank of three blocks and trimming 7 to 131, and the state in which overwriting page 5 makes the source collect: the search finds the eight old versions, reaches the heap value, and the table points for the eight chunks of page 6 into the block that is erased |
| Hazards.ExhaustedWouldMiscount | ftl_seal/overwrite.c:473-505 | The state after format, overwriting pages 5 to 129, trimming 6 to 67, seven more overwrites of page 5 and seven chunks of page 200; overwriting chunk 0 of page 5 then has to collect while it owes its block a count, and that block is the cheapest |
| Hazards.PaidTwice | ftl_seal/heap.c:265-301 | A count given back to a block that was released meanwhile leaves its value below the initial one, and the counts are not exact any more |
| Reached.WriteSettled | ftl_seal/write.c:552-570 | The moves of writing a whole page, in order, lead from a state between host calls to one with that page written |
| Reached.FillingAt | ftl_seal/write.c:552-570 | From format, writing `n` pages in order fills pages 0 to `n` - 1 of block 0, each named by its list, up to 127, when the block is closed and the next one opened |
| Reached.OwFillingAt | ftl_seal/overwrite.c:334-364 | From format, overwriting `n` whole pages in order takes the low pages of block 0 and then of block 1, up to 125 |
| Reached.BeforeExhaustedAt | ftl_seal/overwrite.c:453-472 | The exhausted page, the full buffer but one slot and the last page of the open block of that state |
| Guarantees.WalksFollowCursors | ftl_seal/log.c:499-502 | The cursors take the pages of the two walks one by one, from the first to 123 and 126 |
| Guarantees.WalksPartition | ftl_seal/log.c:286-295 | The overwrite walk, the sealed walk and pages 125 and 127 are the 128 pages of a block, each once |
| PageMoves.FreshPage | ftl_seal/log.c:286-298 | A page its block has not programmed since the last erase is erased, and no chunk is mapped to it |
| Internal.ListPageErased | ftl_seal/log.c:205-213 | The list page of an RW block about to be closed is erased |
| OwLog.OwListPageErased | ftl_seal/log.c:466-471 | The same for an overwrite block and page 125 |
| PageMoves.CounterInjective | ftl_seal/overwrite.c:82-92 | No two low pages share a counter |
| ChunkMoves.DetachInv | ftl_seal/write.c:234-283 | Invalidating one chunk keeps the invariant and changes no other chunk |
| PageMoves.ProgramRwInv | ftl_seal/write.c:62-92 | Programming the next RW page keeps the invariant, for flushes, copies and host pages alike; the page was erased |
| PageMoves.ProgramOwInv | ftl_seal/overwrite.c:161-198 | The same for the overwrite block, with its counter |
| BlockMoves.SealInv | ftl_seal/log.c:506-576 | A full overwrite block becomes an open RW block without changing the content |
| BlockMoves.ReleaseInv | ftl_seal/garbage_collection.c:286-289 | An emptied victim becomes a clean, erased block |
| BlockMoves.PatchPageInv | ftl_seal/overwrite.c:453-466 | Programming a low page again within its budget keeps the invariant |
| Heap.ValidChunksHeap.constructor | ftl_seal/heap.c:449-472 | All blocks have the initial count and none is in the heap |
| Heap.ValidChunksHeap.BubbleUp | ftl_seal/heap.c:154-193 | Restores the order when one value became too small, counts and members unchanged |
| Heap.ValidChunksHeap.BubbleDown | ftl_seal/heap.c:90-152 | Restores the order when one value became too large; does nothing when no child is smaller |
| Heap.ValidChunksHeap.Swap | ftl_seal/heap.c:26-43 | The positions stay the inverse of the array and no count changes |
| Heap.ValidChunksHeap.Decrement | ftl_seal/heap.c:226-263 | One less for that block only, order kept; traps exactly at zero |
| Heap.ValidChunksHeap.DecrementByN | ftl_seal/heap.c:265-301 | The sixteen-bit difference; order kept whenever it does not wrap |
| Heap.ValidChunksHeap.SetValidChunks | ftl_seal/heap.c:303-334 | Sets the count of a block outside the heap; traps exactly on a member |
| Heap.ValidChunksHeap.Insert | ftl_seal/heap.c:367-394 | The block enters the heap with its count, order kept |
| Heap.ValidChunksHeap.ResetAndRemove | ftl_seal/heap.c:336-365 | The block leaves the heap with the new count; the order survives if and only if the last element fits under the removed place's father, as it does for the root |
| Heap.RemovalCanBreak | ftl_seal/heap.c:336-365 | A heap of six in which removing an inner block breaks the order |
| Heap.ValidChunksHeap.GetVictim | ftl_seal/heap.c:396-428 | A member with the smallest count, at the root; INVALID exactly for an empty heap |
| Heap.RootIsMinimum | ftl_seal/heap.c:396-410 | In an ordered heap no member is below the root |
| CleanList.CleanLists.constructor | ftl_seal/cleanList.c:11-39 | Every bank starts with an empty queue and all its nodes unused |
| CleanList.CleanLists.Push | ftl_seal/cleanList.c:41-84 | Appends to the bank's queue and touches no other; traps exactly when all nodes are in use |
| CleanList.CleanLists.Pop | ftl_seal/cleanList.c:86-124 | Removes the head of the bank's queue and touches no other; traps exactly on an empty queue |
| CleanList.CleanLists.Size | ftl_seal/cleanList.c:126-130 | The size is the length of the queue |
| CleanList.PushOk | ftl_seal/cleanList.c:41-84 | Live and unused nodes stay two disjoint acyclic chains over the bank's slice when one moves to the tail |
| CleanList.PopOk | ftl_seal/cleanList.c:86-124 | The same when the head moves back to the unused chain; the tail is cleared exactly for the last node |
| BlockTable.BlkTable.constructor | ftl_seal/ftl.c:309-357 | All good blocks are assigned once, and every log block and spare is erased |
| BlockTable.BlkTable.RecycleBlk | ftl_seal/garbage_collection.c:286-288 | The log block gets the spare that waited longest and its old block becomes the last spare; the assignment stays a permutation, the log block reads as erased, and no other log block changes |
| BlockTable.BlkTable.ProgramPage | ftl_seal/log.c:59-66 | A program through the table reaches that log page and no other |
| BlockTable.BlkTable.RetFreeVbn | ftl_seal/blk_management.c:4-16 | The ring is first in, first out: a returned block is handed out after every other spare |
| BlockTable.ReplaceDistinct | ftl_seal/garbage_collection.c:286-288 | Exchanging a victim with a spare keeps all assignments distinct and their multiset |
| AddressCodec.RoundTrip | ftl_seal/ftl_parameters.h:208-233 | Decoding an encoded place gives it back if and only if it is not in page 127 of the bank's last block, which reads as the DRAM buffer |
| AddressCodec.DecodeEncode | ftl_seal/ftl_parameters.h:227-233 | Every address inside the device is the encoding of exactly what it decodes to |
| AddressCodec.Injective | ftl_seal/ftl_parameters.h:208-233 | The five kinds of place never share an address |
| AddressCodec.Classified | ftl_seal/log.c:579-605 | The numeric classifier agrees with the decoded place |
| AddressCodec.SameFlashPage | ftl_seal/read.c:72-80 | The page test on masked addresses is equality of pages |
| AddressCodec.TableRoundTrip | ftl_seal/log.c:579-605 | Between host calls every entry of the chunk map survives its 32-bit encoding |
| AddressCodec.TableInjective | ftl_seal/log.c:579-605 | No two chunks have the same address |
| Refinement.FormatHeaps | ftl_seal/heap.c:449-472 | The initialised heaps stand for the formatted counts |
| Refinement.FormatClean | ftl_seal/log.c:68-101 | The pushes of initLog never trap and make the queues of the formatted state |
| Refinement.FormatBlkTable | ftl_seal/ftl.c:309-357 | Through the new block table every log page reads as erased, as in the formatted state |
| Refinement.InvalidateRw | ftl_seal/write.c:234-283 | Invalidating a chunk in an RW block: the heap's decrement does not trap and the heap stands for the new counts |
| Refinement.InvalidateOw | ftl_seal/write.c:234-283 | The same for an overwrite block and its heap |
| Refinement.PayOwed | ftl_seal/overwrite.c:505-505 | Giving back what the exhausted-page loop owes neither traps nor wraps |
| Refinement.CountRwPage | ftl_seal/write.c:74-90 | The decrements for the unused slots of a programmed RW page do not trap and give its new count |
| Refinement.CountOwPage | ftl_seal/overwrite.c:175-196 | The same for an overwrite page |
| Refinement.EnterWriteHeap | ftl_seal/log.c:205-216 | A closing RW block is not yet in the heap, and enters it with its count |
| Refinement.EnterOwHeap | ftl_seal/log.c:466-472 | The same for an overwrite block |
| Refinement.TakeRwVictim | ftl_seal/garbage_collection.c:40-74 | The heap's root is a cheapest full RW block of the bank, and removing it keeps the heap in order and standing for the new state |
| Refinement.TakeOwVictim | ftl_seal/garbage_collection.c:40-74 | The same for the overwrite heap |
| Refinement.SealHeaps | ftl_seal/log.c:506-576 | A seal takes the root of the overwrite heap and sets its count in the write heap, where it is not a member |
| Refinement.PopClean | ftl_seal/log.c:103-190 | When the FTL opens a block the queue is not empty and yields that block |
| Refinement.ReleaseVictim | ftl_seal/garbage_collection.c:286-289 | Releasing a victim: the block table erases it for the FTL's view alone, and the clean list has room for it |
| Refinement.ProgramRwPage | ftl_seal/write.c:62-74 | Programming the page behind the cursor through the block table is programming it in the FTL's flash |
| Refinement.ProgramOwPage | ftl_seal/overwrite.c:175-196 | The same for the overwrite block |
| Refinement.StoreRwList | ftl_seal/log.c:205-213 | Storing the LPN list of a full RW block through the block table is storing it in page 127 of the FTL's flash |
| Refinement.StoreOwList | ftl_seal/log.c:466-471 | The same for an overwrite block and page 125 |
| Refinement.PatchInPlace | ftl_seal/overwrite.c:453-466 | Programming a page in place through the block table reaches that page of the FTL's flash and no other |

## Left out

- Log.GarbageCollectLog: three outcomes end a run instead of being followed.  `Recollected` and `UnsafeCollection`: the victim of a collection, or of a seal, is one whose entries are not as many as its heap value promises (`Log.ChooseVictim`, `Hazards.TrippedIff`), because a chunk in a GC buffer, or of a page being overwritten, still has an entry there, or because an overwrite owes it a count.  The model keeps the sets `inRam` and `givenUp` and the block `owing`, which the source does not have, to notice it.  The source goes on.  Its search still finds the right chunk for a slot in some of these states (`Collecting.SearchRightIff`), and whether a mapped chunk is lost depends on the order of the entries; no theorem says so exactly.  `OutOfFuel`: a victim without a single dead slot was the only choice after `fuel` of them; the source has no such bound, and collecting such a victim gains nothing.
- Log.GarbageCollectLog: with both heaps of a bank empty the source indexes its tables with INVALID; the model calls this `Halted`.
- Endurance.EnduresRefills: it is about one bank.  With several, a collection moves chunks to all banks in turn, and that these have room is a condition of each call (`Log.IncreaseRWLpn`), not proved of every run; runs that fit without collecting are proved for any number of banks.
- Overwrite.OverwriteToLogBlk: that a collection is started in between, and the tables before the call that make it so, is about the code, in both directions of the if-and-only-if.  That the overwrite is given up then is about the model: it happens only if a victim disagrees with its heap value, and it must happen if every full block of the bank does; which of several victims is taken, and by how many collections, is not decided by the tables alone.
- Overwrite.OverwriteToLogBlk: the sequential stream (`SWCtrl`, `appendPageToSWBlock`, the GcMode branches of read.c) is never opened, because `nextDataLpn` starts INVALID and only that code sets it, so it is not modelled.
- FtlTables.Ftl.constructor: DRAM and SRAM tables are typed sequences and maps grouped in one record field, not raw memory; ECC strides, `mem_util` and the moves of list pointers between buffers are not modelled.
- The FTL class uses the abstract values of the heap, the clean lists and the block table, and picks any block of minimal count where the heap picks its root; `Refinement` proves each step of those structures against the FTL's, but the class does not hold them as fields.
- Flash commands are synchronous and atomic: waiting for banks and issue modes are not modelled.  Which banks are busy is a parameter of `Host.BackgroundCleaning`.
- The ring of host buffers (`g_ftl_write_buf_id`, the `BM_` registers) is replaced by passing the host's sectors; trim commands are passed as decoded ranges.
- Bad blocks: `BlockTable.BlkTable.constructor` gets the list of good blocks; run-time failures and missing blocks are not modelled.
- Addresses and counts in the FTL class are unbounded; `AddressCodec` and `Heap` state the bounds under which 32 and 16 bits suffice.
- A bound on the address range of a request: a write beyond the device is stored as written, where the source would index past its table.
- The SATA layer, interrupts, the serial console, statistics and timing.
