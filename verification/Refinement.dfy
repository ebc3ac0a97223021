/** The data structures stand for the abstract values of the FTL: at each move of the FTL the heap, the clean
    lists and the block table accept the calls the source makes there, and stand for the new state afterwards. */
module Refinement {
  import opened Base
  import opened Nand
  import opened State
  import opened Steps
  import opened ChunkMoves
  import opened PageMoves
  import opened Internal
  import opened Log
  import opened OwLog
  import opened FtlTables
  import opened Host
  import opened Heap
  import CleanList
  import BlockTable

  // ----- what stands for what -----

  /** The heap of one bank holds its counts and its members. */
  ghost predicate HeapIs(h: ValidChunksHeap, bank: nat, blocks: nat, count: map<Blk, nat>, members: set<Blk>)
    reads h, h.el, h.positions
  {
    && h.Valid() && h.size == blocks
    && (forall l | 0 <= l < blocks :: Blk(bank, l) in count && h.Counts()[l] == count[Blk(bank, l)])
    && (forall l: nat | l < blocks :: l in h.Members() <==> Blk(bank, l) in members)
  }

  ghost predicate WriteHeapIs(h: ValidChunksHeap, s: St, bank: nat)
    reads h, h.el, h.positions
  {
    HeapIs(h, bank, s.blocks, s.wCount, s.wIn)
  }

  ghost predicate OwHeapIs(h: ValidChunksHeap, s: St, bank: nat)
    reads h, h.el, h.positions
  {
    HeapIs(h, bank, s.blocks, s.oCount, s.oIn)
  }

  ghost predicate CleanIs(c: CleanList.CleanLists, s: St)
    reads c, c.next, c.lbn, c.head, c.tail, c.unused, c.size
  {
    c.Valid() && c.banks == s.banks == |s.clean| && c.per == s.blocks
      && forall b | 0 <= b < s.banks :: c.Queue(b) == s.clean[b]
  }

  /** Through the block table of one bank its log blocks read as the FTL's flash. */
  ghost predicate FlashIs(t: BlockTable.BlkTable, s: St, bank: nat)
    reads t, t.logBmt, t.freeBmt
  {
    && t.Valid() && t.logBmt.Length == s.blocks
    && forall lbn, page | 0 <= lbn < s.blocks ::
         BlockTable.Through(t.logBmt[..], t.flash, lbn, page) == Lookup(s.flash, Pg(bank, lbn, page))
  }

  // ----- what the invariant promises to the calls -----

  lemma CountBounds(s: St, blk: Blk)
    requires Inv(s) && blk in s.role
    ensures blk in s.wCount && s.wCount[blk] <= CHUNKS_PER_LOG_BLK && blk in s.oCount && s.oCount[blk] <= OW_BLK_CHUNKS
    ensures blk.bank < s.banks && blk.lbn < s.blocks
  {
    hide BufShape, ListShape, MapOK, StaleOK, DramOK, FlashOK, Inj, CleanOK, MembersOK, RwOK, OwOK, Erased, ListPages,
         Budget, TraceOK, KeysIn;
  }

  /** An invalidated chunk's block has a count above zero. */
  lemma CountedChunk(s: St, k: Key)
    requires Inv(s)
    ensures OnRw(s.live, s.role, k) ==> 0 < s.wCount[BlkOf(s.live[k].page)]
    ensures OnOw(s.live, s.role, k) ==> 0 < s.oCount[BlkOf(s.live[k].page)]
  {
    hide BufShape, RoleShape, ListShape, MapOK, StaleOK, DramOK, FlashOK, Inj, WCounts, OCounts, CleanOK, MembersOK,
         RwOK, OwOK, Erased, ListPages, Budget, TraceOK;
    DetachW(s.live, s.role, s.wCount, k);
    DetachO(s.live, s.role, s.oCount, s.debt, k);
  }

  /** Members of the heaps, by the roles the invariant gives them. */
  lemma MembersByRole(s: St, blk: Blk)
    requires Inv(s) && blk in s.role
    ensures blk in s.wIn <==> s.role[blk].FullRw?
    ensures blk in s.oIn <==> s.role[blk].FullOw?
  {
    hide BufShape, RoleShape, ListShape, MapOK, StaleOK, DramOK, FlashOK, Inj, WCounts, OCounts, CleanOK, RwOK, OwOK,
         Erased, ListPages, Budget, TraceOK;
  }

  // ----- counts -----

  /** One count changes, members stay. */
  lemma OneCount(h: ValidChunksHeap, bank: nat, blocks: nat, count: map<Blk, nat>, members: set<Blk>, counts: seq<nat>,
                 l: nat, v: nat)
    requires h.Valid() && h.size == blocks && l < blocks && |counts| == blocks && h.Counts() == counts[l := v]
    requires forall i | 0 <= i < blocks :: Blk(bank, i) in count && counts[i] == count[Blk(bank, i)]
    requires forall i: nat | i < blocks :: i in h.Members() <==> Blk(bank, i) in members
    ensures HeapIs(h, bank, blocks, count[Blk(bank, l) := v], members)
  {
    hide Perm, Ordered, Small, CountsOf, MembersOf;
  }

  /** A count is lowered by `n`, in one step or one by one. */
  method Lower(h: ValidChunksHeap, lbn: nat, n: nat, atOnce: bool, ghost bank: nat, ghost blocks: nat,
               ghost count: map<Blk, nat>, ghost members: set<Blk>)
    returns (o: Outcome)
    requires HeapIs(h, bank, blocks, count, members) && lbn < blocks && n <= count[Blk(bank, lbn)] && (atOnce ==> 0 < n)
    modifies h.el, h.positions
    ensures o.Pass? && HeapIs(h, bank, blocks, Minus(count, Blk(bank, lbn), n), members)
  {
    hide Perm, Ordered, Small, CountsOf, MembersOf;
    ghost var counts := h.Counts();
    o := Pass;
    if atOnce {
      CountSmall(h, lbn);
      o := h.DecrementByN(lbn, n);
    } else {
      o := GiveUpSlots(h, lbn, n);
    }
    OneCount(h, bank, blocks, count, members, counts, lbn, counts[lbn] - n);
  }

  lemma CountSmall(h: ValidChunksHeap, l: nat)
    requires h.Valid() && l < h.size
    ensures h.Counts()[l] < U16
  {
    hide Ordered;
    assert BlockOk(h.el[..], h.positions[..], l);
  }

  /** decrementValidChunks for a chunk that leaves a block in RW use. */
  method InvalidateRw(h: ValidChunksHeap, lbn: nat, ghost s: St, ghost k: Key, ghost d: Chunk) returns (o: Outcome)
    requires Inv(s) && OnRw(s.live, s.role, k) && s.live[k].page.lbn == lbn && WriteHeapIs(h, s, s.live[k].page.bank)
    modifies h.el, h.positions
    ensures o.Pass? && WriteHeapIs(h, Detach(s, k, d), s.live[k].page.bank)
  {
    hide Inv, HeapIs, ClearMeta;
    ghost var blk := BlkOf(s.live[k].page);
    CountBounds(s, blk);
    CountedChunk(s, k);
    o := Lower(h, lbn, 1, false, blk.bank, s.blocks, s.wCount, s.wIn);
  }

  /** The same for the overwrite heap. */
  method InvalidateOw(h: ValidChunksHeap, lbn: nat, ghost s: St, ghost k: Key, ghost d: Chunk) returns (o: Outcome)
    requires Inv(s) && OnOw(s.live, s.role, k) && s.live[k].page.lbn == lbn && OwHeapIs(h, s, s.live[k].page.bank)
    modifies h.el, h.positions
    ensures o.Pass? && OwHeapIs(h, Detach(s, k, d), s.live[k].page.bank)
  {
    hide Inv, HeapIs, ClearMeta;
    ghost var blk := BlkOf(s.live[k].page);
    CountBounds(s, blk);
    CountedChunk(s, k);
    o := Lower(h, lbn, 1, false, blk.bank, s.blocks, s.oCount, s.oIn);
  }

  /** decrementValidChunksByN at the end of the exhausted-page loop: the subtraction does not wrap. */
  method PayOwed(h: ValidChunksHeap, lbn: nat, n: nat, ghost s: St) returns (o: Outcome)
    requires Inv(s) && 0 < s.debt.amount == n && s.debt.blk.lbn == lbn && OwHeapIs(h, s, s.debt.blk.bank)
    modifies h.el, h.positions
    ensures o.Pass? && OwHeapIs(h, PayDebt(s), s.debt.blk.bank)
  {
    hide Inv, HeapIs;
    Owing(s);
    CountBounds(s, s.debt.blk);
    o := Lower(h, lbn, n, true, s.debt.blk.bank, s.blocks, s.oCount, s.oIn);
  }

  lemma Owing(s: St)
    requires Inv(s) && 0 < s.debt.amount
    ensures s.debt.blk in s.role && s.debt.blk in s.oCount && s.debt.amount <= s.oCount[s.debt.blk]
  {
    hide BufShape, RoleShape, ListShape, MapOK, StaleOK, DramOK, FlashOK, Inj, WCounts, CleanOK, MembersOK, RwOK, OwOK,
         Erased, ListPages, Budget, TraceOK, KeysIn;
  }

  /** The slots of a programmed page that no chunk takes are given up one by one. */
  method GiveUpSlots(h: ValidChunksHeap, lbn: nat, n: nat) returns (o: Outcome)
    requires h.Valid() && lbn < h.size && n <= h.Counts()[lbn]
    modifies h.el, h.positions
    ensures o.Pass? && h.Valid() && h.Members() == old(h.Members())
      && h.Counts() == old(h.Counts())[lbn := old(h.Counts())[lbn] - n]
  {
    hide Ordered, CountsOf, MembersOf, ValidChunksHeap.Shape, ValidChunksHeap.Counts, ValidChunksHeap.Members;
    ghost var counts := h.Counts();
    CountsLength(h);
    o := Pass;
    for i := 0 to n
      invariant o.Pass? && h.Valid() && h.Members() == old(h.Members()) && h.Counts() == counts[lbn := counts[lbn] - i]
    {
      OneLess(counts, lbn, i);
      o := h.Decrement(lbn);
    }
  }

  lemma OneLess(counts: seq<nat>, l: nat, i: nat)
    requires l < |counts| && i < counts[l]
    ensures var c := counts[l := counts[l] - i]; 0 < c[l] && c[l := c[l] - 1] == counts[l := counts[l] - (i + 1)]
  {
  }

  lemma CountsLength(h: ValidChunksHeap)
    requires h.Valid()
    ensures |h.Counts()| == h.size
  {
    hide Ordered, Small;
  }

  /** The counts of a page programmed in the open RW block with chunks `adds`. */
  method CountRwPage(h: ValidChunksHeap, lbn: nat, empty: nat, ghost s: St, ghost b: nat, ghost adds: map<Key, Loc>,
                     ghost data: seq<Chunk>, ghost names: seq<Option<nat>>, ghost drain: bool)
    returns (o: Outcome)
    requires Inv(s) && CanProgramRw(s, b, adds, data, names, drain) && |names| == 8 && |adds| <= 8
      && empty == 8 - |adds| && lbn == s.rw[b].lbn
    requires WriteHeapIs(h, s, b)
    modifies h.el, h.positions
    ensures o.Pass? && WriteHeapIs(h, ProgramRw(s, b, adds, data, names, drain), b)
  {
    hide Inv, CanProgramRw, HeapIs, ProgramRw;
    ProgramRwRoom(s, b, adds, data, names, drain);
    o := Lower(h, lbn, empty, false, b, s.blocks, s.wCount, s.wIn);
  }

  lemma ProgramRwRoom(s: St, b: nat, adds: map<Key, Loc>, data: seq<Chunk>, names: seq<Option<nat>>, drain: bool)
    requires Inv(s) && CanProgramRw(s, b, adds, data, names, drain) && |names| == 8 && |adds| <= 8
    ensures b < |s.rw| && s.rw[b].Open?
    ensures var blk := Blk(b, s.rw[b].lbn); blk.lbn < s.blocks && blk in s.wCount && 8 <= s.wCount[blk]
    ensures var t := ProgramRw(s, b, adds, data, names, drain);
      t.blocks == s.blocks && t.wIn == s.wIn && t.wCount == Minus(s.wCount, Blk(b, s.rw[b].lbn), 8 - |adds|)
  {
    hide Inv, AddsOK, WriteNames, Minus, Drained, NextRw, WCounts, OCounts;
    ProgramRwFacts(s, b);
    CountBounds(s, Blk(b, s.rw[b].lbn));
    CountsHold(s);
    RoomInRw(s.live, s.role, s.wCount, Blk(b, s.rw[b].lbn));
  }

  /** The counts of a page programmed in the open overwrite block with chunks `adds`. */
  method CountOwPage(h: ValidChunksHeap, lbn: nat, empty: nat, ghost s: St, ghost b: nat, ghost adds: map<Key, Loc>,
                     ghost data: seq<Chunk>, ghost names: seq<Option<nat>>, ghost drain: bool)
    returns (o: Outcome)
    requires Inv(s) && CanProgramOw(s, b, adds, data, names, drain) && |names| == 8 && |adds| <= 8
      && empty == 8 - |adds| && lbn == s.ow[b].lbn
    requires OwHeapIs(h, s, b)
    modifies h.el, h.positions
    ensures o.Pass? && OwHeapIs(h, ProgramOw(s, b, adds, data, names, drain), b)
  {
    hide Inv, CanProgramOw, HeapIs, ProgramOw;
    ProgramOwRoom(s, b, adds, data, names, drain);
    o := Lower(h, lbn, empty, false, b, s.blocks, s.oCount, s.oIn);
  }

  lemma ProgramOwRoom(s: St, b: nat, adds: map<Key, Loc>, data: seq<Chunk>, names: seq<Option<nat>>, drain: bool)
    requires Inv(s) && CanProgramOw(s, b, adds, data, names, drain) && |names| == 8 && |adds| <= 8
    ensures b < |s.ow| && s.ow[b].OwOpen?
    ensures var blk := Blk(b, s.ow[b].lbn); blk.lbn < s.blocks && blk in s.oCount && 8 <= s.oCount[blk]
    ensures var t := ProgramOw(s, b, adds, data, names, drain);
      t.blocks == s.blocks && t.oIn == s.oIn && t.oCount == Minus(s.oCount, Blk(b, s.ow[b].lbn), 8 - |adds|)
  {
    hide Inv, AddsOK, WriteNames, Minus, Drained, NextOw, BumpCounter, WCounts, OCounts;
    ProgramOwFacts(s, b);
    CountBounds(s, Blk(b, s.ow[b].lbn));
    CountsHold(s);
    RoomInOw(s.live, s.role, s.oCount, s.debt, Blk(b, s.ow[b].lbn));
  }

  lemma CountsHold(s: St)
    requires Inv(s)
    ensures WCounts(s.live, s.role, s.wCount) && OCounts(s.live, s.role, s.oCount, s.debt)
  {
  }

  // ----- members -----

  /** insertBlkInHeap: the closed block was not a member. */
  method EnterWriteHeap(h: ValidChunksHeap, lbn: nat, ghost s: St, ghost b: nat)
    requires Inv(s) && b < |s.rw| && s.rw[b].Open? && b < |s.rwList| && lbn == s.rw[b].lbn && WriteHeapIs(h, s, b)
    modifies h, h.el, h.positions
    ensures WriteHeapIs(h, CloseRw(s, b), b)
  {
    hide Inv;
    RwFacts(s, b);
    MembersByRole(s, Blk(b, lbn));
    CountBounds(s, Blk(b, lbn));
    h.Insert(lbn);
  }

  method EnterOwHeap(h: ValidChunksHeap, lbn: nat, ghost s: St, ghost b: nat)
    requires Inv(s) && b < |s.ow| && s.ow[b].OwOpen? && b < |s.owList| && lbn == s.ow[b].lbn && OwHeapIs(h, s, b)
    modifies h, h.el, h.positions
    ensures OwHeapIs(h, CloseOw(s, b), b)
  {
    hide Inv;
    OwFacts(s, b);
    MembersByRole(s, Blk(b, lbn));
    CountBounds(s, Blk(b, lbn));
    h.Insert(lbn);
  }

  /** getVictim and resetValidChunksAndRemove: the root is a member of least count, and removing it keeps the order. */
  method TakeRoot(h: ValidChunksHeap, bank: nat, initial: nat, ghost blocks: nat, ghost count: map<Blk, nat>,
                  ghost members: set<Blk>)
    returns (victim: Option<nat>, value: nat)
    requires HeapIs(h, bank, blocks, count, members) && initial < U16
    requires forall m | m in members && m.bank == bank :: m.lbn < blocks
    modifies h, h.el, h.positions
    ensures victim.None? <==> forall m | m in members :: m.bank != bank
    ensures victim.None? ==> HeapIs(h, bank, blocks, count, members)
    ensures victim.Some? ==> var v := Blk(bank, victim.value);
      && v in members && v in count && value == count[v]
      && (forall m | m in members && m.bank == bank :: m in count && value <= count[m])
      && HeapIs(h, bank, blocks, count[v := initial], members - {v})
  {
    victim, value := h.GetVictim();
    assert forall m | m in members && m.bank == bank ::
      m == Blk(bank, m.lbn) && m.lbn in h.Members() && m in count && h.Counts()[m.lbn] == count[m];
    if victim.Some? {
      assert victim.value < h.size;
      h.ResetAndRemove(victim.value, initial);
    }
  }

  /** The RW victim of a collection, as the two heap calls find it. */
  method TakeRwVictim(h: ValidChunksHeap, bank: nat, ghost s: St) returns (victim: Option<nat>, value: nat)
    requires Inv(s) && WriteHeapIs(h, s, bank)
    modifies h, h.el, h.positions
    ensures victim.None? <==> forall m | m in s.wIn :: m.bank != bank
    ensures victim.Some? ==> var v := Blk(bank, victim.value);
      && v in s.wIn && WriteHeapIs(h, TakeRw(s, v), bank)
      && v in s.wCount && value == s.wCount[v]
      && forall m | m in s.wIn && m.bank == bank :: m in s.wCount && value <= s.wCount[m]
  {
    hide Inv;
    MembersInside(s);
    victim, value := TakeRoot(h, bank, CHUNKS_PER_LOG_BLK, s.blocks, s.wCount, s.wIn);
  }

  method TakeOwVictim(h: ValidChunksHeap, bank: nat, ghost s: St) returns (victim: Option<nat>, value: nat)
    requires Inv(s) && OwHeapIs(h, s, bank)
    modifies h, h.el, h.positions
    ensures victim.None? <==> forall m | m in s.oIn :: m.bank != bank
    ensures victim.Some? ==> var v := Blk(bank, victim.value);
      && v in s.oIn && OwHeapIs(h, TakeOw(s, v), bank)
      && v in s.oCount && value == s.oCount[v]
      && forall m | m in s.oIn && m.bank == bank :: m in s.oCount && value <= s.oCount[m]
  {
    hide Inv;
    MembersInside(s);
    victim, value := TakeRoot(h, bank, OW_BLK_CHUNKS, s.blocks, s.oCount, s.oIn);
  }

  lemma MembersInside(s: St)
    requires Inv(s)
    ensures forall m | m in s.wIn + s.oIn :: m in s.role && m.bank < s.banks && m.lbn < s.blocks
  {
    hide BufShape, ListShape, MapOK, StaleOK, DramOK, FlashOK, Inj, WCounts, OCounts, CleanOK, RwOK, OwOK, Erased,
         ListPages, Budget, TraceOK;
  }

  /** A seal: the victim leaves the overwrite heap, and setValidChunks finds it outside the write heap. */
  method SealHeaps(w: ValidChunksHeap, ow: ValidChunksHeap, bank: nat, ghost s: St)
    returns (victim: Option<nat>, o: Outcome)
    requires Inv(s) && WriteHeapIs(w, s, bank) && OwHeapIs(ow, s, bank) && bank < |s.rw| && bank < |s.rwList|
    requires w != ow && w.el != ow.el && w.positions != ow.positions
    modifies w.el, ow, ow.el, ow.positions
    ensures victim.None? <==> forall m | m in s.oIn :: m.bank != bank
    ensures victim.Some? ==> var v := Blk(bank, victim.value);
      && o.Pass? && v in s.oIn && v in s.oCount && v in s.lists
      && (forall m | m in s.oIn && m.bank == bank :: m in s.oCount && s.oCount[v] <= s.oCount[m])
      && forall cmap :: WriteHeapIs(w, Seal(s, v, cmap), bank) && OwHeapIs(ow, Seal(s, v, cmap), bank)
  {
    hide Inv, HeapIs;
    var value;
    o := Pass;
    MembersInside(s);
    victim, value := TakeRoot(ow, bank, OW_BLK_CHUNKS, s.blocks, s.oCount, s.oIn);
    if victim.Some? {
      MemberFacts(s, Blk(bank, victim.value));
      MembersByRole(s, Blk(bank, victim.value));
      CountBounds(s, Blk(bank, victim.value));
      o := SetCount(w, victim.value, value, bank, s.blocks, s.wCount, s.wIn);
    }
  }

  /** setValidChunks on a block outside the heap. */
  method SetCount(h: ValidChunksHeap, lbn: nat, v: nat, ghost bank: nat, ghost blocks: nat, ghost count: map<Blk, nat>,
                  ghost members: set<Blk>)
    returns (o: Outcome)
    requires HeapIs(h, bank, blocks, count, members) && lbn < blocks && v < U16 && Blk(bank, lbn) !in members
    modifies h.el
    ensures o.Pass? && HeapIs(h, bank, blocks, count[Blk(bank, lbn) := v], members)
  {
    hide Perm, Ordered, Small, CountsOf, MembersOf;
    ghost var counts := h.Counts();
    o := h.SetValidChunks(lbn, v);
    OneCount(h, bank, blocks, count, members, counts, lbn, v);
  }

  // ----- clean blocks and the flash -----

  /** cleanListPop: the queue is not empty and gives the block the FTL opens. */
  method PopClean(c: CleanList.CleanLists, bank: nat, ghost s: St) returns (o: Outcome, lbn: nat)
    requires Inv(s) && CleanIs(c, s) && bank < s.banks && 0 < |s.clean[bank]| && bank < |s.rw| && bank < |s.rwList|
      && bank < |s.ow| && bank < |s.owList|
    modifies c, c.next, c.head, c.tail, c.unused, c.size
    ensures o.Pass? && lbn == s.clean[bank][0] && CleanIs(c, OpenRwBlk(s, bank)) && CleanIs(c, OpenOwBlk(s, bank))
  {
    hide Inv, CleanList.BankOk, CleanList.QueueOf;
    o, lbn := c.Pop(bank);
    assert s.clean[bank] == [lbn] + c.Queue(bank);
    assert c.Queue(bank) == s.clean[bank][1..];
  }

  /** nand_page_program: the physical page behind the cursor becomes the log block's. */
  method ProgramRwPage(t: BlockTable.BlkTable, lbn: nat, page: nat, data: seq<Chunk>, ghost s: St, ghost b: nat,
                       ghost adds: map<Key, Loc>, ghost names: seq<Option<nat>>, ghost drain: bool)
    requires Inv(s) && CanProgramRw(s, b, adds, data, names, drain) && |names| == 8 && |adds| <= 8 && lbn == s.rw[b].lbn
      && page == s.rw[b].page
    requires FlashIs(t, s, b)
    modifies t`flash
    ensures FlashIs(t, ProgramRw(s, b, adds, data, names, drain), b)
  {
    hide Inv, CanProgramRw;
    ProgramRwRoom(s, b, adds, data, names, drain);
    t.ProgramPage(lbn, page, Data(data, 1));
  }

  /** The same for the open overwrite block. */
  method ProgramOwPage(t: BlockTable.BlkTable, lbn: nat, page: nat, data: seq<Chunk>, ghost s: St, ghost b: nat,
                       ghost adds: map<Key, Loc>, ghost names: seq<Option<nat>>, ghost drain: bool)
    requires Inv(s) && CanProgramOw(s, b, adds, data, names, drain) && |names| == 8 && |adds| <= 8
    requires lbn == s.ow[b].lbn && page == s.ow[b].page && FlashIs(t, s, b)
    modifies t`flash
    ensures FlashIs(t, ProgramOw(s, b, adds, data, names, drain), b)
  {
    hide Inv, CanProgramOw;
    ProgramOwRoom(s, b, adds, data, names, drain);
    t.ProgramPage(lbn, page, Data(data, 1));
  }

  /** A full RW block stores its LPN list. */
  method StoreRwList(t: BlockTable.BlkTable, lbn: nat, list: seq<Option<nat>>, ghost s: St, ghost b: nat)
    requires Inv(s) && b < |s.rw| && s.rw[b].Open? && b < |s.rwList|
    requires lbn == s.rw[b].lbn && list == s.rwList[b] && FlashIs(t, s, b)
    modifies t`flash
    ensures FlashIs(t, CloseRw(s, b), b)
  {
    hide Inv;
    RwFacts(s, b);
    CountBounds(s, Blk(b, lbn));
    t.ProgramPage(lbn, 127, List(list));
  }

  /** A full overwrite block stores its LPN list. */
  method StoreOwList(t: BlockTable.BlkTable, lbn: nat, list: seq<Option<nat>>, ghost s: St, ghost b: nat)
    requires Inv(s) && b < |s.ow| && s.ow[b].OwOpen? && b < |s.owList|
    requires lbn == s.ow[b].lbn && list == s.owList[b] && FlashIs(t, s, b)
    modifies t`flash
    ensures FlashIs(t, CloseOw(s, b), b)
  {
    hide Inv;
    OwFacts(s, b);
    CountBounds(s, Blk(b, lbn));
    t.ProgramPage(lbn, 125, List(list));
  }

  /** nand_page_ptprogram on a page that is in use: the same page of the same log block, and no other. */
  method PatchInPlace(t: BlockTable.BlkTable, lbn: nat, page: nat, data: seq<Chunk>, programs: nat, ghost s: St,
                      ghost bank: nat)
    requires Inv(s) && Blk(bank, lbn) in s.role && FlashIs(t, s, bank)
      && programs == Programs(s.flash, Pg(bank, lbn, page)) + 1
    modifies t`flash
    ensures FlashIs(t, PatchPage(s, Pg(bank, lbn, page), data), bank)
  {
    hide Inv, BumpCounter;
    CountBounds(s, Blk(bank, lbn));
    t.ProgramPage(lbn, page, Data(data, programs));
  }

  /** The end of a collection: the block table gives the victim an erased block and the clean list has room for it. */
  method ReleaseVictim(t: BlockTable.BlkTable, c: CleanList.CleanLists, bank: nat, lbn: nat, ghost s: St)
    returns (o: Outcome)
    requires Inv(s) && Blk(bank, lbn) in s.role && s.role[Blk(bank, lbn)].Victim? && bank < |s.clean|
    requires CleanIs(c, s) && FlashIs(t, s, bank)
    requires c.lbn != t.logBmt && c.lbn != t.freeBmt && c.size != t.logBmt && c.size != t.freeBmt
    modifies t, t.logBmt, t.freeBmt, c, c.next, c.lbn, c.head, c.tail, c.unused, c.size
    ensures o.Pass? && CleanIs(c, Release(s, Blk(bank, lbn))) && FlashIs(t, Release(s, Blk(bank, lbn)), bank)
  {
    hide Inv;
    CountBounds(s, Blk(bank, lbn));
    CleanRoom(s, Blk(bank, lbn));
    t.RecycleBlk(lbn);
    o := c.Push(bank, lbn);
  }

  // ----- format -----

  /** ValidChunksHeapInit for the two heaps of a bank. */
  method FormatHeaps(banks: nat, blocks: nat, bank: nat) returns (w: ValidChunksHeap, ow: ValidChunksHeap)
    requires bank < banks && 0 < blocks && 2 * blocks + 1 < U16
    ensures WriteHeapIs(w, Formatted(banks, blocks), bank) && OwHeapIs(ow, Formatted(banks, blocks), bank)
  {
    hide Perm, Ordered, Small, CountsOf, MembersOf;
    w := new ValidChunksHeap(blocks, CHUNKS_PER_LOG_BLK);
    ow := new ValidChunksHeap(blocks, OW_BLK_CHUNKS);
  }

  /** cleanListInit, and the pushes of initLog. */
  method FormatClean(banks: nat, blocks: nat) returns (c: CleanList.CleanLists)
    requires 0 < blocks
    ensures CleanIs(c, Formatted(banks, blocks))
  {
    hide CleanList.BankOk, CleanList.QueueOf;
    c := new CleanList.CleanLists(banks, blocks);
    for bank := 0 to banks
      invariant c.Valid() && c.banks == banks && c.per == blocks && fresh(c) && fresh(c.next) && fresh(c.lbn)
        && fresh(c.head) && fresh(c.tail) && fresh(c.unused) && fresh(c.size)
      invariant forall b | 0 <= b < banks :: c.Queue(b) == if b < bank then Upto(blocks) else []
    {
      for lbn := 0 to blocks
        invariant c.Valid() && c.banks == banks && c.per == blocks && fresh(c) && fresh(c.next) && fresh(c.lbn)
          && fresh(c.head) && fresh(c.tail) && fresh(c.unused) && fresh(c.size)
        invariant forall b | 0 <= b < banks ::
          c.Queue(b) == if b < bank then Upto(blocks) else if b == bank then Upto(lbn) else []
      {
        var o := c.Push(bank, lbn);
        assert o.Pass?;
        assert Upto(lbn) + [lbn] == Upto(lbn + 1);
      }
    }
  }

  /** The block assignment of one bank. */
  method FormatBlkTable(banks: nat, bank: nat, good: seq<nat>, before: map<BlockTable.Phys, Page>)
    returns (t: BlockTable.BlkTable)
    requires bank < banks && BlockTable.FREE_BLKS <= |good| && NoDups(good)
    ensures FlashIs(t, Formatted(banks, |good| - BlockTable.FREE_BLKS), bank)
  {
    t := new BlockTable.BlkTable(good, before);
  }
}
