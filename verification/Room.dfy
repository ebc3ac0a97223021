/** How much a bank can still take before it needs a collection, read off its tables. */
module Room {
  import opened Base
  import opened State
  import opened FtlTables

  /** Data pages the open RW block still has, its last one included. */
  function OpenPages(c: RwCursor): nat {
    match c
    case Closed => 0
    case Open(_, p, sealed) => if p > 126 then 0 else if sealed then (128 - p) / 2 else 127 - p
  }

  /** Pages of the open RW block that can be programmed without closing it. */
  function PagesLeft(c: RwCursor): nat {
    if OpenPages(c) == 0 then 0 else OpenPages(c) - 1
  }

  /** Pages that can be programmed while a second clean block is left at each new block. */
  function RwPages(c: RwCursor, clean: nat): nat {
    if c.Closed? then (if clean >= 2 then 127 * (clean - 1) - 1 else 0)
    else PagesLeft(c) + (if clean >= 1 then 127 * (clean - 1) else 0)
  }

  function CleanAt(t: Tables, b: nat): nat {
    if b < |t.cleanList| then |t.cleanList[b]| else 0
  }

  function PagesAt(t: Tables, b: nat): nat {
    if b < |t.rwCtrl| && b < |t.cleanList| then RwPages(t.rwCtrl[b], |t.cleanList[b]|) else 0
  }

  /** All pages the bank has: those of the open block and of every clean one. */
  function StockAt(t: Tables, b: nat): nat {
    (if b < |t.rwCtrl| then OpenPages(t.rwCtrl[b]) else 0) + 127 * CleanAt(t, b)
  }

  /** Slots of the write buffer that can be filled without a flush. */
  function SlotsAt(t: Tables, b: nat): nat {
    if b < |t.chunkPtr| && t.chunkPtr[b] <= 7 then 7 - t.chunkPtr[b] else 0
  }

  /** Chunks the bank can take: those of the pages, less what the write buffer already holds. */
  function RoomAt(t: Tables, b: nat): nat {
    if b < |t.chunkPtr| && t.chunkPtr[b] <= 7 then 8 * PagesAt(t, b) + SlotsAt(t, b) else 0
  }

  /** What a bank can take, in chunks: without a collection; in all; without a flush.  And its clean blocks. */
  datatype Space = Space(room: nat, stock: nat, slots: nat, clean: nat)

  function SpaceAt(t: Tables, b: nat): Space {
    Space(RoomAt(t, b), 8 * StockAt(t, b) + SlotsAt(t, b), SlotsAt(t, b), CleanAt(t, b))
  }

  function Rooms(t: Tables): (r: seq<Space>)
    ensures |r| == |t.rwCtrl| && forall b | 0 <= b < |r| :: r[b] == SpaceAt(t, b)
  {
    seq(|t.rwCtrl|, b requires 0 <= b => SpaceAt(t, b))
  }

  /** From `x` to `y` at most `n` chunks were spent; a clean block only if they do not fit in the buffer. */
  predicate Spent(x: Space, y: Space, n: nat) {
    && y.room + n >= x.room && y.stock + n >= x.stock
    && (n <= x.slots ==> y.slots + n >= x.slots && y.clean >= x.clean)
  }

  /** No bank has fewer pages, and none but `but` fewer clean blocks. */
  ghost predicate NoLess(s: Tables, t: Tables, but: int) {
    && |t.rwCtrl| == |s.rwCtrl| && t.chunkPtr == s.chunkPtr
    && forall b: nat ::
         && PagesAt(t, b) >= PagesAt(s, b) && StockAt(t, b) >= StockAt(s, b)
         && (b != but ==> CleanAt(t, b) >= CleanAt(s, b))
  }

  /** A bank with room for a page succeeds, and loses at most that page; other banks lose nothing. */
  ghost predicate OnePage(s: Tables, t: Tables, bank: nat, o: Outcome) {
    1 <= PagesAt(s, bank) ==>
      o.Pass? && |t.rwCtrl| == |s.rwCtrl| && t.chunkPtr == s.chunkPtr
      && forall b: nat ::
           && PagesAt(t, b) + (if b == bank then 1 else 0) >= PagesAt(s, b)
           && StockAt(t, b) + (if b == bank then 1 else 0) >= StockAt(s, b)
           && (b != bank ==> CleanAt(t, b) >= CleanAt(s, b))
  }

  /** A bank with room for `n` chunks succeeds, and loses at most that; other banks lose nothing. */
  ghost predicate Pays(before: seq<Space>, after: seq<Space>, bank: nat, n: nat, o: Outcome) {
    bank < |before| && before[bank].room >= n ==>
      o.Pass? && |after| == |before|
      && forall b | 0 <= b < |before| :: Spent(before[b], after[b], if b == bank then n else 0)
  }

  /** If every bank has room for `n` chunks the call succeeds, and no bank loses more than that. */
  ghost predicate Lasts(before: seq<Space>, after: seq<Space>, n: nat, o: Outcome) {
    (forall b | 0 <= b < |before| :: before[b].room >= n) ==>
      o.Pass? && |after| == |before| && forall b | 0 <= b < |before| :: Spent(before[b], after[b], n)
  }

  /** With the block that a collection is going to win back for bank `bank`. */
  function Credited(rooms: seq<Space>, bank: nat): (r: seq<Space>)
    ensures |r| == |rooms|
  {
    if bank < |rooms| then rooms[bank := rooms[bank].(stock := rooms[bank].stock + 1016,
                                                      clean := rooms[bank].clean + 1)]
    else rooms
  }

  /** The same if `credit` says so. */
  function CreditedIf(rooms: seq<Space>, credit: bool, bank: nat): seq<Space> {
    if credit then Credited(rooms, bank) else rooms
  }

  lemma LastsMore(before: seq<Space>, after: seq<Space>, m: nat, n: nat, o: Outcome)
    requires Lasts(before, after, m, o) && m <= n
    ensures Lasts(before, after, n, o)
  {
  }

  lemma LastsThen(before: seq<Space>, mid: seq<Space>, after: seq<Space>, m: nat, n: nat, o: Outcome)
    requires Lasts(before, mid, m, Pass) && Lasts(mid, after, n, o)
    ensures Lasts(before, after, m + n, o)
  {
  }

  lemma LastsNothing(before: seq<Space>)
    ensures Lasts(before, before, 0, Pass)
  {
  }

  /** One step more, of cost `n`, of a request of cost `total`. */
  lemma LastsStep(before: seq<Space>, mid: seq<Space>, after: seq<Space>, done: nat, n: nat, total: nat, o: Outcome)
    requires Lasts(before, mid, done, Pass) && Lasts(mid, after, n, o) && done + n <= total
    ensures Lasts(before, after, done + n, o) && Lasts(before, after, total, o)
  {
    hide Lasts;
    LastsThen(before, mid, after, done, n, o);
    LastsMore(before, after, done + n, total, o);
  }

  lemma LastsCredited(before: seq<Space>, after: seq<Space>, n: nat, bank: nat)
    requires Lasts(before, after, n, Pass)
    ensures Lasts(Credited(before, bank), Credited(after, bank), n, Pass)
  {
    var c := Credited(before, bank);
    if forall b | 0 <= b < |c| :: c[b].room >= n {
      forall b | 0 <= b < |before| ensures before[b].room >= n {
        assert c[b].room == before[b].room;
      }
    }
  }

  /** The last step of a collection wins a block back. */
  lemma LastsWins(before: seq<Space>, mid: seq<Space>, after: seq<Space>, done: nat, n: nat, total: nat, last: bool,
                  bank: nat, o: Outcome)
    requires Lasts(before, mid, done, Pass) && Lasts(CreditedIf(mid, last, bank), after, n, o) && done + n <= total
    ensures Lasts(CreditedIf(before, last, bank), after, done + n, o)
    ensures Lasts(CreditedIf(before, last, bank), after, total, o)
  {
    hide Lasts;
    LastsCredited(before, mid, done, bank);
    LastsStep(CreditedIf(before, last, bank), CreditedIf(mid, last, bank), after, done, n, total, o);
  }

  /** A call that cannot succeed: whether a block is won back does not matter. */
  lemma LastsFails(before: seq<Space>, after: seq<Space>, n: nat, bank: nat, o: Outcome)
    requires Lasts(before, after, n, o) && o.Fail?
    ensures Lasts(Credited(before, bank), after, n, o)
  {
    var c := Credited(before, bank);
    if forall b | 0 <= b < |c| :: c[b].room >= n {
      forall b | 0 <= b < |before| ensures before[b].room >= n {
        assert c[b].room == before[b].room;
      }
    }
  }

  lemma PaysLasts(before: seq<Space>, after: seq<Space>, bank: nat, m: nat, n: nat, o: Outcome)
    requires Pays(before, after, bank, m, o) && bank < |before| && m <= n
    ensures Lasts(before, after, n, o)
  {
  }

  lemma PaysThen(before: seq<Space>, mid: seq<Space>, after: seq<Space>, bank: nat, m: nat, n: nat, o: Outcome)
    requires Pays(before, mid, bank, m, Pass) && Pays(mid, after, bank, n, o)
    ensures Pays(before, after, bank, m + n, o)
  {
  }

  lemma PaysMore(before: seq<Space>, after: seq<Space>, bank: nat, m: nat, n: nat, o: Outcome)
    requires Pays(before, after, bank, m, o) && m <= n
    ensures Pays(before, after, bank, n, o)
  {
  }

  lemma PaysNothing(before: seq<Space>, bank: nat)
    ensures Pays(before, before, bank, 0, Pass)
  {
  }

  /** A call for which bank `bank` has room erases nothing. */
  ghost predicate Quietly(before: seq<Space>, bank: nat, n: nat, wiped: multiset<Blk>, wiped': multiset<Blk>) {
    bank < |before| && before[bank].room >= n ==> wiped' == wiped
  }

  lemma QuietRoom(t: Tables, bank: nat, n: nat, wiped: multiset<Blk>, wiped': multiset<Blk>)
    requires n <= RoomAt(t, bank) ==> wiped' == wiped
    ensures Quietly(Rooms(t), bank, n, wiped, wiped')
  {
  }

  lemma QuietPage(t: Tables, bank: nat, wiped: multiset<Blk>, wiped': multiset<Blk>)
    requires 1 <= PagesAt(t, bank) ==> wiped' == wiped
    ensures Quietly(Rooms(t), bank, 8, wiped, wiped')
  {
    hide PagesAt;
  }

  /** One step more, of cost `n`, of a request of cost `total` to one bank. */
  lemma PaysStep(before: seq<Space>, mid: seq<Space>, after: seq<Space>, bank: nat, done: nat, n: nat, total: nat,
                 w: multiset<Blk>, w': multiset<Blk>, w'': multiset<Blk>, o: Outcome)
    requires Pays(before, mid, bank, done, Pass) && Quietly(before, bank, done, w, w')
    requires Pays(mid, after, bank, n, o) && Quietly(mid, bank, n, w', w'') && done + n <= total
    ensures Pays(before, after, bank, done + n, o) && Quietly(before, bank, done + n, w, w'')
    ensures Pays(before, after, bank, total, o) && Quietly(before, bank, total, w, w'')
  {
    PaysThen(before, mid, after, bank, done, n, o);
    PaysMore(before, after, bank, done + n, total, o);
  }

  lemma PagePasses(s: Tables, t: Tables, bank: nat, o: Outcome)
    requires OnePage(s, t, bank, o)
    ensures 1 <= PagesAt(s, bank) ==> o.Pass?
  {
    hide PagesAt, StockAt, CleanAt;
  }

  /** A page costs its eight chunks. */
  lemma PagePays(s: Tables, t: Tables, bank: nat, o: Outcome)
    requires OnePage(s, t, bank, o)
    ensures Pays(Rooms(s), Rooms(t), bank, 8, o)
  {
    hide PagesAt, StockAt, CleanAt;
  }

  lemma PageLasts(s: Tables, t: Tables, bank: nat, n: nat, o: Outcome)
    requires OnePage(s, t, bank, o) && bank < |s.rwCtrl| && 8 <= n
    ensures Lasts(Rooms(s), Rooms(t), n, o)
  {
    hide OnePage, Pays, Rooms;
    PagePays(s, t, bank, o);
    assert |Rooms(s)| == |s.rwCtrl|;
    PaysLasts(Rooms(s), Rooms(t), bank, 8, n, o);
  }

  /** Each clean block but one is room for its 1016 chunks, less the page that may be in the buffer. */
  lemma CleanIsRoom(t: Tables, b: nat)
    requires b < |t.rwCtrl| && b < |t.cleanList| && b < |t.chunkPtr| && t.chunkPtr[b] <= 7 && 2 <= |t.cleanList[b]|
    ensures RoomAt(t, b) >= 1016 * (|t.cleanList[b]| - 1) - 8
  {
  }

  /** The bank's next clean block was opened at page 0. */
  ghost predicate Opened(s: Tables, t: Tables, bank: nat) {
    && bank < |s.cleanList| && 1 <= |s.cleanList[bank]| && t.cleanList == s.cleanList[bank := s.cleanList[bank][1..]]
    && bank < |s.rwCtrl| && t.rwCtrl == s.rwCtrl[bank := Open(s.cleanList[bank][0], 0, false)]
    && t.chunkPtr == s.chunkPtr
  }

  lemma OpenedPages(s: Tables, t: Tables, bank: nat)
    requires Opened(s, t, bank) && s.rwCtrl[bank].Closed? && 2 <= |s.cleanList[bank]|
    ensures NoLess(s, t, bank)
  {
  }

  /** Closing a block at page 126 and opening the next uses up one page. */
  lemma ClosedOpened(s: Tables, m: Tables, t: Tables, bank: nat, o: Outcome)
    requires bank < |s.rwCtrl| && s.rwCtrl[bank].Open? && s.rwCtrl[bank].page == 126 && bank < |s.cleanList|
    requires m.rwCtrl == s.rwCtrl[bank := Closed] && m.cleanList == s.cleanList && m.chunkPtr == s.chunkPtr
    requires 2 <= |s.cleanList[bank]| ==> o.Pass? && Opened(m, t, bank)
    ensures OnePage(s, t, bank, o)
  {
  }

  lemma AdvancedPage(s: Tables, t: Tables, bank: nat)
    requires bank < |s.rwCtrl| && s.rwCtrl[bank].Open? && s.rwCtrl[bank].page < 126
      && (s.rwCtrl[bank].sealed ==> s.rwCtrl[bank].page % 2 == 0)
    requires t.rwCtrl == s.rwCtrl[bank := s.rwCtrl[bank].(page := NextRw(s.rwCtrl[bank].page, s.rwCtrl[bank].sealed))]
    requires t.cleanList == s.cleanList && t.chunkPtr == s.chunkPtr
    ensures OnePage(s, t, bank, Pass)
  {
  }

  lemma PageAfter(s: Tables, m: Tables, t: Tables, bank: nat, o: Outcome)
    requires 1 <= PagesAt(s, bank) ==> NoLess(s, m, bank)
    requires OnePage(m, t, bank, o)
    ensures OnePage(s, t, bank, o)
  {
    hide PagesAt, StockAt, CleanAt;
  }

  lemma SameCursors(s: Tables, t: Tables, but: int)
    requires t.rwCtrl == s.rwCtrl && t.cleanList == s.cleanList && t.chunkPtr == s.chunkPtr
    ensures NoLess(s, t, but)
  {
  }

  lemma SameRooms(s: Tables, t: Tables, n: nat)
    requires t.rwCtrl == s.rwCtrl && t.cleanList == s.cleanList && t.chunkPtr == s.chunkPtr
    ensures Rooms(t) == Rooms(s) && Lasts(Rooms(s), Rooms(t), n, Pass)
  {
  }

  lemma NoLessThen(s: Tables, m: Tables, t: Tables, b: nat)
    requires NoLess(m, t, b)
    ensures (1 <= PagesAt(s, b) ==> NoLess(s, m, b)) ==> (1 <= PagesAt(s, b) ==> NoLess(s, t, b))
  {
    hide PagesAt, StockAt, CleanAt;
  }

  lemma NoLessAfter(s: Tables, m: Tables, t: Tables, b: nat)
    requires NoLess(s, m, b)
    ensures (1 <= PagesAt(m, b) ==> NoLess(m, t, b)) ==> (1 <= PagesAt(s, b) ==> NoLess(s, t, b))
  {
    hide PagesAt, StockAt, CleanAt;
  }

  lemma PagesKept(s: Tables, t: Tables, bank: nat)
    ensures NoLess(s, t, bank) ==> PagesAt(t, bank) >= PagesAt(s, bank)
  {
    hide PagesAt, StockAt, CleanAt;
  }

  /** A call that found no page to program has nothing to answer for. */
  lemma PageFails(s: Tables, t: Tables, bank: nat, o: Outcome)
    requires bank < |s.rwCtrl| && PagesAt(s, bank) == 0
    ensures OnePage(s, t, bank, o) && Lasts(Rooms(s), Rooms(t), 8, o)
  {
    assert Rooms(s)[bank].room < 8;
  }

  /** A chunk entered slot `chunkPtr[bank]` of the write buffer; if that was the last slot, the buffer is flushed. */
  lemma ChunkIn(s: Tables, m: Tables, t: Tables, bank: nat, o: Outcome)
    requires m.rwCtrl == s.rwCtrl && m.cleanList == s.cleanList && bank < |s.chunkPtr| && s.chunkPtr[bank] < 8
    requires m.chunkPtr == s.chunkPtr[bank := (s.chunkPtr[bank] + 1) % 8]
    requires if s.chunkPtr[bank] == 7 then OnePage(m, t, bank, o) else t == m && o == Pass
    ensures Pays(Rooms(s), Rooms(t), bank, 1, o)
  {
    hide StockAt, CleanAt, PagesAt;
    forall b: nat
      ensures PagesAt(m, b) == PagesAt(s, b) && StockAt(m, b) == StockAt(s, b) && CleanAt(m, b) == CleanAt(s, b)
    {
      SameCursorsAt(s, m, b);
    }
    if bank < |Rooms(s)| && 1 <= Rooms(s)[bank].room {
      assert s.chunkPtr[bank] == 7 ==> 1 <= PagesAt(m, bank);
      forall b | 0 <= b < |Rooms(s)| ensures Spent(Rooms(s)[b], Rooms(t)[b], if b == bank then 1 else 0) {
        assert SlotsAt(m, b) == if b == bank then (if s.chunkPtr[b] == 7 then 7 else SlotsAt(s, b) - 1)
          else SlotsAt(s, b);
      }
    }
  }

  lemma SameCursorsAt(s: Tables, t: Tables, b: nat)
    requires t.rwCtrl == s.rwCtrl && t.cleanList == s.cleanList
    ensures PagesAt(t, b) == PagesAt(s, b) && StockAt(t, b) == StockAt(s, b) && CleanAt(t, b) == CleanAt(s, b)
  {
  }

  // ----- a collection wins a block back -----

  /** The tables with one clean block more in bank `v.bank`. */
  function WithClean(t: Tables, v: Blk): Tables {
    t.(cleanList := Queued(t.cleanList, v))
  }

  function Queued(lists: seq<seq<nat>>, v: Blk): seq<seq<nat>> {
    if v.bank < |lists| then lists[v.bank := lists[v.bank] + [v.lbn]] else lists
  }

  lemma WonPages(s: Tables, v: Blk)
    ensures forall b: nat ::
      && PagesAt(WithClean(s, v), b) >= PagesAt(s, b)
      && (v.bank < |s.cleanList| ==>
            StockAt(WithClean(s, v), b) == StockAt(s, b) + (if b == v.bank then 127 else 0)
            && CleanAt(WithClean(s, v), b) == CleanAt(s, b) + (if b == v.bank then 1 else 0))
  {
  }

  lemma Won(s: Tables, t: Tables, v: Blk)
    requires v.bank < |s.cleanList| && t.cleanList == WithClean(s, v).cleanList && t.rwCtrl == s.rwCtrl
      && t.chunkPtr == s.chunkPtr
    ensures Lasts(Credited(Rooms(s), v.bank), Rooms(t), 0, Pass) && NoLess(s, t, -1)
  {
    hide PagesAt, StockAt, CleanAt;
    WonPages(s, v);
    forall b: nat
      ensures PagesAt(t, b) == PagesAt(WithClean(s, v), b) && StockAt(t, b) == StockAt(WithClean(s, v), b)
      ensures CleanAt(t, b) == CleanAt(WithClean(s, v), b)
    {
      SameCursorsAt(WithClean(s, v), t, b);
    }
  }

  /** A page goes to bank `bank` and block `v` is released before the cursor there moves. */
  lemma PageWins(s: Tables, m: Tables, t: Tables, v: Blk, bank: nat, n: nat, o: Outcome)
    requires 1 <= PagesAt(s, bank) ==> NoLess(s, m, bank)
    requires OnePage(WithClean(m, v), t, bank, o) && v.bank < |m.cleanList| && bank < |s.rwCtrl| && 8 <= n
    ensures Lasts(Credited(Rooms(s), v.bank), Rooms(t), n, o)
  {
    hide PagesAt, StockAt, CleanAt;
    var c := Credited(Rooms(s), v.bank);
    if forall b | 0 <= b < |c| :: c[b].room >= n {
      assert c[bank].room == RoomAt(s, bank) >= 8;
      WonPages(m, v);
      assert 1 <= PagesAt(s, bank) && NoLess(s, m, bank);
      forall b | 0 <= b < |c| ensures Spent(c[b], Rooms(t)[b], n) {
        assert c[b].room == RoomAt(s, b);
        assert Rooms(t)[b] == SpaceAt(t, b);
      }
    }
  }

  /** A bank short of clean blocks has one more after a collection for which every bank had room. */
  lemma MoreClean(s: Tables, t: Tables, bank: nat, n: nat, o: Outcome)
    requires Lasts(Credited(Rooms(s), bank), Rooms(t), n, o) && forall b | 0 <= b < |s.rwCtrl| :: RoomAt(s, b) >= n
    requires bank < |s.rwCtrl| && bank < |s.cleanList| && |s.cleanList[bank]| <= 1
      && bank < |s.chunkPtr| && s.chunkPtr[bank] <= 7
    ensures o.Pass? && CleanAt(t, bank) > CleanAt(s, bank)
  {
    var c := Credited(Rooms(s), bank);
    assert forall b | 0 <= b < |c| :: c[b].room == RoomAt(s, b) >= n;
    assert Spent(c[bank], SpaceAt(t, bank), n);
  }

  // ----- the overwrite side -----

  /** What decides whether a bank's overwrite log needs a collection: the fill of its buffer,
      the next page of its open overwrite block, if there is one, and its clean blocks. */
  datatype OwBank = OwBank(ptr: nat, page: Option<nat>, clean: nat)

  function OwBankAt(t: Tables, b: nat): OwBank {
    OwBank(if b < |t.owChunkPtr| then t.owChunkPtr[b] else 0,
           if b < |t.owCtrl| && t.owCtrl[b].OwOpen? then Some(t.owCtrl[b].page) else None,
           if b < |t.cleanList| then |t.cleanList[b]| else 0)
  }

  function OwBanks(t: Tables): (r: seq<OwBank>)
    ensures |r| == |t.owCtrl| && forall b | 0 <= b < |r| :: r[b] == OwBankAt(t, b)
  {
    seq(|t.owCtrl|, b requires 0 <= b => OwBankAt(t, b))
  }

  /** A page cannot be programmed without a collection: no open block, and at most one clean one. */
  predicate NeedsBlock(x: OwBank) {
    x.page.None? && x.clean <= 1
  }

  /** A flush of the buffer cannot be finished without a collection. */
  predicate FlushNeedsBlock(x: OwBank) {
    x.clean <= 1 && (x.page.None? || x.page == Some(123))
  }

  /** The bank after a flush that needs no collection. */
  function Flushed(x: OwBank): OwBank {
    if x.page.None? then x.(page := Some(1), clean := if x.clean > 0 then x.clean - 1 else 0)
    else if x.page == Some(123) then x.(page := Some(0), clean := if x.clean > 0 then x.clean - 1 else 0)
    else x.(page := Some(NextOw(x.page.value)))
  }

  predicate StoreNeedsBlock(x: OwBank) {
    x.ptr == 7 && FlushNeedsBlock(x)
  }

  function AfterStore(x: OwBank): OwBank {
    if x.ptr == 7 then Flushed(x.(ptr := 0)) else x.(ptr := x.ptr + 1)
  }

  /** Storing `n` chunks, each in the bank after the one before, meets a bank that needs a collection. */
  predicate RunsOut(xs: seq<OwBank>, bank: nat, n: nat)
    decreases n
  {
    n > 0 && |xs| > 0
    && (StoreNeedsBlock(xs[(bank + 1) % |xs|]) || RunsOut(xs[(bank + 1) % |xs| := AfterStore(xs[(bank + 1) % |xs|])],
                                                          (bank + 1) % |xs|, n - 1))
  }

  ghost predicate SameRwSide(s: Tables, t: Tables) {
    t.rwCtrl == s.rwCtrl && t.chunkPtr == s.chunkPtr
  }

  /** The bank's next clean block was opened for overwrites. */
  ghost predicate OwOpened(s: Tables, t: Tables, bank: nat) {
    && bank < |s.cleanList| && 1 <= |s.cleanList[bank]| && t.cleanList == s.cleanList[bank := s.cleanList[bank][1..]]
    && bank < |s.owCtrl| && t.owCtrl == s.owCtrl[bank := OwOpen(s.cleanList[bank][0], 0)]
    && t.owChunkPtr == s.owChunkPtr && SameRwSide(s, t)
  }

  /** Only bank `bank` changed on the overwrite side, to `x`; at most one of its clean blocks was used. */
  ghost predicate OwNow(s: Tables, t: Tables, bank: nat, x: OwBank) {
    && SameRwSide(s, t) && |t.owCtrl| == |s.owCtrl| && |t.cleanList| == |s.cleanList|
    && (forall b: nat :: OwBankAt(t, b) == if b == bank then x else OwBankAt(s, b))
    && x.clean + 1 >= OwBankAt(s, bank).clean
  }

  lemma OwNowBanks(s: Tables, t: Tables, bank: nat, x: OwBank)
    requires OwNow(s, t, bank, x) && bank < |s.owCtrl|
    ensures OwBanks(t) == OwBanks(s)[bank := x]
  {
    hide OwBankAt;
  }

  /** A step on the overwrite side costs at most one clean block, 127 pages of the RW side. */
  lemma OwLasts(s: Tables, t: Tables, bank: nat, x: OwBank, n: nat, o: Outcome)
    requires bank < |s.rwCtrl| == |s.cleanList| && 1016 <= n
    requires 2 <= |s.cleanList[bank]| ==> o.Pass? && OwNow(s, t, bank, x)
    ensures Lasts(Rooms(s), Rooms(t), n, o)
  {
    if forall b | 0 <= b < |Rooms(s)| :: Rooms(s)[b].room >= n {
      assert Rooms(s)[bank].room >= 1016;
      TwoClean(s, bank);
      forall b | 0 <= b < |Rooms(s)| ensures Spent(Rooms(s)[b], Rooms(t)[b], n) {
        OwRoom(s, t, bank, x, b);
      }
    }
  }

  lemma TwoClean(s: Tables, b: nat)
    requires b < |s.rwCtrl| && b < |s.cleanList| && RoomAt(s, b) >= 1016
    ensures 2 <= |s.cleanList[b]|
  {
  }

  lemma OwRoom(s: Tables, t: Tables, bank: nat, x: OwBank, b: nat)
    requires OwNow(s, t, bank, x) && b < |s.rwCtrl| && b < |s.cleanList|
    ensures Spent(SpaceAt(s, b), SpaceAt(t, b), 1016)
  {
    assert OwBankAt(t, b).clean + 1 >= OwBankAt(s, b).clean;
    assert |t.cleanList[b]| + 1 >= |s.cleanList[b]|;
  }
}
