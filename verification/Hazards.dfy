/** Why some victims are refused: what makes a block's entries and its heap value disagree, and states in which
    the collector goes wrong with such a block. */
module Hazards {
  import opened Base
  import opened Nand
  import opened State
  import opened Steps
  import opened FtlTables
  import opened VictimFrame
  import opened Internal
  import opened Sealing
  import opened Measure
  import opened Collecting
  import opened Room
  import opened Victims
  import opened Log
  import opened Write
  import opened OwLog
  import opened Overwrite
  import opened Reached
  import Guarantees

  // ----- what a heap value promises -----

  ghost function StaleKeys(cmap: map<Key, Loc>, held: map<Key, Chunk>, v: Blk): set<Key> {
    set k | k in held && k in cmap && InBlk(cmap[k].page, v)
  }

  /** The table's entries for a block are its mapped chunks and its stale entries. */
  lemma EntriesSplit(cmap: map<Key, Loc>, live: map<Key, Loc>, held: map<Key, Chunk>, v: Blk)
    requires MapOK(cmap, live, held)
    ensures |KeysIn(cmap, v)| == |KeysIn(live, v)| + |StaleKeys(cmap, held, v)|
  {
    assert KeysIn(cmap, v) == KeysIn(live, v) + StaleKeys(cmap, held, v);
    assert KeysIn(live, v) !! StaleKeys(cmap, held, v);
  }

  lemma TableOk(s: St)
    requires Inv(s)
    ensures MapOK(s.cmap, s.live, s.held)
  {
  }

  lemma NoneStaleIff(cmap: map<Key, Loc>, held: map<Key, Chunk>, v: Blk)
    ensures |StaleKeys(cmap, held, v)| == 0 <==> NoStaleIn(cmap, held, v)
  {
    if |StaleKeys(cmap, held, v)| == 0 {
      forall k | k in held && k in cmap ensures !InBlk(cmap[k].page, v) {
        assert k !in StaleKeys(cmap, held, v);
      }
    } else {
      var k :| k in StaleKeys(cmap, held, v);
    }
  }

  /** The collector counts table entries and stops at the heap value of a full RW block:
      the two agree if and only if no chunk that is only in RAM still has an entry there. */
  lemma PromiseKeptIff(s: St, v: Blk)
    requires Inv(s) && v in s.wIn
    ensures v in s.wCount && (s.wCount[v] == |KeysIn(s.cmap, v)| <==> NoStaleIn(s.cmap, s.held, v))
  {
    hide Inv, KeysIn, StaleKeys, MapOK, NoStaleIn;
    TableOk(s);
    EntriesSplit(s.cmap, s.live, s.held, v);
    NoneStaleIff(s.cmap, s.held, v);
    RwPromise(s, v);
  }

  lemma RwPromise(s: St, v: Blk)
    requires Inv(s) && v in s.wIn
    ensures v in s.wCount && s.wCount[v] == |KeysIn(s.live, v)|
  {
    hide BufShape, RoleShape, ListShape, MapOK, StaleOK, DramOK, FlashOK, Inj, OCounts, CleanOK, RwOK, OwOK, Erased,
         ListPages, Budget, TraceOK, KeysIn;
    MemberFacts(s, v);
  }

  /** For a full overwrite block, if and only if as much is owed to it as it has stale entries. */
  lemma OwPromiseKeptIff(s: St, v: Blk)
    requires Inv(s) && v in s.oIn
    ensures v in s.oCount && HIGH_PAGE_CHUNKS <= s.oCount[v]
    ensures s.oCount[v] - HIGH_PAGE_CHUNKS == |KeysIn(s.cmap, v)| <==> Owed(s.debt, v) == |StaleKeys(s.cmap, s.held, v)|
  {
    hide Inv, KeysIn, StaleKeys, MapOK;
    TableOk(s);
    EntriesSplit(s.cmap, s.live, s.held, v);
    OwPromise(s, v);
  }

  lemma OwPromise(s: St, v: Blk)
    requires Inv(s) && v in s.oIn
    ensures v in s.oCount && s.oCount[v] == |KeysIn(s.live, v)| + HIGH_PAGE_CHUNKS + Owed(s.debt, v)
  {
    hide BufShape, RoleShape, ListShape, MapOK, StaleOK, DramOK, FlashOK, Inj, WCounts, CleanOK, RwOK, OwOK, Erased,
         ListPages, Budget, TraceOK, KeysIn;
    MemberFacts(s, v);
  }

  /** A full block is refused exactly when the entries that the collector would count are not as many as
      the heap promises. */
  lemma TrippedIff(s: St, v: Blk)
    requires Inv(s) && (v in s.wIn || v in s.oIn) && (s.held == map[] || s.debt.amount == 0)
    ensures v in s.wCount && v in s.oCount && (v in s.oIn ==> HIGH_PAGE_CHUNKS <= s.oCount[v])
    ensures Tripped(s, v) <==> |KeysIn(s.cmap, v)| != if v in s.wIn then s.wCount[v] else s.oCount[v] - HIGH_PAGE_CHUNKS
  {
    hide Inv, KeysIn, NoStaleIn;
    MemberFacts(s, v);
    BlkInRange(s, v);
    NoneStaleIff(s.cmap, s.held, v);
    VictimCount(s, v);
    if v in s.wIn {
      PromiseKeptIff(s, v);
    } else {
      OwPromiseKeptIff(s, v);
      EntriesOfHeld(s, v);
    }
  }

  lemma EntriesOfHeld(s: St, v: Blk)
    ensures s.held == map[] ==> NoStaleIn(s.cmap, s.held, v) && |StaleKeys(s.cmap, s.held, v)| == 0
  {
    if s.held == map[] {
      assert StaleKeys(s.cmap, s.held, v) == {};
    }
  }

  // ----- a small device: one bank, a full RW block and the open one -----

  ghost function Full(): Blk {
    Blk(0, 0)
  }

  ghost function Other(): Blk {
    Blk(0, 1)
  }

  ghost function BlankPage(): seq<Chunk> {
    seq(8, _ => BlankChunk())
  }

  ghost function DataPages(): map<PageId, Page> {
    map p: nat | p < 127 :: Pg(0, 0, p) := Data(BlankPage(), 1)
  }

  ghost function SmallFlash(list: seq<Option<nat>>): map<PageId, Page> {
    DataPages()[Pg(0, 0, 127) := List(list)]
  }

  /** After `h`, the first `n` pages of the full block are programmed in order. */
  ghost function Pages(h: Trace, n: nat): Trace {
    if n == 0 then h else Then(Pages(h, n - 1), Program(Pg(0, 0, n - 1), RwData))
  }

  ghost function Closed127(h: Trace): Trace {
    Then(Pages(h, 127), Program(Pg(0, 0, 127), LpnList))
  }

  /** The block was filled, released, and filled again. */
  ghost function SmallTrace(): Trace {
    Closed127(Then(Closed127(Start), EraseBlk(Full())))
  }

  ghost predicate BlankTrace(h: Trace) {
    Disciplined(h) && (forall pg :: Burns(h, pg) == 0) && (forall blk :: ModeOf(h, blk) == Fresh)
  }

  lemma {:induction false} FillingRules(h: Trace, n: nat)
    requires BlankTrace(h) && n <= 127
    ensures Disciplined(Pages(h, n))
    ensures forall pg :: Burns(Pages(h, n), pg) == if pg.Pg? && BlkOf(pg) == Full() && pg.page < n then 1 else 0
    ensures forall blk :: ModeOf(Pages(h, n), blk) == if 0 < n && blk == Full() then InRw else Fresh
  {
    if n > 0 {
      FillingRules(h, n - 1);
    }
  }

  lemma ErasedRules()
    ensures BlankTrace(Then(Closed127(Start), EraseBlk(Full())))
  {
    hide Pages;
    FillingRules(Start, 127);
    var h := Closed127(Start);
    assert Disciplined(h);
    forall pg ensures Burns(Then(h, EraseBlk(Full())), pg) == 0 {
      assert Burns(h, pg) > 0 ==> InBlk(pg, Full());
    }
    forall blk ensures ModeOf(Then(h, EraseBlk(Full())), blk) == Fresh {
      assert ModeOf(h, blk) == ModeOf(Pages(Start, 127), blk);
    }
  }

  lemma SmallTraceOk(list: seq<Option<nat>>)
    ensures TraceOK(SmallFlash(list), SmallRole(), SmallTrace())
  {
    hide Pages, BlankTrace;
    ErasedRules();
    FillingRules(Then(Closed127(Start), EraseBlk(Full())), 127);
  }

  ghost function SmallRole(): map<Blk, Role> {
    map[Full() := FullRw, Other() := OpenRw(0, false)]
  }

  ghost function Small(live: map<Key, Loc>, held: map<Key, Chunk>, cmap: map<Key, Loc>, list: seq<Option<nat>>): St {
    St(1, 2, cmap,
       [BlankPage()], [Rows(8, None)], [0], [BlankPage()], [Rows(8, None)], [0],
       [Open(1, 0, false)], [NoNames()], [OwClosed], [NoNames()], [[]],
       map[Full() := |live|, Other() := CHUNKS_PER_LOG_BLK], {Full()},
       map[Full() := OW_BLK_CHUNKS, Other() := OW_BLK_CHUNKS], {},
       map[Full() := NoCounts(), Other() := NoCounts()],
       SmallFlash(list),
       live, held, SmallRole(), map[Full() := list, Other() := NoNames()], [0], [0], {}, {}, Debt(Blk(0, 0), 0),
       multiset{Full()}, SmallTrace())
  }

  /** The mapped chunks are in the full block, each named by its list. */
  ghost predicate InFull(live: map<Key, Loc>, list: seq<Option<nat>>) {
    forall k | k in live ::
      k.idx < 8 && live[k].page.Pg? && BlkOf(live[k].page) == Full() && !live[k].ow && live[k].page.page <= 126
        && live[k].slot < 8
      && live[k].page.page * 8 + live[k].slot < |list| && list[live[k].page.page * 8 + live[k].slot] == Some(k.lpn)
  }

  ghost predicate SmallOk(live: map<Key, Loc>, held: map<Key, Chunk>, cmap: map<Key, Loc>, list: seq<Option<nat>>) {
    && |list| == CHUNKS_PER_BLK && InFull(live, list) && Inj(live) && MapOK(cmap, live, held)
    && (forall k | k in cmap :: !cmap[k].ow) && |live| <= CHUNKS_PER_LOG_BLK
  }

  lemma SmallCounts(live: map<Key, Loc>, list: seq<Option<nat>>)
    requires InFull(live, list) && |live| <= CHUNKS_PER_LOG_BLK
    ensures WCounts(live, SmallRole(), map[Full() := |live|, Other() := CHUNKS_PER_LOG_BLK])
    ensures OCounts(live, SmallRole(), map[Full() := OW_BLK_CHUNKS, Other() := OW_BLK_CHUNKS], Debt(Blk(0, 0), 0))
  {
    assert KeysIn(live, Full()) == live.Keys;
    assert KeysIn(live, Other()) == {};
    assert |live.Keys| == |live|;
  }

  lemma SmallFlashOk(live: map<Key, Loc>, list: seq<Option<nat>>)
    requires |list| == CHUNKS_PER_BLK && InFull(live, list)
    ensures FlashOK(live, SmallFlash(list), map[Full() := list, Other() := NoNames()], SmallRole())
    ensures DramOK(live, [Rows(8, None)], [0], false) && DramOK(live, [Rows(8, None)], [0], true)
  {
    forall k | k in live
      ensures FlashKeyOK(k, live[k], SmallFlash(list), map[Full() := list, Other() := NoNames()], SmallRole())
    {
      assert live[k].page in DataPages();
    }
  }

  lemma SmallErased(list: seq<Option<nat>>)
    ensures Erased(SmallFlash(list), SmallRole())
    ensures ListPages(SmallFlash(list), map[Full() := list, Other() := NoNames()], SmallRole())
    ensures Budget(SmallFlash(list), SmallRole(), map[Full() := NoCounts(), Other() := NoCounts()])
  {
  }

  lemma SmallBuffers()
    ensures BufShape(1, [BlankPage()], [Rows(8, None)], [0], [0])
    ensures CleanOK(SmallRole(), [[]]) && MembersOK(SmallRole(), {Full()}, {})
    ensures RoleShape(1, 2, SmallRole())
  {
    forall blk ensures blk in SmallRole() <==> blk.bank < 1 && blk.lbn < 2 {
    }
  }

  lemma SmallCursors(list: seq<Option<nat>>)
    requires |list| == CHUNKS_PER_BLK
    ensures ListShape(map[Full() := list, Other() := NoNames()], SmallRole())
    ensures RwOK(SmallRole(), [Open(1, 0, false)], {}, [NoNames()], map[Full() := list, Other() := NoNames()])
    ensures OwOK(SmallRole(), [OwClosed], {}, [NoNames()], map[Full() := list, Other() := NoNames()])
  {
    assert |NoNames()| == CHUNKS_PER_BLK;
  }

  lemma SmallInv(live: map<Key, Loc>, held: map<Key, Chunk>, cmap: map<Key, Loc>, list: seq<Option<nat>>)
    requires SmallOk(live, held, cmap, list)
    ensures Idle(Small(live, held, cmap, list)) && VRoles(SmallRole()) == map[]
  {
    hide BufShape, RoleShape, ListShape, DramOK, FlashOK, Inj, WCounts, OCounts, CleanOK, MembersOK, RwOK, OwOK, Erased,
         ListPages, Budget, TraceOK, MapOK, SmallFlash, SmallRole, NoNames, NoCounts, BlankPage;
    SmallCounts(live, list);
    SmallFlashOk(live, list);
    SmallErased(list);
    SmallTraceOk(list);
    SmallBuffers();
    SmallCursors(list);
    SmallRoles();
  }

  lemma SmallRoles()
    ensures VRoles(SmallRole()) == map[]
  {
  }

  // ----- an entry of a chunk in RAM for a slot that another chunk of its page owns -----

  ghost function Slot3(): Loc {
    Loc(false, Pg(0, 0, 0), 3)
  }

  ghost function ReusedList(): (r: seq<Option<nat>>)
    ensures |r| == CHUNKS_PER_BLK && r[3] == Some(5) && forall i | 0 <= i < |r| && i != 3 :: r[i] == None
  {
    seq(CHUNKS_PER_BLK, i => if i == 3 then Some(5) else None)
  }

  /** A state of the invariant: chunk 0 of page 5 is only in a GC buffer; its block was erased, filled again and closed,
      and slot 3, where the table still points for it, now holds chunk 1 of the same page.
      Whether a run leads here is not shown. */
  ghost function ReusedSlot(): St {
    Small(map[Key(5, 1) := Slot3()], map[Key(5, 0) := BlankChunk()], map[Key(5, 1) := Slot3(), Key(5, 0) := Slot3()],
          ReusedList())
  }

  lemma ReusedIdle()
    ensures Idle(ReusedSlot()) && VRoles(ReusedSlot().role) == map[]
  {
    SmallInv(map[Key(5, 1) := Slot3()], map[Key(5, 0) := BlankChunk()], map[Key(5, 1) := Slot3(), Key(5, 0) := Slot3()],
             ReusedList());
    hide Idle;
  }

  lemma ReusedStale()
    ensures !NoStaleIn(map[Key(5, 1) := Slot3(), Key(5, 0) := Slot3()], map[Key(5, 0) := BlankChunk()], Full())
  {
    assert Key(5, 0) in map[Key(5, 0) := BlankChunk()];
  }

  /** The collector takes the chunk in RAM for the slot's, reaches the heap value with it, and would erase
      the block with the chunk that is really there. */
  lemma ReusedSlotMisread()
    ensures var s := ReusedSlot(); var keys := SearchPage(s.cmap, s.lists[Full()], Full(), 0);
      && Idle(s) && Tripped(s, Full()) && Full() in s.wIn && s.wiped == multiset{Full()}
      && keys[3] == Some(Key(5, 0)) && Key(5, 0) in s.held && Key(5, 0) !in s.live
      && Key(5, 1) in s.live && Placed(s.live, Key(5, 1), Full(), 0, 3) && Some(Key(5, 1)) !in keys
      && Filled(keys, 8) == s.wCount[Full()] == 1
  {
    ReusedIdle();
    ReusedStale();
    hide Idle, NoStaleIn, VRoles, SmallTrace;
    var s := ReusedSlot();
    var keys := SearchPage(s.cmap, s.lists[Full()], Full(), 0);
    assert s.lists[Full()] == ReusedList();
    forall c | 0 <= c < 8 ensures keys[c] == if c == 3 then Some(Key(5, 0)) else None {
      assert keys[c] == SearchSlot(s.cmap, ReusedList()[c], Full(), 0, c);
      if c == 3 {
        assert Placed(s.cmap, Key(5, 0), Full(), 0, 3);
      }
    }
    OneFilled(keys, 3);
  }

  lemma OneFilled(keys: seq<Option<Key>>, c: nat)
    requires |keys| == 8 && c < 8 && forall i | 0 <= i < 8 :: keys[i].Some? <==> i == c
    ensures Filled(keys, 8) == 1
  {
    FilledUpto(keys, c, 8);
  }

  lemma {:induction false} FilledUpto(keys: seq<Option<Key>>, c: nat, n: nat)
    requires |keys| == 8 && c < 8 && n <= 8 && forall i | 0 <= i < 8 :: keys[i].Some? <==> i == c
    ensures Filled(keys, n) == if c < n then 1 else 0
  {
    if n > 0 {
      FilledUpto(keys, c, n - 1);
    }
  }

  lemma {:induction false} AllFilled(keys: seq<Option<Key>>, n: nat)
    requires n <= |keys| && forall i | 0 <= i < |keys| :: keys[i].Some?
    ensures Filled(keys, n) == n
  {
    if n > 0 {
      AllFilled(keys, n - 1);
    }
  }

  // ----- a whole page overwritten with no room for it -----

  /** What the collector would find in page 0 of the full block: the eight old versions. */
  lemma StaleSearch(cmap: map<Key, Loc>, list: seq<Option<nat>>)
    requires |list| == CHUNKS_PER_BLK && (forall i | 0 <= i < 8 :: list[i] == Some(5))
    requires forall c | 0 <= c < 8 :: Key(5, c) in cmap && cmap[Key(5, c)] == Loc(false, Pg(0, 0, 0), c)
    ensures var keys := SearchPage(cmap, list, Blk(0, 0), 0);
      (forall c | 0 <= c < 8 :: keys[c] == Some(Key(5, c))) && Filled(keys, 8) == 8
  {
    hide FirstPlaced;
    var keys := SearchPage(cmap, list, Blk(0, 0), 0);
    forall c | 0 <= c < 8 ensures keys[c] == Some(Key(5, c)) {
      assert keys[c] == SearchSlot(cmap, list[c], Blk(0, 0), 0, c);
      FirstPlacedAt(cmap, 5, Blk(0, 0), 0, c, 0);
      assert Placed(cmap, Key(5, c), Blk(0, 0), 0, c);
    }
    AllFilled(keys, 8);
  }

  /** Page 6 alone is left in the block, so the heap promises eight chunks. */
  lemma OnePagePromise(t: St)
    requires Inv(t) && Blk(0, 0) in t.wIn && (forall k :: k in t.live <==> k.lpn == 6 && k.idx < 8)
    requires forall k | k in t.live :: t.live[k] == Loc(false, Pg(0, 0, 1), k.idx)
    ensures Blk(0, 0) in t.wCount && t.wCount[Blk(0, 0)] == 8
  {
    hide Inv, PageAdds;
    VictimCount(t, Blk(0, 0));
    PageAddsAt(6, Pg(0, 0, 1), false, 8);
    assert VMap(t.live, Blk(0, 0)) == PageAdds(6, Pg(0, 0, 1), false, 8);
  }

  /** A device of one bank with three blocks: pages 5 to 131 are written in order, pages 7 to 131 trimmed, and page 5
      is overwritten.  Its old versions are given up, and the overwrite has to collect.  The code's collection takes the
      only full block, finds the eight old versions on its page 0, reaches the heap value with them, and erases
      the block, where the table still points for the eight chunks of page 6. */
  lemma OverwriteWouldErase(d: seq<Sector>, data: seq<Sector>)
    requires |d| == 64 && |data| == 64
    ensures var s, t := BeforeOverwrite(d), Given(BeforeOverwrite(d), 5, data, 8); var v := Blk(0, 0);
      && Settled(s) && s.ow == [OwClosed] && s.clean == [[2]] && InFlight(s, t, 5, data, 8)
      && t.wIn == {v} && t.oIn == {} && Tripped(t, v)
      && v in t.lists && |t.lists[v]| == CHUNKS_PER_BLK && ListPage(v, 127) in t.flash
      && t.flash[ListPage(v, 127)] == List(t.lists[v])
      && (var keys := SearchPage(t.cmap, t.lists[v], v, 0);
          && (forall c | 0 <= c < 8 :: keys[c] == Some(Key(5, c)) && Key(5, c) in t.held)
          && v in t.wCount && Filled(keys, 8) == t.wCount[v])
      && forall c | 0 <= c < 8 :: Key(6, c) in t.live && GoesWith(t, Key(6, c), v)
  {
    hide Settled, Inv, InFlight, BeforeOverwrite, Given, SearchPage, OneBank, PageMap, FirstPlaced, VMap;
    var s, v := BeforeOverwrite(d), Blk(0, 0);
    var t := Given(s, 5, data, 8);
    BeforeFacts(d);
    GivenFlight(s, 5, data, 8);
    InFlightFacts(s, t, 5, data, 8);
    PageMapAt(5, data, 8);
    Guarantees.SettledMap(s);
    OnePagePromise(t);
    MemberFacts(t, v);
    TakenList(t, v);
    assert t.flash[ListPage(v, 127)] == List(t.lists[v]);
    StaleSearch(t.cmap, t.lists[v]);
    assert !NoStaleIn(t.cmap, t.held, v) by { assert Key(5, 0) in t.held; }
    PagesInFlash(t, v);
  }

  /** The table points for `k` at a page that holds its data, and that an erase of the block takes away. */
  ghost predicate GoesWith(t: St, k: Key, v: Blk) {
    k in t.live && k in t.cmap && t.cmap[k] == t.live[k] && t.live[k].page in t.flash
      && t.live[k].page !in Erase(t.flash, v)
  }

  lemma PagesInFlash(t: St, v: Blk)
    requires Inv(t)
    ensures forall k | k in t.live && InBlk(t.live[k].page, v) :: GoesWith(t, k, v)
  {
    hide WCounts, OCounts, CleanOK, MembersOK, RwOK, OwOK, ListPages, Budget, TraceOK, StaleOK, Inj, Erased, DramOK,
         BufShape;
    forall k | k in t.live && InBlk(t.live[k].page, v) ensures t.live[k].page in t.flash {
      assert FlashKeyOK(k, t.live[k], t.flash, t.lists, t.role);
    }
  }

  // ----- an exhausted page overwritten with no room for it -----

  /** Giving back a count that was reset leaves a clean block too low a value. */
  lemma PaidTwice(m: map<Key, Loc>, role: map<Blk, Role>, oCount: map<Blk, nat>, debt: Debt, blk: Blk, n: nat)
    requires OCounts(m, role, oCount, debt) && debt.amount == 0 && blk in role && role[blk].Clean?
      && 0 < n <= OW_BLK_CHUNKS
    ensures blk in oCount && oCount[blk] == OW_BLK_CHUNKS && Minus(oCount, blk, n) == oCount[blk := OW_BLK_CHUNKS - n]
    ensures !OCounts(m, role, Minus(oCount, blk, n), debt)
  {
    hide KeysIn;
    var count := Minus(oCount, blk, n);
    assert blk in count && count[blk] != OW_BLK_CHUNKS;
  }

  lemma SevenAndEight(m: map<Key, Loc>)
    requires SevenLeft(m)
    ensures |VMap(m, Blk(0, 0))| <= 7 && 8 <= |VMap(m, Blk(0, 1))|
  {
    hide PageAdds;
    var five, eight := PageAdds(5, Buf(true, 0), true, 8), PageAdds(68, Buf(true, 0), true, 8);
    PageAddsAt(5, Buf(true, 0), true, 8);
    PageAddsAt(68, Buf(true, 0), true, 8);
    var v, w := VMap(m, Blk(0, 0)), VMap(m, Blk(0, 1));
    SubsetCount(v.Keys, five.Keys - {Key(5, 0)});
    SubsetCount(eight.Keys, w.Keys);
    assert |v| == |v.Keys| && |w| == |w.Keys| && |five| == |five.Keys| && |eight| == |eight.Keys|;
  }

  /** Seven of a block's chunks are mapped, eight or more of the other's: the first is the cheapest even with the
      count it is owed. */
  lemma OwedIsCheapest(t: St)
    requires SevenLeft(t.live) && t.debt == Debt(Blk(0, 0), 1) && t.oIn == {Blk(0, 0), Blk(0, 1)} && t.wIn == {}
    ensures Cheapest(t, Blk(0, 0), 0)
  {
    hide SevenLeft, VMap;
    SevenAndEight(t.live);
  }

  /** A device of one bank with three blocks: pages 5 to 129 are overwritten in order, pages 6 to 67 trimmed, sector
      0 of
      page 5 overwritten seven times more, seven chunks of page 200 overwritten, and then chunk 0 of page 5, whose page
      is exhausted.  The overwrite has to collect while it owes a count to the block of page 5, and that is the block
      its collection takes.  The count is reset there and given back afterwards, to a block that is clean
      (`PaidTwice`). */
  lemma ExhaustedWouldMiscount(d: seq<Sector>, x: Sector, c: Chunk)
    requires |d| == 64
    ensures var s, t := BeforeExhausted(d, x, c), AtCollection(BeforeExhausted(d, x, c), c);
      && Settled(s) && s.clean == [[2]] && s.ow == [OwOpen(1, 123)] && s.owPtr == [7]
      && Key(5, 0) in s.live && s.live[Key(5, 0)] == Loc(true, Pg(0, 0, 0), 0)
      && Programs(s.flash, Pg(0, 0, 0)) == OW_LIMIT
      && OwCalm(t) && t.clean == [[2]] && t.debt == Debt(Blk(0, 0), 1) && Cheapest(t, Blk(0, 0), 0)
      && Tripped(t, Blk(0, 0))
  {
    hide Settled, OwCalm, BeforeExhausted, AtCollection, SevenLeft, Cheapest;
    BeforeExhaustedAt(d, x, c);
    AtCollectionCalm(BeforeExhausted(d, x, c), c);
    OwedIsCheapest(AtCollection(BeforeExhausted(d, x, c), c));
  }
}
