/** Moves of cursors and whole blocks keep the invariant and the content. */
module BlockMoves {
  import opened Base
  import opened Nand
  import opened State
  import opened Steps
  import opened PageMoves

  /** The role of one block changes; nothing mapped there changes its standing. */
  lemma RoleShapes(banks: nat, blocks: nat, role: map<Blk, Role>, lists: map<Blk, seq<Option<nat>>>, blk: Blk, r: Role,
                   list: seq<Option<nat>>)
    requires RoleShape(banks, blocks, role) && ListShape(lists, role) && blk in role && RoleWf(r)
      && |list| == CHUNKS_PER_BLK
    ensures RoleShape(banks, blocks, role[blk := r]) && ListShape(lists[blk := list], role[blk := r])
    ensures ListShape(lists, role[blk := r])
  {
  }

  /** Same mode, same list: the chunks of the block are as well placed as before. */
  lemma SameFlash(m: map<Key, Loc>, flash: map<PageId, Page>, lists: map<Blk, seq<Option<nat>>>, role: map<Blk, Role>,
                  blk: Blk, r: Role)
    requires FlashOK(m, flash, lists, role) && blk in role && !r.Clean? && IsOw(r) == IsOw(role[blk])
    ensures FlashOK(m, flash, lists, role[blk := r])
  {
  }

  /** A block without mapped chunks may get any role and list. */
  lemma EmptyFlash(m: map<Key, Loc>, flash: map<PageId, Page>, lists: map<Blk, seq<Option<nat>>>, role: map<Blk, Role>,
                   blk: Blk, r: Role, list: seq<Option<nat>>)
    requires FlashOK(m, flash, lists, role) && blk in role && KeysIn(m, blk) == {}
    ensures FlashOK(m, flash, lists[blk := list], role[blk := r])
    ensures FlashOK(m, flash, lists, role[blk := r])
  {
    forall k | k in m && m[k].page.Pg? ensures BlkOf(m[k].page) != blk {
      assert BlkOf(m[k].page) == blk ==> k in KeysIn(m, blk);
    }
  }

  /** A page that no mapped chunk uses is programmed: the LPN list of a block. */
  lemma ListFlash(m: map<Key, Loc>, flash: map<PageId, Page>, lists: map<Blk, seq<Option<nat>>>, role: map<Blk, Role>,
                  pg: PageId, page: Page)
    requires FlashOK(m, flash, lists, role) && forall k | k in m :: m[k].page != pg
    ensures FlashOK(m, flash[pg := page], lists, role)
  {
  }

  lemma CleanEmpty(m: map<Key, Loc>, flash: map<PageId, Page>, lists: map<Blk, seq<Option<nat>>>, role: map<Blk, Role>,
                   blk: Blk)
    requires FlashOK(m, flash, lists, role) && blk in role && role[blk].Clean?
    ensures KeysIn(m, blk) == {}
  {
  }

  lemma SameW(m: map<Key, Loc>, role: map<Blk, Role>, wCount: map<Blk, nat>, blk: Blk, r: Role)
    requires WCounts(m, role, wCount) && blk in role
    requires WExpected(|KeysIn(m, blk)|, r) == WExpected(|KeysIn(m, blk)|, role[blk])
    ensures WCounts(m, role[blk := r], wCount)
  {
    hide KeysIn, WExpected;
  }

  lemma SetW(m: map<Key, Loc>, role: map<Blk, Role>, wCount: map<Blk, nat>, blk: Blk, r: Role, n: nat)
    requires WCounts(m, role, wCount) && blk in role
    requires n == WExpected(|KeysIn(m, blk)|, r) && n <= CHUNKS_PER_LOG_BLK
    ensures WCounts(m, role[blk := r], wCount[blk := n])
  {
    hide KeysIn, WExpected;
  }

  lemma SameO(m: map<Key, Loc>, role: map<Blk, Role>, oCount: map<Blk, nat>, debt: Debt, blk: Blk, r: Role)
    requires OCounts(m, role, oCount, debt) && blk in role
    requires OExpected(|KeysIn(m, blk)|, r) == OExpected(|KeysIn(m, blk)|, role[blk])
    requires CountedOw(role[blk]) ==> CountedOw(r)
    ensures OCounts(m, role[blk := r], oCount, debt)
  {
    hide KeysIn, OExpected;
  }

  lemma SetO(m: map<Key, Loc>, role: map<Blk, Role>, oCount: map<Blk, nat>, debt: Debt, blk: Blk, r: Role)
    requires OCounts(m, role, oCount, debt) && blk in role && Owed(debt, blk) == 0 && !CountedOw(r)
    ensures OCounts(m, role[blk := r], oCount[blk := OW_BLK_CHUNKS], debt)
  {
    hide KeysIn;
  }

  lemma SameRw(role: map<Blk, Role>, rw: seq<RwCursor>, pending: set<nat>, rwList: seq<seq<Option<nat>>>,
               lists: map<Blk, seq<Option<nat>>>, blk: Blk, r: Role, list: seq<Option<nat>>)
    requires RwOK(role, rw, pending, rwList, lists) && blk in role && !role[blk].OpenRw? && !r.OpenRw?
    ensures RwOK(role[blk := r], rw, pending, rwList, lists[blk := list])
    ensures RwOK(role[blk := r], rw, pending, rwList, lists)
  {
  }

  lemma SameOwCursor(role: map<Blk, Role>, ow: seq<OwCursor>, owPending: set<nat>, owList: seq<seq<Option<nat>>>,
                     lists: map<Blk, seq<Option<nat>>>, blk: Blk, r: Role, list: seq<Option<nat>>)
    requires OwOK(role, ow, owPending, owList, lists) && blk in role && !role[blk].OpenOw? && !r.OpenOw?
    ensures OwOK(role[blk := r], ow, owPending, owList, lists[blk := list])
    ensures OwOK(role[blk := r], ow, owPending, owList, lists)
  {
  }

  lemma SameClean(role: map<Blk, Role>, clean: seq<seq<nat>>, blk: Blk, r: Role)
    requires CleanOK(role, clean) && blk in role && !role[blk].Clean? && !r.Clean?
    ensures CleanOK(role[blk := r], clean)
  {
  }

  lemma PopClean(role: map<Blk, Role>, clean: seq<seq<nat>>, b: nat, r: Role)
    requires CleanOK(role, clean) && b < |clean| && 0 < |clean[b]| && !r.Clean?
    ensures var blk := Blk(b, clean[b][0]);
            blk in role && role[blk].Clean? && CleanOK(role[blk := r], clean[b := clean[b][1..]])
  {
    var blk := Blk(b, clean[b][0]);
    assert blk in role && clean[b][0] in clean[b];
    var q := clean[b][1..];
    assert forall l :: l in q ==> l in clean[b];
    assert forall l | l in clean[b] && l != clean[b][0] :: l in q by {
      forall l | l in clean[b] && l != clean[b][0] ensures l in q {
        var i :| 0 <= i < |clean[b]| && clean[b][i] == l;
        assert q[i - 1] == l;
      }
    }
    assert clean[b][0] !in q;
  }

  lemma PushClean(role: map<Blk, Role>, clean: seq<seq<nat>>, blk: Blk)
    requires CleanOK(role, clean) && blk in role && !role[blk].Clean?
    ensures blk.bank < |clean| && CleanOK(role[blk := Clean], clean[blk.bank := clean[blk.bank] + [blk.lbn]])
  {
    var b, q := blk.bank, clean[blk.bank] + [blk.lbn];
    assert blk.lbn !in clean[b];
    assert forall l :: l in q <==> l in clean[b] || l == blk.lbn;
  }

  lemma Members(role: map<Blk, Role>, wIn: set<Blk>, oIn: set<Blk>, blk: Blk, r: Role)
    requires MembersOK(role, wIn, oIn) && blk in role
    ensures MembersOK(role[blk := r], if r.FullRw? then wIn + {blk} else wIn - {blk},
                      if r.FullOw? then oIn + {blk} else oIn - {blk})
    ensures !role[blk].FullRw? ==> wIn - {blk} == wIn
    ensures !role[blk].FullOw? ==> oIn - {blk} == oIn
  {
  }

  lemma SameErased(flash: map<PageId, Page>, role: map<Blk, Role>, blk: Blk, r: Role)
    requires Erased(flash, role) && blk in role && forall p: nat :: PageFree(r, p) <==> PageFree(role[blk], p)
    ensures Erased(flash, role[blk := r])
  {
  }

  lemma WriteErased(flash: map<PageId, Page>, role: map<Blk, Role>, pg: PageId, page: Page, r: Role)
    requires Erased(flash, role) && pg.Pg? && BlkOf(pg) in role
    requires forall p: nat :: PageFree(r, p) <==> PageFree(role[BlkOf(pg)], p) && p != pg.page
    ensures Erased(flash[pg := page], role[BlkOf(pg) := r])
  {
  }

  lemma SameListPages(flash: map<PageId, Page>, lists: map<Blk, seq<Option<nat>>>, role: map<Blk, Role>, blk: Blk,
                      r: Role, list: seq<Option<nat>>)
    requires ListPages(flash, lists, role) && blk in role && !r.FullRw? && !r.FullOw?
    ensures ListPages(flash, lists[blk := list], role[blk := r])
    ensures ListPages(flash, lists, role[blk := r])
  {
  }

  lemma WriteListPage(flash: map<PageId, Page>, lists: map<Blk, seq<Option<nat>>>, role: map<Blk, Role>, blk: Blk,
                      r: Role)
    requires ListPages(flash, lists, role) && blk in role && blk in lists && (r.FullRw? || r.FullOw?)
    ensures ListPages(flash[ListPage(blk, if r.FullRw? then 127 else 125) := List(lists[blk])], lists, role[blk := r])
  {
  }

  lemma SameBudget(flash: map<PageId, Page>, role: map<Blk, Role>, cnt: map<Blk, seq<nat>>, blk: Blk, r: Role)
    requires Budget(flash, role, cnt) && blk in role && CountedOw(r) == CountedOw(role[blk])
    ensures Budget(flash, role[blk := r], cnt)
  {
  }

  lemma ZeroBudget(flash: map<PageId, Page>, role: map<Blk, Role>, cnt: map<Blk, seq<nat>>, blk: Blk, r: Role)
    requires Budget(flash, role, cnt) && blk in role && !CountedOw(r)
    ensures Budget(flash, role[blk := r], cnt[blk := NoCounts()])
  {
  }

  /** A freshly erased block starts its overwrite budget at zero. */
  lemma OpenBudget(flash: map<PageId, Page>, role: map<Blk, Role>, cnt: map<Blk, seq<nat>>, blk: Blk)
    requires Budget(flash, role, cnt) && Erased(flash, role) && blk in role && role[blk].Clean?
    ensures Budget(flash, role[blk := OpenOw(0)], cnt)
  {
    forall page | LowPage(page) && CounterOf(page) < |cnt[blk]|
      ensures cnt[blk][CounterOf(page)] == Programs(flash, Pg(blk.bank, blk.lbn, page))
    {
      assert PageFree(Clean, page);
    }
  }

  lemma ListPageBudget(flash: map<PageId, Page>, role: map<Blk, Role>, cnt: map<Blk, seq<nat>>, blk: Blk, p: nat,
                       list: seq<Option<nat>>)
    requires Budget(flash, role, cnt) && (p == 125 || p == 127)
    ensures Budget(flash[ListPage(blk, p) := List(list)], role, cnt)
  {
  }

  /** A block's role changes to one that its use fits as well. */
  lemma SameTrace(flash: map<PageId, Page>, role: map<Blk, Role>, h: Trace, blk: Blk, r: Role)
    requires TraceOK(flash, role, h) && blk in role && forall m :: Fits(m, role[blk]) ==> Fits(m, r)
    ensures TraceOK(flash, role[blk := r], h)
  {
    assert Fits(ModeOf(h, blk), role[blk]);
  }

  lemma ListTrace(flash: map<PageId, Page>, role: map<Blk, Role>, h: Trace, blk: Blk, p: nat, list: seq<Option<nat>>,
                  r: Role)
    requires TraceOK(flash, role, h) && blk in role && ListPage(blk, p) !in flash && (p == 125 || p == 127)
    requires forall m :: Fits(m, role[blk]) ==> Fits(m, r)
    ensures TraceOK(flash[ListPage(blk, p) := List(list)], role[blk := r], Then(h, Program(ListPage(blk, p), LpnList)))
  {
    assert Burns(h, ListPage(blk, p)) == 0;
    assert Fits(ModeOf(h, blk), role[blk]);
    ProgramTimes(flash, role, h, ListPage(blk, p), List(list), LpnList);
  }

  lemma EraseTrace(flash: map<PageId, Page>, role: map<Blk, Role>, h: Trace, blk: Blk)
    requires TraceOK(flash, role, h) && blk in role
    ensures TraceOK(Erase(flash, blk), role[blk := Clean], Then(h, EraseBlk(blk)))
  {
    var h' := Then(h, EraseBlk(blk));
    forall pg: PageId | pg.Pg? && BlkOf(pg) in role
      ensures Burns(h', pg) == Times(Erase(flash, blk), pg) && (pg in Erase(flash, blk) ==> 0 < Burns(h', pg))
    {
      assert Burns(h, pg) == Times(flash, pg);
    }
    forall o | o in role && o != blk ensures Fits(ModeOf(h', o), role[o]) {
      assert Fits(ModeOf(h, o), role[o]);
    }
  }

  /** A full overwrite block has each of its low pages programmed. */
  lemma SealTrace(flash: map<PageId, Page>, role: map<Blk, Role>, h: Trace, blk: Blk)
    requires TraceOK(flash, role, h) && Erased(flash, role) && blk in role && role[blk].FullOw?
    ensures TraceOK(flash, role[blk := OpenRw(2, true)], Then(h, SealBlk(blk)))
  {
    assert Fits(ModeOf(h, blk), role[blk]);
    forall p: nat | p <= 123 && LowPage(p) ensures 0 < Burns(h, ListPage(blk, p)) {
      assert !PageFree(FullOw, p);
      assert ListPage(blk, p) in flash;
    }
    var h' := Then(h, SealBlk(blk));
    forall pg: PageId | pg.Pg? && BlkOf(pg) in role
      ensures Burns(h', pg) == Times(flash, pg) && (pg in flash ==> 0 < Burns(h', pg))
    {
      assert Burns(h, pg) == Times(flash, pg);
    }
    forall o | o in role && o != blk ensures Fits(ModeOf(h', o), role[o]) {
      assert Fits(ModeOf(h, o), role[o]);
    }
  }

  lemma PatchTrace(flash: map<PageId, Page>, role: map<Blk, Role>, h: Trace, pg: PageId, data: seq<Chunk>)
    requires TraceOK(flash, role, h) && pg.Pg? && pg in flash && flash[pg].Data? && BlkOf(pg) in role
    requires CountedOw(role[BlkOf(pg)]) && LowPage(pg.page) && Programs(flash, pg) < OW_LIMIT
    ensures TraceOK(flash[pg := Data(data, Programs(flash, pg) + 1)], role, Then(h, Program(pg, OwData)))
  {
    assert Burns(h, pg) == Times(flash, pg);
    assert Fits(ModeOf(h, BlkOf(pg)), role[BlkOf(pg)]);
    ProgramTimes(flash, role, h, pg, Data(data, Programs(flash, pg) + 1), OwData);
  }

  /** The LPN list page of a block holds no mapped chunk. */
  lemma NoKeyAt(m: map<Key, Loc>, flash: map<PageId, Page>, lists: map<Blk, seq<Option<nat>>>, role: map<Blk, Role>,
                pg: PageId)
    requires FlashOK(m, flash, lists, role) && pg.Pg? && (pg !in flash || flash[pg].List? || 127 <= pg.page)
    ensures forall k | k in m :: m[k].page != pg
  {
  }

  lemma SameContent(live: map<Key, Loc>, held: map<Key, Chunk>, logBuf: seq<seq<Chunk>>, owBuf: seq<seq<Chunk>>,
                    flash: map<PageId, Page>, flash': map<PageId, Page>)
    requires forall k | k in live && live[k].page.Pg? ::
      live[k].page in flash && live[k].page in flash' && flash'[live[k].page] == flash[live[k].page]
    ensures Content(live, held, logBuf, owBuf, flash') == Content(live, held, logBuf, owBuf, flash)
  {
    forall k | k in live
      ensures Deref(live[k], logBuf, owBuf, flash') == Deref(live[k], logBuf, owBuf, flash)
    {
    }
  }

  // ----- cursors -----

  lemma AdvanceRwCursor(role: map<Blk, Role>, rw: seq<RwCursor>, pending: set<nat>, rwList: seq<seq<Option<nat>>>,
                        lists: map<Blk, seq<Option<nat>>>, b: nat)
    requires RwOK(role, rw, pending, rwList, lists) && b < |rw| && rw[b].Open? && b in pending && rw[b].page != 126
    requires rw[b].sealed ==> rw[b].page % 2 == 0
    ensures RwOK(role, rw[b := rw[b].(page := NextRw(rw[b].page, rw[b].sealed))], pending - {b}, rwList, lists)
  {
  }

  lemma AdvanceRwInv(s: St, b: nat)
    requires Inv(s) && b < |s.rw| && s.rw[b].Open? && b in s.pending && s.rw[b].page != 126
    ensures Inv(AdvanceRw(s, b)) && ContentOf(AdvanceRw(s, b)) == ContentOf(s)
  {
    hide BufShape, RoleShape, ListShape, MapOK, StaleOK, DramOK, FlashOK, Inj, WCounts, OCounts, CleanOK, MembersOK,
         RwOK, OwOK, Erased, ListPages, Budget, TraceOK, Content, KeysIn;
    RwFacts(s, b);
    AdvanceRwCursor(s.role, s.rw, s.pending, s.rwList, s.lists, b);
  }

  lemma AdvanceOwCursor(role: map<Blk, Role>, ow: seq<OwCursor>, owPending: set<nat>, owList: seq<seq<Option<nat>>>,
                        lists: map<Blk, seq<Option<nat>>>, b: nat)
    requires OwOK(role, ow, owPending, owList, lists) && b < |ow| && ow[b].OwOpen? && b in owPending
      && ow[b].page != 123
    requires ow[b].page == 0 || ow[b].page % 2 == 1
    ensures OwOK(role, ow[b := ow[b].(page := NextOw(ow[b].page))], owPending - {b}, owList, lists)
  {
  }

  lemma AdvanceOwInv(s: St, b: nat)
    requires Inv(s) && b < |s.ow| && s.ow[b].OwOpen? && b in s.owPending && s.ow[b].page != 123
    ensures Inv(AdvanceOw(s, b)) && ContentOf(AdvanceOw(s, b)) == ContentOf(s)
  {
    hide BufShape, RoleShape, ListShape, MapOK, StaleOK, DramOK, FlashOK, Inj, WCounts, OCounts, CleanOK, MembersOK,
         RwOK, OwOK, Erased, ListPages, Budget, TraceOK, Content, KeysIn;
    OwFacts(s, b);
    AdvanceOwCursor(s.role, s.ow, s.owPending, s.owList, s.lists, b);
  }

  // ----- blocks closed -----

  lemma CloseRwCursor(role: map<Blk, Role>, rw: seq<RwCursor>, pending: set<nat>, rwList: seq<seq<Option<nat>>>,
                      lists: map<Blk, seq<Option<nat>>>, b: nat)
    requires RwOK(role, rw, pending, rwList, lists) && b < |rw| && rw[b].Open?
    ensures RwOK(role[Blk(b, rw[b].lbn) := FullRw], rw[b := Closed], pending - {b}, rwList[b := NoNames()], lists)
  {
  }

  lemma FullRole(page: nat, sealed: bool)
    requires page == 126
    ensures forall n :: WExpected(n, OpenRw(NextRw(page, sealed), sealed)) == WExpected(n, FullRw)
  {
  }

  lemma CloseRwInv(s: St, b: nat)
    requires Inv(s) && b < |s.rw| && s.rw[b].Open? && b in s.pending && s.rw[b].page == 126 && b < |s.rwList|
    ensures Inv(CloseRw(s, b)) && ContentOf(CloseRw(s, b)) == ContentOf(s)
  {
    hide BufShape, RoleShape, ListShape, MapOK, StaleOK, DramOK, FlashOK, Inj, WCounts, OCounts, CleanOK, MembersOK,
         RwOK, OwOK, Erased, ListPages, Budget, TraceOK, Content, KeysIn;
    var blk := Blk(b, s.rw[b].lbn);
    RwFacts(s, b);
    var pg := ListPage(blk, 127);
    FullRole(126, s.rw[b].sealed);
    RoleShapes(s.banks, s.blocks, s.role, s.lists, blk, FullRw, s.lists[blk]);
    NoKeyAt(s.live, s.flash, s.lists, s.role, pg);
    ListFlash(s.live, s.flash, s.lists, s.role, pg, List(s.rwList[b]));
    SameFlash(s.live, s.flash[pg := List(s.rwList[b])], s.lists, s.role, blk, FullRw);
    SameW(s.live, s.role, s.wCount, blk, FullRw);
    SameO(s.live, s.role, s.oCount, s.debt, blk, FullRw);
    SameClean(s.role, s.clean, blk, FullRw);
    Members(s.role, s.wIn, s.oIn, blk, FullRw);
    CloseRwCursor(s.role, s.rw, s.pending, s.rwList, s.lists, b);
    SameOwCursor(s.role, s.ow, s.owPending, s.owList, s.lists, blk, FullRw, []);
    WriteErased(s.flash, s.role, pg, List(s.rwList[b]), FullRw);
    WriteListPage(s.flash, s.lists, s.role, blk, FullRw);
    assert pg !in s.flash by { Page127(s.flash, s.role, blk); }
    ListTrace(s.flash, s.role, s.trace, blk, 127, s.rwList[b], FullRw);
    ListPageBudget(s.flash, s.role, s.owCnt, blk, 127, s.rwList[b]);
    SameBudget(s.flash[pg := List(s.rwList[b])], s.role, s.owCnt, blk, FullRw);
    KeysInFlash(s.live, s.flash, s.lists, s.role);
    SameContent(s.live, s.held, s.logBuf, s.owBuf, s.flash, s.flash[pg := List(s.rwList[b])]);
  }

  lemma Page127(flash: map<PageId, Page>, role: map<Blk, Role>, blk: Blk)
    requires Erased(flash, role) && blk in role && role[blk].OpenRw? && RoleWf(role[blk])
    ensures ListPage(blk, 127) !in flash
  {
    assert PageFree(role[blk], 127);
  }

  lemma KeysInFlash(m: map<Key, Loc>, flash: map<PageId, Page>, lists: map<Blk, seq<Option<nat>>>, role: map<Blk, Role>)
    requires FlashOK(m, flash, lists, role)
    ensures forall k | k in m && m[k].page.Pg? :: m[k].page in flash
  {
  }

  lemma CloseOwCursor(role: map<Blk, Role>, ow: seq<OwCursor>, owPending: set<nat>, owList: seq<seq<Option<nat>>>,
                      lists: map<Blk, seq<Option<nat>>>, b: nat)
    requires OwOK(role, ow, owPending, owList, lists) && b < |ow| && ow[b].OwOpen?
    ensures OwOK(role[Blk(b, ow[b].lbn) := FullOw], ow[b := OwClosed], owPending - {b}, owList, lists)
  {
  }

  lemma CloseOwInv(s: St, b: nat)
    requires Inv(s) && b < |s.ow| && s.ow[b].OwOpen? && b in s.owPending && s.ow[b].page == 123 && b < |s.owList|
    ensures Inv(CloseOw(s, b)) && ContentOf(CloseOw(s, b)) == ContentOf(s)
  {
    hide BufShape, RoleShape, ListShape, MapOK, StaleOK, DramOK, FlashOK, Inj, WCounts, OCounts, CleanOK, MembersOK,
         RwOK, OwOK, Erased, ListPages, Budget, TraceOK, Content, KeysIn;
    var blk := Blk(b, s.ow[b].lbn);
    OwFacts(s, b);
    var pg := ListPage(blk, 125);
    RoleShapes(s.banks, s.blocks, s.role, s.lists, blk, FullOw, s.lists[blk]);
    Page125(s.flash, s.role, blk);
    NoKeyAt(s.live, s.flash, s.lists, s.role, pg);
    ListFlash(s.live, s.flash, s.lists, s.role, pg, List(s.owList[b]));
    SameFlash(s.live, s.flash[pg := List(s.owList[b])], s.lists, s.role, blk, FullOw);
    SameW(s.live, s.role, s.wCount, blk, FullOw);
    SameO(s.live, s.role, s.oCount, s.debt, blk, FullOw);
    SameClean(s.role, s.clean, blk, FullOw);
    Members(s.role, s.wIn, s.oIn, blk, FullOw);
    CloseOwCursor(s.role, s.ow, s.owPending, s.owList, s.lists, b);
    SameRw(s.role, s.rw, s.pending, s.rwList, s.lists, blk, FullOw, []);
    WriteErased(s.flash, s.role, pg, List(s.owList[b]), FullOw);
    WriteListPage(s.flash, s.lists, s.role, blk, FullOw);
    ListTrace(s.flash, s.role, s.trace, blk, 125, s.owList[b], FullOw);
    ListPageBudget(s.flash, s.role, s.owCnt, blk, 125, s.owList[b]);
    SameBudget(s.flash[pg := List(s.owList[b])], s.role, s.owCnt, blk, FullOw);
    KeysInFlash(s.live, s.flash, s.lists, s.role);
    SameContent(s.live, s.held, s.logBuf, s.owBuf, s.flash, s.flash[pg := List(s.owList[b])]);
  }

  lemma Page125(flash: map<PageId, Page>, role: map<Blk, Role>, blk: Blk)
    requires Erased(flash, role) && blk in role && role[blk] == OpenOw(125)
    ensures ListPage(blk, 125) !in flash
  {
    assert PageFree(OpenOw(125), 125);
  }

  // ----- blocks opened -----

  lemma OpenRwCursor(role: map<Blk, Role>, rw: seq<RwCursor>, pending: set<nat>, rwList: seq<seq<Option<nat>>>,
                     lists: map<Blk, seq<Option<nat>>>, blk: Blk)
    requires RwOK(role, rw, pending, rwList, lists) && blk.bank < |rw| && rw[blk.bank].Closed? && blk.bank !in pending
      && blk in role && blk in lists
    ensures RwOK(role[blk := OpenRw(0, false)], rw[blk.bank := Open(blk.lbn, 0, false)], pending, rwList,
                 lists[blk := rwList[blk.bank]])
  {
  }

  lemma OpenRwInv(s: St, b: nat)
    requires Inv(s) && b < |s.rw| && s.rw[b].Closed? && b !in s.pending && b < |s.clean| && 0 < |s.clean[b]|
      && b < |s.rwList|
    ensures Inv(OpenRwBlk(s, b)) && ContentOf(OpenRwBlk(s, b)) == ContentOf(s)
  {
    hide BufShape, RoleShape, ListShape, MapOK, StaleOK, DramOK, FlashOK, Inj, WCounts, OCounts, CleanOK, MembersOK,
         RwOK, OwOK, Erased, ListPages, Budget, TraceOK, Content, KeysIn;
    var blk := Blk(b, s.clean[b][0]);
    var r := OpenRw(0, false);
    ListLengths(s, b);
    PopClean(s.role, s.clean, b, r);
    CleanEmpty(s.live, s.flash, s.lists, s.role, blk);
    RoleShapes(s.banks, s.blocks, s.role, s.lists, blk, r, s.rwList[b]);
    ListHas(s.lists, s.role, blk);
    EmptyFlash(s.live, s.flash, s.lists, s.role, blk, r, s.rwList[b]);
    SameW(s.live, s.role, s.wCount, blk, r);
    SameO(s.live, s.role, s.oCount, s.debt, blk, r);
    Members(s.role, s.wIn, s.oIn, blk, r);
    OpenRwCursor(s.role, s.rw, s.pending, s.rwList, s.lists, blk);
    SameOwCursor(s.role, s.ow, s.owPending, s.owList, s.lists, blk, r, s.rwList[b]);
    SameErased(s.flash, s.role, blk, r);
    SameListPages(s.flash, s.lists, s.role, blk, r, s.rwList[b]);
    SameBudget(s.flash, s.role, s.owCnt, blk, r);
    SameTrace(s.flash, s.role, s.trace, blk, r);
  }

  lemma ListHas(lists: map<Blk, seq<Option<nat>>>, role: map<Blk, Role>, blk: Blk)
    requires ListShape(lists, role) && blk in role
    ensures blk in lists && |lists[blk]| == CHUNKS_PER_BLK
  {
  }

  lemma OpenOwCursor(role: map<Blk, Role>, ow: seq<OwCursor>, owPending: set<nat>, owList: seq<seq<Option<nat>>>,
                     lists: map<Blk, seq<Option<nat>>>, blk: Blk)
    requires OwOK(role, ow, owPending, owList, lists) && blk.bank < |ow| && ow[blk.bank].OwClosed?
      && blk.bank !in owPending && blk in role && blk in lists
    ensures OwOK(role[blk := OpenOw(0)], ow[blk.bank := OwOpen(blk.lbn, 0)], owPending, owList[blk.bank := NoNames()],
                 lists[blk := NoNames()])
  {
  }

  lemma OpenOwInv(s: St, b: nat)
    requires Inv(s) && b < |s.ow| && s.ow[b].OwClosed? && b !in s.owPending && b < |s.clean| && 0 < |s.clean[b]|
      && b < |s.owList|
    ensures Inv(OpenOwBlk(s, b)) && ContentOf(OpenOwBlk(s, b)) == ContentOf(s)
  {
    hide BufShape, RoleShape, ListShape, MapOK, StaleOK, DramOK, FlashOK, Inj, WCounts, OCounts, CleanOK, MembersOK,
         RwOK, OwOK, Erased, ListPages, Budget, TraceOK, Content, KeysIn;
    var blk := Blk(b, s.clean[b][0]);
    var r := OpenOw(0);
    PopClean(s.role, s.clean, b, r);
    CleanEmpty(s.live, s.flash, s.lists, s.role, blk);
    RoleShapes(s.banks, s.blocks, s.role, s.lists, blk, r, NoNames());
    ListHas(s.lists, s.role, blk);
    EmptyFlash(s.live, s.flash, s.lists, s.role, blk, r, NoNames());
    SameW(s.live, s.role, s.wCount, blk, r);
    SameO(s.live, s.role, s.oCount, s.debt, blk, r);
    Members(s.role, s.wIn, s.oIn, blk, r);
    OpenOwCursor(s.role, s.ow, s.owPending, s.owList, s.lists, blk);
    SameRw(s.role, s.rw, s.pending, s.rwList, s.lists, blk, r, NoNames());
    SameErased(s.flash, s.role, blk, r);
    SameListPages(s.flash, s.lists, s.role, blk, r, NoNames());
    OpenBudget(s.flash, s.role, s.owCnt, blk);
    SameTrace(s.flash, s.role, s.trace, blk, r);
  }

  // ----- victims -----

  lemma TakeRwInv(s: St, blk: Blk)
    requires Inv(s) && blk in s.wIn
    ensures Inv(TakeRw(s, blk)) && ContentOf(TakeRw(s, blk)) == ContentOf(s)
  {
    hide BufShape, RoleShape, ListShape, MapOK, StaleOK, DramOK, FlashOK, Inj, WCounts, OCounts, CleanOK, MembersOK,
         RwOK, OwOK, Erased, ListPages, Budget, TraceOK, Content, KeysIn;
    MemberFacts(s, blk);
    var r := Victim(false);
    RoleShapes(s.banks, s.blocks, s.role, s.lists, blk, r, NoNames());
    SameFlash(s.live, s.flash, s.lists, s.role, blk, r);
    SetW(s.live, s.role, s.wCount, blk, r, CHUNKS_PER_LOG_BLK);
    SameO(s.live, s.role, s.oCount, s.debt, blk, r);
    SameClean(s.role, s.clean, blk, r);
    Members(s.role, s.wIn, s.oIn, blk, r);
    SameRw(s.role, s.rw, s.pending, s.rwList, s.lists, blk, r, []);
    SameOwCursor(s.role, s.ow, s.owPending, s.owList, s.lists, blk, r, []);
    SameErased(s.flash, s.role, blk, r);
    SameListPages(s.flash, s.lists, s.role, blk, r, []);
    SameBudget(s.flash, s.role, s.owCnt, blk, r);
    SameTrace(s.flash, s.role, s.trace, blk, r);
  }

  lemma TakeOwInv(s: St, blk: Blk)
    requires Inv(s) && blk in s.oIn && Owed(s.debt, blk) == 0
    ensures Inv(TakeOw(s, blk)) && ContentOf(TakeOw(s, blk)) == ContentOf(s)
  {
    hide BufShape, RoleShape, ListShape, MapOK, StaleOK, DramOK, FlashOK, Inj, WCounts, OCounts, CleanOK, MembersOK,
         RwOK, OwOK, Erased, ListPages, Budget, TraceOK, Content, KeysIn;
    MemberFacts(s, blk);
    var r := Victim(true);
    RoleShapes(s.banks, s.blocks, s.role, s.lists, blk, r, NoNames());
    SameFlash(s.live, s.flash, s.lists, s.role, blk, r);
    SameW(s.live, s.role, s.wCount, blk, r);
    SetO(s.live, s.role, s.oCount, s.debt, blk, r);
    SameClean(s.role, s.clean, blk, r);
    Members(s.role, s.wIn, s.oIn, blk, r);
    SameRw(s.role, s.rw, s.pending, s.rwList, s.lists, blk, r, []);
    SameOwCursor(s.role, s.ow, s.owPending, s.owList, s.lists, blk, r, []);
    SameErased(s.flash, s.role, blk, r);
    SameListPages(s.flash, s.lists, s.role, blk, r, []);
    ZeroBudget(s.flash, s.role, s.owCnt, blk, r);
    SameTrace(s.flash, s.role, s.trace, blk, r);
  }

  lemma EraseFlash(m: map<Key, Loc>, flash: map<PageId, Page>, lists: map<Blk, seq<Option<nat>>>, role: map<Blk, Role>,
                   blk: Blk)
    requires FlashOK(m, flash, lists, role) && KeysIn(m, blk) == {}
    ensures FlashOK(m, Erase(flash, blk), lists, role)
    ensures forall k | k in m && m[k].page.Pg? ::
      m[k].page in flash && m[k].page in Erase(flash, blk) && Erase(flash, blk)[m[k].page] == flash[m[k].page]
  {
    forall k | k in m && m[k].page.Pg?
      ensures !InBlk(m[k].page, blk) && FlashKeyOK(k, m[k], Erase(flash, blk), lists, role)
    {
      assert InBlk(m[k].page, blk) ==> k in KeysIn(m, blk);
      assert FlashKeyOK(k, m[k], flash, lists, role);
    }
  }

  lemma EraseErased(flash: map<PageId, Page>, role: map<Blk, Role>, blk: Blk)
    requires Erased(flash, role) && blk in role
    ensures Erased(Erase(flash, blk), role[blk := Clean])
  {
  }

  lemma EraseLists(flash: map<PageId, Page>, lists: map<Blk, seq<Option<nat>>>, role: map<Blk, Role>, blk: Blk)
    requires ListPages(flash, lists, role) && blk in role
    ensures ListPages(Erase(flash, blk), lists, role[blk := Clean])
  {
  }

  lemma EraseBudget(flash: map<PageId, Page>, role: map<Blk, Role>, cnt: map<Blk, seq<nat>>, blk: Blk)
    requires Budget(flash, role, cnt) && blk in role && role[blk].Victim?
    ensures Budget(Erase(flash, blk), role[blk := Clean], cnt)
  {
  }

  lemma ReleaseInv(s: St, blk: Blk)
    requires Inv(s) && blk in s.role && s.role[blk].Victim? && KeysIn(s.live, blk) == {} && blk.bank < |s.clean|
    ensures Inv(Release(s, blk)) && ContentOf(Release(s, blk)) == ContentOf(s)
  {
    hide BufShape, RoleShape, ListShape, MapOK, StaleOK, DramOK, FlashOK, Inj, WCounts, OCounts, CleanOK, MembersOK,
         RwOK, OwOK, Erased, ListPages, Budget, TraceOK, Content, KeysIn;
    var r := Clean;
    RoleShapes(s.banks, s.blocks, s.role, s.lists, blk, r, NoNames());
    EraseFlash(s.live, s.flash, s.lists, s.role, blk);
    EmptyFlash(s.live, Erase(s.flash, blk), s.lists, s.role, blk, r, NoNames());
    SameW(s.live, s.role, s.wCount, blk, r);
    SameO(s.live, s.role, s.oCount, s.debt, blk, r);
    PushClean(s.role, s.clean, blk);
    Members(s.role, s.wIn, s.oIn, blk, r);
    SameRw(s.role, s.rw, s.pending, s.rwList, s.lists, blk, r, []);
    SameOwCursor(s.role, s.ow, s.owPending, s.owList, s.lists, blk, r, []);
    EraseErased(s.flash, s.role, blk);
    EraseLists(s.flash, s.lists, s.role, blk);
    EraseBudget(s.flash, s.role, s.owCnt, blk);
    EraseTrace(s.flash, s.role, s.trace, blk);
    SameContent(s.live, s.held, s.logBuf, s.owBuf, s.flash, Erase(s.flash, blk));
  }

  // ----- sealing -----

  /** The table after a seal: mapped chunks of the block lose the overwrite bit. */
  ghost predicate SealedMap(cmap: map<Key, Loc>, cmap': map<Key, Loc>, live: map<Key, Loc>, blk: Blk) {
    && cmap'.Keys == cmap.Keys
    && (forall k | k in live && k in cmap :: cmap'[k] == ClearOw(live[k], blk))
    && (forall k | k in cmap :: cmap'[k] == cmap[k] || cmap'[k] == ClearOw(cmap[k], blk))
  }

  lemma SealMap(cmap: map<Key, Loc>, cmap': map<Key, Loc>, live: map<Key, Loc>, held: map<Key, Chunk>, blk: Blk)
    requires MapOK(cmap, live, held) && StaleOK(cmap, live, held) && SealedMap(cmap, cmap', live, blk)
    ensures MapOK(cmap', ClearAll(live, blk), held) && StaleOK(cmap', ClearAll(live, blk), held)
  {
  }

  lemma SealLive(m: map<Key, Loc>, meta: seq<seq<Option<Key>>>, fill: seq<nat>, ow: bool, blk: Blk)
    requires DramOK(m, meta, fill, ow)
    ensures DramOK(ClearAll(m, blk), meta, fill, ow)
  {
  }

  lemma SealInj(m: map<Key, Loc>, blk: Blk)
    requires Inj(m)
    ensures Inj(ClearAll(m, blk))
  {
  }

  lemma SealKeys(m: map<Key, Loc>, blk: Blk)
    ensures forall o :: KeysIn(ClearAll(m, blk), o) == KeysIn(m, o)
  {
  }

  lemma SealFlash(m: map<Key, Loc>, flash: map<PageId, Page>, lists: map<Blk, seq<Option<nat>>>, role: map<Blk, Role>,
                  blk: Blk)
    requires FlashOK(m, flash, lists, role) && blk in role
    ensures FlashOK(ClearAll(m, blk), flash, lists, role[blk := OpenRw(2, true)])
  {
  }

  lemma SealCounts(m: map<Key, Loc>, role: map<Blk, Role>, wCount: map<Blk, nat>, oCount: map<Blk, nat>, debt: Debt,
                   blk: Blk)
    requires WCounts(m, role, wCount) && OCounts(m, role, oCount, debt) && blk in role && role[blk].FullOw?
      && Owed(debt, blk) == 0
    ensures blk in oCount && HIGH_PAGE_CHUNKS <= oCount[blk] <= OW_BLK_CHUNKS
    ensures WCounts(ClearAll(m, blk), role[blk := OpenRw(2, true)], wCount[blk := oCount[blk]])
    ensures OCounts(ClearAll(m, blk), role[blk := OpenRw(2, true)], oCount[blk := OW_BLK_CHUNKS], debt)
  {
    SealKeys(m, blk);
    assert oCount[blk] == OExpected(|KeysIn(m, blk)|, role[blk]) + Owed(debt, blk);
    assert oCount[blk] == WExpected(|KeysIn(m, blk)|, OpenRw(2, true));
    hide KeysIn, WExpected, OExpected;
  }

  lemma SealCursor(role: map<Blk, Role>, rw: seq<RwCursor>, pending: set<nat>, rwList: seq<seq<Option<nat>>>,
                   lists: map<Blk, seq<Option<nat>>>, blk: Blk)
    requires RwOK(role, rw, pending, rwList, lists) && blk.bank < |rw| && rw[blk.bank].Closed? && blk.bank !in pending
    requires blk in role && blk in lists && |lists[blk]| == CHUNKS_PER_BLK
    ensures RwOK(role[blk := OpenRw(2, true)], rw[blk.bank := Open(blk.lbn, 2, true)], pending,
                 rwList[blk.bank := lists[blk]], lists)
  {
  }

  lemma SealContent(live: map<Key, Loc>, held: map<Key, Chunk>, logBuf: seq<seq<Chunk>>, owBuf: seq<seq<Chunk>>,
                    flash: map<PageId, Page>, blk: Blk)
    ensures Content(ClearAll(live, blk), held, logBuf, owBuf, flash) == Content(live, held, logBuf, owBuf, flash)
  {
    hide Content;
    forall k | k in live
      ensures Deref(ClearAll(live, blk)[k], logBuf, owBuf, flash) == Deref(live[k], logBuf, owBuf, flash)
    {
    }
    SameContentBy(live, ClearAll(live, blk), held, logBuf, owBuf, flash, logBuf, owBuf, flash);
  }

  lemma SealInv(s: St, blk: Blk, cmap': map<Key, Loc>)
    requires Inv(s) && blk in s.oIn && Owed(s.debt, blk) == 0 && blk.bank < |s.rw| && s.rw[blk.bank].Closed?
      && blk.bank !in s.pending
    requires blk in s.oCount && blk in s.lists && blk.bank < |s.rwList| && SealedMap(s.cmap, cmap', s.live, blk)
    ensures Inv(Seal(s, blk, cmap')) && ContentOf(Seal(s, blk, cmap')) == ContentOf(s)
  {
    hide BufShape, RoleShape, ListShape, MapOK, StaleOK, DramOK, FlashOK, Inj, WCounts, OCounts, CleanOK, MembersOK,
         RwOK, OwOK, Erased, ListPages, Budget, TraceOK, Content, KeysIn;
    hide SealedMap;
    MemberFacts(s, blk);
    var r := OpenRw(2, true);
    SealMap(s.cmap, cmap', s.live, s.held, blk);
    SealLive(s.live, s.meta, s.fill, false, blk);
    SealLive(s.live, s.owMeta, s.owFill, true, blk);
    SealInj(s.live, blk);
    SealFlash(s.live, s.flash, s.lists, s.role, blk);
    SealCounts(s.live, s.role, s.wCount, s.oCount, s.debt, blk);
    RoleShapes(s.banks, s.blocks, s.role, s.lists, blk, r, NoNames());
    SameClean(s.role, s.clean, blk, r);
    Members(s.role, s.wIn, s.oIn, blk, r);
    SealCursor(s.role, s.rw, s.pending, s.rwList, s.lists, blk);
    SameOwCursor(s.role, s.ow, s.owPending, s.owList, s.lists, blk, r, []);
    SameErased(s.flash, s.role, blk, r);
    SameListPages(s.flash, s.lists, s.role, blk, r, []);
    ZeroBudget(s.flash, s.role, s.owCnt, blk, r);
    SealTrace(s.flash, s.role, s.trace, blk);
    SealContent(s.live, s.held, s.logBuf, s.owBuf, s.flash, blk);
  }

  // ----- a programmed low page programmed again -----

  lemma PatchFlash(m: map<Key, Loc>, flash: map<PageId, Page>, lists: map<Blk, seq<Option<nat>>>, role: map<Blk, Role>,
                   pg: PageId, data: seq<Chunk>, n: nat)
    requires FlashOK(m, flash, lists, role) && |data| == 8
    ensures FlashOK(m, flash[pg := Data(data, n)], lists, role)
  {
  }

  lemma PatchBook(flash: map<PageId, Page>, lists: map<Blk, seq<Option<nat>>>, role: map<Blk, Role>,
                  cnt: map<Blk, seq<nat>>, pg: PageId, data: seq<Chunk>)
    requires Erased(flash, role) && ListPages(flash, lists, role) && pg.Pg? && pg in flash && BlkOf(pg) in role
    requires CountedOw(role[BlkOf(pg)]) && LowPage(pg.page)
    ensures Erased(flash[pg := Data(data, Programs(flash, pg) + 1)], role)
    ensures ListPages(flash[pg := Data(data, Programs(flash, pg) + 1)], lists, role)
  {
  }

  lemma PatchBudget(flash: map<PageId, Page>, role: map<Blk, Role>, cnt: map<Blk, seq<nat>>, pg: PageId,
                    data: seq<Chunk>)
    requires Budget(flash, role, cnt) && pg.Pg? && pg in flash && BlkOf(pg) in role && BlkOf(pg) in cnt
      && CounterOf(pg.page) < |cnt[BlkOf(pg)]|
    requires CountedOw(role[BlkOf(pg)]) && LowPage(pg.page) && cnt[BlkOf(pg)][CounterOf(pg.page)] < OW_LIMIT
    ensures Budget(flash[pg := Data(data, Programs(flash, pg) + 1)], role, BumpCounter(cnt, BlkOf(pg), pg.page))
    ensures Programs(flash, pg) < OW_LIMIT
  {
    forall p | LowPage(p) ensures CounterOf(p) == CounterOf(pg.page) <==> p == pg.page {
    }
    var blk := BlkOf(pg);
    assert cnt[blk][CounterOf(pg.page)] == Programs(flash, Pg(blk.bank, blk.lbn, pg.page));
  }

  lemma PatchPageInv(s: St, pg: PageId, data: seq<Chunk>)
    requires Inv(s) && pg.Pg? && pg in s.flash && s.flash[pg].Data? && BlkOf(pg) in s.role
      && CountedOw(s.role[BlkOf(pg)]) && LowPage(pg.page) && |data| == 8
    requires BlkOf(pg) in s.owCnt && CounterOf(pg.page) < |s.owCnt[BlkOf(pg)]|
      && s.owCnt[BlkOf(pg)][CounterOf(pg.page)] < OW_LIMIT
    ensures Inv(PatchPage(s, pg, data))
  {
    hide BufShape, RoleShape, ListShape, MapOK, StaleOK, DramOK, FlashOK, Inj, WCounts, OCounts, CleanOK, MembersOK,
         RwOK, OwOK, Erased, ListPages, Budget, TraceOK, Content, KeysIn;
    hide BumpCounter, LowPage, CountedOw, Programs;
    PatchFlash(s.live, s.flash, s.lists, s.role, pg, data, Programs(s.flash, pg) + 1);
    PatchBook(s.flash, s.lists, s.role, s.owCnt, pg, data);
    PatchBudget(s.flash, s.role, s.owCnt, pg, data);
    PatchTrace(s.flash, s.role, s.trace, pg, data);
  }
}
