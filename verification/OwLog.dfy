/** log.c and overwrite.c: the overwrite log of a bank, its open block and its buffer. */
module OwLog {
  import opened Base
  import opened Nand
  import opened State
  import opened Steps
  import opened FtlTables
  import opened PageMoves
  import opened BlockMoves
  import opened ChunkMoves
  import opened Measure
  import opened VictimFrame
  import opened Internal
  import opened Log
  import opened Write
  import opened Room
  import opened Victims
  import opened Endurance

  /** No collection is active and the RW side is at rest; counts may still be owed. */
  ghost predicate OwCalm(s: St) {
    && Inv(s) && s.pending == {} && RwReady(s.rw, s.wIn) && FillsBut(s.fill, -1) && VRoles(s.role) == map[]
  }

  /** What work on the overwrite cursor leaves alone. */
  ghost predicate OwSame(s: St, t: St) {
    && t.held == s.held && t.debt == s.debt && t.banks == s.banks && ContentOf(t) == ContentOf(s)
    && t.owBuf == s.owBuf && t.owMeta == s.owMeta && t.owPtr == s.owPtr && t.owFill == s.owFill && OwedStay(s, t)
  }

  /** Chunks in flash stay where they are. */
  ghost predicate FlashKept(live: map<Key, Loc>, live': map<Key, Loc>) {
    forall k | k in live && live[k].page.Pg? :: k in live' && live'[k] == live[k]
  }

  lemma FlashStays(s: St, t: St)
    requires FlashKept(s.live, t.live)
    ensures OwedStay(s, t)
  {
  }

  lemma StayTrans(s: St, t: St, u: St)
    requires OwedStay(s, t) && OwedStay(t, u) && t.debt == s.debt
    ensures OwedStay(s, u)
  {
  }

  lemma OwSameTrans(s: St, t: St, u: St)
    requires OwSame(s, t) && OwSame(t, u)
    ensures OwSame(s, u)
  {
    hide Content;
  }

  lemma VRolesSame(role: map<Blk, Role>, blk: Blk, r: Role)
    requires blk in role && !role[blk].Victim? && !r.Victim?
    ensures VRoles(role[blk := r]) == VRoles(role)
  {
  }

  ghost predicate AtRest(f: Ftl)
    reads f
  {
    Sys(f) && forall b | 0 <= b < |f.gcNestLevel| :: f.gcNestLevel[b] == 0
  }

  // ----- the cursor of the overwrite log -----

  lemma CalmIsIdle(s: St)
    requires OwCalm(s)
    ensures Idle(s)
    ensures Inv(s) && |s.clean| == s.banks
  {
  }

  lemma CollectedCalm(s: St, t: St)
    requires OwCalm(s) && Idle(t) && Kept(s, t)
    ensures OwCalm(t) && OwSame(s, t) && t.owPending == s.owPending && t.ow == s.ow
  {
    hide Inv, Content, Stale, Slack, VRoles, FillsBut, RwReady;
    assert Frm(t).roles == Frm(s).roles;
  }

  /** The loop of getOWLpn and increaseOWLpn: collect until the bank has two clean blocks, ten times at most.
      `collects` tells whether it did so at all.  With one clean block, one collection that is affordable is enough. */
  method CollectForOw(f: Ftl, bank: nat, fuel: nat) returns (o: Outcome, collects: bool)
    requires OwCalm(f.View()) && AtRest(f) && bank < f.banks
    modifies f
    ensures o.Pass? ==> OwCalm(f.View()) && AtRest(f) && OwSame(old(f.View()), f.View())
    ensures o.Pass? ==> bank < |f.t.cleanList| && 1 < |f.t.cleanList[bank]|
    ensures o.Pass? ==> f.g.owPending == old(f.g.owPending) && f.t.owCtrl == old(f.t.owCtrl)
    ensures o.Pass? ==> f.givenUp == old(f.givenUp) && f.owing == old(f.owing)
    ensures collects <==> OwBankAt(old(f.t), bank).clean <= 1
    ensures !collects ==>
      o.Pass? && f.View() == old(f.View()) && f.t == old(f.t) && f.referenceBank == old(f.referenceBank)
    ensures collects && AllTripped(old(f.View()), bank) ==> o.Fail?
    ensures OwBankAt(old(f.t), bank).clean == 1 && Affordable(old(f.View()), old(f.gcNestLevel), bank, fuel) ==> o.Pass?
    ensures old(Unburdened(f)) ==> o != Fail(UnsafeCollection)
  {
    hide Inv, Idle, Content, Stale, FrameOf, Slack, VRoles, FillsBut, RwReady, OwedStay, Collected, AllTripped,
         Affordable;
    ghost var s, nest := f.View(), f.gcNestLevel;
    CalmIsIdle(s);
    OwSameRefl(s);
    var count := 0;
    collects := false;
    while |f.t.cleanList[bank]| <= 1
      invariant OwCalm(f.View()) && AtRest(f) && OwSame(s, f.View()) && |f.t.cleanList| == f.banks
      invariant f.g.owPending == s.owPending && f.t.owCtrl == s.ow && f.givenUp == old(f.givenUp)
        && f.owing == old(f.owing)
      invariant count <= 10 && |s.clean| == f.banks && (collects <==> 0 < count) && (0 < count ==> |s.clean[bank]| <= 1)
      invariant count == 0 ==> f.t == old(f.t) && f.View() == s && f.referenceBank == old(f.referenceBank)
      invariant 0 < count ==> !AllTripped(s, bank)
      invariant count == 0 ==> f.gcNestLevel == nest
      invariant 0 < count && |s.clean[bank]| == 1 && Affordable(s, nest, bank, fuel) ==> 1 < |f.t.cleanList[bank]|
      decreases 10 - count
    {
      count := count + 1;
      collects := true;
      if count > 10 {
        return Fail(Halted), collects;
      }
      ghost var t := f.View();
      CalmIsIdle(t);
      o := GarbageCollectLog(f, bank, fuel);
      if o.Fail? {
        return;
      }
      CollectedNotAll(t, f.View(), bank);
      CollectedCalm(t, f.View());
      OwSameTrans(s, t, f.View());
      CalmIsIdle(f.View());
    }
    o := Pass;
  }

  lemma OwSameRefl(s: St)
    ensures OwSame(s, s)
  {
    hide Content;
  }

  lemma OpenOwCalm(s: St, b: nat)
    requires OwCalm(s) && b < |s.ow| && s.ow[b].OwClosed? && b !in s.owPending && b < |s.clean| && 0 < |s.clean[b]|
      && b < |s.owList|
    ensures OwCalm(OpenOwBlk(s, b)) && OwSame(s, OpenOwBlk(s, b))
  {
    hide Inv, Content, VRoles, FillsBut, RwReady, NoNames;
    OpenOwInv(s, b);
    CleanFacts(s, b);
    VRolesSame(s.role, Blk(b, s.clean[b][0]), OpenOw(0));
  }

  lemma CloseOwCalm(s: St, b: nat)
    requires OwCalm(s) && b < |s.ow| && s.ow[b].OwOpen? && b in s.owPending && s.ow[b].page == 123 && b < |s.owList|
    ensures OwCalm(CloseOw(s, b)) && OwSame(s, CloseOw(s, b))
  {
    hide Inv, Content, VRoles, FillsBut, RwReady;
    OwFacts(s, b);
    CloseOwInv(s, b);
    VRolesSame(s.role, Blk(b, s.ow[b].lbn), FullOw);
  }

  /** The list page of an overwrite block that is about to be closed is erased. */
  lemma OwListPageErased(s: St, b: nat)
    requires OwCalm(s) && b < |s.ow| && s.ow[b].OwOpen? && b in s.owPending && s.ow[b].page == 123
    ensures ListPage(Blk(b, s.ow[b].lbn), 125) !in s.flash
  {
    hide BufShape, RoleShape, ListShape, MapOK, StaleOK, DramOK, FlashOK, Inj, WCounts, OCounts, CleanOK, MembersOK,
         RwOK, ListPages, Budget, TraceOK, VRoles;
    OwFacts(s, b);
    assert PageFree(s.role[Blk(b, s.ow[b].lbn)], 125);
  }

  lemma AdvanceOwCalm(s: St, b: nat)
    requires OwCalm(s) && b < |s.ow| && s.ow[b].OwOpen? && b in s.owPending && s.ow[b].page != 123
    ensures OwCalm(AdvanceOw(s, b)) && OwSame(s, AdvanceOw(s, b))
  {
    hide Inv, Content, VRoles, FillsBut, RwReady;
    AdvanceOwInv(s, b);
  }

  lemma OwBank(s: St, b: nat)
    requires OwCalm(s) && b < s.banks
    ensures b < |s.ow| && b < |s.owList| && b < |s.clean| && |s.ow| == s.banks
    ensures s.ow[b].OwOpen? ==> s.ow[b].page <= 123
  {
    hide VRoles;
    if s.ow[b].OwOpen? {
      OwFacts(s, b);
    }
  }

  /** Pop a clean block and make it the bank's open overwrite block. */
  method PopOwBlk(f: Ftl, bank: nat)
    requires bank < |f.t.owCtrl| && bank < |f.t.cleanList| && 0 < |f.t.cleanList[bank]| && bank < |f.t.owLpns|
    modifies f`t, f`g
    ensures OwOpened(old(f.t), f.t, bank)
    ensures f.View() == OpenOwBlk(old(f.View()), bank)
  {
    var lbn := f.t.cleanList[bank][0];
    f.g := f.g.(role := f.g.role[Blk(bank, lbn) := OpenOw(0)], lists := f.g.lists[Blk(bank, lbn) := NoNames()]);
    f.t := f.t.(cleanList := f.t.cleanList[bank := f.t.cleanList[bank][1..]],
                owCtrl := f.t.owCtrl[bank := OwOpen(lbn, 0)],
                owLpns := f.t.owLpns[bank := NoNames()]);
  }

  /** getOWLpn: the open overwrite block of the bank, taking a clean one if there is none. */
  method GetOWLpn(f: Ftl, bank: nat, fuel: nat) returns (o: Outcome, collects: bool)
    requires OwCalm(f.View()) && AtRest(f) && bank < f.banks && bank !in f.g.owPending
    modifies f
    ensures o.Pass? ==> OwCalm(f.View()) && AtRest(f) && OwSame(old(f.View()), f.View())
    ensures o.Pass? ==> bank < |f.t.owCtrl| && f.t.owCtrl[bank].OwOpen? && f.g.owPending == old(f.g.owPending)
    ensures o.Pass? ==> f.givenUp == old(f.givenUp) && f.owing == old(f.owing)
    ensures collects <==> NeedsBlock(OwBankAt(old(f.t), bank))
    ensures OwBankAt(old(f.t), bank).page.Some? ==> f.t == old(f.t)
    ensures !collects ==> o.Pass? && f.g.live == old(f.g.live) && f.referenceBank == old(f.referenceBank)
    ensures !collects && OwBankAt(old(f.t), bank).page.None? ==> OwOpened(old(f.t), f.t, bank)
    ensures collects && AllTripped(old(f.View()), bank) ==> o.Fail?
    ensures OwBankAt(old(f.t), bank).page.Some? ==> f.View() == old(f.View()) && f.gcNestLevel == old(f.gcNestLevel)
    ensures OwBankAt(old(f.t), bank).clean == 1 && Affordable(old(f.View()), old(f.gcNestLevel), bank, fuel) ==> o.Pass?
    ensures o.Pass? && OwBankAt(old(f.t), bank).page.None? ==> f.t.owCtrl[bank].page == 0
    ensures old(Unburdened(f)) ==> o != Fail(UnsafeCollection)
  {
    hide Inv, Content, VRoles, FillsBut, RwReady, NoNames, OwedStay, Affordable;
    ghost var s := f.View();
    OwBank(s, bank);
    if f.t.owCtrl[bank].OwOpen? {
      OwSameRefl(s);
      return Pass, false;
    }
    o, collects := CollectForOw(f, bank, fuel);
    if o.Fail? {
      return;
    }
    ghost var s1 := f.View();
    OwBank(s1, bank);
    PopOwBlk(f, bank);
    OpenOwCalm(s1, bank);
    OwSameTrans(s, s1, f.View());
  }

  /** A full overwrite block stores its LPN list in page 125 and enters the overwrite heap. */
  method CloseOwBlk(f: Ftl, bank: nat)
    requires bank < |f.t.owCtrl| && f.t.owCtrl[bank].OwOpen? && bank < |f.t.owLpns|
    requires ListPage(Blk(bank, f.t.owCtrl[bank].lbn), 125) !in f.t.flash
    modifies f`t, f`g
    ensures f.View() == CloseOw(old(f.View()), bank)
  {
    var blk := Blk(bank, f.t.owCtrl[bank].lbn);
    f.t := f.t.(flash := NandProgram(f.t.flash, ListPage(blk, 125), List(f.t.owLpns[bank])),
                owHeap := f.t.owHeap + {blk}, owCtrl := f.t.owCtrl[bank := OwClosed]);
    f.g := f.g.(role := f.g.role[blk := FullOw], owPending := f.g.owPending - {bank},
                trace := Then(f.g.trace, Program(ListPage(blk, 125), LpnList)));
  }

  /** The bank has programmed page 123 of its overwrite block and has one clean block left, and once the full block
      is closed a collection is affordable. */
  ghost predicate OwRefills(s: St, nest: seq<nat>, bank: nat, fuel: nat) {
    && bank < |s.ow| && s.ow[bank].OwOpen? && s.ow[bank].page == 123 && bank < |s.owList|
    && bank < |s.clean| && |s.clean[bank]| == 1 && Affordable(CloseOw(s, bank), nest, bank, fuel)
  }

  /** The block is full: store it, and open the next one. */
  method NextOwBlk(f: Ftl, bank: nat, fuel: nat) returns (o: Outcome, collects: bool)
    requires OwCalm(f.View()) && AtRest(f) && bank < f.banks && f.g.owPending == {bank}
    requires bank < |f.t.owCtrl| && f.t.owCtrl[bank].OwOpen? && f.t.owCtrl[bank].page == 123
    modifies f
    ensures o.Pass? ==> OwCalm(f.View()) && AtRest(f) && OwSame(old(f.View()), f.View()) && f.g.owPending == {}
    ensures o.Pass? ==> f.givenUp == old(f.givenUp) && f.owing == old(f.owing)
    ensures collects <==> OwBankAt(old(f.t), bank).clean <= 1
    ensures !collects ==>
      o.Pass? && f.g.live == old(f.g.live) && f.referenceBank == old(f.referenceBank) && OwOpened(old(f.t), f.t, bank)
    ensures OwRefills(old(f.View()), old(f.gcNestLevel), bank, fuel) ==> o.Pass?
    ensures old(Unburdened(f)) ==> o != Fail(UnsafeCollection)
  {
    hide Inv, Content, VRoles, FillsBut, RwReady, NoNames, OwCalm, OwedStay, Affordable;
    ghost var s := f.View();
    OwBank(s, bank);
    OwListPageErased(s, bank);
    CloseOwBlk(f, bank);
    CloseOwCalm(s, bank);
    ghost var s1 := f.View();
    o, collects := CollectForOw(f, bank, fuel);
    if o.Fail? {
      return;
    }
    ghost var s2 := f.View();
    OwSameTrans(s, s1, s2);
    OwBank(s2, bank);
    PopOwBlk(f, bank);
    OpenOwCalm(s2, bank);
    OwSameTrans(s, s2, f.View());
  }

  /** Only the bank's overwrite cursor moved, to the next low page. */
  ghost predicate OwAdvanced(s: Tables, t: Tables, bank: nat)
    requires bank < |s.owCtrl| && s.owCtrl[bank].OwOpen?
  {
    t == s.(owCtrl := s.owCtrl[bank := OwOpen(s.owCtrl[bank].lbn, NextOw(s.owCtrl[bank].page))])
  }

  method AdvanceOwCursor(f: Ftl, bank: nat)
    requires bank < |f.t.owCtrl| && f.t.owCtrl[bank].OwOpen?
    modifies f`t, f`g
    ensures OwAdvanced(old(f.t), f.t, bank)
    ensures f.View() == AdvanceOw(old(f.View()), bank)
  {
    var c := f.t.owCtrl[bank];
    f.t := f.t.(owCtrl := f.t.owCtrl[bank := c.(page := NextOw(c.page))]);
    f.g := f.g.(owPending := f.g.owPending - {bank});
  }

  /** increaseOWLpn: the next low page, or the next block after page 123. */
  method IncreaseOWLpn(f: Ftl, bank: nat, fuel: nat) returns (o: Outcome, collects: bool)
    requires OwCalm(f.View()) && AtRest(f) && bank < f.banks && f.g.owPending == {bank}
    requires bank < |f.t.owCtrl| && f.t.owCtrl[bank].OwOpen?
    modifies f
    ensures o.Pass? ==> OwCalm(f.View()) && AtRest(f) && OwSame(old(f.View()), f.View()) && f.g.owPending == {}
    ensures o.Pass? ==> f.givenUp == old(f.givenUp) && f.owing == old(f.owing)
    ensures collects <==> old(f.t.owCtrl)[bank].page == 123 && OwBankAt(old(f.t), bank).clean <= 1
    ensures !collects ==> o.Pass? && f.g.live == old(f.g.live) && f.referenceBank == old(f.referenceBank)
    ensures !collects ==>
      if old(f.t.owCtrl)[bank].page == 123 then OwOpened(old(f.t), f.t, bank) else OwAdvanced(old(f.t), f.t, bank)
    ensures OwRefills(old(f.View()), old(f.gcNestLevel), bank, fuel) ==> o.Pass?
    ensures old(Unburdened(f)) ==> o != Fail(UnsafeCollection)
  {
    hide Inv, Content, VRoles, FillsBut, RwReady, NoNames, OwCalm, OwedStay, Affordable;
    ghost var s := f.View();
    OwBank(s, bank);
    if f.t.owCtrl[bank].page == 123 {
      o, collects := NextOwBlk(f, bank, fuel);
    } else {
      AdvanceOwCursor(f, bank);
      AdvanceOwCalm(s, bank);
      o, collects := Pass, false;
    }
  }

  // ----- flushing a full overwrite buffer -----

  /** What a flush of the overwrite buffer of bank `bank` finds. */
  ghost predicate CanFlushOw(s: St, bank: nat) {
    && bank < |s.ow| && s.ow[bank].OwOpen? && s.ow[bank].page <= 123 && |s.owList| == |s.ow|
    && |s.owList[bank]| == CHUNKS_PER_BLK
    && bank < |s.owMeta| && |s.owMeta[bank]| == 8 && bank < |s.owBuf| && |s.owBuf[bank]| == 8 && bank < |s.owFill|
    && s.owFill[bank] == 8
    && DramOK(s.live, s.owMeta, s.owFill, true)
    && Blk(bank, s.ow[bank].lbn) in s.oCount && 8 <= s.oCount[Blk(bank, s.ow[bank].lbn)]
    && Blk(bank, s.ow[bank].lbn) in s.owCnt && |s.owCnt[Blk(bank, s.ow[bank].lbn)]| == PAGES_PER_BLK
  }

  /** A full overwrite buffer goes to the next low page. */
  ghost function FlushOwStep(s: St, bank: nat): St
    requires CanFlushOw(s, bank)
  {
    var c := s.ow[bank];
    var blk := Blk(bank, c.lbn);
    var adds := BufAdds(s.live, Buf(true, bank), Pg(bank, c.lbn, c.page), true, 8);
    var list := WriteNames(s.owList[bank], c.page, NamesOf(s.owMeta[bank]));
    s.(live := s.live + adds, cmap := s.cmap + adds,
       flash := s.flash[Pg(bank, c.lbn, c.page) := Data(s.owBuf[bank], 1)],
       owList := s.owList[bank := list], lists := s.lists[blk := list],
       oCount := Minus(s.oCount, blk, Holes(s.owMeta[bank], 8)), owCnt := BumpCounter(s.owCnt, blk, c.page),
       role := s.role[blk := OpenOw(NextOw(c.page))],
       owPending := s.owPending + {bank}, owFill := s.owFill[bank := 0], trace := Then(s.trace,
           Program(Pg(bank, c.lbn, c.page), OwData)))
  }

  /** The loop of flushOwLogBuffer: each slot is named and mapped with the overwrite bit, or given up. */
  method WriteOwSlots(f: Ftl, bank: nat)
    requires CanFlushOw(f.View(), bank)
    modifies f`t
    ensures var o := old(f.View());
      f.t == old(f.t).(
        chunksMap := o.cmap + BufAdds(o.live, Buf(true, bank), Pg(bank, o.ow[bank].lbn, o.ow[bank].page), true, 8),
        owLpns := o.owList[bank := WriteNames(o.owList[bank], o.ow[bank].page, NamesOf(o.owMeta[bank]))],
        owCount := Minus(o.oCount, Blk(bank, o.ow[bank].lbn), Holes(o.owMeta[bank], 8)))
  {
    hide DramOK, WriteNames, NamesUpto, BufAdds, NamesOf, Minus, Holes, MinusOne;
    ghost var s := f.View();
    ghost var t := f.t;
    var lbn, page := f.t.owCtrl[bank].lbn, f.t.owCtrl[bank].page;
    var dst, blk := Pg(bank, lbn, page), Blk(bank, lbn);
    ghost var names := NamesOf(s.owMeta[bank]);
    ghost var list := s.owList[bank];
    NamesOfAt(s.owMeta[bank]);
    NamesEnds(list, page, names);
    AddsNone(s.live, Buf(true, bank), dst, true);
    MinusStart(s.oCount, blk, s.owMeta[bank]);
    for i := 0 to 8
      invariant f.t == t.(
        chunksMap := s.cmap + BufAdds(s.live, Buf(true, bank), dst, true, i),
        owLpns := s.owList[bank := NamesUpto(list, page, names, i)],
        owCount := Minus(s.oCount, blk, Holes(s.owMeta[bank], i)))
    {
      NamesStep(list, page, names, i);
      NamesUptoLength(list, page, names, i);
      AddsStep(s.live, s.owMeta, s.owFill, bank, dst, true, i);
      MinusStep(s.oCount, blk, s.owMeta[bank], i);
      f.t := f.t.(owLpns := f.t.owLpns[bank := f.t.owLpns[bank][page * 8 + i := LpnOf(f.t.owLogBufMeta[bank][i])]]);
      if f.t.owLogBufMeta[bank][i].Some? {
        f.t := f.t.(chunksMap := f.t.chunksMap[f.t.owLogBufMeta[bank][i].value := Loc(true, dst, i)]);
      } else {
        f.t := f.t.(owCount := MinusOne(f.t.owCount, blk));
      }
    }
  }

  ghost predicate SameCursorsOw(s: Tables, t: Tables) {
    t.owCtrl == s.owCtrl && t.cleanList == s.cleanList && t.owChunkPtr == s.owChunkPtr && SameRwSide(s, t)
  }

  /** increaseOwCounter. */
  method IncreaseOwCounter(f: Ftl, blk: Blk, page: nat)
    requires blk in f.t.owCounters && page <= 123 && |f.t.owCounters[blk]| == PAGES_PER_BLK
    modifies f`t
    ensures f.t == old(f.t).(owCounters := BumpCounter(old(f.t.owCounters), blk, page))
  {
    var n := f.t.owCounters[blk][CounterOf(page)];
    f.t := f.t.(owCounters := f.t.owCounters[blk := f.t.owCounters[blk][CounterOf(page) := n + 1]]);
  }

  /** The program half of flushOwLogBuffer. */
  method ProgramOwBuffer(f: Ftl, bank: nat)
    requires CanFlushOw(f.View(), bank) && Pg(bank, f.t.owCtrl[bank].lbn, f.t.owCtrl[bank].page) !in f.t.flash
    modifies f`t, f`g
    ensures SameCursorsOw(old(f.t), f.t)
    ensures f.View() == FlushOwStep(old(f.View()), bank)
  {
    hide DramOK, WriteNames, BufAdds, Holes, NamesOf, Minus, BumpCounter, NandProgram;
    ghost var s := f.View();
    var lbn, page := f.t.owCtrl[bank].lbn, f.t.owCtrl[bank].page;
    WriteOwSlots(f, bank);
    NandErased(f.t.flash, Pg(bank, lbn, page), Data(f.t.owLogBuf[bank], 1));
    f.t := f.t.(flash := NandProgram(f.t.flash, Pg(bank, lbn, page), Data(f.t.owLogBuf[bank], 1)));
    IncreaseOwCounter(f, Blk(bank, lbn), page);
    f.g := f.g.(live := s.live + BufAdds(s.live, Buf(true, bank), Pg(bank, lbn, page), true, 8),
                lists := s.lists[Blk(bank, lbn) := f.t.owLpns[bank]],
                role := s.role[Blk(bank, lbn) := OpenOw(NextOw(page))],
                owPending := s.owPending + {bank}, owFill := s.owFill[bank := 0], trace := Then(s.trace,
                    Program(Pg(bank, lbn, page), OwData)));
  }

  lemma RoomInOw(m: map<Key, Loc>, role: map<Blk, Role>, oCount: map<Blk, nat>, debt: Debt, blk: Blk)
    requires OCounts(m, role, oCount, debt) && blk in role && role[blk].OpenOw?
    ensures blk in oCount && HIGH_PAGE_CHUNKS <= oCount[blk]
  {
  }

  lemma FlushOwFacts(s: St, bank: nat)
    requires Inv(s) && bank < s.banks && bank < |s.ow| && s.ow[bank].OwOpen? && bank !in s.owPending
      && bank < |s.owFill| && s.owFill[bank] == 8
    ensures CanFlushOw(s, bank)
    ensures Blk(bank, s.ow[bank].lbn) in s.role && Blk(bank, s.ow[bank].lbn) in s.lists
      && s.role[Blk(bank, s.ow[bank].lbn)].OpenOw?
    ensures Inj(s.live) && forall k | k in s.live :: k !in s.held && k in s.cmap && k.idx < 8 && s.live[k].slot < 8
  {
    OwFacts(s, bank);
    RoomInOw(s.live, s.role, s.oCount, s.debt, Blk(bank, s.ow[bank].lbn));
  }

  lemma FlushOwIsProgram(s: St, bank: nat)
    requires CanFlushOw(s, bank) && |NamesOf(s.owMeta[bank])| == 8
    requires var adds := BufAdds(s.live, Buf(true, bank), Pg(bank, s.ow[bank].lbn, s.ow[bank].page), true, 8);
             |adds| + Holes(s.owMeta[bank], 8) == 8 && adds.Keys !! s.held.Keys
    ensures FlushOwStep(s, bank)
         == ProgramOw(s, bank, BufAdds(s.live, Buf(true, bank), Pg(bank, s.ow[bank].lbn, s.ow[bank].page), true, 8),
                      s.owBuf[bank], NamesOf(s.owMeta[bank]), true)
  {
    hide Holes, NamesOf, WriteNames, BufAdds, DramOK, BumpCounter, Minus, NextOw;
    var adds := BufAdds(s.live, Buf(true, bank), Pg(bank, s.ow[bank].lbn, s.ow[bank].page), true, 8);
    NoneLess(s.held, adds.Keys);
    assert 8 - |adds| == Holes(s.owMeta[bank], 8);
  }

  lemma FlushOwInv(s: St, bank: nat)
    requires Inv(s)
      && s.held == map[] && bank < s.banks && bank < |s.ow| && s.ow[bank].OwOpen? && bank !in s.owPending
      && bank < |s.owFill| && s.owFill[bank] == 8
    ensures CanFlushOw(s, bank) && Inv(FlushOwStep(s, bank)) && ContentOf(FlushOwStep(s, bank)) == ContentOf(s)
  {
    hide Inv, Holes, NamesOf, WriteNames, BufAdds, DramOK, AddsOK, Inj, Content, BumpCounter, Minus;
    FlushOwFacts(s, bank);
    NamesOfAt(s.owMeta[bank]);
    var dst := Pg(bank, s.ow[bank].lbn, s.ow[bank].page);
    var adds := BufAdds(s.live, Buf(true, bank), dst, true, 8);
    BufAddsKeys(s.live, Buf(true, bank), dst, true);
    FullBuffer(s.live, s.owMeta, s.owFill, bank, true);
    BufAddsAt(s.live, s.role, s.owMeta, s.owFill, bank, dst, true);
    BufAddsHeld(s, Buf(true, bank), dst, true);
    FlushOwIsProgram(s, bank);
    ProgramOwInv(s, bank, adds, s.owBuf[bank], NamesOf(s.owMeta[bank]), true);
    FreshOw(s, bank);
    FlushOwContent(s.live, s.held, s.logBuf, s.owBuf, s.flash, bank, dst);
  }

  lemma FreshOw(s: St, bank: nat)
    requires Inv(s) && bank < |s.ow| && s.ow[bank].OwOpen? && bank !in s.owPending
    ensures forall k | k in s.live :: s.live[k].page != Pg(bank, s.ow[bank].lbn, s.ow[bank].page)
    ensures Pg(bank, s.ow[bank].lbn, s.ow[bank].page) !in s.flash
  {
    OwFacts(s, bank);
    hide DramOK, MapOK, StaleOK, Inj, WCounts, OCounts, CleanOK, MembersOK, RwOK, OwOK, ListPages, Budget, TraceOK,
         FlashOK, Erased;
    FreshPage(s.live, s.flash, s.lists, s.role, Pg(bank, s.ow[bank].lbn, s.ow[bank].page));
  }

  lemma FlushOwContent(live: map<Key, Loc>, held: map<Key, Chunk>, logBuf: seq<seq<Chunk>>, owBuf: seq<seq<Chunk>>,
                       flash: map<PageId, Page>, bank: nat, dst: PageId)
    requires held == map[] && dst.Pg? && (forall k | k in live :: live[k].page != dst && live[k].slot < 8)
    requires bank < |owBuf| && |owBuf[bank]| == 8
    ensures Content(live + BufAdds(live, Buf(true, bank), dst, true, 8), held, logBuf, owBuf,
                    flash[dst := Data(owBuf[bank], 1)])
         == Content(live, held, logBuf, owBuf, flash)
  {
    hide Content;
    var adds := BufAdds(live, Buf(true, bank), dst, true, 8);
    assert held - adds.Keys == held;
    ProgramContent(live, held, logBuf, owBuf, flash, adds, dst, owBuf[bank]);
    MoveContent(live, held, logBuf, owBuf, flash, adds, owBuf[bank]);
  }

  lemma FlushOwCalm(s: St, bank: nat)
    requires OwCalm(s) && s.held == map[] && s.owPending == {} && bank < s.banks && bank < |s.ow| && s.ow[bank].OwOpen?
    requires FillsBut(s.owFill, bank) && bank < |s.owFill| && s.owFill[bank] == 8
    ensures CanFlushOw(s, bank)
    ensures var t := FlushOwStep(s, bank);
      && OwCalm(t) && t.held == s.held && t.debt == s.debt && t.banks == s.banks && ContentOf(t) == ContentOf(s)
      && t.owPending == {bank} && FillsBut(t.owFill, -1) && FlashKept(s.live, t.live) && t.ow == s.ow
  {
    hide Inv, Content, VRoles, RwReady, Holes, NamesOf, WriteNames, DramOK, BumpCounter, Minus;
    FlushOwFacts(s, bank);
    FlushOwInv(s, bank);
    VRolesSame(s.role, Blk(bank, s.ow[bank].lbn), OpenOw(NextOw(s.ow[bank].page)));
  }

  /** What the two cursor calls of a flush add up to. */
  ghost predicate FlushOutcome(s: Tables, t: Tables, bank: nat, o: Outcome, collects: bool) {
    && (collects <==> FlushNeedsBlock(OwBankAt(s, bank)))
    && (!collects ==> o.Pass? && OwNow(s, t, bank, Flushed(OwBankAt(s, bank))))
  }

  /** The first call found a block, `first` tells by a collection; `second` is about the second call. */
  lemma FlushEnds(s: Tables, t1: Tables, t2: Tables, t: Tables, bank: nat, o: Outcome, first: bool, second: bool)
    requires SameCursorsOw(t1, t2) && bank < |t1.owCtrl| && t1.owCtrl[bank].OwOpen? && bank < |s.owCtrl|
      && bank < |s.cleanList|
    requires first <==> NeedsBlock(OwBankAt(s, bank))
    requires OwBankAt(s, bank).page.Some? ==> t1 == s
    requires !first && OwBankAt(s, bank).page.None? ==> OwOpened(s, t1, bank)
    requires second <==> t2.owCtrl[bank].page == 123 && OwBankAt(t2, bank).clean <= 1
    requires !second ==>
      o.Pass? && if t2.owCtrl[bank].page == 123 then OwOpened(t2, t, bank) else OwAdvanced(t2, t, bank)
    ensures FlushOutcome(s, t, bank, o, first || second)
  {
  }

  /** A flush that has to collect can afford it: before it when there is no open block, else after its last page. */
  ghost predicate FlushRefills(s: St, nest: seq<nat>, bank: nat, fuel: nat) {
    && OwBankAt(TablesOf(s), bank).clean == 1
    && if OwBankAt(TablesOf(s), bank).page.None? then Affordable(s, nest, bank, fuel)
       else CanFlushOw(s, bank) && OwRefills(FlushOwStep(s, bank), nest, bank, fuel)
  }

  lemma FirstPasses(s: St, nest: seq<nat>, bank: nat, fuel: nat)
    ensures FlushRefills(s, nest, bank, fuel) && NeedsBlock(OwBankAt(TablesOf(s), bank)) ==>
      OwBankAt(TablesOf(s), bank).clean == 1 && Affordable(s, nest, bank, fuel)
  {
    hide Affordable, OwRefills;
  }

  /** After the first call succeeded only a full block can need another. */
  lemma SecondPasses(s: St, s1: St, nest: seq<nat>, bank: nat, fuel: nat)
    requires bank < |s1.ow| && s1.ow[bank].OwOpen? && CanFlushOw(s1, bank)
    requires if OwBankAt(TablesOf(s), bank).page.Some? then s1 == s else s1.ow[bank].page == 0
    ensures FlushRefills(s, nest, bank, fuel) && s1.ow[bank].page == 123 ==>
      OwRefills(FlushOwStep(s1, bank), nest, bank, fuel)
  {
    hide Affordable, OwRefills, CanFlushOw, FlushOwStep;
  }

  /** flushOwLogBuffer: the bank's full overwrite buffer goes to flash. */
  method FlushOwLogBuffer(f: Ftl, bank: nat, fuel: nat) returns (o: Outcome, collects: bool)
    requires OwCalm(f.View()) && AtRest(f) && bank < f.banks && f.g.owPending == {} && f.g.held == map[]
    requires FillsBut(f.g.owFill, bank) && bank < |f.g.owFill| && f.g.owFill[bank] == 8
    modifies f
    ensures o.Pass? ==>
      OwCalm(f.View()) && AtRest(f) && f.g.owPending == {} && f.g.held == map[] && FillsBut(f.g.owFill, -1)
    ensures o.Pass? ==> f.g.debt == old(f.g.debt) && ContentOf(f.View()) == ContentOf(old(f.View()))
    ensures o.Pass? ==> OwedStay(old(f.View()), f.View()) && f.givenUp == old(f.givenUp) && f.owing == old(f.owing)
    ensures FlushOutcome(old(f.t), f.t, bank, o, collects)
    ensures !collects ==> FlashKept(old(f.g.live), f.g.live) && f.referenceBank == old(f.referenceBank)
    ensures !collects ==> StillAt(old(f.g.live), f.g.live, Buf(true, bank))
    ensures FlushRefills(old(f.View()), old(f.gcNestLevel), bank, fuel) ==> o.Pass?
    ensures old(Unburdened(f)) ==> o != Fail(UnsafeCollection)
  {
    hide Inv, Content, VRoles, RwReady, FlushOwStep, CanFlushOw, OwCalm, FillsBut, FlushOutcome, OwBankAt,
         SameCursorsOw, OwOpened, NeedsBlock, OwedStay, OwAdvanced, OwRefills, FlushRefills, Affordable,
         TablesOf, StillAt;
    ghost var s := f.View();
    ViewTables(f);
    OwBank(s, bank) by { CalmIsIdle(s); }
    FirstPasses(s, f.gcNestLevel, bank, fuel);
    var first;
    o, first := GetOWLpn(f, bank, fuel);
    if o.Fail? {
      collects := first;
      FlushStops(old(f.t), f.t, bank, o);
      return;
    }
    ghost var s1, t1 := f.View(), f.t;
    FlushOwCalm(s1, bank);
    SecondPasses(s, s1, old(f.gcNestLevel), bank, fuel);
    StepFields(s1, bank);
    CalmIsIdle(s1);
    FreshOw(s1, bank);
    ProgramOwBuffer(f, bank);
    ghost var s2, t2 := f.View(), f.t;
    FlashStays(s1, s2);
    StayTrans(s, s1, s2);
    OwFlushedStill(s1, bank);
    var second;
    o, second := IncreaseOWLpn(f, bank, fuel);
    collects := first || second;
    FlushEnds(old(f.t), t1, t2, f.t, bank, o, first, second);
    if o.Pass? {
      assert FillsBut(s2.owFill, -1) && f.g.owFill == s2.owFill;
      StayTrans(s, s2, f.View());
    }
  }

  lemma OwFlushedStill(s: St, bank: nat)
    requires CanFlushOw(s, bank)
    ensures StillAt(s.live, FlushOwStep(s, bank).live, Buf(true, bank))
  {
    hide WriteNames, NamesOf, Holes, Minus, DramOK, BumpCounter;
  }

  lemma FlushStops(s: Tables, t: Tables, bank: nat, o: Outcome)
    requires NeedsBlock(OwBankAt(s, bank))
    ensures FlushOutcome(s, t, bank, o, true)
  {
  }

  lemma StepFields(s: St, bank: nat)
    requires CanFlushOw(s, bank)
    ensures FlushOwStep(s, bank).ow == s.ow && FlushOwStep(s, bank).clean == s.clean
  {
  }

  /** What entering a chunk and flushing a full buffer add up to. */
  ghost predicate StoreOutcome(s: Tables, t: Tables, bank: nat, o: Outcome, collects: bool) {
    && (collects <==> StoreNeedsBlock(OwBankAt(s, bank)))
    && (!collects ==> o.Pass? && OwNow(s, t, bank, AfterStore(OwBankAt(s, bank))))
  }

  ghost predicate Entered(s: Tables, t: Tables, bank: nat) {
    && bank < |s.owChunkPtr| && s.owChunkPtr[bank] < 8
    && t.owChunkPtr == s.owChunkPtr[bank := (s.owChunkPtr[bank] + 1) % 8]
    && t.owCtrl == s.owCtrl && t.cleanList == s.cleanList && SameRwSide(s, t)
  }

  lemma StoreEnds(s: Tables, m: Tables, t: Tables, bank: nat, o: Outcome, collects: bool)
    requires Entered(s, m, bank)
    requires if m.owChunkPtr[bank] == 0 then FlushOutcome(m, t, bank, o, collects) else t == m && o == Pass && !collects
    ensures StoreOutcome(s, t, bank, o, collects)
  {
    assert OwBankAt(m, bank) == OwBankAt(s, bank).(ptr := m.owChunkPtr[bank]);
    forall b: nat | b != bank ensures OwBankAt(m, b) == OwBankAt(s, b) {
    }
  }

  lemma StoreLasts(s: Tables, t: Tables, bank: nat, n: nat, o: Outcome, collects: bool)
    requires StoreOutcome(s, t, bank, o, collects) && bank < |s.rwCtrl| == |s.cleanList| && 1016 <= n
    ensures Lasts(Rooms(s), Rooms(t), n, o)
  {
    OwLasts(s, t, bank, AfterStore(OwBankAt(s, bank)), n, o);
  }

  lemma FlushLasts(s: Tables, t: Tables, bank: nat, n: nat, o: Outcome, collects: bool)
    requires FlushOutcome(s, t, bank, o, collects) && bank < |s.rwCtrl| == |s.cleanList| && 1016 <= n
    ensures Lasts(Rooms(s), Rooms(t), n, o)
  {
    OwLasts(s, t, bank, Flushed(OwBankAt(s, bank)), n, o);
  }

  lemma TableLengths(s: St)
    requires OwCalm(s)
    ensures |s.rw| == |s.ow| == |s.clean| == |s.owPtr| == s.banks && 0 < s.banks
  {
    hide Inv, VRoles;
    OwPtrs(s);
  }

  lemma OwPtrs(s: St)
    requires Inv(s)
    ensures |s.owPtr| == s.banks && 0 < s.banks && |s.rw| == |s.ow| == |s.clean| == s.banks
  {
    hide RoleShape, ListShape, MapOK, StaleOK, DramOK, FlashOK, Inj, WCounts, OCounts, CleanOK, MembersOK, RwOK, OwOK,
         Erased, ListPages, Budget, TraceOK;
  }
}
