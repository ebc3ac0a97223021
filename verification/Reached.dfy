/** States that a device of one bank reaches from format, built from the moves of the FTL. */
module Reached {
  import opened Base
  import opened Nand
  import opened State
  import opened Steps
  import opened FtlTables
  import opened PageMoves
  import opened ChunkMoves
  import opened BlockMoves
  import opened VictimFrame
  import opened Internal
  import opened Measure
  import opened Collecting
  import opened Log
  import opened Write
  import opened Trim
  import opened OwLog
  import opened Overwrite
  import opened Host
  import Guarantees

  // ----- one bank -----

  ghost predicate OneBank(s: St) {
    && s.banks == 1 && |s.rw| == |s.rwList| == |s.clean| == |s.ow| == |s.owList| == 1
    && |s.fill| == |s.ptr| == |s.owFill| == |s.owPtr| == |s.owBuf| == |s.owMeta| == 1
  }

  /** Nothing but the mapped chunks, the counts and the names in buffers differs. */
  ghost predicate SamePlaces(s: St, t: St) {
    && t.banks == s.banks && t.blocks == s.blocks && t.cmap == s.cmap && t.lists == s.lists && t.flash == s.flash
    && t.role == s.role
    && t.rw == s.rw && t.rwList == s.rwList && t.ow == s.ow && t.owList == s.owList && t.clean == s.clean
    && t.wIn == s.wIn && t.oIn == s.oIn
    && t.fill == s.fill && t.ptr == s.ptr && t.owFill == s.owFill && t.owPtr == s.owPtr && t.logBuf == s.logBuf
    && t.owBuf == s.owBuf
    && |t.owMeta| == |s.owMeta| && t.pending == s.pending && t.owPending == s.owPending && t.debt == s.debt
    && t.trace == s.trace && t.wiped == s.wiped
    && t.owCnt == s.owCnt
  }

  lemma DetachPlaces(s: St, k: Key, d: Chunk)
    ensures SamePlaces(s, Detach(s, k, d)) && Detach(s, k, d).live == s.live - {k}
      && Detach(s, k, d).held == s.held[k := d]
  {
    hide OneLessRw, OneLessOw;
  }

  // ----- a whole page is written -----

  /** The old versions of a page are given up, one chunk after the other. */
  ghost function Given(s: St, lpn: nat, data: seq<Sector>, n: nat): (t: St)
    requires |data| == 64 && n <= 8
    ensures SamePlaces(s, t)
    ensures forall k :: k in t.live <==> k in s.live && !(k.lpn == lpn && k.idx < n)
    ensures forall k | k in t.live :: t.live[k] == s.live[k]
  {
    if n == 0 then s
    else
      var p := Given(s, lpn, data, n - 1);
      DetachPlaces(p, Key(lpn, n - 1), ChunkOf(data, n - 1));
      Detach(p, Key(lpn, n - 1), ChunkOf(data, n - 1))
  }

  lemma {:induction false} GivenFlight(s: St, lpn: nat, data: seq<Sector>, n: nat)
    requires Settled(s) && |data| == 64 && n <= 8
    ensures InFlight(s, Given(s, lpn, data, n), lpn, data, n)
  {
    hide Settled, InFlight, Detach, ChunkOf;
    if n == 0 {
      InFlightStart(s, lpn, data);
    } else {
      GivenFlight(s, lpn, data, n - 1);
      InFlightStep(s, Given(s, lpn, data, n - 1), lpn, data, n - 1);
    }
  }

  /** An open RW block, taking a clean one if there is none. */
  ghost function WithRwBlk(g: St): St
    requires OneBank(g) && (g.rw[0].Open? || 0 < |g.clean[0]|)
  {
    if g.rw[0].Closed? then OpenRwBlk(g, 0) else g
  }

  /** The next page, or the next block after page 126. */
  ghost function NextRwPlace(p: St): St
    requires OneBank(p) && p.rw[0].Open? && (p.rw[0].page == 126 ==> 0 < |p.clean[0]|)
  {
    if p.rw[0].page == 126 then OpenRwBlk(CloseRw(p, 0), 0) else AdvanceRw(p, 0)
  }

  /** A page can be written without a collection. */
  ghost predicate CanWrite(s: St) {
    OneBank(s) && ((s.rw[0].Open? && s.rw[0].page < 126) || 2 <= |s.clean[0]|)
  }

  /** writeCompletePage in a bank that needs no collection: the moves it makes, in order. */
  ghost function WritePage(s: St, lpn: nat, data: seq<Sector>): St
    requires |data| == 64
  {
    if !CanWrite(s) then s
    else
      WithFields(Given(s, lpn, data, 8));
      var o := WithRwBlk(Given(s, lpn, data, 8));
      HostBank(o, lpn, data);
      NextRwPlace(HostPage(o, 0, lpn, data))
  }

  lemma HostBank(o: St, lpn: nat, data: seq<Sector>)
    requires OneBank(o) && o.rw[0].Open? && |data| == 64
    ensures var p := HostPage(o, 0, lpn, data);
      && OneBank(p) && p.rw == o.rw && p.clean == o.clean && p.debt == o.debt && p.owFill == o.owFill
      && p.owPending == o.owPending
  {
    hide WriteNames, PageAdds, Chunks, HostNames;
  }

  lemma WithFields(g: St)
    requires OneBank(g) && (g.rw[0].Open? || 0 < |g.clean[0]|)
    ensures var o := WithRwBlk(g);
      && OneBank(o) && o.live == g.live && o.banks == g.banks && o.blocks == g.blocks && o.ow == g.ow && o.oIn == g.oIn
      && o.wIn == g.wIn
      && o.owPtr == g.owPtr && o.owFill == g.owFill && o.rwList == g.rwList && o.held == g.held && o.cmap == g.cmap
      && (if g.rw[0].Open? then o.rw == g.rw && o.clean == g.clean
          else o.rw == [Open(g.clean[0][0], 0, false)] && o.clean == [g.clean[0][1..]])
      && (forall b | b in g.lists && (g.rw[0].Open? || b != Blk(0, g.clean[0][0])) ::
           b in o.lists && o.lists[b] == g.lists[b])
  {
  }

  lemma OpenStage(s: St, g: St, lpn: nat, data: seq<Sector>)
    requires Settled(s) && OneBank(g) && |data| == 64 && InFlight(s, g, lpn, data, 8)
      && (g.rw[0].Open? || 0 < |g.clean[0]|)
    ensures var o := WithRwBlk(g);
      && Idle(o) && Kept(g, o) && OneBank(o) && o.rw[0].Open? && o.held == PageMap(lpn, data, 8)
      && VRoles(o.role) == VRoles(s.role) && o.owPending == s.owPending && o.owFill == s.owFill && o.debt == s.debt
  {
    hide Inv, Content, Stale, FrameOf, Slack, VRoles, FillsBut, RwReady, RwReadyBut, PageMap, OwedStay;
    InFlightIdle(s, g, lpn, data);
    IdleCalm(g);
    if g.rw[0].Closed? {
      ReadyBut(g.rw, g.wIn, 0);
      OpenKept(g, 0);
      SameFillsIdle(g, OpenRwBlk(g, 0));
    } else {
      KeptRefl(g);
    }
    KeptRoles(g, WithRwBlk(g));
  }

  lemma EndStage(p: St)
    requires ProgrammedAt(p, 0) && OneBank(p) && (p.rw[0].page == 126 ==> 0 < |p.clean[0]|)
    ensures Idle(NextRwPlace(p)) && Kept(p, NextRwPlace(p))
  {
    hide Inv, Content, Stale, FrameOf, Slack, VRoles, FillsBut, RwReady, RwReadyBut, OwedStay;
    if p.rw[0].page == 126 {
      CloseKept(p, 0);
      OpenKept(CloseRw(p, 0), 0);
      KeptTrans(p, CloseRw(p, 0), OpenRwBlk(CloseRw(p, 0), 0));
    } else {
      AdvanceKept(p, 0);
    }
  }

  /** The overwrite side, the victims and the count owed are as they were. */
  ghost predicate SameSide(s: St, o: St) {
    VRoles(o.role) == VRoles(s.role) && o.owPending == s.owPending && o.owFill == s.owFill && o.debt == s.debt
  }

  ghost predicate OpenIdle(o: St, lpn: nat, data: seq<Sector>)
    requires |data| == 64
  {
    OneBank(o) && o.rw[0].Open? && Idle(o) && o.held == PageMap(lpn, data, 8)
  }

  lemma ProgramStage(o: St, lpn: nat, data: seq<Sector>)
    requires |data| == 64 && OpenIdle(o, lpn, data)
    ensures ProgrammedAt(HostPage(o, 0, lpn, data), 0) && SameSide(o, HostPage(o, 0, lpn, data))
    ensures HostPage(o, 0, lpn, data).held == map[] && ContentOf(HostPage(o, 0, lpn, data)) == ContentOf(o)
  {
    hide Inv, Idle, Content, VRoles, FillsBut, PageMap, HostPage, ProgrammedAt;
    IdleCalm(o);
    HostPageProgrammed(o, 0, lpn, data);
    HostPageContent(o, 0, lpn, data);
    HostPageFields(o, 0, lpn, data);
    HostBank(o, lpn, data);
  }

  lemma WriteSettled(s: St, lpn: nat, data: seq<Sector>)
    requires Settled(s) && |data| == 64 && CanWrite(s)
    ensures Settled(WritePage(s, lpn, data))
      && ContentOf(WritePage(s, lpn, data)) == ContentOf(s) + PageMap(lpn, data, 8)
  {
    hide Inv, Settled, Idle, Content, Stale, FrameOf, Slack, VRoles, FillsBut, PageMap, HostPage, ProgrammedAt,
         InFlight, OwedStay, Given, WithRwBlk, NextRwPlace, SameOwSide;
    var g := Given(s, lpn, data, 8);
    GivenFlight(s, lpn, data, 8);
    InFlightIdle(s, g, lpn, data);
    OpenStage(s, g, lpn, data);
    WithFields(g);
    var o := WithRwBlk(g);
    ProgramStage(o, lpn, data);
    HostBank(o, lpn, data);
    var p := HostPage(o, 0, lpn, data);
    EndStage(p);
    PageSettled(s, p, NextRwPlace(p));
  }

  /** Chunk `i` of page `lpn` is now at slot `i` of `dst`; the other chunks are where they were. */
  ghost predicate Placed8(m: map<Key, Loc>, m': map<Key, Loc>, lpn: nat, dst: PageId, ow: bool) {
    && (forall k :: k in m' <==> k in m || (k.lpn == lpn && k.idx < 8))
    && (forall k | k in m' :: m'[k] == if k.lpn == lpn && k.idx < 8 then Loc(ow, dst, k.idx) else m[k])
  }

  /** The eight names of a page. */
  ghost predicate NamedBy(list: seq<Option<nat>>, page: nat, lpn: nat) {
    |list| == CHUNKS_PER_BLK && forall i | page * 8 <= i < page * 8 + 8 && i < |list| :: list[i] == Some(lpn)
  }

  lemma HostFields(o: St, lpn: nat, data: seq<Sector>)
    requires OneBank(o) && o.rw[0].Open? && |data| == 64 && (forall k | k in o.live :: k.idx < 8)
      && |o.rwList[0]| == CHUNKS_PER_BLK
    ensures var p := HostPage(o, 0, lpn, data); var c := o.rw[0]; var blk := Blk(0, c.lbn);
      && p.rw == o.rw && p.clean == o.clean && p.banks == o.banks && p.blocks == o.blocks
      && p.ow == o.ow && p.oIn == o.oIn && p.wIn == o.wIn && p.owPtr == o.owPtr && p.owFill == o.owFill
      && p.live == o.live + PageAdds(lpn, Pg(0, c.lbn, c.page), false, 8)
      && p.lists == o.lists[blk := WriteNames(o.rwList[0], c.page, HostNames(lpn))]
      && p.rwList == [WriteNames(o.rwList[0], c.page, HostNames(lpn))]
  {
    hide Chunks, PageAdds, HostNames, WriteNames;
  }

  lemma NamedPage(list: seq<Option<nat>>, page: nat, lpn: nat)
    requires |list| == CHUNKS_PER_BLK
    ensures NamedBy(WriteNames(list, page, HostNames(lpn)), page, lpn)
    ensures forall q, l | q != page && NamedBy(list, q, l) :: NamedBy(WriteNames(list, page, HostNames(lpn)), q, l)
  {
    HostNamesAt(lpn);
    hide HostNames;
  }

  lemma AddedPage(m: map<Key, Loc>, g: map<Key, Loc>, lpn: nat, dst: PageId, ow: bool)
    requires (forall k | k in m :: k.idx < 8) && (forall k :: k in g <==> k in m && !(k.lpn == lpn && k.idx < 8))
      && (forall k | k in g :: g[k] == m[k])
    ensures Placed8(m, g + PageAdds(lpn, dst, ow, 8), lpn, dst, ow)
  {
    hide PageAdds;
    PageAddsAt(lpn, dst, ow, 8);
  }

  /** `p` is `s` after page `lpn` was programmed at the cursor, before the cursor moves. */
  ghost predicate PageProgrammed(s: St, p: St, lpn: nat)
    requires OneBank(s) && (s.rw[0].Open? || 0 < |s.clean[0]|) && |s.rwList[0]| == CHUNKS_PER_BLK
  {
    var c := if s.rw[0].Open? then s.rw[0] else Open(s.clean[0][0], 0, false);
    var blk := Blk(0, c.lbn);
    var list := WriteNames(s.rwList[0], c.page, HostNames(lpn));
    && OneBank(p) && p.rw == [c] && p.clean == (if s.rw[0].Open? then s.clean else [s.clean[0][1..]])
    && p.banks == s.banks && p.blocks == s.blocks && p.ow == s.ow && p.oIn == s.oIn && p.wIn == s.wIn
    && p.owPtr == s.owPtr && p.owFill == s.owFill && p.rwList == [list] && blk in p.lists && p.lists[blk] == list
    && (forall b | b in s.lists && b != blk :: b in p.lists && p.lists[b] == s.lists[b])
    && Placed8(s.live, p.live, lpn, Pg(0, c.lbn, c.page), false)
  }

  lemma ProgrammedFields(s: St, lpn: nat, data: seq<Sector>)
    requires OneBank(s) && |data| == 64 && (s.rw[0].Open? || 0 < |s.clean[0]|)
    requires (forall k | k in s.live :: k.idx < 8) && |s.rwList[0]| == CHUNKS_PER_BLK
    ensures var o := WithRwBlk(Given(s, lpn, data, 8)); OneBank(o) && o.rw[0].Open?
    ensures PageProgrammed(s, HostPage(WithRwBlk(Given(s, lpn, data, 8)), 0, lpn, data), lpn)
  {
    hide Chunks, PageAdds, HostNames, WriteNames, Given, HostPage, WithRwBlk, Placed8;
    var g := Given(s, lpn, data, 8);
    WithFields(g);
    var o := WithRwBlk(g);
    HostFields(o, lpn, data);
    HostBank(o, lpn, data);
    AddedPage(s.live, g.live, lpn, Pg(0, o.rw[0].lbn, o.rw[0].page), false);
  }

  lemma NextFields(p: St)
    requires OneBank(p) && p.rw[0].Open? && (p.rw[0].page == 126 ==> 0 < |p.clean[0]|)
    ensures var t := NextRwPlace(p); var c := p.rw[0];
      && OneBank(t) && t.live == p.live && t.banks == p.banks && t.blocks == p.blocks && t.ow == p.ow && t.oIn == p.oIn
      && t.owPtr == p.owPtr && t.owFill == p.owFill
      && (c.page == 126 ==>
            && t.rw == [Open(p.clean[0][0], 0, false)] && t.clean == [p.clean[0][1..]]
            && t.wIn == p.wIn + {Blk(0, c.lbn)} && t.rwList == [NoNames()])
      && (c.page != 126 ==>
            && t.rw == [c.(page := NextRw(c.page, c.sealed))] && t.clean == p.clean
            && t.wIn == p.wIn && t.rwList == p.rwList)
      && (forall b | b in p.lists && (c.page == 126 ==> b != Blk(0, p.clean[0][0])) ::
           b in t.lists && t.lists[b] == p.lists[b])
  {
  }

  // ----- pages 5 to 131 fill a block -----

  /** The first `n` pages are in block 0, in order. */
  ghost predicate FirstPages(s: St, n: nat) {
    && OneBank(s) && s.banks == 1 && s.blocks == 3 && s.ow == [OwClosed] && s.oIn == {}
    && |s.rwList[0]| == CHUNKS_PER_BLK
    && PagesIn(s.live, n)
    && (0 < n ==>
        Blk(0, 0) in s.lists && NamedBy(s.lists[Blk(0, 0)], 0, 5) && (n < 127 ==> s.lists[Blk(0, 0)] == s.rwList[0]))
    && RwAfter(s, n)
  }

  /** Pages 5, 6, ... are in pages 0, 1, ... of block 0. */
  ghost predicate PagesIn(m: map<Key, Loc>, n: nat) {
    && (forall k :: k in m <==> 5 <= k.lpn < 5 + n && k.idx < 8)
    && (forall k | k in m :: m[k] == Loc(false, Pg(0, 0, k.lpn - 5), k.idx))
  }

  lemma OnePageMore(m: map<Key, Loc>, m': map<Key, Loc>, n: nat)
    requires PagesIn(m, n)
    ensures forall k | k in m :: k.idx < 8
    ensures Placed8(m, m', 5 + n, Pg(0, 0, n), false) ==> PagesIn(m', n + 1)
  {
  }

  ghost predicate RwAfter(s: St, n: nat) {
    if n == 0 then s.rw == [Closed] && s.clean == [[0, 1, 2]] && s.wIn == {}
    else if n < 127 then s.rw == [Open(0, n, false)] && s.clean == [[1, 2]] && s.wIn == {}
    else s.rw == [Open(1, 0, false)] && s.clean == [[2]] && s.wIn == {Blk(0, 0)}
  }

  /** Writing pages 5, 6, 7, ... to a device of one bank with three blocks. */
  ghost function Filling(data: seq<Sector>, n: nat): St
    requires |data| == 64
  {
    if n == 0 then Formatted(1, 3) else WritePage(Filling(data, n - 1), 4 + n, data)
  }

  lemma FillStart()
    ensures FirstPages(Formatted(1, 3), 0)
  {
    assert Upto(3) == [0, 1, 2];
    assert Rows(1, Upto(3)) == [Upto(3)];
  }

  lemma FillStep(s: St, data: seq<Sector>, n: nat)
    requires FirstPages(s, n) && |data| == 64 && n < 127
    ensures CanWrite(s) && FirstPages(WritePage(s, 5 + n, data), n + 1)
  {
    hide Given, HostPage, WithRwBlk, NextRwPlace, WriteNames, HostNames, NamedBy, PagesIn, Placed8;
    ghost var t := WritePage(s, 5 + n, data);
    OnePageMore(s.live, t.live, n);
    HostNamesAt(5 + n);
    ProgrammedFields(s, 5 + n, data);
    var p := HostPage(WithRwBlk(Given(s, 5 + n, data, 8)), 0, 5 + n, data);
    NamedPage(s.rwList[0], n, 5 + n);
    NamesLength(s.rwList[0], n, HostNames(5 + n));
    assert [0, 1, 2][1..] == [1, 2] && [1, 2][1..] == [2];
    NextFields(p);
  }

  lemma {:induction false} FillingAt(data: seq<Sector>, n: nat)
    requires |data| == 64 && n <= 127
    ensures FirstPages(Filling(data, n), n) && Settled(Filling(data, n))
  {
    hide Settled, WritePage, FirstPages, CanWrite;
    if n == 0 {
      FillStart();
      FormattedSettled(1, 3);
    } else {
      FillingAt(data, n - 1);
      FillStep(Filling(data, n - 1), data, n - 1);
      WriteSettled(Filling(data, n - 1), 4 + n, data);
    }
  }

  // ----- chunks are trimmed -----

  ghost function TrimOne(s: St, k: Key): St {
    Forget(Detach(s, k, BlankChunk()), k)
  }

  /** trimRange on the `n` chunks from the first one of page `lpn` on. */
  ghost function TrimFrom(s: St, lpn: nat, n: nat): St {
    if n == 0 then s else TrimOne(TrimFrom(s, lpn, n - 1), Key(lpn + (n - 1) / 8, (n - 1) % 8))
  }

  /** Trimming changes no place: cursors, lists, members, the flash. */
  ghost predicate SameButMapped(s: St, t: St) {
    && t.banks == s.banks && t.blocks == s.blocks && t.lists == s.lists && t.flash == s.flash && t.owCnt == s.owCnt
    && t.rw == s.rw && t.ow == s.ow && t.clean == s.clean && t.wIn == s.wIn && t.oIn == s.oIn && t.owPtr == s.owPtr
    && (OneBank(s) ==> OneBank(t))
  }

  /** The `n` chunks from the first one of page `lpn` on are gone. */
  ghost predicate Cut(m: map<Key, Loc>, m': map<Key, Loc>, lpn: nat, n: nat) {
    && (forall k :: k in m' <==> k in m && !(lpn * 8 <= k.lpn * 8 + k.idx < lpn * 8 + n))
    && (forall k | k in m' :: m'[k] == m[k])
  }

  lemma CutOne(m: map<Key, Loc>, m': map<Key, Loc>, lpn: nat, n: nat)
    requires Cut(m, m', lpn, n) && forall k | k in m :: k.idx < 8
    ensures Cut(m, m' - {Key(lpn + n / 8, n % 8)}, lpn, n + 1)
  {
    var x := Key(lpn + n / 8, n % 8);
    assert x.lpn * 8 + x.idx == lpn * 8 + n;
  }

  lemma {:induction false} TrimAt(s: St, lpn: nat, n: nat)
    requires Settled(s) && forall k | k in s.live :: k.idx < 8
    ensures var t := TrimFrom(s, lpn, n); Settled(t) && SameButMapped(s, t) && Cut(s.live, t.live, lpn, n)
  {
    hide Settled, TrimOne, OneBank;
    if n > 0 {
      hide Cut;
      TrimAt(s, lpn, n - 1);
      var p, k := TrimFrom(s, lpn, n - 1), Key(lpn + (n - 1) / 8, (n - 1) % 8);
      TrimStep(p, k);
      CutOne(s.live, p.live, lpn, n - 1);
    }
  }

  lemma TrimStep(s: St, k: Key)
    requires Settled(s)
    ensures Settled(TrimOne(s, k)) && SameButMapped(s, TrimOne(s, k)) && TrimOne(s, k).live == s.live - {k}
  {
    hide Settled, OneLessRw, OneLessOw;
    TrimSettled(s, k);
    DetachPlaces(s, k, BlankChunk());
  }

  // ----- a whole page overwritten with no room for it -----

  /** Pages 5 and 6 are left in the full block; the bank has one clean block and no open overwrite block. */
  ghost function BeforeOverwrite(data: seq<Sector>): St
    requires |data| == 64
  {
    TrimFrom(Filling(data, 127), 7, 1000)
  }

  lemma BeforeFacts(data: seq<Sector>)
    requires |data| == 64
    ensures var s := BeforeOverwrite(data);
      && Settled(s) && OneBank(s) && s.ow == [OwClosed] && s.clean == [[2]] && s.wIn == {Blk(0, 0)} && s.oIn == {}
      && (forall k :: k in s.live <==> 5 <= k.lpn <= 6 && k.idx < 8)
      && (forall k | k in s.live :: s.live[k] == Loc(false, Pg(0, 0, k.lpn - 5), k.idx))
      && Blk(0, 0) in s.lists && NamedBy(s.lists[Blk(0, 0)], 0, 5)
  {
    hide Settled, Filling, TrimFrom, OneBank;
    FillingAt(data, 127);
    TrimAt(Filling(data, 127), 7, 1000);
  }

  // ----- a whole page is overwritten -----

  ghost function WithOwBlk(g: St): St
    requires OneBank(g) && (g.ow[0].OwOpen? || 0 < |g.clean[0]|)
  {
    if g.ow[0].OwClosed? then OpenOwBlk(g, 0) else g
  }

  ghost function NextOwPlace(p: St): St
    requires OneBank(p) && p.ow[0].OwOpen? && (p.ow[0].page == 123 ==> 0 < |p.clean[0]|)
  {
    if p.ow[0].page == 123 then OpenOwBlk(CloseOw(p, 0), 0) else AdvanceOw(p, 0)
  }

  ghost predicate CanOverwrite(s: St) {
    OneBank(s) && ((s.ow[0].OwOpen? && s.ow[0].page < 123) || 2 <= |s.clean[0]|)
  }

  /** overwriteCompletePageInOwLog in a bank that needs no collection: the moves it makes, in order. */
  ghost function OverwritePage(s: St, lpn: nat, data: seq<Sector>): St
    requires |data| == 64
  {
    if !CanOverwrite(s) then s
    else
      WithOwFields(Given(s, lpn, data, 8));
      var o := WithOwBlk(Given(s, lpn, data, 8));
      HostOwFields(o, lpn, data);
      NextOwPlace(HostOwPage(o, 0, lpn, data))
  }

  lemma WithOwFields(g: St)
    requires OneBank(g) && (g.ow[0].OwOpen? || 0 < |g.clean[0]|)
    ensures var o := WithOwBlk(g);
      && OneBank(o) && o.live == g.live && o.banks == g.banks && o.blocks == g.blocks && o.rw == g.rw && o.oIn == g.oIn
      && o.wIn == g.wIn
      && o.owPtr == g.owPtr && o.owFill == g.owFill && o.owPending == g.owPending && o.flash == g.flash
      && o.held == g.held && o.debt == g.debt
      && (if g.ow[0].OwOpen? then o.ow == g.ow && o.clean == g.clean
          else o.ow == [OwOpen(g.clean[0][0], 0)] && o.clean == [g.clean[0][1..]])
  {
  }

  lemma HostOwFields(o: St, lpn: nat, data: seq<Sector>)
    requires OneBank(o) && o.ow[0].OwOpen? && |data| == 64
    ensures var p := HostOwPage(o, 0, lpn, data); var c := o.ow[0];
      && OneBank(p) && p.ow == o.ow && p.clean == o.clean && p.banks == o.banks && p.blocks == o.blocks
      && p.rw == o.rw && p.oIn == o.oIn && p.wIn == o.wIn && p.owPtr == o.owPtr && p.owFill == o.owFill
      && p.live == o.live + PageAdds(lpn, Pg(0, c.lbn, c.page), true, 8)
      && p.flash == o.flash[Pg(0, c.lbn, c.page) := Data(Chunks(data), 1)]
  {
    hide Chunks, PageAdds, HostNames, WriteNames, BumpCounter;
  }

  lemma NextOwFields(p: St)
    requires OneBank(p) && p.ow[0].OwOpen? && (p.ow[0].page == 123 ==> 0 < |p.clean[0]|)
    ensures var t := NextOwPlace(p); var c := p.ow[0];
      && OneBank(t) && t.live == p.live && t.banks == p.banks && t.blocks == p.blocks && t.rw == p.rw && t.wIn == p.wIn
      && t.owPtr == p.owPtr && t.owFill == p.owFill
      && (if c.page == 123 then
            t.ow == [OwOpen(p.clean[0][0], 0)] && t.clean == [p.clean[0][1..]] && t.oIn == p.oIn + {Blk(0, c.lbn)}
          else
            t.ow == [c.(page := NextOw(c.page))] && t.clean == p.clean && t.oIn == p.oIn)
      && (forall pg | pg in p.flash && p.flash[pg].Data? && pg.Pg? && pg.page != 125 ::
           pg in t.flash && t.flash[pg] == p.flash[pg])
  {
  }

  lemma OverwriteSettled(s: St, lpn: nat, data: seq<Sector>)
    requires Settled(s) && |data| == 64 && CanOverwrite(s)
    ensures Settled(OverwritePage(s, lpn, data))
  {
    hide Inv, Settled, OwCalm, Content, Stale, FrameOf, Slack, VRoles, FillsBut, PageMap, HostOwPage, InFlight,
         OwedStay, Given, WithOwBlk;
    var g := Given(s, lpn, data, 8);
    GivenFlight(s, lpn, data, 8);
    FlightCalm(s, g, lpn, data);
    WithOwFields(g);
    var o := WithOwBlk(g);
    OwStart(s);
    WithOwCalm(g);
    HostOwFields(o, lpn, data);
    HostOwPageCalm(o, 0, lpn, data);
    EndOwStage(HostOwPage(o, 0, lpn, data));
  }

  lemma WithOwCalm(g: St)
    requires OwCalm(g) && OneBank(g) && g.owPending == {} && (g.ow[0].OwOpen? || 0 < |g.clean[0]|)
    ensures OwCalm(WithOwBlk(g))
  {
    hide Inv, OwCalm, OwedStay;
    if g.ow[0].OwClosed? {
      OpenOwCalm(g, 0);
    }
  }

  lemma EndOwStage(p: St)
    requires OwCalm(p) && OneBank(p) && p.owPending == {0}
      && p.held == map[] && FillsBut(p.owFill, -1) && p.debt.amount == 0
    requires p.ow[0].OwOpen? && (p.ow[0].page == 123 ==> 0 < |p.clean[0]|)
    ensures Settled(NextOwPlace(p))
  {
    hide Inv, OwCalm, Settled, FillsBut, OwedStay, Content;
    if p.ow[0].page == 123 {
      CloseOwCalm(p, 0);
      OpenOwCalm(CloseOw(p, 0), 0);
    } else {
      AdvanceOwCalm(p, 0);
    }
    OwDone(NextOwPlace(p));
  }

  // ----- pages 5 to 129 fill one overwrite block and all but the last page of another -----

  /** Where the `i`th page goes. */
  function OwPlace(i: nat): PageId {
    if i < 63 then Pg(0, 0, Guarantees.OwWalk(i)) else Pg(0, 1, Guarantees.OwWalk(i - 63))
  }

  ghost predicate OwPagesIn(m: map<Key, Loc>, n: nat) {
    && (forall k :: k in m <==> 5 <= k.lpn < 5 + n && k.idx < 8)
    && (forall k | k in m :: m[k] == Loc(true, OwPlace(k.lpn - 5), k.idx))
  }

  ghost predicate OwAfter(s: St, n: nat) {
    if n == 0 then s.ow == [OwClosed] && s.clean == [[0, 1, 2]] && s.oIn == {}
    else if n < 63 then s.ow == [OwOpen(0, Guarantees.OwWalk(n))] && s.clean == [[1, 2]] && s.oIn == {}
    else s.ow == [OwOpen(1, Guarantees.OwWalk(n - 63))] && s.clean == [[2]] && s.oIn == {Blk(0, 0)}
  }

  /** The page of block 0 that will be overwritten, programmed `n` times. */
  ghost predicate FirstPage(flash: map<PageId, Page>, n: nat) {
    Pg(0, 0, 0) in flash && flash[Pg(0, 0, 0)].Data? && |flash[Pg(0, 0, 0)].chunks| == 8
      && flash[Pg(0, 0, 0)].programs == n
  }

  ghost predicate OwFirst(s: St, n: nat) {
    && OneBank(s) && s.banks == 1 && s.blocks == 3 && s.rw == [Closed] && s.wIn == {} && s.owPtr == [0]
    && s.owFill == [0]
    && OwPagesIn(s.live, n) && (0 < n ==> FirstPage(s.flash, 1)) && OwAfter(s, n)
  }

  /** Overwriting pages 5, 6, 7, ... on a device of one bank with three blocks. */
  ghost function OwFilling(data: seq<Sector>, n: nat): St
    requires |data| == 64
  {
    if n == 0 then Formatted(1, 3) else OverwritePage(OwFilling(data, n - 1), 4 + n, data)
  }

  lemma OwFillStart()
    ensures OwFirst(Formatted(1, 3), 0)
  {
    assert Upto(3) == [0, 1, 2];
    assert Rows(1, Upto(3)) == [Upto(3)];
  }

  lemma OnePageMoreOw(m: map<Key, Loc>, m': map<Key, Loc>, n: nat)
    requires OwPagesIn(m, n)
    ensures forall k | k in m :: k.idx < 8
    ensures Placed8(m, m', 5 + n, OwPlace(n), true) ==> OwPagesIn(m', n + 1)
  {
  }

  /** The page is programmed at the cursor, before the cursor moves. */
  lemma OwProgrammedFields(s: St, lpn: nat, data: seq<Sector>)
    requires OneBank(s) && |data| == 64 && (s.ow[0].OwOpen? || 0 < |s.clean[0]|) && forall k | k in s.live :: k.idx < 8
    ensures var o := WithOwBlk(Given(s, lpn, data, 8)); OneBank(o) && o.ow[0].OwOpen?
    ensures var p := HostOwPage(WithOwBlk(Given(s, lpn, data, 8)), 0, lpn, data); var c := p.ow[0];
      && OneBank(p) && c.OwOpen? && p.banks == s.banks && p.blocks == s.blocks
      && p.rw == s.rw && p.oIn == s.oIn && p.wIn == s.wIn && p.owPtr == s.owPtr && p.owFill == s.owFill
      && (if s.ow[0].OwOpen? then c == s.ow[0] && p.clean == s.clean
          else c == OwOpen(s.clean[0][0], 0) && p.clean == [s.clean[0][1..]])
      && Placed8(s.live, p.live, lpn, Pg(0, c.lbn, c.page), true)
      && p.flash == s.flash[Pg(0, c.lbn, c.page) := Data(Chunks(data), 1)]
  {
    hide Given, HostOwPage, WithOwBlk, Placed8, Chunks, PageAdds;
    var g := Given(s, lpn, data, 8);
    WithOwFields(g);
    var o := WithOwBlk(g);
    HostOwFields(o, lpn, data);
    AddedPage(s.live, g.live, lpn, Pg(0, o.ow[0].lbn, o.ow[0].page), true);
  }

  lemma OwAfterStep(s: St, p: St, n: nat)
    requires OneBank(s) && OneBank(p) && OwAfter(s, n) && n < 125 && p.ow[0].OwOpen? && p.oIn == s.oIn
    requires if s.ow[0].OwOpen? then p.ow[0] == s.ow[0] && p.clean == s.clean
             else p.ow[0] == OwOpen(s.clean[0][0], 0) && p.clean == [s.clean[0][1..]]
    ensures CanOverwrite(s) && OwPlace(n) == Pg(0, p.ow[0].lbn, p.ow[0].page)
      && (p.ow[0].page == 123 ==> 0 < |p.clean[0]|)
    ensures OwAfter(NextOwPlace(p), n + 1)
  {
    assert [0, 1, 2][1..] == [1, 2] && [1, 2][1..] == [2];
    hide NextOwPlace;
    NextOwFields(p);
  }

  lemma FirstPageStays(flash: map<PageId, Page>, flash': map<PageId, Page>, dst: PageId, data: seq<Sector>, n: nat)
    requires |data| == 64 && (0 < n ==> FirstPage(flash, 1)) && dst == OwPlace(n)
    requires Pg(0, 0, 0) in flash[dst := Data(Chunks(data), 1)] ==>
      flash[dst := Data(Chunks(data), 1)][Pg(0, 0, 0)].Data? ==>
      Pg(0, 0, 0) in flash' && flash'[Pg(0, 0, 0)] == flash[dst := Data(Chunks(data), 1)][Pg(0, 0, 0)]
    ensures FirstPage(flash', 1)
  {
    ChunksLength(data);
    hide Chunks;
  }

  lemma OwFillStep(s: St, data: seq<Sector>, n: nat)
    requires OwFirst(s, n) && |data| == 64 && n < 125
    ensures CanOverwrite(s) && OwFirst(OverwritePage(s, 5 + n, data), n + 1)
  {
    hide Given, HostOwPage, WithOwBlk, NextOwPlace, OwPagesIn, Placed8, Chunks, OwAfter, FirstPage, OwPlace;
    assert s.ow[0].OwOpen? || 0 < |s.clean[0]| by { OwStarts(s, n); }
    OnePageMoreOw(s.live, s.live, n);
    OwProgrammedFields(s, 5 + n, data);
    var p := HostOwPage(WithOwBlk(Given(s, 5 + n, data, 8)), 0, 5 + n, data);
    OwAfterStep(s, p, n);
    NextOwFields(p);
    OnePageMoreOw(s.live, p.live, n);
    FirstPageStays(s.flash, NextOwPlace(p).flash, OwPlace(n), data, n);
  }

  lemma OwStarts(s: St, n: nat)
    requires OwAfter(s, n)
    ensures |s.ow| == 1 && |s.clean| == 1 && (s.ow[0].OwOpen? || 0 < |s.clean[0]|)
  {
  }

  lemma {:induction false} OwFillingAt(data: seq<Sector>, n: nat)
    requires |data| == 64 && n <= 125
    ensures OwFirst(OwFilling(data, n), n) && Settled(OwFilling(data, n))
  {
    hide Settled, OverwritePage, OwFirst, CanOverwrite;
    if n == 0 {
      OwFillStart();
      FormattedSettled(1, 3);
    } else {
      OwFillingAt(data, n - 1);
      OwFillStep(OwFilling(data, n - 1), data, n - 1);
      OverwriteSettled(OwFilling(data, n - 1), 4 + n, data);
    }
  }

  // ----- page 0 of the full overwrite block is programmed again -----

  ghost function BurnOne(s: St, x: Sector): St {
    if FirstPageShape(s.flash) then PatchPage(s, Pg(0, 0, 0), BurnPage(s.flash[Pg(0, 0, 0)].chunks, 0, [x])) else s
  }

  ghost predicate FirstPageShape(flash: map<PageId, Page>) {
    Pg(0, 0, 0) in flash && flash[Pg(0, 0, 0)].Data? && |flash[Pg(0, 0, 0)].chunks| == 8
  }

  /** Sector 0 of page 5 is overwritten `n` times. */
  ghost function BurnTimes(s: St, x: Sector, n: nat): St {
    if n == 0 then s else BurnOne(BurnTimes(s, x, n - 1), x)
  }

  ghost predicate SameButPage(s: St, t: St) {
    && t.banks == s.banks && t.blocks == s.blocks && t.live == s.live && t.rw == s.rw && t.ow == s.ow
    && t.clean == s.clean
    && t.wIn == s.wIn && t.oIn == s.oIn && t.owPtr == s.owPtr && t.owFill == s.owFill && (OneBank(s) ==> OneBank(t))
  }

  lemma BurnFields(s: St, x: Sector, n: nat)
    requires FirstPage(s.flash, n)
    ensures SameButPage(s, BurnOne(s, x)) && FirstPage(BurnOne(s, x).flash, n + 1)
  {
    hide BurnPage, BumpCounter;
  }

  lemma BurnSettled(s: St, x: Sector, n: nat)
    requires Settled(s) && FirstPage(s.flash, n) && n < OW_LIMIT
    requires Key(5, 0) in s.live && s.live[Key(5, 0)] == Loc(true, Pg(0, 0, 0), 0)
    ensures Settled(BurnOne(s, x))
  {
    hide Settled, Inv, VRoles, BurnPage, CountedOw, BumpCounter, PatchPage;
    Guarantees.SettledMap(s);
    Guarantees.SettledParts(s);
    LowLive(s, Key(5, 0));
    Guarantees.WithinBudget(s, Key(5, 0));
    Overwrite.PatchSettled(s, Pg(0, 0, 0), BurnPage(s.flash[Pg(0, 0, 0)].chunks, 0, [x]));
  }

  lemma {:induction false} BurnTimesAt(s: St, x: Sector, n: nat)
    requires Settled(s) && FirstPage(s.flash, 1) && n <= 7
    requires Key(5, 0) in s.live && s.live[Key(5, 0)] == Loc(true, Pg(0, 0, 0), 0)
    ensures var t := BurnTimes(s, x, n); Settled(t) && SameButPage(s, t) && FirstPage(t.flash, 1 + n)
  {
    hide Settled, BurnOne, FirstPage, OneBank;
    if n > 0 {
      BurnTimesAt(s, x, n - 1);
      BurnFields(BurnTimes(s, x, n - 1), x, n);
      BurnSettled(BurnTimes(s, x, n - 1), x, n);
    }
  }

  // ----- new chunks fill the overwrite buffer -----

  /** A chunk that was never written goes to the overwrite buffer of the bank. */
  ghost function BufferOne(s: St, k: Key, c: Chunk): St {
    if |s.owFill| == 1 && |s.owPtr| == 1 then PutOw(Detach(s, k, c), k, 0, c) else s
  }

  ghost function BufferFrom(s: St, c: Chunk, n: nat): St {
    if n == 0 then s else BufferOne(BufferFrom(s, c, n - 1), Key(200, n - 1), c)
  }

  ghost predicate SameButBuffer(s: St, t: St) {
    && t.banks == s.banks && t.blocks == s.blocks && t.flash == s.flash && t.rw == s.rw && t.ow == s.ow
    && t.clean == s.clean
    && t.wIn == s.wIn && t.oIn == s.oIn && (OneBank(s) ==> OneBank(t))
  }

  lemma BufferStep(s: St, k: Key, c: Chunk)
    requires Settled(s) && OneBank(s) && s.banks == 1 && k.idx < 8 && k !in s.live && s.owPtr[0] < 7
    ensures var t := BufferOne(s, k, c);
      Settled(t) && SameButBuffer(s, t) && t.owPtr == [s.owPtr[0] + 1] && t.live == s.live[k := Loc(true, Buf(true, 0),
          s.owPtr[0])]
  {
    hide Settled, Inv, OwCalm, Detach, Content, FillsBut, FlashKept;
    DetachedCalm(s, k, c);
    DetachPlaces(s, k, c);
    PutOwCalm(Detach(s, k, c), k, 0, c);
    OwDone(BufferOne(s, k, c));
  }

  lemma {:induction false} BufferAt(s: St, c: Chunk, n: nat)
    requires Settled(s) && OneBank(s) && s.banks == 1 && s.owPtr == [0] && n <= 7
      && forall k | k in s.live :: k.lpn < 200
    ensures var t := BufferFrom(s, c, n);
      && Settled(t) && SameButBuffer(s, t) && t.owPtr == [n]
      && (forall k :: k in t.live <==> k in s.live || (k.lpn == 200 && k.idx < n))
      && (forall k | k in t.live :: t.live[k] == if k.lpn == 200 then Loc(true, Buf(true, 0), k.idx) else s.live[k])
  {
    hide Settled, BufferOne, OneBank;
    if n > 0 {
      BufferAt(s, c, n - 1);
      BufferStep(BufferFrom(s, c, n - 1), Key(200, n - 1), c);
    }
  }

  // ----- an exhausted page overwritten with no room for it -----

  /** Page 5 is in page 0 of the full overwrite block, which was programmed eight times; the open overwrite block
      has one page left, the buffer one slot, and the bank one clean block. */
  ghost function BeforeExhausted(data: seq<Sector>, x: Sector, c: Chunk): St
    requires |data| == 64
  {
    BufferFrom(BurnTimes(TrimFrom(OwFilling(data, 125), 6, 496), x, 7), c, 7)
  }

  ghost predicate Exhausted(s: St) {
    && OneBank(s) && s.banks == 1 && s.ow == [OwOpen(1, 123)] && s.clean == [[2]] && s.oIn == {Blk(0, 0)} && s.wIn == {}
    && s.owPtr == [7]
    && FirstPage(s.flash, 8)
    && (forall k: Key | (k.lpn == 5 || k.lpn == 68) && k.idx < 8 ::
         k in s.live && s.live[k] == Loc(true, Pg(0, if k.lpn == 5 then 0 else 1, 0), k.idx))
    && (forall k | k in s.live && InBlk(s.live[k].page, Blk(0, 0)) :: k.lpn == 5 && k.idx < 8)
  }

  lemma TrimmedPages(m: map<Key, Loc>, m': map<Key, Loc>)
    requires OwPagesIn(m, 125) && (forall k :: k in m' <==> k in m && !(48 <= k.lpn * 8 + k.idx < 544))
      && (forall k | k in m' :: m'[k] == m[k])
    ensures forall k: Key | (k.lpn == 5 || k.lpn == 68) && k.idx < 8 ::
      k in m' && m'[k] == Loc(true, Pg(0, if k.lpn == 5 then 0 else 1, 0), k.idx)
    ensures forall k | k in m' && InBlk(m'[k].page, Blk(0, 0)) :: k.lpn == 5 && k.idx < 8
    ensures forall k | k in m' :: k.lpn < 200
  {
  }

  lemma BeforeExhaustedAt(data: seq<Sector>, x: Sector, c: Chunk)
    requires |data| == 64
    ensures Settled(BeforeExhausted(data, x, c)) && Exhausted(BeforeExhausted(data, x, c))
  {
    hide Settled, OwFilling, TrimFrom, BurnTimes, BufferFrom, OneBank, FirstPage, OwPagesIn;
    var s0 := OwFilling(data, 125);
    OwFillingAt(data, 125);
    OnePageMoreOw(s0.live, s0.live, 125);
    TrimAt(s0, 6, 496);
    var s1 := TrimFrom(s0, 6, 496);
    TrimmedPages(s0.live, s1.live);
    BurnTimesAt(s1, x, 7);
    BufferAt(BurnTimes(s1, x, 7), c, 7);
  }

  /** Chunk 0 of page 5 is overwritten: it goes to the last slot of the buffer, the buffer to the last page of the open
      block, and the block is closed.  This is where increaseOWLpn starts to collect. */
  ghost function AtCollection(s: St, c: Chunk): St {
    var e := DetachOwing(s, Key(5, 0), c, Blk(0, 0));
    if |e.owFill| != 1 || |e.owPtr| != 1 then s
    else
      var b := PutOw(e, Key(5, 0), 0, c);
      if !CanFlushOw(b, 0) then s else CloseOw(FlushOwStep(b, 0), 0)
  }

  lemma FlushPlaces(b: St)
    requires CanFlushOw(b, 0)
    ensures var t := CloseOw(FlushOwStep(b, 0), 0);
      && t.clean == b.clean && t.wIn == b.wIn && t.oIn == b.oIn + {Blk(0, b.ow[0].lbn)} && t.debt == b.debt
      && t.held == b.held && t.cmap.Keys >= b.cmap.Keys
      && (forall k | k in b.live && b.live[k].page.Pg? :: k in t.live && t.live[k] == b.live[k])
      && (forall k | k in t.live && t.live[k] != Loc(true, Pg(0, b.ow[0].lbn, b.ow[0].page), t.live[k].slot) ::
           k in b.live && t.live[k] == b.live[k])
  {
    hide WriteNames, NamesOf, Holes, BumpCounter, DramOK;
  }

  /** Page 5's other seven chunks are still in block 0, eight chunks and more are in block 1. */
  ghost predicate SevenLeft(m: map<Key, Loc>) {
    && (forall k | k in m && InBlk(m[k].page, Blk(0, 0)) :: k.lpn == 5 && 1 <= k.idx < 8)
    && (forall i | 0 <= i < 8 :: Key(68, i) in m && InBlk(m[Key(68, i)].page, Blk(0, 1)))
  }

  /** The chunk is in the buffer, which is now full. */
  lemma PutStage(s: St, c: Chunk)
    requires Settled(s) && Exhausted(s)
    ensures var e := DetachOwing(s, Key(5, 0), c, Blk(0, 0)); |e.owFill| == |e.owPtr| == 1
    ensures var b := PutOw(DetachOwing(s, Key(5, 0), c, Blk(0, 0)), Key(5, 0), 0, c);
      && OwCalm(b) && b.held == map[] && b.owPending == {} && b.banks == 1 && FillsBut(b.owFill, 0) && b.owFill == [8]
      && b.debt == Debt(Blk(0, 0), 1) && b.ow == s.ow && b.clean == s.clean && b.wIn == s.wIn && b.oIn == s.oIn
      && b.live == (s.live - {Key(5, 0)})[Key(5, 0) := Loc(true, Buf(true, 0), 7)]
  {
    hide Settled, Inv, OwCalm, Content, FillsBut, FlashKept, OwedStay, FirstPage;
    OwStart(s);
    OwingCalm(s, Key(5, 0), c, Blk(0, 0), 0);
    PutOwCalm(DetachOwing(s, Key(5, 0), c, Blk(0, 0)), Key(5, 0), 0, c);
  }

  lemma FlushStage(b: St)
    requires OwCalm(b)
      && b.held == map[] && b.owPending == {} && b.banks == 1 && FillsBut(b.owFill, 0) && b.owFill == [8]
      && b.ow == [OwOpen(1, 123)]
    ensures CanFlushOw(b, 0) && |b.owList| == 1 && OwCalm(CloseOw(FlushOwStep(b, 0), 0))
  {
    hide Inv, OwCalm, CanFlushOw, FlushOwStep, Content, FillsBut, FlashKept, OwedStay;
    OwBank(b, 0);
    FlushOwCalm(b, 0);
    OwBank(FlushOwStep(b, 0), 0);
    CloseOwCalm(FlushOwStep(b, 0), 0);
    ListsOf(b);
  }

  lemma ListsOf(b: St)
    requires OwCalm(b) && b.banks == 1
    ensures |b.owList| == 1
  {
    hide MapOK, StaleOK, DramOK, FlashOK, WCounts, OCounts, CleanOK, MembersOK, RwOK, Erased, ListPages, Budget,
         TraceOK, VRoles;
  }

  lemma AtCollectionCalm(s: St, c: Chunk)
    requires Settled(s) && Exhausted(s)
    ensures var t := AtCollection(s, c);
      && OwCalm(t)
      && t.held
         == map[] && t.debt == Debt(Blk(0, 0), 1) && t.clean == [[2]] && t.oIn == {Blk(0, 0), Blk(0, 1)} && t.wIn == {}
      && SevenLeft(t.live)
  {
    hide Settled, OwCalm, CanFlushOw, FlushOwStep, CloseOw, FillsBut, FirstPage, DetachOwing, PutOw, OneBank;
    PutStage(s, c);
    var b := PutOw(DetachOwing(s, Key(5, 0), c, Blk(0, 0)), Key(5, 0), 0, c);
    FlushStage(b);
    FlushPlaces(b);
  }
}
