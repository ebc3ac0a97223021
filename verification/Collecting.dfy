/** The steps of one collection: take a victim, empty it page by page, release it. */
module Collecting {
  import opened Base
  import opened State
  import opened Steps
  import opened PageMoves
  import opened BlockMoves
  import opened ChunkMoves
  import opened Measure
  import opened VictimFrame
  import opened Internal
  import opened Sealing

  /** The chunks still mapped to block `v`. */
  ghost function VMap(live: map<Key, Loc>, v: Blk): map<Key, Loc> {
    map k | k in live && InBlk(live[k].page, v) :: live[k]
  }

  lemma VMapKeys(live: map<Key, Loc>, v: Blk)
    ensures VMap(live, v).Keys == KeysIn(live, v) && |VMap(live, v)| == |KeysIn(live, v)|
  {
    assert VMap(live, v).Keys == KeysIn(live, v);
  }

  /** What internal work guarantees about a victim. */
  lemma VictimKept(s: St, t: St, v: Blk)
    requires Kept(s, t) && IsVictim(s.role, v)
    ensures IsVictim(t.role, v) && VMap(t.live, v) == VMap(s.live, v)
    ensures v in s.lists ==> v in t.lists && t.lists[v] == s.lists[v]
    ensures Without(Frm(t), v) == Without(Frm(s), v)
  {
    hide Content, Stale, FrameOf, Slack, Without;
    FrameVictim(s, t, v);
  }

  // ----- a page of eight mapped chunks is copied -----

  ghost predicate PageKeys(live: map<Key, Loc>, src: PageId, keys: seq<Option<Key>>) {
    && |keys| == 8
    && (forall c | 0 <= c < 8 && keys[c].Some? ::
         keys[c].value in live && live[keys[c].value].page == src && live[keys[c].value].slot == c)
    && (forall k | k in live && live[k].page == src && live[k].slot < 8 :: keys[live[k].slot] == Some(k))
  }

  ghost predicate AllFound(keys: seq<Option<Key>>) {
    forall c | 0 <= c < |keys| :: keys[c].Some?
  }

  ghost function CopyStep(s: St, db: nat, src: PageId, keys: seq<Option<Key>>): St
    requires db < |s.rw| && s.rw[db].Open? && db < |s.rwList| && db < |s.fill| && |NamesOf(keys)| == 8
    requires |BufAdds(s.live, src, Pg(db, s.rw[db].lbn, s.rw[db].page), false, 8)| <= 8
  {
    ProgramRw(s, db, BufAdds(s.live, src, Pg(db, s.rw[db].lbn, s.rw[db].page), false, 8),
              PageData(src, s.logBuf, s.owBuf, s.flash), NamesOf(keys), false)
  }

  lemma {:induction false} FoundCount(live: map<Key, Loc>, src: PageId, keys: seq<Option<Key>>, n: nat)
    requires PageKeys(live, src, keys) && n <= 8
    ensures |Named(keys, n)| + Holes(keys, n) == n
    ensures n == 8 ==> (forall k | k in live :: live[k].slot < 8) ==> KeysAt(live, src) == Named(keys, 8)
  {
    NamedCount(keys, n);
    if n == 8 && forall k | k in live :: live[k].slot < 8 {
      forall k | k in KeysAt(live, src) ensures k in Named(keys, 8) {
        assert keys[live[k].slot] == Some(k);
      }
    }
  }

  lemma CopyAdds(live: map<Key, Loc>, role: map<Blk, Role>, src: PageId, dst: PageId, keys: seq<Option<Key>>, db: nat)
    requires PageKeys(live, src, keys) && Inj(live) && src.Pg? && BlkOf(src) in role && role[BlkOf(src)].Victim?
    requires forall k | k in live :: k.idx < 8 && live[k].slot < 8
    ensures |BufAdds(live, src, dst, false, 8)| + Holes(keys, 8) == 8
    ensures AddsOK(live, role, BufAdds(live, src, dst, false, 8), dst, NamesOf(keys), false, db, false)
  {
    hide BufAdds, Holes, Named, KeysAt;
    BufAddsKeys(live, src, dst, false);
    FoundCount(live, src, keys, 8);
    NamesOfAt(keys);
    CopyAddsAt(live, role, src, dst, keys, db);
  }

  lemma CopyAddsAt(live: map<Key, Loc>, role: map<Blk, Role>, src: PageId, dst: PageId, keys: seq<Option<Key>>, db: nat)
    requires PageKeys(live, src, keys) && Inj(live) && src.Pg? && BlkOf(src) in role && role[BlkOf(src)].Victim?
    requires forall k | k in live :: k.idx < 8 && live[k].slot < 8
    requires |NamesOf(keys)| == 8 && forall i | 0 <= i < 8 :: NamesOf(keys)[i] == LpnOf(keys[i])
    requires |BufAdds(live, src, dst, false, 8)| <= 8
    ensures AddsOK(live, role, BufAdds(live, src, dst, false, 8), dst, NamesOf(keys), false, db, false)
  {
    hide NamesOf, RoleWf, Free, PageFree;
    var adds := BufAdds(live, src, dst, false, 8);
    forall k1, k2 | k1 in adds && k2 in adds && adds[k1].page == adds[k2].page && adds[k1].slot == adds[k2].slot
      ensures k1 == k2
    {
      assert live[k1].page == live[k2].page && live[k1].slot == live[k2].slot;
    }
  }

  lemma CopyContent(live: map<Key, Loc>, held: map<Key, Chunk>, logBuf: seq<seq<Chunk>>, owBuf: seq<seq<Chunk>>,
                    flash: map<PageId, Page>, src: PageId, dst: PageId)
    requires live.Keys !! held.Keys && dst.Pg? && (forall k | k in live :: live[k].page != dst && live[k].slot < 8)
    requires |PageData(src, logBuf, owBuf, flash)| == 8
    ensures Content(live + BufAdds(live, src, dst, false, 8), held, logBuf, owBuf,
                    flash[dst := Data(PageData(src, logBuf, owBuf, flash), 1)])
         == Content(live, held, logBuf, owBuf, flash)
  {
    hide Content, PageData;
    var adds := BufAdds(live, src, dst, false, 8);
    assert held - adds.Keys == held;
    ProgramContent(live, held, logBuf, owBuf, flash, adds, dst, PageData(src, logBuf, owBuf, flash));
    MoveContent(live, held, logBuf, owBuf, flash, adds, PageData(src, logBuf, owBuf, flash));
  }

  lemma CopyVMap(live: map<Key, Loc>, src: PageId, dst: PageId, v: Blk)
    requires src.Pg? && BlkOf(src) == v && dst.Pg? && BlkOf(dst) != v
    ensures VMap(live + BufAdds(live, src, dst, false, 8), v) == VMap(live, v) - BufAdds(live, src, dst, false, 8).Keys
  {
  }

  lemma AllFoundHoles(keys: seq<Option<Key>>, n: nat)
    requires AllFound(keys) && n <= |keys|
    ensures Holes(keys, n) == 0
  {
  }

  /** The facts a copy needs about the victim's page. */
  lemma PageFacts(s: St, src: PageId, keys: seq<Option<Key>>)
    requires Inv(s) && PageKeys(s.live, src, keys) && src.Pg? && exists c :: 0 <= c < 8 && keys[c].Some?
    ensures src in s.flash && s.flash[src].Data? && |PageData(src, s.logBuf, s.owBuf, s.flash)| == 8
  {
    var c :| 0 <= c < 8 && keys[c].Some?;
    assert FlashKeyOK(keys[c].value, s.live[keys[c].value], s.flash, s.lists, s.role);
  }

  lemma LiveFacts(s: St)
    requires Inv(s)
    ensures forall k | k in s.live ::
      k !in s.held && k in s.cmap && s.cmap[k] == s.live[k] && k.idx < 8 && s.live[k].slot < 8
    ensures Inj(s.live) && s.live.Keys !! s.held.Keys
  {
  }

  ghost predicate CanCopy(s: St, db: nat, src: PageId, keys: seq<Option<Key>>) {
    && Idle(s) && db < |s.rw| && s.rw[db].Open? && db < |s.rwList| && db < |s.fill|
    && src.Pg? && IsVictim(s.role, BlkOf(src)) && PageKeys(s.live, src, keys) && AllFound(keys)
  }

  lemma CopyInv(s: St, db: nat, src: PageId, keys: seq<Option<Key>>)
    requires CanCopy(s, db, src, keys)
    ensures |NamesOf(keys)| == 8 && |BufAdds(s.live, src, Pg(db, s.rw[db].lbn, s.rw[db].page), false, 8)| == 8
    ensures ProgrammedAt(CopyStep(s, db, src, keys), db)
    ensures BlkOf(src) != Blk(db, s.rw[db].lbn)
  {
    hide Inv, Holes, BufAdds, NamesOf, AddsOK, Inj, PageKeys, AllFound, PageData, WriteNames, Minus;
    PageKeysLen(s.live, src, keys);
    NamesOfAt(keys);
    LiveFacts(s);
    RwFacts(s, db);
    PageFacts(s, src, keys) by { Found0(s.live, src, keys); }
    var dst := Pg(db, s.rw[db].lbn, s.rw[db].page);
    CopyAdds(s.live, s.role, src, dst, keys, db);
    AllFoundHoles(keys, 8);
    ProgramRwInv(s, db, BufAdds(s.live, src, dst, false, 8), PageData(src, s.logBuf, s.owBuf, s.flash), NamesOf(keys),
                 false);
  }

  lemma PageKeysLen(live: map<Key, Loc>, src: PageId, keys: seq<Option<Key>>)
    requires PageKeys(live, src, keys)
    ensures |keys| == 8
  {
  }

  lemma Found0(live: map<Key, Loc>, src: PageId, keys: seq<Option<Key>>)
    requires PageKeys(live, src, keys) && AllFound(keys)
    ensures exists c :: 0 <= c < 8 && keys[c].Some?
  {
    assert keys[0].Some?;
  }

  lemma CopyContentOf(s: St, db: nat, src: PageId, keys: seq<Option<Key>>)
    requires CanCopy(s, db, src, keys) && |NamesOf(keys)| == 8
    requires |BufAdds(s.live, src, Pg(db, s.rw[db].lbn, s.rw[db].page), false, 8)| == 8
    ensures ContentOf(CopyStep(s, db, src, keys)) == ContentOf(s)
    ensures CopyStep(s, db, src, keys).held == s.held
    ensures Stale(CopyStep(s, db, src, keys).cmap, s.held) == Stale(s.cmap, s.held)
  {
    hide Inv, BufAdds, NamesOf, PageKeys, AllFound, PageData, WriteNames, Content, Stale, Minus;
    LiveFacts(s);
    InvFresh(s, db);
    PageFacts(s, src, keys) by { PageKeysLen(s.live, src, keys); Found0(s.live, src, keys); }
    var dst := Pg(db, s.rw[db].lbn, s.rw[db].page);
    var adds := BufAdds(s.live, src, dst, false, 8);
    BufAddsHeld(s, src, dst, false);
    assert s.held - adds.Keys == s.held;
    StaleSame(s.cmap, adds, s.held);
    CopyContent(s.live, s.held, s.logBuf, s.owBuf, s.flash, src, dst);
  }

  lemma CopyFields(s: St, db: nat, src: PageId, keys: seq<Option<Key>>)
    requires db < |s.rw| && s.rw[db].Open? && db < |s.rwList| && db < |s.fill| && |NamesOf(keys)| == 8
    requires |BufAdds(s.live, src, Pg(db, s.rw[db].lbn, s.rw[db].page), false, 8)| <= 8
    ensures var t := CopyStep(s, db, src, keys); var c := s.rw[db]; var blk := Blk(db, c.lbn);
      && t.live == s.live + BufAdds(s.live, src, Pg(db, c.lbn, c.page), false, 8)
      && t.role == s.role[blk := OpenRw(NextRw(c.page, c.sealed), c.sealed)]
      && t.lists == s.lists[blk := WriteNames(s.rwList[db], c.page, NamesOf(keys))]
      && SameOwSide(s, t) && t.oIn == s.oIn && t.banks == s.banks && t.blocks == s.blocks && t.wiped == s.wiped
  {
    hide BufAdds, NamesOf, PageData, WriteNames, Minus;
  }

  lemma CopyVictim(live: map<Key, Loc>, role: map<Blk, Role>, lists: map<Blk, seq<Option<nat>>>, src: PageId,
                   dst: PageId, r: Role, list: seq<Option<nat>>)
    requires src.Pg? && dst.Pg? && IsVictim(role, BlkOf(src)) && BlkOf(src) != BlkOf(dst)
    requires forall k | k in live :: live[k].slot < 8
    ensures VMap(live + BufAdds(live, src, dst, false, 8), BlkOf(src)) == VMap(live, BlkOf(src)) - KeysAt(live, src)
    ensures IsVictim(role[BlkOf(dst) := r], BlkOf(src))
    ensures BlkOf(src) in lists ==>
      BlkOf(src) in lists[BlkOf(dst) := list] && lists[BlkOf(dst) := list][BlkOf(src)] == lists[BlkOf(src)]
  {
    hide BufAdds, VMap, KeysAt;
    BufAddsKeys(live, src, dst, false);
    CopyVMap(live, src, dst, BlkOf(src));
  }

  lemma CopyMoved(s: St, db: nat, src: PageId, keys: seq<Option<Key>>)
    requires CanCopy(s, db, src, keys) && |NamesOf(keys)| == 8
    requires |BufAdds(s.live, src, Pg(db, s.rw[db].lbn, s.rw[db].page), false, 8)| == 8
    requires BlkOf(src) != Blk(db, s.rw[db].lbn)
    ensures var t := CopyStep(s, db, src, keys);
      && Moved(s, t, Frm(t), s.held, Stale(s.cmap, s.held))
      && Without(Frm(t), BlkOf(src)) == Without(Frm(s), BlkOf(src))
      && VMap(t.live, BlkOf(src)) == VMap(s.live, BlkOf(src)) - KeysAt(s.live, src)
      && IsVictim(t.role, BlkOf(src))
      && (BlkOf(src) in s.lists ==> BlkOf(src) in t.lists && t.lists[BlkOf(src)] == s.lists[BlkOf(src)])
  {
    hide Inv, BufAdds, NamesOf, PageKeys, AllFound, Content, FrameOf, Stale, Without, VMap, Slack, KeysAt, CopyStep,
         WriteNames, OwedStay;
    CopyFields(s, db, src, keys);
    VictimNotOwed(s, BlkOf(src));
    AddsStay(s, CopyStep(s, db, src, keys), src, Pg(db, s.rw[db].lbn, s.rw[db].page), false, 8);
    CopyContentOf(s, db, src, keys);
    CopyFrameSlack(s, db, src, keys);
    LiveFacts(s);
    var c := s.rw[db];
    CopyVictim(s.live, s.role, s.lists, src, Pg(db, c.lbn, c.page), OpenRw(NextRw(c.page, c.sealed), c.sealed),
               WriteNames(s.rwList[db], c.page, NamesOf(keys)));
  }

  lemma CopyFrameSlack(s: St, db: nat, src: PageId, keys: seq<Option<Key>>)
    requires Inv(s) && db < |s.rw| && s.rw[db].Open? && db < |s.rwList| && db < |s.fill| && db !in s.pending
      && |NamesOf(keys)| == 8
    requires |BufAdds(s.live, src, Pg(db, s.rw[db].lbn, s.rw[db].page), false, 8)| == 8
    requires src.Pg? && IsVictim(s.role, BlkOf(src)) && BlkOf(src) != Blk(db, s.rw[db].lbn)
    ensures var t := CopyStep(s, db, src, keys);
      Without(Frm(t), BlkOf(src)) == Without(Frm(s), BlkOf(src)) && Slack(t) == Slack(s)
  {
    hide Inv, NamesOf, PageData, WriteNames, FrameOf, Without, BlockSlack, HolesIn, Minus;
    RwFacts(s, db);
    var c := s.rw[db];
    var blk := Blk(db, c.lbn);
    var dst := Pg(db, c.lbn, c.page);
    var r := OpenRw(NextRw(c.page, c.sealed), c.sealed);
    var list := WriteNames(s.rwList[db], c.page, NamesOf(keys));
    var adds := BufAdds(s.live, src, dst, false, 8);
    CopyFrame(s.live, adds, s.role, s.lists, BlkOf(src));
    RoleFrame(s.live + adds, s.role, s.lists, blk, r, list);
    RoleSlack(s.banks, s.blocks, s.wCount, s.oCount, s.role, blk, r);
    MinusZero(s.wCount, blk);
  }

  lemma MinusZero(w: map<Blk, nat>, blk: Blk)
    ensures Minus(w, blk, 0) == w
  {
  }

  // ----- chunks of a victim's page are read into the GC buffer -----

  /** The chunks in `d` leave victim `v`; their only copy is in RAM now. */
  ghost function DetachMany(s: St, d: map<Key, Chunk>): St {
    s.(live := s.live - d.Keys, held := s.held + d)
  }

  lemma ManyMap(cmap: map<Key, Loc>, live: map<Key, Loc>, held: map<Key, Chunk>, d: map<Key, Chunk>)
    requires MapOK(cmap, live, held) && StaleOK(cmap, live, held) && Inj(live) && d.Keys <= live.Keys
    ensures MapOK(cmap, live - d.Keys, held + d) && StaleOK(cmap, live - d.Keys, held + d) && Inj(live - d.Keys)
  {
  }

  lemma ManyDram(m: map<Key, Loc>, meta: seq<seq<Option<Key>>>, fill: seq<nat>, ow: bool, d: set<Key>)
    requires DramOK(m, meta, fill, ow) && forall k | k in d :: k in m && m[k].page.Pg?
    ensures DramOK(m - d, meta, fill, ow)
  {
    forall b, i | 0 <= b < |fill| && b < |meta| && 0 <= i < fill[b] && i < |meta[b]| && meta[b][i].Some?
      ensures meta[b][i].value in m - d
    {
      assert m[meta[b][i].value] == Loc(ow, Buf(ow, b), i);
    }
  }

  lemma ManyKeys(m: map<Key, Loc>, d: set<Key>, v: Blk, blk: Blk)
    requires (forall k | k in d :: k in m && InBlk(m[k].page, v)) && blk != v
    ensures KeysIn(m - d, blk) == KeysIn(m, blk)
  {
  }

  lemma ManyCounts(m: map<Key, Loc>, role: map<Blk, Role>, wCount: map<Blk, nat>, oCount: map<Blk, nat>, debt: Debt,
                   d: set<Key>, v: Blk)
    requires WCounts(m, role, wCount) && OCounts(m, role, oCount, debt) && IsVictim(role, v)
    requires forall k | k in d :: k in m && InBlk(m[k].page, v)
    ensures WCounts(m - d, role, wCount) && OCounts(m - d, role, oCount, debt)
  {
    forall blk | blk in role && blk != v ensures KeysIn(m - d, blk) == KeysIn(m, blk) {
      ManyKeys(m, d, v, blk);
    }
    hide KeysIn;
  }

  lemma ManyFlash(m: map<Key, Loc>, flash: map<PageId, Page>, lists: map<Blk, seq<Option<nat>>>, role: map<Blk, Role>,
                  d: set<Key>)
    requires FlashOK(m, flash, lists, role)
    ensures FlashOK(m - d, flash, lists, role)
  {
  }

  lemma ManyContent(live: map<Key, Loc>, held: map<Key, Chunk>, logBuf: seq<seq<Chunk>>, owBuf: seq<seq<Chunk>>,
                    flash: map<PageId, Page>, d: map<Key, Chunk>)
    requires live.Keys !! held.Keys && d.Keys <= live.Keys
    requires forall k | k in d :: d[k] == Deref(live[k], logBuf, owBuf, flash)
    ensures Content(live - d.Keys, held + d, logBuf, owBuf, flash) == Content(live, held, logBuf, owBuf, flash)
  {
    hide Deref;
  }

  ghost predicate FromVictim(s: St, d: map<Key, Chunk>, v: Blk) {
    forall k | k in d :: k in s.live && InBlk(s.live[k].page, v) && d[k] == Deref(s.live[k], s.logBuf, s.owBuf, s.flash)
  }

  lemma ManyInv(s: St, d: map<Key, Chunk>, v: Blk)
    requires Inv(s) && IsVictim(s.role, v) && FromVictim(s, d, v)
    ensures Inv(DetachMany(s, d)) && ContentOf(DetachMany(s, d)) == ContentOf(s)
  {
    hide BufShape, RoleShape, ListShape, MapOK, StaleOK, DramOK, FlashOK, Inj, WCounts, OCounts, CleanOK, MembersOK,
         RwOK, OwOK, Erased, ListPages, Budget, TraceOK, Content, Deref;
    DisjointHeld(s);
    ManyMap(s.cmap, s.live, s.held, d);
    ManyDram(s.live, s.meta, s.fill, false, d.Keys);
    ManyDram(s.live, s.owMeta, s.owFill, true, d.Keys);
    ManyCounts(s.live, s.role, s.wCount, s.oCount, s.debt, d.Keys, v);
    ManyFlash(s.live, s.flash, s.lists, s.role, d.Keys);
    ManyContent(s.live, s.held, s.logBuf, s.owBuf, s.flash, d);
  }

  lemma ManyFrame(live: map<Key, Loc>, d: set<Key>, role: map<Blk, Role>, lists: map<Blk, seq<Option<nat>>>, v: Blk)
    requires forall k | k in d :: k in live && InBlk(live[k].page, v)
    ensures Without(FrameOf(live - d, role, lists), v) == Without(FrameOf(live, role, lists), v)
    ensures VMap(live - d, v) == VMap(live, v) - d
  {
  }

  lemma ManyMoved(s: St, d: map<Key, Chunk>, v: Blk)
    requires Idle(s) && IsVictim(s.role, v) && FromVictim(s, d, v)
    ensures var t := DetachMany(s, d);
      && Idle(t) && Moved(s, t, Frm(t), s.held + d, Stale(s.cmap, s.held + d))
      && Without(Frm(t), v) == Without(Frm(s), v) && VMap(t.live, v) == VMap(s.live, v) - d.Keys
  {
    hide Inv, Content, FrameOf, Stale, Without, VMap, BlockSlack, HolesIn, Deref;
    ManyInv(s, d, v);
    ManyFrame(s.live, d.Keys, s.role, s.lists, v);
    VictimNotOwed(s, v);
  }

  // ----- the victim is taken and released -----

  /** A full block's heap value is its mapped chunks and what it is owed. */
  lemma VictimCount(s: St, blk: Blk)
    requires Inv(s)
    ensures blk in s.wIn ==>
      blk in s.wCount && s.wCount[blk] == |VMap(s.live, blk)| <= CHUNKS_PER_LOG_BLK && Owed(s.debt, blk) == 0
    ensures blk in s.oIn ==>
      blk in s.oCount && s.oCount[blk] == |VMap(s.live, blk)| + Owed(s.debt, blk) + HIGH_PAGE_CHUNKS
  {
    VMapKeys(s.live, blk);
    VictimCounts(s, blk);
  }

  lemma VictimCounts(s: St, blk: Blk)
    requires Inv(s)
    ensures blk in s.wIn ==>
      blk in s.wCount && s.wCount[blk] == |KeysIn(s.live, blk)| <= CHUNKS_PER_LOG_BLK && Owed(s.debt, blk) == 0
    ensures blk in s.oIn ==>
      blk in s.oCount && s.oCount[blk] == |KeysIn(s.live, blk)| + Owed(s.debt, blk) + HIGH_PAGE_CHUNKS
  {
    hide BufShape, RoleShape, ListShape, MapOK, StaleOK, DramOK, FlashOK, Inj, CleanOK, RwOK, OwOK, Erased, ListPages,
         Budget, TraceOK, KeysIn;
    if blk in s.wIn || blk in s.oIn {
      MemberFacts(s, blk);
    }
  }

  lemma ReadyLess(rw: seq<RwCursor>, wIn: set<Blk>, blk: Blk)
    requires RwReady(rw, wIn)
    ensures RwReady(rw, wIn - {blk})
  {
  }

  lemma TakeRwMoved(s: St, blk: Blk)
    requires Idle(s) && blk in s.wIn
    ensures var t := TakeRw(s, blk);
      && Idle(t) && Moved(s, t, Frm(t), s.held, Stale(s.cmap, s.held)) && Without(Frm(t), blk) == Frm(s)
      && IsVictim(t.role, blk) && t.live == s.live && t.lists == s.lists
      && blk in s.wCount && Slack(t) == Slack(s) - (1016 - s.wCount[blk]) && s.wCount[blk] <= 1016
  {
    hide Inv, Content, FrameOf, Stale, Without, BlockSlack, HolesIn, RwReady;
    MemberFacts(s, blk);
    BlkInRange(s, blk);
    TakeRwInv(s, blk);
    ReadyLess(s.rw, s.wIn, blk);
    TakeFrame(s.live, s.role, s.lists, blk, Victim(false));
    TakeRwSlack(s.banks, s.blocks, s.wCount, s.oCount, s.role, blk);
  }

  lemma TakeOwMoved(s: St, blk: Blk)
    requires Idle(s) && blk in s.oIn && Owed(s.debt, blk) == 0
    ensures var t := TakeOw(s, blk);
      && Idle(t) && Moved(s, t, Frm(t), s.held, Stale(s.cmap, s.held)) && Without(Frm(t), blk) == Frm(s)
      && IsVictim(t.role, blk) && t.live == s.live && t.lists == s.lists
      && Slack(t) + 8 <= Slack(s)
  {
    hide Inv, Content, FrameOf, Stale, Without, BlockSlack, HolesIn, RwReady;
    MemberFacts(s, blk);
    BlkInRange(s, blk);
    OwCounts(s, blk);
    TakeOwInv(s, blk);
    TakeFrame(s.live, s.role, s.lists, blk, Victim(true));
    TakeOwSlack(s.banks, s.blocks, s.wCount, s.oCount, s.role, blk);
  }

  lemma EmptyVMap(live: map<Key, Loc>, v: Blk)
    requires VMap(live, v) == map[]
    ensures KeysIn(live, v) == {}
  {
    VMapKeys(live, v);
  }

  lemma ReleaseInvMoved(s: St, v: Blk)
    requires Inv(s) && IsVictim(s.role, v) && VMap(s.live, v) == map[] && v.bank < |s.clean|
    ensures var t := Release(s, v);
      && Inv(t) && Moved(s, t, Frm(t), s.held, Stale(s.cmap, s.held)) && Frm(t) == Without(Frm(s), v)
  {
    hide Inv, Content, FrameOf, Stale, Without, BlockSlack, HolesIn, VMap, KeysIn;
    EmptyVMap(s.live, v);
    ReleaseInv(s, v);
    ReleaseFrame(s.live, s.role, s.lists, v);
    RoleSlack(s.banks, s.blocks, s.wCount, s.oCount, s.role, v, Clean);
  }

  // ----- bookkeeping between the steps -----

  /** `PageKeys` only looks at the victim's own chunks. */
  lemma PageKeysSame(live: map<Key, Loc>, live': map<Key, Loc>, src: PageId, keys: seq<Option<Key>>)
    requires PageKeys(live, src, keys) && src.Pg? && VMap(live', BlkOf(src)) == VMap(live, BlkOf(src))
    ensures PageKeys(live', src, keys) && KeysAt(live', src) == KeysAt(live, src)
  {
    var v := BlkOf(src);
    forall k ensures k in live && live[k].page == src <==> k in live' && live'[k].page == src {
      assert k in VMap(live, v) <==> k in VMap(live', v);
      if k in VMap(live, v) {
        assert VMap(live, v)[k] == VMap(live', v)[k];
      }
    }
    forall k | k in live && live[k].page == src ensures live'[k] == live[k] {
      assert VMap(live, v)[k] == VMap(live', v)[k];
    }
  }

  /** The data of the chunks found on a page, as read into the GC buffer. */
  ghost function PageCopy(live: map<Key, Loc>, src: PageId, buf: seq<Chunk>): map<Key, Chunk>
    requires |buf| == 8
  {
    map k | k in live && live[k].page == src && live[k].slot < 8 :: buf[live[k].slot]
  }

  lemma PageCopyFrom(s: St, src: PageId, buf: seq<Chunk>)
    requires src.Pg? && src in s.flash && s.flash[src].Data? && buf == s.flash[src].chunks && |buf| == 8
    ensures FromVictim(s, PageCopy(s.live, src, buf), BlkOf(src))
  {
  }

  lemma PageCopyKeys(live: map<Key, Loc>, src: PageId, keys: seq<Option<Key>>, buf: seq<Chunk>)
    requires PageKeys(live, src, keys) && |buf| == 8 && forall k | k in live :: k.idx < 8 && live[k].slot < 8
    ensures PageCopy(live, src, buf).Keys == Named(keys, 8) == KeysAt(live, src) && KeysAt(live, src) <= live.Keys
    ensures forall c | 0 <= c < 8 && keys[c].Some? ::
      keys[c].value in PageCopy(live, src, buf) && PageCopy(live, src, buf)[keys[c].value] == buf[c]
        && keys[c].value.idx < 8
    ensures forall i, j | 0 <= i < j < 8 && keys[i].Some? :: keys[i] != keys[j]
  {
    FoundCount(live, src, keys, 8);
    assert PageCopy(live, src, buf).Keys == KeysAt(live, src);
  }

  lemma PageCopyFacts(s: St, src: PageId, keys: seq<Option<Key>>, buf: seq<Chunk>)
    requires Inv(s) && PageKeys(s.live, src, keys) && src.Pg? && src in s.flash && s.flash[src].Data?
      && buf == s.flash[src].chunks && |buf| == 8
    ensures FromVictim(s, PageCopy(s.live, src, buf), BlkOf(src)) && |keys| == 8
    ensures PageCopy(s.live, src, buf).Keys == Named(keys, 8) == KeysAt(s.live, src)
    ensures forall c | 0 <= c < 8 && keys[c].Some? ::
      keys[c].value in PageCopy(s.live, src, buf) && PageCopy(s.live, src, buf)[keys[c].value] == buf[c]
        && keys[c].value.idx < 8
    ensures forall i, j | 0 <= i < j < 8 && keys[i].Some? :: keys[i] != keys[j]
    ensures PageCopy(s.live, src, buf).Keys !! s.held.Keys
  {
    hide Inv, Inj, FromVictim, PageKeys, PageCopy, Named, KeysAt;
    PageKeysLen(s.live, src, keys);
    LiveFacts(s);
    PageCopyFrom(s, src, buf);
    PageCopyKeys(s.live, src, keys, buf);
  }

  lemma HeldBack(held: map<Key, Chunk>, d: map<Key, Chunk>, cmap: map<Key, Loc>)
    requires held.Keys !! d.Keys
    ensures held + d - d.Keys == held
    ensures Stale(cmap, held + d) - d.Keys == Stale(cmap, held)
  {
  }

  /** What is found on one page is what the victim loses with it. */
  lemma PageLeaves(live: map<Key, Loc>, src: PageId, keys: seq<Option<Key>>, v: Blk)
    requires PageKeys(live, src, keys) && src.Pg? && BlkOf(src) == v && forall k | k in live :: live[k].slot < 8
    ensures KeysAt(live, src) <= VMap(live, v).Keys
    ensures |KeysAt(live, src)| + Holes(keys, 8) == 8
    ensures |VMap(live, v) - KeysAt(live, src)| == |VMap(live, v)| - |KeysAt(live, src)|
  {
    FoundCount(live, src, keys, 8);
    var m := VMap(live, v);
    assert (m - KeysAt(live, src)).Keys == m.Keys - KeysAt(live, src);
    assert |m.Keys| == |m| && |(m - KeysAt(live, src)).Keys| == |m - KeysAt(live, src)|;
  }

  lemma NothingLeft<K, V>(m: map<K, V>)
    requires |m| == 0
    ensures m == map[]
  {
    assert |m.Keys| == 0;
  }

  // ----- the search for mapped chunks -----

  /** The table says that chunk `k` is in slot `slot` of the page; the overwrite bit does not matter. */
  predicate Placed(cmap: map<Key, Loc>, k: Key, v: Blk, page: nat, slot: nat) {
    k in cmap && cmap[k].page == ListPage(v, page) && cmap[k].slot == slot
  }

  /** The first chunk of page `lpn`, from chunk `i` on, that the table places in the slot. */
  function FirstPlaced(cmap: map<Key, Loc>, lpn: nat, v: Blk, page: nat, slot: nat, i: nat): Option<Key>
    decreases 8 - i
  {
    if i >= 8 then None
    else if Placed(cmap, Key(lpn, i), v, page, slot) then Some(Key(lpn, i))
    else FirstPlaced(cmap, lpn, v, page, slot, i + 1)
  }

  /** What the collector takes for the mapped chunk of a slot whose list entry is `name`. */
  function SearchSlot(cmap: map<Key, Loc>, name: Option<nat>, v: Blk, page: nat, slot: nat): Option<Key> {
    if name.None? then None else FirstPlaced(cmap, name.value, v, page, slot, 0)
  }

  function SearchPage(cmap: map<Key, Loc>, list: seq<Option<nat>>, v: Blk, page: nat): (r: seq<Option<Key>>)
    requires page * 8 + 8 <= |list|
    ensures |r| == 8
  {
    seq(8, c requires 0 <= c < 8 => SearchSlot(cmap, list[page * 8 + c], v, page, c))
  }

  lemma {:induction false} FirstPlacedAt(cmap: map<Key, Loc>, lpn: nat, v: Blk, page: nat, slot: nat, i: nat)
    ensures var r := FirstPlaced(cmap, lpn, v, page, slot, i);
      && (r.Some? ==> r.value.lpn == lpn && i <= r.value.idx < 8 && Placed(cmap, r.value, v, page, slot))
      && (forall j | i <= j < 8 && Placed(cmap, Key(lpn, j), v, page, slot) :: r.Some? && r.value.idx <= j)
    decreases 8 - i
  {
    if i < 8 {
      FirstPlacedAt(cmap, lpn, v, page, slot, i + 1);
    }
  }

  /** `r` is the mapped chunk of the slot, or None if there is none. */
  ghost predicate IsOwner(live: map<Key, Loc>, v: Blk, page: nat, slot: nat, r: Option<Key>) {
    && (r.Some? ==> r.value in live)
    && (forall k | k in live && Placed(live, k, v, page, slot) :: r == Some(k))
  }

  /** A chunk that is only in RAM still has an entry in the slot, the slot's list entry names its page,
      and it comes before the slot's mapped chunk, if there is one. */
  ghost predicate StaleFirst(s: St, name: Option<nat>, v: Blk, page: nat, slot: nat) {
    exists h :: h in s.held && h.idx < 8 && Placed(s.cmap, h, v, page, slot) && name == Some(h.lpn)
      && forall k | k in s.live && Placed(s.live, k, v, page, slot) :: h.idx < k.idx
  }

  lemma SlotFacts(s: St, v: Blk, page: nat, slot: nat)
    requires Inv(s) && v in s.lists && page <= 126 && slot < 8
    ensures |s.lists[v]| == CHUNKS_PER_BLK && s.live.Keys !! s.held.Keys
    ensures forall k | k in s.cmap :: k in s.live || k in s.held
    ensures forall k | k in s.live ::
      k.idx < 8 && (Placed(s.live, k, v, page, slot) <==> Placed(s.cmap, k, v, page, slot))
    ensures forall k | k in s.live && Placed(s.live, k, v, page, slot) :: s.lists[v][page * 8 + slot] == Some(k.lpn)
    ensures forall k, j |
      k in s.live && j in s.live && Placed(s.live, k, v, page, slot) && Placed(s.live, j, v, page, slot) :: k == j
  {
    hide Inv, Inj;
    LiveFacts(s);
    TableKeys(s);
    PlacedOnce(s.live, v, page, slot);
    SlotListed(s, v);
  }

  lemma TableKeys(s: St)
    requires Inv(s)
    ensures forall k | k in s.cmap :: k in s.live || k in s.held
  {
  }

  lemma PlacedOnce(live: map<Key, Loc>, v: Blk, page: nat, slot: nat)
    requires Inj(live)
    ensures forall k, j | k in live && j in live && Placed(live, k, v, page, slot) && Placed(live, j, v, page, slot) ::
      k == j
  {
    forall k, j | k in live && j in live && Placed(live, k, v, page, slot) && Placed(live, j, v, page, slot)
      ensures k == j
    {
      assert live[k].page == live[j].page && live[k].slot == live[j].slot;
    }
  }

  /** Every mapped chunk of a block is named by the block's LPN list. */
  lemma SlotListed(s: St, v: Blk)
    requires Inv(s) && v in s.lists
    ensures |s.lists[v]| == CHUNKS_PER_BLK
    ensures forall k | k in s.live && InBlk(s.live[k].page, v) ::
      s.live[k].page.page <= 126 && s.lists[v][s.live[k].page.page * 8 + s.live[k].slot] == Some(k.lpn)
  {
    hide BufShape, RoleShape, StaleOK, DramOK, Inj, WCounts, OCounts, CleanOK, MembersOK, RwOK, OwOK, Erased, ListPages,
         Budget, TraceOK;
    forall k | k in s.live && InBlk(s.live[k].page, v)
      ensures s.live[k].page.page <= 126 && s.lists[v][s.live[k].page.page * 8 + s.live[k].slot] == Some(k.lpn)
    {
      assert FlashKeyOK(k, s.live[k], s.flash, s.lists, s.role);
    }
  }

  /** The search of a slot is right unless a stale entry comes first: exactly then. */
  lemma SearchRightIff(s: St, v: Blk, page: nat, slot: nat)
    requires Inv(s) && v in s.lists && page <= 126 && slot < 8
    ensures |s.lists[v]| == CHUNKS_PER_BLK
    ensures var name := s.lists[v][page * 8 + slot];
      IsOwner(s.live, v, page, slot, SearchSlot(s.cmap, name, v, page, slot)) <==> !StaleFirst(s, name, v, page, slot)
  {
    hide Inv, Placed, FirstPlaced;
    SlotFacts(s, v, page, slot);
    var name := s.lists[v][page * 8 + slot];
    var r := SearchSlot(s.cmap, name, v, page, slot);
    if name.Some? {
      FirstPlacedAt(s.cmap, name.value, v, page, slot, 0);
      PlacedKey(s.cmap, v, page, slot);
      if StaleFirst(s, name, v, page, slot) {
        StaleWins(s, name.value, v, page, slot, r);
      } else {
        OwnerWins(s, name.value, v, page, slot, r);
      }
    }
  }

  /** What `FirstPlacedAt` tells about the search of a slot. */
  ghost predicate FirstIs(cmap: map<Key, Loc>, lpn: nat, v: Blk, page: nat, slot: nat, r: Option<Key>) {
    && (r.Some? ==> r.value.lpn == lpn && r.value.idx < 8 && Placed(cmap, r.value, v, page, slot))
    && (forall j | 0 <= j < 8 && Placed(cmap, Key(lpn, j), v, page, slot) :: r.Some? && r.value.idx <= j)
  }

  lemma StaleWins(s: St, lpn: nat, v: Blk, page: nat, slot: nat, r: Option<Key>)
    requires Inv(s) && v in s.lists && page <= 126 && slot < 8
    requires FirstIs(s.cmap, lpn, v, page, slot, r) && StaleFirst(s, Some(lpn), v, page, slot)
    ensures !IsOwner(s.live, v, page, slot, r)
  {
    hide Inv, Placed;
    SlotFacts(s, v, page, slot);
    var h :| h in s.held && h.idx < 8 && Placed(s.cmap, h, v, page, slot) && Some(lpn) == Some(h.lpn)
      && forall k | k in s.live && Placed(s.live, k, v, page, slot) :: h.idx < k.idx;
    assert h == Key(lpn, h.idx);
  }

  lemma OwnerWins(s: St, lpn: nat, v: Blk, page: nat, slot: nat, r: Option<Key>)
    requires Inv(s) && v in s.lists && page <= 126 && slot < 8 && |s.lists[v]| == CHUNKS_PER_BLK
      && s.lists[v][page * 8 + slot] == Some(lpn)
    requires FirstIs(s.cmap, lpn, v, page, slot, r) && !StaleFirst(s, Some(lpn), v, page, slot)
    ensures IsOwner(s.live, v, page, slot, r)
  {
    hide Inv, Placed;
    SlotFacts(s, v, page, slot);
    PlacedKey(s.cmap, v, page, slot);
    forall k | k in s.live && Placed(s.live, k, v, page, slot)
      ensures k == Key(lpn, k.idx) && r.Some? && r.value.idx <= k.idx
    {
      assert Placed(s.cmap, k, v, page, slot);
    }
  }

  lemma PlacedKey(cmap: map<Key, Loc>, v: Blk, page: nat, slot: nat)
    ensures forall k | Placed(cmap, k, v, page, slot) :: k in cmap
  {
  }

  /** Without stale entries in the block the search of a page finds exactly its mapped chunks. */
  lemma SearchFinds(s: St, v: Blk, page: nat)
    requires Inv(s) && v in s.lists && page <= 126 && NoStaleIn(s.cmap, s.held, v)
    ensures |s.lists[v]| == CHUNKS_PER_BLK
      && PageKeys(s.live, ListPage(v, page), SearchPage(s.cmap, s.lists[v], v, page))
  {
    hide Inv, FirstPlaced, SearchSlot;
    SlotFacts(s, v, page, 0);
    var keys := SearchPage(s.cmap, s.lists[v], v, page);
    forall c | 0 <= c < 8
      ensures keys[c].Some? ==>
        keys[c].value in s.live && s.live[keys[c].value].page == ListPage(v, page) && s.live[keys[c].value].slot == c
      ensures forall k | k in s.live && s.live[k].page == ListPage(v, page) && s.live[k].slot == c :: keys[c] == Some(k)
    {
      SearchRightIff(s, v, page, c);
      SlotFacts(s, v, page, c);
      SearchPlaced(s.cmap, s.lists[v][page * 8 + c], v, page, c);
      assert !StaleFirst(s, s.lists[v][page * 8 + c], v, page, c);
    }
  }

  lemma SearchPlaced(cmap: map<Key, Loc>, name: Option<nat>, v: Blk, page: nat, slot: nat)
    ensures var r := SearchSlot(cmap, name, v, page, slot); r.Some? ==> Placed(cmap, r.value, v, page, slot)
  {
    if name.Some? {
      FirstPlacedAt(cmap, name.value, v, page, slot, 0);
    }
  }
}
