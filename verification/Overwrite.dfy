/** overwrite.c: host writes with the overwrite bit set. */
module Overwrite {
  import opened Base
  import opened Nand
  import opened State
  import opened Steps
  import opened FtlTables
  import opened ChunkMoves
  import opened PageMoves
  import opened BlockMoves
  import opened VictimFrame
  import opened Internal
  import opened Log
  import opened Write
  import opened OwLog
  import opened Room
  import opened Victims
  import opened Endurance

  // ----- the flat device with overwrites -----

  /** `c'` is `c` with the sectors from `lba` on ANDed with `data`, and nothing else changed. */
  ghost predicate Burned(c: map<Key, Chunk>, c': map<Key, Chunk>, lba: nat, data: seq<Sector>) {
    forall x: nat ::
      SectorAt(c', x) == if lba <= x < lba + |data| then AndSector(SectorAt(c, x), data[x - lba]) else SectorAt(c, x)
  }

  /** Each sector from `lba` on was replaced by the host's or ANDed with it, and nothing else changed. */
  ghost predicate Overwrote(c: map<Key, Chunk>, c': map<Key, Chunk>, lba: nat, data: seq<Sector>) {
    forall x: nat ::
      if lba <= x < lba + |data| then SectorAt(c', x) == data[x - lba] || SectorAt(c', x) == AndSector(SectorAt(c, x),
          data[x - lba])
      else SectorAt(c', x) == SectorAt(c, x)
  }

  /** The host clears bits only. */
  ghost predicate OnlyClears(c: map<Key, Chunk>, lba: nat, data: seq<Sector>) {
    forall i | 0 <= i < |data| :: AndSector(SectorAt(c, lba + i), data[i]) == data[i]
  }

  lemma AndBlank(d: Sector)
    ensures AndSector(BlankSector(), d) == d && AndSector(d, d) == d
  {
    forall i | 0 <= i < 512 ensures AndSector(BlankSector(), d)[i] == d[i] {
      assert BlankSector()[i] == 0xFF;
    }
  }

  /** Sectors never written, or written before with the same data, can take any overwrite. */
  lemma FreshRangeClears(c: map<Key, Chunk>, lba: nat, data: seq<Sector>)
    requires forall i | 0 <= i < |data| :: SectorAt(c, lba + i) == BlankSector() || SectorAt(c, lba + i) == data[i]
    ensures OnlyClears(c, lba, data)
  {
    hide AndSector, BlankSector, SectorAt;
    forall i | 0 <= i < |data| ensures AndSector(SectorAt(c, lba + i), data[i]) == data[i] {
      AndBlank(data[i]);
    }
  }

  lemma EitherOverwrote(c: map<Key, Chunk>, c': map<Key, Chunk>, lba: nat, data: seq<Sector>)
    requires Wrote(c, c', lba, data) || Burned(c, c', lba, data)
    ensures Overwrote(c, c', lba, data)
  {
    hide SectorAt, AndSector;
  }

  lemma OverwroteThen(c: map<Key, Chunk>, c1: map<Key, Chunk>, c2: map<Key, Chunk>, lba: nat, d1: seq<Sector>,
                      d2: seq<Sector>)
    requires Overwrote(c, c1, lba, d1) && Overwrote(c1, c2, lba + |d1|, d2)
    ensures Overwrote(c, c2, lba, d1 + d2)
  {
    hide SectorAt, AndSector;
  }

  /** If the host clears bits only, replacing and ANDing are the same device. */
  lemma ClearingIsExact(c: map<Key, Chunk>, c': map<Key, Chunk>, lba: nat, data: seq<Sector>)
    requires Overwrote(c, c', lba, data) && OnlyClears(c, lba, data)
    ensures Wrote(c, c', lba, data) && Burned(c, c', lba, data)
  {
    hide SectorAt, AndSector;
    forall x: nat | lba <= x < lba + |data|
      ensures SectorAt(c', x) == data[x - lba] == AndSector(SectorAt(c, x), data[x - lba])
    {
      assert x == lba + (x - lba);
    }
  }

  /** Exactly then: a replaced and an ANDed range agree if and only if the host clears bits only. */
  lemma AgreeIffOnlyClears(c: map<Key, Chunk>, replaced: map<Key, Chunk>, anded: map<Key, Chunk>, lba: nat,
                           data: seq<Sector>)
    requires Wrote(c, replaced, lba, data) && Burned(c, anded, lba, data)
    ensures (forall x: nat :: SectorAt(replaced, x) == SectorAt(anded, x)) <==> OnlyClears(c, lba, data)
  {
    hide SectorAt, AndSector;
    if forall x: nat :: SectorAt(replaced, x) == SectorAt(anded, x) {
      forall i | 0 <= i < |data| ensures AndSector(SectorAt(c, lba + i), data[i]) == data[i] {
        assert SectorAt(replaced, lba + i) == SectorAt(anded, lba + i);
      }
    } else {
      var x: nat :| SectorAt(replaced, x) != SectorAt(anded, x);
      assert lba <= x < lba + |data| && x == lba + (x - lba);
    }
  }

  // ----- programming a page that is already programmed -----

  /** One chunk of a page, `base` sectors into it, when the page is programmed with `data` from sector `at` on. */
  function BurnRow(c: Chunk, base: nat, at: nat, data: seq<Sector>): Chunk {
    seq(8, j requires 0 <= j < 8 => if at <= base + j < at + |data| then AndSector(c[j], data[base + j - at]) else c[j])
  }

  function BurnPage(chunks: seq<Chunk>, at: nat, data: seq<Sector>): (r: seq<Chunk>)
    requires |chunks| == 8
    ensures |r| == 8
  {
    seq(8, i requires 0 <= i < 8 => BurnRow(chunks[i], 8 * i, at, data))
  }

  lemma BurnAt(chunks: seq<Chunk>, at: nat, data: seq<Sector>, i: nat, j: nat)
    requires |chunks| == 8 && i < 8 && j < 8
    ensures BurnPage(chunks, at, data)[i][j]
      == if at <= 8 * i + j < at + |data| then AndSector(chunks[i][j], data[8 * i + j - at]) else chunks[i][j]
  {
    hide AndSector;
  }

  ghost function Rewritten(c: map<Key, Chunk>, live: map<Key, Loc>, pg: PageId, data: seq<Chunk>): map<Key, Chunk> {
    map k | k in c :: if k in live && live[k].page == pg && live[k].slot < |data| then data[live[k].slot] else c[k]
  }

  lemma PatchDeref(loc: Loc, logBuf: seq<seq<Chunk>>, owBuf: seq<seq<Chunk>>, flash: map<PageId, Page>, pg: PageId,
                   data: seq<Chunk>, n: nat)
    requires pg.Pg? && loc.slot < |data|
    ensures Deref(loc, logBuf, owBuf, flash[pg := Data(data, n)])
      == if loc.page == pg then data[loc.slot] else Deref(loc, logBuf, owBuf, flash)
  {
  }

  lemma PatchContent(live: map<Key, Loc>, held: map<Key, Chunk>, logBuf: seq<seq<Chunk>>, owBuf: seq<seq<Chunk>>,
                     flash: map<PageId, Page>, pg: PageId, data: seq<Chunk>, n: nat)
    requires held == map[] && pg.Pg? && |data| == 8 && forall k | k in live :: live[k].slot < 8
    ensures Content(live, held, logBuf, owBuf, flash[pg := Data(data, n)])
      == Rewritten(Content(live, held, logBuf, owBuf, flash), live, pg, data)
  {
    hide Deref, Content;
    var c, c' := Content(live, held, logBuf, owBuf, flash), Content(live, held, logBuf, owBuf,
                                                                    flash[pg := Data(data, n)]);
    ContentKeys(live, held, logBuf, owBuf, flash);
    ContentKeys(live, held, logBuf, owBuf, flash[pg := Data(data, n)]);
    forall k | k in c' ensures c'[k] == Rewritten(c, live, pg, data)[k] {
      ContentAt(live, held, logBuf, owBuf, flash, k);
      ContentAt(live, held, logBuf, owBuf, flash[pg := Data(data, n)], k);
      PatchDeref(live[k], logBuf, owBuf, flash, pg, data, n);
    }
  }

  function KeyOf(x: nat): Key {
    Key(x / 64, x % 64 / 8)
  }

  /** The `n` sectors of the device from `lba` on are those of page `pg` from `at` on. */
  ghost predicate Aligned(live: map<Key, Loc>, pg: PageId, at: nat, n: nat, lba: nat) {
    forall x: nat | lba <= x < lba + n ::
      KeyOf(x) in live && live[KeyOf(x)].page == pg && live[KeyOf(x)].slot * 8 + x % 8 == at + x - lba
  }

  ghost predicate PageHolds(c: map<Key, Chunk>, live: map<Key, Loc>, pg: PageId, chunks: seq<Chunk>) {
    && (forall k | k in live :: k.idx < 8 && live[k].slot < 8)
    && (forall k | k in live :: k in c)
    && (forall k | k in live && live[k].page == pg && live[k].slot < |chunks| :: c[k] == chunks[live[k].slot])
  }

  lemma OutsideRange(live: map<Key, Loc>, pg: PageId, at: nat, n: nat, lba: nat, x: nat)
    requires Aligned(live, pg, at, n, lba) && Inj(live) && KeyOf(x) in live && live[KeyOf(x)].page == pg
      && live[KeyOf(x)].slot < 8
    requires forall k | k in live :: k.idx < 8 && live[k].slot < 8
    requires !(lba <= x < lba + n)
    ensures !(at <= 8 * live[KeyOf(x)].slot + x % 8 < at + n)
  {
    var k := KeyOf(x);
    var p := 8 * live[k].slot + x % 8;
    if at <= p < at + n {
      var y := lba + p - at;
      var j := KeyOf(y);
      assert j in live && live[j].page == pg && live[j].slot * 8 + y % 8 == p;
      assert live[j].slot == live[k].slot && y % 8 == x % 8;
      assert j == k;
      SplitSector(x);
      SplitSector(y);
      assert false;
    }
  }

  lemma SplitSector(x: nat)
    ensures x == KeyOf(x).lpn * 64 + KeyOf(x).idx * 8 + x % 8 && KeyOf(x).idx < 8
  {
  }

  /** A partial program hits exactly the sectors asked for. */
  lemma PatchBurned(c: map<Key, Chunk>, live: map<Key, Loc>, pg: PageId, chunks: seq<Chunk>, at: nat, data: seq<Sector>,
                    lba: nat)
    requires |chunks| == 8 && Aligned(live, pg, at, |data|, lba) && Inj(live) && PageHolds(c, live, pg, chunks)
    ensures Burned(c, Rewritten(c, live, pg, BurnPage(chunks, at, data)), lba, data)
  {
    hide Inj, AndSector, BurnPage, Aligned;
    var c' := Rewritten(c, live, pg, BurnPage(chunks, at, data));
    forall x: nat
      ensures SectorAt(c', x)
        == if lba <= x < lba + |data| then AndSector(SectorAt(c, x), data[x - lba]) else SectorAt(c, x)
    {
      var k := KeyOf(x);
      AlignedAt(live, pg, at, |data|, lba, x);
      if k in live && live[k].page == pg {
        BurnAt(chunks, at, data, live[k].slot, x % 8);
        if !(lba <= x < lba + |data|) {
          OutsideRange(live, pg, at, |data|, lba, x);
        }
      }
    }
  }

  lemma AlignedAt(live: map<Key, Loc>, pg: PageId, at: nat, n: nat, lba: nat, x: nat)
    requires Aligned(live, pg, at, n, lba)
    ensures lba <= x < lba + n ==>
      KeyOf(x) in live && live[KeyOf(x)].page == pg && live[KeyOf(x)].slot * 8 + x % 8 == at + x - lba
  {
  }

  // ----- in place, in flash -----

  /** Where overwrites in place happen: a low page of an overwrite block, within its counter. */
  lemma LowLive(s: St, k: Key)
    requires Inv(s) && VRoles(s.role) == map[] && k in s.live && s.live[k].page.Pg? && s.live[k].ow
    ensures var pg := s.live[k].page; var blk := BlkOf(pg);
      && pg in s.flash && s.flash[pg].Data? && |s.flash[pg].chunks| == 8 && blk in s.role && CountedOw(s.role[blk])
      && LowPage(pg.page)
      && blk in s.owCnt && |s.owCnt[blk]| == PAGES_PER_BLK && CounterOf(pg.page) < PAGES_PER_BLK
  {
    var pg := s.live[k].page;
    assert FlashKeyOK(k, s.live[k], s.flash, s.lists, s.role);
    NoVictim(s.role, BlkOf(pg));
    hide BufShape, RoleShape, MapOK, StaleOK, DramOK, FlashOK, Inj, WCounts, OCounts, CleanOK, MembersOK, RwOK, OwOK;
    ProgrammedLow(s.flash, s.lists, s.role, pg);
  }

  lemma ProgrammedLow(flash: map<PageId, Page>, lists: map<Blk, seq<Option<nat>>>, role: map<Blk, Role>, pg: PageId)
    requires Erased(flash, role) && ListPages(flash, lists, role) && lists.Keys == role.Keys
    requires pg.Pg? && pg in flash && flash[pg].Data? && pg.page <= 126 && BlkOf(pg) in role
      && CountedOw(role[BlkOf(pg)]) && RoleWf(role[BlkOf(pg)])
    ensures LowPage(pg.page)
  {
    assert !PageFree(role[BlkOf(pg)], pg.page);
    assert role[BlkOf(pg)].FullOw? ==> flash[ListPage(BlkOf(pg), 125)].List?;
  }

  /** nand_page_ptprogram on a programmed page, and increaseOwCounter. */
  method ProgramInPlace(f: Ftl, pg: PageId, at: nat, data: seq<Sector>)
    requires pg.Pg? && pg.page <= 123 && pg in f.t.flash && f.t.flash[pg].Data? && |f.t.flash[pg].chunks| == 8
    requires BlkOf(pg) in f.t.owCounters && |f.t.owCounters[BlkOf(pg)]| == PAGES_PER_BLK
    modifies f`t, f`g
    ensures f.View() == PatchPage(old(f.View()), pg, BurnPage(old(f.t.flash[pg].chunks), at, data))
    ensures SameCursorsOw(old(f.t), f.t)
  {
    hide BurnPage, BumpCounter;
    f.t := f.t.(flash := f.t.flash[pg := Data(BurnPage(f.t.flash[pg].chunks, at, data), f.t.flash[pg].programs + 1)]);
    IncreaseOwCounter(f, BlkOf(pg), pg.page);
    f.g := f.g.(trace := Then(f.g.trace, Program(pg, OwData)));
  }

  lemma HeldPageData(s: St, pg: PageId)
    requires Inv(s) && s.held == map[] && pg.Pg? && pg in s.flash && s.flash[pg].Data?
    ensures PageHolds(ContentOf(s), s.live, pg, s.flash[pg].chunks) && Inj(s.live)
  {
    hide Inv, Content;
    LiveShape(s);
    ContentKeys(s.live, s.held, s.logBuf, s.owBuf, s.flash);
    forall k | k in s.live && s.live[k].page == pg && s.live[k].slot < |s.flash[pg].chunks|
      ensures ContentOf(s)[k] == s.flash[pg].chunks[s.live[k].slot]
    {
      OldData(s, k);
    }
  }

  lemma LiveShape(s: St)
    requires Inv(s)
    ensures (forall k | k in s.live :: k.idx < 8 && s.live[k].slot < 8) && Inj(s.live)
  {
  }

  lemma PatchSettled(s: St, pg: PageId, data: seq<Chunk>)
    requires Settled(s) && pg.Pg? && pg in s.flash && s.flash[pg].Data? && BlkOf(pg) in s.role
      && CountedOw(s.role[BlkOf(pg)]) && LowPage(pg.page) && |data| == 8
    requires BlkOf(pg) in s.owCnt && CounterOf(pg.page) < |s.owCnt[BlkOf(pg)]|
      && s.owCnt[BlkOf(pg)][CounterOf(pg.page)] < OW_LIMIT
    ensures Settled(PatchPage(s, pg, data))
    ensures ContentOf(PatchPage(s, pg, data)) == Rewritten(ContentOf(s), s.live, pg, data)
  {
    hide Inv, Content, FillsBut, RwReady, VRoles, BumpCounter, Programs, LowPage, CountedOw;
    PatchPageInv(s, pg, data);
    LiveShape(s);
    PatchContent(s.live, s.held, s.logBuf, s.owBuf, s.flash, pg, data, Programs(s.flash, pg) + 1);
  }

  method ReadOwCounter(f: Ftl, blk: Blk, page: nat) returns (n: nat)
    requires blk in f.t.owCounters && CounterOf(page) < |f.t.owCounters[blk]|
    ensures n == f.t.owCounters[blk][CounterOf(page)]
  {
    n := f.t.owCounters[blk][CounterOf(page)];
  }

  /** Chunk `k` and the chunks beside it are programmed in place: `data` is ANDed into the device. */
  method BurnInPlace(f: Ftl, ghost k: Key, pg: PageId, at: nat, data: seq<Sector>, ghost lba: nat)
    requires Ready(f) && k in f.g.live && f.g.live[k].page == pg && pg.Pg? && f.g.live[k].ow
    requires BlkOf(pg) in f.t.owCounters && CounterOf(pg.page) < |f.t.owCounters[BlkOf(pg)]|
      && f.t.owCounters[BlkOf(pg)][CounterOf(pg.page)] < OW_LIMIT
    requires Aligned(f.g.live, pg, at, |data|, lba)
    modifies f`t, f`g
    ensures Ready(f) && Burned(ContentOf(old(f.View())), ContentOf(f.View()), lba, data)
    ensures NothingMoved(old(f.View()), f.referenceBank, f.View(), f.referenceBank)
    ensures f.t.owCounters == BumpCounter(old(f.t.owCounters), BlkOf(pg), pg.page)
  {
    hide Inv, Content, FillsBut, RwReady, VRoles, BurnPage, Aligned, PatchPage, LowPage, CountedOw, Inj;
    ghost var s := f.View();
    LowLive(s, k);
    assert pg.page <= 123 by { LowBound(pg.page); }
    var chunks := f.t.flash[pg].chunks;
    HeldPageData(s, pg);
    PatchBurned(ContentOf(s), s.live, pg, chunks, at, data, lba);
    PatchSettled(s, pg, BurnPage(chunks, at, data));
    PatchLive(s, pg, BurnPage(chunks, at, data));
    ProgramInPlace(f, pg, at, data);
  }

  lemma PatchLive(s: St, pg: PageId, data: seq<Chunk>)
    requires pg.Pg?
    ensures PatchPage(s, pg, data).live == s.live && PatchPage(s, pg, data).cmap == s.cmap
    ensures PatchPage(s, pg, data).owCnt == BumpCounter(s.owCnt, BlkOf(pg), pg.page)
  {
    hide BumpCounter;
  }

  lemma LowBound(page: nat)
    requires LowPage(page)
    ensures page <= 123
  {
  }

  // ----- a chunk goes to the overwrite buffer -----

  /** updateOwDramBufMetadata: the chunk just copied is named, mapped and counted. */
  method PutOwChunk(f: Ftl, k: Key, bank: nat, d: Chunk)
    requires bank < |f.t.owLogBuf| && bank < |f.t.owLogBufMeta| && bank < |f.t.owChunkPtr| && bank < |f.g.owFill|
    requires f.g.owFill[bank] == f.t.owChunkPtr[bank] < 8 && |f.t.owLogBuf[bank]| == 8 && |f.t.owLogBufMeta[bank]| == 8
    requires Tracked(f)
    modifies f`t, f`g, f`inRam
    ensures Entered(old(f.t), f.t, bank) && Tracked(f)
    ensures f.View() == PutOw(old(f.View()), k, bank, d)
  {
    var p := f.t.owChunkPtr[bank];
    f.t := f.t.(owLogBuf := SetSlot(f.t.owLogBuf, bank, p, d),
                owLogBufMeta := SetSlot(f.t.owLogBufMeta, bank, p, Some(k)),
                chunksMap := f.t.chunksMap[k := Loc(true, Buf(true, bank), p)],
                owChunkPtr := f.t.owChunkPtr[bank := (p + 1) % 8]);
    f.g := f.g.(live := f.g.live[k := Loc(true, Buf(true, bank), p)], held := f.g.held - {k},
                owFill := f.g.owFill[bank := p + 1]);
    f.inRam := f.inRam - {k};
  }

  lemma PutOwCalm(s: St, k: Key, b: nat, d: Chunk)
    requires OwCalm(s) && s.held == map[][k := d] && k.idx < 8 && b < s.banks && FillsBut(s.owFill, -1)
    ensures b < |s.owBuf| && b < |s.owMeta| && b < |s.owPtr| && b < |s.owFill| && s.owFill[b] == s.owPtr[b] < 8
      && |s.owBuf[b]| == 8 && |s.owMeta[b]| == 8
    ensures var t := PutOw(s, k, b, d);
      && OwCalm(t)
      && t.held == map[] && t.debt == s.debt && t.owPending == s.owPending && ContentOf(t) == ContentOf(s)
      && FlashKept(s.live, t.live) && t.clean == s.clean
      && |t.owFill| == |t.owPtr| == s.banks == t.banks && FillsBut(t.owFill, b)
      && (t.owPtr[b] == 0 <==> t.owFill[b] == 8) && (t.owPtr[b] != 0 ==> FillsBut(t.owFill, -1))
  {
    hide Inv, Content, RwReady, VRoles, SetSlot;
    BankFacts(s, b);
    DisjointHeld(s);
    PutFills(s.owFill, b);
    PutOwInv(s, k, b, d);
    PutOwContentOf(s, k, b, d);
    HeldContent(s, k);
    assert s.held - {k} == map[];
  }

  /** A chunk held in RAM goes to the bank's overwrite buffer, which is flushed when full. */
  method StoreOwChunk(f: Ftl, k: Key, bank: nat, d: Chunk, fuel: nat) returns (o: Outcome, collects: bool)
    requires OwCalm(f.View()) && AtRest(f) && f.g.held == map[][k := d] && k.idx < 8 && bank < f.banks
    requires f.g.owPending == {} && FillsBut(f.g.owFill, -1)
    modifies f
    ensures o.Pass? ==>
      OwCalm(f.View()) && AtRest(f) && f.g.owPending == {} && f.g.held == map[] && FillsBut(f.g.owFill, -1)
    ensures o.Pass? ==> f.g.debt == old(f.g.debt) && ContentOf(f.View()) == ContentOf(old(f.View()))
    ensures o.Pass? ==> OwedStay(old(f.View()), f.View()) && f.givenUp == old(f.givenUp) && f.owing == old(f.owing)
    ensures StoreOutcome(old(f.t), f.t, bank, o, collects)
    ensures !collects ==> f.referenceBank == old(f.referenceBank)
    ensures !collects ==>
      StillAt(old(f.g.live), f.g.live, Buf(true, bank)) && k in f.g.live && f.g.live[k].page.bank == bank
    ensures old(Unburdened(f)) ==> o != Fail(UnsafeCollection)
  {
    hide Inv, Content, VRoles, RwReady, OwCalm, FillsBut, PutOw, StoreOutcome, FlushOutcome, OwedStay, StillAt,
         FlushRefills;
    ghost var s := f.View();
    PutOwCalm(s, k, bank, d);
    PutOwChunk(f, k, bank, d);
    ghost var s1, t1 := f.View(), f.t;
    FlashStays(s, s1);
    PutStill(s, k, bank, d);
    if f.t.owChunkPtr[bank] == 0 {
      o, collects := FlushOwLogBuffer(f, bank, fuel);
    } else {
      StayRefl(s1);
      o, collects := Pass, false;
    }
    StoreEnds(old(f.t), t1, f.t, bank, o, collects);
    if !collects {
      StillThen(s.live, s1.live, f.g.live, k, bank);
    }
    if o.Pass? {
      StayTrans(s, s1, f.View());
    }
  }

  lemma StayRefl(s: St)
    ensures OwedStay(s, s) && forall buf :: StillAt(s.live, s.live, buf)
  {
  }

  lemma PutStill(s: St, k: Key, b: nat, d: Chunk)
    requires OwCalm(s) && s.held == map[][k := d] && b < |s.owFill| && b < |s.owPtr|
    ensures var t := PutOw(s, k, b, d);
      StillAt(s.live, t.live, Buf(true, b)) && k in t.live && t.live[k].page == Buf(true, b)
  {
    hide Inv, SetSlot, VRoles, FillsBut, RwReady;
    DisjointHeld(s);
    assert k in s.held;
  }

  lemma StillThen(m: map<Key, Loc>, m1: map<Key, Loc>, m': map<Key, Loc>, k: Key, bank: nat)
    requires StillAt(m, m1, Buf(true, bank)) && StillAt(m1, m', Buf(true, bank))
    requires k in m1 && m1[k].page == Buf(true, bank)
    ensures StillAt(m, m', Buf(true, bank)) && k in m' && m'[k].page.bank == bank
  {
    StillTrans(m, m1, m', Buf(true, bank));
  }

  /** The chunks `ks` have left their places for bank `bank`; all others are where they were, but for a flush of its
      overwrite buffer. */
  ghost predicate OwSent(m: map<Key, Loc>, m': map<Key, Loc>, ks: set<Key>, bank: nat) {
    StillAt(m - ks, m', Buf(true, bank)) && forall k | k in ks :: k in m' && m'[k].page.bank == bank
  }

  lemma OwSentOne(m: map<Key, Loc>, m': map<Key, Loc>, k: Key, bank: nat)
    requires StillAt(m - {k}, m', Buf(true, bank)) && k in m' && m'[k].page.bank == bank
    ensures OwSent(m, m', {k}, bank)
  {
    hide StillAt;
  }

  lemma OwStart(s: St)
    requires Settled(s)
    ensures OwCalm(s) && Idle(s) && Inv(s) && s.debt.amount == 0
      && s.held == map[] && s.owPending == {} && FillsBut(s.owFill, -1) && VRoles(s.role) == map[]
  {
    hide Inv, VRoles, FillsBut, RwReady;
  }

  lemma OwDone(s: St)
    requires OwCalm(s) && s.held == map[] && s.owPending == {} && FillsBut(s.owFill, -1) && s.debt.amount == 0
    ensures Settled(s)
  {
    hide Inv, VRoles, FillsBut, RwReady;
  }

  lemma DetachedCalm(s: St, k: Key, d: Chunk)
    requires Settled(s)
    ensures var t := Detach(s, k, d);
      && OwCalm(t) && t.held == map[][k := d] && t.owPending == {} && FillsBut(t.owFill, -1) && t.debt.amount == 0
      && ContentOf(t) == ContentOf(s)[k := d] && t.clean == s.clean
  {
    hide Inv, Content, VRoles, FillsBut, RwReady, Detach;
    DetachInv(s, k, d);
    DetachFields(s, k, d);
  }

  // ----- chunk by chunk -----

  /** overwriteChunkNew, overwriteChunkOldInWLog, overwriteChunkOldInWBuf, and the exhausted case of
      overwriteChunkOldInOwLog: the new version goes to an overwrite buffer. */
  method MoveToOwBuf(f: Ftl, k: Key, off: nat, data: seq<Sector>, fuel: nat) returns (o: Outcome)
    requires Ready(f) && k.idx < 8 && off + |data| <= 8 && 0 < |data|
    modifies f
    ensures o.Pass? ==>
      && Ready(f)
      && ContentOf(f.View()) == ContentOf(old(f.View()))[k := Splice(ChunkAt(ContentOf(old(f.View())), k), off, data)]
    ensures Lasts(Rooms(old(f.t)), Rooms(f.t), 1016, o)
    ensures var b := NthBank(old(f.referenceBank), f.banks, 1);
      !StoreNeedsBlock(OwBankAt(old(f.t), b)) ==>
        && o.Pass? && f.referenceBank == b && OwNow(old(f.t), f.t, b, AfterStore(OwBankAt(old(f.t), b)))
        && OwSent(old(f.g.live), f.g.live, {k}, b)
    ensures o != Fail(UnsafeCollection)
  {
    hide Inv, Idle, OwCalm, Content, VRoles, FillsBut, Splice, Detach, Settled, Lasts, Rooms, StillAt, OwSent, OwBankAt,
         AfterStore, StoreNeedsBlock, OwNow;
    OwStart(f.View());
    var bank := ChooseNewBank(f);
    ghost var s := f.View();
    OwStart(s);
    var d := NewChunk(f, k, off, data);
    AbandonChunk(f, k, d);
    DetachedCalm(s, k, d);
    DetachFields(s, k, d);
    TableLengths(s);
    ghost var t1 := f.t;
    SameRooms(old(f.t), t1, 0);
    var collects;
    o, collects := StoreOwChunk(f, k, bank, d, fuel);
    StoreLasts(t1, f.t, bank, 1016, o, collects);
    StoredNow(old(f.t), t1, f.t, bank, o, collects);
    if !collects {
      OwSentOne(s.live, f.g.live, k, bank);
    }
    :- o;
    OwDone(f.View());
    o := Pass;
  }

  /** A store after the old version was given up is a store. */
  lemma StoredNow(s: Tables, m: Tables, t: Tables, bank: nat, o: Outcome, collects: bool)
    requires m.owCtrl == s.owCtrl && m.cleanList == s.cleanList && m.owChunkPtr == s.owChunkPtr && SameRwSide(s, m)
    requires StoreOutcome(m, t, bank, o, collects)
    ensures StoreNeedsBlock(OwBankAt(s, bank)) <==> collects
    ensures !collects ==> o.Pass? && OwNow(s, t, bank, AfterStore(OwBankAt(s, bank)))
  {
    hide AfterStore, StoreNeedsBlock;
    forall b: nat ensures OwBankAt(m, b) == OwBankAt(s, b) {
    }
  }

  /** The counter of the page that holds the chunk is used up. */
  predicate Exhausted(m: map<Key, Loc>, cnt: map<Blk, seq<nat>>, k: Key) {
    && k in m && m[k].page.Pg?
    && var pg := m[k].page;
    && BlkOf(pg) in cnt && CounterOf(pg.page) < |cnt[BlkOf(pg)]| && cnt[BlkOf(pg)][CounterOf(pg.page)] >= OW_LIMIT
  }

  /** The counter of the page that holds the request's first chunk is used up. */
  predicate ExhaustedPage(t: Tables, lpn: nat, first: nat) {
    Exhausted(t.chunksMap, t.owCounters, Key(lpn, first))
  }

  /** The chunk cannot be overwritten where it is. */
  predicate MovesOut(m: map<Key, Loc>, cnt: map<Blk, seq<nat>>, k: Key) {
    match LocationOf(Lookup(m, k))
    case DRAMOwLog => false
    case FlashOwLog => Exhausted(m, cnt, k)
    case _ => true
  }

  /** The counters after a chunk was overwritten where it is. */
  ghost function AfterBurn(m: map<Key, Loc>, cnt: map<Blk, seq<nat>>, k: Key): map<Blk, seq<nat>> {
    if LocationOf(Lookup(m, k)) == FlashOwLog then BumpCounter(cnt, BlkOf(m[k].page), m[k].page.page) else cnt
  }

  /** The chunks from `i` to `last` of page `lpn` can be overwritten one by one where they are. */
  ghost predicate AllInPlace(m: map<Key, Loc>, cnt: map<Blk, seq<nat>>, lpn: nat, i: nat, last: nat)
    decreases last + 1 - i
  {
    i > last || (
      && !MovesOut(m, cnt, Key(lpn, i))
      && AllInPlace(m, AfterBurn(m, cnt, Key(lpn, i)), lpn, i + 1, last))
  }

  /** Only data changed, where it is, and counters. */
  ghost predicate NothingMoved(s: St, ref: nat, t: St, ref': nat) {
    t.live == s.live && t.cmap == s.cmap && ref' == ref && SameCursorsOw(TablesOf(s), TablesOf(t))
  }

  lemma NothingSpent(s: St, ref: nat, t: St, ref': nat, n: nat)
    requires NothingMoved(s, ref, t, ref')
    ensures Lasts(Rooms(TablesOf(s)), Rooms(TablesOf(t)), n, Pass)
  {
    hide Lasts, Rooms;
    SameRooms(TablesOf(s), TablesOf(t), n);
  }

  lemma StillNothingMoved(s: St, ref: nat, t: St, ref': nat, u: St, ref'': nat)
    requires NothingMoved(s, ref, t, ref') && NothingMoved(t, ref', u, ref'')
    ensures NothingMoved(s, ref, u, ref'')
  {
  }

  /** One turn of overwritePartialPageOldNotInOrder, by where the old version is.
      The chunk stays where it is unless it is not in the overwrite log, or in an exhausted page of it. */
  method OverwriteChunk(f: Ftl, k: Key, off: nat, data: seq<Sector>, fuel: nat) returns (o: Outcome)
    requires Ready(f) && k.idx < 8 && off + |data| <= 8 && 0 < |data|
    modifies f
    ensures o.Pass? ==>
      Ready(f) && Overwrote(ContentOf(old(f.View())), ContentOf(f.View()), k.lpn * 64 + k.idx * 8 + off, data)
    ensures Lasts(Rooms(old(f.t)), Rooms(f.t), 1016, o)
    ensures !MovesOut(old(f.t.chunksMap), old(f.t.owCounters), k) ==>
      && o.Pass? && NothingMoved(old(f.View()), old(f.referenceBank), f.View(), f.referenceBank)
      && f.t.owCounters == AfterBurn(old(f.t.chunksMap), old(f.t.owCounters), k)
    ensures var b := NthBank(old(f.referenceBank), f.banks, 1);
      MovesOut(old(f.t.chunksMap), old(f.t.owCounters), k) && !StoreNeedsBlock(OwBankAt(old(f.t), b)) ==>
        && o.Pass? && f.referenceBank == b && OwNow(old(f.t), f.t, b, AfterStore(OwBankAt(old(f.t), b)))
        && OwSent(old(f.g.live), f.g.live, {k}, b)
    ensures o != Fail(UnsafeCollection)
  {
    hide Inv, Content, VRoles, FillsBut, Splice, Wrote, Burned, Overwrote, Settled, BumpCounter, LowPage, CountedOw,
         Aligned, Lasts, Rooms, OwSent, OwNow, OwBankAt, StoreNeedsBlock, AfterStore, NthBank;
    SameRooms(f.t, f.t, 1016);
    ghost var s := f.View();
    WroteChunk(ContentOf(s), k, off, data);
    match LocationOf(Lookup(f.t.chunksMap, k)) {
      case Invalid =>
        :- MoveToOwBuf(f, k, off, data, fuel);
      case FlashWLog =>
        :- MoveToOwBuf(f, k, off, data, fuel);
      case DRAMWLog =>
        :- MoveToOwBuf(f, k, off, data, fuel);
      case DRAMOwLog =>
        OverwriteInBuffer(f, k, off, data);
      case FlashOwLog =>
        o := OverwriteInFlash(f, k, off, data, fuel);
        return;
    }
    EitherOverwrote(ContentOf(s), ContentOf(f.View()), k.lpn * 64 + k.idx * 8 + off, data);
    o := Pass;
  }

  /** overwriteChunkOldInOwBuf: the buffered chunk is changed where it is. */
  method OverwriteInBuffer(f: Ftl, k: Key, off: nat, data: seq<Sector>)
    requires Ready(f) && k.idx < 8 && off + |data| <= 8 && LocationOf(Lookup(f.t.chunksMap, k)) == DRAMOwLog
    modifies f`t
    ensures Ready(f) && f.t.owCounters == old(f.t.owCounters)
    ensures NothingMoved(old(f.View()), f.referenceBank, f.View(), f.referenceBank)
    ensures ContentOf(f.View())
      == ContentOf(old(f.View()))[k := Splice(ChunkAt(ContentOf(old(f.View())), k), off, data)]
    ensures Lasts(Rooms(old(f.t)), Rooms(f.t), 1016, Pass)
  {
    hide Inv, Content, VRoles, FillsBut, Splice, Settled, Lasts, Rooms;
    ghost var s := f.View();
    OwStart(s);
    AbandonFacts(s, k);
    OldData(s, k);
    var loc := f.t.chunksMap[k];
    PatchOwSettled(s, k, Splice(f.t.owLogBuf[loc.page.bank][loc.slot], off, data));
    f.t := f.t.(owLogBuf := SetSlot(f.t.owLogBuf, loc.page.bank, loc.slot,
                                    Splice(f.t.owLogBuf[loc.page.bank][loc.slot], off, data)));
    SameRooms(old(f.t), f.t, 1016);
  }

  /** overwriteChunkOldInOwLog: in place, unless the page is exhausted. */
  method OverwriteInFlash(f: Ftl, k: Key, off: nat, data: seq<Sector>, fuel: nat) returns (o: Outcome)
    requires Ready(f) && k.idx < 8 && off + |data| <= 8 && 0 < |data|
    requires LocationOf(Lookup(f.t.chunksMap, k)) == FlashOwLog
    modifies f
    ensures o.Pass? ==>
      Ready(f) && Overwrote(ContentOf(old(f.View())), ContentOf(f.View()), k.lpn * 64 + k.idx * 8 + off, data)
    ensures Lasts(Rooms(old(f.t)), Rooms(f.t), 1016, o)
    ensures !ExhaustedPage(old(f.t), k.lpn, k.idx) ==>
      && o.Pass? && NothingMoved(old(f.View()), old(f.referenceBank), f.View(), f.referenceBank)
      && f.t.owCounters == AfterBurn(old(f.t.chunksMap), old(f.t.owCounters), k)
    ensures var b := NthBank(old(f.referenceBank), f.banks, 1);
      ExhaustedPage(old(f.t), k.lpn, k.idx) && !StoreNeedsBlock(OwBankAt(old(f.t), b)) ==>
        && o.Pass? && f.referenceBank == b && OwNow(old(f.t), f.t, b, AfterStore(OwBankAt(old(f.t), b)))
        && OwSent(old(f.g.live), f.g.live, {k}, b)
    ensures o != Fail(UnsafeCollection)
  {
    hide Inv, Content, VRoles, FillsBut, Splice, Wrote, Burned, Overwrote, Settled, BumpCounter, LowPage, CountedOw,
         Aligned, Lasts, Rooms, OwSent, OwNow, OwBankAt, StoreNeedsBlock, AfterStore, NthBank;
    ghost var s := f.View();
    ghost var lba := k.lpn * 64 + k.idx * 8 + off;
    OwStart(s);
    AbandonFacts(s, k);
    var loc := f.t.chunksMap[k];
    LowLive(s, k);
    var n := ReadOwCounter(f, BlkOf(loc.page), loc.page.page);
    if n < OW_LIMIT {
      ChunkAligned(s.live, k, off, |data|);
      BurnInPlace(f, k, loc.page, loc.slot * 8 + off, data, lba);
      SameRooms(old(f.t), f.t, 1016);
    } else {
      WroteChunk(ContentOf(s), k, off, data);
      :- MoveToOwBuf(f, k, off, data, fuel);
    }
    EitherOverwrote(ContentOf(s), ContentOf(f.View()), lba, data);
    o := Pass;
  }

  lemma ChunkAligned(live: map<Key, Loc>, k: Key, off: nat, n: nat)
    requires k in live && k.idx < 8 && off + n <= 8
    ensures Aligned(live, live[k].page, live[k].slot * 8 + off, n, k.lpn * 64 + k.idx * 8 + off)
  {
    var lba := k.lpn * 64 + k.idx * 8 + off;
    forall x: nat | lba <= x < lba + n
      ensures KeyOf(x) == k && x % 8 == off + x - lba
    {
      var y := 8 * k.idx + (x - lba + off);
      SectorIn(k.lpn, y);
      assert y / 8 == k.idx && y % 8 == x - lba + off;
    }
  }

  lemma PatchOwSettled(s: St, k: Key, d: Chunk)
    requires Settled(s) && k in s.live && s.live[k].page == Buf(true, s.live[k].page.bank)
    ensures Settled(PatchOwBuf(s, s.live[k].page.bank, s.live[k].slot, d))
    ensures ContentOf(PatchOwBuf(s, s.live[k].page.bank, s.live[k].slot, d)) == ContentOf(s)[k := d]
  {
    hide Inv, SetSlot, VRoles, RwReady, FillsBut, Content;
    PatchOwBufInv(s, s.live[k].page.bank, s.live[k].slot, d);
    PatchBufContentOf(s, k, d);
  }

  /** overwritePartialPageOldNotInOrder. */
  method OverwriteNotInOrder(f: Ftl, lpn: nat, sectOffset: nat, data: seq<Sector>, fuel: nat) returns (o: Outcome)
    requires Ready(f) && sectOffset + |data| <= 64
    modifies f
    ensures o.Pass? ==>
      Ready(f) && Overwrote(ContentOf(old(f.View())), ContentOf(f.View()), lpn * 64 + sectOffset, data)
    ensures Lasts(Rooms(old(f.t)), Rooms(f.t), 1016 * |data|, o)
    ensures 0 < |data| && AllInPlace(old(f.t.chunksMap), old(f.t.owCounters), lpn, sectOffset / 8,
                                     (sectOffset + |data| - 1) / 8) ==>
      o.Pass? && NothingMoved(old(f.View()), old(f.referenceBank), f.View(), f.referenceBank)
    ensures o != Fail(UnsafeCollection)
  {
    hide Ready, Content, Overwrote, Wrote, Burned, Lasts, Rooms, NothingMoved, AllInPlace, MovesOut, AfterBurn, OwSent,
         OwNow, OwBankAt, StoreNeedsBlock, AfterStore, NthBank;
    ghost var s0, ref0, c0, rooms0 := f.View(), f.referenceBank, ContentOf(f.View()), Rooms(f.t);
    ghost var last := if |data| == 0 then 0 else (sectOffset + |data| - 1) / 8;
    ghost var stays := 0 < |data| && AllInPlace(s0.cmap, s0.owCnt, lpn, sectOffset / 8, last);
    NothingYet(s0, ref0);
    LastsNothing(rooms0);
    var sect, remaining: nat := sectOffset, |data|;
    WroteNothing(c0, lpn * 64 + sectOffset);
    EitherOverwrote(c0, c0, lpn * 64 + sectOffset, []);
    while remaining != 0
      invariant Ready(f) && sect + remaining == sectOffset + |data| && sectOffset <= sect
      invariant Overwrote(c0, ContentOf(f.View()), lpn * 64 + sectOffset, data[..sect - sectOffset])
      invariant Lasts(rooms0, Rooms(f.t), 1016 * (sect - sectOffset), Pass)
      invariant stays ==> NothingMoved(s0, ref0, f.View(), f.referenceBank)
      invariant stays && remaining != 0 ==> AllInPlace(f.t.chunksMap, f.t.owCounters, lpn, sect / 8, last)
    {
      var n := if sect % 8 + remaining < 8 then remaining else 8 - sect % 8;
      var done := sect - sectOffset;
      ghost var s1, ref1, c1, rooms1 := f.View(), f.referenceBank, ContentOf(f.View()), Rooms(f.t);
      NextPiece(sect, remaining, n);
      LastPiece(sect, remaining);
      InPlaceNext(s1.cmap, s1.owCnt, lpn, sect / 8, last);
      o := OverwriteChunk(f, Key(lpn, sect / 8), sect % 8, data[done..done + n], fuel);
      if stays {
        StillNothingMoved(s0, ref0, s1, ref1, f.View(), f.referenceBank);
        SameMap(s1, ref1, f.View(), f.referenceBank);
      }
      LastsMore(rooms1, Rooms(f.t), 1016, 1016 * n, o);
      LastsStep(rooms0, rooms1, Rooms(f.t), 1016 * done, 1016 * n, 1016 * |data|, o);
      :- o;
      OverwroteThen(c0, c1, ContentOf(f.View()), lpn * 64 + sectOffset, data[..done], data[done..done + n]);
      assert data[..done] + data[done..done + n] == data[..done + n];
      sect := sect + n;
      remaining := remaining - n;
    }
    assert data[..sect - sectOffset] == data;
    o := Pass;
  }

  lemma NothingYet(s: St, ref: nat)
    ensures NothingMoved(s, ref, s, ref)
  {
  }

  lemma SameMap(s: St, ref: nat, t: St, ref': nat)
    requires NothingMoved(s, ref, t, ref')
    ensures t.cmap == s.cmap
  {
  }

  lemma InPlaceNext(m: map<Key, Loc>, cnt: map<Blk, seq<nat>>, lpn: nat, i: nat, last: nat)
    requires i <= last
    ensures AllInPlace(m, cnt, lpn, i, last) ==>
      !MovesOut(m, cnt, Key(lpn, i)) && AllInPlace(m, AfterBurn(m, cnt, Key(lpn, i)), lpn, i + 1, last)
  {
    hide MovesOut, AfterBurn;
  }

  // ----- old version in order in one overwrite page -----

  /** ChunkToChunkOffsetInBank of a decoded flash address. */
  function OffsetInBank(loc: Loc): nat
    requires loc.page.Pg?
  {
    loc.page.lbn * CHUNKS_PER_BLK + loc.page.page * CHUNKS_PER_PAGE + loc.slot
  }

  /** All requested chunks sit in one overwrite flash page, each at its own offset. */
  ghost predicate InOwPageInOrder(m: map<Key, Loc>, lpn: nat, first: nat, last: nat) {
    && Key(lpn, first) in m && m[Key(lpn, first)].page.Pg?
    && forall i | first <= i <= last :: Key(lpn, i) in m && m[Key(lpn, i)] == Loc(true, m[Key(lpn, first)].page, i)
  }

  /** Consecutive offsets that start at a chunk's own slot stay in its page. */
  lemma SamePage(a: Loc, b: Loc, first: nat, i: nat)
    requires a.page.Pg? && b.page.Pg? && a.page.page < 128 && b.page.page < 128 && a.slot == first && b.slot < 8
      && first <= i < 8
    ensures a.page.bank == b.page.bank && OffsetInBank(b) == OffsetInBank(a) + (i - first)
      <==> b.page == a.page && b.slot == i
  {
  }

  /** oldVersionIsInOwLogInOrder compares offsets one by one; it holds exactly when the
      chunks fill consecutive slots, each its own, of a single page. */
  method OldVersionIsInOwLogInOrder(t: Tables, lpn: nat, sectOffset: nat, nSects: nat) returns (b: bool)
    requires 0 < nSects && sectOffset + nSects <= 64
    requires forall i | 0 <= i < 8 && Key(lpn, i) in t.chunksMap && t.chunksMap[Key(lpn, i)].page.Pg? ::
      t.chunksMap[Key(lpn, i)].page.page < 128 && t.chunksMap[Key(lpn, i)].slot < 8
    ensures b <==> InOwPageInOrder(t.chunksMap, lpn, sectOffset / 8, (sectOffset + nSects - 1) / 8)
  {
    var first, last := sectOffset / 8, (sectOffset + nSects - 1) / 8;
    if LocationOf(Lookup(t.chunksMap, Key(lpn, first))) != FlashOwLog {
      return false;
    }
    var loc := t.chunksMap[Key(lpn, first)];
    if loc.slot != first {
      return false;
    }
    var offset := OffsetInBank(loc);
    for i := first + 1 to last + 1
      invariant offset == OffsetInBank(loc) + (i - 1 - first)
      invariant forall j | first <= j < i ::
        Key(lpn, j) in t.chunksMap && t.chunksMap[Key(lpn, j)] == Loc(true, loc.page, j)
    {
      if LocationOf(Lookup(t.chunksMap, Key(lpn, i))) != FlashOwLog {
        return false;
      }
      var next := t.chunksMap[Key(lpn, i)];
      SamePage(loc, next, first, i);
      if next.page.bank != loc.page.bank || OffsetInBank(next) != offset + 1 {
        return false;
      }
      offset := offset + 1;
    }
    b := true;
  }

  lemma FlashShape(s: St)
    requires Inv(s) && s.held == map[]
    ensures forall k | k in s.cmap && s.cmap[k].page.Pg? :: s.cmap[k].page.page < 128 && s.cmap[k].slot < 8
    ensures s.cmap == s.live
  {
    assert s.cmap == s.live;
    forall k | k in s.live && s.live[k].page.Pg? ensures s.live[k].page.page < 128 {
      assert FlashKeyOK(k, s.live[k], s.flash, s.lists, s.role);
    }
  }

  lemma PageAligned(live: map<Key, Loc>, lpn: nat, sectOffset: nat, n: nat)
    requires 0 < n && sectOffset + n <= 64 && InOwPageInOrder(live, lpn, sectOffset / 8, (sectOffset + n - 1) / 8)
    ensures Aligned(live, live[Key(lpn, sectOffset / 8)].page, sectOffset, n, lpn * 64 + sectOffset)
  {
    hide InOwPageInOrder;
    InOrderAt(live, lpn, sectOffset / 8, (sectOffset + n - 1) / 8, sectOffset / 8);
    forall x: nat | lpn * 64 + sectOffset <= x < lpn * 64 + sectOffset + n
      ensures KeyOf(x) in live && live[KeyOf(x)].page == live[Key(lpn, sectOffset / 8)].page
        && live[KeyOf(x)].slot * 8 + x % 8 == sectOffset + x - (lpn * 64 + sectOffset)
    {
      var y := x - lpn * 64;
      SectorIn(lpn, y);
      InOrderAt(live, lpn, sectOffset / 8, (sectOffset + n - 1) / 8, y / 8);
    }
  }

  lemma SectorIn(lpn: nat, y: nat)
    requires y < 64
    ensures KeyOf(lpn * 64 + y) == Key(lpn, y / 8) && (lpn * 64 + y) % 8 == y % 8
  {
    assert (lpn * 64 + y) / 64 == lpn;
    assert (lpn * 64 + y) % 64 == y;
    assert lpn * 64 + y == 8 * (8 * lpn) + y;
  }

  lemma InOrderAt(live: map<Key, Loc>, lpn: nat, first: nat, last: nat, i: nat)
    requires InOwPageInOrder(live, lpn, first, last) && first <= i <= last
    ensures Key(lpn, i) in live && Key(lpn, first) in live && live[Key(lpn, first)].page.Pg?
      && live[Key(lpn, i)] == Loc(true, live[Key(lpn, first)].page, i)
  {
  }

  // ----- the page's counter is exhausted -----

  /** The chunks of the request not moved yet are still in the old page. */
  ghost predicate StillThere(live: map<Key, Loc>, lpn: nat, pg: PageId, from: nat, last: nat) {
    forall i | from <= i <= last :: Key(lpn, i) in live && live[Key(lpn, i)] == Loc(true, pg, i)
  }

  ghost predicate Owing(s: St, blk: Blk, n: nat) {
    s.debt.amount == n && (0 < n ==> s.debt.blk == blk)
  }

  lemma OwingCalm(s: St, k: Key, d: Chunk, blk: Blk, n: nat)
    requires OwCalm(s) && s.held == map[] && s.owPending == {} && Owing(s, blk, n)
    requires k in s.live && s.live[k].page.Pg? && s.live[k].ow && BlkOf(s.live[k].page) == blk
    ensures var t := DetachOwing(s, k, d, blk);
      && OwCalm(t) && t.held == map[][k := d] && t.owPending == {} && t.owFill == s.owFill && Owing(t, blk, n + 1)
      && ContentOf(t) == ContentOf(s)[k := d] && t.live == s.live - {k} && t.clean == s.clean
  {
    hide Inv, Content, VRoles, FillsBut, RwReady;
    AbandonFacts(s, k);
    DetachOwingInv(s, k, d, blk);
    DetachContent(s.live, s.held, s.logBuf, s.owBuf, s.flash, k, d);
  }

  lemma PayFacts(s: St)
    requires Inv(s) && 0 < s.debt.amount
    ensures s.debt.blk in s.oCount && s.debt.amount <= s.oCount[s.debt.blk]
  {
    PayO(s.live, s.role, s.oCount, s.debt);
  }

  lemma PaidSettled(s: St)
    requires OwCalm(s) && s.held == map[] && s.owPending == {} && FillsBut(s.owFill, -1)
    ensures Settled(PayDebt(s)) && ContentOf(PayDebt(s)) == ContentOf(s)
  {
    hide Inv, Content, VRoles, FillsBut, RwReady, Minus;
    PayDebtInv(s);
  }

  /** decrementValidChunksByN on the overwrite heap; it cannot go below zero. */
  method DecrementByN(f: Ftl, blk: Blk, n: nat)
    requires OwCalm(f.View())
      && f.g.held == map[] && f.g.owPending == {} && FillsBut(f.g.owFill, -1) && Owing(f.View(), blk, n) && 0 < n
    requires Tracked(f)
    modifies f`t, f`g, f`owing
    ensures Settled(f.View()) && ContentOf(f.View()) == ContentOf(old(f.View())) && Tracked(f)
    ensures SameCursorsOw(old(f.t), f.t)
  {
    hide Inv, Content, VRoles, FillsBut, RwReady;
    ghost var s := f.View();
    PayFacts(s);
    PaidSettled(s);
    f.t := f.t.(owCount := f.t.owCount[blk := f.t.owCount[blk] - n]);
    f.g := f.g.(debt := Debt(blk, 0));
    f.owing := None;
  }

  /** Chunks in block `blk` stay where they are. */
  ghost predicate StayIn(live: map<Key, Loc>, live': map<Key, Loc>, blk: Blk) {
    forall j | j in live && InBlk(live[j].page, blk) :: j in live' && live'[j] == live[j]
  }

  lemma StayInOwed(s: St, t: St, blk: Blk)
    requires OwedStay(s, t) && 0 < Owed(s.debt, blk)
    ensures StayIn(s.live, t.live, blk)
  {
  }

  /** One chunk leaves the exhausted page for an overwrite buffer; its count is not given back yet.
      `collects` tells whether a collection was started meanwhile. */
  method MoveOwing(f: Ftl, k: Key, off: nat, data: seq<Sector>, blk: Blk, ghost n: nat, fuel: nat)
    returns (o: Outcome, collects: bool)
    requires OwCalm(f.View()) && AtRest(f) && f.g.owPending == {}
      && f.g.held == map[] && FillsBut(f.g.owFill, -1) && Owing(f.View(), blk, n)
    requires k in f.g.live && f.g.live[k].page.Pg? && f.g.live[k].ow && BlkOf(f.g.live[k].page) == blk
    requires k.idx < 8 && off + |data| <= 8 && 0 < |data|
    modifies f
    ensures o.Pass? ==>
      && OwCalm(f.View()) && AtRest(f) && f.g.owPending == {}
      && f.g.held == map[] && FillsBut(f.g.owFill, -1) && Owing(f.View(), blk, n + 1)
    ensures o.Pass? ==>
      ContentOf(f.View()) == ContentOf(old(f.View()))[k := Splice(ChunkAt(ContentOf(old(f.View())), k), off, data)]
    ensures o.Pass? ==> StayIn(old(f.g.live) - {k}, f.g.live, blk) && f.givenUp == old(f.givenUp)
    ensures Lasts(Rooms(old(f.t)), Rooms(f.t), 1016, o)
    ensures var b := NthBank(old(f.referenceBank), f.banks, 1);
      && b < f.banks && (collects <==> StoreNeedsBlock(OwBankAt(old(f.t), b))) && (o.Fail? ==> collects)
      && (!collects ==> f.referenceBank == b && OwNow(old(f.t), f.t, b, AfterStore(OwBankAt(old(f.t), b))))
      && (!collects ==> OwSent(old(f.g.live), f.g.live, {k}, b))
  {
    hide Inv, OwCalm, Content, VRoles, FillsBut, Splice, Lasts, Rooms, OwNow, StoreNeedsBlock, OwBankAt, AfterStore,
         OwedStay, StayIn, StillAt, OwSent;
    CalmParts(f.View());
    var bank := ChooseNewBank(f);
    ghost var s := f.View();
    CalmParts(s);
    var d := NewChunk(f, k, off, data);
    OwingCalm(s, k, d, blk, n);
    f.g := f.g.(live := f.g.live - {k}, held := f.g.held[k := d], debt := Debt(blk, f.g.debt.amount + 1));
    f.inRam, f.owing := f.inRam + {k}, Some(blk);
    TableLengths(s);
    ghost var s1, t1 := f.View(), f.t;
    o, collects := StoreOwChunk(f, k, bank, d, fuel);
    StoreLasts(t1, f.t, bank, 1016, o, collects);
    if !collects {
      OwSentOne(s.live, f.g.live, k, bank);
    }
    if o.Pass? {
      StayInOwed(s1, f.View(), blk);
    }
  }

  lemma CalmParts(s: St)
    requires OwCalm(s)
    ensures Inv(s) && VRoles(s.role) == map[]
  {
  }

  lemma ThereStep(live: map<Key, Loc>, live': map<Key, Loc>, lpn: nat, pg: PageId, i: nat, last: nat)
    requires StillThere(live, lpn, pg, i, last) && pg.Pg? && StayIn(live - {Key(lpn, i)}, live', BlkOf(pg))
    ensures StillThere(live', lpn, pg, i + 1, last)
  {
    forall j | i + 1 <= j <= last ensures Key(lpn, j) in live' && live'[Key(lpn, j)] == Loc(true, pg, j) {
      assert Key(lpn, j) in live - {Key(lpn, i)};
    }
  }

  /** The exhausted case of overwritePageOldInOrderInOwLog for part of a page.
      `risky` tells whether a collection was started while counts were owed. */
  method OverwriteExhausted(f: Ftl, lpn: nat, sectOffset: nat, data: seq<Sector>, ghost pg: PageId, blk: Blk, fuel: nat)
    returns (o: Outcome, risky: bool)
    requires Ready(f) && sectOffset + |data| <= 64 && 0 < |data| && pg.Pg? && BlkOf(pg) == blk
    requires StillThere(f.g.live, lpn, pg, sectOffset / 8, (sectOffset + |data| - 1) / 8)
    modifies f
    ensures o.Pass? ==> Ready(f) && Wrote(ContentOf(old(f.View())), ContentOf(f.View()), lpn * 64 + sectOffset, data)
    ensures Lasts(Rooms(old(f.t)), Rooms(f.t), 1016 * |data|, o)
    ensures risky <==> RunsOut(OwBanks(old(f.t)), NthBank(old(f.referenceBank), f.banks, 1), Pieces(sectOffset, |data|))
    ensures o.Fail? ==> risky
  {
    hide Inv, OwCalm, FillsBut, Settled, Content, Wrote, StillThere, Lasts, Rooms, RunsOut, OwBanks;
    OwStart(f.View());
    var bank := ChooseNewBank(f);
    OwStart(f.View());
    var invalid;
    o, invalid, risky := MoveAllOwing(f, lpn, sectOffset, data, pg, blk, fuel);
    if o.Pass? {
      ghost var t1 := f.t;
      DecrementByN(f, blk, invalid);
      SameRooms(t1, f.t, 0);
    }
  }

  /** The chunks that a request touches. */
  function Pieces(sectOffset: nat, n: nat): nat
    requires 0 < n
  {
    (sectOffset + n - 1) / 8 - sectOffset / 8 + 1
  }

  lemma NextPiece(sect: nat, remaining: nat, n: nat)
    requires 0 < remaining && n == if sect % 8 + remaining < 8 then remaining else 8 - sect % 8
    ensures 0 < n <= remaining && sect % 8 + n <= 8
    ensures n < remaining ==>
      && (sect + n) / 8 == sect / 8 + 1 && (sect + n) % 8 == 0
      && Pieces(sect + n, remaining - n) + 1 == Pieces(sect, remaining)
    ensures n == remaining ==> Pieces(sect, remaining) == 1
  {
  }

  /** The loop of the exhausted case; it starts a collection exactly when a bank in turn needs one. */
  method MoveAllOwing(f: Ftl, lpn: nat, sectOffset: nat, data: seq<Sector>, ghost pg: PageId, blk: Blk, fuel: nat)
    returns (o: Outcome, invalid: nat, risky: bool)
    requires OwCalm(f.View()) && AtRest(f) && f.g.owPending == {}
      && f.g.held == map[] && FillsBut(f.g.owFill, -1) && Owing(f.View(), blk, 0)
    requires sectOffset + |data| <= 64 && 0 < |data| && pg.Pg? && BlkOf(pg) == blk
    requires StillThere(f.g.live, lpn, pg, sectOffset / 8, (sectOffset + |data| - 1) / 8)
    modifies f
    ensures o.Pass? ==>
      OwCalm(f.View()) && AtRest(f) && f.g.owPending == {} && f.g.held == map[] && FillsBut(f.g.owFill, -1)
    ensures o.Pass? ==> Owing(f.View(), blk, invalid) && 0 < invalid && f.givenUp == old(f.givenUp)
    ensures o.Pass? ==> Wrote(ContentOf(old(f.View())), ContentOf(f.View()), lpn * 64 + sectOffset, data)
    ensures Lasts(Rooms(old(f.t)), Rooms(f.t), 1016 * |data|, o)
    ensures risky <==> RunsOut(OwBanks(old(f.t)), old(f.referenceBank), Pieces(sectOffset, |data|))
    ensures o.Fail? ==> risky
  {
    hide Inv, OwCalm, FillsBut, Content, Splice, Wrote, StillThere, StayIn, Lasts, Rooms, RunsOut, OwBanks, OwNow,
         StoreNeedsBlock, AfterStore, OwBankAt, Pieces;
    ghost var c0, rooms0 := ContentOf(f.View()), Rooms(f.t);
    LastsNothing(rooms0);
    ghost var last := (sectOffset + |data| - 1) / 8;
    ghost var left: nat := Pieces(sectOffset, |data|);
    var sect, remaining: nat := sectOffset, |data|;
    invalid, risky := 0, false;
    WroteNothing(c0, lpn * 64 + sectOffset);
    while remaining != 0
      invariant OwCalm(f.View()) && AtRest(f) && f.g.owPending == {}
        && f.g.held == map[] && FillsBut(f.g.owFill, -1) && Owing(f.View(), blk, invalid)
      invariant sect + remaining == sectOffset + |data| && sectOffset <= sect && (0 < invalid || remaining == |data|)
        && f.givenUp == old(f.givenUp)
      invariant remaining != 0 ==> StillThere(f.g.live, lpn, pg, sect / 8, last) && left == Pieces(sect, remaining)
      invariant remaining == 0 ==> left == 0
      invariant Wrote(c0, ContentOf(f.View()), lpn * 64 + sectOffset, data[..sect - sectOffset])
      invariant Lasts(rooms0, Rooms(f.t), 1016 * (sect - sectOffset), Pass)
      invariant RunsOut(OwBanks(old(f.t)), old(f.referenceBank), Pieces(sectOffset, |data|))
        <==> risky || RunsOut(OwBanks(f.t), f.referenceBank, left)
    {
      var n := if sect % 8 + remaining < 8 then remaining else 8 - sect % 8;
      NextPiece(sect, remaining, n);
      ghost var s1, t1, ref1, rooms1 := f.View(), f.t, f.referenceBank, Rooms(f.t);
      ThereAt(s1.live, lpn, pg, sect / 8, last) by { LastPiece(sect, remaining); }
      var collects;
      o, collects := MoveOwing(f, Key(lpn, sect / 8), sect % 8, data[sect - sectOffset..sect - sectOffset + n], blk,
                               invalid, fuel);
      OwingCost(rooms0, rooms1, Rooms(f.t), sect - sectOffset, n, |data|, o);
      TableLengths(s1);
      OwingRuns(t1, f.t, ref1, f.banks, left, collects);
      risky := risky || collects;
      if o.Fail? {
        return;
      }
      invalid, left := invalid + 1, left - 1;
      ThereStep(s1.live, f.g.live, lpn, pg, sect / 8, last);
      WroteMore(c0, ContentOf(s1), lpn, sectOffset, data, sect, n);
      sect := sect + n;
      remaining := remaining - n;
    }
    NoneRunsOut(OwBanks(f.t), f.referenceBank);
    assert data[..sect - sectOffset] == data;
    o := Pass;
  }

  lemma LastPiece(sect: nat, remaining: nat)
    requires 0 < remaining
    ensures sect / 8 <= (sect + remaining - 1) / 8
  {
  }

  lemma NoneRunsOut(xs: seq<OwBank>, bank: nat)
    ensures !RunsOut(xs, bank, 0)
  {
  }

  lemma OwingCost(rooms0: seq<Space>, rooms1: seq<Space>, rooms: seq<Space>, done: nat, n: nat, total: nat, o: Outcome)
    requires Lasts(rooms0, rooms1, 1016 * done, Pass) && Lasts(rooms1, rooms, 1016, o) && 1 <= n && done + n <= total
    ensures Lasts(rooms0, rooms, 1016 * (done + n), o) && Lasts(rooms0, rooms, 1016 * total, o)
  {
    hide Lasts;
    LastsMore(rooms1, rooms, 1016, 1016 * n, o);
    LastsStep(rooms0, rooms1, rooms, 1016 * done, 1016 * n, 1016 * total, o);
  }

  lemma OwingRuns(s: Tables, t: Tables, ref: nat, banks: nat, left: nat, collects: bool)
    requires 0 < left && ref < banks == |s.owCtrl|
    requires collects <==> StoreNeedsBlock(OwBankAt(s, NthBank(ref, banks, 1)))
    requires !collects ==> OwNow(s, t, NthBank(ref, banks, 1), AfterStore(OwBankAt(s, NthBank(ref, banks, 1))))
    ensures collects ==> RunsOut(OwBanks(s), ref, left)
    ensures !collects ==> (RunsOut(OwBanks(s), ref, left) <==> RunsOut(OwBanks(t), NthBank(ref, banks, 1), left - 1))
  {
    hide OwNow, StoreNeedsBlock, AfterStore, OwBankAt;
    var b := NthBank(ref, banks, 1);
    assert b == (NthBank(ref, banks, 0) + 1) % banks == (ref + 1) % banks;
    if !collects {
      OwNowBanks(s, t, b, AfterStore(OwBankAt(s, b)));
    }
  }

  lemma ThereAt(live: map<Key, Loc>, lpn: nat, pg: PageId, i: nat, last: nat)
    requires StillThere(live, lpn, pg, i, last) && i <= last
    ensures Key(lpn, i) in live && live[Key(lpn, i)] == Loc(true, pg, i)
  {
  }

  // ----- complete pages -----

  ghost function HostOwPage(s: St, b: nat, lpn: nat, data: seq<Sector>): St
    requires b < |s.ow| && s.ow[b].OwOpen? && b < |s.owList| && |data| == 64
  {
    var c := s.ow[b];
    var blk := Blk(b, c.lbn);
    var adds := PageAdds(lpn, Pg(b, c.lbn, c.page), true, 8);
    var list := WriteNames(s.owList[b], c.page, HostNames(lpn));
    s.(live := s.live + adds, cmap := s.cmap + adds, held := s.held - adds.Keys,
       flash := s.flash[Pg(b, c.lbn, c.page) := Data(Chunks(data), 1)],
       owList := s.owList[b := list], lists := s.lists[blk := list], owCnt := BumpCounter(s.owCnt, blk, c.page),
       role := s.role[blk := OpenOw(NextOw(c.page))], owPending := s.owPending + {b}, trace := Then(s.trace,
           Program(Pg(b, c.lbn, c.page), OwData)))
  }

  lemma HostOwPageIsProgram(s: St, b: nat, lpn: nat, data: seq<Sector>)
    requires b < |s.ow| && s.ow[b].OwOpen? && b < |s.owList| && b < |s.owFill| && |data| == 64
    ensures |PageAdds(lpn, Pg(b, s.ow[b].lbn, s.ow[b].page), true, 8)| == 8
    ensures HostOwPage(s, b, lpn, data)
         == ProgramOw(s, b, PageAdds(lpn, Pg(b, s.ow[b].lbn, s.ow[b].page), true, 8), Chunks(data), HostNames(lpn),
                      false)
  {
    hide WriteNames, Chunks, PageAdds, BumpCounter;
    PageAddsAt(lpn, Pg(b, s.ow[b].lbn, s.ow[b].page), true, 8);
    MinusNone(s.oCount, Blk(b, s.ow[b].lbn));
  }

  /** The loop of overwriteCompletePageInOwLog over list and table entries. */
  method WriteHostOwSlots(f: Ftl, b: nat, lpn: nat)
    requires b < |f.t.owCtrl| && f.t.owCtrl[b].OwOpen? && f.t.owCtrl[b].page <= 123 && b < |f.t.owLpns|
      && |f.t.owLpns[b]| == CHUNKS_PER_BLK
    modifies f`t
    ensures var o := old(f.t); var c := o.owCtrl[b];
      f.t == o.(chunksMap := o.chunksMap + PageAdds(lpn, Pg(b, c.lbn, c.page), true, 8),
                owLpns := o.owLpns[b := WriteNames(o.owLpns[b], c.page, HostNames(lpn))])
  {
    hide WriteNames, NamesUpto, PageAdds, HostNames;
    var c := f.t.owCtrl[b];
    var dst := Pg(b, c.lbn, c.page);
    HostNamesAt(lpn);
    ghost var o := f.t;
    ghost var list := o.owLpns[b];
    NamesEnds(list, c.page, HostNames(lpn));
    PageAddsMore(o.chunksMap, lpn, dst, true, 0);
    for i := 0 to 8
      invariant f.t
        == o.(chunksMap := o.chunksMap + PageAdds(lpn, dst, true, i),
              owLpns := o.owLpns[b := NamesUpto(list, c.page, HostNames(lpn), i)])
    {
      NamesStep(list, c.page, HostNames(lpn), i);
      NamesUptoLength(list, c.page, HostNames(lpn), i);
      f.t := f.t.(owLpns := f.t.owLpns[b := f.t.owLpns[b][c.page * 8 + i := Some(lpn)]],
                  chunksMap := f.t.chunksMap[Key(lpn, i) := Loc(true, dst, i)]);
      PageAddsMore(o.chunksMap, lpn, dst, true, i);
    }
  }

  method ProgramHostOwPage(f: Ftl, b: nat, lpn: nat, data: seq<Sector>)
    requires b < |f.t.owCtrl| && f.t.owCtrl[b].OwOpen? && f.t.owCtrl[b].page <= 123 && b < |f.t.owLpns|
      && |f.t.owLpns[b]| == CHUNKS_PER_BLK && |data| == 64
    requires Blk(b, f.t.owCtrl[b].lbn) in f.t.owCounters && |f.t.owCounters[Blk(b, f.t.owCtrl[b].lbn)]| == PAGES_PER_BLK
    requires Pg(b, f.t.owCtrl[b].lbn, f.t.owCtrl[b].page) !in f.t.flash
    modifies f`t, f`g
    ensures SameCursorsOw(old(f.t), f.t)
    ensures f.View() == HostOwPage(old(f.View()), b, lpn, data)
  {
    hide WriteNames, PageAdds, Chunks, BumpCounter, NandProgram;
    var c := f.t.owCtrl[b];
    ghost var s := f.View();
    ghost var adds := PageAdds(lpn, Pg(b, c.lbn, c.page), true, 8);
    NandErased(f.t.flash, Pg(b, c.lbn, c.page), Data(Chunks(data), 1));
    f.t := f.t.(flash := NandProgram(f.t.flash, Pg(b, c.lbn, c.page), Data(Chunks(data), 1)));
    IncreaseOwCounter(f, Blk(b, c.lbn), c.page);
    WriteHostOwSlots(f, b, lpn);
    f.g := f.g.(live := s.live + adds, held := s.held - adds.Keys, lists := s.lists[Blk(b, c.lbn) := f.t.owLpns[b]],
                role := s.role[Blk(b, c.lbn) := OpenOw(NextOw(c.page))], owPending := s.owPending + {b},
                trace := Then(s.trace, Program(Pg(b, c.lbn, c.page), OwData)));
  }

  lemma OwPageRoom(s: St, b: nat)
    requires Inv(s) && b < |s.ow| && s.ow[b].OwOpen?
    ensures var blk := Blk(b, s.ow[b].lbn);
      && s.ow[b].page <= 123 && b < |s.owList| && |s.owList[b]| == CHUNKS_PER_BLK && b < |s.owFill| && blk in s.owCnt
      && |s.owCnt[blk]| == PAGES_PER_BLK
      && blk in s.role && !s.role[blk].Victim?
  {
    OwFacts(s, b);
    hide MapOK, StaleOK, DramOK, FlashOK, Inj, WCounts, OCounts, CleanOK, MembersOK, RwOK, OwOK, Erased, ListPages;
  }

  lemma HostOwPageInv(s: St, b: nat, lpn: nat, data: seq<Sector>)
    requires OwCalm(s) && s.owPending == {} && b < |s.ow| && s.ow[b].OwOpen? && b < |s.owList| && |data| == 64
      && s.held == PageMap(lpn, data, 8)
    ensures Inv(HostOwPage(s, b, lpn, data)) && VRoles(HostOwPage(s, b, lpn, data).role) == VRoles(s.role)
  {
    hide Inv, WriteNames, PageAdds, Chunks, Content, AddsOK, PageMap, Minus, NewData, BumpCounter, VRoles, FillsBut,
         RwReady, HostNames, NextOw;
    OwPageRoom(s, b);
    var dst := Pg(b, s.ow[b].lbn, s.ow[b].page);
    HeldPage(s, lpn, data, dst, true);
    PageAddsOK(s.live, s.role, lpn, dst, true, b);
    HostOwPageIsProgram(s, b, lpn, data);
    ChunksLength(data);
    ProgramOwInv(s, b, PageAdds(lpn, dst, true, 8), Chunks(data), HostNames(lpn), false);
    VRolesSame(s.role, Blk(b, s.ow[b].lbn), OpenOw(NextOw(s.ow[b].page)));
  }

  lemma HostOwPageContent(s: St, b: nat, lpn: nat, data: seq<Sector>)
    requires OwCalm(s) && s.owPending == {} && b < |s.ow| && s.ow[b].OwOpen? && b < |s.owList| && |data| == 64
      && s.held == PageMap(lpn, data, 8)
    ensures HostOwPage(s, b, lpn, data).held == map[] && ContentOf(HostOwPage(s, b, lpn, data)) == ContentOf(s)
  {
    hide Inv, WriteNames, PageAdds, Chunks, Content, PageMap, NewData, BumpCounter, VRoles, FillsBut, RwReady,
         HostNames, NextOw;
    var dst := Pg(b, s.ow[b].lbn, s.ow[b].page);
    HeldPage(s, lpn, data, dst, true);
    FreshOw(s, b);
    DisjointHeld(s);
    PageAddsAt(lpn, dst, true, 8);
    ProgramContent(s.live, s.held, s.logBuf, s.owBuf, s.flash, PageAdds(lpn, dst, true, 8), dst, Chunks(data));
  }

  lemma HostOwPageCalm(s: St, b: nat, lpn: nat, data: seq<Sector>)
    requires OwCalm(s) && s.owPending == {} && b < |s.ow| && s.ow[b].OwOpen? && b < |s.owList| && |data| == 64
      && s.held == PageMap(lpn, data, 8)
    ensures var t := HostOwPage(s, b, lpn, data);
      && OwCalm(t) && t.owPending == {b}
      && t.held == map[] && t.debt == s.debt && t.owFill == s.owFill && t.ow == s.ow && t.clean == s.clean
      && ContentOf(t) == ContentOf(s)
  {
    hide Inv, WriteNames, PageAdds, Chunks, Content, PageMap, BumpCounter, VRoles, FillsBut, RwReady, HostNames, NextOw;
    HostOwPageInv(s, b, lpn, data);
    HostOwPageContent(s, b, lpn, data);
  }

  lemma FlightCalm(s: St, t: St, lpn: nat, data: seq<Sector>)
    requires Settled(s) && |data| == 64 && InFlight(s, t, lpn, data, 8)
    ensures OwCalm(t) && t.held == PageMap(lpn, data, 8) && t.owPending == {} && t.owFill == s.owFill
      && t.debt.amount == 0 && t.banks == s.banks
    ensures ContentOf(t) == ContentOf(s) + PageMap(lpn, data, 8) && SameRest(s, t)
  {
    hide Inv, Content, VRoles, FillsBut, RwReady, PageMap;
  }

  /** The blocks that hold old versions of a page. */
  function FlashBlks(m: map<Key, Loc>, lpn: nat): set<Blk> {
    set i | 0 <= i < 8 && Key(lpn, i) in m && m[Key(lpn, i)].page.Pg? :: BlkOf(m[Key(lpn, i)].page)
  }

  /** Some chunk of the page is mapped to flash. */
  predicate SomeInFlash(m: map<Key, Loc>, lpn: nat) {
    exists i :: 0 <= i < 8 && Key(lpn, i) in m && m[Key(lpn, i)].page.Pg?
  }

  lemma NoFlashBlks(m: map<Key, Loc>, lpn: nat)
    ensures FlashBlks(m, lpn) == {} <==> !SomeInFlash(m, lpn)
  {
    if SomeInFlash(m, lpn) {
      var i :| 0 <= i < 8 && Key(lpn, i) in m && m[Key(lpn, i)].page.Pg?;
      assert BlkOf(m[Key(lpn, i)].page) in FlashBlks(m, lpn);
    }
  }

  /** Every full block of the bank holds an old version of the page. */
  ghost predicate AllHold(t: Tables, lpn: nat, bank: nat) {
    forall m | m in t.writeHeap + t.owHeap && m.bank == bank ::
      exists i :: 0 <= i < 8 && Key(lpn, i) in t.chunksMap && InBlk(t.chunksMap[Key(lpn, i)].page, m)
  }

  lemma HoldTrips(t: Tables, s: St, lpn: nat, data: seq<Sector>, bank: nat)
    requires |data| == 64 && s.held == PageMap(lpn, data, 8) && s.cmap == t.chunksMap && s.wIn == t.writeHeap
      && s.oIn == t.owHeap
    ensures AllHold(t, lpn, bank) ==> AllTripped(s, bank)
  {
    hide PageMap;
    PageMapAt(lpn, data, 8);
    if AllHold(t, lpn, bank) {
      forall m | (m in s.wIn || m in s.oIn) && m.bank == bank ensures Tripped(s, m) {
        assert m in t.writeHeap + t.owHeap;
        var i :| 0 <= i < 8 && Key(lpn, i) in t.chunksMap && InBlk(t.chunksMap[Key(lpn, i)].page, m);
        assert Key(lpn, i) in s.held;
      }
    }
  }

  /** If the bank next in turn needs no collection for it, it takes the page; only a flush of that bank's overwrite
      buffer moves other chunks. */
  ghost predicate TakesPage(s: St, ref: nat, t: St, ref': nat, lpn: nat, o: Outcome) {
    0 < s.banks && !FlushNeedsBlock(OwBankAt(TablesOf(s), NthBank(ref, s.banks, 1))) ==>
      var b := NthBank(ref, s.banks, 1);
      && o.Pass? && ref' == b && OwNow(TablesOf(s), TablesOf(t), b, Flushed(OwBankAt(TablesOf(s), b)))
      && OwSent(s.live, t.live, Touched(lpn, 0, 64), b)
  }

  /** overwriteCompletePageInOwLog: the old versions are given up, then the page is programmed.
      `risky` tells whether a collection was started while the table still pointed at old versions in flash. */
  method OverwriteCompletePage(f: Ftl, lpn: nat, data: seq<Sector>, fuel: nat) returns (o: Outcome, risky: bool)
    requires Ready(f) && |data| == 64
    modifies f
    ensures o.Pass? ==> Ready(f) && ContentOf(f.View()) == ContentOf(old(f.View())) + PageMap(lpn, data, 8)
    ensures Lasts(Rooms(old(f.t)), Rooms(f.t), 1016, o)
    ensures risky
      <==> NeedsBlock(OwBankAt(old(f.t), NthBank(old(f.referenceBank), f.banks, 1)))
           && SomeInFlash(old(f.t.chunksMap), lpn)
    ensures o == Fail(UnsafeCollection) ==> risky
    ensures var b := NthBank(old(f.referenceBank), f.banks, 1);
      NeedsBlock(OwBankAt(old(f.t), b)) && AllHold(old(f.t), lpn, b) ==> o.Fail?
    ensures TakesPage(old(f.View()), old(f.referenceBank), f.View(), f.referenceBank, lpn, o)
  {
    hide Inv, OwCalm, FillsBut, Settled, Content, InFlight, PageMap, HostOwPage, AllHold, AllTripped, Lasts, Rooms,
         OwBankAt, NeedsBlock, FlushOutcome, OwOpened, FlashBlks, SomeInFlash, OwedStay, OwAdvanced, OwSent, Flushed,
         FlushNeedsBlock, OwNow, Touched, OwRefills, Affordable, PageAdds, Lifted;
    OwStart(f.View());
    var bank := ChooseNewBank(f);
    ghost var s := f.View();
    OwStart(s);
    TableLengths(s);
    f.givenUp := FlashBlks(f.t.chunksMap, lpn);
    NoFlashBlks(f.t.chunksMap, lpn);
    risky := f.givenUp != {};
    ManageOldCompletePage(f, lpn, data);
    FlightCalm(s, f.View(), lpn, data);
    ghost var s0, t0 := f.View(), f.t;
    SameOwBank(old(f.t), t0, bank);
    HoldTrips(old(f.t), f.View(), lpn, data, bank);
    var first, second;
    o, first := GetOWLpn(f, bank, fuel);
    risky := risky && first;
    if o.Fail? {
      FlushStops(t0, f.t, bank, o);
      FlushLasts(t0, f.t, bank, 1016, o, true);
      return;
    }
    ghost var t1 := f.t;
    ProgramCompletePage(f, lpn, bank, data);
    ghost var t2 := f.t;
    o, second := IncreaseOWLpn(f, bank, fuel);
    FlushEnds(t0, t1, t2, f.t, bank, o, first, second);
    FlushLasts(t0, f.t, bank, 1016, o, first || second);
    FlushNow(old(f.t), t0, f.t, bank, o, first || second);
    if !first && !second {
      OwPageSent(s, s0, f.g.live, lpn, data, Pg(bank, t1.owCtrl[bank].lbn, t1.owCtrl[bank].page));
    }
    if o.Pass? {
      OwDone(f.View());
    }
  }

  /** A flush after old versions were given up is a flush. */
  lemma FlushNow(s: Tables, m: Tables, t: Tables, bank: nat, o: Outcome, collects: bool)
    requires m.owCtrl == s.owCtrl && m.cleanList == s.cleanList && m.owChunkPtr == s.owChunkPtr && SameRwSide(s, m)
    requires FlushOutcome(m, t, bank, o, collects)
    ensures FlushNeedsBlock(OwBankAt(s, bank)) <==> collects
    ensures !collects ==> o.Pass? && OwNow(s, t, bank, Flushed(OwBankAt(s, bank)))
  {
    hide Flushed, FlushNeedsBlock;
    forall b: nat ensures OwBankAt(m, b) == OwBankAt(s, b) {
    }
  }

  lemma OwPageSent(s: St, s0: St, m: map<Key, Loc>, lpn: nat, data: seq<Sector>, dst: PageId)
    requires |data| == 64 && InFlight(s, s0, lpn, data, 8) && dst.Pg? && m == s0.live + PageAdds(lpn, dst, true, 8)
    ensures OwSent(s.live, m, Touched(lpn, 0, 64), dst.bank)
  {
    hide Idle, Content, PageMap, PageAdds;
    PageMapAt(lpn, data, 8);
    assert PageMap(lpn, data, 8).Keys == Touched(lpn, 0, 64);
    OwAddsSent(s.live, lpn, dst);
  }

  lemma OwAddsSent(m: map<Key, Loc>, lpn: nat, dst: PageId)
    requires dst.Pg?
    ensures OwSent(m, m - Touched(lpn, 0, 64) + PageAdds(lpn, dst, true, 8), Touched(lpn, 0, 64), dst.bank)
  {
    hide PageAdds;
    PageAddsAt(lpn, dst, true, 8);
  }

  /** The page in flight goes to the next low page of the bank's open overwrite block, and the table points there. */
  method ProgramCompletePage(f: Ftl, lpn: nat, bank: nat, data: seq<Sector>)
    requires OwCalm(f.View()) && f.g.owPending == {} && bank < |f.t.owCtrl| && f.t.owCtrl[bank].OwOpen? && |data| == 64
      && f.g.held == PageMap(lpn, data, 8)
    requires Tracked(f)
    modifies f`t, f`g, f`inRam, f`givenUp
    ensures Tracked(f) && f.givenUp == {}
    ensures OwCalm(f.View()) && f.g.owPending == {bank}
      && f.g.held == map[] && f.g.debt == old(f.g.debt) && f.g.owFill == old(f.g.owFill)
    ensures ContentOf(f.View()) == ContentOf(old(f.View())) && SameCursorsOw(old(f.t), f.t)
    ensures var c := old(f.t.owCtrl[bank]);
      f.g.live == old(f.g.live) + PageAdds(lpn, Pg(bank, c.lbn, c.page), true, 8)
  {
    hide Inv, OwCalm, FillsBut, Content, PageMap;
    ghost var s := f.View();
    CalmParts(s);
    OwPageRoom(s, bank);
    HostOwPageCalm(s, bank, lpn, data);
    FreshOw(s, bank);
    ProgramHostOwPage(f, bank, lpn, data);
    f.inRam, f.givenUp := {}, {};
  }

  lemma SameOwBank(s: Tables, t: Tables, b: nat)
    requires t.owCtrl == s.owCtrl && t.cleanList == s.cleanList && t.owChunkPtr == s.owChunkPtr && SameRwSide(s, t)
    ensures OwBankAt(t, b) == OwBankAt(s, b) && Rooms(t) == Rooms(s)
  {
  }

  /** The request needs new slots, and a bank in turn has none without a collection. */
  predicate NewPageBlocked(t: Tables, ref: nat, banks: nat, sectOffset: nat, n: nat)
    requires 0 < n && 0 < banks
  {
    if n == 64 then NeedsBlock(OwBankAt(t, NthBank(ref, banks, 1)))
    else RunsOut(OwBanks(t), NthBank(ref, banks, 1), Pieces(sectOffset, n))
  }

  /** An overwrite request starts a collection while the table points at old versions in flash or while counts are owed:
      its chunks fill one page in order whose counter is used up, or it is a whole page with some old version in flash,
      and there is no room without a collection. */
  ghost predicate OverwriteRisky(t: Tables, ref: nat, banks: nat, lpn: nat, sectOffset: nat, n: nat)
    requires 0 < n && 0 < banks
  {
    && (if InOwPageInOrder(t.chunksMap, lpn, sectOffset / 8, (sectOffset + n - 1) / 8) then ExhaustedPage(t, lpn,
        sectOffset / 8)
        else n == 64 && SomeInFlash(t.chunksMap, lpn))
    && NewPageBlocked(t, ref, banks, sectOffset, n)
  }

  /** overwritePageOldInOrderInOwLog. */
  method OverwriteInOrder(f: Ftl, lpn: nat, sectOffset: nat, data: seq<Sector>, fuel: nat)
    returns (o: Outcome, risky: bool)
    requires Ready(f) && sectOffset + |data| <= 64 && 0 < |data|
    requires InOwPageInOrder(f.t.chunksMap, lpn, sectOffset / 8, (sectOffset + |data| - 1) / 8)
    modifies f
    ensures o.Pass? ==>
      Ready(f) && Overwrote(ContentOf(old(f.View())), ContentOf(f.View()), lpn * 64 + sectOffset, data)
    ensures Lasts(Rooms(old(f.t)), Rooms(f.t), 1016 * |data|, o)
    ensures risky
      <==> ExhaustedPage(old(f.t), lpn, sectOffset / 8)
           && NewPageBlocked(old(f.t), old(f.referenceBank), f.banks, sectOffset, |data|)
    ensures !ExhaustedPage(old(f.t), lpn, sectOffset / 8) ==>
      o.Pass? && NothingMoved(old(f.View()), old(f.referenceBank), f.View(), f.referenceBank)
    ensures ExhaustedPage(old(f.t), lpn, sectOffset / 8) && |data| == 64 ==>
      TakesPage(old(f.View()), old(f.referenceBank), f.View(), f.referenceBank, lpn, o)
    ensures o == Fail(UnsafeCollection) ==> risky
  {
    hide Inv, VRoles, FillsBut, Settled, Content, Wrote, Burned, Overwrote, PageMap, Aligned, InOwPageInOrder, LowPage,
         CountedOw, Lasts, Rooms, OwBankAt, RunsOut, OwBanks, Pieces, SomeInFlash, NothingMoved, BumpCounter,
         FlushNeedsBlock, Flushed, OwNow, OwSent, Touched;
    risky := false;
    SameRooms(f.t, f.t, 1016 * |data|);
    ghost var s := f.View();
    ghost var lba := lpn * 64 + sectOffset;
    OwStart(s);
    FlashShape(s);
    ghost var first, last := sectOffset / 8, (sectOffset + |data| - 1) / 8;
    InOrderAt(s.live, lpn, first, last, first);
    var loc := f.t.chunksMap[Key(lpn, sectOffset / 8)];
    LowLive(s, Key(lpn, first));
    PageAligned(s.live, lpn, sectOffset, |data|);
    var n := ReadOwCounter(f, BlkOf(loc.page), loc.page.page);
    if n < OW_LIMIT {
      BurnInPlace(f, Key(lpn, first), loc.page, sectOffset, data, lba);
      NothingSpent(s, f.referenceBank, f.View(), f.referenceBank, 1016 * |data|);
    } else if |data| == 64 {
      WrotePage(ContentOf(s), lpn, data, 8);
      assert data[..64] == data;
      o, risky := OverwriteCompletePage(f, lpn, data, fuel);
      InOrderInFlash(s.live, lpn, first, last);
      LastsMore(Rooms(old(f.t)), Rooms(f.t), 1016, 1016 * |data|, o);
      if o.Fail? {
        return;
      }
    } else {
      InOrderThere(s.live, lpn, first, last);
      o, risky := OverwriteExhausted(f, lpn, sectOffset, data, loc.page, BlkOf(loc.page), fuel);
      if o.Fail? {
        return;
      }
    }
    EitherOverwrote(ContentOf(s), ContentOf(f.View()), lba, data);
    o := Pass;
  }

  lemma InOrderInFlash(live: map<Key, Loc>, lpn: nat, first: nat, last: nat)
    requires InOwPageInOrder(live, lpn, first, last) && first < 8
    ensures SomeInFlash(live, lpn)
  {
  }

  lemma InOrderThere(live: map<Key, Loc>, lpn: nat, first: nat, last: nat)
    requires InOwPageInOrder(live, lpn, first, last)
    ensures StillThere(live, lpn, live[Key(lpn, first)].page, first, last)
  {
  }

  /** The request changes data where it is: its chunks fill one overwrite page in order that is not exhausted, or, for
      part of a page, none of them has to move. */
  ghost predicate BurnsInPlace(t: Tables, lpn: nat, sectOffset: nat, n: nat)
    requires 0 < n
  {
    var first, last := sectOffset / 8, (sectOffset + n - 1) / 8;
    if InOwPageInOrder(t.chunksMap, lpn, first, last) then !ExhaustedPage(t, lpn, first)
    else n != 64 && AllInPlace(t.chunksMap, t.owCounters, lpn, first, last)
  }

  /** overwriteToLogBlk: part of one page, or a whole page, by where the old version is.
      `risky` tells whether a collection was started between giving up old versions and accounting for it;
      only then can a collection meet a block whose entries and heap value disagree. */
  method OverwriteToLogBlk(f: Ftl, lpn: nat, sectOffset: nat, data: seq<Sector>, fuel: nat)
    returns (o: Outcome, risky: bool)
    requires Ready(f) && sectOffset + |data| <= 64 && 0 < |data|
    modifies f
    ensures o.Pass? ==>
      Ready(f) && Overwrote(ContentOf(old(f.View())), ContentOf(f.View()), lpn * 64 + sectOffset, data)
    ensures Lasts(Rooms(old(f.t)), Rooms(f.t), 1016 * |data|, o)
    ensures risky <==> OverwriteRisky(old(f.t), old(f.referenceBank), f.banks, lpn, sectOffset, |data|)
    ensures BurnsInPlace(old(f.t), lpn, sectOffset, |data|) ==>
      o.Pass? && NothingMoved(old(f.View()), old(f.referenceBank), f.View(), f.referenceBank)
    ensures !BurnsInPlace(old(f.t), lpn, sectOffset, |data|) && |data| == 64 ==>
      TakesPage(old(f.View()), old(f.referenceBank), f.View(), f.referenceBank, lpn, o)
    ensures o == Fail(UnsafeCollection) ==> risky
  {
    hide Inv, Settled, Content, Wrote, Burned, Overwrote, PageMap, InOwPageInOrder, Lasts, Rooms, ExhaustedPage,
         OwBankAt, RunsOut, OwBanks, Pieces, SomeInFlash, NothingMoved, TakesPage, AllInPlace;
    risky := false;
    ghost var s := f.View();
    OwStart(s);
    FlashShape(s);
    var inOrder := OldVersionIsInOwLogInOrder(f.t, lpn, sectOffset, |data|);
    if inOrder {
      o, risky := OverwriteInOrder(f, lpn, sectOffset, data, fuel);
    } else if |data| != 64 {
      o := OverwriteNotInOrder(f, lpn, sectOffset, data, fuel);
    } else {
      WrotePage(ContentOf(s), lpn, data, 8);
      assert data[..64] == data;
      o, risky := OverwriteCompletePage(f, lpn, data, fuel);
      LastsMore(Rooms(old(f.t)), Rooms(f.t), 1016, 1016 * |data|, o);
      if o.Pass? {
        EitherOverwrote(ContentOf(s), ContentOf(f.View()), lpn * 64, data);
      }
    }
  }
}
