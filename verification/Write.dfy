/** write.c: host writes with the overwrite bit clear. */
module Write {
  import opened Base
  import opened Nand
  import opened State
  import opened Steps
  import opened FtlTables
  import opened ChunkMoves
  import opened PageMoves
  import opened Measure
  import opened VictimFrame
  import opened Internal
  import opened Log
  import opened Room
  import opened Victims
  import opened Endurance

  // ----- the flat device -----

  /** What sector `lba` of the device holds: 0xFF where nothing was written. */
  ghost function SectorAt(c: map<Key, Chunk>, lba: nat): Sector {
    var k := Key(lba / 64, lba % 64 / 8);
    if k in c then c[k][lba % 8] else BlankSector()
  }

  /** `c'` is `c` with the sectors from `lba` on replaced by `data`, and nothing else changed. */
  ghost predicate Wrote(c: map<Key, Chunk>, c': map<Key, Chunk>, lba: nat, data: seq<Sector>) {
    forall x: nat :: SectorAt(c', x) == if lba <= x < lba + |data| then data[x - lba] else SectorAt(c, x)
  }

  ghost function ChunkAt(c: map<Key, Chunk>, k: Key): Chunk {
    if k in c then c[k] else BlankChunk()
  }

  lemma SpliceAt(c: Chunk, off: nat, data: seq<Sector>, i: nat)
    requires off + |data| <= 8 && i < 8
    ensures Splice(c, off, data)[i] == if off <= i < off + |data| then data[i - off] else c[i]
  {
  }

  lemma WroteChunk(c: map<Key, Chunk>, k: Key, off: nat, data: seq<Sector>)
    requires off + |data| <= 8 && k.idx < 8
    ensures Wrote(c, c[k := Splice(ChunkAt(c, k), off, data)], k.lpn * 64 + k.idx * 8 + off, data)
  {
    var c' := c[k := Splice(ChunkAt(c, k), off, data)];
    var a := k.lpn * 64 + k.idx * 8;
    forall x: nat
      ensures SectorAt(c', x) == if a + off <= x < a + off + |data| then data[x - a - off] else SectorAt(c, x)
    {
      if a <= x < a + 8 {
        assert x / 64 == k.lpn && x % 64 / 8 == k.idx && x % 8 == x - a;
        SpliceAt(ChunkAt(c, k), off, data, x - a);
      } else {
        assert Key(x / 64, x % 64 / 8) != k;
      }
    }
  }

  lemma WroteThen(c: map<Key, Chunk>, c1: map<Key, Chunk>, c2: map<Key, Chunk>, lba: nat, d1: seq<Sector>,
                  d2: seq<Sector>)
    requires Wrote(c, c1, lba, d1) && Wrote(c1, c2, lba + |d1|, d2)
    ensures Wrote(c, c2, lba, d1 + d2)
  {
    hide SectorAt;
  }

  lemma WroteNothing(c: map<Key, Chunk>, lba: nat)
    ensures Wrote(c, c, lba, [])
  {
  }

  // ----- between host calls -----

  /** No collection is active: no victims, no chunk only in RAM, no buffer waiting to be flushed. */
  ghost predicate Settled(s: St) {
    && Idle(s) && s.owPending == {} && FillsBut(s.owFill, -1)
    && s.held == map[] && s.debt.amount == 0 && VRoles(s.role) == map[]
  }

  ghost predicate Ready(f: Ftl)
    reads f
  {
    Settled(f.View()) && Sys(f) && f.givenUp == {} && forall b | 0 <= b < |f.gcNestLevel| :: f.gcNestLevel[b] == 0
  }

  ghost predicate SameRest(s: St, t: St) {
    t.owPending == s.owPending && t.owFill == s.owFill && t.banks == s.banks && t.clean == s.clean
    && t.rw == s.rw && t.ptr == s.ptr && t.ow == s.ow && t.owPtr == s.owPtr && t.debt == s.debt
  }

  lemma KeptSettled(s: St, t: St)
    requires Settled(s) && Idle(t) && Kept(s, t)
    ensures Settled(t) && ContentOf(t) == ContentOf(s)
  {
    hide Idle, Content, Stale, Slack, VRoles;
    assert Frm(t).roles == Frm(s).roles;
  }

  // ----- an old version is given up -----

  lemma NoVictim(role: map<Blk, Role>, blk: Blk)
    requires VRoles(role) == map[]
    ensures !IsVictim(role, blk)
  {
    assert IsVictim(role, blk) ==> blk in VRoles(role);
  }

  lemma AbandonFacts(s: St, k: Key)
    requires Inv(s) && VRoles(s.role) == map[] && k !in s.held
    ensures k in s.cmap <==> k in s.live
    ensures k in s.live ==> s.cmap[k] == s.live[k] && s.live[k].slot < 8
    ensures k in s.live && s.live[k].page.Buf? ==> s.live[k].ow == s.live[k].page.ow && s.live[k].page.bank < s.banks
    ensures k in s.live && s.live[k].page.Pg? && !s.live[k].ow ==> OnRw(s.live, s.role, k) && !OnOw(s.live, s.role, k)
    ensures k in s.live && s.live[k].page.Pg? && s.live[k].ow ==> OnOw(s.live, s.role, k) && !OnRw(s.live, s.role, k)
    ensures |s.meta| == |s.owMeta| == |s.logBuf| == |s.owBuf| == s.banks
    ensures forall b | 0 <= b < s.banks ::
      |s.meta[b]| == 8 && |s.owMeta[b]| == 8 && |s.logBuf[b]| == 8 && |s.owBuf[b]| == 8
  {
    hide WCounts, OCounts, CleanOK, MembersOK, RwOK, OwOK, ListPages, Erased, Budget, TraceOK, StaleOK, Inj, RoleShape,
         ListShape;
    if k in s.live && s.live[k].page.Pg? {
      assert FlashKeyOK(k, s.live[k], s.flash, s.lists, s.role);
      NoVictim(s.role, BlkOf(s.live[k].page));
    }
  }

  lemma AbandonCounts(s: St, k: Key)
    requires Inv(s)
    ensures OnRw(s.live, s.role, k) ==> BlkOf(s.live[k].page) in s.wCount && 0 < s.wCount[BlkOf(s.live[k].page)]
    ensures OnOw(s.live, s.role, k) ==> BlkOf(s.live[k].page) in s.oCount && 0 < s.oCount[BlkOf(s.live[k].page)]
  {
    DetachW(s.live, s.role, s.wCount, k);
    DetachO(s.live, s.role, s.oCount, s.debt, k);
  }

  /** manageOldChunkForCompletePageWrite and the like: the old version of `k`, wherever it is, is invalidated.
      The counter decremented is never zero. */
  method InvalidateOld(f: Ftl, k: Key)
    requires Inv(f.View()) && VRoles(f.g.role) == map[] && k !in f.g.held
    modifies f`t
    ensures f.t == old(f.t).(
      logBufMeta := ClearMeta(old(f.t.logBufMeta), f.g.live, k, false), owLogBufMeta := ClearMeta(old(f.t.owLogBufMeta),
          f.g.live, k, true),
      writeCount := OneLessRw(old(f.t.writeCount), f.g.live, f.g.role, k), owCount := OneLessOw(old(f.t.owCount),
          f.g.live, f.g.role, k))
  {
    hide Inv, VRoles;
    ghost var s := f.View();
    AbandonFacts(s, k);
    AbandonCounts(s, k);
    match LocationOf(Lookup(f.t.chunksMap, k)) {
      case Invalid =>
      case FlashWLog =>
        f.t := f.t.(writeCount := MinusOne(f.t.writeCount, BlkOf(f.t.chunksMap[k].page)));
      case DRAMWLog =>
        f.t := f.t.(logBufMeta := SetSlot(f.t.logBufMeta, f.t.chunksMap[k].page.bank, f.t.chunksMap[k].slot, None));
      case DRAMOwLog =>
        f.t := f.t.(owLogBufMeta := SetSlot(f.t.owLogBufMeta, f.t.chunksMap[k].page.bank, f.t.chunksMap[k].slot, None));
      case FlashOwLog =>
        f.t := f.t.(owCount := MinusOne(f.t.owCount, BlkOf(f.t.chunksMap[k].page)));
    }
  }

  /** The old version is invalidated; the new one, `d`, is only in RAM. */
  method AbandonChunk(f: Ftl, k: Key, ghost d: Chunk)
    requires Inv(f.View()) && VRoles(f.g.role) == map[] && k !in f.g.held && Tracked(f)
    modifies f`t, f`g, f`inRam
    ensures f.View() == Detach(old(f.View()), k, d) && Tracked(f)
    ensures f.t.chunksMap == old(f.t.chunksMap) && f.t.writeHeap == old(f.t.writeHeap) && f.t.owHeap == old(f.t.owHeap)
  {
    hide Inv, VRoles, ClearMeta, OneLessRw, OneLessOw;
    InvalidateOld(f, k);
    f.g := f.g.(live := f.g.live - {k}, held := f.g.held[k := d]);
    f.inRam := f.inRam + {k};
  }

  lemma DetachFields(s: St, k: Key, d: Chunk)
    ensures var t := Detach(s, k, d);
      && t.live == s.live - {k} && t.held == s.held[k := d] && t.role == s.role && t.cmap == s.cmap
      && t.pending == s.pending
      && t.rw == s.rw && t.wIn == s.wIn && t.debt == s.debt && t.fill == s.fill && SameRest(s, t)
  {
    hide ClearMeta, OneLessRw, OneLessOw;
  }

  lemma DetachIdle(s: St, k: Key, d: Chunk)
    requires Idle(s)
    ensures Idle(Detach(s, k, d)) && SameRest(s, Detach(s, k, d))
    ensures Detach(s, k, d).held == s.held[k := d] && Detach(s, k, d).role == s.role && Detach(s, k, d).cmap == s.cmap
    ensures ContentOf(Detach(s, k, d)) == ContentOf(s)[k := d]
    ensures k !in Detach(s, k, d).live
  {
    hide Inv, Content, FillsBut, RwReady, Detach;
    DetachInv(s, k, d);
    DetachFields(s, k, d);
  }

  // ----- partial pages -----

  /** The chunk the host's sectors make: built on the old version, or on 0xFF. */
  method NewChunk(f: Ftl, k: Key, off: nat, data: seq<Sector>) returns (d: Chunk)
    requires Inv(f.View()) && VRoles(f.g.role) == map[] && k !in f.g.held && off + |data| <= 8 && 0 < |data|
    ensures d == Splice(ChunkAt(ContentOf(f.View()), k), off, data)
  {
    hide Inv, VRoles, Content, Splice;
    ghost var s := f.View();
    AbandonFacts(s, k);
    OldData(s, k);
    WholeChunk(ChunkAt(ContentOf(s), k), off, data);
    match LocationOf(Lookup(f.t.chunksMap, k)) {
      case Invalid =>
        d := if |data| == 8 then data else Splice(BlankChunk(), off, data);
      case FlashWLog =>
        d := if |data| == 8 then data else Splice(f.t.flash[f.t.chunksMap[k].page].chunks[f.t.chunksMap[k].slot], off,
                                                  data);
      case DRAMWLog =>
        d := Splice(f.t.logBuf[f.t.chunksMap[k].page.bank][f.t.chunksMap[k].slot], off, data);
      case DRAMOwLog =>
        d := if |data| == 8 then data else Splice(f.t.owLogBuf[f.t.chunksMap[k].page.bank][f.t.chunksMap[k].slot], off,
                                                  data);
      case FlashOwLog =>
        d := if |data| == 8 then data else Splice(f.t.flash[f.t.chunksMap[k].page].chunks[f.t.chunksMap[k].slot], off,
                                                  data);
    }
  }

  lemma WholeChunk(c: Chunk, off: nat, data: seq<Sector>)
    requires off + |data| <= 8
    ensures |data| == 8 ==> data == Splice(c, off, data)
  {
  }

  /** Where the old version is, its data is found. */
  lemma OldData(s: St, k: Key)
    requires Inv(s) && k !in s.held
    ensures k !in s.live ==> ChunkAt(ContentOf(s), k) == BlankChunk()
    ensures k in s.live && s.live[k].page.Pg? ==>
      s.live[k].page in s.flash && s.flash[s.live[k].page].Data? && s.live[k].slot < |s.flash[s.live[k].page].chunks|
    ensures k in s.live && s.live[k].page.Pg? ==>
      ChunkAt(ContentOf(s), k) == s.flash[s.live[k].page].chunks[s.live[k].slot]
    ensures k in s.live && s.live[k].page.Buf? ==>
      && s.live[k].page.bank < |s.logBuf| && s.live[k].page.bank < |s.owBuf| && s.live[k].slot < 8
      && |s.logBuf[s.live[k].page.bank]| == 8 && |s.owBuf[s.live[k].page.bank]| == 8
    ensures k in s.live && s.live[k].page.Buf? ==>
      ChunkAt(ContentOf(s), k)
        == if s.live[k].page.ow then s.owBuf[s.live[k].page.bank][s.live[k].slot]
           else s.logBuf[s.live[k].page.bank][s.live[k].slot]
  {
    if k in s.live {
      ContentAt(s.live, s.held, s.logBuf, s.owBuf, s.flash, k);
      if s.live[k].page.Pg? {
        assert FlashKeyOK(k, s.live[k], s.flash, s.lists, s.role);
      }
    } else {
      ContentKeys(s.live, s.held, s.logBuf, s.owBuf, s.flash);
    }
  }

  // ----- which bank a chunk goes to -----

  /** Where a chunk written while it is bank `bank`'s turn ends up: a chunk in a write buffer may be changed there. */
  ghost function Dest(m: map<Key, Loc>, k: Key, bank: nat, inBuffer: bool): nat {
    if inBuffer && k in m && m[k].page.Buf? && !m[k].page.ow then m[k].page.bank else bank
  }

  /** Unless a block was erased: the chunks `ks` went where they should, all others are where they were, but for a
      flush of bank `bank`, and the round robin stands at `ref`. */
  ghost predicate SentTo(s: St, ref: nat, t: St, ref': nat, ks: set<Key>, bank: nat, inBuffer: bool) {
    && t.live.Keys == s.live.Keys + ks
    && (t.wiped == s.wiped ==>
      && ref' == ref && InPlace(s.live - ks, t.live, bank)
      && forall k | k in ks :: t.live[k].page.bank == Dest(s.live, k, bank, inBuffer))
  }

  lemma SentNothing(s: St, ref: nat, bank: nat, inBuffer: bool)
    ensures SentTo(s, ref, s, ref, {}, bank, inBuffer)
  {
  }

  /** Another chunk is sent to the same bank. */
  lemma SentMore(s: St, ref: nat, t: St, ref': nat, u: St, ref'': nat, ks: set<Key>, k: Key, bank: nat, inBuffer: bool)
    requires SentTo(s, ref, t, ref', ks, bank, inBuffer) && SentTo(t, ref', u, ref'', {k}, bank, inBuffer) && k !in ks
    requires s.wiped <= t.wiped <= u.wiped
    ensures SentTo(s, ref, u, ref'', ks + {k}, bank, inBuffer)
  {
    if u.wiped == s.wiped {
      assert t.wiped == s.wiped;
      forall j | j in ks ensures u.live[j].page.bank == Dest(s.live, j, bank, inBuffer) {
        assert j in t.live - {k};
      }
      if k in s.live {
        assert k in s.live - ks && k in t.live;
      }
      forall j | j in s.live - (ks + {k}) ensures j in s.live - ks && j in t.live - {k} {
      }
      assert Dest(t.live, k, bank, inBuffer) == Dest(s.live, k, bank, inBuffer);
    }
  }

  /** A chunk taken out of the map and stored again. */
  lemma SentOne(s: St, s1: St, ref: nat, t: St, ref': nat, k: Key, bank: nat)
    requires s1.live == s.live - {k} && s1.wiped == s.wiped && Stayed(s1, ref, t, ref', bank)
    requires t.wiped == s1.wiped ==> k in t.live && t.live[k].page.bank == bank
    requires t.live.Keys == s.live.Keys + {k}
    ensures SentTo(s, ref, t, ref', {k}, bank, false)
  {
  }

  /** The old version is given up and the new one goes to a write buffer. */
  method ReplaceChunk(f: Ftl, k: Key, bank: nat, d: Chunk, fuel: nat) returns (o: Outcome)
    requires Ready(f) && bank < f.banks && k.idx < 8
    modifies f
    ensures o.Pass? ==> Ready(f) && ContentOf(f.View()) == ContentOf(old(f.View()))[k := d]
    ensures Pays(Rooms(old(f.t)), Rooms(f.t), bank, 1, o)
    ensures Quietly(Rooms(old(f.t)), bank, 1, old(f.g.wiped), f.g.wiped) && (o.Pass? ==> old(f.g.wiped) <= f.g.wiped)
    ensures o.Pass? ==> SentTo(old(f.View()), old(f.referenceBank), f.View(), f.referenceBank, {k}, bank, false)
    ensures Endures(old(f.View())) && k.lpn < Capacity(f.blocks) ==> o.Pass? && Endures(f.View())
    ensures o != Fail(UnsafeCollection)
  {
    hide Inv, Idle, Content, Stale, FrameOf, Slack, VRoles, FillsBut, Pays, Quietly, Rooms, SentTo, Endures,
         EnduresBut, InPlace, RoomAt, Detach;
    ghost var s, ref := f.View(), f.referenceBank;
    IdleCalm(s);
    BankFacts(s, bank);
    AbandonChunk(f, k, d);
    DetachIdle(s, k, d);
    DetachFields(s, k, d);
    DetachMembers(s, k, d);
    ghost var s1, t1 := f.View(), f.t;
    SameRooms(old(f.t), t1, 0);
    NoneStale(s1.cmap, s1.held, k, d);
    DetachEndures(s, k, d, f.gcNestLevel);
    o := StoreChunk(f, k, bank, d, fuel);
    :- o;
    MovedWiped(s1, f.View(), Frm(s1), s1.held - {k}, Stale(s1.cmap, s1.held) - {k});
    StoredSettled(s, s1, f.View(), k, d);
    SettledKeys(s);
    SettledKeys(f.View());
    SentOne(s, s1, ref, f.View(), f.referenceBank, k, bank);
  }

  /** Between host calls the content is what is mapped. */
  lemma SettledKeys(s: St)
    requires Settled(s)
    ensures ContentOf(s).Keys == s.live.Keys
  {
    hide Inv, VRoles, FillsBut, RwReady, Content;
    ContentKeys(s.live, s.held, s.logBuf, s.owBuf, s.flash);
  }

  lemma DetachEndures(s: St, k: Key, d: Chunk, nest: seq<nat>)
    requires Settled(s) && k.idx < 8 && |nest| == s.banks && (forall b | 0 <= b < |nest| :: nest[b] == 0)
    ensures Endures(s) && k.lpn < Capacity(s.blocks) ==> EnduresBut(Detach(s, k, d), nest, k)
  {
    hide Inv, Content, VRoles, Detach, RwReady, FillsBut;
    DetachIdle(s, k, d);
    DetachMembers(s, k, d);
  }

  lemma DetachMembers(s: St, k: Key, d: Chunk)
    ensures Detach(s, k, d).oIn == s.oIn && Detach(s, k, d).blocks == s.blocks && Detach(s, k, d).ow == s.ow
      && Detach(s, k, d).clean == s.clean && Detach(s, k, d).wiped == s.wiped
  {
    hide ClearMeta, OneLessRw, OneLessOw;
  }

  /** writeChunkOld: part of one chunk, by where its old version is. */
  method WriteChunkOld(f: Ftl, k: Key, bank: nat, off: nat, data: seq<Sector>, fuel: nat) returns (o: Outcome)
    requires Ready(f) && bank < f.banks && k.idx < 8 && off + |data| <= 8 && 0 < |data|
    modifies f
    ensures o.Pass? ==>
      && Ready(f)
      && ContentOf(f.View()) == ContentOf(old(f.View()))[k := Splice(ChunkAt(ContentOf(old(f.View())), k), off, data)]
    ensures Pays(Rooms(old(f.t)), Rooms(f.t), bank, 1, o)
    ensures Quietly(Rooms(old(f.t)), bank, 1, old(f.g.wiped), f.g.wiped) && (o.Pass? ==> old(f.g.wiped) <= f.g.wiped)
    ensures o.Pass? ==> SentTo(old(f.View()), old(f.referenceBank), f.View(), f.referenceBank, {k}, bank, true)
    ensures Endures(old(f.View())) && k.lpn < Capacity(f.blocks) ==> o.Pass? && Endures(f.View())
    ensures o != Fail(UnsafeCollection)
  {
    hide Inv, Idle, Content, VRoles, FillsBut, Splice, Rooms, Endures, InPlace, RoomAt;
    ghost var s, ref := f.View(), f.referenceBank;
    IdleCalm(s);
    AbandonFacts(s, k);
    var d := NewChunk(f, k, off, data);
    if LocationOf(Lookup(f.t.chunksMap, k)) == DRAMWLog {
      f.t := f.t.(logBuf := SetSlot(f.t.logBuf, f.t.chunksMap[k].page.bank, f.t.chunksMap[k].slot, d));
      PatchBufContentOf(s, k, d);
      PatchSettled(s, k, d);
      SameRooms(old(f.t), f.t, 1);
      PatchEndures(s, k, d);
      PatchSent(s, ref, k, d, bank);
      return Pass;
    }
    o := ReplaceChunk(f, k, bank, d, fuel);
    if o.Pass? {
      SentElsewhere(s, ref, f.View(), f.referenceBank, k, bank);
    }
  }

  lemma PatchEndures(s: St, k: Key, d: Chunk)
    requires Settled(s) && k in s.live && s.live[k].page == Buf(false, s.live[k].page.bank)
    requires ContentOf(PatchRwBuf(s, s.live[k].page.bank, s.live[k].slot, d)) == ContentOf(s)[k := d]
    ensures Endures(s) ==> Endures(PatchRwBuf(s, s.live[k].page.bank, s.live[k].slot, d))
  {
    hide Inv, SetSlot, VRoles, Content, Idle;
    ContentKeys(s.live, s.held, s.logBuf, s.owBuf, s.flash);
  }

  lemma PatchSent(s: St, ref: nat, k: Key, d: Chunk, bank: nat)
    requires k in s.live && s.live[k].page == Buf(false, s.live[k].page.bank)
    ensures SentTo(s, ref, PatchRwBuf(s, s.live[k].page.bank, s.live[k].slot, d), ref, {k}, bank, true)
  {
    hide SetSlot;
  }

  lemma SentElsewhere(s: St, ref: nat, t: St, ref': nat, k: Key, bank: nat)
    requires SentTo(s, ref, t, ref', {k}, bank, false) && (k in s.live ==> s.live[k].page.Pg? || s.live[k].page.ow)
    ensures SentTo(s, ref, t, ref', {k}, bank, true)
  {
    hide InPlace;
  }

  lemma NoneStale(cmap: map<Key, Loc>, held: map<Key, Chunk>, k: Key, d: Chunk)
    requires held == map[][k := d]
    ensures Stale(cmap, held) - {k} == map[]
    ensures held - {k} == map[]
  {
  }

  lemma PatchSettled(s: St, k: Key, d: Chunk)
    requires Settled(s) && k in s.live && s.live[k].page == Buf(false, s.live[k].page.bank)
    ensures Settled(PatchRwBuf(s, s.live[k].page.bank, s.live[k].slot, d))
  {
    hide Inv, SetSlot, VRoles, RwReady, FillsBut;
    PatchRwBufInv(s, s.live[k].page.bank, s.live[k].slot, d);
  }

  lemma StoredSettled(s: St, s1: St, t: St, k: Key, d: Chunk)
    requires Settled(s) && Idle(t) && s1.held == map[][k := d] && s1.role == s.role && SameRest(s, s1)
    requires Moved(s1, t, Frm(s1), s1.held - {k}, Stale(s1.cmap, s1.held) - {k})
    ensures Settled(t)
  {
    hide Idle, Content, Stale, Slack, VRoles;
    assert Frm(t).roles == Frm(s1).roles;
    assert s1.held - {k} == map[];
  }

  /** One chunk more of a request that is being written chunk by chunk. */
  lemma WroteMore(c0: map<Key, Chunk>, c1: map<Key, Chunk>, lpn: nat, sectOffset: nat, data: seq<Sector>, sect: nat,
                  n: nat)
    requires sectOffset <= sect && sect + n <= sectOffset + |data| <= 64 && sect % 8 + n <= 8 && 0 < n
    requires Wrote(c0, c1, lpn * 64 + sectOffset, data[..sect - sectOffset])
    ensures Wrote(c0, c1[Key(lpn, sect / 8) := Splice(ChunkAt(c1, Key(lpn, sect / 8)), sect % 8,
                                                      data[sect - sectOffset..sect - sectOffset + n])],
                  lpn * 64 + sectOffset, data[..sect + n - sectOffset])
  {
    hide Wrote, Splice;
    var done := sect - sectOffset;
    WroteChunk(c1, Key(lpn, sect / 8), sect % 8, data[done..done + n]);
    WroteThen(c0, c1, c1[Key(lpn, sect / 8) := Splice(ChunkAt(c1, Key(lpn, sect / 8)), sect % 8, data[done..done + n])],
              lpn * 64 + sectOffset, data[..done], data[done..done + n]);
    assert data[..done] + data[done..done + n] == data[..done + n];
  }

  /** The chunks that `n` sectors from `sectOffset` on touch. */
  function ChunksIn(sectOffset: nat, n: nat): nat {
    if n == 0 then 0 else (sectOffset % 8 + n + 7) / 8
  }

  ghost function Touched(lpn: nat, sectOffset: nat, n: nat): set<Key> {
    set i: nat | i < 8 && 0 < n && sectOffset < i * 8 + 8 && i * 8 < sectOffset + n :: Key(lpn, i)
  }

  /** One more chunk of a request. */
  lemma ChunksMore(sectOffset: nat, done: nat, n: nat)
    requires 0 < n && (sectOffset + done) % 8 + n <= 8 && (done == 0 || (sectOffset + done) % 8 == 0)
    ensures ChunksIn(sectOffset, done + n) == ChunksIn(sectOffset, done) + 1
  {
  }

  lemma ChunksFew(sectOffset: nat, n: nat, m: nat)
    requires n <= m
    ensures ChunksIn(sectOffset, n) <= ChunksIn(sectOffset, m) <= m
  {
  }

  lemma TouchedMore(lpn: nat, sectOffset: nat, done: nat, n: nat)
    requires 0 < n && (sectOffset + done) % 8 + n <= 8 && sectOffset + done + n <= 64
    requires done == 0 || (sectOffset + done) % 8 == 0
    ensures Touched(lpn, sectOffset, done + n) == Touched(lpn, sectOffset, done) + {Key(lpn, (sectOffset + done) / 8)}
    ensures Key(lpn, (sectOffset + done) / 8) !in Touched(lpn, sectOffset, done)
  {
  }

  /** `done` sectors of a request have been written for bank `bank`. */
  ghost predicate PartSent(s: St, ref: nat, t: St, ref': nat, lpn: nat, bank: nat, sectOffset: nat, done: nat) {
    && Pays(Rooms(TablesOf(s)), Rooms(TablesOf(t)), bank, ChunksIn(sectOffset, done), Pass)
    && Quietly(Rooms(TablesOf(s)), bank, ChunksIn(sectOffset, done), s.wiped, t.wiped)
    && s.wiped <= t.wiped && SentTo(s, ref, t, ref', Touched(lpn, sectOffset, done), bank, true)
  }

  lemma PartStart(s: St, ref: nat, lpn: nat, bank: nat, sectOffset: nat)
    ensures PartSent(s, ref, s, ref, lpn, bank, sectOffset, 0)
  {
    hide Rooms, Pays;
    PaysNothing(Rooms(TablesOf(s)), bank);
    SentNothing(s, ref, bank, true);
    assert Touched(lpn, sectOffset, 0) == {};
  }

  /** One chunk more, of a request of `total` sectors. */
  lemma PartMore(s: St, ref: nat, t: St, ref': nat, u: St, ref'': nat, lpn: nat, bank: nat, sectOffset: nat, done: nat,
                 n: nat, total: nat, o: Outcome)
    requires PartSent(s, ref, t, ref', lpn, bank, sectOffset, done) && done + n <= total && sectOffset + total <= 64
    requires 0 < n && (sectOffset + done) % 8 + n <= 8 && (done == 0 || (sectOffset + done) % 8 == 0)
    requires Pays(Rooms(TablesOf(t)), Rooms(TablesOf(u)), bank, 1, o)
    requires Quietly(Rooms(TablesOf(t)), bank, 1, t.wiped, u.wiped)
    requires o.Pass? ==>
      t.wiped <= u.wiped && SentTo(t, ref', u, ref'', {Key(lpn, (sectOffset + done) / 8)}, bank, true)
    ensures Pays(Rooms(TablesOf(s)), Rooms(TablesOf(u)), bank, ChunksIn(sectOffset, total), o)
    ensures Quietly(Rooms(TablesOf(s)), bank, ChunksIn(sectOffset, total), s.wiped, u.wiped)
    ensures o.Pass? ==> PartSent(s, ref, u, ref'', lpn, bank, sectOffset, done + n)
  {
    hide Rooms, Pays, Quietly, SentTo, ChunksIn, Touched, TablesOf;
    ChunksMore(sectOffset, done, n);
    ChunksFew(sectOffset, done + n, total);
    PaysStep(Rooms(TablesOf(s)), Rooms(TablesOf(t)), Rooms(TablesOf(u)), bank, ChunksIn(sectOffset, done), 1,
             ChunksIn(sectOffset, total), s.wiped, t.wiped, u.wiped, o);
    if o.Pass? {
      TouchedMore(lpn, sectOffset, done, n);
      SentMore(s, ref, t, ref', u, ref'', Touched(lpn, sectOffset, done), Key(lpn, (sectOffset + done) / 8), bank,
               true);
    }
  }

  /** writePartialPageOld: chunk by chunk, all to the same bank. */
  method WritePartialPageOld(f: Ftl, lpn: nat, bank: nat, sectOffset: nat, data: seq<Sector>, fuel: nat)
    returns (o: Outcome)
    requires Ready(f) && bank < f.banks && sectOffset + |data| <= 64
    modifies f
    ensures o.Pass? ==> Ready(f) && Wrote(ContentOf(old(f.View())), ContentOf(f.View()), lpn * 64 + sectOffset, data)
    ensures Pays(Rooms(old(f.t)), Rooms(f.t), bank, ChunksIn(sectOffset, |data|), o)
    ensures Quietly(Rooms(old(f.t)), bank, ChunksIn(sectOffset, |data|), old(f.g.wiped), f.g.wiped)
    ensures o.Pass? ==>
      SentTo(old(f.View()), old(f.referenceBank), f.View(), f.referenceBank, Touched(lpn, sectOffset, |data|), bank,
             true)
    ensures Endures(old(f.View())) && lpn < Capacity(f.blocks) ==> o.Pass? && Endures(f.View())
    ensures o != Fail(UnsafeCollection)
  {
    hide Ready, Content, Splice, Wrote, Pays, Quietly, Rooms, SentTo, Endures, ChunksIn, Touched, PartSent;
    ghost var s, ref := f.View(), f.referenceBank;
    PartStart(s, ref, lpn, bank, sectOffset);
    var sect, remaining: nat := sectOffset, |data|;
    WroteNothing(ContentOf(s), lpn * 64 + sectOffset);
    while remaining != 0
      invariant Ready(f) && sect + remaining == sectOffset + |data| && sectOffset <= sect
      invariant sect == sectOffset || sect % 8 == 0 || remaining == 0
      invariant Wrote(ContentOf(s), ContentOf(f.View()), lpn * 64 + sectOffset, data[..sect - sectOffset])
      invariant PartSent(s, ref, f.View(), f.referenceBank, lpn, bank, sectOffset, sect - sectOffset)
      invariant Endures(s) && lpn < Capacity(f.blocks) ==> Endures(f.View())
    {
      var n := if sect % 8 + remaining < 8 then remaining else 8 - sect % 8;
      var done := sect - sectOffset;
      ghost var t, ref1 := f.View(), f.referenceBank;
      o := WriteChunkOld(f, Key(lpn, sect / 8), bank, sect % 8, data[done..done + n], fuel);
      PartMore(s, ref, t, ref1, f.View(), f.referenceBank, lpn, bank, sectOffset, done, n, |data|, o);
      :- o;
      WroteMore(ContentOf(s), ContentOf(t), lpn, sectOffset, data, sect, n);
      sect := sect + n;
      remaining := remaining - n;
    }
    PartEnd(s, ref, f.View(), f.referenceBank, lpn, bank, sectOffset, |data|);
    assert data[..sect - sectOffset] == data;
    o := Pass;
  }

  lemma PartEnd(s: St, ref: nat, t: St, ref': nat, lpn: nat, bank: nat, sectOffset: nat, n: nat)
    requires PartSent(s, ref, t, ref', lpn, bank, sectOffset, n)
    ensures Pays(Rooms(TablesOf(s)), Rooms(TablesOf(t)), bank, ChunksIn(sectOffset, n), Pass)
    ensures Quietly(Rooms(TablesOf(s)), bank, ChunksIn(sectOffset, n), s.wiped, t.wiped)
    ensures SentTo(s, ref, t, ref', Touched(lpn, sectOffset, n), bank, true)
  {
  }

  // ----- complete pages -----

  function ChunkOf(data: seq<Sector>, i: nat): Chunk
    requires |data| == 64 && i < 8
  {
    data[8 * i..8 * i + 8]
  }

  /** The first `n` chunks of page `lpn` as the host wants them. */
  ghost function PageMap(lpn: nat, data: seq<Sector>, n: nat): map<Key, Chunk>
    requires |data| == 64 && n <= 8
  {
    if n == 0 then map[] else PageMap(lpn, data, n - 1)[Key(lpn, n - 1) := ChunkOf(data, n - 1)]
  }

  /** Where those chunks are once the page is programmed. */
  ghost function PageAdds(lpn: nat, dst: PageId, ow: bool, n: nat): map<Key, Loc> {
    if n == 0 then map[] else PageAdds(lpn, dst, ow, n - 1)[Key(lpn, n - 1) := Loc(ow, dst, n - 1)]
  }

  lemma {:induction false} PageMapAt(lpn: nat, data: seq<Sector>, n: nat)
    requires |data| == 64 && n <= 8
    ensures forall k :: k in PageMap(lpn, data, n) <==> k.lpn == lpn && k.idx < n
    ensures forall k | k in PageMap(lpn, data, n) && k.idx < 8 :: PageMap(lpn, data, n)[k] == ChunkOf(data, k.idx)
  {
    if n > 0 {
      PageMapAt(lpn, data, n - 1);
    }
  }

  lemma {:induction false} PageAddsAt(lpn: nat, dst: PageId, ow: bool, n: nat)
    ensures forall k :: k in PageAdds(lpn, dst, ow, n) <==> k.lpn == lpn && k.idx < n
    ensures forall k | k in PageAdds(lpn, dst, ow, n) :: PageAdds(lpn, dst, ow, n)[k] == Loc(ow, dst, k.idx)
    ensures |PageAdds(lpn, dst, ow, n)| == n
  {
    if n > 0 {
      PageAddsAt(lpn, dst, ow, n - 1);
    }
  }

  lemma WroteNext(c: map<Key, Chunk>, lpn: nat, data: seq<Sector>, n: nat)
    requires |data| == 64 && n < 8
    ensures Wrote(c + PageMap(lpn, data, n), c + PageMap(lpn, data, n + 1), lpn * 64 + 8 * n, ChunkOf(data, n))
  {
    hide Wrote, Splice, ChunkOf;
    var c1 := c + PageMap(lpn, data, n);
    WholeChunk(ChunkAt(c1, Key(lpn, n)), 0, ChunkOf(data, n));
    WroteChunk(c1, Key(lpn, n), 0, ChunkOf(data, n));
    assert c + PageMap(lpn, data, n + 1) == c1[Key(lpn, n) := ChunkOf(data, n)];
  }

  lemma PageSlices(data: seq<Sector>, n: nat)
    requires |data| == 64 && n < 8
    ensures data[..8 * n] + ChunkOf(data, n) == data[..8 * (n + 1)]
    ensures |data[..8 * n]| == 8 * n
  {
  }

  lemma {:induction false} WrotePage(c: map<Key, Chunk>, lpn: nat, data: seq<Sector>, n: nat)
    requires |data| == 64 && n <= 8
    ensures Wrote(c, c + PageMap(lpn, data, n), lpn * 64, data[..8 * n])
  {
    hide Wrote, ChunkOf;
    if n == 0 {
      assert c + PageMap(lpn, data, 0) == c;
      WroteNothing(c, lpn * 64);
      assert data[..0] == [];
    } else {
      hide PageMap;
      WrotePage(c, lpn, data, n - 1);
      WroteNext(c, lpn, data, n - 1);
      PageSlices(data, n - 1);
      WroteThen(c, c + PageMap(lpn, data, n - 1), c + PageMap(lpn, data, n), lpn * 64, data[..8 * (n - 1)],
                ChunkOf(data, n - 1));
    }
  }

  /** The host's page in flight: its old chunks are given up, the new ones are only in RAM. */
  ghost predicate InFlight(s: St, t: St, lpn: nat, data: seq<Sector>, n: nat)
    requires |data| == 64 && n <= 8
  {
    && Idle(t) && t.held == PageMap(lpn, data, n) && t.role == s.role && SameRest(s, t)
    && ContentOf(t) == ContentOf(s) + PageMap(lpn, data, n)
    && Lifted(s, t, PageMap(lpn, data, n).Keys)
  }

  /** The chunks `ks` are not mapped any more, and no block changed hands. */
  ghost predicate Lifted(s: St, t: St, ks: set<Key>) {
    t.live == s.live - ks && t.wiped == s.wiped && t.oIn == s.oIn && t.blocks == s.blocks
  }

  lemma LiftedMore(s: St, t: St, ks: set<Key>, k: Key, d: Chunk)
    requires Lifted(s, t, ks)
    ensures Lifted(s, Detach(t, k, d), ks + {k})
  {
    hide Detach;
    DetachFields(t, k, d);
    DetachMembers(t, k, d);
    assert s.live - ks - {k} == s.live - (ks + {k});
  }

  lemma InFlightStart(s: St, lpn: nat, data: seq<Sector>)
    requires Settled(s) && |data| == 64
    ensures InFlight(s, s, lpn, data, 0)
  {
    hide Idle, Content, FillsBut, VRoles;
    assert ContentOf(s) + PageMap(lpn, data, 0) == ContentOf(s);
    assert s.live - PageMap(lpn, data, 0).Keys == s.live;
  }

  lemma InFlightStep(s: St, t: St, lpn: nat, data: seq<Sector>, i: nat)
    requires |data| == 64 && i < 8 && InFlight(s, t, lpn, data, i)
    ensures InFlight(s, Detach(t, Key(lpn, i), ChunkOf(data, i)), lpn, data, i + 1)
  {
    hide Idle, Content, Detach, ChunkOf, SameRest, Lifted;
    DetachIdle(t, Key(lpn, i), ChunkOf(data, i));
    LiftedMore(s, t, PageMap(lpn, data, i).Keys, Key(lpn, i), ChunkOf(data, i));
    assert PageMap(lpn, data, i).Keys + {Key(lpn, i)} == PageMap(lpn, data, i + 1).Keys;
    SameOwTrans(s, t, Detach(t, Key(lpn, i), ChunkOf(data, i)));
    assert (ContentOf(s) + PageMap(lpn, data, i))[Key(lpn, i) := ChunkOf(data, i)]
      == ContentOf(s) + PageMap(lpn, data, i + 1);
  }

  lemma SameOwTrans(s: St, t: St, u: St)
    requires SameRest(s, t) && SameRest(t, u)
    ensures SameRest(s, u)
  {
  }

  lemma InFlightFacts(s: St, t: St, lpn: nat, data: seq<Sector>, i: nat)
    requires |data| == 64 && i <= 8 && InFlight(s, t, lpn, data, i)
    ensures Inv(t) && t.role == s.role && Key(lpn, i) !in t.held && t.held == PageMap(lpn, data, i)
  {
    hide Inv, Content, FillsBut, RwReady;
    PageMapAt(lpn, data, i);
  }

  /** manageOldCompletePage: the old versions are given up before the new page is programmed. */
  method ManageOldCompletePage(f: Ftl, lpn: nat, ghost data: seq<Sector>)
    requires Settled(f.View()) && |data| == 64 && Tracked(f)
    modifies f`t, f`g, f`inRam
    ensures InFlight(old(f.View()), f.View(), lpn, data, 8) && Tracked(f)
    ensures f.t.chunksMap == old(f.t.chunksMap) && f.t.writeHeap == old(f.t.writeHeap) && f.t.owHeap == old(f.t.owHeap)
  {
    hide Inv, InFlight, Content, VRoles, FillsBut, ChunkOf, Detach;
    ghost var s := f.View();
    InFlightStart(s, lpn, data);
    for i := 0 to 8
      invariant InFlight(s, f.View(), lpn, data, i) && Tracked(f) && f.t.chunksMap == s.cmap && f.t.writeHeap == s.wIn
        && f.t.owHeap == s.oIn
    {
      ghost var t := f.View();
      InFlightFacts(s, t, lpn, data, i);
      AbandonChunk(f, Key(lpn, i), ChunkOf(data, i));
      InFlightStep(s, t, lpn, data, i);
    }
  }

  function HostNames(lpn: nat): seq<Option<nat>> {
    seq(8, _ => Some(lpn))
  }

  lemma HostNamesAt(lpn: nat)
    ensures |HostNames(lpn)| == 8 && forall i | 0 <= i < 8 :: HostNames(lpn)[i] == Some(lpn)
  {
  }

  function Chunks(data: seq<Sector>): seq<Chunk>
    requires |data| == 64
  {
    seq(8, i requires 0 <= i < 8 => ChunkOf(data, i))
  }

  lemma PageAddsOK(live: map<Key, Loc>, role: map<Blk, Role>, lpn: nat, dst: PageId, ow: bool, b: nat)
    requires forall k: Key | k.lpn == lpn && k.idx < 8 :: k !in live
    ensures AddsOK(live, role, PageAdds(lpn, dst, ow, 8), dst, HostNames(lpn), ow, b, false)
  {
    PageAddsAt(lpn, dst, ow, 8);
  }

  ghost function HostPage(s: St, b: nat, lpn: nat, data: seq<Sector>): St
    requires b < |s.rw| && s.rw[b].Open? && b < |s.rwList| && |data| == 64
  {
    var c := s.rw[b];
    var blk := Blk(b, c.lbn);
    var adds := PageAdds(lpn, Pg(b, c.lbn, c.page), false, 8);
    var list := WriteNames(s.rwList[b], c.page, HostNames(lpn));
    s.(live := s.live + adds, cmap := s.cmap + adds, held := s.held - adds.Keys,
       flash := s.flash[Pg(b, c.lbn, c.page) := Data(Chunks(data), 1)],
       rwList := s.rwList[b := list], lists := s.lists[blk := list],
       role := s.role[blk := OpenRw(NextRw(c.page, c.sealed), c.sealed)], pending := s.pending + {b},
       trace := Then(s.trace, Program(Pg(b, c.lbn, c.page), RwData)))
  }

  lemma HostPageIsProgram(s: St, b: nat, lpn: nat, data: seq<Sector>)
    requires b < |s.rw| && s.rw[b].Open? && b < |s.rwList| && b < |s.fill| && |data| == 64
    ensures |PageAdds(lpn, Pg(b, s.rw[b].lbn, s.rw[b].page), false, 8)| == 8
    ensures HostPage(s, b, lpn, data)
         == ProgramRw(s, b, PageAdds(lpn, Pg(b, s.rw[b].lbn, s.rw[b].page), false, 8), Chunks(data), HostNames(lpn),
                      false)
  {
    hide WriteNames, Chunks, PageAdds;
    PageAddsAt(lpn, Pg(b, s.rw[b].lbn, s.rw[b].page), false, 8);
    MinusNone(s.wCount, Blk(b, s.rw[b].lbn));
  }

  lemma MinusNone(w: map<Blk, nat>, blk: Blk)
    ensures Minus(w, blk, 0) == w
  {
  }

  lemma PageAddsMore(cmap: map<Key, Loc>, lpn: nat, dst: PageId, ow: bool, i: nat)
    ensures cmap + PageAdds(lpn, dst, ow, 0) == cmap
    ensures (cmap + PageAdds(lpn, dst, ow, i))[Key(lpn, i) := Loc(ow, dst, i)] == cmap + PageAdds(lpn, dst, ow, i + 1)
  {
  }

  /** The loop of writeCompletePage over list and table entries. */
  method WriteHostSlots(f: Ftl, b: nat, lpn: nat)
    requires b < |f.t.rwCtrl| && f.t.rwCtrl[b].Open? && f.t.rwCtrl[b].page <= 126 && b < |f.t.rwLpns|
      && |f.t.rwLpns[b]| == CHUNKS_PER_BLK
    modifies f`t
    ensures var o := old(f.t); var c := o.rwCtrl[b];
      f.t == o.(chunksMap := o.chunksMap + PageAdds(lpn, Pg(b, c.lbn, c.page), false, 8),
                rwLpns := o.rwLpns[b := WriteNames(o.rwLpns[b], c.page, HostNames(lpn))])
  {
    hide WriteNames, NamesUpto, PageAdds, HostNames;
    var c := f.t.rwCtrl[b];
    var dst := Pg(b, c.lbn, c.page);
    HostNamesAt(lpn);
    ghost var o := f.t;
    ghost var list := o.rwLpns[b];
    NamesEnds(list, c.page, HostNames(lpn));
    PageAddsMore(o.chunksMap, lpn, dst, false, 0);
    for i := 0 to 8
      invariant f.t
        == o.(chunksMap := o.chunksMap + PageAdds(lpn, dst, false, i),
              rwLpns := o.rwLpns[b := NamesUpto(list, c.page, HostNames(lpn), i)])
    {
      NamesStep(list, c.page, HostNames(lpn), i);
      NamesUptoLength(list, c.page, HostNames(lpn), i);
      f.t := f.t.(rwLpns := f.t.rwLpns[b := f.t.rwLpns[b][c.page * 8 + i := Some(lpn)]],
                  chunksMap := f.t.chunksMap[Key(lpn, i) := Loc(false, dst, i)]);
      PageAddsMore(o.chunksMap, lpn, dst, false, i);
    }
  }

  /** The program part of writeCompletePage. */
  method ProgramHostPage(f: Ftl, b: nat, lpn: nat, data: seq<Sector>)
    requires b < |f.t.rwCtrl| && f.t.rwCtrl[b].Open? && f.t.rwCtrl[b].page <= 126 && b < |f.t.rwLpns|
      && |f.t.rwLpns[b]| == CHUNKS_PER_BLK && |data| == 64
    requires Pg(b, f.t.rwCtrl[b].lbn, f.t.rwCtrl[b].page) !in f.t.flash
    modifies f`t, f`g
    ensures f.View() == HostPage(old(f.View()), b, lpn, data)
  {
    hide WriteNames, PageAdds, Chunks, NandProgram;
    var c := f.t.rwCtrl[b];
    ghost var s := f.View();
    ghost var adds := PageAdds(lpn, Pg(b, c.lbn, c.page), false, 8);
    WriteHostSlots(f, b, lpn);
    NandErased(f.t.flash, Pg(b, c.lbn, c.page), Data(Chunks(data), 1));
    f.t := f.t.(flash := NandProgram(f.t.flash, Pg(b, c.lbn, c.page), Data(Chunks(data), 1)));
    f.g := f.g.(live := s.live + adds, held := s.held - adds.Keys, lists := s.lists[Blk(b, c.lbn) := f.t.rwLpns[b]],
                role := s.role[Blk(b, c.lbn) := OpenRw(NextRw(c.page, c.sealed), c.sealed)],
                pending := s.pending + {b}, trace := Then(s.trace, Program(Pg(b, c.lbn, c.page), RwData)));
  }

  lemma HeldPage(s: St, lpn: nat, data: seq<Sector>, dst: PageId, ow: bool)
    requires Inv(s) && |data| == 64 && s.held == PageMap(lpn, data, 8)
    ensures forall k: Key | k.lpn == lpn && k.idx < 8 :: k !in s.live
    ensures s.held - PageAdds(lpn, dst, ow, 8).Keys == map[]
    ensures s.held.Keys == PageAdds(lpn, dst, ow, 8).Keys
    ensures ContentOf(s) + NewData(PageAdds(lpn, dst, ow, 8), Chunks(data)) == ContentOf(s)
  {
    hide Inv, Content, ChunkOf, PageMap, PageAdds, NewData;
    DisjointHeld(s);
    PageMapAt(lpn, data, 8);
    PageAddsAt(lpn, dst, ow, 8);
    HeldData(s, lpn, data, dst, ow);
  }

  lemma HeldData(s: St, lpn: nat, data: seq<Sector>, dst: PageId, ow: bool)
    requires |data| == 64 && s.held == PageMap(lpn, data, 8)
    ensures ContentOf(s) + NewData(PageAdds(lpn, dst, ow, 8), Chunks(data)) == ContentOf(s)
  {
    hide Content, ChunkOf, PageMap, PageAdds;
    PageMapAt(lpn, data, 8);
    PageAddsAt(lpn, dst, ow, 8);
    forall k | k in PageAdds(lpn, dst, ow, 8)
      ensures k in ContentOf(s) && ContentOf(s)[k] == NewData(PageAdds(lpn, dst, ow, 8), Chunks(data))[k]
    {
      ContentAt(s.live, s.held, s.logBuf, s.owBuf, s.flash, k);
    }
  }

  lemma HostPageProgrammed(s: St, b: nat, lpn: nat, data: seq<Sector>)
    requires Idle(s) && b < |s.rw| && s.rw[b].Open? && b < |s.rwList| && |data| == 64 && s.held == PageMap(lpn, data, 8)
    ensures ProgrammedAt(HostPage(s, b, lpn, data), b)
  {
    hide Inv, WriteNames, PageAdds, Chunks, Content, AddsOK, PageMap, Minus, NewData, FillsBut, RwReady, HostNames,
         RoleWf;
    RwFacts(s, b);
    var dst := Pg(b, s.rw[b].lbn, s.rw[b].page);
    HeldPage(s, lpn, data, dst, false);
    PageAddsOK(s.live, s.role, lpn, dst, false, b);
    HostPageIsProgram(s, b, lpn, data);
    ChunksLength(data);
    ProgramRwInv(s, b, PageAdds(lpn, dst, false, 8), Chunks(data), HostNames(lpn), false);
  }

  lemma HostPageContent(s: St, b: nat, lpn: nat, data: seq<Sector>)
    requires Idle(s) && b < |s.rw| && s.rw[b].Open? && b < |s.rwList| && |data| == 64 && s.held == PageMap(lpn, data, 8)
    ensures ContentOf(HostPage(s, b, lpn, data)) == ContentOf(s)
    ensures HostPage(s, b, lpn, data).held == map[]
  {
    hide Inv, WriteNames, PageAdds, Chunks, Content, PageMap, NewData, FillsBut, RwReady, HostNames;
    var dst := Pg(b, s.rw[b].lbn, s.rw[b].page);
    HeldPage(s, lpn, data, dst, false);
    InvFresh(s, b);
    DisjointHeld(s);
    PageAddsAt(lpn, dst, false, 8);
    ProgramContent(s.live, s.held, s.logBuf, s.owBuf, s.flash, PageAdds(lpn, dst, false, 8), dst, Chunks(data));
  }

  lemma ChunksLength(data: seq<Sector>)
    requires |data| == 64
    ensures |Chunks(data)| == 8
  {
  }

  lemma HostPageFields(s: St, b: nat, lpn: nat, data: seq<Sector>)
    requires Inv(s) && b < |s.rw| && s.rw[b].Open? && b < |s.rwList| && |data| == 64
    ensures VRoles(HostPage(s, b, lpn, data).role) == VRoles(s.role)
    ensures SameRest(s, HostPage(s, b, lpn, data)) && HostPage(s, b, lpn, data).rw == s.rw
    ensures HostPage(s, b, lpn, data).oIn == s.oIn && HostPage(s, b, lpn, data).wiped == s.wiped
    ensures HostPage(s, b, lpn, data).live == s.live + PageAdds(lpn, Pg(b, s.rw[b].lbn, s.rw[b].page), false, 8)
  {
    hide Inv, WriteNames, PageAdds, Chunks;
    RwFacts(s, b);
  }

  /** The chunks of page `lpn` are gone from where they were and are now in pages of bank `bank`. */
  ghost predicate PageSent(m: map<Key, Loc>, m': map<Key, Loc>, lpn: nat, bank: nat) {
    && InPlace(m - Touched(lpn, 0, 64), m', bank)
    && forall k | k in Touched(lpn, 0, 64) :: k in m' && m'[k].page.Pg? && m'[k].page.bank == bank
  }

  /** The page is programmed; the cursor of its block has not moved yet. */
  method StartCompletePage(f: Ftl, lpn: nat, bank: nat, data: seq<Sector>) returns (o: Outcome)
    requires Ready(f) && bank < f.banks && |data| == 64
    modifies f`t, f`g, f`inRam
    ensures o != Fail(UnsafeCollection) && bank < |old(f.t.rwCtrl)|
      && (1 <= PagesAt(old(f.t), bank) ==> o.Pass? && NoLess(old(f.t), f.t, bank))
    ensures o.Pass? ==> ProgrammedAt(f.View(), bank) && f.g.held == map[] && f.g.debt == old(f.g.debt) && Tracked(f)
    ensures o.Pass? ==> ContentOf(f.View()) == ContentOf(old(f.View())) + PageMap(lpn, data, 8)
    ensures o.Pass? ==>
      VRoles(f.g.role) == VRoles(old(f.g.role)) && f.g.owPending == old(f.g.owPending) && f.g.owFill == old(f.g.owFill)
    ensures o.Pass? ==> f.g.wiped == old(f.g.wiped) && PageSent(old(f.g.live), f.g.live, lpn, bank)
    ensures Endures(old(f.View())) && lpn < Capacity(f.blocks) ==>
      o.Pass? && EnduresFree(f.View(), f.gcNestLevel)
  {
    hide Inv, Idle, Content, Stale, FrameOf, Slack, VRoles, FillsBut, InFlight, PageMap, HostPage, ProgrammedAt, NoLess,
         GotRw, InPlace, Endures, EnduresFree, PageSent, PagesAt, PageAdds, Lifted, SameRwBuffers;
    ghost var s := f.View();
    ManageOldCompletePage(f, lpn, data);
    ghost var s1, t1 := f.View(), f.t;
    InFlightIdle(s, s1, lpn, data);
    FlightEndures(s, s1, lpn, data);
    SameCursors(old(f.t), t1, bank);
    SameCursorsAt(old(f.t), t1, bank);
    IdleBank(s1, bank);
    IdleCalm(s1);
    o := GetRWLpn(f, bank);
    GetEndures(s1, f.View(), bank, o, f.owing);
    :- o;
    ghost var s2, t2 := f.View(), f.t;
    SameFillsIdle(s1, s2);
    IdleBank(s2, bank);
    ProgramFlight(f, lpn, bank, data);
    SameCursors(t2, f.t, bank);
    NoLessThen(t1, t2, f.t, bank);
    NoLessAfter(old(f.t), t1, f.t, bank);
    KeptRoles(s1, s2);
    FlightSent(s, s1, s2, f.View(), lpn, data, Pg(bank, t2.rwCtrl[bank].lbn, t2.rwCtrl[bank].page));
    FlightLanded(s, s2, f.View(), f.gcNestLevel);
    o := Pass;
  }

  lemma FlightEndures(s: St, t: St, lpn: nat, data: seq<Sector>)
    requires |data| == 64 && InFlight(s, t, lpn, data, 8)
    ensures Endures(s) && lpn < Capacity(s.blocks) ==> Endures(t)
  {
    hide Idle, Content, VRoles, PageMap;
    PageMapAt(lpn, data, 8);
  }

  lemma FlightLanded(s: St, t: St, u: St, nest: seq<nat>)
    requires Settled(s) && |nest| == s.banks && (forall b | 0 <= b < |nest| :: nest[b] == 0) && t.debt == s.debt
    requires u.held == map[] && u.debt == t.debt && ContentOf(u) == ContentOf(t) && VRoles(u.role) == VRoles(t.role)
    requires u.clean == t.clean && u.ow == t.ow && u.oIn == t.oIn && u.banks == t.banks == s.banks
      && u.blocks == t.blocks
    ensures Endures(t) ==> EnduresFree(u, nest)
  {
    hide Inv, Idle, Content, VRoles;
  }

  lemma FlightSent(s: St, s1: St, s2: St, t: St, lpn: nat, data: seq<Sector>, dst: PageId)
    requires |data| == 64 && InFlight(s, s1, lpn, data, 8) && dst.Pg? && InPlace(s1.live, s2.live, dst.bank)
    requires t.live == s2.live + PageAdds(lpn, dst, false, 8)
      && forall k: Key | k.lpn == lpn && k.idx < 8 :: k !in s2.live
    ensures PageSent(s.live, t.live, lpn, dst.bank)
  {
    hide Idle, Content, PageMap, PageAdds, InPlace, PageSent;
    PageMapAt(lpn, data, 8);
    assert PageMap(lpn, data, 8).Keys == Touched(lpn, 0, 64);
    AddsSent(s1.live, s2.live, lpn, dst);
    PageSentFrom(s.live, s1.live, t.live, lpn, dst.bank);
  }

  lemma PageSentFrom(m: map<Key, Loc>, m1: map<Key, Loc>, m': map<Key, Loc>, lpn: nat, bank: nat)
    requires m1 == m - Touched(lpn, 0, 64) && InPlace(m1, m', bank)
    requires forall k | k in Touched(lpn, 0, 64) :: k in m' && m'[k].page.Pg? && m'[k].page.bank == bank
    ensures PageSent(m, m', lpn, bank)
  {
    hide InPlace, Touched;
  }

  lemma AddsSent(m: map<Key, Loc>, m': map<Key, Loc>, lpn: nat, dst: PageId)
    requires dst.Pg? && InPlace(m, m', dst.bank) && forall k: Key | k.lpn == lpn && k.idx < 8 :: k !in m'
    ensures var a := m' + PageAdds(lpn, dst, false, 8);
      InPlace(m, a, dst.bank) && forall k | k in Touched(lpn, 0, 64) :: k in a && a[k].page == dst
  {
    hide PageAdds;
    PageAddsAt(lpn, dst, false, 8);
  }

  /** The page in flight goes to the next page of the bank's open RW block. */
  method ProgramFlight(f: Ftl, lpn: nat, bank: nat, data: seq<Sector>)
    requires Idle(f.View()) && bank < |f.t.rwCtrl| && f.t.rwCtrl[bank].Open? && bank < |f.t.rwLpns| && |data| == 64
    requires f.g.held == PageMap(lpn, data, 8) && Tracked(f)
    modifies f`t, f`g, f`inRam
    ensures ProgrammedAt(f.View(), bank) && f.g.held == map[] && f.g.debt == old(f.g.debt) && Tracked(f)
    ensures ContentOf(f.View()) == ContentOf(old(f.View()))
    ensures VRoles(f.g.role) == VRoles(old(f.g.role)) && f.g.owPending == old(f.g.owPending)
      && f.g.owFill == old(f.g.owFill)
    ensures f.t.rwCtrl == old(f.t.rwCtrl) && f.t.cleanList == old(f.t.cleanList) && f.t.chunkPtr == old(f.t.chunkPtr)
    ensures f.t.owCtrl == old(f.t.owCtrl) && f.t.owHeap == old(f.t.owHeap) && f.g.wiped == old(f.g.wiped)
    ensures var c := old(f.t.rwCtrl[bank]);
      f.g.live == old(f.g.live) + PageAdds(lpn, Pg(bank, c.lbn, c.page), false, 8)
    ensures forall k: Key | k.lpn == lpn && k.idx < 8 :: k !in old(f.g.live)
  {
    hide Inv, Idle, Content, VRoles, FillsBut, PageMap, HostPage, ProgrammedAt;
    ghost var s := f.View();
    IdleCalm(s);
    RwFacts(s, bank);
    InvFresh(s, bank);
    HostPageProgrammed(s, bank, lpn, data);
    HostPageContent(s, bank, lpn, data);
    HostPageFields(s, bank, lpn, data);
    HeldPage(s, lpn, data, Pg(bank, s.rw[bank].lbn, s.rw[bank].page), false);
    ProgramHostPage(f, bank, lpn, data);
    f.inRam := {};
  }

  lemma KeptRoles(s: St, t: St)
    requires Kept(s, t)
    ensures VRoles(t.role) == VRoles(s.role) && t.owPending == s.owPending && t.owFill == s.owFill
  {
    hide Content, Stale, Slack, VRoles;
    assert Frm(t).roles == Frm(s).roles;
  }

  /** A whole page goes straight to the bank's open RW block. */
  method WriteCompletePage(f: Ftl, lpn: nat, bank: nat, data: seq<Sector>, fuel: nat) returns (o: Outcome)
    requires Ready(f) && bank < f.banks && |data| == 64
    modifies f
    ensures o.Pass? ==> Ready(f) && ContentOf(f.View()) == ContentOf(old(f.View())) + PageMap(lpn, data, 8)
    ensures OnePage(old(f.t), f.t, bank, o) && (1 <= PagesAt(old(f.t), bank) ==> f.g.wiped == old(f.g.wiped))
    ensures o.Pass? ==> old(f.g.wiped) <= f.g.wiped
    ensures o.Pass? ==>
      SentTo(old(f.View()), old(f.referenceBank), f.View(), f.referenceBank, Touched(lpn, 0, 64), bank, false)
    ensures Endures(old(f.View())) && lpn < Capacity(f.blocks) ==> o.Pass? && Endures(f.View())
    ensures o != Fail(UnsafeCollection)
  {
    hide Inv, Idle, Content, Stale, FrameOf, Slack, VRoles, FillsBut, PageMap, ProgrammedAt, SentTo, PageSent, Endures,
         EnduresFree, OnePage, PagesAt, NoLess, Stayed, BlockReplaced;
    ghost var s := f.View();
    SettledBank(s, bank);
    o := StartCompletePage(f, lpn, bank, data);
    if o.Fail? {
      PageFails(old(f.t), f.t, bank, o);
      return;
    }
    ghost var s3, t3 := f.View(), f.t;
    ProgrammedOpen(s3, bank);
    PagesKept(old(f.t), t3, bank);
    o := IncreaseRWLpn(f, bank, fuel);
    PageAfter(old(f.t), t3, f.t, bank, o);
    :- o;
    KeptWiped(s3, f.View());
    PageSettled(s, s3, f.View());
    PageMapAt(lpn, data, 8);
    SettledKeys(s);
    SettledKeys(f.View());
    assert PageMap(lpn, data, 8).Keys == Touched(lpn, 0, 64);
    SentPage(s, s3, f.referenceBank, f.View(), old(f.referenceBank), lpn, bank);
  }

  lemma SentPage(s: St, s3: St, ref': nat, t: St, ref: nat, lpn: nat, bank: nat)
    requires s3.wiped == s.wiped && PageSent(s.live, s3.live, lpn, bank) && Stayed(s3, ref, t, ref', bank)
      && t.live.Keys == s.live.Keys + Touched(lpn, 0, 64)
    ensures SentTo(s, ref, t, ref', Touched(lpn, 0, 64), bank, false)
  {
    hide Touched;
  }

  lemma SettledBank(s: St, b: nat)
    requires Settled(s) && b < s.banks
    ensures b < |s.clean|
  {
    hide VRoles;
    BankFacts(s, b);
  }

  lemma ProgrammedOpen(s: St, b: nat)
    requires ProgrammedAt(s, b)
    ensures b < |s.rw| && s.rw[b].Open?
  {
  }

  lemma InFlightIdle(s: St, t: St, lpn: nat, data: seq<Sector>)
    requires |data| == 64 && InFlight(s, t, lpn, data, 8)
    ensures Idle(t) && t.held == PageMap(lpn, data, 8) && t.role == s.role && SameRest(s, t)
    ensures ContentOf(t) == ContentOf(s) + PageMap(lpn, data, 8)
    ensures t.wiped == s.wiped
  {
  }

  lemma PageSettled(s: St, s3: St, t: St)
    requires Settled(s) && VRoles(s3.role) == VRoles(s.role) && s3.owPending == s.owPending && s3.owFill == s.owFill
    requires s3.held == map[] && s3.debt == s.debt && Idle(t) && Kept(s3, t)
    ensures Settled(t)
  {
    hide Idle, Content, Stale, Slack, VRoles;
    KeptRoles(s3, t);
  }

  /** writeToLogBlk: one page's worth of host data goes to the bank whose turn it is.
      The sequential stream of the source is never open. */
  method WriteToLogBlk(f: Ftl, lpn: nat, sectOffset: nat, data: seq<Sector>, fuel: nat) returns (o: Outcome)
    requires Ready(f) && sectOffset + |data| <= 64
    modifies f
    ensures o.Pass? ==> Ready(f) && Wrote(ContentOf(old(f.View())), ContentOf(f.View()), lpn * 64 + sectOffset, data)
    ensures var bank := NthBank(old(f.referenceBank), f.banks, 1);
      && Pays(Rooms(old(f.t)), Rooms(f.t), bank, ChunksIn(sectOffset, |data|), o)
      && Quietly(Rooms(old(f.t)), bank, ChunksIn(sectOffset, |data|), old(f.g.wiped), f.g.wiped)
      && (o.Pass? ==>
            SentTo(old(f.View()), bank, f.View(), f.referenceBank, Touched(lpn, sectOffset, |data|), bank,
                   |data| != 64))
    ensures Lasts(Rooms(old(f.t)), Rooms(f.t), |data|, o)
    ensures Endures(old(f.View())) && lpn < Capacity(f.blocks) ==> o.Pass? && Endures(f.View())
    ensures o != Fail(UnsafeCollection)
  {
    hide Settled, Content, Wrote, PageMap, Pays, Quietly, SentTo, Rooms, Lasts, OnePage, PagesAt, Endures, Touched;
    ghost var s := f.View();
    IdleBankHere(s, f.referenceBank);
    var bank := ChooseNewBank(f);
    if |data| != 64 {
      o := WritePartialPageOld(f, lpn, bank, sectOffset, data, fuel);
    } else {
      WrotePage(ContentOf(f.View()), lpn, data, 8);
      assert data[..64] == data;
      o := WriteCompletePage(f, lpn, bank, data, fuel);
      PagePays(old(f.t), f.t, bank, o);
      QuietPage(old(f.t), bank, old(f.g.wiped), f.g.wiped);
    }
    ChunksFew(sectOffset, |data|, |data|);
    PaysLasts(Rooms(old(f.t)), Rooms(f.t), bank, ChunksIn(sectOffset, |data|), |data|, o);
  }

  lemma IdleBankHere(s: St, bank: nat)
    requires Settled(s) && 0 < s.banks
    ensures |s.rw| == s.banks
  {
    hide Inv, VRoles, FillsBut, RwReady;
    BankFacts(s, 0);
  }
}
