/** The loop of sealOWBlk: find every mapped chunk of a full overwrite block. */
module Sealing {
  import opened Base
  import opened State
  import opened Steps
  import opened FtlTables
  import opened BlockMoves

  /** Slots of the walk 0,1,3,...,123 that come before slot `i` of `page`. */
  predicate Visited(loc: Loc, page: nat, i: nat) {
    loc.page.Pg? && (loc.page.page < page || (loc.page.page == page && loc.slot < i))
  }

  ghost predicate SealedUpto(m0: map<Key, Loc>, m: map<Key, Loc>, live: map<Key, Loc>, blk: Blk, page: nat, i: nat) {
    && m.Keys == m0.Keys
    && (forall k | k in live && k in m0 ::
          m[k] == if InBlk(live[k].page, blk) && Visited(live[k], page, i) then live[k].(ow := false) else live[k])
    && (forall k | k in m0 :: m[k] == m0[k] || m[k] == ClearOw(m0[k], blk))
  }

  ghost function VisitedKeys(live: map<Key, Loc>, blk: Blk, page: nat, i: nat): set<Key> {
    set k | k in live && InBlk(live[k].page, blk) && Visited(live[k], page, i)
  }

  predicate Hits(m: map<Key, Loc>, lpn: Option<nat>, c: nat, addr: Loc) {
    lpn.Some? && Key(lpn.value, c) in m && m[Key(lpn.value, c)] == addr
  }

  /** One slot: the first chunk of the listed page whose entry is this address loses the overwrite bit. */
  method SealSlot(f: Ftl, addr: Loc, lpn: Option<nat>) returns (found: Option<nat>)
    requires addr.ow
    modifies f`t
    ensures found.None? ==> f.t == old(f.t) && forall c | 0 <= c < 8 :: !Hits(f.t.chunksMap, lpn, c, addr)
    ensures found.Some? ==> found.value < 8 && Hits(old(f.t.chunksMap), lpn, found.value, addr)
    ensures found.Some? ==>
      f.t == old(f.t).(chunksMap := old(f.t.chunksMap)[Key(lpn.value, found.value) := addr.(ow := false)])
    ensures found.Some? ==> forall c | 0 <= c < found.value :: !Hits(old(f.t.chunksMap), lpn, c, addr)
  {
    found := None;
    if lpn.Some? {
      for c := 0 to 8
        invariant forall d | 0 <= d < c :: !Hits(f.t.chunksMap, lpn, d, addr)
        invariant f.t == old(f.t)
      {
        if Key(lpn.value, c) in f.t.chunksMap && f.t.chunksMap[Key(lpn.value, c)] == addr {
          f.t := f.t.(chunksMap := f.t.chunksMap[Key(lpn.value, c) := addr.(ow := false)]);
          return Some(c);
        }
      }
    }
  }

  /** What the loop relies on. */
  ghost predicate Sealable(m0: map<Key, Loc>, live: map<Key, Loc>, held: map<Key, Chunk>, flash: map<PageId, Page>,
                           lists: map<Blk, seq<Option<nat>>>, role: map<Blk, Role>, blk: Blk) {
    && MapOK(m0, live, held) && StaleOK(m0, live, held) && Inj(live) && FlashOK(live, flash, lists, role)
    && blk in role && role[blk].FullOw? && blk in lists && |lists[blk]| == CHUNKS_PER_BLK
  }

  ghost predicate SlotDone(m: map<Key, Loc>, m': map<Key, Loc>, lpn: Option<nat>, addr: Loc, found: Option<nat>) {
    if found.None? then m' == m && forall c | 0 <= c < 8 :: !Hits(m, lpn, c, addr)
    else
      && found.value < 8 && Hits(m, lpn, found.value, addr)
      && m' == m[Key(lpn.value, found.value) := addr.(ow := false)]
  }

  lemma SlotStep(m0: map<Key, Loc>, m: map<Key, Loc>, m': map<Key, Loc>, live: map<Key, Loc>, held: map<Key, Chunk>,
                 flash: map<PageId, Page>, lists: map<Blk, seq<Option<nat>>>, role: map<Blk, Role>, blk: Blk, page: nat,
                 i: nat, found: Option<nat>)
    requires Sealable(m0, live, held, flash, lists, role, blk) && page <= 126 && i < 8
    requires SealedUpto(m0, m, live, blk, page, i)
    requires SlotDone(m, m', lists[blk][page * 8 + i], Loc(true, ListPage(blk, page), i), found)
    ensures SealedUpto(m0, m', live, blk, page, i + 1)
  {
    var addr := Loc(true, ListPage(blk, page), i);
    var lpn := lists[blk][page * 8 + i];
    forall k | k in live && InBlk(live[k].page, blk) && live[k].page.page == page && live[k].slot == i
      ensures m'[k] == live[k].(ow := false)
    {
      SlotHit(m0, m, live, held, flash, lists, role, blk, page, i, k);
      SlotHitOnly(m0, m, live, held, blk, page, i, k, Key(lpn.value, found.value));
    }
    if found.Some? {
      var h := Key(lpn.value, found.value);
      assert m[h] == addr && m0[h] == addr;
    }
  }

  lemma VisitedAdd(live: map<Key, Loc>, blk: Blk, page: nat, i: nat, h: Key)
    requires Inj(live) && h in live && live[h].page == ListPage(blk, page) && live[h].slot == i
    ensures |VisitedKeys(live, blk, page, i + 1)| == |VisitedKeys(live, blk, page, i)| + 1
  {
    forall k | k in live && InBlk(live[k].page, blk)
      ensures Visited(live[k], page, i + 1) <==> Visited(live[k], page, i) || k == h
    {
      if live[k].page.page == page && live[k].slot == i {
        assert live[k].page == live[h].page;
      }
    }
    assert VisitedKeys(live, blk, page, i + 1) == VisitedKeys(live, blk, page, i) + {h};
  }

  lemma VisitedNone(live: map<Key, Loc>, blk: Blk, page: nat, i: nat)
    requires forall k | k in live :: live[k].page != ListPage(blk, page) || live[k].slot != i
    ensures VisitedKeys(live, blk, page, i + 1) == VisitedKeys(live, blk, page, i)
  {
    forall k | k in live && InBlk(live[k].page, blk)
      ensures Visited(live[k], page, i + 1) <==> Visited(live[k], page, i)
    {
      assert live[k].page == ListPage(blk, live[k].page.page);
    }
  }

  /** With no stale entry in the block, hits are exactly its mapped chunks. */
  lemma SlotCount(m0: map<Key, Loc>, m: map<Key, Loc>, m': map<Key, Loc>, live: map<Key, Loc>, held: map<Key, Chunk>,
                  flash: map<PageId, Page>, lists: map<Blk, seq<Option<nat>>>, role: map<Blk, Role>, blk: Blk,
                  page: nat, i: nat, found: Option<nat>)
    requires Sealable(m0, live, held, flash, lists, role, blk) && page <= 126 && i < 8
    requires SealedUpto(m0, m, live, blk, page, i) && NoStaleIn(m0, held, blk)
    requires SlotDone(m, m', lists[blk][page * 8 + i], Loc(true, ListPage(blk, page), i), found)
    ensures |VisitedKeys(live, blk, page, i + 1)| == |VisitedKeys(live, blk, page, i)| + if found.Some? then 1 else 0
  {
    hide VisitedKeys;
    var addr := Loc(true, ListPage(blk, page), i);
    var lpn := lists[blk][page * 8 + i];
    if found.Some? {
      var h := Key(lpn.value, found.value);
      assert m0[h] == addr;
      VisitedAdd(live, blk, page, i, h);
    } else {
      forall k | k in live ensures live[k].page != ListPage(blk, page) || live[k].slot != i {
        if live[k].page == ListPage(blk, page) && live[k].slot == i {
          SlotHit(m0, m, live, held, flash, lists, role, blk, page, i, k);
        }
      }
      VisitedNone(live, blk, page, i);
    }
  }

  ghost predicate NoStaleIn(cmap: map<Key, Loc>, held: map<Key, Chunk>, blk: Blk) {
    forall h | h in held && h in cmap :: !InBlk(cmap[h].page, blk)
  }

  lemma SlotHit(m0: map<Key, Loc>, m: map<Key, Loc>, live: map<Key, Loc>, held: map<Key, Chunk>,
                flash: map<PageId, Page>, lists: map<Blk, seq<Option<nat>>>, role: map<Blk, Role>, blk: Blk, page: nat,
                i: nat, k: Key)
    requires Sealable(m0, live, held, flash, lists, role, blk) && page <= 126 && i < 8
    requires SealedUpto(m0, m, live, blk, page, i)
    requires k in live && InBlk(live[k].page, blk) && live[k].page.page == page && live[k].slot == i
    ensures Hits(m, lists[blk][page * 8 + i], k.idx, Loc(true, ListPage(blk, page), i)) && k.idx < 8
      && lists[blk][page * 8 + i] == Some(k.lpn)
  {
    assert FlashKeyOK(k, live[k], flash, lists, role);
  }

  /** No other entry names the address of a mapped chunk. */
  lemma SlotHitOnly(m0: map<Key, Loc>, m: map<Key, Loc>, live: map<Key, Loc>, held: map<Key, Chunk>, blk: Blk,
                    page: nat, i: nat, k: Key, h: Key)
    requires MapOK(m0, live, held) && StaleOK(m0, live, held) && Inj(live)
    requires SealedUpto(m0, m, live, blk, page, i)
    requires k in live && live[k] == Loc(true, ListPage(blk, page), i)
    requires h in m && m[h] == live[k]
    ensures h == k
  {
    assert m0[h] == live[k];
    if h in live {
      assert live[h].page == live[k].page && live[h].slot == live[k].slot;
    }
  }

  /** Chunks of a full overwrite block are on its low pages. */
  lemma OnLowPages(live: map<Key, Loc>, flash: map<PageId, Page>, lists: map<Blk, seq<Option<nat>>>,
                   role: map<Blk, Role>, blk: Blk, k: Key)
    requires FlashOK(live, flash, lists, role) && Erased(flash, role) && ListPages(flash, lists, role)
    requires blk in role && role[blk].FullOw? && k in live && InBlk(live[k].page, blk)
    ensures LowPage(live[k].page.page) && live[k].ow && live[k].slot < 8
  {
    assert FlashKeyOK(k, live[k], flash, lists, role);
    assert ListPage(blk, 125) in flash && flash[ListPage(blk, 125)].List?;
    assert live[k].page == ListPage(blk, live[k].page.page);
  }

  lemma WalkStep(m0: map<Key, Loc>, m: map<Key, Loc>, live: map<Key, Loc>, flash: map<PageId, Page>,
                 lists: map<Blk, seq<Option<nat>>>, role: map<Blk, Role>, blk: Blk, page: nat)
    requires FlashOK(live, flash, lists, role) && Erased(flash, role) && ListPages(flash, lists, role) && blk in role
      && role[blk].FullOw?
    requires SealedUpto(m0, m, live, blk, page, 8) && LowPage(page)
    ensures SealedUpto(m0, m, live, blk, NextOw(page), 0)
    ensures VisitedKeys(live, blk, NextOw(page), 0) == VisitedKeys(live, blk, page, 8)
  {
    forall k | k in live && InBlk(live[k].page, blk)
      ensures Visited(live[k], page, 8) <==> Visited(live[k], NextOw(page), 0)
    {
      OnLowPages(live, flash, lists, role, blk, k);
    }
  }

  /** Nothing was visited before the walk, everything after it. */
  lemma WalkEnds(m0: map<Key, Loc>, m: map<Key, Loc>, live: map<Key, Loc>, held: map<Key, Chunk>,
                 flash: map<PageId, Page>, lists: map<Blk, seq<Option<nat>>>, role: map<Blk, Role>, blk: Blk)
    requires FlashOK(live, flash, lists, role) && Erased(flash, role) && ListPages(flash, lists, role) && blk in role
      && role[blk].FullOw?
    requires MapOK(m0, live, held)
    ensures SealedUpto(m0, m0, live, blk, 0, 0) && VisitedKeys(live, blk, 0, 0) == {}
    ensures SealedUpto(m0, m, live, blk, 125, 0) ==> SealedMap(m0, m, live, blk)
    ensures VisitedKeys(live, blk, 125, 0) == KeysIn(live, blk)
  {
    forall k | k in live && InBlk(live[k].page, blk)
      ensures Visited(live[k], 125, 0)
    {
      OnLowPages(live, flash, lists, role, blk, k);
    }
  }

  /** One page of the walk. */
  method SealPage(f: Ftl, blk: Blk, page: nat, list: seq<Option<nat>>, ghost m0: map<Key, Loc>,
                  ghost lists: map<Blk, seq<Option<nat>>>)
    returns (hits: nat)
    requires Sealable(m0, f.g.live, f.g.held, f.t.flash, lists, f.g.role, blk) && page <= 126 && lists[blk] == list
    requires SealedUpto(m0, f.t.chunksMap, f.g.live, blk, page, 0)
    modifies f`t
    ensures f.t == old(f.t).(chunksMap := f.t.chunksMap)
    ensures SealedUpto(m0, f.t.chunksMap, f.g.live, blk, page, 8)
    ensures NoStaleIn(m0, f.g.held, blk) ==>
      |VisitedKeys(f.g.live, blk, page, 8)| == |VisitedKeys(f.g.live, blk, page, 0)| + hits
  {
    hide VisitedKeys, NoStaleIn, Hits, SealedUpto;
    hide MapOK, StaleOK, Inj, FlashOK;
    hits := 0;
    for i := 0 to 8
      invariant f.t == old(f.t).(chunksMap := f.t.chunksMap)
      invariant SealedUpto(m0, f.t.chunksMap, f.g.live, blk, page, i)
      invariant NoStaleIn(m0, f.g.held, blk) ==>
        |VisitedKeys(f.g.live, blk, page, i)| == |VisitedKeys(f.g.live, blk, page, 0)| + hits
    {
      ghost var m := f.t.chunksMap;
      var found := SealSlot(f, Loc(true, ListPage(blk, page), i), list[page * 8 + i]);
      SlotStep(m0, m, f.t.chunksMap, f.g.live, f.g.held, f.t.flash, lists, f.g.role, blk, page, i, found);
      if NoStaleIn(m0, f.g.held, blk) {
        SlotCount(m0, m, f.t.chunksMap, f.g.live, f.g.held, f.t.flash, lists, f.g.role, blk, page, i, found);
      }
      if found.Some? {
        hits := hits + 1;
      }
    }
  }

  /** The whole walk: every mapped chunk of the block loses the overwrite bit, and is counted. */
  method SealWalk(f: Ftl, blk: Blk, list: seq<Option<nat>>) returns (corresponding: nat)
    requires Sealable(f.t.chunksMap, f.g.live, f.g.held, f.t.flash, f.g.lists, f.g.role, blk) && f.g.lists[blk] == list
    requires Erased(f.t.flash, f.g.role) && ListPages(f.t.flash, f.g.lists, f.g.role)
    modifies f`t
    ensures f.t == old(f.t).(chunksMap := f.t.chunksMap)
    ensures SealedMap(old(f.t.chunksMap), f.t.chunksMap, f.g.live, blk)
    ensures NoStaleIn(old(f.t.chunksMap), f.g.held, blk) ==> corresponding == |KeysIn(f.g.live, blk)|
  {
    hide VisitedKeys, NoStaleIn, SealedUpto, KeysIn, SealedMap, Erased, ListPages;
    hide MapOK, StaleOK, Inj, FlashOK;
    ghost var m0 := f.t.chunksMap;
    WalkEnds(m0, m0, f.g.live, f.g.held, f.t.flash, f.g.lists, f.g.role, blk);
    corresponding := 0;
    var page := 0;
    while page < 124
      invariant page == 125 || LowPage(page)
      invariant f.t == old(f.t).(chunksMap := f.t.chunksMap)
      invariant SealedUpto(m0, f.t.chunksMap, f.g.live, blk, page, 0)
      invariant NoStaleIn(m0, f.g.held, blk) ==> |VisitedKeys(f.g.live, blk, page, 0)| == corresponding
    {
      var hits := SealPage(f, blk, page, list, m0, f.g.lists);
      WalkStep(m0, f.t.chunksMap, f.g.live, f.t.flash, f.g.lists, f.g.role, blk, page);
      corresponding := corresponding + hits;
      page := if page == 0 then 1 else page + 2;
    }
    WalkEnds(m0, f.t.chunksMap, f.g.live, f.g.held, f.t.flash, f.g.lists, f.g.role, blk);
  }
}
