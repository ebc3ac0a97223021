/** Moves of one chunk keep the invariant and change the content only as told. */
module ChunkMoves {
  import opened Base
  import opened State
  import opened Steps

  // ----- a chunk leaves its place -----

  lemma DetachMap(cmap: map<Key, Loc>, live: map<Key, Loc>, held: map<Key, Chunk>, k: Key, d: Chunk)
    requires MapOK(cmap, live, held) && StaleOK(cmap, live, held) && Inj(live)
    ensures MapOK(cmap, live - {k}, held[k := d]) && StaleOK(cmap, live - {k}, held[k := d])
  {
  }

  lemma DetachDram(m: map<Key, Loc>, meta: seq<seq<Option<Key>>>, fill: seq<nat>, k: Key, ow: bool)
    requires DramOK(m, meta, fill, ow)
    ensures DramOK(m - {k}, ClearMeta(meta, m, k, ow), fill, ow)
  {
  }

  lemma DetachKeys(m: map<Key, Loc>, k: Key, blk: Blk)
    ensures |KeysIn(m - {k}, blk)| == if k in m && InBlk(m[k].page, blk) then |KeysIn(m, blk)| - 1 else |KeysIn(m, blk)|
  {
    if k in m && InBlk(m[k].page, blk) {
      assert KeysIn(m - {k}, blk) == KeysIn(m, blk) - {k};
    } else {
      assert KeysIn(m - {k}, blk) == KeysIn(m, blk);
    }
  }

  lemma DetachW(m: map<Key, Loc>, role: map<Blk, Role>, wCount: map<Blk, nat>, k: Key)
    requires WCounts(m, role, wCount)
    ensures WCounts(m - {k}, role, OneLessRw(wCount, m, role, k))
    ensures OnRw(m, role, k) ==> BlkOf(m[k].page) in wCount && 0 < wCount[BlkOf(m[k].page)]
  {
    forall blk | blk in role
      ensures |KeysIn(m - {k}, blk)|
        == if k in m && InBlk(m[k].page, blk) then |KeysIn(m, blk)| - 1 else |KeysIn(m, blk)|
    {
      DetachKeys(m, k, blk);
    }
  }

  lemma DetachO(m: map<Key, Loc>, role: map<Blk, Role>, oCount: map<Blk, nat>, debt: Debt, k: Key)
    requires OCounts(m, role, oCount, debt)
    ensures OCounts(m - {k}, role, OneLessOw(oCount, m, role, k), debt)
    ensures OnOw(m, role, k) ==> BlkOf(m[k].page) in oCount && 0 < oCount[BlkOf(m[k].page)]
  {
    forall blk | blk in role
      ensures |KeysIn(m - {k}, blk)|
        == if k in m && InBlk(m[k].page, blk) then |KeysIn(m, blk)| - 1 else |KeysIn(m, blk)|
    {
      DetachKeys(m, k, blk);
    }
  }

  lemma DetachOwingO(m: map<Key, Loc>, role: map<Blk, Role>, oCount: map<Blk, nat>, debt: Debt, k: Key, blk: Blk)
    requires OCounts(m, role, oCount, debt) && OnOw(m, role, k) && BlkOf(m[k].page) == blk
    requires debt.amount == 0 || debt.blk == blk
    ensures OCounts(m - {k}, role, oCount, Debt(blk, debt.amount + 1))
  {
    forall o | o in role
      ensures |KeysIn(m - {k}, o)| == if k in m && InBlk(m[k].page, o) then |KeysIn(m, o)| - 1 else |KeysIn(m, o)|
    {
      DetachKeys(m, k, o);
    }
  }

  lemma DetachFlash(m: map<Key, Loc>, flash: map<PageId, Page>, lists: map<Blk, seq<Option<nat>>>, role: map<Blk, Role>,
                    k: Key)
    requires FlashOK(m, flash, lists, role) && Inj(m)
    ensures FlashOK(m - {k}, flash, lists, role) && Inj(m - {k})
    ensures k in m && m[k].page.Pg? ==> BlkOf(m[k].page) in role
  {
  }

  lemma ClearMetaShape(banks: nat, buf: seq<seq<Chunk>>, meta: seq<seq<Option<Key>>>, ptr: seq<nat>, fill: seq<nat>,
                       m: map<Key, Loc>, k: Key, ow: bool)
    requires BufShape(banks, buf, meta, ptr, fill)
    ensures BufShape(banks, buf, ClearMeta(meta, m, k, ow), ptr, fill)
  {
  }

  lemma DetachInv(s: St, k: Key, d: Chunk)
    requires Inv(s)
    ensures Inv(Detach(s, k, d))
    ensures ContentOf(Detach(s, k, d)) == ContentOf(s)[k := d]
  {
    hide BufShape, RoleShape, ListShape, MapOK, StaleOK, DramOK, FlashOK, Inj, WCounts, OCounts, CleanOK, MembersOK,
         RwOK, OwOK, Erased, ListPages, Budget, TraceOK, Content, ClearMeta, OneLessRw, OneLessOw;
    DetachMap(s.cmap, s.live, s.held, k, d);
    DetachFlash(s.live, s.flash, s.lists, s.role, k);
    DetachW(s.live, s.role, s.wCount, k);
    DetachO(s.live, s.role, s.oCount, s.debt, k);
    DetachDram(s.live, s.meta, s.fill, k, false);
    DetachDram(s.live, s.owMeta, s.owFill, k, true);
    ClearMetaShape(s.banks, s.logBuf, s.meta, s.ptr, s.fill, s.live, k, false);
    ClearMetaShape(s.banks, s.owBuf, s.owMeta, s.owPtr, s.owFill, s.live, k, true);
    DisjointHeld(s);
    DetachContent(s.live, s.held, s.logBuf, s.owBuf, s.flash, k, d);
  }

  lemma DetachOwingInv(s: St, k: Key, d: Chunk, blk: Blk)
    requires Inv(s) && OnOw(s.live, s.role, k) && BlkOf(s.live[k].page) == blk
    requires s.debt.amount == 0 || s.debt.blk == blk
    ensures Inv(DetachOwing(s, k, d, blk))
  {
    hide BufShape, RoleShape, ListShape, MapOK, StaleOK, DramOK, FlashOK, Inj, WCounts, OCounts, CleanOK, MembersOK,
         RwOK, OwOK, Erased, ListPages, Budget, TraceOK, SetSlot, Minus;
    DetachMap(s.cmap, s.live, s.held, k, d);
    DetachFlash(s.live, s.flash, s.lists, s.role, k);
    DetachW(s.live, s.role, s.wCount, k);
    assert !OnRw(s.live, s.role, k);
    assert OneLessRw(s.wCount, s.live, s.role, k) == s.wCount;
    DetachOwingO(s.live, s.role, s.oCount, s.debt, k, blk);
    DetachDram(s.live, s.meta, s.fill, k, false);
    DetachDram(s.live, s.owMeta, s.owFill, k, true);
  }

  lemma PayO(m: map<Key, Loc>, role: map<Blk, Role>, oCount: map<Blk, nat>, debt: Debt)
    requires OCounts(m, role, oCount, debt)
    ensures OCounts(m, role, Minus(oCount, debt.blk, debt.amount), Debt(debt.blk, 0))
    ensures debt.amount > 0 ==> debt.blk in oCount && debt.amount <= oCount[debt.blk]
  {
  }

  lemma PayDebtInv(s: St)
    requires Inv(s)
    ensures Inv(PayDebt(s)) && ContentOf(PayDebt(s)) == ContentOf(s)
  {
    hide BufShape, RoleShape, ListShape, MapOK, StaleOK, DramOK, FlashOK, Inj, WCounts, OCounts, CleanOK, MembersOK,
         RwOK, OwOK, Erased, ListPages, Budget, TraceOK, Minus, Content;
    PayO(s.live, s.role, s.oCount, s.debt);
  }

  lemma DetachContent(live: map<Key, Loc>, held: map<Key, Chunk>, logBuf: seq<seq<Chunk>>, owBuf: seq<seq<Chunk>>,
                      flash: map<PageId, Page>, k: Key, d: Chunk)
    requires live.Keys !! held.Keys
    ensures Content(live - {k}, held[k := d], logBuf, owBuf, flash) == Content(live, held, logBuf, owBuf, flash)[k := d]
  {
  }

  lemma ForgetMap(cmap: map<Key, Loc>, live: map<Key, Loc>, held: map<Key, Chunk>, k: Key)
    requires MapOK(cmap, live, held) && StaleOK(cmap, live, held) && k in held
    ensures MapOK(cmap - {k}, live, held - {k}) && StaleOK(cmap - {k}, live, held - {k})
  {
  }

  lemma ForgetContent(live: map<Key, Loc>, held: map<Key, Chunk>, logBuf: seq<seq<Chunk>>, owBuf: seq<seq<Chunk>>,
                      flash: map<PageId, Page>, k: Key)
    requires live.Keys !! held.Keys && k in held
    ensures Content(live, held - {k}, logBuf, owBuf, flash) == Content(live, held, logBuf, owBuf, flash) - {k}
  {
  }

  lemma ForgetInv(s: St, k: Key)
    requires Inv(s) && k in s.held
    ensures Inv(Forget(s, k)) && ContentOf(Forget(s, k)) == ContentOf(s) - {k}
  {
    ForgetContent(s.live, s.held, s.logBuf, s.owBuf, s.flash, k);
    hide BufShape, RoleShape, ListShape, StaleOK, MapOK, DramOK, FlashOK, Inj, WCounts, OCounts, CleanOK, MembersOK,
         RwOK, OwOK, Erased, ListPages, Budget, TraceOK, Content;
    ForgetMap(s.cmap, s.live, s.held, k);
  }

  // ----- a detached chunk goes to a buffer slot -----

  ghost predicate FreshLoc(m: map<Key, Loc>, loc: Loc) {
    forall k | k in m :: m[k].page != loc.page || m[k].slot != loc.slot
  }

  lemma PutMap(cmap: map<Key, Loc>, live: map<Key, Loc>, held: map<Key, Chunk>, k: Key, loc: Loc)
    requires MapOK(cmap, live, held) && StaleOK(cmap, live, held) && Inj(live)
    requires k !in live && k.idx < 8 && loc.slot < 8 && FreshLoc(live, loc)
    requires forall h | h in held && h in cmap && h != k && cmap[h].ow :: cmap[h] != loc
    ensures MapOK(cmap[k := loc], live[k := loc], held - {k})
    ensures StaleOK(cmap[k := loc], live[k := loc], held - {k})
    ensures Inj(live[k := loc])
  {
  }

  lemma PutDram(m: map<Key, Loc>, meta: seq<seq<Option<Key>>>, fill: seq<nat>, k: Key, b: nat, ow: bool)
    requires DramOK(m, meta, fill, ow) && k !in m && b < |fill| && b < |meta| && fill[b] < |meta[b]|
    ensures DramOK(m[k := Loc(ow, Buf(ow, b), fill[b])], SetSlot(meta, b, fill[b], Some(k)), fill[b := fill[b] + 1], ow)
    ensures FreshLoc(m, Loc(ow, Buf(ow, b), fill[b]))
  {
  }

  lemma PutDramOther(m: map<Key, Loc>, meta: seq<seq<Option<Key>>>, fill: seq<nat>, k: Key, loc: Loc, ow: bool)
    requires DramOK(m, meta, fill, ow) && k !in m && loc.page.Buf? && loc.page.ow != ow
    ensures DramOK(m[k := loc], meta, fill, ow)
  {
  }

  lemma PutFlash(m: map<Key, Loc>, flash: map<PageId, Page>, lists: map<Blk, seq<Option<nat>>>, role: map<Blk, Role>,
                 k: Key, loc: Loc)
    requires FlashOK(m, flash, lists, role) && loc.page.Buf?
    ensures FlashOK(m[k := loc], flash, lists, role)
  {
  }

  lemma PutKeys(m: map<Key, Loc>, k: Key, loc: Loc)
    requires k !in m && loc.page.Buf?
    ensures forall blk :: KeysIn(m[k := loc], blk) == KeysIn(m, blk)
  {
  }

  lemma PutCounts(m: map<Key, Loc>, role: map<Blk, Role>, wCount: map<Blk, nat>, oCount: map<Blk, nat>, debt: Debt,
                  k: Key, loc: Loc)
    requires WCounts(m, role, wCount) && OCounts(m, role, oCount, debt)
    requires k !in m && loc.page.Buf?
    ensures WCounts(m[k := loc], role, wCount) && OCounts(m[k := loc], role, oCount, debt)
  {
    PutKeys(m, k, loc);
  }

  lemma PutShape(banks: nat, buf: seq<seq<Chunk>>, meta: seq<seq<Option<Key>>>, ptr: seq<nat>, fill: seq<nat>, b: nat,
                 d: Chunk, v: Option<Key>)
    requires BufShape(banks, buf, meta, ptr, fill) && b < banks && fill[b] < 8
    ensures BufShape(banks, SetSlot(buf, b, fill[b], d), SetSlot(meta, b, fill[b], v), ptr[b := NextPtr(ptr[b])],
                     fill[b := fill[b] + 1])
  {
  }

  lemma PutRwInv(s: St, k: Key, b: nat, d: Chunk)
    requires Inv(s) && b < s.banks && k in s.held && k.idx < 8 && |s.fill| == s.banks && s.fill[b] < 8
      && |s.ptr| == s.banks
    requires |s.meta| == s.banks && |s.meta[b]| == 8
    ensures Inv(PutRw(s, k, b, d))
  {
    hide BufShape, RoleShape, ListShape, MapOK, StaleOK, DramOK, FlashOK, Inj, WCounts, OCounts, CleanOK, MembersOK,
         RwOK, OwOK, Erased, ListPages, Budget, TraceOK, SetSlot, FreshLoc;
    DisjointHeld(s);
    var loc := Loc(false, Buf(false, b), s.fill[b]);
    PutDram(s.live, s.meta, s.fill, k, b, false);
    PutDramOther(s.live, s.owMeta, s.owFill, k, loc, true);
    PutMap(s.cmap, s.live, s.held, k, loc);
    PutFlash(s.live, s.flash, s.lists, s.role, k, loc);
    PutCounts(s.live, s.role, s.wCount, s.oCount, s.debt, k, loc);
    PutShape(s.banks, s.logBuf, s.meta, s.ptr, s.fill, b, d, Some(k));
  }

  lemma PutOwInv(s: St, k: Key, b: nat, d: Chunk)
    requires Inv(s) && b < s.banks && k in s.held && k.idx < 8 && |s.owFill| == s.banks && s.owFill[b] < 8
      && |s.owPtr| == s.banks
    requires |s.owMeta| == s.banks && |s.owMeta[b]| == 8
    requires s.held.Keys == {k}
    ensures Inv(PutOw(s, k, b, d))
  {
    hide BufShape, RoleShape, ListShape, MapOK, StaleOK, DramOK, FlashOK, Inj, WCounts, OCounts, CleanOK, MembersOK,
         RwOK, OwOK, Erased, ListPages, Budget, TraceOK, SetSlot, FreshLoc;
    DisjointHeld(s);
    var loc := Loc(true, Buf(true, b), s.owFill[b]);
    PutDram(s.live, s.owMeta, s.owFill, k, b, true);
    PutDramOther(s.live, s.meta, s.fill, k, loc, false);
    PutMap(s.cmap, s.live, s.held, k, loc);
    PutFlash(s.live, s.flash, s.lists, s.role, k, loc);
    PutCounts(s.live, s.role, s.wCount, s.oCount, s.debt, k, loc);
    PutShape(s.banks, s.owBuf, s.owMeta, s.owPtr, s.owFill, b, d, Some(k));
  }

  /** Content is decided by what each live chunk dereferences to. */
  lemma ContentPut(live: map<Key, Loc>, held: map<Key, Chunk>, k: Key, loc: Loc, d: Chunk,
                   lb: seq<seq<Chunk>>, ob: seq<seq<Chunk>>, fl: map<PageId, Page>,
                   lb': seq<seq<Chunk>>, ob': seq<seq<Chunk>>, fl': map<PageId, Page>)
    requires live.Keys !! held.Keys && k !in held - {k}
    requires forall j | j in live && j != k :: Deref(live[j], lb', ob', fl') == Deref(live[j], lb, ob, fl)
    requires Deref(loc, lb', ob', fl') == d
    ensures Content(live[k := loc], held - {k}, lb', ob', fl') == Content(live, held, lb, ob, fl)[k := d]
  {
    hide Deref;
  }

  lemma SlotDeref(rows: seq<seq<Chunk>>, other: seq<seq<Chunk>>, flash: map<PageId, Page>, b: nat, i: nat, d: Chunk,
                  ow: bool, loc: Loc)
    requires b < |rows| && i < |rows[b]|
    ensures var r := SetSlot(rows, b, i, d);
            var x := if ow then Deref(loc, other, r, flash) else Deref(loc, r, other, flash);
            x == if loc.page == Buf(ow, b) && loc.slot == i then d
                 else if ow then Deref(loc, other, rows, flash) else Deref(loc, rows, other, flash)
  {
  }

  /** Writing one buffer slot changes the content of the chunk put there and no other. */
  lemma PutContent(live: map<Key, Loc>, held: map<Key, Chunk>, logBuf: seq<seq<Chunk>>, owBuf: seq<seq<Chunk>>,
                   flash: map<PageId, Page>, k: Key, b: nat, i: nat, d: Chunk, ow: bool)
    requires live.Keys !! held.Keys
    requires b < |logBuf| && i < |logBuf[b]| && b < |owBuf| && i < |owBuf[b]|
    requires forall j | j in live && j != k :: live[j].page != Buf(ow, b) || live[j].slot != i
    ensures Content(live[k := Loc(ow, Buf(ow, b), i)], held - {k},
                    if ow then logBuf
                    else SetSlot(logBuf, b, i, d), if ow then SetSlot(owBuf, b, i, d) else owBuf, flash)
         == Content(live, held, logBuf, owBuf, flash)[k := d]
  {
    var lb := if ow then logBuf else SetSlot(logBuf, b, i, d);
    var ob := if ow then SetSlot(owBuf, b, i, d) else owBuf;
    hide Deref, SetSlot, Content;
    forall j | j in live && j != k
      ensures Deref(live[j], lb, ob, flash) == Deref(live[j], logBuf, owBuf, flash)
    {
      SlotDeref(if ow then owBuf else logBuf, if ow then logBuf else owBuf, flash, b, i, d, ow, live[j]);
    }
    SlotDeref(if ow then owBuf else logBuf, if ow then logBuf else owBuf, flash, b, i, d, ow, Loc(ow, Buf(ow, b), i));
    ContentPut(live, held, k, Loc(ow, Buf(ow, b), i), d, logBuf, owBuf, flash, lb, ob, flash);
  }

  lemma PutRwContentOf(s: St, k: Key, b: nat, d: Chunk)
    requires Inv(s) && b < s.banks && k in s.held && |s.fill| == s.banks && s.fill[b] < 8 && |s.ptr| == s.banks
    ensures ContentOf(PutRw(s, k, b, d)) == ContentOf(s)[k := d]
  {
    assert |s.logBuf[b]| == 8 && |s.owBuf[b]| == 8;
    assert s.live.Keys !! s.held.Keys;
    assert forall j | j in s.live && j != k :: s.live[j].page != Buf(false, b) || s.live[j].slot != s.fill[b];
    hide Content, Inv, SetSlot;
    PutContent(s.live, s.held, s.logBuf, s.owBuf, s.flash, k, b, s.fill[b], d, false);
  }

  lemma PutOwContentOf(s: St, k: Key, b: nat, d: Chunk)
    requires Inv(s) && b < s.banks && k in s.held && |s.owFill| == s.banks && s.owFill[b] < 8 && |s.owPtr| == s.banks
    ensures ContentOf(PutOw(s, k, b, d)) == ContentOf(s)[k := d]
  {
    assert |s.logBuf[b]| == 8 && |s.owBuf[b]| == 8;
    assert s.live.Keys !! s.held.Keys;
    assert forall j | j in s.live && j != k :: s.live[j].page != Buf(true, b) || s.live[j].slot != s.owFill[b];
    hide Content, Inv, SetSlot;
    PutContent(s.live, s.held, s.logBuf, s.owBuf, s.flash, k, b, s.owFill[b], d, true);
  }

  // ----- data patched in place in a buffer -----

  lemma BufferedFacts(s: St, k: Key)
    requires Inv(s) && k in s.live && s.live[k].page.Buf?
    ensures var b := s.live[k].page.bank;
      && s.live[k].ow == s.live[k].page.ow && s.live[k].slot < 8 && b < s.banks && k !in s.held
      && s.live.Keys !! s.held.Keys && Inj(s.live)
      && b < |s.logBuf| && |s.logBuf[b]| == 8 && b < |s.owBuf| && |s.owBuf[b]| == 8
  {
    hide RoleShape, ListShape, StaleOK, FlashOK, Inj, WCounts, OCounts, CleanOK, MembersOK, RwOK, OwOK, Erased,
         ListPages, Budget, TraceOK;
  }

  lemma PatchBufContentOf(s: St, k: Key, d: Chunk)
    requires Inv(s) && k in s.live && s.live[k].page.Buf?
    ensures !s.live[k].page.ow ==>
      ContentOf(PatchRwBuf(s, s.live[k].page.bank, s.live[k].slot, d)) == ContentOf(s)[k := d]
    ensures s.live[k].page.ow ==>
      ContentOf(PatchOwBuf(s, s.live[k].page.bank, s.live[k].slot, d)) == ContentOf(s)[k := d]
  {
    hide Content, Inv, SetSlot, Inj;
    BufferedFacts(s, k);
    var b, i, ow := s.live[k].page.bank, s.live[k].slot, s.live[k].page.ow;
    assert s.live[k := Loc(ow, Buf(ow, b), i)] == s.live;
    assert s.held - {k} == s.held;
    InjAt(s.live, k);
    PutContent(s.live, s.held, s.logBuf, s.owBuf, s.flash, k, b, i, d, ow);
  }

  lemma InjAt(live: map<Key, Loc>, k: Key)
    requires Inj(live) && k in live
    ensures forall j | j in live && j != k :: live[j].page != live[k].page || live[j].slot != live[k].slot
  {
  }

  lemma PatchShape(banks: nat, buf: seq<seq<Chunk>>, meta: seq<seq<Option<Key>>>, ptr: seq<nat>, fill: seq<nat>, b: nat,
                   slot: nat, d: Chunk)
    requires BufShape(banks, buf, meta, ptr, fill)
    ensures BufShape(banks, SetSlot(buf, b, slot, d), meta, ptr, fill)
  {
  }

  lemma PatchRwBufInv(s: St, b: nat, slot: nat, d: Chunk)
    requires Inv(s)
    ensures Inv(PatchRwBuf(s, b, slot, d))
  {
    hide BufShape, RoleShape, ListShape, MapOK, StaleOK, DramOK, FlashOK, Inj, WCounts, OCounts, CleanOK, MembersOK,
         RwOK, OwOK, Erased, ListPages, Budget, TraceOK, SetSlot;
    PatchShape(s.banks, s.logBuf, s.meta, s.ptr, s.fill, b, slot, d);
  }

  lemma PatchOwBufInv(s: St, b: nat, slot: nat, d: Chunk)
    requires Inv(s)
    ensures Inv(PatchOwBuf(s, b, slot, d))
  {
    hide BufShape, RoleShape, ListShape, MapOK, StaleOK, DramOK, FlashOK, Inj, WCounts, OCounts, CleanOK, MembersOK,
         RwOK, OwOK, Erased, ListPages, Budget, TraceOK, SetSlot;
    PatchShape(s.banks, s.owBuf, s.owMeta, s.owPtr, s.owFill, b, slot, d);
  }
}
