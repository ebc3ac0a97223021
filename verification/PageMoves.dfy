/** Programming the next page of an open block keeps the invariant. */
module PageMoves {
  import opened Base
  import opened Nand
  import opened State
  import opened Steps

  /** What `adds` must look like: eight slots of page `dst` at most, each named,
      each chunk either held in RAM or leaving buffer `src` or a block being collected. */
  ghost predicate AddsOK(live: map<Key, Loc>, role: map<Blk, Role>, adds: map<Key, Loc>, dst: PageId,
                         names: seq<Option<nat>>, ow: bool, b: nat, drain: bool) {
    && |names| == 8 && |adds| <= 8
    && (forall k | k in adds ::
         k.idx < 8 && adds[k].ow == ow && adds[k].page == dst && adds[k].slot < 8 && names[adds[k].slot] == Some(k.lpn))
    && Inj(adds)
    && (forall k | k in adds && k in live :: FromSource(live[k], role, ow, b, drain))
    && (drain ==> forall k | k in live && live[k].page == Buf(ow, b) :: k in adds)
  }

  ghost predicate FromSource(loc: Loc, role: map<Blk, Role>, ow: bool, b: nat, drain: bool) {
    if loc.page.Buf? then drain && loc.page == Buf(ow, b)
    else BlkOf(loc.page) in role && role[BlkOf(loc.page)].Victim?
  }

  lemma ProgramMapOK(cmap: map<Key, Loc>, live: map<Key, Loc>, held: map<Key, Chunk>, adds: map<Key, Loc>)
    requires MapOK(cmap, live, held) && forall k | k in adds :: k.idx < 8 && adds[k].slot < 8
    ensures MapOK(cmap + adds, live + adds, held - adds.Keys)
  {
  }

  lemma ProgramStale(cmap: map<Key, Loc>, live: map<Key, Loc>, held: map<Key, Chunk>, adds: map<Key, Loc>, ow: bool)
    requires StaleOK(cmap, live, held) && forall k | k in adds :: adds[k].ow == ow
    requires ow ==> held.Keys <= adds.Keys
    ensures StaleOK(cmap + adds, live + adds, held - adds.Keys)
  {
  }

  lemma ProgramInj(live: map<Key, Loc>, adds: map<Key, Loc>, dst: PageId)
    requires Inj(live) && Inj(adds) && (forall k | k in adds :: adds[k].page == dst)
      && (forall k | k in live :: live[k].page != dst)
    ensures Inj(live + adds)
  {
  }

  lemma ProgramMap(cmap: map<Key, Loc>, live: map<Key, Loc>, held: map<Key, Chunk>, role: map<Blk, Role>,
                   adds: map<Key, Loc>, dst: PageId, names: seq<Option<nat>>, ow: bool, b: nat, drain: bool)
    requires MapOK(cmap, live, held) && StaleOK(cmap, live, held) && Inj(live)
    requires AddsOK(live, role, adds, dst, names, ow, b, drain)
    requires forall k | k in live :: live[k].page != dst
    requires ow ==> held.Keys <= adds.Keys
    ensures MapOK(cmap + adds, live + adds, held - adds.Keys)
    ensures StaleOK(cmap + adds, live + adds, held - adds.Keys)
    ensures Inj(live + adds)
  {
    hide MapOK, StaleOK, Inj, FromSource;
    ProgramMapOK(cmap, live, held, adds);
    ProgramStale(cmap, live, held, adds, ow);
    ProgramInj(live, adds, dst);
  }

  lemma ProgramDram(live: map<Key, Loc>, meta: seq<seq<Option<Key>>>, fill: seq<nat>, role: map<Blk, Role>,
                    adds: map<Key, Loc>, dst: PageId, names: seq<Option<nat>>, ow: bool, b: nat, drain: bool)
    requires DramOK(live, meta, fill, ow) && AddsOK(live, role, adds, dst, names, ow, b, drain) && dst.Pg? && b < |fill|
    ensures DramOK(live + adds, meta, Drained(fill, b, drain), ow)
  {
    var f := Drained(fill, b, drain);
    forall c, i | 0 <= c < |f| && c < |meta| && 0 <= i < f[c] && i < |meta[c]| && meta[c][i].Some?
      ensures meta[c][i].value in live + adds && (live + adds)[meta[c][i].value] == Loc(ow, Buf(ow, c), i)
    {
      assert live[meta[c][i].value] == Loc(ow, Buf(ow, c), i);
    }
  }

  lemma ProgramDramOther(live: map<Key, Loc>, meta: seq<seq<Option<Key>>>, fill: seq<nat>, role: map<Blk, Role>,
                         adds: map<Key, Loc>, dst: PageId, names: seq<Option<nat>>, ow: bool, b: nat, drain: bool)
    requires DramOK(live, meta, fill, !ow) && AddsOK(live, role, adds, dst, names, ow, b, drain) && dst.Pg?
    ensures DramOK(live + adds, meta, fill, !ow)
  {
    forall c, i | 0 <= c < |fill| && c < |meta| && 0 <= i < fill[c] && i < |meta[c]| && meta[c][i].Some?
      ensures meta[c][i].value in live + adds && (live + adds)[meta[c][i].value] == Loc(!ow, Buf(!ow, c), i)
    {
      assert live[meta[c][i].value] == Loc(!ow, Buf(!ow, c), i);
    }
  }

  lemma NamesLength(list: seq<Option<nat>>, page: nat, names: seq<Option<nat>>)
    requires |names| == 8
    ensures |WriteNames(list, page, names)| == |list|
  {
  }

  lemma NameAt(list: seq<Option<nat>>, page: nat, names: seq<Option<nat>>, p: nat, i: nat)
    requires |names| == 8 && i < 8 && p * 8 + i < |list|
    ensures WriteNames(list, page, names)[p * 8 + i] == if p == page then names[i] else list[p * 8 + i]
  {
  }

  ghost predicate SameKind(r: Role, r': Role) {
    (r.OpenRw? && r'.OpenRw?) || (r.OpenOw? && r'.OpenOw?)
  }

  /** The programmed page is one its block had not programmed: no chunk was there. */
  lemma FreshPage(live: map<Key, Loc>, flash: map<PageId, Page>, lists: map<Blk, seq<Option<nat>>>,
                  role: map<Blk, Role>, dst: PageId)
    requires FlashOK(live, flash, lists, role) && Erased(flash, role)
    requires dst.Pg? && BlkOf(dst) in role && PageFree(role[BlkOf(dst)], dst.page)
    ensures dst !in flash && forall k | k in live :: live[k].page != dst
  {
  }

  lemma ProgramFlashNew(k: Key, loc: Loc, flash: map<PageId, Page>, lists: map<Blk, seq<Option<nat>>>,
                        role: map<Blk, Role>, dst: PageId, data: seq<Chunk>, names: seq<Option<nat>>, r: Role)
    requires dst.Pg? && dst.page <= 126 && BlkOf(dst) in lists && |lists[BlkOf(dst)]| == CHUNKS_PER_BLK
    requires !r.Clean? && |data| == 8 && |names| == 8
    requires loc.page == dst && loc.slot < 8 && loc.ow == IsOw(r) && names[loc.slot] == Some(k.lpn)
    ensures FlashKeyOK(k, loc, flash[dst := Data(data, 1)],
                       lists[BlkOf(dst) := WriteNames(lists[BlkOf(dst)], dst.page, names)], role[BlkOf(dst) := r])
  {
    NameAt(lists[BlkOf(dst)], dst.page, names, dst.page, loc.slot);
  }

  lemma ProgramFlashOld(k: Key, loc: Loc, flash: map<PageId, Page>, lists: map<Blk, seq<Option<nat>>>,
                        role: map<Blk, Role>, dst: PageId, data: seq<Chunk>, names: seq<Option<nat>>, r: Role)
    requires dst.Pg? && dst.page <= 126 && BlkOf(dst) in role && BlkOf(dst) in lists
      && |lists[BlkOf(dst)]| == CHUNKS_PER_BLK
    requires IsOw(role[BlkOf(dst)]) == IsOw(r) && !r.Clean? && |names| == 8
    requires loc.page.Pg? && loc.page != dst && FlashKeyOK(k, loc, flash, lists, role)
    ensures FlashKeyOK(k, loc, flash[dst := Data(data, 1)],
                       lists[BlkOf(dst) := WriteNames(lists[BlkOf(dst)], dst.page, names)], role[BlkOf(dst) := r])
  {
    if BlkOf(loc.page) == BlkOf(dst) {
      NameAt(lists[BlkOf(dst)], dst.page, names, loc.page.page, loc.slot);
    }
  }

  lemma ProgramFlash(live: map<Key, Loc>, flash: map<PageId, Page>, lists: map<Blk, seq<Option<nat>>>,
                     role: map<Blk, Role>, adds: map<Key, Loc>, dst: PageId, data: seq<Chunk>, names: seq<Option<nat>>,
                     r: Role, ow: bool, b: nat, drain: bool)
    requires FlashOK(live, flash, lists, role)
    requires AddsOK(live, role, adds, dst, names, ow, b, drain)
    requires dst.Pg? && dst.page <= 126 && BlkOf(dst) in role && BlkOf(dst) in lists
      && |lists[BlkOf(dst)]| == CHUNKS_PER_BLK
    requires SameKind(role[BlkOf(dst)], r) && IsOw(r) == ow && |data| == 8
    requires forall k | k in live :: live[k].page != dst
    ensures FlashOK(live + adds, flash[dst := Data(data, 1)],
                    lists[BlkOf(dst) := WriteNames(lists[BlkOf(dst)], dst.page, names)], role[BlkOf(dst) := r])
  {
    hide FlashKeyOK, FromSource, WriteNames, Inj;
    forall k | k in live + adds && (live + adds)[k].page.Pg?
      ensures FlashKeyOK(k, (live + adds)[k], flash[dst := Data(data, 1)],
                         lists[BlkOf(dst) := WriteNames(lists[BlkOf(dst)], dst.page, names)], role[BlkOf(dst) := r])
    {
      if k in adds {
        ProgramFlashNew(k, adds[k], flash, lists, role, dst, data, names, r);
      } else {
        ProgramFlashOld(k, live[k], flash, lists, role, dst, data, names, r);
      }
    }
  }

  lemma AddedKeys(live: map<Key, Loc>, adds: map<Key, Loc>, dst: PageId, blk: Blk)
    requires dst.Pg? && (forall k | k in adds :: adds[k].page == dst)
      && (forall k | k in adds && k in live :: !InBlk(live[k].page, blk))
    ensures |KeysIn(live + adds, blk)| == |KeysIn(live, blk)| + if blk == BlkOf(dst) then |adds| else 0
  {
    if blk == BlkOf(dst) {
      assert KeysIn(live + adds, blk) == KeysIn(live, blk) + adds.Keys;
      assert KeysIn(live, blk) !! adds.Keys;
    } else {
      assert KeysIn(live + adds, blk) == KeysIn(live, blk);
    }
  }

  /** The added chunks are new to their block and leave no counted one. */
  lemma ProgramKeys(live: map<Key, Loc>, role: map<Blk, Role>, adds: map<Key, Loc>, dst: PageId,
                    names: seq<Option<nat>>, ow: bool, b: nat, drain: bool, blk: Blk)
    requires AddsOK(live, role, adds, dst, names, ow, b, drain) && dst.Pg? && blk in role && !role[blk].Victim?
    ensures |KeysIn(live + adds, blk)| == |KeysIn(live, blk)| + if blk == BlkOf(dst) then |adds| else 0
  {
    hide KeysIn, Inj;
    AddedKeys(live, adds, dst, blk);
  }

  lemma AddsAt(live: map<Key, Loc>, role: map<Blk, Role>, adds: map<Key, Loc>, dst: PageId, names: seq<Option<nat>>,
               ow: bool, b: nat, drain: bool)
    requires AddsOK(live, role, adds, dst, names, ow, b, drain)
    ensures forall k | k in adds :: adds[k].page == dst && adds[k].slot < 8 && adds[k].ow == ow
    ensures |adds| <= 8
  {
  }

  lemma StepW(live: map<Key, Loc>, live': map<Key, Loc>, role: map<Blk, Role>, wCount: map<Blk, nat>, at: Blk, r: Role,
              n: nat)
    requires WCounts(live, role, wCount) && at in role && n <= 8
    requires forall blk | blk in role && !role[blk].Victim? ::
      |KeysIn(live', blk)| == |KeysIn(live, blk)| + if blk == at then n else 0
    requires SameKind(role[at], r) && Free(role[at]) == Free(r) + 8
    ensures WCounts(live', role[at := r], if r.OpenRw? then Minus(wCount, at, 8 - n) else wCount)
  {
    hide KeysIn, Free;
    assert !role[at].Victim?;
  }

  lemma StepO(live: map<Key, Loc>, live': map<Key, Loc>, role: map<Blk, Role>, oCount: map<Blk, nat>, debt: Debt,
              at: Blk, r: Role, n: nat)
    requires OCounts(live, role, oCount, debt) && at in role && n <= 8
    requires forall blk | blk in role && !role[blk].Victim? ::
      |KeysIn(live', blk)| == |KeysIn(live, blk)| + if blk == at then n else 0
    requires SameKind(role[at], r) && Free(role[at]) == Free(r) + 8
    ensures OCounts(live', role[at := r], if r.OpenOw? then Minus(oCount, at, 8 - n) else oCount, debt)
  {
    hide KeysIn, Free;
    assert !role[at].Victim?;
  }

  lemma ProgramAllKeys(live: map<Key, Loc>, role: map<Blk, Role>, adds: map<Key, Loc>, dst: PageId,
                       names: seq<Option<nat>>, ow: bool, b: nat, drain: bool)
    requires AddsOK(live, role, adds, dst, names, ow, b, drain) && dst.Pg?
    ensures forall blk | blk in role && !role[blk].Victim? ::
      |KeysIn(live + adds, blk)| == |KeysIn(live, blk)| + if blk == BlkOf(dst) then |adds| else 0
  {
    hide AddsOK, KeysIn;
    forall blk | blk in role && !role[blk].Victim?
      ensures |KeysIn(live + adds, blk)| == |KeysIn(live, blk)| + if blk == BlkOf(dst) then |adds| else 0
    {
      ProgramKeys(live, role, adds, dst, names, ow, b, drain, blk);
    }
  }

  lemma ProgramCounts(live: map<Key, Loc>, role: map<Blk, Role>, wCount: map<Blk, nat>, oCount: map<Blk, nat>,
                      debt: Debt, adds: map<Key, Loc>, dst: PageId, names: seq<Option<nat>>, r: Role, ow: bool, b: nat,
                      drain: bool)
    requires WCounts(live, role, wCount) && OCounts(live, role, oCount, debt)
      && AddsOK(live, role, adds, dst, names, ow, b, drain)
    requires dst.Pg? && BlkOf(dst) in role && SameKind(role[BlkOf(dst)], r) && IsOw(r) == ow
    requires Free(role[BlkOf(dst)]) == Free(r) + 8
    ensures WCounts(live + adds, role[BlkOf(dst) := r], if ow then wCount else Minus(wCount, BlkOf(dst), 8 - |adds|))
    ensures OCounts(live + adds, role[BlkOf(dst) := r], if ow then Minus(oCount, BlkOf(dst), 8 - |adds|) else oCount,
                    debt)
  {
    hide AddsOK, KeysIn, WCounts, OCounts, Free, Minus;
    AddsAt(live, role, adds, dst, names, ow, b, drain);
    ProgramAllKeys(live, role, adds, dst, names, ow, b, drain);
    StepW(live, live + adds, role, wCount, BlkOf(dst), r, |adds|);
    StepO(live, live + adds, role, oCount, debt, BlkOf(dst), r, |adds|);
  }

  lemma ProgramRoles(banks: nat, blocks: nat, role: map<Blk, Role>, lists: map<Blk, seq<Option<nat>>>,
                     clean: seq<seq<nat>>, wIn: set<Blk>, oIn: set<Blk>, blk: Blk, r: Role, list: seq<Option<nat>>)
    requires RoleShape(banks, blocks, role) && ListShape(lists, role) && CleanOK(role, clean)
      && MembersOK(role, wIn, oIn)
    requires blk in role && SameKind(role[blk], r) && RoleWf(r) && |list| == CHUNKS_PER_BLK
    ensures RoleShape(banks, blocks, role[blk := r]) && ListShape(lists[blk := list], role[blk := r])
    ensures CleanOK(role[blk := r], clean) && MembersOK(role[blk := r], wIn, oIn)
  {
  }

  lemma ProgramRwCursor(role: map<Blk, Role>, rw: seq<RwCursor>, pending: set<nat>, rwList: seq<seq<Option<nat>>>,
                        lists: map<Blk, seq<Option<nat>>>, b: nat, list: seq<Option<nat>>)
    requires RwOK(role, rw, pending, rwList, lists) && b < |rw| && rw[b].Open? && b !in pending
      && |list| == CHUNKS_PER_BLK
    ensures var blk := Blk(b, rw[b].lbn);
            RwOK(role[blk := OpenRw(NextRw(rw[b].page, rw[b].sealed), rw[b].sealed)], rw, pending + {b},
                 rwList[b := list], lists[blk := list])
  {
  }

  lemma ProgramRwOther(role: map<Blk, Role>, rw: seq<RwCursor>, pending: set<nat>, rwList: seq<seq<Option<nat>>>,
                       lists: map<Blk, seq<Option<nat>>>, blk: Blk, r: Role, list: seq<Option<nat>>)
    requires RwOK(role, rw, pending, rwList, lists) && blk in role && !role[blk].OpenRw? && !r.OpenRw?
    ensures RwOK(role[blk := r], rw, pending, rwList, lists[blk := list])
  {
  }

  lemma ProgramOwCursor(role: map<Blk, Role>, ow: seq<OwCursor>, owPending: set<nat>, owList: seq<seq<Option<nat>>>,
                        lists: map<Blk, seq<Option<nat>>>, b: nat, list: seq<Option<nat>>)
    requires OwOK(role, ow, owPending, owList, lists) && b < |ow| && ow[b].OwOpen? && b !in owPending
      && |list| == CHUNKS_PER_BLK
    ensures var blk := Blk(b, ow[b].lbn);
            OwOK(role[blk := OpenOw(NextOw(ow[b].page))], ow, owPending + {b}, owList[b := list], lists[blk := list])
  {
  }

  lemma ProgramOwOther(role: map<Blk, Role>, ow: seq<OwCursor>, owPending: set<nat>, owList: seq<seq<Option<nat>>>,
                       lists: map<Blk, seq<Option<nat>>>, blk: Blk, r: Role, list: seq<Option<nat>>)
    requires OwOK(role, ow, owPending, owList, lists) && blk in role && !role[blk].OpenOw? && !r.OpenOw?
    ensures OwOK(role[blk := r], ow, owPending, owList, lists[blk := list])
  {
  }

  /** `r'` has the free pages of `r` but `page`. */
  ghost predicate Shrinks(r: Role, r': Role, page: nat) {
    forall p: nat :: PageFree(r', p) <==> PageFree(r, p) && p != page
  }

  lemma NextShrinks(page: nat, sealed: bool)
    requires RoleWf(OpenRw(page, sealed)) && page <= 126
    ensures Shrinks(OpenRw(page, sealed), OpenRw(NextRw(page, sealed), sealed), page)
    ensures RoleWf(OpenRw(NextRw(page, sealed), sealed))
    ensures Free(OpenRw(page, sealed)) == Free(OpenRw(NextRw(page, sealed), sealed)) + 8
    ensures PageFree(OpenRw(page, sealed), page)
  {
  }

  lemma NextOwShrinks(page: nat)
    requires RoleWf(OpenOw(page)) && page <= 123
    ensures Shrinks(OpenOw(page), OpenOw(NextOw(page)), page)
    ensures RoleWf(OpenOw(NextOw(page)))
    ensures Free(OpenOw(page)) == Free(OpenOw(NextOw(page))) + 8
    ensures PageFree(OpenOw(page), page) && LowPage(page)
  {
  }

  lemma ProgramErased(flash: map<PageId, Page>, lists: map<Blk, seq<Option<nat>>>, role: map<Blk, Role>, dst: PageId,
                      page: Page, r: Role, list: seq<Option<nat>>)
    requires Erased(flash, role) && ListPages(flash, lists, role)
    requires dst.Pg? && BlkOf(dst) in role && SameKind(role[BlkOf(dst)], r) && Shrinks(role[BlkOf(dst)], r, dst.page)
    ensures Erased(flash[dst := page], role[BlkOf(dst) := r])
    ensures ListPages(flash[dst := page], lists[BlkOf(dst) := list], role[BlkOf(dst) := r])
  {
  }

  lemma ProgramBudgetRw(flash: map<PageId, Page>, role: map<Blk, Role>, cnt: map<Blk, seq<nat>>, dst: PageId,
                        page: Page, r: Role)
    requires Budget(flash, role, cnt)
    requires dst.Pg? && BlkOf(dst) in role && role[BlkOf(dst)].OpenRw? && r.OpenRw?
    ensures Budget(flash[dst := page], role[BlkOf(dst) := r], cnt)
  {
  }

  lemma CounterInjective(p: nat, q: nat)
    requires LowPage(p) && LowPage(q)
    ensures CounterOf(p) == CounterOf(q) <==> p == q
    ensures CounterOf(p) <= 62
  {
  }

  lemma ProgramBudgetOw(flash: map<PageId, Page>, role: map<Blk, Role>, cnt: map<Blk, seq<nat>>, dst: PageId,
                        data: seq<Chunk>, r: Role)
    requires Budget(flash, role, cnt)
    requires dst.Pg? && BlkOf(dst) in role && role[BlkOf(dst)].OpenOw? && r.OpenOw? && LowPage(dst.page)
      && dst !in flash
    ensures Budget(flash[dst := Data(data, 1)], role[BlkOf(dst) := r], BumpCounter(cnt, BlkOf(dst), dst.page))
  {
    forall p | LowPage(p) ensures CounterOf(p) == CounterOf(dst.page) <==> p == dst.page {
      CounterInjective(p, dst.page);
    }
    CounterInjective(dst.page, dst.page);
    var blk := BlkOf(dst);
    assert cnt[blk][CounterOf(dst.page)] == Programs(flash, Pg(blk.bank, blk.lbn, dst.page));
  }

  /** One more program, in the trace and in the flash. */
  lemma ProgramTimes(flash: map<PageId, Page>, role: map<Blk, Role>, h: Trace, dst: PageId, page: Page, use: Use)
    requires TraceOK(flash, role, h) && dst.Pg? && BlkOf(dst) in role
      && Times(flash[dst := page], dst) == Times(flash, dst) + 1
    ensures forall pg: PageId | pg.Pg? && BlkOf(pg) in role ::
      && Burns(Then(h, Program(dst, use)), pg) == Times(flash[dst := page], pg)
      && (pg in flash[dst := page] ==> 0 < Burns(Then(h, Program(dst, use)), pg))
    ensures forall blk | blk in role && blk != BlkOf(dst) :: Fits(ModeOf(Then(h, Program(dst, use)), blk), role[blk])
  {
    forall pg: PageId | pg.Pg? && BlkOf(pg) in role
      ensures Burns(Then(h, Program(dst, use)), pg) == Times(flash[dst := page], pg)
      ensures pg in flash[dst := page] ==> 0 < Burns(Then(h, Program(dst, use)), pg)
    {
      assert Burns(h, pg) == Times(flash, pg);
    }
    forall blk | blk in role && blk != BlkOf(dst) ensures Fits(ModeOf(Then(h, Program(dst, use)), blk), role[blk]) {
      assert Fits(ModeOf(h, blk), role[blk]);
    }
  }

  lemma ProgramTrace(flash: map<PageId, Page>, role: map<Blk, Role>, h: Trace, dst: PageId, data: seq<Chunk>, r: Role)
    requires TraceOK(flash, role, h) && dst.Pg? && BlkOf(dst) in role && SameKind(role[BlkOf(dst)], r) && dst !in flash
      && dst.page <= 126
    requires r.OpenOw? ==> r.page > 0 && LowPage(dst.page)
    ensures TraceOK(flash[dst := Data(data, 1)], role[BlkOf(dst) := r],
                    Then(h, Program(dst, if r.OpenRw? then RwData else OwData)))
  {
    assert Burns(h, dst) == Times(flash, dst) == 0;
    assert Fits(ModeOf(h, BlkOf(dst)), role[BlkOf(dst)]);
    ProgramTimes(flash, role, h, dst, Data(data, 1), if r.OpenRw? then RwData else OwData);
  }

  lemma DrainShape(banks: nat, buf: seq<seq<Chunk>>, meta: seq<seq<Option<Key>>>, ptr: seq<nat>, fill: seq<nat>, b: nat,
                   drain: bool)
    requires BufShape(banks, buf, meta, ptr, fill) && b < banks && (drain ==> fill[b] == 8)
    ensures BufShape(banks, buf, meta, ptr, Drained(fill, b, drain))
  {
  }

  // ----- the two program steps -----

  ghost predicate CanProgramRw(s: St, b: nat, adds: map<Key, Loc>, data: seq<Chunk>, names: seq<Option<nat>>,
                               drain: bool) {
    && b < |s.rw| && s.rw[b].Open? && b !in s.pending && |data| == 8 && b < |s.fill| && b < |s.rwList|
    && AddsOK(s.live, s.role, adds, Pg(b, s.rw[b].lbn, s.rw[b].page), names, false, b, drain)
    && (drain ==> s.fill[b] == 8)
  }

  lemma ProgramRwFacts(s: St, b: nat)
    requires Inv(s) && b < |s.rw| && s.rw[b].Open? && b !in s.pending
    ensures var blk := Blk(b, s.rw[b].lbn);
      && b < s.banks && |s.fill| == s.banks && |s.rwList| == s.banks
      && blk in s.role && blk in s.lists && s.role[blk] == OpenRw(s.rw[b].page, s.rw[b].sealed)
      && s.rw[b].page <= 126 && |s.lists[blk]| == CHUNKS_PER_BLK && s.rwList[b] == s.lists[blk] && RoleWf(s.role[blk])
  {
  }

  /** The clauses about mapped chunks, for either kind of open block. */
  lemma ProgramMaps(cmap: map<Key, Loc>, live: map<Key, Loc>, held: map<Key, Chunk>, flash: map<PageId, Page>,
                    lists: map<Blk, seq<Option<nat>>>, role: map<Blk, Role>, adds: map<Key, Loc>, dst: PageId,
                    data: seq<Chunk>, names: seq<Option<nat>>, r: Role, ow: bool, b: nat, drain: bool)
    requires MapOK(cmap, live, held) && StaleOK(cmap, live, held) && Inj(live) && FlashOK(live, flash, lists, role)
      && Erased(flash, role)
    requires AddsOK(live, role, adds, dst, names, ow, b, drain)
    requires dst.Pg? && dst.page <= 126 && BlkOf(dst) in role && BlkOf(dst) in lists
      && |lists[BlkOf(dst)]| == CHUNKS_PER_BLK
    requires SameKind(role[BlkOf(dst)], r) && IsOw(r) == ow && |data| == 8 && |names| == 8
      && PageFree(role[BlkOf(dst)], dst.page)
    requires ow ==> held.Keys <= adds.Keys
    ensures MapOK(cmap + adds, live + adds, held - adds.Keys) && StaleOK(cmap + adds, live + adds, held - adds.Keys)
      && Inj(live + adds)
    ensures FlashOK(live + adds, flash[dst := Data(data, 1)],
                    lists[BlkOf(dst) := WriteNames(lists[BlkOf(dst)], dst.page, names)], role[BlkOf(dst) := r])
  {
    hide MapOK, StaleOK, Inj, FlashOK, Erased, AddsOK, WriteNames, PageFree;
    FreshPage(live, flash, lists, role, dst);
    ProgramMap(cmap, live, held, role, adds, dst, names, ow, b, drain);
    ProgramFlash(live, flash, lists, role, adds, dst, data, names, r, ow, b, drain);
  }

  lemma ProgramRwInv(s: St, b: nat, adds: map<Key, Loc>, data: seq<Chunk>, names: seq<Option<nat>>, drain: bool)
    requires Inv(s) && CanProgramRw(s, b, adds, data, names, drain) && |names| == 8 && |adds| <= 8
    ensures Inv(ProgramRw(s, b, adds, data, names, drain))
  {
    hide BufShape, RoleShape, ListShape, MapOK, StaleOK, DramOK, FlashOK, Inj, WCounts, OCounts, CleanOK, MembersOK,
         RwOK, OwOK, Erased, ListPages, Budget, TraceOK, AddsOK, WriteNames, Shrinks, RoleWf, Free, Minus, NextRw,
         PageFree, KeysIn, Drained;
    ProgramRwFacts(s, b);
    var t := ProgramRw(s, b, adds, data, names, drain);
    var c := s.rw[b];
    var dst := Pg(b, c.lbn, c.page);
    var blk := BlkOf(dst);
    var r := OpenRw(NextRw(c.page, c.sealed), c.sealed);
    var list := WriteNames(s.rwList[b], c.page, names);
    NamesLength(s.rwList[b], c.page, names);
    NextShrinks(c.page, c.sealed);
    assert MapOK(t.cmap, t.live, t.held) && StaleOK(t.cmap, t.live, t.held) && Inj(t.live)
      && FlashOK(t.live, t.flash, t.lists, t.role) by {
      ProgramMaps(s.cmap, s.live, s.held, s.flash, s.lists, s.role, adds, dst, data, names, r, false, b, drain);
    }
    assert DramOK(t.live, t.meta, t.fill, false) by {
      ProgramDram(s.live, s.meta, s.fill, s.role, adds, dst, names, false, b, drain);
    }
    assert DramOK(t.live, t.owMeta, t.owFill, true) by {
      ProgramDramOther(s.live, s.owMeta, s.owFill, s.role, adds, dst, names, false, b, drain);
    }
    assert WCounts(t.live, t.role, t.wCount) && OCounts(t.live, t.role, t.oCount, t.debt) by {
      ProgramCounts(s.live, s.role, s.wCount, s.oCount, s.debt, adds, dst, names, r, false, b, drain);
    }
    ProgramRoles(s.banks, s.blocks, s.role, s.lists, s.clean, s.wIn, s.oIn, blk, r, list);
    ProgramRwCursor(s.role, s.rw, s.pending, s.rwList, s.lists, b, list);
    ProgramOwOther(s.role, s.ow, s.owPending, s.owList, s.lists, blk, r, list);
    assert Erased(t.flash, t.role) && ListPages(t.flash, t.lists, t.role) && Budget(t.flash, t.role, t.owCnt)
      && TraceOK(t.flash, t.role, t.trace) by {
      FreshPage(s.live, s.flash, s.lists, s.role, dst);
      ProgramErased(s.flash, s.lists, s.role, dst, Data(data, 1), r, list);
      ProgramBudgetRw(s.flash, s.role, s.owCnt, dst, Data(data, 1), r);
      ProgramTrace(s.flash, s.role, s.trace, dst, data, r);
    }
    assert BufShape(t.banks, t.logBuf, t.meta, t.ptr, t.fill) by {
      DrainShape(s.banks, s.logBuf, s.meta, s.ptr, s.fill, b, drain);
    }
  }

  ghost predicate CanProgramOw(s: St, b: nat, adds: map<Key, Loc>, data: seq<Chunk>, names: seq<Option<nat>>,
                               drain: bool) {
    && b < |s.ow| && s.ow[b].OwOpen? && b !in s.owPending && |data| == 8 && b < |s.owFill| && b < |s.owList|
    && AddsOK(s.live, s.role, adds, Pg(b, s.ow[b].lbn, s.ow[b].page), names, true, b, drain)
    && (drain ==> s.owFill[b] == 8)
    && s.held.Keys <= adds.Keys
  }

  lemma ProgramOwFacts(s: St, b: nat)
    requires Inv(s) && b < |s.ow| && s.ow[b].OwOpen? && b !in s.owPending
    ensures var blk := Blk(b, s.ow[b].lbn);
      && b < s.banks && |s.owFill| == s.banks && |s.owList| == s.banks
      && blk in s.role && blk in s.lists && s.role[blk] == OpenOw(s.ow[b].page)
      && s.ow[b].page <= 123 && |s.lists[blk]| == CHUNKS_PER_BLK && s.owList[b] == s.lists[blk] && RoleWf(s.role[blk])
  {
  }

  lemma ProgramOwInv(s: St, b: nat, adds: map<Key, Loc>, data: seq<Chunk>, names: seq<Option<nat>>, drain: bool)
    requires Inv(s) && CanProgramOw(s, b, adds, data, names, drain) && |names| == 8 && |adds| <= 8
    ensures Inv(ProgramOw(s, b, adds, data, names, drain))
  {
    hide BufShape, RoleShape, ListShape, MapOK, StaleOK, DramOK, FlashOK, Inj, WCounts, OCounts, CleanOK, MembersOK,
         RwOK, OwOK, Erased, ListPages, Budget, TraceOK, AddsOK, WriteNames, Shrinks, RoleWf, Free, Minus, BumpCounter,
         Drained;
    ProgramOwFacts(s, b);
    var c := s.ow[b];
    var dst := Pg(b, c.lbn, c.page);
    var blk := BlkOf(dst);
    var r := OpenOw(NextOw(c.page));
    var list := WriteNames(s.owList[b], c.page, names);
    NamesLength(s.owList[b], c.page, names);
    NextOwShrinks(c.page);
    FreshPage(s.live, s.flash, s.lists, s.role, dst);
    ProgramMaps(s.cmap, s.live, s.held, s.flash, s.lists, s.role, adds, dst, data, names, r, true, b, drain);
    ProgramDram(s.live, s.owMeta, s.owFill, s.role, adds, dst, names, true, b, drain);
    ProgramDramOther(s.live, s.meta, s.fill, s.role, adds, dst, names, true, b, drain);
    ProgramCounts(s.live, s.role, s.wCount, s.oCount, s.debt, adds, dst, names, r, true, b, drain);
    ProgramRoles(s.banks, s.blocks, s.role, s.lists, s.clean, s.wIn, s.oIn, blk, r, list);
    ProgramOwCursor(s.role, s.ow, s.owPending, s.owList, s.lists, b, list);
    ProgramRwOther(s.role, s.rw, s.pending, s.rwList, s.lists, blk, r, list);
    ProgramErased(s.flash, s.lists, s.role, dst, Data(data, 1), r, list);
    ProgramBudgetOw(s.flash, s.role, s.owCnt, dst, data, r);
    ProgramTrace(s.flash, s.role, s.trace, dst, data, r);
    DrainShape(s.banks, s.owBuf, s.owMeta, s.owPtr, s.owFill, b, drain);
  }

  // ----- what a program step does to the content -----

  ghost function NewData(adds: map<Key, Loc>, data: seq<Chunk>): map<Key, Chunk> {
    map k | k in adds :: if adds[k].slot < |data| then data[adds[k].slot] else BlankChunk()
  }

  lemma ProgramDeref(loc: Loc, logBuf: seq<seq<Chunk>>, owBuf: seq<seq<Chunk>>, flash: map<PageId, Page>, dst: PageId,
                     data: seq<Chunk>)
    requires dst.Pg?
    ensures Deref(loc, logBuf, owBuf, flash[dst := Data(data, 1)])
         == if loc.page == dst then (if loc.slot < |data| then data[loc.slot] else BlankChunk()) else Deref(loc, logBuf,
             owBuf, flash)
  {
  }

  lemma NewDataKeys(adds: map<Key, Loc>, data: seq<Chunk>)
    ensures NewData(adds, data).Keys == adds.Keys
  {
  }

  lemma SameMap<K, V>(a: map<K, V>, b: map<K, V>)
    requires a.Keys == b.Keys && forall k | k in a :: a[k] == b[k]
    ensures a == b
  {
  }

  lemma ProgramContentAt(live: map<Key, Loc>, held: map<Key, Chunk>, logBuf: seq<seq<Chunk>>, owBuf: seq<seq<Chunk>>,
                         flash: map<PageId, Page>, adds: map<Key, Loc>, dst: PageId, data: seq<Chunk>, k: Key)
    requires live.Keys !! held.Keys && dst.Pg? && (k in live || k in held || k in adds)
    requires (forall j | j in adds :: adds[j].page == dst) && (forall j | j in live :: live[j].page != dst)
    ensures k in Content(live + adds, held - adds.Keys, logBuf, owBuf, flash[dst := Data(data, 1)])
    ensures k in Content(live, held, logBuf, owBuf, flash) + NewData(adds, data)
    ensures Content(live + adds, held - adds.Keys, logBuf, owBuf, flash[dst := Data(data, 1)])[k]
         == (Content(live, held, logBuf, owBuf, flash) + NewData(adds, data))[k]
  {
    hide Deref, Content;
    ContentAt(live + adds, held - adds.Keys, logBuf, owBuf, flash[dst := Data(data, 1)], k);
    if k in adds {
      ProgramDeref(adds[k], logBuf, owBuf, flash, dst, data);
    } else {
      ContentAt(live, held, logBuf, owBuf, flash, k);
      if k in live {
        ProgramDeref(live[k], logBuf, owBuf, flash, dst, data);
      }
    }
  }

  lemma ProgramContentKeys(live: map<Key, Loc>, held: map<Key, Chunk>, logBuf: seq<seq<Chunk>>, owBuf: seq<seq<Chunk>>,
                           flash: map<PageId, Page>, adds: map<Key, Loc>, dst: PageId, data: seq<Chunk>)
    ensures Content(live + adds, held - adds.Keys, logBuf, owBuf, flash[dst := Data(data, 1)]).Keys
         == (Content(live, held, logBuf, owBuf, flash) + NewData(adds, data)).Keys
    ensures Content(live + adds, held - adds.Keys, logBuf, owBuf, flash[dst := Data(data, 1)]).Keys
      == live.Keys + held.Keys + adds.Keys
  {
    hide *;
    ContentKeys(live, held, logBuf, owBuf, flash);
    ContentKeys(live + adds, held - adds.Keys, logBuf, owBuf, flash[dst := Data(data, 1)]);
    NewDataKeys(adds, data);
  }

  lemma ProgramContent(live: map<Key, Loc>, held: map<Key, Chunk>, logBuf: seq<seq<Chunk>>, owBuf: seq<seq<Chunk>>,
                       flash: map<PageId, Page>, adds: map<Key, Loc>, dst: PageId, data: seq<Chunk>)
    requires live.Keys !! held.Keys && dst.Pg?
    requires (forall k | k in adds :: adds[k].page == dst) && (forall k | k in live :: live[k].page != dst)
    ensures Content(live + adds, held - adds.Keys, logBuf, owBuf, flash[dst := Data(data, 1)])
         == Content(live, held, logBuf, owBuf, flash) + NewData(adds, data)
  {
    hide *;
    var A := Content(live + adds, held - adds.Keys, logBuf, owBuf, flash[dst := Data(data, 1)]);
    var B := Content(live, held, logBuf, owBuf, flash) + NewData(adds, data);
    ProgramContentKeys(live, held, logBuf, owBuf, flash, adds, dst, data);
    forall k | k in A ensures A[k] == B[k] {
      ProgramContentAt(live, held, logBuf, owBuf, flash, adds, dst, data, k);
    }
    SameMap(A, B);
  }

  /** Moving chunks to a page that carries their data changes no content. */
  lemma MoveContent(live: map<Key, Loc>, held: map<Key, Chunk>, logBuf: seq<seq<Chunk>>, owBuf: seq<seq<Chunk>>,
                    flash: map<PageId, Page>, adds: map<Key, Loc>, data: seq<Chunk>)
    requires live.Keys !! held.Keys
    requires forall k | k in adds ::
      k in live && adds[k].slot < |data| && Deref(live[k], logBuf, owBuf, flash) == data[adds[k].slot]
    ensures Content(live, held, logBuf, owBuf, flash) + NewData(adds, data) == Content(live, held, logBuf, owBuf, flash)
  {
    hide Deref;
  }
}
