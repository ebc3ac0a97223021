/** The moves the FTL is made of, as functions on the state. */
module Steps {
  import opened Base
  import opened Nand
  import opened State

  ghost function Minus(count: map<Blk, nat>, blk: Blk, n: nat): map<Blk, nat> {
    if blk in count && n <= count[blk] then count[blk := count[blk] - n] else count
  }

  function SetSlot<T>(rows: seq<seq<T>>, b: nat, slot: nat, v: T): seq<seq<T>> {
    if b < |rows| && slot < |rows[b]| then rows[b := rows[b][slot := v]] else rows
  }

  // ----- single chunks -----

  /** The chunk is in a block of the write heap's kind. */
  ghost predicate OnRw(m: map<Key, Loc>, role: map<Blk, Role>, k: Key) {
    k in m && m[k].page.Pg? && BlkOf(m[k].page) in role && CountedRw(role[BlkOf(m[k].page)])
  }

  /** The chunk is in an overwrite block. */
  ghost predicate OnOw(m: map<Key, Loc>, role: map<Blk, Role>, k: Key) {
    k in m && m[k].page.Pg? && BlkOf(m[k].page) in role && CountedOw(role[BlkOf(m[k].page)])
  }

  ghost function ClearMeta(meta: seq<seq<Option<Key>>>, m: map<Key, Loc>, k: Key, ow: bool): seq<seq<Option<Key>>> {
    if k in m && m[k].page.Buf? && m[k].page.ow == ow then SetSlot(meta, m[k].page.bank, m[k].slot, None) else meta
  }

  ghost function OneLessRw(count: map<Blk, nat>, m: map<Key, Loc>, role: map<Blk, Role>, k: Key): map<Blk, nat> {
    if OnRw(m, role, k) then Minus(count, BlkOf(m[k].page), 1) else count
  }

  ghost function OneLessOw(count: map<Blk, nat>, m: map<Key, Loc>, role: map<Blk, Role>, k: Key): map<Blk, nat> {
    if OnOw(m, role, k) then Minus(count, BlkOf(m[k].page), 1) else count
  }

  /** `k` leaves its place; until it is put somewhere again its value is `d`. */
  ghost function Detach(s: St, k: Key, d: Chunk): St {
    s.(live := s.live - {k}, held := s.held[k := d],
       meta := ClearMeta(s.meta, s.live, k, false), owMeta := ClearMeta(s.owMeta, s.live, k, true),
       wCount := OneLessRw(s.wCount, s.live, s.role, k), oCount := OneLessOw(s.oCount, s.live, s.role, k))
  }

  /** As `Detach`, for a chunk of a full overwrite page whose count is given back later. */
  ghost function DetachOwing(s: St, k: Key, d: Chunk, blk: Blk): St {
    s.(live := s.live - {k}, held := s.held[k := d], debt := Debt(blk, s.debt.amount + 1))
  }

  ghost function PayDebt(s: St): St {
    s.(oCount := Minus(s.oCount, s.debt.blk, s.debt.amount), debt := Debt(s.debt.blk, 0))
  }

  /** The table forgets a detached chunk: it reads as never written. */
  ghost function Forget(s: St, k: Key): St {
    s.(held := s.held - {k}, cmap := s.cmap - {k})
  }

  function NextPtr(p: nat): nat {
    if p + 1 == 8 then 0 else p + 1
  }

  /** A detached chunk goes to the next slot of a write buffer. */
  ghost function PutRw(s: St, k: Key, b: nat, d: Chunk): St
    requires b < |s.fill| && b < |s.ptr|
  {
    var loc := Loc(false, Buf(false, b), s.fill[b]);
    s.(cmap := s.cmap[k := loc], live := s.live[k := loc], held := s.held - {k},
       logBuf := SetSlot(s.logBuf, b, s.fill[b], d), meta := SetSlot(s.meta, b, s.fill[b], Some(k)),
       fill := s.fill[b := s.fill[b] + 1], ptr := s.ptr[b := NextPtr(s.ptr[b])])
  }

  /** The same for an overwrite buffer. */
  ghost function PutOw(s: St, k: Key, b: nat, d: Chunk): St
    requires b < |s.owFill| && b < |s.owPtr|
  {
    var loc := Loc(true, Buf(true, b), s.owFill[b]);
    s.(cmap := s.cmap[k := loc], live := s.live[k := loc], held := s.held - {k},
       owBuf := SetSlot(s.owBuf, b, s.owFill[b], d), owMeta := SetSlot(s.owMeta, b, s.owFill[b], Some(k)),
       owFill := s.owFill[b := s.owFill[b] + 1], owPtr := s.owPtr[b := NextPtr(s.owPtr[b])])
  }

  // ----- whole pages -----

  /** The LPN list with the eight entries of `page` replaced. */
  function WriteNames(list: seq<Option<nat>>, page: nat, names: seq<Option<nat>>): seq<Option<nat>>
    requires |names| == 8
  {
    seq(|list|, i requires 0 <= i < |list| => if page * 8 <= i < page * 8 + 8 then names[i - page * 8] else list[i])
  }

  function Drained(fill: seq<nat>, b: nat, drain: bool): seq<nat> {
    if drain && b < |fill| then fill[b := 0] else fill
  }

  /** The next page of the open RW block of bank `b` is programmed with `data`,
      the chunks in `adds` now live there, and the other slots are born dead. */
  ghost function ProgramRw(s: St, b: nat, adds: map<Key, Loc>, data: seq<Chunk>, names: seq<Option<nat>>,
                           drain: bool): St
    requires b < |s.rw| && s.rw[b].Open? && b < |s.rwList| && b < |s.fill|
    requires |names| == 8 && |adds| <= 8
  {
    var c := s.rw[b];
    var blk := Blk(b, c.lbn);
    var list := WriteNames(s.rwList[b], c.page, names);
    s.(live := s.live + adds, cmap := s.cmap + adds, held := s.held - adds.Keys,
       flash := s.flash[Pg(b, c.lbn, c.page) := Data(data, 1)],
       rwList := s.rwList[b := list], lists := s.lists[blk := list],
       wCount := Minus(s.wCount, blk, 8 - |adds|),
       role := s.role[blk := OpenRw(NextRw(c.page, c.sealed), c.sealed)],
       pending := s.pending + {b}, trace := Then(s.trace, Program(Pg(b, c.lbn, c.page), RwData)),
       fill := Drained(s.fill, b, drain))
  }

  ghost function BumpCounter(cnt: map<Blk, seq<nat>>, blk: Blk, page: nat): map<Blk, seq<nat>> {
    if blk in cnt && CounterOf(page) < |cnt[blk]|
    then cnt[blk := cnt[blk][CounterOf(page) := cnt[blk][CounterOf(page)] + 1]]
    else cnt
  }

  /** The same for the open overwrite block. */
  ghost function ProgramOw(s: St, b: nat, adds: map<Key, Loc>, data: seq<Chunk>, names: seq<Option<nat>>,
                           drain: bool): St
    requires b < |s.ow| && s.ow[b].OwOpen? && b < |s.owList| && b < |s.owFill|
    requires |names| == 8 && |adds| <= 8
  {
    var c := s.ow[b];
    var blk := Blk(b, c.lbn);
    var list := WriteNames(s.owList[b], c.page, names);
    s.(live := s.live + adds, cmap := s.cmap + adds, held := s.held - adds.Keys,
       flash := s.flash[Pg(b, c.lbn, c.page) := Data(data, 1)],
       owList := s.owList[b := list], lists := s.lists[blk := list],
       oCount := Minus(s.oCount, blk, 8 - |adds|),
       owCnt := BumpCounter(s.owCnt, blk, c.page),
       role := s.role[blk := OpenOw(NextOw(c.page))],
       owPending := s.owPending + {b}, trace := Then(s.trace, Program(Pg(b, c.lbn, c.page), OwData)),
       owFill := Drained(s.owFill, b, drain))
  }

  // ----- the flash -----

  function AndPage(a: seq<Chunk>, b: seq<Chunk>): seq<Chunk>
    requires |a| == |b|
  {
    seq(|a|, i requires 0 <= i < |a| => AndChunk(a[i], b[i]))
  }

  /** nand_page_program: bits can only be cleared, so only an erased page takes the data as it is.
      Mixing data with an LPN list leaves nothing usable. */
  function NandProgram(flash: map<PageId, Page>, pg: PageId, page: Page): map<PageId, Page> {
    if pg !in flash then flash[pg := page]
    else if flash[pg].Data? && page.Data? && |flash[pg].chunks| == |page.chunks|
    then flash[pg := Data(AndPage(flash[pg].chunks, page.chunks), flash[pg].programs + 1)]
    else flash[pg := List([])]
  }

  lemma NandErased(flash: map<PageId, Page>, pg: PageId, page: Page)
    requires pg !in flash
    ensures NandProgram(flash, pg, page) == flash[pg := page]
  {
  }

  // ----- cursors and blocks -----

  ghost function AdvanceRw(s: St, b: nat): St
    requires b < |s.rw| && s.rw[b].Open?
  {
    s.(rw := s.rw[b := s.rw[b].(page := NextRw(s.rw[b].page, s.rw[b].sealed))], pending := s.pending - {b})
  }

  ghost function AdvanceOw(s: St, b: nat): St
    requires b < |s.ow| && s.ow[b].OwOpen?
  {
    s.(ow := s.ow[b := s.ow[b].(page := NextOw(s.ow[b].page))], owPending := s.owPending - {b})
  }

  function NoNames(): seq<Option<nat>> {
    seq(CHUNKS_PER_BLK, _ => None)
  }

  ghost function CloseRw(s: St, b: nat): St
    requires b < |s.rw| && s.rw[b].Open? && b < |s.rwList|
  {
    var blk := Blk(b, s.rw[b].lbn);
    s.(flash := s.flash[ListPage(blk, 127) := List(s.rwList[b])],
       rwList := s.rwList[b := NoNames()],
       wIn := s.wIn + {blk}, role := s.role[blk := FullRw],
       rw := s.rw[b := Closed], pending := s.pending - {b}, trace := Then(s.trace,
           Program(ListPage(blk, 127), LpnList)))
  }

  ghost function CloseOw(s: St, b: nat): St
    requires b < |s.ow| && s.ow[b].OwOpen? && b < |s.owList|
  {
    var blk := Blk(b, s.ow[b].lbn);
    s.(flash := s.flash[ListPage(blk, 125) := List(s.owList[b])],
       oIn := s.oIn + {blk}, role := s.role[blk := FullOw],
       ow := s.ow[b := OwClosed], owPending := s.owPending - {b}, trace := Then(s.trace,
           Program(ListPage(blk, 125), LpnList)))
  }

  ghost function OpenRwBlk(s: St, b: nat): St
    requires b < |s.rw| && b < |s.clean| && 0 < |s.clean[b]| && b < |s.rwList|
  {
    var blk := Blk(b, s.clean[b][0]);
    s.(clean := s.clean[b := s.clean[b][1..]],
       rw := s.rw[b := Open(blk.lbn, 0, false)], role := s.role[blk := OpenRw(0, false)],
       lists := s.lists[blk := s.rwList[b]])
  }

  ghost function OpenOwBlk(s: St, b: nat): St
    requires b < |s.ow| && b < |s.clean| && 0 < |s.clean[b]| && b < |s.owList|
  {
    var blk := Blk(b, s.clean[b][0]);
    s.(clean := s.clean[b := s.clean[b][1..]],
       ow := s.ow[b := OwOpen(blk.lbn, 0)], role := s.role[blk := OpenOw(0)],
       owList := s.owList[b := NoNames()],
       lists := s.lists[blk := NoNames()])
  }

  function NoCounts(): seq<nat> {
    seq(PAGES_PER_BLK, _ => 0)
  }

  function ClearOw(loc: Loc, blk: Blk): Loc {
    if InBlk(loc.page, blk) then loc.(ow := false) else loc
  }

  ghost function ClearAll(m: map<Key, Loc>, blk: Blk): map<Key, Loc> {
    map k | k in m :: ClearOw(m[k], blk)
  }

  /** A full overwrite block becomes the open RW block; its high pages are still free. */
  ghost function Seal(s: St, blk: Blk, cmap: map<Key, Loc>): St
    requires blk.bank < |s.rw| && blk in s.oCount && blk in s.lists && blk.bank < |s.rwList|
  {
    s.(cmap := cmap, live := ClearAll(s.live, blk),
       oIn := s.oIn - {blk}, oCount := s.oCount[blk := OW_BLK_CHUNKS], owCnt := s.owCnt[blk := NoCounts()],
       wCount := s.wCount[blk := s.oCount[blk]],
       rw := s.rw[blk.bank := Open(blk.lbn, 2, true)], role := s.role[blk := OpenRw(2, true)],
       rwList := s.rwList[blk.bank := s.lists[blk]], trace := Then(s.trace, SealBlk(blk)))
  }

  ghost function TakeRw(s: St, blk: Blk): St {
    s.(wIn := s.wIn - {blk}, wCount := s.wCount[blk := CHUNKS_PER_LOG_BLK], role := s.role[blk := Victim(false)])
  }

  ghost function TakeOw(s: St, blk: Blk): St {
    s.(oIn := s.oIn - {blk}, oCount := s.oCount[blk := OW_BLK_CHUNKS], owCnt := s.owCnt[blk := NoCounts()],
       role := s.role[blk := Victim(true)])
  }

  function Erase(flash: map<PageId, Page>, blk: Blk): map<PageId, Page> {
    map pg | pg in flash && !InBlk(pg, blk) :: flash[pg]
  }

  ghost function Release(s: St, blk: Blk): St
    requires blk.bank < |s.clean|
  {
    s.(flash := Erase(s.flash, blk), clean := s.clean[blk.bank := s.clean[blk.bank] + [blk.lbn]],
       role := s.role[blk := Clean], wiped := s.wiped + multiset{blk}, trace := Then(s.trace, EraseBlk(blk)))
  }

  // ----- data changed where it is -----

  ghost function PatchRwBuf(s: St, b: nat, slot: nat, d: Chunk): St {
    s.(logBuf := SetSlot(s.logBuf, b, slot, d))
  }

  ghost function PatchOwBuf(s: St, b: nat, slot: nat, d: Chunk): St {
    s.(owBuf := SetSlot(s.owBuf, b, slot, d))
  }

  /** A programmed low page is programmed once more. */
  ghost function PatchPage(s: St, pg: PageId, data: seq<Chunk>): St
    requires pg.Pg?
  {
    s.(flash := s.flash[pg := Data(data, Programs(s.flash, pg) + 1)],
       owCnt := BumpCounter(s.owCnt, BlkOf(pg), pg.page), trace := Then(s.trace, Program(pg, OwData)))
  }
}
