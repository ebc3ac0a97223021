/** The whole FTL state as one value, and the invariant every host call keeps. */
module State {
  import opened Base
  import opened Nand

  /** A page as the flash holds it; an erased page is absent from the flash map.
      `programs` counts the program operations since the last erase. */
  datatype Page = Data(chunks: seq<Chunk>, programs: nat) | List(lpns: seq<Option<nat>>)

  datatype RwCursor = Closed | Open(lbn: nat, page: nat, sealed: bool)
  datatype OwCursor = OwClosed | OwOpen(lbn: nat, page: nat)

  /** What a log block is being used for. */
  datatype Role =
    | Clean
    | OpenRw(page: nat, sealed: bool)
    | OpenOw(page: nat)
    | FullRw
    | FullOw
    | Victim(fromOw: bool)

  /** Chunks already moved out of `blk` whose count has not been given back yet. */
  datatype Debt = Debt(blk: Blk, amount: nat)

  datatype St = St(
    banks: nat,
    blocks: nat,
    cmap: map<Key, Loc>,
    logBuf: seq<seq<Chunk>>, meta: seq<seq<Option<Key>>>, ptr: seq<nat>,
    owBuf: seq<seq<Chunk>>, owMeta: seq<seq<Option<Key>>>, owPtr: seq<nat>,
    rw: seq<RwCursor>, rwList: seq<seq<Option<nat>>>,
    ow: seq<OwCursor>, owList: seq<seq<Option<nat>>>,
    clean: seq<seq<nat>>,
    wCount: map<Blk, nat>, wIn: set<Blk>,
    oCount: map<Blk, nat>, oIn: set<Blk>,
    owCnt: map<Blk, seq<nat>>,
    flash: map<PageId, Page>,
    // proof state
    live: map<Key, Loc>,
    held: map<Key, Chunk>,
    role: map<Blk, Role>,
    lists: map<Blk, seq<Option<nat>>>,
    fill: seq<nat>, owFill: seq<nat>,
    pending: set<nat>, owPending: set<nat>,
    debt: Debt,
    wiped: multiset<Blk>,
    trace: Trace)

  // ----- the page walks of the three kinds of open block -----

  function NextRw(page: nat, sealed: bool): nat {
    if sealed then page + 2 else page + 1
  }

  function NextOw(page: nat): nat {
    if page == 0 then 1 else page + 2
  }

  /** Data slots of the block not programmed yet. */
  function Free(r: Role): nat {
    match r
    case Clean => CHUNKS_PER_LOG_BLK
    case OpenRw(p, false) => if p <= 127 then 8 * (127 - p) else 0
    case OpenRw(p, true) => if p <= 128 then 8 * ((128 - p) / 2) else 0
    case OpenOw(p) => if p == 0 then 504 else if p <= 125 then 8 * ((125 - p) / 2) else 0
    case _ => 0
  }

  predicate RoleWf(r: Role) {
    match r
    case OpenRw(p, false) => p <= 127
    case OpenRw(p, true) => 2 <= p <= 128 && p % 2 == 0
    case OpenOw(p) => p == 0 || (p % 2 == 1 && p <= 125)
    case _ => true
  }

  predicate IsOw(r: Role) {
    r.OpenOw? || r.FullOw? || (r.Victim? && r.fromOw)
  }

  predicate CountedRw(r: Role) {
    r.OpenRw? || r.FullRw?
  }

  predicate CountedOw(r: Role) {
    r.OpenOw? || r.FullOw?
  }

  /** Pages that a block in role `r` has not programmed since its last erase. */
  predicate PageFree(r: Role, page: nat) {
    page >= PAGES_PER_BLK ||
    match r
    case Clean => true
    case OpenRw(p, false) => p <= page
    case OpenRw(p, true) => (p <= page && page % 2 == 0) || page == 127
    case OpenOw(p) => p == 0 || (page != 0 && (page % 2 == 0 || p <= page))
    case FullOw => page != 0 && (page % 2 == 0 || page == 127)
    case Victim(true) => page != 0 && (page % 2 == 0 || page == 127)
    case _ => false
  }

  // ----- the clauses of the invariant, each over the fields it talks about -----

  ghost predicate BufShape(banks: nat, buf: seq<seq<Chunk>>, meta: seq<seq<Option<Key>>>, ptr: seq<nat>,
                           fill: seq<nat>) {
    && |buf| == banks && |meta| == banks && |ptr| == banks && |fill| == banks
    && (forall b | 0 <= b < banks :: |buf[b]| == 8)
    && (forall b | 0 <= b < banks :: |meta[b]| == 8)
    && (forall b | 0 <= b < banks :: fill[b] <= 8 && ptr[b] == if fill[b] == 8 then 0 else fill[b])
  }

  ghost predicate RoleShape(banks: nat, blocks: nat, role: map<Blk, Role>) {
    && (forall blk :: blk in role <==> blk.bank < banks && blk.lbn < blocks)
    && (forall blk | blk in role :: RoleWf(role[blk]))
  }

  ghost predicate ListShape(lists: map<Blk, seq<Option<nat>>>, role: map<Blk, Role>) {
    lists.Keys == role.Keys && (forall blk | blk in lists :: |lists[blk]| == CHUNKS_PER_BLK)
  }

  /** The table agrees with `live` except on chunks whose data is held in RAM. */
  ghost predicate MapOK(cmap: map<Key, Loc>, live: map<Key, Loc>, held: map<Key, Chunk>) {
    && live.Keys !! held.Keys
    && live.Keys <= cmap.Keys <= live.Keys + held.Keys
    && (forall k | k in live :: cmap[k] == live[k])
    && (forall k | k in live :: k.idx < 8 && live[k].slot < 8)
  }

  /** A stale table entry with the overwrite bit names no live chunk. */
  ghost predicate StaleOK(cmap: map<Key, Loc>, live: map<Key, Loc>, held: map<Key, Chunk>) {
    forall h, k | h in held && h in cmap && cmap[h].ow && k in live :: live[k] != cmap[h]
  }

  /** Buffered chunks and filled buffer slots name each other. */
  ghost predicate DramOK(m: map<Key, Loc>, meta: seq<seq<Option<Key>>>, fill: seq<nat>, ow: bool) {
    && (forall k | k in m && m[k].page.Buf? && m[k].page.ow == ow ::
          && m[k].ow == ow
          && m[k].page.bank < |fill| && m[k].page.bank < |meta|
          && m[k].slot < fill[m[k].page.bank] && m[k].slot < |meta[m[k].page.bank]|
          && meta[m[k].page.bank][m[k].slot] == Some(k))
    && (forall b, i | 0 <= b < |fill| && b < |meta| && 0 <= i < fill[b] && i < |meta[b]| && meta[b][i].Some? ::
          meta[b][i].value in m && m[meta[b][i].value] == Loc(ow, Buf(ow, b), i))
  }

  ghost predicate FlashKeyOK(k: Key, loc: Loc, flash: map<PageId, Page>, lists: map<Blk, seq<Option<nat>>>,
                             role: map<Blk, Role>)
    requires loc.page.Pg?
  {
    var blk := BlkOf(loc.page);
    && blk in role && !role[blk].Clean? && loc.ow == IsOw(role[blk])
    && loc.page.page <= 126 && loc.slot < 8
    && loc.page in flash && flash[loc.page].Data? && |flash[loc.page].chunks| == 8
    && blk in lists && |lists[blk]| == CHUNKS_PER_BLK
    && lists[blk][loc.page.page * 8 + loc.slot] == Some(k.lpn)
  }

  /** Every chunk in flash sits in a programmed page and is named by the block's LPN list. */
  ghost predicate FlashOK(m: map<Key, Loc>, flash: map<PageId, Page>, lists: map<Blk, seq<Option<nat>>>,
                          role: map<Blk, Role>) {
    forall k | k in m && m[k].page.Pg? :: FlashKeyOK(k, m[k], flash, lists, role)
  }

  /** No two chunks share a slot. */
  ghost predicate Inj(m: map<Key, Loc>) {
    forall k1, k2 {:trigger m[k1], m[k2]} |
      k1 in m && k2 in m && m[k1].page == m[k2].page && m[k1].slot == m[k2].slot :: k1 == k2
  }

  ghost function KeysIn(m: map<Key, Loc>, blk: Blk): set<Key> {
    set k | k in m && InBlk(m[k].page, blk)
  }

  ghost function KeysAt(m: map<Key, Loc>, pg: PageId): set<Key> {
    set k | k in m && m[k].page == pg
  }

  function Owed(debt: Debt, blk: Blk): nat {
    if blk == debt.blk then debt.amount else 0
  }

  function WExpected(n: nat, r: Role): nat {
    if CountedRw(r) then n + Free(r) else CHUNKS_PER_LOG_BLK
  }

  function OExpected(n: nat, r: Role): nat {
    if CountedOw(r) then n + Free(r) + HIGH_PAGE_CHUNKS else OW_BLK_CHUNKS
  }

  /** Each value of the write heap is the block's mapped chunks plus its data slots never programmed. */
  ghost predicate WCounts(m: map<Key, Loc>, role: map<Blk, Role>, wCount: map<Blk, nat>) {
    && wCount.Keys == role.Keys
    && (forall blk | blk in role && blk in wCount ::
          wCount[blk] == WExpected(|KeysIn(m, blk)|, role[blk]) <= CHUNKS_PER_LOG_BLK)
  }

  /** The same for the overwrite heap, up to the count still owed. */
  ghost predicate OCounts(m: map<Key, Loc>, role: map<Blk, Role>, oCount: map<Blk, nat>, debt: Debt) {
    && oCount.Keys == role.Keys
    && (forall blk | blk in role && blk in oCount ::
          oCount[blk] == OExpected(|KeysIn(m, blk)|, role[blk]) + Owed(debt, blk) <= OW_BLK_CHUNKS)
    && (debt.amount > 0 ==> debt.blk in role && CountedOw(role[debt.blk]))
  }

  ghost predicate CleanOK(role: map<Blk, Role>, clean: seq<seq<nat>>) {
    && (forall blk | blk in role :: blk.bank < |clean| && (role[blk].Clean? <==> blk.lbn in clean[blk.bank]))
    && (forall b | 0 <= b < |clean| :: NoDups(clean[b]))
    && (forall b, i | 0 <= b < |clean| && 0 <= i < |clean[b]| :: Blk(b, clean[b][i]) in role)
  }

  ghost predicate MembersOK(role: map<Blk, Role>, wIn: set<Blk>, oIn: set<Blk>) {
    && wIn <= role.Keys && oIn <= role.Keys
    && (forall blk | blk in role :: role[blk].FullRw? <==> blk in wIn)
    && (forall blk | blk in role :: role[blk].FullOw? <==> blk in oIn)
  }

  ghost predicate RwOK(role: map<Blk, Role>, rw: seq<RwCursor>, pending: set<nat>, rwList: seq<seq<Option<nat>>>,
                       lists: map<Blk, seq<Option<nat>>>) {
    && |rwList| == |rw|
    && (forall blk | blk in role && role[blk].OpenRw? ::
         blk.bank < |rw| && rw[blk.bank].Open? && rw[blk.bank].lbn == blk.lbn)
    && (forall b | 0 <= b < |rw| :: |rwList[b]| == CHUNKS_PER_BLK)
    && (forall b | 0 <= b < |rw| && rw[b].Open? ::
          var blk := Blk(b, rw[b].lbn);
          && rw[b].page <= 126
          && blk in role && blk in lists
          && role[blk] == OpenRw(if b in pending then NextRw(rw[b].page, rw[b].sealed) else rw[b].page, rw[b].sealed)
          && rwList[b] == lists[blk])
  }

  ghost predicate OwOK(role: map<Blk, Role>, ow: seq<OwCursor>, owPending: set<nat>, owList: seq<seq<Option<nat>>>,
                       lists: map<Blk, seq<Option<nat>>>) {
    && |owList| == |ow|
    && (forall blk | blk in role && role[blk].OpenOw? ::
         blk.bank < |ow| && ow[blk.bank].OwOpen? && ow[blk.bank].lbn == blk.lbn)
    && (forall b | 0 <= b < |ow| :: |owList[b]| == CHUNKS_PER_BLK)
    && (forall b | 0 <= b < |ow| && ow[b].OwOpen? ::
          var blk := Blk(b, ow[b].lbn);
          && ow[b].page <= 123
          && blk in role && blk in lists
          && role[blk] == OpenOw(if b in owPending then NextOw(ow[b].page) else ow[b].page)
          && owList[b] == lists[blk])
  }

  /** A block's programmed pages are those its role has passed; all others are erased. */
  ghost predicate Erased(flash: map<PageId, Page>, role: map<Blk, Role>) {
    forall pg: PageId | pg.Pg? && BlkOf(pg) in role :: pg in flash <==> !PageFree(role[BlkOf(pg)], pg.page)
  }

  /** A full block stores its LPN list in page 127, or 125 in overwrite mode. */
  ghost predicate ListPages(flash: map<PageId, Page>, lists: map<Blk, seq<Option<nat>>>, role: map<Blk, Role>) {
    && (forall blk | blk in role && role[blk].FullRw? && blk in lists ::
          ListPage(blk, 127) in flash && flash[ListPage(blk, 127)] == List(lists[blk]))
    && (forall blk | blk in role && role[blk].FullOw? && blk in lists ::
          ListPage(blk, 125) in flash && flash[ListPage(blk, 125)] == List(lists[blk]))
  }

  function CounterOf(page: nat): nat {
    if page == 0 then 0 else (page + 1) / 2
  }

  function Programs(flash: map<PageId, Page>, pg: PageId): nat {
    if pg in flash && flash[pg].Data? then flash[pg].programs else 0
  }

  /** In overwrite mode a low page's counter is its number of programs, at most the limit;
      in every other mode the counters are zero. */
  ghost predicate Budget(flash: map<PageId, Page>, role: map<Blk, Role>, cnt: map<Blk, seq<nat>>) {
    && cnt.Keys == role.Keys
    && (forall blk | blk in cnt :: |cnt[blk]| == PAGES_PER_BLK)
    && (forall blk, page |
          blk in role && blk in cnt && CountedOw(role[blk]) && LowPage(page) && CounterOf(page) < |cnt[blk]| ::
          cnt[blk][CounterOf(page)] == Programs(flash, Pg(blk.bank, blk.lbn, page)) <= OW_LIMIT)
    && (forall blk, i | blk in role && blk in cnt && !CountedOw(role[blk]) && 0 <= i < |cnt[blk]| :: cnt[blk][i] == 0)
  }

  function Times(flash: map<PageId, Page>, pg: PageId): nat {
    if pg !in flash then 0 else if flash[pg].Data? then flash[pg].programs else 1
  }

  /** The use a block's role has made of it so far. */
  predicate Fits(m: Mode, r: Role) {
    match r
    case Clean => m == Fresh
    case OpenRw(_, _) => m != InOw
    case OpenOw(p) => if p == 0 then m != InRw else m == InOw
    case FullRw => m != InOw
    case FullOw => m == InOw
    case Victim(_) => true
  }

  /** The commands sent so far kept the rules and account for every program of every page. */
  ghost predicate TraceOK(flash: map<PageId, Page>, role: map<Blk, Role>, h: Trace) {
    && Disciplined(h)
    && (forall pg: PageId {:trigger Burns(h, pg)} | pg.Pg? && BlkOf(pg) in role ::
         Burns(h, pg) == Times(flash, pg) && (pg in flash ==> 0 < Burns(h, pg)))
    && (forall blk {:trigger ModeOf(h, blk)} | blk in role :: Fits(ModeOf(h, blk), role[blk]))
  }

  ghost predicate Inv(s: St) {
    && 0 < s.banks && |s.rw| == s.banks && |s.ow| == s.banks && |s.clean| == s.banks
    && BufShape(s.banks, s.logBuf, s.meta, s.ptr, s.fill)
    && BufShape(s.banks, s.owBuf, s.owMeta, s.owPtr, s.owFill)
    && RoleShape(s.banks, s.blocks, s.role)
    && ListShape(s.lists, s.role)
    && MapOK(s.cmap, s.live, s.held)
    && StaleOK(s.cmap, s.live, s.held)
    && DramOK(s.live, s.meta, s.fill, false)
    && DramOK(s.live, s.owMeta, s.owFill, true)
    && FlashOK(s.live, s.flash, s.lists, s.role)
    && Inj(s.live)
    && WCounts(s.live, s.role, s.wCount)
    && OCounts(s.live, s.role, s.oCount, s.debt)
    && CleanOK(s.role, s.clean)
    && MembersOK(s.role, s.wIn, s.oIn)
    && RwOK(s.role, s.rw, s.pending, s.rwList, s.lists)
    && OwOK(s.role, s.ow, s.owPending, s.owList, s.lists)
    && Erased(s.flash, s.role)
    && ListPages(s.flash, s.lists, s.role)
    && Budget(s.flash, s.role, s.owCnt)
    && TraceOK(s.flash, s.role, s.trace)
  }

  // ----- what the host sees -----

  function PageData(pg: PageId, logBuf: seq<seq<Chunk>>, owBuf: seq<seq<Chunk>>, flash: map<PageId, Page>): seq<Chunk> {
    match pg
    case Buf(false, b) => if b < |logBuf| then logBuf[b] else []
    case Buf(true, b) => if b < |owBuf| then owBuf[b] else []
    case Pg(_, _, _) => if pg in flash && flash[pg].Data? then flash[pg].chunks else []
  }

  function Deref(loc: Loc, logBuf: seq<seq<Chunk>>, owBuf: seq<seq<Chunk>>, flash: map<PageId, Page>): Chunk {
    if loc.slot < |PageData(loc.page, logBuf, owBuf, flash)| then PageData(loc.page, logBuf, owBuf, flash)[loc.slot]
    else BlankChunk()
  }

  /** The logical content: every mapped chunk with its data, wherever it is. */
  ghost function Content(live: map<Key, Loc>, held: map<Key, Chunk>, logBuf: seq<seq<Chunk>>, owBuf: seq<seq<Chunk>>,
                         flash: map<PageId, Page>): map<Key, Chunk>
  {
    (map k | k in live :: Deref(live[k], logBuf, owBuf, flash)) + held
  }

  ghost function ContentOf(s: St): map<Key, Chunk> {
    Content(s.live, s.held, s.logBuf, s.owBuf, s.flash)
  }

  lemma ContentKeys(live: map<Key, Loc>, held: map<Key, Chunk>, logBuf: seq<seq<Chunk>>, owBuf: seq<seq<Chunk>>,
                    flash: map<PageId, Page>)
    ensures Content(live, held, logBuf, owBuf, flash).Keys == live.Keys + held.Keys
  {
  }

  lemma ContentAt(live: map<Key, Loc>, held: map<Key, Chunk>, logBuf: seq<seq<Chunk>>, owBuf: seq<seq<Chunk>>,
                  flash: map<PageId, Page>, k: Key)
    requires k in live || k in held
    ensures k in Content(live, held, logBuf, owBuf, flash)
    ensures Content(live, held, logBuf, owBuf, flash)[k]
      == if k in held then held[k] else Deref(live[k], logBuf, owBuf, flash)
  {
    hide Deref;
  }

  // ----- what the invariant says about one cursor or block -----

  lemma RwFacts(s: St, b: nat)
    requires Inv(s) && b < |s.rw| && s.rw[b].Open?
    ensures var c := s.rw[b]; var blk := Blk(b, c.lbn);
      && b < s.banks && |s.fill| == s.banks && |s.rwList| == s.banks && c.page <= 126 && (c.sealed ==> c.page % 2 == 0)
      && blk in s.role && blk in s.lists && |s.lists[blk]| == CHUNKS_PER_BLK && s.rwList[b] == s.lists[blk]
      && RoleWf(s.role[blk])
      && s.role[blk] == OpenRw(if b in s.pending then NextRw(c.page, c.sealed) else c.page, c.sealed)
  {
    hide MapOK, StaleOK, DramOK, FlashOK, Inj, WCounts, OCounts, CleanOK, MembersOK, OwOK, Erased, ListPages, Budget,
         TraceOK;
  }

  lemma OwFacts(s: St, b: nat)
    requires Inv(s) && b < |s.ow| && s.ow[b].OwOpen?
    ensures var c := s.ow[b]; var blk := Blk(b, c.lbn);
      && b < s.banks && |s.owFill| == s.banks && |s.owList| == s.banks && c.page <= 123
      && (c.page == 0 || c.page % 2 == 1)
      && blk in s.role && blk in s.lists && |s.lists[blk]| == CHUNKS_PER_BLK && s.owList[b] == s.lists[blk]
      && RoleWf(s.role[blk])
      && s.role[blk] == OpenOw(if b in s.owPending then NextOw(c.page) else c.page)
  {
    hide MapOK, StaleOK, DramOK, FlashOK, Inj, WCounts, OCounts, CleanOK, MembersOK, RwOK, Erased, ListPages, Budget,
         TraceOK;
  }

  lemma ListLengths(s: St, b: nat)
    requires Inv(s) && b < s.banks
    ensures |s.rwList| == s.banks && |s.rwList[b]| == CHUNKS_PER_BLK && |s.owList| == s.banks
      && |s.owList[b]| == CHUNKS_PER_BLK
  {
  }

  lemma MemberFacts(s: St, blk: Blk)
    requires Inv(s) && (blk in s.wIn || blk in s.oIn)
    ensures blk in s.role && blk in s.lists && |s.lists[blk]| == CHUNKS_PER_BLK && blk.bank < s.banks
      && blk.lbn < s.blocks
    ensures blk in s.wIn ==> s.role[blk] == FullRw
    ensures blk in s.oIn ==> s.role[blk] == FullOw
  {
    hide MapOK, StaleOK, DramOK, FlashOK, Inj, WCounts, OCounts, CleanOK, RwOK, OwOK, Erased, ListPages, Budget,
         TraceOK;
  }

  lemma DisjointHeld(s: St)
    requires Inv(s)
    ensures s.live.Keys !! s.held.Keys
  {
  }

  /** Content is decided by what each mapped chunk dereferences to. */
  lemma SameContentBy(live: map<Key, Loc>, live': map<Key, Loc>, held: map<Key, Chunk>,
                      lb: seq<seq<Chunk>>, ob: seq<seq<Chunk>>, fl: map<PageId, Page>,
                      lb': seq<seq<Chunk>>, ob': seq<seq<Chunk>>, fl': map<PageId, Page>)
    requires live.Keys == live'.Keys
    requires forall k | k in live :: Deref(live'[k], lb', ob', fl') == Deref(live[k], lb, ob, fl)
    ensures Content(live', held, lb', ob', fl') == Content(live, held, lb, ob, fl)
  {
    hide Deref;
  }
}
