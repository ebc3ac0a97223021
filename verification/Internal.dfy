/** Internal work: flushes, allocations and collections keep content, frame and measure. */
module Internal {
  import opened Base
  import opened Nand
  import opened State
  import opened Steps
  import opened PageMoves
  import opened BlockMoves
  import opened ChunkMoves
  import opened Measure
  import opened VictimFrame

  ghost predicate SameOwSide(s: St, t: St) {
    && t.owBuf == s.owBuf && t.owMeta == s.owMeta && t.owPtr == s.owPtr && t.owFill == s.owFill
    && t.ow == s.ow && t.owList == s.owList && t.owPending == s.owPending && t.debt == s.debt
  }

  /** The chunks of a block that is owed a count stay where they are. */
  ghost predicate OwedStay(s: St, t: St) {
    forall k | k in s.live && s.live[k].page.Pg? && 0 < Owed(s.debt, BlkOf(s.live[k].page)) ::
      k in t.live && t.live[k] == s.live[k]
  }

  /** `t` is `s` after internal work: same content, no new dead slots, no erase undone, the overwrite side untouched
      but for full blocks given up, the chunks of a block that is owed a count in place, and frame `f`, held
      chunks `held` and stale entries `stale`. */
  ghost predicate Moved(s: St, t: St, f: Frame, held: map<Key, Chunk>, stale: map<Key, PageId>) {
    && t.banks == s.banks && t.blocks == s.blocks
    && ContentOf(t) == ContentOf(s)
    && t.held == held && Stale(t.cmap, t.held) == stale
    && Frm(t) == f && Slack(t) <= Slack(s) && s.wiped <= t.wiped
    && SameOwSide(s, t) && t.oIn <= s.oIn && OwedStay(s, t)
  }

  /** Nothing held in RAM and no chunk of a victim was touched. */
  ghost predicate Kept(s: St, t: St) {
    Moved(s, t, Frm(s), s.held, Stale(s.cmap, s.held))
  }

  /** Every mapped chunk is still mapped, in the same bank. */
  ghost predicate SameBanks(m: map<Key, Loc>, m': map<Key, Loc>) {
    forall k | k in m :: k in m' && m'[k].page.bank == m[k].page.bank
  }

  /** Every mapped chunk is where it was, but those in buffer `buf` may be in flash of the same bank now. */
  ghost predicate StillAt(m: map<Key, Loc>, m': map<Key, Loc>, buf: PageId) {
    forall k | k in m ::
      && k in m' && m'[k].slot == m[k].slot
      && (m'[k].page == m[k].page || (m[k].page == buf && m'[k].page.Pg? && m'[k].page.bank == buf.bank))
  }

  ghost predicate InPlace(m: map<Key, Loc>, m': map<Key, Loc>, bank: nat) {
    StillAt(m, m', Buf(false, bank))
  }

  lemma StillTrans(m: map<Key, Loc>, m': map<Key, Loc>, m'': map<Key, Loc>, buf: PageId)
    requires StillAt(m, m', buf) && StillAt(m', m'', buf)
    ensures StillAt(m, m'', buf)
  {
  }

  /** Unless a block was erased, no chunk has moved but by a flush of bank `bank`, and the round robin has not
      turned. */
  ghost predicate Stayed(s: St, ref: nat, t: St, ref': nat, bank: nat) {
    t.wiped == s.wiped ==> ref' == ref && InPlace(s.live, t.live, bank)
  }

  lemma StayedTrans(s: St, ref: nat, t: St, ref': nat, u: St, ref'': nat, bank: nat)
    requires Stayed(s, ref, t, ref', bank) && Stayed(t, ref', u, ref'', bank) && s.wiped <= t.wiped <= u.wiped
    ensures Stayed(s, ref, u, ref'', bank)
  {
    hide InPlace;
    if u.wiped == s.wiped {
      assert t.wiped == s.wiped;
      PlaceTrans(s.live, t.live, u.live, bank);
    }
  }

  lemma PlaceTrans(m: map<Key, Loc>, m': map<Key, Loc>, m'': map<Key, Loc>, bank: nat)
    requires InPlace(m, m', bank) && InPlace(m', m'', bank)
    ensures InPlace(m, m'', bank)
  {
  }

  lemma BanksTrans(m: map<Key, Loc>, m': map<Key, Loc>, m'': map<Key, Loc>)
    requires SameBanks(m, m') && SameBanks(m', m'')
    ensures SameBanks(m, m'')
  {
  }

  lemma PlaceBanks(m: map<Key, Loc>, m': map<Key, Loc>, bank: nat)
    requires InPlace(m, m', bank)
    ensures SameBanks(m, m')
  {
  }

  lemma KeptWiped(s: St, t: St)
    requires Kept(s, t)
    ensures s.wiped <= t.wiped
  {
    hide Content, Stale, FrameOf, Slack;
  }

  lemma KeptSlack(s: St, t: St)
    requires Kept(s, t)
    ensures Slack(t) <= Slack(s)
  {
    hide Content, Stale, FrameOf, Slack;
  }

  lemma KeptTrans(s: St, t: St, u: St)
    requires Kept(s, t) && Kept(t, u)
    ensures Kept(s, u)
  {
    hide Content, Stale, FrameOf, Slack;
  }

  lemma MovedKept(s: St, t: St, u: St, f: Frame, held: map<Key, Chunk>, stale: map<Key, PageId>)
    requires Moved(s, t, f, held, stale) && Kept(t, u)
    ensures Moved(s, u, f, held, stale)
  {
    hide Content, Stale, FrameOf, Slack;
  }

  lemma KeptMoved(s: St, t: St, u: St, f: Frame, held: map<Key, Chunk>, stale: map<Key, PageId>)
    requires Kept(s, t) && Moved(t, u, f, held, stale)
    ensures Moved(s, u, f, held, stale)
  {
    hide Content, Stale, FrameOf, Slack;
  }

  lemma MovedMoved(s: St, t: St, u: St, f: Frame, held: map<Key, Chunk>, stale: map<Key, PageId>, f': Frame,
                   held': map<Key, Chunk>, stale': map<Key, PageId>)
    requires Moved(s, t, f, held, stale) && Moved(t, u, f', held', stale')
    ensures Moved(s, u, f', held', stale')
  {
    hide Content, Stale, FrameOf, Slack;
  }

  lemma MovedWiped(s: St, t: St, f: Frame, held: map<Key, Chunk>, stale: map<Key, PageId>)
    requires Moved(s, t, f, held, stale)
    ensures s.wiped <= t.wiped
  {
    hide Content, Stale, FrameOf, Slack;
  }

  lemma KeptRefl(s: St)
    ensures Kept(s, s)
  {
    hide Content, Stale, FrameOf, Slack;
  }

  /** Without an open RW block a bank has no full one either. */
  ghost predicate RwReady(rw: seq<RwCursor>, wIn: set<Blk>) {
    forall b, blk | 0 <= b < |rw| && rw[b].Closed? && blk in wIn :: blk.bank != b
  }

  /** The same, except for bank `but`, which is between two blocks. */
  ghost predicate RwReadyBut(rw: seq<RwCursor>, wIn: set<Blk>, but: nat) {
    forall b, blk | 0 <= b < |rw| && b != but && rw[b].Closed? && blk in wIn :: blk.bank != b
  }

  /** Only the buffer of bank `full` may be full. */
  ghost predicate FillsBut(fill: seq<nat>, full: int) {
    forall b | 0 <= b < |fill| && b != full :: fill[b] < 8
  }

  /** Between two steps of the RW side. */
  ghost predicate Calm(s: St) {
    Inv(s) && s.pending == {} && RwReady(s.rw, s.wIn)
  }

  ghost predicate Idle(s: St) {
    Calm(s) && FillsBut(s.fill, -1)
  }

  /** Bank `b` has filled its buffer and must flush it. */
  ghost predicate FullAt(s: St, b: nat) {
    Calm(s) && FillsBut(s.fill, b) && b < s.banks && b < |s.fill| && s.fill[b] == 8
  }

  /** Bank `b` has programmed its page and must advance its cursor. */
  ghost predicate ProgrammedAt(s: St, b: nat) {
    && Inv(s) && s.pending == {b} && FillsBut(s.fill, -1) && b < s.banks && b < |s.rw| && s.rw[b].Open?
    && RwReady(s.rw, s.wIn)
  }

  // ----- flush -----

  ghost function BufAdds(live: map<Key, Loc>, src: PageId, dst: PageId, ow: bool, n: nat): map<Key, Loc> {
    map k | k in live && live[k].page == src && live[k].slot < n :: Loc(ow, dst, live[k].slot)
  }

  function LpnOf(o: Option<Key>): Option<nat> {
    if o.Some? then Some(o.value.lpn) else None
  }

  function NamesOf(row: seq<Option<Key>>): seq<Option<nat>> {
    seq(|row|, i requires 0 <= i < |row| => LpnOf(row[i]))
  }

  /** One slot more of the buffer is moved. */
  lemma AddsStep(live: map<Key, Loc>, meta: seq<seq<Option<Key>>>, fill: seq<nat>, b: nat, dst: PageId, ow: bool,
                 n: nat)
    requires DramOK(live, meta, fill, ow) && b < |fill| && b < |meta| && n < fill[b] && fill[b] <= |meta[b]|
    ensures BufAdds(live, Buf(ow, b), dst, ow, n + 1)
         == if meta[b][n].Some? then BufAdds(live, Buf(ow, b), dst, ow, n)[meta[b][n].value := Loc(ow, dst, n)]
            else BufAdds(live, Buf(ow, b), dst, ow, n)
  {
    if meta[b][n].Some? {
      assert live[meta[b][n].value] == Loc(ow, Buf(ow, b), n);
    }
  }

  /** Giving up one slot more. */
  lemma MinusStep(count: map<Blk, nat>, blk: Blk, row: seq<Option<Key>>, n: nat)
    requires blk in count && 8 <= count[blk] && n < 8 && n < |row|
    ensures blk in Minus(count, blk, Holes(row, n)) && 0 < Minus(count, blk, Holes(row, n))[blk]
    ensures row[n].None? ==> MinusOne(Minus(count, blk, Holes(row, n)), blk) == Minus(count, blk, Holes(row, n + 1))
    ensures row[n].Some? ==> Holes(row, n + 1) == Holes(row, n)
  {
    HolesBound(row, n);
  }

  lemma MinusStart(count: map<Blk, nat>, blk: Blk, row: seq<Option<Key>>)
    ensures Minus(count, blk, Holes(row, 0)) == count
  {
  }

  function MinusOne(count: map<Blk, nat>, blk: Blk): map<Blk, nat>
    requires blk in count && 0 < count[blk]
  {
    count[blk := count[blk] - 1]
  }

  /** A full write buffer goes to the next RW page: its chunks move, its holes are born dead. */
  ghost function FlushStep(s: St, bank: nat): St
    requires bank < |s.rw| && s.rw[bank].Open? && bank < |s.rwList| && bank < |s.meta| && |s.meta[bank]| == 8
      && bank < |s.logBuf| && bank < |s.fill|
  {
    var c := s.rw[bank];
    var blk := Blk(bank, c.lbn);
    var adds := BufAdds(s.live, Buf(false, bank), Pg(bank, c.lbn, c.page), false, 8);
    var list := WriteNames(s.rwList[bank], c.page, NamesOf(s.meta[bank]));
    s.(live := s.live + adds, cmap := s.cmap + adds,
       flash := s.flash[Pg(bank, c.lbn, c.page) := Data(s.logBuf[bank], 1)],
       rwList := s.rwList[bank := list], lists := s.lists[blk := list],
       wCount := Minus(s.wCount, blk, Holes(s.meta[bank], 8)),
       role := s.role[blk := OpenRw(NextRw(c.page, c.sealed), c.sealed)],
       pending := s.pending + {bank}, fill := s.fill[bank := 0], trace := Then(s.trace,
           Program(Pg(bank, s.rw[bank].lbn, s.rw[bank].page), RwData)))
  }

  lemma BufAddsKeys(live: map<Key, Loc>, src: PageId, dst: PageId, ow: bool)
    requires forall k | k in live :: live[k].slot < 8
    ensures BufAdds(live, src, dst, ow, 8).Keys == KeysAt(live, src)
    ensures |BufAdds(live, src, dst, ow, 8)| == |KeysAt(live, src)|
  {
    assert BufAdds(live, src, dst, ow, 8).Keys == KeysAt(live, src);
  }

  lemma FlushSound(s: St, bank: nat)
    requires DramOK(s.live, s.meta, s.fill, false) && bank < |s.meta| && |s.meta[bank]| == 8 && bank < |s.fill|
      && s.fill[bank] == 8
    requires forall k | k in s.live :: s.live[k].slot < 8
    ensures forall dst :: |BufAdds(s.live, Buf(false, bank), dst, false, 8)| + Holes(s.meta[bank], 8) == 8
  {
    forall dst ensures |BufAdds(s.live, Buf(false, bank), dst, false, 8)| + Holes(s.meta[bank], 8) == 8 {
      BufAddsKeys(s.live, Buf(false, bank), dst, false);
      FullBuffer(s.live, s.meta, s.fill, bank, false);
    }
  }

  function NamesUpto(list: seq<Option<nat>>, page: nat, names: seq<Option<nat>>, n: nat): seq<Option<nat>>
    requires n <= |names|
  {
    seq(|list|, i requires 0 <= i < |list| => if page * 8 <= i < page * 8 + n then names[i - page * 8] else list[i])
  }

  lemma NamesStep(list: seq<Option<nat>>, page: nat, names: seq<Option<nat>>, n: nat)
    requires |names| == 8 && n < 8 && page * 8 + 8 <= |list|
    ensures NamesUpto(list, page, names, n)[page * 8 + n := names[n]] == NamesUpto(list, page, names, n + 1)
  {
  }

  lemma NamesEnds(list: seq<Option<nat>>, page: nat, names: seq<Option<nat>>)
    requires |names| == 8
    ensures NamesUpto(list, page, names, 0) == list
    ensures NamesUpto(list, page, names, 8) == WriteNames(list, page, names)
  {
  }

  /** An open RW block still counts the slots of its next page. */
  lemma RoomInRw(m: map<Key, Loc>, role: map<Blk, Role>, wCount: map<Blk, nat>, blk: Blk)
    requires WCounts(m, role, wCount) && blk in role && role[blk].OpenRw? && RoleWf(role[blk])
    requires if role[blk].sealed then role[blk].page <= 126 else role[blk].page <= 126
    ensures blk in wCount && 8 <= wCount[blk] <= CHUNKS_PER_LOG_BLK
  {
  }

  lemma {:induction false} HolesBound(row: seq<Option<Key>>, n: nat)
    ensures Holes(row, n) <= n
  {
    if n > 0 {
      HolesBound(row, n - 1);
    }
  }

  lemma FlushFacts(s: St, bank: nat)
    requires Inv(s) && bank < s.banks && s.rw[bank].Open? && bank !in s.pending && s.fill[bank] == 8
    ensures var blk := Blk(bank, s.rw[bank].lbn);
      && |s.rw| == s.banks && |s.rwList| == s.banks && |s.rwList[bank]| == CHUNKS_PER_BLK && s.rw[bank].page <= 126
      && |s.meta| == s.banks && |s.meta[bank]| == 8 && |s.logBuf| == s.banks && |s.logBuf[bank]| == 8
      && |s.fill| == s.banks && DramOK(s.live, s.meta, s.fill, false)
      && blk in s.role && blk in s.lists && blk in s.wCount && 8 <= s.wCount[blk] <= CHUNKS_PER_LOG_BLK
      && (forall k | k in s.live :: k !in s.held && k in s.cmap && k.idx < 8 && s.live[k].slot < 8)
  {
    RwFacts(s, bank);
    RoomInRw(s.live, s.role, s.wCount, Blk(bank, s.rw[bank].lbn));
  }

  /** What a flush of bank `bank` finds. */
  ghost predicate CanFlush(s: St, bank: nat) {
    && bank < |s.rw| && s.rw[bank].Open? && s.rw[bank].page <= 126 && |s.rwList| == |s.rw|
    && |s.rwList[bank]| == CHUNKS_PER_BLK
    && bank < |s.meta| && |s.meta[bank]| == 8 && bank < |s.logBuf| && bank < |s.fill| && s.fill[bank] == 8
    && DramOK(s.live, s.meta, s.fill, false)
    && Blk(bank, s.rw[bank].lbn) in s.wCount && 8 <= s.wCount[Blk(bank, s.rw[bank].lbn)]
  }

  lemma NamesOfAt(row: seq<Option<Key>>)
    ensures |NamesOf(row)| == |row| && forall i | 0 <= i < |row| :: NamesOf(row)[i] == LpnOf(row[i])
  {
  }

  lemma AddsNone(live: map<Key, Loc>, src: PageId, dst: PageId, ow: bool)
    ensures BufAdds(live, src, dst, ow, 0) == map[]
  {
  }

  lemma NamesUptoLength(list: seq<Option<nat>>, page: nat, names: seq<Option<nat>>, n: nat)
    requires n <= |names|
    ensures |NamesUpto(list, page, names, n)| == |list|
  {
  }

  lemma FlushFields(s: St, bank: nat)
    requires CanFlush(s, bank)
    ensures FlushStep(s, bank).clean == s.clean && FlushStep(s, bank).rw == s.rw && FlushStep(s, bank).ptr == s.ptr
  {
    hide DramOK, WriteNames, BufAdds, Holes, NamesOf, Minus;
  }

  lemma FlushIsProgram(s: St, bank: nat)
    requires bank < |s.rw| && s.rw[bank].Open? && bank < |s.rwList| && bank < |s.meta| && |s.meta[bank]| == 8
      && bank < |s.logBuf| && bank < |s.fill|
    requires |NamesOf(s.meta[bank])| == 8
    requires var adds := BufAdds(s.live, Buf(false, bank), Pg(bank, s.rw[bank].lbn, s.rw[bank].page), false, 8);
             |adds| + Holes(s.meta[bank], 8) == 8 && adds.Keys !! s.held.Keys
    ensures FlushStep(s, bank)
         == ProgramRw(s, bank, BufAdds(s.live, Buf(false, bank), Pg(bank, s.rw[bank].lbn, s.rw[bank].page), false, 8),
                      s.logBuf[bank], NamesOf(s.meta[bank]), true)
  {
    hide Holes, NamesOf, WriteNames, BufAdds, Minus, NextRw;
    var adds := BufAdds(s.live, Buf(false, bank), Pg(bank, s.rw[bank].lbn, s.rw[bank].page), false, 8);
    NoneLess(s.held, adds.Keys);
    assert 8 - |adds| == Holes(s.meta[bank], 8);
  }

  lemma NoneLess(m: map<Key, Chunk>, ks: set<Key>)
    requires ks !! m.Keys
    ensures m - ks == m
  {
  }

  lemma BufAddsAt(live: map<Key, Loc>, role: map<Blk, Role>, meta: seq<seq<Option<Key>>>, fill: seq<nat>, b: nat,
                  dst: PageId, ow: bool)
    requires DramOK(live, meta, fill, ow) && b < |fill| && b < |meta| && |meta[b]| == 8 && fill[b] == 8 && Inj(live)
    requires forall k | k in live :: k.idx < 8 && live[k].slot < 8
    ensures AddsOK(live, role, BufAdds(live, Buf(ow, b), dst, ow, 8), dst, NamesOf(meta[b]), ow, b, true)
  {
    var adds := BufAdds(live, Buf(ow, b), dst, ow, 8);
    BufAddsKeys(live, Buf(ow, b), dst, ow);
    FullBuffer(live, meta, fill, b, ow);
    assert |adds| <= 8;
    forall k1, k2 | k1 in adds && k2 in adds && adds[k1].page == adds[k2].page && adds[k1].slot == adds[k2].slot
      ensures k1 == k2
    {
      assert live[k1].page == live[k2].page && live[k1].slot == live[k2].slot;
    }
  }

  // ----- flushing a full write buffer -----

  lemma FlushInv(s: St, bank: nat)
    requires FullAt(s, bank) && bank < |s.rw| && s.rw[bank].Open?
    ensures CanFlush(s, bank) && Inv(FlushStep(s, bank))
  {
    hide Inv, Holes, NamesOf, WriteNames, BufAdds, DramOK, AddsOK, Inj;
    FlushFacts(s, bank);
    NamesOfAt(s.meta[bank]);
    var dst := Pg(bank, s.rw[bank].lbn, s.rw[bank].page);
    var adds := BufAdds(s.live, Buf(false, bank), dst, false, 8);
    FlushSound(s, bank);
    InvInj(s);
    BufAddsAt(s.live, s.role, s.meta, s.fill, bank, dst, false);
    BufAddsHeld(s, Buf(false, bank), dst, false);
    FlushIsProgram(s, bank);
    ProgramRwInv(s, bank, adds, s.logBuf[bank], NamesOf(s.meta[bank]), true);
  }

  lemma InvInj(s: St)
    requires Inv(s)
    ensures Inj(s.live)
  {
  }

  lemma BufAddsHeld(s: St, src: PageId, dst: PageId, ow: bool)
    requires forall k | k in s.live :: k !in s.held
    ensures BufAdds(s.live, src, dst, ow, 8).Keys !! s.held.Keys
  {
  }

  lemma StaleSame(cmap: map<Key, Loc>, adds: map<Key, Loc>, held: map<Key, Chunk>)
    requires adds.Keys !! held.Keys
    ensures Stale(cmap + adds, held) == Stale(cmap, held)
  {
  }

  lemma FlushContent(live: map<Key, Loc>, held: map<Key, Chunk>, logBuf: seq<seq<Chunk>>, owBuf: seq<seq<Chunk>>,
                     flash: map<PageId, Page>, bank: nat, dst: PageId)
    requires live.Keys !! held.Keys && dst.Pg? && (forall k | k in live :: live[k].page != dst && live[k].slot < 8)
    requires bank < |logBuf| && |logBuf[bank]| == 8
    ensures Content(live + BufAdds(live, Buf(false, bank), dst, false, 8), held, logBuf, owBuf,
                    flash[dst := Data(logBuf[bank], 1)])
         == Content(live, held, logBuf, owBuf, flash)
  {
    hide Content;
    var adds := BufAdds(live, Buf(false, bank), dst, false, 8);
    assert held - adds.Keys == held;
    ProgramContent(live, held, logBuf, owBuf, flash, adds, dst, logBuf[bank]);
    MoveContent(live, held, logBuf, owBuf, flash, adds, logBuf[bank]);
  }

  lemma InvFresh(s: St, bank: nat)
    requires Inv(s) && bank < |s.rw| && s.rw[bank].Open? && bank !in s.pending
    ensures forall k | k in s.live :: s.live[k].page != Pg(bank, s.rw[bank].lbn, s.rw[bank].page)
    ensures Pg(bank, s.rw[bank].lbn, s.rw[bank].page) !in s.flash
  {
    RwFacts(s, bank);
    hide DramOK, MapOK, StaleOK, Inj, WCounts, OCounts, CleanOK, MembersOK, RwOK, OwOK, ListPages, Budget, TraceOK,
         FlashOK, Erased;
    FreshPage(s.live, s.flash, s.lists, s.role, Pg(bank, s.rw[bank].lbn, s.rw[bank].page));
  }

  lemma FlushFrame(s: St, bank: nat)
    requires bank < |s.rw| && s.rw[bank].Open? && bank < |s.rwList| && bank < |s.meta| && |s.meta[bank]| == 8
      && bank < |s.logBuf| && bank < |s.fill|
    requires Blk(bank, s.rw[bank].lbn) in s.role && Blk(bank, s.rw[bank].lbn) in s.lists
      && !s.role[Blk(bank, s.rw[bank].lbn)].Victim?
    ensures Frm(FlushStep(s, bank)) == Frm(s)
  {
    hide WriteNames, NamesOf, Holes, Minus;
    NamesOfAt(s.meta[bank]);
    var c := s.rw[bank];
    var blk := Blk(bank, c.lbn);
    var adds := BufAdds(s.live, Buf(false, bank), Pg(bank, c.lbn, c.page), false, 8);
    hide FrameOf;
    AddsFrame(s.live, adds, s.role, bank);
    LiveFrame(s.live, s.live + adds, s.role, s.lists);
    RoleFrame(s.live + adds, s.role, s.lists, blk, OpenRw(NextRw(c.page, c.sealed), c.sealed),
              WriteNames(s.rwList[bank], c.page, NamesOf(s.meta[bank])));
  }

  lemma FlushSlack(s: St, bank: nat)
    requires CanFlush(s, bank) && bank < s.banks && s.rw[bank].lbn < s.blocks && |s.meta| == |s.fill| == s.banks
    requires Blk(bank, s.rw[bank].lbn) in s.role && s.role[Blk(bank, s.rw[bank].lbn)].OpenRw?
      && s.wCount[Blk(bank, s.rw[bank].lbn)] <= 1016
    ensures Slack(FlushStep(s, bank)) == Slack(s)
  {
    hide DramOK, WriteNames, NamesOf, BlockSlack, HolesIn, Holes, Minus;
    var c := s.rw[bank];
    HolesBound(s.meta[bank], 8);
    MinusSlack(s.banks, s.blocks, s.wCount, s.oCount, s.role, Blk(bank, c.lbn),
               OpenRw(NextRw(c.page, c.sealed), c.sealed), Holes(s.meta[bank], 8));
    DrainSlack(s.banks, s.meta, s.fill, bank);
  }

  /** Chunks that leave a buffer or a victim are not those of a block that is owed a count. */
  lemma AddsStay(s: St, t: St, src: PageId, dst: PageId, ow: bool, n: nat)
    requires t.live == s.live + BufAdds(s.live, src, dst, ow, n) && (src.Pg? ==> Owed(s.debt, BlkOf(src)) == 0)
    ensures OwedStay(s, t)
  {
  }

  lemma VictimNotOwed(s: St, v: Blk)
    requires Inv(s) && IsVictim(s.role, v)
    ensures Owed(s.debt, v) == 0
  {
    hide BufShape, RoleShape, ListShape, MapOK, StaleOK, DramOK, FlashOK, Inj, WCounts, CleanOK, MembersOK, RwOK, OwOK,
         Erased, ListPages, Budget, TraceOK, KeysIn;
  }

  lemma FlushKept(s: St, bank: nat)
    requires FullAt(s, bank) && bank < |s.rw| && s.rw[bank].Open?
    ensures CanFlush(s, bank) && ProgrammedAt(FlushStep(s, bank), bank) && Kept(s, FlushStep(s, bank))
  {
    hide Inv, DramOK, WriteNames, NamesOf, Content, FrameOf, Slack, Holes, Stale, BufAdds, Minus, OwedStay;
    FlushFacts(s, bank);
    RwFacts(s, bank);
    BlkInRange(s, Blk(bank, s.rw[bank].lbn));
    FlushInv(s, bank);
    DisjointHeld(s);
    InvFresh(s, bank);
    var dst := Pg(bank, s.rw[bank].lbn, s.rw[bank].page);
    BufAddsHeld(s, Buf(false, bank), dst, false);
    FlushContent(s.live, s.held, s.logBuf, s.owBuf, s.flash, bank, dst);
    FlushFrame(s, bank);
    FlushSlack(s, bank);
    StaleSame(s.cmap, BufAdds(s.live, Buf(false, bank), dst, false, 8), s.held);
    AddsStay(s, FlushStep(s, bank), Buf(false, bank), dst, false, 8);
  }

  lemma BlkInRange(s: St, blk: Blk)
    requires Inv(s) && blk in s.role
    ensures blk.bank < s.banks && blk.lbn < s.blocks && blk in s.wCount && blk in s.oCount && blk in s.lists
      && blk in s.owCnt
    ensures |s.meta| == |s.fill| == s.banks && |s.rw| == s.banks && |s.clean| == s.banks
    ensures s.wCount[blk] <= CHUNKS_PER_LOG_BLK && s.oCount[blk] <= OW_BLK_CHUNKS
  {
  }

  // ----- cursors and blocks of the RW side -----

  lemma ReadyBut(rw: seq<RwCursor>, wIn: set<Blk>, b: nat)
    requires RwReady(rw, wIn)
    ensures RwReadyBut(rw, wIn, b)
  {
  }

  lemma AdvanceKept(s: St, b: nat)
    requires ProgrammedAt(s, b) && s.rw[b].page != 126
    ensures Idle(AdvanceRw(s, b)) && Kept(s, AdvanceRw(s, b))
  {
    hide Inv, Content, FrameOf, Stale;
    AdvanceRwInv(s, b);
    assert s.pending - {b} == {};
  }

  lemma CloseFrame(s: St, b: nat)
    requires Inv(s) && b < |s.rw| && s.rw[b].Open? && b < |s.rwList|
    ensures Frm(CloseRw(s, b)) == Frm(s) && Slack(CloseRw(s, b)) == Slack(s)
  {
    hide Inv, FrameOf, BlockSlack, HolesIn, NoNames;
    RwFacts(s, b);
    var blk := Blk(b, s.rw[b].lbn);
    RoleFrame(s.live, s.role, s.lists, blk, FullRw, []);
    RoleSlack(s.banks, s.blocks, s.wCount, s.oCount, s.role, blk, FullRw);
  }

  /** The list page of a block that is about to be closed is erased. */
  lemma ListPageErased(s: St, b: nat)
    requires ProgrammedAt(s, b) && s.rw[b].page == 126
    ensures ListPage(Blk(b, s.rw[b].lbn), 127) !in s.flash
  {
    hide BufShape, RoleShape, ListShape, MapOK, StaleOK, DramOK, FlashOK, Inj, WCounts, OCounts, CleanOK, MembersOK,
         OwOK, ListPages, Budget, TraceOK;
    RwFacts(s, b);
    assert PageFree(s.role[Blk(b, s.rw[b].lbn)], 127);
  }

  lemma CloseKept(s: St, b: nat)
    requires ProgrammedAt(s, b) && s.rw[b].page == 126 && b < |s.rwList|
    ensures var t := CloseRw(s, b);
      && Inv(t) && t.pending == {} && b < |t.rw| && t.rw[b].Closed? && RwReadyBut(t.rw, t.wIn, b)
      && FillsBut(t.fill, -1)
      && Kept(s, t) && Blk(b, s.rw[b].lbn) in t.wIn
  {
    hide Inv, Content, FrameOf, Stale, Slack, NoNames;
    CloseRwInv(s, b);
    CloseFrame(s, b);
    assert s.pending - {b} == {};
  }

  lemma OpenFrame(s: St, b: nat)
    requires Inv(s) && b < |s.rw| && b < |s.clean| && 0 < |s.clean[b]| && b < |s.rwList|
    ensures Frm(OpenRwBlk(s, b)) == Frm(s) && Slack(OpenRwBlk(s, b)) == Slack(s)
  {
    hide Inv, FrameOf, BlockSlack, HolesIn;
    CleanFacts(s, b);
    var blk := Blk(b, s.clean[b][0]);
    RoleFrame(s.live, s.role, s.lists, blk, OpenRw(0, false), s.rwList[b]);
    RoleSlack(s.banks, s.blocks, s.wCount, s.oCount, s.role, blk, OpenRw(0, false));
  }

  /** A bank's clean list always has a node left for a block that is not clean. */
  lemma CleanRoom(s: St, blk: Blk)
    requires Inv(s) && blk in s.role && !s.role[blk].Clean?
    ensures blk.bank < |s.clean| && |s.clean[blk.bank]| < s.blocks
  {
    hide BufShape, ListShape, MapOK, StaleOK, DramOK, FlashOK, Inj, WCounts, OCounts, MembersOK, RwOK, OwOK, Erased,
         ListPages, Budget, TraceOK;
    var q := s.clean[blk.bank];
    forall i | 0 <= i < |q| ensures q[i] < s.blocks {
      assert Blk(blk.bank, q[i]) in s.role;
    }
    Pigeonhole(q, s.blocks, blk.lbn);
  }

  lemma CleanFacts(s: St, b: nat)
    requires Inv(s) && b < |s.clean| && 0 < |s.clean[b]|
    ensures var blk := Blk(b, s.clean[b][0]); blk in s.role && s.role[blk].Clean? && blk in s.lists
  {
    assert s.clean[b][0] in s.clean[b];
  }

  lemma OpenKept(s: St, b: nat)
    requires Inv(s) && s.pending == {} && b < |s.rw| && s.rw[b].Closed? && RwReadyBut(s.rw, s.wIn, b)
    requires b < |s.clean| && 0 < |s.clean[b]| && b < |s.rwList|
    ensures Calm(OpenRwBlk(s, b)) && Kept(s, OpenRwBlk(s, b))
  {
    hide Inv, Content, FrameOf, Stale, Slack;
    OpenRwInv(s, b);
    OpenFrame(s, b);
  }

  lemma SealStale(cmap: map<Key, Loc>, cmap': map<Key, Loc>, live: map<Key, Loc>, held: map<Key, Chunk>, blk: Blk)
    requires SealedMap(cmap, cmap', live, blk)
    ensures Stale(cmap', held) == Stale(cmap, held)
  {
  }

  lemma SealFrameSlack(s: St, blk: Blk, cmap': map<Key, Loc>)
    requires Inv(s) && blk in s.oIn && blk.bank < |s.rw| && blk in s.oCount && blk in s.lists && blk.bank < |s.rwList|
    ensures Frm(Seal(s, blk, cmap')) == Frm(s) && Slack(Seal(s, blk, cmap')) == Slack(s)
  {
    hide Inv, FrameOf, BlockSlack, HolesIn;
    MemberFacts(s, blk);
    OwCounts(s, blk);
    SealFrame(s.live, s.role, blk);
    LiveFrame(s.live, ClearAll(s.live, blk), s.role, s.lists);
    RoleFrame(ClearAll(s.live, blk), s.role, s.lists, blk, OpenRw(2, true), []);
    SealSlack(s.banks, s.blocks, s.wCount, s.oCount, s.role, blk);
  }

  lemma OwCounts(s: St, blk: Blk)
    requires Inv(s) && blk in s.oIn
    ensures blk in s.wCount && s.wCount[blk] == 1016 && blk in s.oCount
      && HIGH_PAGE_CHUNKS <= s.oCount[blk] <= OW_BLK_CHUNKS && blk in s.owCnt
    ensures s.oCount[blk] == |KeysIn(s.live, blk)| + HIGH_PAGE_CHUNKS + Owed(s.debt, blk)
  {
    MemberFacts(s, blk);
  }

  lemma SealKept(s: St, blk: Blk, cmap': map<Key, Loc>)
    requires Inv(s) && s.pending == {} && blk in s.oIn && Owed(s.debt, blk) == 0 && blk.bank < |s.rw|
      && s.rw[blk.bank].Closed?
    requires RwReadyBut(s.rw, s.wIn, blk.bank)
    requires blk in s.oCount && blk in s.lists && blk.bank < |s.rwList| && SealedMap(s.cmap, cmap', s.live, blk)
    ensures Calm(Seal(s, blk, cmap')) && Kept(s, Seal(s, blk, cmap'))
  {
    hide Inv, Content, FrameOf, Stale, Slack, SealedMap;
    SealInv(s, blk, cmap');
    SealFrameSlack(s, blk, cmap');
    SealStale(s.cmap, cmap', s.live, s.held, blk);
  }

  // ----- a held chunk goes to a write buffer -----

  lemma PutStale(cmap: map<Key, Loc>, held: map<Key, Chunk>, k: Key, loc: Loc)
    ensures Stale(cmap[k := loc], held - {k}) == Stale(cmap, held) - {k}
  {
  }

  lemma PutFills(fill: seq<nat>, b: nat)
    requires FillsBut(fill, -1) && b < |fill|
    ensures FillsBut(fill[b := fill[b] + 1], b) && fill[b] + 1 <= 8
    ensures fill[b] + 1 < 8 ==> FillsBut(fill[b := fill[b] + 1], -1)
  {
  }

  lemma BankFacts(s: St, b: nat)
    requires Inv(s) && b < s.banks
    ensures |s.fill| == |s.ptr| == |s.meta| == |s.logBuf| == |s.rw| == |s.rwList| == |s.clean| == s.banks
    ensures |s.owFill| == |s.owPtr| == |s.owMeta| == |s.owBuf| == |s.ow| == |s.owList| == s.banks
    ensures |s.meta[b]| == 8 && |s.logBuf[b]| == 8 && s.fill[b] <= 8
      && s.ptr[b] == if s.fill[b] == 8 then 0 else s.fill[b]
    ensures |s.owMeta[b]| == 8 && |s.owBuf[b]| == 8 && s.owFill[b] <= 8
      && s.owPtr[b] == if s.owFill[b] == 8 then 0 else s.owFill[b]
  {
  }

  lemma PutKept(s: St, k: Key, b: nat)
    requires Idle(s) && b < s.banks && k in s.held && k.idx < 8 && b < |s.fill| && b < |s.ptr|
    ensures var t := PutRw(s, k, b, s.held[k]);
      && Moved(s, t, Frm(s), s.held - {k}, Stale(s.cmap, s.held) - {k})
      && Calm(t) && b < |t.fill| && b < |t.ptr| && (t.ptr[b] == 0 ==> FullAt(t, b)) && (t.ptr[b] != 0 ==> Idle(t))
  {
    hide Inv, Content, FrameOf, Stale, BlockSlack, HolesIn, SetSlot;
    BankFacts(s, b);
    DisjointHeld(s);
    PutFills(s.fill, b);
    var loc := Loc(false, Buf(false, b), s.fill[b]);
    PutRwInv(s, k, b, s.held[k]);
    PutRwContentOf(s, k, b, s.held[k]);
    HeldContent(s, k);
    PutStale(s.cmap, s.held, k, loc);
    PutFrame(s.live, k, loc, s.role);
    LiveFrame(s.live, s.live[k := loc], s.role, s.lists);
    PutSlack(s.banks, s.meta, s.fill, b, k);
  }

  lemma HeldContent(s: St, k: Key)
    requires k in s.held
    ensures k in ContentOf(s) && ContentOf(s)[k] == s.held[k] && ContentOf(s)[k := s.held[k]] == ContentOf(s)
  {
  }
}
