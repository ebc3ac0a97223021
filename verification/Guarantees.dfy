/** What the invariant says about every state between host calls, in terms of the tables and the flash. */
module Guarantees {
  import opened Base
  import opened Nand
  import opened State
  import opened Steps
  import opened FtlTables
  import opened PageMoves
  import opened VictimFrame
  import opened Internal
  import opened Log
  import opened Write
  import opened Overwrite
  import opened Collecting

  // ----- which page is used for what -----

  /** The `i`th page of the overwrite walk, of the RW walk of a sealed block. */
  function OwWalk(i: nat): nat {
    if i == 0 then 0 else 2 * i - 1
  }

  function SealedWalk(i: nat): nat {
    2 + 2 * i
  }

  lemma WalksFollowCursors(i: nat)
    ensures NextOw(OwWalk(i)) == OwWalk(i + 1) && NextRw(SealedWalk(i), true) == SealedWalk(i + 1)
    ensures OwWalk(62) == 123 && SealedWalk(62) == 126
  {
  }

  /** The 63 pages of the overwrite walk, the 63 of the sealed walk, and the two LPN-list pages are the 128 pages,
      each once. */
  lemma WalksPartition(page: nat)
    requires page < PAGES_PER_BLK
    ensures LowPage(page) <==> exists i :: 0 <= i < 63 && OwWalk(i) == page
    ensures (page != 0 && page % 2 == 0) <==> exists i :: 0 <= i < 63 && SealedWalk(i) == page
    ensures !(LowPage(page) && page != 0 && page % 2 == 0)
    ensures page == 125 || page == 127 <==> !LowPage(page) && !(page != 0 && page % 2 == 0)
  {
    if LowPage(page) {
      assert OwWalk(if page == 0 then 0 else (page + 1) / 2) == page;
    }
    if page != 0 && page % 2 == 0 {
      assert SealedWalk(page / 2 - 1) == page;
    }
  }

  // ----- block ownership -----

  ghost predicate InClean(s: St, blk: Blk) {
    blk.bank < |s.clean| && blk.lbn in s.clean[blk.bank]
  }

  ghost predicate IsRw(s: St, blk: Blk) {
    blk.bank < |s.rw| && s.rw[blk.bank].Open? && s.rw[blk.bank].lbn == blk.lbn
  }

  ghost predicate IsOpenOw(s: St, blk: Blk) {
    blk.bank < |s.ow| && s.ow[blk.bank].OwOpen? && s.ow[blk.bank].lbn == blk.lbn
  }

  /** Block `blk` is in place `n` of five: clean list, RW cursor, overwrite cursor, write heap, overwrite heap. */
  ghost predicate Owner(s: St, blk: Blk, n: nat) {
    || (n == 0 && InClean(s, blk))
    || (n == 1 && IsRw(s, blk))
    || (n == 2 && IsOpenOw(s, blk))
    || (n == 3 && blk in s.wIn)
    || (n == 4 && blk in s.oIn)
  }

  function RoleIndex(r: Role): nat {
    match r
    case Clean => 0
    case OpenRw(_, _) => 1
    case OpenOw(_) => 2
    case FullRw => 3
    case FullOw => 4
    case Victim(_) => 5
  }

  lemma OwnedByRole(s: St, blk: Blk)
    requires Inv(s) && blk.bank < s.banks && blk.lbn < s.blocks
    ensures blk in s.role && forall n :: Owner(s, blk, n) <==> n < 5 && n == RoleIndex(s.role[blk])
  {
    hide BufShape, MapOK, StaleOK, DramOK, FlashOK, Inj, WCounts, OCounts, Erased, ListPages, Budget, TraceOK;
    assert IsRw(s, blk) ==> Blk(blk.bank, s.rw[blk.bank].lbn) == blk;
    assert IsOpenOw(s, blk) ==> Blk(blk.bank, s.ow[blk.bank].lbn) == blk;
  }

  /** Every block of the device is in exactly one of the five places. */
  lemma OwnedOnce(s: St, blk: Blk)
    requires Settled(s) && blk.bank < s.banks && blk.lbn < s.blocks
    ensures exists n :: n < 5 && Owner(s, blk, n) && forall m :: Owner(s, blk, m) ==> m == n
  {
    hide Settled, Inv, Owner, VRoles;
    SettledParts(s);
    OwnedByRole(s, blk);
    NoVictim(s.role, blk);
    assert Owner(s, blk, RoleIndex(s.role[blk]));
  }

  /** Also while collections run, no block is in two places, and one in none is being collected. */
  lemma OwnedAtMostOnce(s: St, blk: Blk)
    requires Inv(s) && blk.bank < s.banks && blk.lbn < s.blocks
    ensures forall m, n | Owner(s, blk, m) && Owner(s, blk, n) :: m == n
    ensures blk in s.role && ((forall n :: !Owner(s, blk, n)) <==> s.role[blk].Victim?)
  {
    hide Inv, Owner;
    OwnedByRole(s, blk);
    if !s.role[blk].Victim? {
      assert Owner(s, blk, RoleIndex(s.role[blk]));
    }
  }

  /** With three blocks or more, a bank short of clean blocks and without one of its open blocks has a full one:
      a collection or a seal started for space finds a victim. */
  lemma VictimExists(s: St, b: nat)
    requires Settled(s) && b < s.banks && 3 <= s.blocks && b < |s.clean| && |s.clean[b]| <= 1
    requires (b < |s.rw| && s.rw[b].Closed?) || (b < |s.ow| && s.ow[b].OwClosed?)
    ensures exists m :: m in s.wIn + s.oIn && m.bank == b
  {
    hide Inv, VRoles;
    SettledParts(s);
    if forall lbn | 0 <= lbn < 3 :: Blk(b, lbn) !in s.wIn && Blk(b, lbn) !in s.oIn {
      InNeitherHeap(s, Blk(b, 0));
      InNeitherHeap(s, Blk(b, 1));
      InNeitherHeap(s, Blk(b, 2));
      assert false;
    }
    var lbn :| 0 <= lbn < 3 && !(Blk(b, lbn) !in s.wIn && Blk(b, lbn) !in s.oIn);
    assert Blk(b, lbn) in s.wIn + s.oIn;
  }

  lemma SettledParts(s: St)
    requires Settled(s)
    ensures Inv(s)
      && VRoles(s.role) == map[] && s.held == map[] && s.debt.amount == 0 && s.pending == {} && s.owPending == {}
  {
    hide Inv, VRoles;
  }

  lemma InNeitherHeap(s: St, blk: Blk)
    requires Inv(s)
      && VRoles(s.role) == map[] && blk.bank < s.banks && blk.lbn < s.blocks && blk !in s.wIn && blk !in s.oIn
    ensures InClean(s, blk) || IsRw(s, blk) || IsOpenOw(s, blk)
  {
    hide Inv, VRoles, InClean, IsRw, IsOpenOw;
    OwnedByRole(s, blk);
    NoVictim(s.role, blk);
    assert Owner(s, blk, RoleIndex(s.role[blk]));
  }

  // ----- exact counts -----

  /** A page that holds data in the given mode; the others hold LPN lists. */
  predicate DataPage(ow: bool, page: nat) {
    page <= 126 && !(ow && page == 125)
  }

  /** How many of the block's first `n` pages are data pages and erased. */
  function ErasedPages(flash: map<PageId, Page>, blk: Blk, ow: bool, n: nat): nat {
    if n == 0 then 0
    else ErasedPages(flash, blk, ow, n - 1) + if DataPage(ow, n - 1) && ListPage(blk, n - 1) !in flash then 1 else 0
  }

  /** The same by role, in closed form. */
  function FreeBelow(r: Role, n: nat): nat {
    match r
    case OpenRw(p, false) => if p <= n then n - p else 0
    case OpenRw(p, true) => if p <= n then (n - p + 1) / 2 else 0
    case OpenOw(p) =>
      if p == 0 then (if n <= 125 then n else n - 1)
      else (if n == 0 then 0 else (n - 1) / 2) + (if p < n then (n - p + 1) / 2 else 0) - (if n <= 125 then 0 else 1)
    case FullOw => if n == 0 then 0 else (n - 1) / 2
    case _ => 0
  }

  lemma FreeStep(r: Role, n: nat)
    requires RoleWf(r) && (CountedRw(r) || CountedOw(r)) && n < 127
    ensures FreeBelow(r, 0) == 0
      && FreeBelow(r, n + 1) == FreeBelow(r, n) + if DataPage(IsOw(r), n) && PageFree(r, n) then 1 else 0
  {
  }

  lemma {:induction false} CountErased(flash: map<PageId, Page>, role: map<Blk, Role>, blk: Blk, n: nat)
    requires Erased(flash, role) && blk in role && RoleWf(role[blk]) && (CountedRw(role[blk]) || CountedOw(role[blk]))
      && n <= 127
    ensures ErasedPages(flash, blk, IsOw(role[blk]), n) == FreeBelow(role[blk], n)
  {
    hide FreeBelow, PageFree, RoleWf, DataPage;
    if n == 0 {
      FreeStep(role[blk], 0);
    } else {
      CountErased(flash, role, blk, n - 1);
      FreeStep(role[blk], n - 1);
      assert ListPage(blk, n - 1) in flash <==> !PageFree(role[blk], n - 1);
    }
  }

  /** The slots that the heaps count as free are those of the data pages that the flash has erased. */
  lemma FreeIsErased(flash: map<PageId, Page>, role: map<Blk, Role>, blk: Blk)
    requires Erased(flash, role) && blk in role && RoleWf(role[blk])
    ensures CountedRw(role[blk]) ==> 8 * ErasedPages(flash, blk, false, PAGES_PER_BLK) == Free(role[blk])
    ensures CountedOw(role[blk]) ==>
      8 * ErasedPages(flash, blk, true, PAGES_PER_BLK) == Free(role[blk]) + HIGH_PAGE_CHUNKS
  {
    if CountedRw(role[blk]) || CountedOw(role[blk]) {
      CountErased(flash, role, blk, 127);
    }
  }

  /** A block's heap value is its mapped chunks plus eight for each data page that is erased.  In overwrite mode
      that includes the high pages, which only a seal makes usable.  A block in no use has the initial values. */
  lemma CountsAreExact(s: St, blk: Blk)
    requires Settled(s) && blk.bank < s.banks && blk.lbn < s.blocks
    ensures blk in s.wCount && blk in s.oCount
    ensures IsRw(s, blk) || blk in s.wIn ==>
      s.wCount[blk] == |KeysIn(s.cmap, blk)| + 8 * ErasedPages(s.flash, blk, false, PAGES_PER_BLK)
        && s.oCount[blk] == OW_BLK_CHUNKS
    ensures IsOpenOw(s, blk) || blk in s.oIn ==>
      s.oCount[blk] == |KeysIn(s.cmap, blk)| + 8 * ErasedPages(s.flash, blk, true, PAGES_PER_BLK)
        && s.wCount[blk] == CHUNKS_PER_LOG_BLK
    ensures InClean(s, blk) ==> s.wCount[blk] == CHUNKS_PER_LOG_BLK && s.oCount[blk] == OW_BLK_CHUNKS
  {
    hide Settled, Inv, VRoles, KeysIn, Free, WCounts, OCounts, Erased, ErasedPages, InClean, IsRw, IsOpenOw;
    SettledParts(s);
    SettledMap(s);
    SettledCounts(s);
    OwnedByRole(s, blk);
    BothCounts(s.live, s.role, s.wCount, s.oCount, s.debt, blk);
    FreeIsErased(s.flash, s.role, blk);
    assert forall n | Owner(s, blk, n) :: n == RoleIndex(s.role[blk]);
    assert IsRw(s, blk) ==> Owner(s, blk, 1);
    assert IsOpenOw(s, blk) ==> Owner(s, blk, 2);
    assert blk in s.wIn ==> Owner(s, blk, 3);
    assert blk in s.oIn ==> Owner(s, blk, 4);
    assert InClean(s, blk) ==> Owner(s, blk, 0);
  }

  lemma SettledMap(s: St)
    requires Settled(s)
    ensures s.cmap == s.live
  {
    hide VRoles, RwReady, FillsBut, WCounts, OCounts, CleanOK, StaleOK, DramOK, BufShape, ListPages, MembersOK, OwOK,
         RwOK, Inj, RoleShape, FlashOK, Erased, Budget, TraceOK, ListShape;
  }

  lemma SettledCounts(s: St)
    requires Settled(s)
    ensures WCounts(s.live, s.role, s.wCount) && OCounts(s.live, s.role, s.oCount, s.debt) && s.debt.amount == 0
    ensures Erased(s.flash, s.role) && forall blk | blk in s.role :: RoleWf(s.role[blk])
  {
    hide VRoles, RwReady, FillsBut, WCounts, OCounts, MapOK, DramOK, FlashOK, Inj, RwOK, OwOK, ListPages, Budget,
         TraceOK, Erased, RoleWf;
  }

  lemma BothCounts(live: map<Key, Loc>, role: map<Blk, Role>, wCount: map<Blk, nat>, oCount: map<Blk, nat>, debt: Debt,
                   blk: Blk)
    requires WCounts(live, role, wCount) && OCounts(live, role, oCount, debt) && debt.amount == 0 && blk in role
    ensures blk in wCount && wCount[blk] == WExpected(|KeysIn(live, blk)|, role[blk])
    ensures blk in oCount && oCount[blk] == OExpected(|KeysIn(live, blk)|, role[blk])
  {
    hide KeysIn, WExpected, OExpected;
  }

  // ----- the reverse map -----

  /** The slots of a write or overwrite buffer below its pointer are filled; a mapped chunk in a DRAM buffer
      is named by its slot, and a filled slot that names a chunk is where the map says it is. */
  lemma BufferedNamed(s: St, ow: bool, b: nat, i: nat, k: Key)
    requires Settled(s) && b < s.banks && i < 8
    ensures |s.meta| == |s.owMeta| == |s.ptr| == |s.owPtr| == s.banks && |s.meta[b]| == |s.owMeta[b]| == 8
    ensures k in s.cmap && s.cmap[k] == Loc(ow, Buf(ow, b), i)
       <==> i < (if ow then s.owPtr[b] else s.ptr[b]) && (if ow then s.owMeta[b][i] else s.meta[b][i]) == Some(k)
  {
    SettledMap(s);
    SettledParts(s);
    PtrIsFill(s, b);
    hide Settled, WCounts, OCounts, CleanOK, Erased, Budget, TraceOK, StaleOK, FlashOK, ListPages, RwOK, OwOK,
         MembersOK, Inj, RoleShape, ListShape;
    BankFacts(s, b);
  }

  lemma PtrIsFill(s: St, b: nat)
    requires Settled(s) && b < s.banks
    ensures |s.ptr| == |s.owPtr| == |s.fill| == |s.owFill| == s.banks && s.ptr[b] == s.fill[b] < 8
      && s.owPtr[b] == s.owFill[b] < 8
  {
    hide VRoles, RwReady, WCounts, OCounts, CleanOK, StaleOK, DramOK, FlashOK, ListPages, MembersOK, OwOK, RwOK, Inj,
         MapOK, RoleShape, ListShape, Erased, Budget, TraceOK;
  }

  function ListIn(flash: map<PageId, Page>, pg: PageId): seq<Option<nat>> {
    if pg in flash && flash[pg].List? then flash[pg].lpns else []
  }

  /** Where the LPN list of a block in use is: in page 127 or 125 when it is full, else in RAM. */
  ghost function ListOf(s: St, blk: Blk): seq<Option<nat>> {
    if blk in s.wIn then ListIn(s.flash, ListPage(blk, 127))
    else if blk in s.oIn then ListIn(s.flash, ListPage(blk, 125))
    else if IsRw(s, blk) then (if blk.bank < |s.rwList| then s.rwList[blk.bank] else [])
    else if IsOpenOw(s, blk) then (if blk.bank < |s.owList| then s.owList[blk.bank] else [])
    else []
  }

  /** A mapped chunk in flash is in a block of the mode its address says, and named by that block's LPN list. */
  lemma FlashNamed(s: St, k: Key)
    requires Settled(s) && k in s.cmap && s.cmap[k].page.Pg?
    ensures var loc := s.cmap[k]; var blk := BlkOf(loc.page); var i := loc.page.page * 8 + loc.slot;
      && (if loc.ow then blk in s.oIn || IsOpenOw(s, blk) else blk in s.wIn || IsRw(s, blk))
      && i < |ListOf(s, blk)| && ListOf(s, blk)[i] == Some(k.lpn)
  {
    hide Settled, Inv, VRoles, IsRw, IsOpenOw, ListOf;
    SettledMap(s);
    SettledParts(s);
    Listed(s, k);
    var blk := BlkOf(s.cmap[k].page);
    NoVictim(s.role, blk);
    ListsKept(s, blk);
  }

  lemma Listed(s: St, k: Key)
    requires Inv(s) && k in s.live && s.live[k].page.Pg?
    ensures var blk := BlkOf(s.live[k].page); var i := s.live[k].page.page * 8 + s.live[k].slot;
      && blk in s.lists && i < |s.lists[blk]| && s.lists[blk][i] == Some(k.lpn)
      && blk in s.role && !s.role[blk].Clean? && s.live[k].ow == IsOw(s.role[blk])
  {
    hide WCounts, OCounts, CleanOK, Erased, Budget, TraceOK, StaleOK, DramOK, BufShape, Inj, RwOK, OwOK, MembersOK,
         ListPages;
    assert FlashKeyOK(k, s.live[k], s.flash, s.lists, s.role);
  }

  lemma ListsKept(s: St, blk: Blk)
    requires Inv(s) && blk in s.lists && blk in s.role && !s.role[blk].Clean? && !s.role[blk].Victim?
    ensures ListOf(s, blk) == s.lists[blk]
    ensures if IsOw(s.role[blk]) then blk in s.oIn || IsOpenOw(s, blk) else blk in s.wIn || IsRw(s, blk)
  {
    hide WCounts, OCounts, CleanOK, Erased, Budget, TraceOK, StaleOK, DramOK, BufShape, Inj, FlashOK, MapOK;
    assert IsRw(s, blk) ==> Blk(blk.bank, s.rw[blk.bank].lbn) == blk;
    assert IsOpenOw(s, blk) ==> Blk(blk.bank, s.ow[blk.bank].lbn) == blk;
  }

  // ----- sealing and overwriting -----

  /** A block in RW use, open or full, sealed or not, has no entry with the overwrite bit and no counter above zero,
      each of its low pages that RW use has passed is programmed, and the next page of an open one is erased. */
  lemma SealedStaysSealed(s: St, blk: Blk)
    requires Settled(s) && (IsRw(s, blk) || blk in s.wIn)
    ensures forall k | k in s.cmap && InBlk(s.cmap[k].page, blk) :: !s.cmap[k].ow
    ensures blk in s.owCnt && forall i | 0 <= i < |s.owCnt[blk]| :: s.owCnt[blk][i] == 0
    ensures blk in s.wIn || s.rw[blk.bank].sealed ==> forall p: nat | LowPage(p) :: ListPage(blk, p) in s.flash
    ensures IsRw(s, blk) ==>
      && ListPage(blk, s.rw[blk.bank].page) !in s.flash
      && (s.rw[blk.bank].sealed ==> s.rw[blk.bank].page % 2 == 0 && s.rw[blk.bank].page >= 2)
  {
    hide Settled, Inv, FlashKeyOK, Erased, VRoles;
    SettledMap(s);
    SettledParts(s);
    RwUse(s, blk);
    forall k | k in s.cmap && InBlk(s.cmap[k].page, blk) ensures !s.cmap[k].ow {
      Listed(s, k);
    }
    SettledCounts(s);
    RwPages(s.flash, s.role, blk);
  }

  lemma RwUse(s: St, blk: Blk)
    requires Inv(s) && s.pending == {} && (IsRw(s, blk) || blk in s.wIn)
    ensures blk in s.role && (blk in s.wIn ==> s.role[blk] == FullRw)
    ensures IsRw(s, blk) ==>
      s.rw[blk.bank].page <= 126 && s.role[blk] == OpenRw(s.rw[blk.bank].page, s.rw[blk.bank].sealed)
    ensures blk in s.owCnt && forall i | 0 <= i < |s.owCnt[blk]| :: s.owCnt[blk][i] == 0
  {
    hide WCounts, OCounts, CleanOK, Erased, TraceOK, StaleOK, DramOK, BufShape, Inj, FlashOK, MapOK, ListPages, OwOK;
    assert IsRw(s, blk) ==> Blk(blk.bank, s.rw[blk.bank].lbn) == blk;
  }

  lemma RwPages(flash: map<PageId, Page>, role: map<Blk, Role>, blk: Blk)
    requires Erased(flash, role) && blk in role && RoleWf(role[blk])
    ensures role[blk].FullRw? || (role[blk].OpenRw? && role[blk].sealed) ==>
      forall p: nat | LowPage(p) :: ListPage(blk, p) in flash
    ensures role[blk].OpenRw? && role[blk].page <= 126 ==> ListPage(blk, role[blk].page) !in flash
  {
    forall p: nat ensures ListPage(blk, p) in flash <==> !PageFree(role[blk], p) {
    }
  }

  /** Whatever was done since format, each command kept the rules of the flash, no low page of a sealed block was
      programmed before the next erase, and the programs counted in the flash are all that were sent. */
  lemma CommandsKeepRules(s: St, past: Trace, c: Command)
    requires Inv(s) && Before(Then(past, c), s.trace)
    ensures Allowed(past, c)
    ensures c.Program? && LowPage(c.pg.page) ==> !SealedSince(past, BlkOf(c.pg))
  {
    TraceFacts(s);
    EarlierDisciplined(Then(past, c), s.trace);
    if c.Program? {
      SealedUntilErase(s.trace, past, c.pg, c.use);
    }
  }

  lemma TraceFacts(s: St)
    requires Inv(s)
    ensures Disciplined(s.trace)
    ensures forall pg: PageId | pg.Pg? && BlkOf(pg) in s.role :: Burns(s.trace, pg) == Times(s.flash, pg)
  {
    hide WCounts, OCounts, CleanOK, Erased, StaleOK, DramOK, BufShape, Inj, FlashOK, MapOK, ListPages, OwOK, RwOK,
         MembersOK;
  }

  /** A page of the device is programmed at most once between two erases, a low page at most eight times,
      and the flash holds its page exactly when it was. */
  lemma ProgramsBounded(s: St, pg: PageId)
    requires Inv(s) && pg.Pg? && pg.bank < s.banks && pg.lbn < s.blocks
    ensures Times(s.flash, pg) == Burns(s.trace, pg) <= if LowPage(pg.page) then OW_LIMIT else 1
    ensures pg in s.flash <==> 0 < Burns(s.trace, pg)
  {
    hide WCounts, OCounts, CleanOK, Erased, StaleOK, DramOK, BufShape, Inj, FlashOK, MapOK, ListPages, OwOK, RwOK,
         MembersOK;
    BurnsBound(s.trace, pg);
    assert BlkOf(pg) in s.role;
    assert Burns(s.trace, pg) == Times(s.flash, pg);
  }

  /** In overwrite mode a low page was programmed as often as its counter says, at most eight times. */
  lemma WithinBudget(s: St, k: Key)
    requires Settled(s) && k in s.cmap && s.cmap[k].ow && s.cmap[k].page.Pg?
    ensures var pg := s.cmap[k].page;
      && LowPage(pg.page) && BlkOf(pg) in s.owCnt && CounterOf(pg.page) < |s.owCnt[BlkOf(pg)]|
      && s.owCnt[BlkOf(pg)][CounterOf(pg.page)] == Programs(s.flash, pg) <= OW_LIMIT
  {
    SettledMap(s);
    SettledParts(s);
    LowLive(s, k);
    hide VRoles, RwReady, FillsBut, WCounts, OCounts, CleanOK, StaleOK, DramOK, BufShape, ListPages, MembersOK, OwOK,
         RwOK, FlashOK, Inj;
    var pg := s.cmap[k].page;
    assert s.owCnt[BlkOf(pg)][CounterOf(pg.page)] == Programs(s.flash, Pg(pg.bank, pg.lbn, pg.page));
  }
}
