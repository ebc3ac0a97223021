/** Which full block a bank gives up next, what it takes to collect it, and what is left afterwards. */
module Victims {
  import opened Base
  import opened State
  import opened Steps
  import opened FtlTables
  import opened Internal
  import opened Sealing
  import opened Collecting
  import opened Room

  // ----- sealing or collecting -----

  /** A full overwrite block of the bank whose heap value none undercuts. */
  ghost predicate LeastOw(t: Tables, v: Blk, bank: nat) {
    && v in t.owHeap && v.bank == bank
    && forall m | m in t.owHeap && m.bank == bank :: m in t.owCount && v in t.owCount && t.owCount[v] <= t.owCount[m]
  }

  /** Some full overwrite block of the bank promises, less its 504 high-page slots, fewer chunks than every
      full RW block. */
  ghost predicate OwWins(t: Tables, bank: nat) {
    exists w :: w in t.owHeap && w.bank == bank && w in t.owCount && UndercutsRw(t, bank, t.owCount[w])
  }

  ghost predicate UndercutsRw(t: Tables, bank: nat, n: nat) {
    forall m | m in t.writeHeap && m.bank == bank :: m in t.writeCount && n < t.writeCount[m] + HIGH_PAGE_CHUNKS
  }

  /** Block `v`, a cheapest full overwrite block of the bank, was made its open RW block, at page 2. */
  ghost predicate Sealed(s: Tables, t: Tables, v: Blk, bank: nat) {
    && LeastOw(s, v, bank) && t.cleanList == s.cleanList && t.chunkPtr == s.chunkPtr
    && bank < |s.rwCtrl| && t.rwCtrl == s.rwCtrl[bank := Open(v.lbn, 2, true)]
    && t.owHeap == s.owHeap - {v} && t.writeHeap == s.writeHeap
  }

  /** How a bank comes to its open RW block: it has one, or opens the next clean block while one more is left,
      or seals; never a block that is owed a count. */
  ghost predicate GotRw(s: Tables, t: Tables, bank: nat, owing: Option<Blk>) {
    && bank < |s.rwCtrl| && bank < |t.rwCtrl| && bank < |s.cleanList| && t.rwCtrl[bank].Open?
    && if s.rwCtrl[bank].Open? then t == s
       else if 2 <= |s.cleanList[bank]| then Opened(s, t, bank)
       else
         var v := Blk(bank, t.rwCtrl[bank].lbn);
         Sealed(s, t, v, bank) && owing != Some(v)
  }

  // ----- victims -----

  ghost predicate NoFull(t: Tables, bank: nat) {
    forall m | m in t.writeHeap + t.owHeap :: m.bank != bank
  }

  /** Every full block of the bank is an RW block without a single dead slot. */
  ghost predicate Saturated(t: Tables, bank: nat) {
    && (exists m :: m in t.writeHeap && m.bank == bank)
    && (forall m | m in t.owHeap :: m.bank != bank)
    && (forall m | m in t.writeHeap && m.bank == bank :: m in t.writeCount && t.writeCount[m] == CHUNKS_PER_LOG_BLK)
  }

  /** The table and the heap value of a block disagree: a chunk that is only in RAM still has an entry there,
      or the block is owed a count. */
  ghost predicate Tripped(s: St, v: Blk) {
    !NoStaleIn(s.cmap, s.held, v) || 0 < Owed(s.debt, v)
  }

  /** No full block of the bank is in that state. */
  ghost predicate Clear(s: St, bank: nat) {
    forall m | (m in s.wIn || m in s.oIn) && m.bank == bank :: !Tripped(s, m)
  }

  /** Every full block of the bank is: no collection of the bank completes. */
  ghost predicate AllTripped(s: St, bank: nat) {
    forall m | (m in s.wIn || m in s.oIn) && m.bank == bank :: Tripped(s, m)
  }

  /** The heap promises no full block of the bank fewer chunks than `v`. */
  ghost predicate Cheapest(s: St, v: Blk, bank: nat) {
    && v.bank == bank && (v in s.wIn || v in s.oIn)
    && forall m | (m in s.wIn || m in s.oIn) && m.bank == bank ::
         |VMap(s.live, v)| + Owed(s.debt, v) <= |VMap(s.live, m)| + Owed(s.debt, m)
  }

  /** A cheapest block of the bank, with entries and heap value in agreement, was erased. */
  ghost predicate Collected(s: St, t: St, bank: nat) {
    exists v :: Cheapest(s, v, bank) && !Tripped(s, v) && s.wiped + multiset{v} <= t.wiped
  }

  lemma CollectedNotAll(s: St, t: St, bank: nat)
    requires Collected(s, t, bank)
    ensures !AllTripped(s, bank)
  {
    hide Tripped;
  }

  lemma CollectedBy(s: St, t: St, v: Blk, bank: nat)
    requires Cheapest(s, v, bank) && !Tripped(s, v) && s.wiped + multiset{v} <= t.wiped
    ensures Collected(s, t, bank)
  {
  }

  lemma CollectedWipes(s: St, t: St, bank: nat)
    requires Collected(s, t, bank)
    ensures s.wiped <= t.wiped && t.wiped != s.wiped
  {
    hide Cheapest, Tripped;
    var v :| Cheapest(s, v, bank) && !Tripped(s, v) && s.wiped + multiset{v} <= t.wiped;
    assert s.wiped[v] < (s.wiped + multiset{v})[v] <= t.wiped[v];
  }

  lemma ClearChoice(s: St, v: Blk, bank: nat)
    requires Cheapest(s, v, bank)
    ensures Clear(s, bank) ==> !Tripped(s, v)
    ensures !Tripped(s, v) ==> NoStaleIn(s.cmap, s.held, v) && Owed(s.debt, v) == 0
  {
  }

  lemma SameCost(s: St, v: Blk, bank: nat, n: nat)
    requires Cheapest(s, v, bank) && !Tripped(s, v) && |VMap(s.live, v)| == n
    ensures Clear(s, bank) ==> forall w | Cheapest(s, w, bank) :: |VMap(s.live, w)| == n
  {
    hide VMap, NoStaleIn;
  }

  // ----- when a collection completes -----

  /** Nothing stops a collection of the bank from starting: nest level, no full block at all,
      or only blocks without a dead slot and no fuel left. */
  ghost predicate CanStart(t: Tables, nest: seq<nat>, bank: nat, fuel: nat) {
    && bank < |nest| && nest[bank] < 2
    && (exists m :: m in t.writeHeap + t.owHeap && m.bank == bank)
    && (0 < fuel || !Saturated(t, bank))
  }

  lemma StartFacts(t: Tables, nest: seq<nat>, bank: nat, fuel: nat)
    ensures CanStart(t, nest, bank, fuel) ==>
      bank < |nest| && nest[bank] < 2 && !(forall m | m in t.writeHeap + t.owHeap :: m.bank != bank)
        && (0 < fuel || !Saturated(t, bank))
  {
  }

  /** Every bank has room for `n` chunks. */
  predicate AllRoom(t: Tables, n: nat) {
    forall b | 0 <= b < |t.rwCtrl| :: RoomAt(t, b) >= n
  }

  /** A collection of the bank can start, no full block of it disagrees with its heap value, and every bank has
      room for what a cheapest of them holds. */
  ghost predicate Affordable(s: St, nest: seq<nat>, bank: nat, fuel: nat) {
    && CanStart(TablesOf(s), nest, bank, fuel) && Clear(s, bank)
    && exists v :: Cheapest(s, v, bank) && AllRoom(TablesOf(s), |VMap(s.live, v)|)
  }

  /** The same for a bank between two RW blocks that has to take its last clean block first: that one's pages
      are room for the bank itself. */
  ghost predicate Refills(s: St, nest: seq<nat>, bank: nat, fuel: nat) {
    && bank < |s.rw| && bank < |s.clean| && |s.clean[bank]| == 1 && !OwWins(TablesOf(s), bank)
    && CanStart(TablesOf(s), nest, bank, fuel) && Clear(s, bank)
    && exists v :: Cheapest(s, v, bank) && RoomBeside(TablesOf(s), bank, |VMap(s.live, v)|)
  }

  lemma RefillsFacts(s: St, nest: seq<nat>, bank: nat, fuel: nat)
    ensures Refills(s, nest, bank, fuel) ==>
      && bank < |s.clean| && |s.clean[bank]| == 1 && !OwWins(TablesOf(s), bank)
      && !(forall m | m in s.wIn + s.oIn :: m.bank != bank)
      && (bank < |s.rwList| && bank < |s.ptr| && s.ptr[bank] <= 7 ==>
            bank < |s.rw| && Affordable(OpenRwBlk(s, bank), nest, bank, fuel))
  {
    hide Affordable, OwWins, Saturated, Clear, Cheapest, RoomBeside;
    if Refills(s, nest, bank, fuel) && bank < |s.rwList| && bank < |s.ptr| && s.ptr[bank] <= 7 {
      RefillsOpen(s, nest, bank, fuel);
    }
  }

  /** Every other bank has room for `n` chunks, and this one once it has opened a clean block. */
  predicate RoomBeside(t: Tables, bank: nat, n: nat) {
    && bank < |t.chunkPtr| && n + t.chunkPtr[bank] <= 1015
    && forall b | 0 <= b < |t.rwCtrl| && b != bank :: RoomAt(t, b) >= n
  }

  lemma RefillsOpen(s: St, nest: seq<nat>, bank: nat, fuel: nat)
    requires Refills(s, nest, bank, fuel) && bank < |s.rwList| && bank < |s.ptr| && s.ptr[bank] <= 7
    ensures Affordable(OpenRwBlk(s, bank), nest, bank, fuel)
  {
    hide Saturated, RoomAt, OwWins, NoStaleIn, VMap, Cheapest, Clear, CanStart;
    var t := OpenRwBlk(s, bank);
    OpenStart(s, nest, bank, fuel);
    var v :| Cheapest(s, v, bank) && RoomBeside(TablesOf(s), bank, |VMap(s.live, v)|);
    OpenCheapest(s, v, bank);
    forall b | 0 <= b < |t.rw| ensures RoomAt(TablesOf(t), b) >= |VMap(t.live, v)| {
      OpenedRoom(TablesOf(s), TablesOf(t), bank, b);
    }
  }

  lemma OpenStart(s: St, nest: seq<nat>, bank: nat, fuel: nat)
    requires bank < |s.rw| && bank < |s.clean| && 0 < |s.clean[bank]| && bank < |s.rwList|
    requires CanStart(TablesOf(s), nest, bank, fuel) && Clear(s, bank)
    ensures CanStart(TablesOf(OpenRwBlk(s, bank)), nest, bank, fuel) && Clear(OpenRwBlk(s, bank), bank)
  {
    hide Saturated, NoStaleIn;
    SameSaturated(TablesOf(s), TablesOf(OpenRwBlk(s, bank)), bank);
  }

  lemma OpenCheapest(s: St, v: Blk, bank: nat)
    requires bank < |s.rw| && bank < |s.clean| && 0 < |s.clean[bank]| && bank < |s.rwList|
    requires Cheapest(s, v, bank)
    ensures Cheapest(OpenRwBlk(s, bank), v, bank)
  {
    hide VMap;
  }

  lemma SameSaturated(s: Tables, t: Tables, bank: nat)
    requires t.writeHeap == s.writeHeap && t.owHeap == s.owHeap && t.writeCount == s.writeCount
    ensures Saturated(t, bank) == Saturated(s, bank)
  {
  }

  /** A bank that opens its last clean block has room for all of it but one page. */
  lemma OpenedRoom(s: Tables, t: Tables, bank: nat, b: nat)
    requires Opened(s, t, bank) && |s.cleanList[bank]| == 1 && bank < |s.chunkPtr| && s.chunkPtr[bank] <= 7
    ensures RoomAt(t, b) == if b == bank then 1015 - s.chunkPtr[b] else RoomAt(s, b)
  {
  }

  /** How a bank short of clean blocks gets its next RW block: it seals if an overwrite block is the better
      choice, and otherwise takes a clean block and collects. */
  ghost predicate SealedOrCollected(s: St, t: St, bank: nat, o: Outcome, owing: Option<Blk>) {
    bank < |s.clean| && bank < |s.rw| && bank < |s.rwList| ==>
      if OwWins(TablesOf(s), bank) then
        && (o.Pass? ==>
              exists v :: Sealed(TablesOf(s), TablesOf(t), v, bank) && owing != Some(v) && t.wiped == s.wiped)
        && (o.Fail? ==> o == Fail(UnsafeCollection) && owing.Some? && LeastOw(TablesOf(s), owing.value, bank))
      else
        o.Pass? ==> s.clean[bank] != [] && Collected(OpenRwBlk(s, bank), t, bank)
  }

  /** The same when the bank has to be left with a clean block: without any it fails. */
  ghost predicate NextBlock(s: St, t: St, bank: nat, o: Outcome, owing: Option<Blk>) {
    bank < |s.clean| && |s.clean[bank]| <= 1 ==>
      && (s.clean[bank] == [] ==> o.Fail?)
      && (s.clean[bank] != [] ==> SealedOrCollected(s, t, bank, o, owing))
  }

  /** The bank has programmed page 126 of its open RW block: the block is full. */
  ghost predicate Closing(s: St, bank: nat) {
    bank < |s.rw| && s.rw[bank].Open? && s.rw[bank].page == 126 && bank < |s.rwList|
  }

  /** How a full block is replaced, by what the tables say once it is closed. */
  ghost predicate BlockReplaced(s: St, t: St, bank: nat, o: Outcome, owing: Option<Blk>, nest: seq<nat>, fuel: nat) {
    Closing(s, bank) ==>
      && NextBlock(CloseRw(s, bank), t, bank, o, owing)
      && (Refills(CloseRw(s, bank), nest, bank, fuel) ==> o.Pass?)
      && (o.Pass? ==> bank < |t.clean| && 1 <= |t.clean[bank]|)
  }

  predicate ThreeClean(t: Tables, b: nat) {
    b < |t.cleanList| && 3 <= |t.cleanList[b]|
  }

  // ----- a full block without a mapped chunk -----

  ghost predicate IsEmpty(t: Tables, v: Blk, bank: nat) {
    v in t.writeHeap && v.bank == bank && v in t.writeCount && t.writeCount[v] == 0
  }

  /** The bank has a full RW block without a mapped chunk. */
  ghost predicate EmptyVictim(t: Tables, bank: nat) {
    exists v :: IsEmpty(t, v, bank)
  }

  /** The tables once such a block was erased and queued as clean. */
  ghost function GivenBack(t: Tables, v: Blk): Tables
    requires v.bank < |t.cleanList|
  {
    t.(writeHeap := t.writeHeap - {v}, writeCount := t.writeCount[v := CHUNKS_PER_LOG_BLK],
       flash := Erase(t.flash, v), cleanList := t.cleanList[v.bank := t.cleanList[v.bank] + [v.lbn]])
  }

  /** One empty block of the bank was given back, and nothing else happened. */
  ghost predicate Freed(s: Tables, t: Tables, bank: nat) {
    exists v :: IsEmpty(s, v, bank) && bank < |s.cleanList| && t == GivenBack(s, v)
  }

  /** The clean list, the heaps and the counts of bank `b` are the same. */
  ghost predicate SameBank(s: Tables, t: Tables, b: nat) {
    && b < |s.cleanList| && b < |t.cleanList| && t.cleanList[b] == s.cleanList[b]
    && forall m: Blk | m.bank == b ::
         && (m in t.writeHeap <==> m in s.writeHeap) && (m in t.owHeap <==> m in s.owHeap)
         && Lookup(t.writeCount, m) == Lookup(s.writeCount, m) && Lookup(t.owCount, m) == Lookup(s.owCount, m)
  }

  /** In bank `b` one empty block was given back, and nothing else happened. */
  ghost predicate FreedIn(s: Tables, t: Tables, b: nat) {
    exists v :: IsEmpty(s, v, b) && b < |s.cleanList| && SameBank(GivenBack(s, v), t, b)
  }

  /** What cleaning the first `n` banks does: each idle one with an empty full RW block gives one back;
      nothing else changes. */
  ghost predicate CleanedUpto(s: Tables, t: Tables, busy: seq<bool>, n: nat) {
    && |t.cleanList| == |s.cleanList| == |busy|
    && t.rwCtrl == s.rwCtrl && t.owCtrl == s.owCtrl && t.chunkPtr == s.chunkPtr && t.owChunkPtr == s.owChunkPtr
    && t.chunksMap == s.chunksMap
    && forall b | 0 <= b < |busy| ::
         if b < n && !busy[b] && EmptyVictim(s, b) then FreedIn(s, t, b) else SameBank(s, t, b)
  }

  ghost predicate Cleaned(s: Tables, t: Tables, busy: seq<bool>) {
    CleanedUpto(s, t, busy, |busy|)
  }

  lemma CleanedNone(t: Tables, busy: seq<bool>)
    requires |t.cleanList| == |busy|
    ensures CleanedUpto(t, t, busy, 0)
  {
  }

  lemma CleanedStep(s: Tables, m: Tables, t: Tables, busy: seq<bool>, n: nat)
    requires CleanedUpto(s, m, busy, n) && n < |busy|
    requires if !busy[n] && EmptyVictim(m, n) then Freed(m, t, n) else t == m
    ensures CleanedUpto(s, t, busy, n + 1)
  {
    hide SameBank, FreedIn, EmptyVictim, GivenBack;
    SameEmpty(s, m, n);
    if !busy[n] && EmptyVictim(m, n) {
      FreedFields(m, t, n);
      FreedHere(s, m, t, n);
      forall b | 0 <= b < |busy| && b != n
        ensures if b < n && !busy[b] && EmptyVictim(s, b) then FreedIn(s, t, b) else SameBank(s, t, b)
      {
        FreedBanks(m, t, n, b);
        if b < n && !busy[b] && EmptyVictim(s, b) {
          FreedInThen(s, m, t, b);
        } else {
          SameBankTrans(s, m, t, b);
        }
      }
    }
  }

  lemma FreedFields(s: Tables, t: Tables, bank: nat)
    requires Freed(s, t, bank)
    ensures bank < |s.cleanList| == |t.cleanList| && t.rwCtrl == s.rwCtrl && t.owCtrl == s.owCtrl
      && t.chunkPtr == s.chunkPtr && t.owChunkPtr == s.owChunkPtr && t.chunksMap == s.chunksMap
      && t.owHeap == s.owHeap
      && forall b | 0 <= b < |s.cleanList| :: |t.cleanList[b]| >= |s.cleanList[b]|
  {
  }

  /** The same blocks are open, full and clean. */
  ghost predicate SameBlocks(s: Tables, t: Tables) {
    && t.cleanList == s.cleanList && t.rwCtrl == s.rwCtrl && t.owCtrl == s.owCtrl
    && t.writeHeap == s.writeHeap && t.owHeap == s.owHeap
  }

  lemma SameBankTrans(s: Tables, t: Tables, u: Tables, b: nat)
    requires SameBank(s, t, b) && SameBank(t, u, b)
    ensures SameBank(s, u, b)
  {
  }

  lemma SameEmpty(s: Tables, t: Tables, b: nat)
    requires SameBank(s, t, b)
    ensures EmptyVictim(t, b) == EmptyVictim(s, b) && forall v :: IsEmpty(t, v, b) == IsEmpty(s, v, b)
  {
    forall v ensures IsEmpty(t, v, b) == IsEmpty(s, v, b) {
      if v.bank == b {
        assert Lookup(t.writeCount, v) == Lookup(s.writeCount, v);
      }
    }
  }

  /** A block given back is seen in its own bank only. */
  lemma GivenBackBanks(t: Tables, v: Blk, b: nat)
    requires v.bank < |t.cleanList| && b < |t.cleanList| && b != v.bank
    ensures SameBank(t, GivenBack(t, v), b)
  {
  }

  lemma FreedBanks(s: Tables, t: Tables, bank: nat, b: nat)
    requires Freed(s, t, bank) && b < |s.cleanList| && b != bank
    ensures SameBank(s, t, b)
  {
    hide SameBank;
    var v :| IsEmpty(s, v, bank) && bank < |s.cleanList| && t == GivenBack(s, v);
    GivenBackBanks(s, v, b);
  }

  /** One bank more has been cleaned. */
  lemma FreedHere(s: Tables, m: Tables, t: Tables, b: nat)
    requires SameBank(s, m, b) && Freed(m, t, b)
    ensures FreedIn(s, t, b)
  {
    hide SameBank;
    var v :| IsEmpty(m, v, b) && b < |m.cleanList| && t == GivenBack(m, v);
    SameEmpty(s, m, b);
    SameGivenBack(s, m, v, b);
    assert IsEmpty(s, v, b) && SameBank(GivenBack(s, v), t, b);
  }

  lemma SameGivenBack(s: Tables, t: Tables, v: Blk, b: nat)
    requires SameBank(s, t, b) && v.bank == b
    ensures b < |s.cleanList| && b < |t.cleanList| && SameBank(GivenBack(s, v), GivenBack(t, v), b)
  {
  }

  lemma FreedInThen(s: Tables, m: Tables, t: Tables, b: nat)
    requires FreedIn(s, m, b) && SameBank(m, t, b)
    ensures FreedIn(s, t, b)
  {
    hide SameBank;
    var v :| IsEmpty(s, v, b) && b < |s.cleanList| && SameBank(GivenBack(s, v), m, b);
    SameBankTrans(GivenBack(s, v), m, t, b);
  }

  /** Giving back costs no room. */
  lemma FreedNoLess(s: Tables, t: Tables, bank: nat)
    requires Freed(s, t, bank)
    ensures NoLess(s, t, -1)
  {
    hide NoLess, Credited;
    var v :| IsEmpty(s, v, bank) && bank < |s.cleanList| && t == GivenBack(s, v);
    Won(s, t, v);
  }
}
