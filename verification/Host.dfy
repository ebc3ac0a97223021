/** ftl.c: host requests, background cleaning, and whole runs against a flat device. */
module Host {
  import opened Base
  import opened Nand
  import opened State
  import opened Steps
  import opened FtlTables
  import opened Measure
  import opened VictimFrame
  import opened Internal
  import opened Log
  import opened Write
  import opened Read
  import opened Trim
  import opened Overwrite
  import opened Room
  import opened Victims
  import opened Endurance
  import opened Shares

  // ----- a freshly formatted device -----

  ghost function Formatted(banks: nat, blocks: nat): St {
    var t := FormattedTables(banks, blocks, Rows(banks, Upto(blocks)));
    var g := FormattedProof(banks, blocks);
    St(banks, blocks, t.chunksMap, t.logBuf, t.logBufMeta, t.chunkPtr, t.owLogBuf, t.owLogBufMeta, t.owChunkPtr,
       t.rwCtrl, t.rwLpns, t.owCtrl, t.owLpns, t.cleanList, t.writeCount, t.writeHeap, t.owCount, t.owHeap,
       t.owCounters, t.flash,
       g.live, g.held, g.role, g.lists, g.fill, g.owFill, g.pending, g.owPending, g.debt, g.wiped, g.trace)
  }

  lemma FormattedClean(banks: nat, blocks: nat)
    ensures CleanOK(map blk | blk in AllBlks(banks, blocks) :: Role.Clean, Rows(banks, Upto(blocks)))
  {
    var role := map blk | blk in AllBlks(banks, blocks) :: Role.Clean;
    forall blk | blk in role ensures blk.lbn in Upto(blocks) {
      assert Upto(blocks)[blk.lbn] == blk.lbn;
    }
    forall b, i | 0 <= b < banks && 0 <= i < blocks ensures Blk(b, Rows(banks, Upto(blocks))[b][i]) in role {
    }
  }

  lemma FormattedCounts(banks: nat, blocks: nat)
    ensures var role := map blk | blk in AllBlks(banks, blocks) :: Role.Clean;
      && WCounts(map[], role, map blk | blk in AllBlks(banks, blocks) :: CHUNKS_PER_LOG_BLK)
      && OCounts(map[], role, map blk | blk in AllBlks(banks, blocks) :: OW_BLK_CHUNKS, Debt(Blk(0, 0), 0))
  {
    hide KeysIn;
  }

  lemma FormattedBudget(banks: nat, blocks: nat)
    ensures Budget(map[], map blk | blk in AllBlks(banks, blocks) :: Role.Clean,
                   map blk | blk in AllBlks(banks, blocks) :: Rows(PAGES_PER_BLK, 0))
  {
  }

  lemma FormattedTrace(banks: nat, blocks: nat)
    ensures TraceOK(map[], map blk | blk in AllBlks(banks, blocks) :: Role.Clean, Start)
  {
  }

  lemma FormattedInv(banks: nat, blocks: nat)
    requires 0 < banks
    ensures Inv(Formatted(banks, blocks))
  {
    hide CleanOK, WCounts, OCounts, Budget, TraceOK;
    FormattedClean(banks, blocks);
    FormattedCounts(banks, blocks);
    FormattedBudget(banks, blocks);
    FormattedTrace(banks, blocks);
  }

  lemma FormattedSettled(banks: nat, blocks: nat)
    requires 0 < banks
    ensures Settled(Formatted(banks, blocks)) && ContentOf(Formatted(banks, blocks)) == map[]
  {
    hide Inv, Content, VRoles;
    FormattedInv(banks, blocks);
    var s := Formatted(banks, blocks);
    assert s.live == map[] && s.held == map[];
    NothingMapped(s.logBuf, s.owBuf, s.flash);
    NoVictims(banks, blocks);
    assert s.role == map blk | blk in AllBlks(banks, blocks) :: Role.Clean;
  }

  lemma NothingMapped(logBuf: seq<seq<Chunk>>, owBuf: seq<seq<Chunk>>, flash: map<PageId, Page>)
    ensures Content(map[], map[], logBuf, owBuf, flash) == map[]
  {
  }

  lemma NoVictims(banks: nat, blocks: nat)
    ensures VRoles(map blk | blk in AllBlks(banks, blocks) :: Role.Clean) == map[]
  {
  }

  /** A device as it leaves format: ready, and empty. */
  method Format(banks: nat, blocks: nat) returns (f: Ftl)
    requires 0 < banks
    ensures fresh(f) && Ready(f) && f.banks == banks && f.blocks == blocks && ContentOf(f.View()) == map[]
    ensures |f.t.cleanList| == banks && forall b | 0 <= b < banks :: |f.t.cleanList[b]| == blocks
    ensures |Rooms(f.t)| == banks
      && (2 <= blocks ==> forall b | 0 <= b < banks :: Rooms(f.t)[b].room == 1016 * (blocks - 1) - 1)
    ensures f.referenceBank == 0 && (banks == 1 && 2 <= blocks ==> Endures(f.View()))
  {
    hide Settled, Content, VRoles;
    f := new Ftl(banks, blocks);
    FormattedSettled(banks, blocks);
    NoVictims(banks, blocks);
    assert f.View() == Formatted(banks, blocks);
  }

  // ----- background cleaning -----

  lemma SettledIdle(s: St)
    requires Settled(s)
    ensures Idle(s) && Inv(s) && s.held == map[]
  {
    hide Inv, VRoles, FillsBut, RwReady;
  }

  lemma BanksOf(s: St)
    requires Settled(s)
    ensures |s.clean| == s.banks
  {
    hide VRoles;
  }

  lemma NoLessSelf(t: Tables)
    ensures NoLess(t, t, -1)
  {
  }

  lemma LastsNoLess(s: Tables, t: Tables)
    requires NoLess(s, t, -1)
    ensures Lasts(Rooms(s), Rooms(t), 0, Pass)
  {
    hide PagesAt, StockAt, CleanAt;
    forall b | 0 <= b < |Rooms(s)| ensures Spent(Rooms(s)[b], Rooms(t)[b], 0) {
      assert PagesAt(t, b) >= PagesAt(s, b) && StockAt(t, b) >= StockAt(s, b) && CleanAt(t, b) >= CleanAt(s, b);
    }
  }

  lemma SettledClear(s: St, bank: nat)
    requires Settled(s)
    ensures Clear(s, bank)
  {
    hide Inv, VRoles, FillsBut, RwReady;
  }

  /** One idle bank: collect if the cheapest RW victim is empty; that block is erased and queued as clean. */
  method CleanBank(f: Ftl, bank: nat, fuel: nat)
    requires Ready(f) && bank < f.banks
    modifies f
    ensures Ready(f) && ContentOf(f.View()) == ContentOf(old(f.View()))
    ensures if EmptyVictim(old(f.t), bank) then Freed(old(f.t), f.t, bank) else f.t == old(f.t)
    ensures NoLess(old(f.t), f.t, -1) && f.referenceBank == old(f.referenceBank)
  {
    hide Settled, Inv, Idle, Content, Stale, FrameOf, Slack, VRoles, Kept, Freed, Collected, NoLess, PagesAt, Clear,
         Affordable, CanStart;
    NoLessSelf(f.t);
    ghost var s := f.View();
    SettledIdle(s);
    HeapFacts(s);
    var n, victim := GetVictim(f.t.writeCount, f.t.writeHeap, bank);
    if n == 0 {
      SettledClear(s, bank);
      assert IsEmpty(f.t, victim.value, bank);
      var o := GarbageCollectLog(f, bank, fuel);
      KeptSettled(s, f.View());
      FreedNoLess(old(f.t), f.t, bank);
    }
  }

  /** backgroundCleaning: every idle bank whose cheapest victim is empty gets it back, and nothing else happens.
      It cannot fail. */
  method BackgroundCleaning(f: Ftl, busy: seq<bool>, fuel: nat)
    requires Ready(f) && |busy| == f.banks
    modifies f
    ensures Ready(f) && ContentOf(f.View()) == ContentOf(old(f.View()))
    ensures Cleaned(old(f.t), f.t, busy) && f.referenceBank == old(f.referenceBank)
    ensures Lasts(Rooms(old(f.t)), Rooms(f.t), 0, Pass)
    ensures Endures(old(f.View())) ==> Endures(f.View())
  {
    hide Ready, Settled, Content, EmptyVictim, Freed, Lasts, Rooms, NoLess, CleanedUpto, Endures;
    ghost var s0, t0, ref := f.View(), f.t, f.referenceBank;
    LastsNothing(Rooms(t0));
    ReadySettled(f);
    BanksOf(s0);
    CleanedNone(t0, busy);
    for bank := 0 to f.banks
      invariant Ready(f) && ContentOf(f.View()) == ContentOf(s0) && f.referenceBank == ref
      invariant CleanedUpto(t0, f.t, busy, bank) && Lasts(Rooms(t0), Rooms(f.t), 0, Pass)
      invariant Endures(s0) ==> Endures(f.View())
    {
      ghost var s, t := f.View(), f.t;
      ReadySettled(f);
      if !busy[bank] {
        CleanBank(f, bank, fuel);
        LastsNoLess(t, f.t);
        LastsThen(Rooms(t0), Rooms(t), Rooms(f.t), 0, 0, Pass);
        ReadySettled(f);
        CleanedEndures(s, f.View(), bank);
      }
      CleanedStep(t0, t, f.t, busy, bank);
    }
  }

  lemma ReadySettled(f: Ftl)
    requires Ready(f)
    ensures Settled(f.View())
  {
  }

  lemma CleanedEndures(s: St, t: St, bank: nat)
    requires Settled(s) && Settled(t) && ContentOf(t) == ContentOf(s) && t.banks == s.banks && t.blocks == s.blocks
    requires if EmptyVictim(TablesOf(s), bank) then Freed(TablesOf(s), TablesOf(t), bank)
             else TablesOf(t) == TablesOf(s)
    ensures Endures(s) ==> Endures(t)
  {
    hide Inv, Idle, Content, VRoles, EmptyVictim, Freed, Within;
    if EmptyVictim(TablesOf(s), bank) {
      FreedFields(TablesOf(s), TablesOf(t), bank);
    }
    if Endures(s) {
      LessEndures(s, t);
    }
  }

  // ----- one host write -----

  /** The normal branch of ftl_write: page by page, each to the next bank. */
  method WriteSectors(f: Ftl, lba: nat, data: seq<Sector>, fuel: nat) returns (o: Outcome)
    requires Ready(f)
    modifies f
    ensures o.Pass? ==> Ready(f) && Wrote(ContentOf(old(f.View())), ContentOf(f.View()), lba, data)
    ensures o != Fail(UnsafeCollection)
    ensures Lasts(Rooms(old(f.t)), Rooms(f.t), |data|, o)
    ensures 0 < f.banks
      && Shared(Rooms(old(f.t)), Rooms(f.t), old(f.referenceBank), f.referenceBank, f.banks, PageCosts(lba, |data|), o)
    ensures Endures(old(f.View())) && lba + |data| <= 64 * Capacity(f.blocks) ==> o.Pass? && Endures(f.View())
  {
    hide Ready, Content, Wrote, Lasts, Rooms, Pays, Quietly, SentTo, Shared, Endures, PageCosts, ChunksIn, NthBank;
    ghost var c0, rooms0, ref0 := ContentOf(f.View()), Rooms(f.t), f.referenceBank;
    ghost var done0: seq<nat> := [];
    LastsNothing(rooms0);
    ReadyBanks(f);
    SharedNothing(rooms0, ref0, f.banks);
    var lpn: nat, sectOffset: nat, remaining: nat := lba / 64, lba % 64, |data|;
    WroteNothing(c0, lba);
    while remaining != 0
      invariant Ready(f) && remaining <= |data|
      invariant remaining != 0 ==> lpn * 64 + sectOffset == lba + (|data| - remaining) && sectOffset < 64
      invariant Wrote(c0, ContentOf(f.View()), lba, data[..|data| - remaining])
      invariant Lasts(rooms0, Rooms(f.t), |data| - remaining, Pass)
      invariant Shared(rooms0, Rooms(f.t), ref0, f.referenceBank, f.banks, done0, Pass)
      invariant done0 + PageCosts(lba + |data| - remaining, remaining) == PageCosts(lba, |data|)
      invariant Endures(old(f.View())) && lba + |data| <= 64 * Capacity(f.blocks) ==> Endures(f.View())
    {
      var n := if sectOffset + remaining < 64 then remaining else 64 - sectOffset;
      var done := |data| - remaining;
      ReadyBanks(f);
      ghost var s1, c1, rooms1, ref1, w1 := f.View(), ContentOf(f.View()), Rooms(f.t), f.referenceBank, f.g.wiped;
      o := WriteToLogBlk(f, lpn, sectOffset, data[done..done + n], fuel);
      LastsStep(rooms0, rooms1, Rooms(f.t), done, n, |data|, o);
      FirstCost(lpn, sectOffset, remaining, n);
      SentTurn(s1, NthBank(ref1, f.banks, 1), f.View(), f.referenceBank, Touched(lpn, sectOffset, n),
               NthBank(ref1, f.banks, 1), n != 64);
      SharedOnce(rooms1, Rooms(f.t), ref1, f.referenceBank, f.banks, ChunksIn(sectOffset, n), w1, f.g.wiped, o);
      SharedStep(rooms0, rooms1, Rooms(f.t), ref0, ref1, f.referenceBank, f.banks, done0, [ChunksIn(sectOffset, n)],
                 PageCosts(lba + done + n, remaining - n), o);
      CostsSplit(done0, ChunksIn(sectOffset, n), PageCosts(lba + done + n, remaining - n));
      :- o;
      WroteThen(c0, c1, ContentOf(f.View()), lba, data[..done], data[done..done + n]);
      assert data[..done] + data[done..done + n] == data[..done + n];
      done0 := done0 + [ChunksIn(sectOffset, n)];
      sectOffset, remaining, lpn := 0, remaining - n, lpn + 1;
    }
    assert data[..|data|] == data;
    NoCosts(lba + |data|, done0);
    o := Pass;
  }

  lemma ReadyBanks(f: Ftl)
    requires Ready(f)
    ensures 0 < f.banks == |f.t.rwCtrl|
  {
    hide Settled;
    IdleBankHere(f.View(), 0);
  }

  lemma SentTurn(s: St, ref: nat, t: St, ref': nat, ks: set<Key>, bank: nat, inBuffer: bool)
    ensures SentTo(s, ref, t, ref', ks, bank, inBuffer) && t.wiped == s.wiped ==> ref' == ref
  {
  }

  lemma FirstCost(lpn: nat, sectOffset: nat, remaining: nat, n: nat)
    requires 0 < remaining && sectOffset < 64 && n == if sectOffset + remaining < 64 then remaining else 64 - sectOffset
    ensures var a := lpn * 64 + sectOffset;
      n <= remaining && PageCosts(a, remaining) == [ChunksIn(sectOffset, n)] + PageCosts(a + n, remaining - n)
  {
    hide ChunksIn;
    assert (lpn * 64 + sectOffset) % 64 == sectOffset;
  }

  lemma CostsSplit(xs: seq<nat>, c: nat, ys: seq<nat>)
    ensures xs + ([c] + ys) == xs + [c] + ys
  {
  }

  lemma NoCosts(lba: nat, xs: seq<nat>)
    ensures xs + PageCosts(lba, 0) == xs
  {
  }

  /** The overwrite branch of ftl_write. */
  method OverwriteSectors(f: Ftl, lba: nat, data: seq<Sector>, fuel: nat) returns (o: Outcome)
    requires Ready(f)
    modifies f
    ensures o.Pass? ==> Ready(f) && Overwrote(ContentOf(old(f.View())), ContentOf(f.View()), lba, data)
    ensures Lasts(Rooms(old(f.t)), Rooms(f.t), 1016 * |data|, o)
  {
    hide Settled, Sys, Content, Wrote, Burned, Overwrote, Lasts, Rooms, OverwriteRisky;
    ghost var c0, rooms0 := ContentOf(f.View()), Rooms(f.t);
    LastsNothing(rooms0);
    var lpn: nat, sectOffset: nat, remaining: nat := lba / 64, lba % 64, |data|;
    WroteNothing(c0, lba);
    EitherOverwrote(c0, c0, lba, []);
    while remaining != 0
      invariant Ready(f) && remaining <= |data|
      invariant remaining != 0 ==> lpn * 64 + sectOffset == lba + (|data| - remaining) && sectOffset < 64
      invariant Overwrote(c0, ContentOf(f.View()), lba, data[..|data| - remaining])
      invariant Lasts(rooms0, Rooms(f.t), 1016 * (|data| - remaining), Pass)
    {
      var n := if sectOffset + remaining < 64 then remaining else 64 - sectOffset;
      var done := |data| - remaining;
      ghost var c1, rooms1 := ContentOf(f.View()), Rooms(f.t);
      var risky;
      o, risky := OverwriteToLogBlk(f, lpn, sectOffset, data[done..done + n], fuel);
      LastsStep(rooms0, rooms1, Rooms(f.t), 1016 * done, 1016 * n, 1016 * |data|, o);
      :- o;
      OverwroteThen(c0, c1, ContentOf(f.View()), lba, data[..done], data[done..done + n]);
      assert data[..done] + data[done..done + n] == data[..done + n];
      sectOffset, remaining, lpn := 0, remaining - n, lpn + 1;
    }
    assert data[..|data|] == data;
    o := Pass;
  }

  /** The overwrite request bit of a host address, and the address without it and what is above it. */
  predicate OverwriteBit(lba: nat, bit: nat)
    requires 0 < bit
  {
    lba / bit % 2 == 1
  }

  function Masked(lba: nat, bit: nat): nat
    requires 0 < bit
  {
    lba % bit
  }

  /** An address below the bit survives being marked for overwrite and decoded again. */
  lemma MarkRoundTrip(lba: nat, bit: nat)
    requires lba < bit
    ensures !OverwriteBit(lba, bit) && OverwriteBit(lba + bit, bit)
    ensures Masked(lba, bit) == lba && Masked(lba + bit, bit) == lba
  {
    assert (lba + bit) / bit == 1 && (lba + bit) % bit == lba && lba / bit == 0 by { DivSmall(lba, bit); }
  }

  lemma DivSmall(a: nat, b: nat)
    requires a < b
    ensures a / b == 0 && a % b == a && (a + b) / b == 1 && (a + b) % b == a
  {
  }

  /** State `t` is what background cleaning makes of `s`. */
  ghost predicate CleanedFrom(s: St, t: St, busy: seq<bool>) {
    Settled(s) && ContentOf(t) == ContentOf(s) && Cleaned(TablesOf(s), TablesOf(t), busy)
  }

  /** ftl_write: the overwrite bit selects the branch; both end with background cleaning, in the state `mid`.
      The normal branch does not mask the address. */
  method FtlWrite(f: Ftl, lba: nat, data: seq<Sector>, bit: nat, busy: seq<bool>, fuel: nat)
    returns (o: Outcome, ghost mid: St)
    requires Ready(f) && |busy| == f.banks && 0 < bit
    modifies f
    ensures o.Pass? ==> Ready(f)
    ensures o.Pass? && !OverwriteBit(lba, bit) ==> Wrote(ContentOf(old(f.View())), ContentOf(f.View()), lba, data)
    ensures o.Pass? && OverwriteBit(lba, bit) ==>
      Overwrote(ContentOf(old(f.View())), ContentOf(f.View()), Masked(lba, bit), data)
    ensures o.Pass? ==> CleanedFrom(mid, f.View(), busy)
    ensures Lasts(Rooms(old(f.t)), Rooms(f.t), if OverwriteBit(lba, bit) then 1016 * |data| else |data|, o)
    ensures !OverwriteBit(lba, bit) && 0 < f.banks ==>
      Shared(Rooms(old(f.t)), Rooms(f.t), old(f.referenceBank), f.referenceBank, f.banks, PageCosts(lba, |data|), o)
    ensures !OverwriteBit(lba, bit) && Endures(old(f.View())) && lba + |data| <= 64 * Capacity(f.blocks) ==>
      o.Pass? && Endures(f.View())
    ensures !OverwriteBit(lba, bit) ==> o != Fail(UnsafeCollection)
  {
    hide Settled, Content, Wrote, Overwrote, OverwriteBit, Lasts, Rooms, Shared, Endures, PageCosts, Cleaned, Capacity;
    ghost var cost: nat := if OverwriteBit(lba, bit) then 1016 * |data| else |data|;
    mid := f.View();
    if !OverwriteBit(lba, bit) {
      o := WriteSectors(f, lba, data, fuel);
      :- o;
    } else {
      o := OverwriteSectors(f, Masked(lba, bit), data, fuel);
      :- o;
    }
    mid := f.View();
    ghost var rooms1, ref1 := Rooms(f.t), f.referenceBank;
    BackgroundCleaning(f, busy, fuel);
    LastsThen(Rooms(old(f.t)), rooms1, Rooms(f.t), cost, 0, Pass);
    ReadyBanks(f);
    SharedFree(rooms1, Rooms(f.t), ref1, f.banks);
    if !OverwriteBit(lba, bit) {
      SharedThen(Rooms(old(f.t)), rooms1, Rooms(f.t), old(f.referenceBank), ref1, ref1, f.banks,
                 PageCosts(lba, |data|), [], Pass);
      assert PageCosts(lba, |data|) + [] == PageCosts(lba, |data|);
    }
  }
}
