/** A device with one bank on which nothing was ever overwritten in place: it never runs out of blocks. */
module Endurance {
  import opened Base
  import opened State
  import opened Steps
  import opened FtlTables
  import opened Measure
  import opened VictimFrame
  import opened Internal
  import opened Sealing
  import opened Collecting
  import opened Room
  import opened Victims

  /** The host pages that one bank of `blocks` blocks can serve for ever: 126 for each block but one. */
  function Capacity(blocks: nat): nat {
    if blocks == 0 then 0 else 126 * (blocks - 1)
  }

  ghost predicate Within(c: map<Key, Chunk>, pages: nat) {
    forall k | k in c :: k.lpn < pages && k.idx < 8
  }

  /** One bank, no overwrite block, a clean block, and no more data than the bank can serve. */
  ghost predicate Endures(s: St) {
    && s.banks == 1 && 2 <= s.blocks
    && |s.ow| == 1 && s.ow[0].OwClosed? && s.oIn == {} && VRoles(s.role) == map[]
    && |s.clean| == 1 && s.clean[0] != []
    && Within(ContentOf(s), Capacity(s.blocks))
  }

  /** The same where a collection may start: no chunk only in RAM, no count owed. */
  ghost predicate EnduresFree(s: St, nest: seq<nat>) {
    Endures(s) && s.held == map[] && s.debt.amount == 0 && |nest| == 1 && nest[0] < 2
  }

  /** The same while the only such chunk is about to be put away. */
  ghost predicate EnduresBut(s: St, nest: seq<nat>, k: Key) {
    Endures(s) && s.held - {k} == map[] && s.debt.amount == 0 && |nest| == 1 && nest[0] < 2
  }

  lemma PutEndures(s: St, t: St, nest: seq<nat>, k: Key)
    requires t.clean == s.clean && Moved(s, t, Frm(s), s.held - {k}, Stale(s.cmap, s.held) - {k})
    ensures EnduresBut(s, nest, k) ==> EnduresFree(t, nest)
  {
    hide Content, Stale, Slack, VRoles, Within;
    assert Frm(t).roles == Frm(s).roles;
  }

  lemma StepEndures(s: St, t: St, u: St, nest: seq<nat>)
    requires Kept(s, u) && u.clean == t.clean
    ensures EnduresFree(s, nest) && Endures(t) ==> EnduresFree(u, nest)
  {
    hide Content, Stale, Slack, VRoles, Within, Kept;
    if EnduresFree(s, nest) && Endures(t) {
      KeptEndures(s, u);
    }
  }

  lemma KeptEndures(s: St, t: St)
    requires Endures(s) && Kept(s, t) && |t.clean| == 1 && t.clean[0] != []
    ensures Endures(t) && t.held == s.held && t.debt == s.debt
  {
    hide Content, Stale, Slack, VRoles, Within;
    assert Frm(t).roles == Frm(s).roles;
  }

  /** Fewer chunks, the same blocks. */
  lemma LessEndures(s: St, t: St)
    requires Endures(s) && VRoles(t.role) == map[] && t.banks == s.banks && t.blocks == s.blocks && t.ow == s.ow
      && t.oIn == s.oIn && |t.clean| == 1 && t.clean[0] != [] && ContentOf(t).Keys <= ContentOf(s).Keys
    ensures Endures(t)
  {
    hide Content, VRoles;
  }

  // ----- counting -----

  lemma {:induction false} WithinCount(ks: set<Key>, pages: nat)
    requires forall k | k in ks :: k.lpn < pages && k.idx < 8
    ensures |ks| <= 8 * pages
  {
    if pages == 0 {
      assert ks == {};
    } else {
      var last := set k | k in ks && k.lpn == pages - 1;
      WithinCount(ks - last, pages - 1);
      OnePageCount(last, pages - 1);
      assert ks == (ks - last) + last;
    }
  }

  lemma OnePageCount(ks: set<Key>, lpn: nat)
    requires forall k | k in ks :: k.lpn == lpn && k.idx < 8
    ensures |ks| <= 8
  {
    var all := {Key(lpn, 0), Key(lpn, 1), Key(lpn, 2), Key(lpn, 3), Key(lpn, 4), Key(lpn, 5), Key(lpn, 6), Key(lpn, 7)};
    assert ks <= all;
    SubsetCount(ks, all);
  }

  /** The chunks in the first `n` blocks of bank 0. */
  ghost function KeysBelow(m: map<Key, Loc>, n: nat): set<Key> {
    set k | k in m && m[k].page.Pg? && m[k].page.bank == 0 && m[k].page.lbn < n
  }

  /** If each of `n` blocks but one holds more than 1008 chunks, so do they on average. */
  lemma {:induction false} ManyChunks(m: map<Key, Loc>, n: nat, but: nat)
    requires forall l: nat | l < n && l != but :: |KeysIn(m, Blk(0, l))| > 1008
    ensures |KeysBelow(m, n)| >= 1009 * if but < n then n - 1 else n
  {
    if n > 0 {
      ManyChunks(m, n - 1, but);
      assert KeysBelow(m, n) == KeysBelow(m, n - 1) + KeysIn(m, Blk(0, n - 1));
    }
  }

  /** Some full block has at least eight dead slots. */
  lemma CheapFull(s: St)
    requires Inv(s) && Endures(s) && s.held == map[]
    requires forall l: nat | l < s.blocks && l != s.clean[0][0] :: Blk(0, l) in s.wIn
    ensures exists v :: v in s.wIn && |VMap(s.live, v)| <= 1008
  {
    hide Inv, VMap, KeysIn, VRoles;
    if forall v | v in s.wIn :: |VMap(s.live, v)| > 1008 {
      var c := s.clean[0][0];
      forall l: nat | l < s.blocks && l != c ensures |KeysIn(s.live, Blk(0, l))| > 1008 {
        VMapKeys(s.live, Blk(0, l));
      }
      ManyChunks(s.live, s.blocks, c);
      FirstCleanInRange(s);
      SubsetCount(KeysBelow(s.live, s.blocks), s.live.Keys);
      ContentKeys(s.live, s.held, s.logBuf, s.owBuf, s.flash);
      WithinCount(s.live.Keys, Capacity(s.blocks));
      assert false;
    }
  }

  lemma FirstCleanInRange(s: St)
    requires Inv(s) && |s.clean| == 1 && s.clean[0] != []
    ensures s.clean[0][0] < s.blocks
  {
    CleanFacts(s, 0);
  }

  // ----- the bank's blocks -----

  /** With the RW block closed every block is clean or a full RW block. */
  lemma CleanOrFull(s: St, l: nat)
    requires Inv(s) && Endures(s) && |s.rw| == 1 && s.rw[0].Closed? && l < s.blocks
    ensures l in s.clean[0] || Blk(0, l) in s.wIn
  {
    hide BufShape, ListShape, MapOK, StaleOK, DramOK, FlashOK, Inj, WCounts, OCounts, Erased, ListPages, Budget,
         TraceOK, Content, Within;
    var blk := Blk(0, l);
    assert blk in s.role;
    assert !IsVictim(s.role, blk) by { assert IsVictim(s.role, blk) ==> blk in VRoles(s.role); }
  }

  /** Between two steps the bank without an open RW block has no full one either. */
  lemma TwoCleanLeft(s: St)
    requires Calm(s) && Endures(s) && |s.rw| == 1 && s.rw[0].Closed?
    ensures 2 <= |s.clean[0]|
  {
    hide Inv, Content, Within, VRoles;
    CleanOrFull(s, 0);
    CleanOrFull(s, 1);
    assert 0 in s.clean[0] && 1 in s.clean[0];
    TwoIn(s.clean[0]);
  }

  lemma TwoIn(q: seq<nat>)
    requires 0 in q && 1 in q
    ensures 2 <= |q|
  {
  }

  lemma {:induction false} CheapestExists(s: St, v: Blk, bank: nat)
    requires v.bank == bank && (v in s.wIn || v in s.oIn)
    ensures exists w ::
      Cheapest(s, w, bank) && |VMap(s.live, w)| + Owed(s.debt, w) <= |VMap(s.live, v)| + Owed(s.debt, v)
    decreases |VMap(s.live, v)| + Owed(s.debt, v)
  {
    hide VMap, Owed;
    if !Cheapest(s, v, bank) {
      var m :| (m in s.wIn || m in s.oIn) && m.bank == bank
        && |VMap(s.live, m)| + Owed(s.debt, m) < |VMap(s.live, v)| + Owed(s.debt, v);
      CheapestExists(s, m, bank);
    }
  }

  lemma NotSaturated(s: St, v: Blk, bank: nat)
    requires Inv(s) && v in s.wIn && v.bank == bank && |VMap(s.live, v)| <= 1008
    ensures v in s.wCount && !Saturated(TablesOf(s), bank)
  {
    hide BufShape, RoleShape, ListShape, MapOK, StaleOK, DramOK, FlashOK, Inj, OCounts, CleanOK, RwOK, OwOK, Erased,
         ListPages, Budget, TraceOK, VMap, KeysIn;
    VMapKeys(s.live, v);
    assert s.role[v].FullRw? && v in s.wCount;
  }

  lemma NothingTripped(s: St, bank: nat)
    requires s.held == map[] && s.debt.amount == 0
    ensures Clear(s, bank)
  {
  }

  /** A bank that has just closed its RW block and has one clean block left can win one back. */
  lemma EnduresRefills(s: St, nest: seq<nat>, fuel: nat)
    requires Inv(s) && EnduresFree(s, nest) && |s.rw| == 1 && s.rw[0].Closed? && |s.clean[0]| == 1
    ensures Refills(s, nest, 0, fuel)
  {
    hide Inv, VMap, VRoles, Saturated, Content, Within, Cheapest, Clear;
    forall l: nat | l < s.blocks && l != s.clean[0][0] ensures Blk(0, l) in s.wIn {
      CleanOrFull(s, l);
    }
    CheapFull(s);
    var v :| v in s.wIn && |VMap(s.live, v)| <= 1008;
    FullIsHere(s, v);
    NotSaturated(s, v, 0);
    NothingTripped(s, 0);
    CheapestExists(s, v, 0);
    var w :| Cheapest(s, w, 0) && |VMap(s.live, w)| + Owed(s.debt, w) <= |VMap(s.live, v)| + Owed(s.debt, v);
    BankFacts(s, 0);
    BufferAt(s, 0);
    assert RoomBeside(TablesOf(s), 0, |VMap(s.live, w)|);
    assert v in TablesOf(s).writeHeap + TablesOf(s).owHeap;
  }

  lemma FullIsHere(s: St, v: Blk)
    requires Inv(s) && s.banks == 1 && v in s.wIn
    ensures v.bank == 0
  {
    MemberFacts(s, v);
  }

  lemma BufferAt(s: St, b: nat)
    requires Inv(s) && b < s.banks
    ensures b < |s.ptr| && s.ptr[b] <= 7
  {
    BankFacts(s, b);
  }

  // ----- one page more -----

  /** The next page always finds a block. */
  lemma IncreaseEndures(s: St, t: St, bank: nat, o: Outcome, owing: Option<Blk>, nest: seq<nat>, fuel: nat)
    requires ProgrammedAt(s, bank)
    requires OnePage(TablesOf(s), TablesOf(t), bank, o) && BlockReplaced(s, t, bank, o, owing, nest, fuel)
    requires s.rw[bank].page != 126 ==> o.Pass? && t.clean == s.clean
    requires o.Pass? ==> Kept(s, t) && Idle(t)
    ensures EnduresFree(s, nest) ==> o.Pass? && Endures(t)
  {
    hide Inv, FillsBut, RwReady, Content, Within, Refills, NextBlock, Kept, OnePage, VRoles;
    if EnduresFree(s, nest) {
      BankFacts(s, 0);
      if s.rw[0].page == 126 {
        CloseEndures(s, nest, fuel);
        PagePasses(TablesOf(s), TablesOf(t), 0, o);
      }
      KeptBanks(s, t);
      BankFacts(t, 0);
      KeptEndures(s, t);
    }
  }

  lemma CloseEndures(s: St, nest: seq<nat>, fuel: nat)
    requires ProgrammedAt(s, 0) && EnduresFree(s, nest) && s.rw[0].page == 126 && |s.rwList| == 1 && |s.clean| == 1
    ensures |s.clean[0]| == 1 ==> Refills(CloseRw(s, 0), nest, 0, fuel)
    ensures |s.clean[0]| != 1 ==> 1 <= PagesAt(TablesOf(s), 0)
  {
    hide Inv, FillsBut, RwReady, Content, Within, Refills, Kept, VRoles;
    BankFacts(s, 0);
    if |s.clean[0]| == 1 {
      var m := CloseRw(s, 0);
      CloseKept(s, 0);
      KeptEndures(s, m);
      BankFacts(m, 0);
      EnduresRefills(m, nest, fuel);
    } else {
      PageThere(s);
    }
  }

  lemma KeptBanks(s: St, t: St)
    requires Kept(s, t)
    ensures t.banks == s.banks
  {
    hide Content, Stale, Slack, FrameOf;
  }

  lemma PageThere(s: St)
    requires |s.rw| == 1 && s.rw[0].Open? && |s.clean| == 1 && 2 <= |s.clean[0]|
    ensures 1 <= PagesAt(TablesOf(s), 0)
  {
  }

  /** An RW block is always found without a collection. */
  lemma GetEndures(s: St, t: St, bank: nat, o: Outcome, owing: Option<Blk>)
    requires Calm(s) && bank < s.banks && bank < |s.rw|
    requires 1 <= PagesAt(TablesOf(s), bank) || s.rw[bank].Open? ==> o.Pass?
    requires o.Pass? ==> GotRw(TablesOf(s), TablesOf(t), bank, owing) && Kept(s, t) && Calm(t)
    ensures Endures(s) ==> o.Pass? && Endures(t)
  {
    hide Inv, RwReady, Content, Within, Kept, VRoles;
    if Endures(s) {
      BankFacts(s, 0);
      if s.rw[0].Closed? {
        TwoCleanLeft(s);
      }
      KeptBanks(s, t);
      BankFacts(t, 0);
      KeptEndures(s, t);
    }
  }
}
