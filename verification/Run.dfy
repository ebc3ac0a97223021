/** Whole runs: any sequence of host commands behaves as on a flat array of sectors. */
module Run {
  import opened Base
  import opened State
  import opened FtlTables
  import opened Log
  import opened Room
  import opened Victims
  import opened Endurance
  import opened Shares
  import opened Write
  import opened Read
  import opened Trim
  import opened Overwrite
  import opened Host

  datatype Command =
    | WriteCmd(lba: nat, data: seq<Sector>)
    | ReadCmd(lba: nat, n: nat)
    | TrimCmd(ranges: seq<Range>)

  /** The reference device: one sector per address, 0xFF where nothing was written. */
  type Device = nat -> Sector

  ghost function BlankDevice(): Device {
    (x: nat) => BlankSector()
  }

  ghost function Replaced(d: Device, lba: nat, data: seq<Sector>): Device {
    (x: nat) => if lba <= x < lba + |data| then data[x - lba] else d(x)
  }

  ghost function Anded(d: Device, lba: nat, data: seq<Sector>): Device {
    (x: nat) => if lba <= x < lba + |data| then AndSector(d(x), data[x - lba]) else d(x)
  }

  /** Only chunks, eight aligned sectors, that lie fully in the range are trimmed. */
  ghost function Blanked(d: Device, lba: nat, n: nat): Device {
    (x: nat) => if lba <= x / 8 * 8 && x / 8 * 8 + 8 <= lba + n then BlankSector() else d(x)
  }

  ghost function BlankedAll(d: Device, ranges: seq<Range>, capacity: nat): Device {
    if ranges == [] then d
    else if ranges[|ranges| - 1].n != 0 && ranges[|ranges| - 1].lba < capacity
    then Blanked(BlankedAll(d, ranges[..|ranges| - 1], capacity), ranges[|ranges| - 1].lba, ranges[|ranges| - 1].n)
    else BlankedAll(d, ranges[..|ranges| - 1], capacity)
  }

  /** One command on the reference device; `bit` marks the addresses of overwrites. */
  ghost function Step(d: Device, cmd: Command, bit: nat, capacity: nat): Device
    requires 0 < bit
  {
    match cmd
    case WriteCmd(lba, data) =>
      if OverwriteBit(lba, bit) then Anded(d, Masked(lba, bit), data) else Replaced(d, lba, data)
    case ReadCmd(_, _) => d
    case TrimCmd(ranges) => BlankedAll(d, ranges, capacity)
  }

  ghost function After(d: Device, cmds: seq<Command>, bit: nat, capacity: nat): Device
    requires 0 < bit
  {
    if cmds == [] then d else Step(After(d, cmds[..|cmds| - 1], bit, capacity), cmds[|cmds| - 1], bit, capacity)
  }

  ghost function Fetched(d: Device, lba: nat, n: nat): seq<Sector> {
    seq(n, i requires 0 <= i < n => d(lba + i))
  }

  /** What each command returns: the sectors of a read, nothing otherwise. */
  ghost function Answers(d: Device, cmds: seq<Command>, bit: nat, capacity: nat): seq<seq<Sector>>
    requires 0 < bit
  {
    if cmds == [] then []
    else
      Answers(d, cmds[..|cmds| - 1], bit, capacity)
      + [Answer(After(d, cmds[..|cmds| - 1], bit, capacity), cmds[|cmds| - 1], bit)]
  }

  ghost function Answer(d: Device, cmd: Command, bit: nat): seq<Sector>
    requires 0 < bit
  {
    if cmd.ReadCmd? then Fetched(d, Masked(cmd.lba, bit), cmd.n) else []
  }

  /** Every overwrite of the run only clears bits of what the device holds at that time. */
  ghost predicate HostOnlyClears(d: Device, cmds: seq<Command>, bit: nat, capacity: nat)
    requires 0 < bit
  {
    cmds == [] || (
      && HostOnlyClears(d, cmds[..|cmds| - 1], bit, capacity)
      && ClearsAt(After(d, cmds[..|cmds| - 1], bit, capacity), cmds[|cmds| - 1], bit))
  }

  ghost predicate ClearsAt(d: Device, cmd: Command, bit: nat)
    requires 0 < bit
  {
    cmd.WriteCmd? && OverwriteBit(cmd.lba, bit) ==>
      forall i | 0 <= i < |cmd.data| :: AndSector(d(Masked(cmd.lba, bit) + i), cmd.data[i]) == cmd.data[i]
  }

  /** What a command may cost: a chunk for each sector written, a block's worth of chunks for each sector
      overwritten. */
  function CostOf(cmd: Command, bit: nat): nat
    requires 0 < bit
  {
    if !cmd.WriteCmd? then 0 else if OverwriteBit(cmd.lba, bit) then 1016 * |cmd.data| else |cmd.data|
  }

  function Cost(cmds: seq<Command>, bit: nat): nat
    requires 0 < bit
  {
    if cmds == [] then 0 else Cost(cmds[..|cmds| - 1], bit) + CostOf(cmds[|cmds| - 1], bit)
  }

  lemma {:induction false} CostUpto(cmds: seq<Command>, bit: nat, i: nat)
    requires i <= |cmds| && 0 < bit
    ensures Cost(cmds[..i], bit) <= Cost(cmds, bit)
    decreases |cmds| - i
  {
    if i < |cmds| {
      assert cmds[..i + 1][..i] == cmds[..i];
      CostUpto(cmds, bit, i + 1);
    } else {
      assert cmds[..i] == cmds;
    }
  }

  /** A command without the overwrite bit. */
  predicate Plain(cmd: Command, bit: nat)
    requires 0 < bit
  {
    cmd.WriteCmd? ==> !OverwriteBit(cmd.lba, bit)
  }

  predicate AllPlain(cmds: seq<Command>, bit: nat)
    requires 0 < bit
  {
    forall i | 0 <= i < |cmds| :: Plain(cmds[i], bit)
  }

  /** What such a command, or run, costs page by page. */
  function PageCostsOf(cmd: Command): seq<nat> {
    if cmd.WriteCmd? then PageCosts(cmd.lba, |cmd.data|) else []
  }

  function AllPageCosts(cmds: seq<Command>): seq<nat> {
    if cmds == [] then [] else AllPageCosts(cmds[..|cmds| - 1]) + PageCostsOf(cmds[|cmds| - 1])
  }

  /** It writes only to pages that one bank of `blocks` blocks can serve for ever. */
  predicate FitsBlocks(cmd: Command, blocks: nat) {
    cmd.WriteCmd? ==> cmd.lba + |cmd.data| <= 64 * Capacity(blocks)
  }

  predicate AllFit(cmds: seq<Command>, blocks: nat) {
    forall i | 0 <= i < |cmds| :: FitsBlocks(cmds[i], blocks)
  }

  /** Of pages written in turn from format on, each bank takes fewer than `n` chunks. */
  predicate EachBelow(banks: nat, costs: seq<nat>, n: nat)
    requires 0 < banks
  {
    forall b | 0 <= b < banks :: Share(0, banks, costs, b) < n
  }

  /** What the run costs from its `i`th command on. */
  lemma {:induction false} CostsFrom(cmds: seq<Command>, i: nat) returns (rest: seq<nat>)
    requires i <= |cmds|
    ensures AllPageCosts(cmds[..i]) + rest == AllPageCosts(cmds)
    decreases |cmds| - i
  {
    hide PageCostsOf;
    if i < |cmds| {
      assert cmds[..i + 1][..i] == cmds[..i];
      rest := CostsFrom(cmds, i + 1);
      Regroup(AllPageCosts(cmds[..i]), PageCostsOf(cmds[i]), rest);
      rest := PageCostsOf(cmds[i]) + rest;
    } else {
      assert cmds[..i] == cmds;
      rest := [];
    }
  }

  lemma Regroup(xs: seq<nat>, ys: seq<nat>, zs: seq<nat>)
    ensures xs + (ys + zs) == xs + ys + zs
  {
  }

  /** One command more of a run without the overwrite bit. */
  lemma SharedCommand(before: seq<Space>, mid: seq<Space>, after: seq<Space>, ref: nat, ref': nat, ref'': nat,
                      banks: nat, cmds: seq<Command>, i: nat, o: Outcome)
    requires 0 < banks && i < |cmds|
    requires Shared(before, mid, ref, ref', banks, AllPageCosts(cmds[..i]), Pass)
    requires Shared(mid, after, ref', ref'', banks, PageCostsOf(cmds[i]), o)
    ensures Shared(before, after, ref, ref'', banks, AllPageCosts(cmds[..i + 1]), o)
    ensures o.Fail? ==> Shared(before, after, ref, ref'', banks, AllPageCosts(cmds), o)
  {
    hide Shared, PageCostsOf;
    assert cmds[..i + 1][..i] == cmds[..i];
    var rest := CostsFrom(cmds, i + 1);
    SharedStep(before, mid, after, ref, ref', ref'', banks, AllPageCosts(cmds[..i]), PageCostsOf(cmds[i]), rest, o);
  }

  ghost predicate Agrees(d: Device, c: map<Key, Chunk>) {
    forall x: nat :: SectorAt(c, x) == d(x)
  }

  lemma ReplacedAgrees(d: Device, c: map<Key, Chunk>, c': map<Key, Chunk>, lba: nat, data: seq<Sector>)
    requires Agrees(d, c) && Wrote(c, c', lba, data)
    ensures Agrees(Replaced(d, lba, data), c')
  {
    hide SectorAt;
  }

  lemma AndedAgrees(d: Device, c: map<Key, Chunk>, c': map<Key, Chunk>, lba: nat, data: seq<Sector>)
    requires Agrees(d, c) && Overwrote(c, c', lba, data)
    requires forall i | 0 <= i < |data| :: AndSector(d(lba + i), data[i]) == data[i]
    ensures Agrees(Anded(d, lba, data), c')
  {
    hide SectorAt, AndSector;
    assert OnlyClears(c, lba, data);
    ClearingIsExact(c, c', lba, data);
  }

  lemma BlankedAgrees(d: Device, c: map<Key, Chunk>, lba: nat, n: nat)
    requires Agrees(d, c)
    ensures Agrees(Blanked(d, lba, n), Trimmed(c, lba, n))
  {
    hide SectorAt, BlankSector, Trimmed;
    forall x: nat ensures SectorAt(Trimmed(c, lba, n), x) == Blanked(d, lba, n)(x) {
      TrimmedSector(c, lba, n, x);
    }
  }

  lemma {:induction false} BlankedAllAgrees(d: Device, c: map<Key, Chunk>, ranges: seq<Range>, capacity: nat)
    requires Agrees(d, c)
    ensures Agrees(BlankedAll(d, ranges, capacity), TrimmedAll(c, ranges, capacity))
  {
    hide Agrees, Trimmed, Blanked;
    if ranges != [] {
      BlankedAllAgrees(d, c, ranges[..|ranges| - 1], capacity);
      BlankedAgrees(BlankedAll(d, ranges[..|ranges| - 1], capacity), TrimmedAll(c, ranges[..|ranges| - 1], capacity),
                    ranges[|ranges| - 1].lba, ranges[|ranges| - 1].n);
    }
  }

  lemma ReadAgrees(d: Device, c: map<Key, Chunk>, lba: nat, out: seq<Sector>)
    requires Agrees(d, c) && Reads(c, lba, out)
    ensures out == Fetched(d, lba, |out|)
  {
    hide SectorAt;
  }

  lemma {:induction false} TrimmedAllLess(c: map<Key, Chunk>, ranges: seq<Range>, capacity: nat)
    ensures TrimmedAll(c, ranges, capacity).Keys <= c.Keys
  {
    if ranges != [] {
      TrimmedAllLess(c, ranges[..|ranges| - 1], capacity);
    }
  }

  lemma TrimEndures(s: St, t: St, ranges: seq<Range>, capacity: nat)
    requires Settled(t) && t.banks == s.banks && t.blocks == s.blocks && SameBlocks(TablesOf(s), TablesOf(t))
      && ContentOf(t) == TrimmedAll(ContentOf(s), ranges, capacity)
    ensures Endures(s) ==> Endures(t)
  {
    hide Content, Within, TrimmedAll;
    TrimmedAllLess(ContentOf(s), ranges, capacity);
    if Endures(s) {
      LessEndures(s, t);
    }
  }

  /** One host command. */
  method Execute(f: Ftl, cmd: Command, bit: nat, capacity: nat, busy: seq<bool>, fuel: nat, ftlBuf: seq<Chunk>,
                 ghost d: Device)
    returns (o: Outcome, answer: seq<Sector>, buf: seq<Chunk>)
    requires Ready(f) && |busy| == f.banks && 0 < bit && |ftlBuf| == 8
    modifies f
    ensures o.Pass? ==> Ready(f) && |buf| == 8
    ensures o.Pass? && Agrees(d, ContentOf(old(f.View()))) && ClearsAt(d, cmd, bit) ==>
      answer == Answer(d, cmd, bit) && Agrees(Step(d, cmd, bit, capacity), ContentOf(f.View()))
    ensures Lasts(Rooms(old(f.t)), Rooms(f.t), CostOf(cmd, bit), o)
    ensures 0 < f.banks && Plain(cmd, bit) ==>
      Shared(Rooms(old(f.t)), Rooms(f.t), old(f.referenceBank), f.referenceBank, f.banks, PageCostsOf(cmd), o)
    ensures Plain(cmd, bit) && FitsBlocks(cmd, f.blocks) && Endures(old(f.View())) ==> o.Pass? && Endures(f.View())
    ensures o.Pass? && cmd.WriteCmd? ==> exists mid :: CleanedFrom(mid, f.View(), busy)
  {
    hide Settled, Content, Wrote, Overwrote, Agrees, OverwriteBit, Replaced, Anded, BlankedAll, TrimmedAll, Reads,
         Fetched, Lasts, Rooms, Shared, Endures, PageCosts, CleanedFrom, Capacity, SameBlocks;
    answer, buf := [], ftlBuf;
    LastsNothing(Rooms(f.t));
    ReadyBanks(f);
    SharedNothing(Rooms(f.t), f.referenceBank, f.banks);
    ghost var s, c := f.View(), ContentOf(f.View());
    match cmd {
      case WriteCmd(lba, data) =>
        ghost var mid;
        o, mid := FtlWrite(f, lba, data, bit, busy, fuel);
        :- o;
        if Agrees(d, c) && ClearsAt(d, cmd, bit) {
          if OverwriteBit(lba, bit) {
            AndedAgrees(d, c, ContentOf(f.View()), Masked(lba, bit), data);
          } else {
            ReplacedAgrees(d, c, ContentOf(f.View()), lba, data);
          }
        }
      case ReadCmd(lba, n) =>
        answer, buf := FtlRead(f, Masked(lba, bit), n, ftlBuf);
        if Agrees(d, c) {
          ReadAgrees(d, c, Masked(lba, bit), answer);
        }
      case TrimCmd(ranges) =>
        FtlTrim(f, ranges, capacity);
        TrimEndures(s, f.View(), ranges, capacity);
        if Agrees(d, c) {
          BlankedAllAgrees(d, c, ranges, capacity);
        }
    }
    o := Pass;
  }

  /** Any run from any ready state: each read returns what the reference device holds. */
  method RunAll(f: Ftl, cmds: seq<Command>, bit: nat, capacity: nat, busy: seq<seq<bool>>, fuel: nat, ghost d: Device)
    returns (o: Outcome, answers: seq<seq<Sector>>)
    requires Ready(f) && 0 < bit && |busy| == |cmds| && forall i | 0 <= i < |busy| :: |busy[i]| == f.banks
    modifies f
    ensures o.Pass? ==> Ready(f)
    ensures o.Pass? && Agrees(d, ContentOf(old(f.View()))) && HostOnlyClears(d, cmds, bit, capacity) ==>
      answers == Answers(d, cmds, bit, capacity) && Agrees(After(d, cmds, bit, capacity), ContentOf(f.View()))
    ensures Lasts(Rooms(old(f.t)), Rooms(f.t), Cost(cmds, bit), o)
    ensures 0 < f.banks && AllPlain(cmds, bit) ==>
      Shared(Rooms(old(f.t)), Rooms(f.t), old(f.referenceBank), f.referenceBank, f.banks, AllPageCosts(cmds), o)
    ensures AllPlain(cmds, bit) && AllFit(cmds, f.blocks) && Endures(old(f.View())) ==> o.Pass? && Endures(f.View())
  {
    hide Ready, Content, Agrees, Step, Answer, ClearsAt, Lasts, Rooms, Shared, Endures, Plain, FitsBlocks, PageCostsOf,
         CleanedFrom;
    answers := [];
    LastsNothing(Rooms(f.t));
    ReadyBanks(f);
    SharedNothing(Rooms(f.t), f.referenceBank, f.banks);
    var buf: seq<Chunk> := seq(8, _ => BlankChunk());
    for i := 0 to |cmds|
      invariant Ready(f) && |buf| == 8 && Lasts(Rooms(old(f.t)), Rooms(f.t), Cost(cmds[..i], bit), Pass)
      invariant Agrees(d, ContentOf(old(f.View()))) && HostOnlyClears(d, cmds[..i], bit, capacity) ==>
        answers == Answers(d, cmds[..i], bit, capacity)
          && Agrees(After(d, cmds[..i], bit, capacity), ContentOf(f.View()))
      invariant AllPlain(cmds, bit) ==>
        Shared(Rooms(old(f.t)), Rooms(f.t), old(f.referenceBank), f.referenceBank, f.banks, AllPageCosts(cmds[..i]),
               Pass)
      invariant AllPlain(cmds, bit) && AllFit(cmds, f.blocks) && Endures(old(f.View())) ==> Endures(f.View())
    {
      assert cmds[..i + 1][..i] == cmds[..i];
      ghost var rooms, ref := Rooms(f.t), f.referenceBank;
      var answer;
      o, answer, buf := Execute(f, cmds[i], bit, capacity, busy[i], fuel, buf, After(d, cmds[..i], bit, capacity));
      CostUpto(cmds, bit, i + 1);
      LastsStep(Rooms(old(f.t)), rooms, Rooms(f.t), Cost(cmds[..i], bit), CostOf(cmds[i], bit), Cost(cmds, bit), o);
      if AllPlain(cmds, bit) {
        SharedCommand(Rooms(old(f.t)), rooms, Rooms(f.t), old(f.referenceBank), ref, f.referenceBank, f.banks, cmds, i,
                      o);
      }
      :- o;
      answers := answers + [answer];
    }
    assert cmds[..|cmds|] == cmds;
    o := Pass;
  }

  /** From format on: every run that completes, of a host that overwrites only to clear bits,
      reads exactly what a flat device would return.  A run completes when it costs less than the slots
      of all but one block of a bank; without overwrites, when that holds of each bank's share of it; and without
      overwrites on a single bank, whatever its length, when it writes to 126 host pages for each block but one. */
  method Session(banks: nat, blocks: nat, cmds: seq<Command>, bit: nat, capacity: nat, busy: seq<seq<bool>>, fuel: nat)
    returns (o: Outcome, answers: seq<seq<Sector>>)
    requires 0 < banks && 0 < bit && |busy| == |cmds| && forall i | 0 <= i < |busy| :: |busy[i]| == banks
    ensures o.Pass? && HostOnlyClears(BlankDevice(), cmds, bit, capacity) ==>
      answers == Answers(BlankDevice(), cmds, bit, capacity)
    ensures 2 <= blocks && Cost(cmds, bit) < 1016 * (blocks - 1) ==> o.Pass?
    ensures 2 <= blocks && AllPlain(cmds, bit) && EachBelow(banks, AllPageCosts(cmds), 1016 * (blocks - 1)) ==> o.Pass?
    ensures banks == 1 && 2 <= blocks && AllPlain(cmds, bit) && AllFit(cmds, blocks) ==> o.Pass?
  {
    hide Settled, Content, HostOnlyClears, Answers, Rooms, Endures, Plain, FitsBlocks, Share, AllPageCosts;
    var f := Format(banks, blocks);
    assert Agrees(BlankDevice(), map[]);
    o, answers := RunAll(f, cmds, bit, capacity, busy, fuel, BlankDevice());
  }

  predicate WholePages(cmd: Command) {
    cmd.WriteCmd? ==> cmd.lba % 64 == 0 && |cmd.data| % 64 == 0
  }

  lemma {:induction false} WholePageCosts(lba: nat, n: nat)
    requires lba % 64 == 0 && n % 64 == 0
    ensures forall i | 0 <= i < |PageCosts(lba, n)| :: PageCosts(lba, n)[i] == 8
    decreases n
  {
    if n > 0 {
      assert InFirstPage(lba, n) == 64 && ChunksIn(0, 64) == 8;
      WholePageCosts(lba + 64, n - 64);
    }
  }

  lemma {:induction false} WholeRunCosts(cmds: seq<Command>)
    requires forall i | 0 <= i < |cmds| :: WholePages(cmds[i])
    ensures forall i | 0 <= i < |AllPageCosts(cmds)| :: AllPageCosts(cmds)[i] == 8
  {
    if cmds != [] {
      WholeRunCosts(cmds[..|cmds| - 1]);
      var cmd := cmds[|cmds| - 1];
      assert WholePages(cmd);
      if cmd.WriteCmd? {
        WholePageCosts(cmd.lba, |cmd.data|);
      }
    }
  }

  /** A run of whole pages is shared out evenly: it fits when there is room for so many pages in all banks together. */
  lemma WholePagesFit(banks: nat, blocks: nat, cmds: seq<Command>)
    requires 0 < banks && 2 <= blocks && forall i | 0 <= i < |cmds| :: WholePages(cmds[i])
    requires |AllPageCosts(cmds)| <= banks * (127 * (blocks - 1) - 1)
    ensures EachBelow(banks, AllPageCosts(cmds), 1016 * (blocks - 1))
  {
    hide AllPageCosts, Share;
    WholeRunCosts(cmds);
    var n, m := |AllPageCosts(cmds)|, 127 * (blocks - 1) - 1;
    forall b | 0 <= b < banks ensures Share(0, banks, AllPageCosts(cmds), b) < 1016 * (blocks - 1) {
      EqualShares(banks, AllPageCosts(cmds), b);
      DivAtMost(if b == 0 then n else n + banks - b, banks, m);
    }
  }

  lemma DivAtMost(x: nat, k: nat, m: nat)
    requires 0 < k && x < k * m + k
    ensures x / k <= m
  {
    Grows(k, x / k - m);
    assert k * (x / k - m) == k * (x / k) - k * m;
  }

  /** Without the overwrite bit nothing is asked of the host. */
  lemma {:induction false} PlainRunClears(d: Device, cmds: seq<Command>, bit: nat, capacity: nat)
    requires 0 < bit && forall i | 0 <= i < |cmds| && cmds[i].WriteCmd? :: !OverwriteBit(cmds[i].lba, bit)
    ensures HostOnlyClears(d, cmds, bit, capacity)
  {
    hide OverwriteBit, Step;
    if cmds != [] {
      PlainRunClears(d, cmds[..|cmds| - 1], bit, capacity);
      assert cmds[|cmds| - 1].WriteCmd? ==> !OverwriteBit(cmds[|cmds| - 1].lba, bit);
    }
  }
}
