/** The commands the flash has received since format, and the rules they keep. */
module Nand {
  import opened Base

  /** What a page is programmed for. */
  datatype Use = RwData | OwData | LpnList

  /** Sealing sends nothing to the flash; it is noted because it ends the overwriting of the block. */
  datatype Command = Program(pg: PageId, use: Use) | EraseBlk(blk: Blk) | SealBlk(blk: Blk)

  /** The commands so far, the last one outermost. */
  datatype Trace = Start | Then(past: Trace, last: Command)

  /** How often a page was programmed since its block's last erase. */
  function Burns(h: Trace, pg: PageId): nat {
    match h
    case Start => 0
    case Then(past, Program(p, _)) => Burns(past, pg) + if p == pg then 1 else 0
    case Then(past, EraseBlk(blk)) => if InBlk(pg, blk) then 0 else Burns(past, pg)
    case Then(past, SealBlk(_)) => Burns(past, pg)
  }

  /** What a block has been used for since its last erase. */
  datatype Mode = Fresh | InRw | InOw

  function ModeOf(h: Trace, blk: Blk): Mode {
    match h
    case Start => Fresh
    case Then(past, Program(p, use)) =>
      if !InBlk(p, blk) || use.LpnList? then ModeOf(past, blk) else if use.RwData? then InRw else InOw
    case Then(past, EraseBlk(b)) => if b == blk then Fresh else ModeOf(past, blk)
    case Then(past, SealBlk(b)) => if b == blk then InRw else ModeOf(past, blk)
  }

  /** The block was sealed and not erased since. */
  predicate SealedSince(h: Trace, blk: Blk) {
    match h
    case Start => false
    case Then(past, Program(_, _)) => SealedSince(past, blk)
    case Then(past, EraseBlk(b)) => b != blk && SealedSince(past, blk)
    case Then(past, SealBlk(b)) => b == blk || SealedSince(past, blk)
  }

  /** The rules: a page is programmed when erased, but a low page of a block in overwrite mode up to eight times;
      a block changes from overwriting to RW use only by a seal, with all its low pages programmed. */
  ghost predicate Allowed(h: Trace, c: Command) {
    match c
    case Program(pg, RwData) => pg.Pg? && pg.page <= 126 && Burns(h, pg) == 0 && ModeOf(h, BlkOf(pg)) != InOw
    case Program(pg, OwData) => pg.Pg? && LowPage(pg.page) && Burns(h, pg) < OW_LIMIT && ModeOf(h, BlkOf(pg)) != InRw
    case Program(pg, LpnList) => pg.Pg? && (pg.page == 125 || pg.page == 127) && Burns(h, pg) == 0
    case EraseBlk(_) => true
    case SealBlk(blk) =>
      ModeOf(h, blk) == InOw && forall p: nat | p <= 123 && LowPage(p) :: 0 < Burns(h, ListPage(blk, p))
  }

  ghost predicate Disciplined(h: Trace) {
    h.Then? ==> Disciplined(h.past) && Allowed(h.past, h.last)
  }

  /** `p` is what `h` was at some time. */
  predicate Before(p: Trace, h: Trace) {
    p == h || (h.Then? && Before(p, h.past))
  }

  lemma {:induction false} EarlierDisciplined(p: Trace, h: Trace)
    requires Disciplined(h) && Before(p, h)
    ensures Disciplined(p)
  {
    if p != h {
      EarlierDisciplined(p, h.past);
    }
  }

  /** A sealed block is in RW use and each of its low pages is programmed. */
  lemma {:induction false} SealedUse(h: Trace, blk: Blk)
    requires Disciplined(h) && SealedSince(h, blk)
    ensures ModeOf(h, blk) == InRw
    ensures forall p: nat | p <= 123 && LowPage(p) :: 0 < Burns(h, ListPage(blk, p))
  {
    if !(h.last.SealBlk? && h.last.blk == blk) {
      SealedUse(h.past, blk);
    }
  }

  /** No low page of a sealed block is programmed before the next erase. */
  lemma SealedUntilErase(h: Trace, past: Trace, pg: PageId, use: Use)
    requires Disciplined(h) && Before(Then(past, Program(pg, use)), h)
    ensures pg.Pg? && (LowPage(pg.page) ==> !SealedSince(past, BlkOf(pg)))
  {
    EarlierDisciplined(Then(past, Program(pg, use)), h);
    if LowPage(pg.page) && SealedSince(past, BlkOf(pg)) {
      SealedUse(past, BlkOf(pg));
      assert false;
    }
  }

  /** Between two erases a page is programmed at most eight times, at most once unless it is a low page used for
      overwriting. */
  lemma {:induction false} BurnsBound(h: Trace, pg: PageId)
    requires Disciplined(h)
    ensures Burns(h, pg) <= OW_LIMIT
    ensures 1 < Burns(h, pg) ==> pg.Pg? && LowPage(pg.page)
  {
    if h.Then? {
      BurnsBound(h.past, pg);
    }
  }
}
