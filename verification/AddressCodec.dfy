/** ftl_parameters.h and log.c: the 32-bit chunk addresses that the chunk map stores. */
module AddressCodec {
  import opened Base
  import opened State

  const START_OW: nat := 0x8000_0000   // the top bit, StartOwLogLpn
  const TWO32: nat := 0x1_0000_0000

  /** Slots of one bank: every block has 1024. */
  function BankSlots(blocks: nat): nat {
    blocks * CHUNKS_PER_BLK
  }

  /** First slot of the DRAM buffer in a bank's numbering: page 127 of the last block. */
  function BufSlot(blocks: nat): nat
    requires 0 < blocks
  {
    (blocks * PAGES_PER_BLK - 1) * CHUNKS_PER_PAGE
  }

  // ----- the macros -----

  function ChunkToBank(chunk: nat, blocks: nat): nat
    requires 0 < blocks
  {
    chunk / BankSlots(blocks)
  }

  function ChunkToChunkOffsetInBank(chunk: nat, blocks: nat): nat
    requires 0 < blocks
  {
    chunk % BankSlots(blocks)
  }

  function ChunkToLbn(chunk: nat, blocks: nat): nat
    requires 0 < blocks
  {
    ChunkToChunkOffsetInBank(chunk, blocks) / CHUNKS_PER_PAGE / PAGES_PER_BLK
  }

  function ChunkToPageOffset(chunk: nat, blocks: nat): nat
    requires 0 < blocks
  {
    ChunkToChunkOffsetInBank(chunk, blocks) / CHUNKS_PER_PAGE % PAGES_PER_BLK
  }

  function ChunkToChunkOffset(chunk: nat): nat {
    chunk % CHUNKS_PER_PAGE
  }

  /** `chunk & 0x7FFFFFFF` for a 32-bit address. */
  function Mask(chunk: nat): nat {
    chunk % START_OW
  }

  function OwBit(chunk: nat): bool {
    chunk / START_OW % 2 == 1
  }

  /** findChunkLocation. */
  function FindChunkLocation(chunk: nat, blocks: nat): ChunkLocation
    requires 0 < blocks
  {
    if chunk == INVALID then Invalid
    else if OwBit(chunk) then
      if ChunkToChunkOffsetInBank(Mask(chunk), blocks) >= BufSlot(blocks) then DRAMOwLog else FlashOwLog
    else if ChunkToChunkOffsetInBank(chunk, blocks) >= BufSlot(blocks) then DRAMWLog
    else FlashWLog
  }

  /** What the FTL does with an entry: classify it, then take it apart. */
  function Decode(chunk: nat, blocks: nat): Option<Loc>
    requires 0 < blocks
  {
    match FindChunkLocation(chunk, blocks)
    case Invalid => None
    case DRAMOwLog => Some(Loc(true, Buf(true, ChunkToBank(Mask(chunk), blocks)), ChunkToChunkOffset(Mask(chunk))))
    case DRAMWLog => Some(Loc(false, Buf(false, ChunkToBank(chunk, blocks)), ChunkToChunkOffset(chunk)))
    case FlashOwLog =>
      var c := Mask(chunk);
      var page := Pg(ChunkToBank(c, blocks), ChunkToLbn(c, blocks), ChunkToPageOffset(c, blocks));
      Some(Loc(true, page, ChunkToChunkOffset(c)))
    case FlashWLog =>
      var page := Pg(ChunkToBank(chunk, blocks), ChunkToLbn(chunk, blocks), ChunkToPageOffset(chunk, blocks));
      Some(Loc(false, page, ChunkToChunkOffset(chunk)))
  }

  /** The slot number inside the bank. */
  function SlotInBank(loc: Loc, blocks: nat): nat
    requires 0 < blocks
  {
    match loc.page
    case Buf(_, _) => BufSlot(blocks) + loc.slot
    case Pg(_, lbn, page) => lbn * CHUNKS_PER_BLK + page * CHUNKS_PER_PAGE + loc.slot
  }

  /** The address stored for a place. */
  function Encode(loc: Loc, blocks: nat): nat
    requires 0 < blocks
  {
    loc.page.bank * BankSlots(blocks) + SlotInBank(loc, blocks) + if loc.ow then START_OW else 0
  }

  /** A place of a device with `banks` banks of `blocks` blocks. */
  predicate InDevice(loc: Loc, banks: nat, blocks: nat) {
    && loc.page.bank < banks && loc.slot < CHUNKS_PER_PAGE
    && (match loc.page
        case Buf(ow, _) => ow == loc.ow
        case Pg(_, lbn, page) => lbn < blocks && page < PAGES_PER_BLK)
  }

  /** The one flash page whose slots have the numbers of the DRAM buffer. */
  predicate Aliased(loc: Loc, blocks: nat) {
    loc.page.Pg? && loc.page.lbn + 1 == blocks && loc.page.page == PAGES_PER_BLK - 1
  }

  predicate Fits(banks: nat, blocks: nat) {
    0 < blocks && banks * BankSlots(blocks) < START_OW
  }

  // ----- arithmetic -----

  lemma Grows(a: nat, b: nat, m: nat)
    requires a < b
    ensures a * m + m <= b * m
  {
    assert (b - a) * m >= m by {
      assert b - a >= 1;
    }
    assert b * m == a * m + (b - a) * m;
  }

  /** Division undoes a mixed-radix sum. */
  lemma DivMod(q: nat, m: nat, r: nat)
    requires r < m
    ensures (q * m + r) / m == q && (q * m + r) % m == r
  {
    var x := q * m + r;
    var q', r' := x / m, x % m;
    assert x == q' * m + r';
    if q' < q {
      Grows(q', q, m);
      assert false;
    }
    if q < q' {
      Grows(q, q', m);
      assert false;
    }
  }

  lemma SlotBounds(loc: Loc, banks: nat, blocks: nat)
    requires InDevice(loc, banks, blocks) && 0 < blocks
    ensures SlotInBank(loc, blocks) < BankSlots(blocks) && SlotInBank(loc, blocks) % CHUNKS_PER_PAGE == loc.slot
    ensures BufSlot(blocks) <= SlotInBank(loc, blocks) <==> loc.page.Buf? || Aliased(loc, blocks)
    ensures loc.page.Pg? ==> SlotInBank(loc, blocks) / CHUNKS_PER_PAGE / PAGES_PER_BLK == loc.page.lbn
    ensures loc.page.Pg? ==> SlotInBank(loc, blocks) / CHUNKS_PER_PAGE % PAGES_PER_BLK == loc.page.page
  {
    if loc.page.Pg? {
      assert SlotInBank(loc, blocks) == (loc.page.lbn * 128 + loc.page.page) * 8 + loc.slot;
      DivMod(loc.page.lbn * 128 + loc.page.page, 8, loc.slot);
      DivMod(loc.page.lbn, 128, loc.page.page);
    } else {
      DivMod(blocks * 128 - 1, 8, loc.slot);
    }
  }

  lemma AddressBounds(loc: Loc, banks: nat, blocks: nat)
    requires Fits(banks, blocks) && InDevice(loc, banks, blocks)
    ensures loc.page.bank * BankSlots(blocks) + SlotInBank(loc, blocks) < START_OW - 1
  {
    SlotBounds(loc, banks, blocks);
    Grows(loc.page.bank, banks, BankSlots(blocks));
  }

  // ----- the round trips -----

  lemma BaseDecodes(loc: Loc, banks: nat, blocks: nat)
    requires Fits(banks, blocks) && InDevice(loc, banks, blocks)
    ensures var a := loc.page.bank * BankSlots(blocks) + SlotInBank(loc, blocks);
      && ChunkToBank(a, blocks) == loc.page.bank && ChunkToChunkOffsetInBank(a, blocks) == SlotInBank(loc, blocks)
      && ChunkToChunkOffset(a) == loc.slot
  {
    SlotBounds(loc, banks, blocks);
    DivMod(loc.page.bank, BankSlots(blocks), SlotInBank(loc, blocks));
    var s := SlotInBank(loc, blocks);
    assert loc.page.bank * BankSlots(blocks) == 8 * (loc.page.bank * (blocks * 128)) by {
      assert BankSlots(blocks) == 8 * (blocks * 128);
    }
    DivMod(loc.page.bank * (blocks * 128) + s / 8, 8, s % 8);
  }

  lemma BitSplit(a: nat)
    requires a < START_OW
    ensures !OwBit(a) && Mask(a) == a && OwBit(a + START_OW) && Mask(a + START_OW) == a
  {
  }

  /** Encoding then decoding gives the place back, for every place but the slots of page 127
      of the last block, which decode as the DRAM buffer. */
  lemma RoundTrip(loc: Loc, banks: nat, blocks: nat)
    requires Fits(banks, blocks) && InDevice(loc, banks, blocks)
    ensures Encode(loc, blocks) < TWO32 && Encode(loc, blocks) != INVALID
    ensures Decode(Encode(loc, blocks), blocks) == Some(loc) <==> !Aliased(loc, blocks)
    ensures Aliased(loc, blocks) ==>
      Decode(Encode(loc, blocks), blocks) == Some(Loc(loc.ow, Buf(loc.ow, loc.page.bank), loc.slot))
  {
    var a := loc.page.bank * BankSlots(blocks) + SlotInBank(loc, blocks);
    AddressBounds(loc, banks, blocks);
    SlotBounds(loc, banks, blocks);
    BaseDecodes(loc, banks, blocks);
    BitSplit(a);
    hide BankSlots, BufSlot, OwBit, Mask, ChunkToBank, ChunkToChunkOffsetInBank, ChunkToChunkOffset, SlotInBank;
  }

  /** The two parts of a 32-bit address. */
  lemma BitParts(chunk: nat)
    requires chunk < TWO32
    ensures Mask(chunk) < START_OW && chunk == Mask(chunk) + if OwBit(chunk) then START_OW else 0
  {
  }

  lemma InsideBank(a: nat, banks: nat, blocks: nat)
    requires 0 < blocks && a < banks * BankSlots(blocks)
    ensures ChunkToBank(a, blocks) < banks && ChunkToChunkOffsetInBank(a, blocks) < BankSlots(blocks)
    ensures a == ChunkToBank(a, blocks) * BankSlots(blocks) + ChunkToChunkOffsetInBank(a, blocks)
  {
    var m := BankSlots(blocks);
    var bank := a / m;
    assert a == bank * m + a % m;
    if banks <= bank {
      Monotone(banks, bank, m);
      assert false;
    }
  }

  /** Every address inside the device decodes to a place that encodes to it. */
  lemma DecodeEncode(chunk: nat, banks: nat, blocks: nat)
    requires Fits(banks, blocks) && chunk < TWO32 && Mask(chunk) < banks * BankSlots(blocks)
    ensures Decode(chunk, blocks).Some? && InDevice(Decode(chunk, blocks).value, banks, blocks)
      && !Aliased(Decode(chunk, blocks).value, blocks)
    ensures Encode(Decode(chunk, blocks).value, blocks) == chunk
  {
    hide BankSlots, BufSlot, Mask, OwBit, ChunkToBank, ChunkToChunkOffsetInBank;
    var a := Mask(chunk);
    BitParts(chunk);
    InsideBank(a, banks, blocks);
    OffsetParts(ChunkToBank(a, blocks), ChunkToChunkOffsetInBank(a, blocks), blocks);
  }

  lemma Monotone(a: nat, b: nat, m: nat)
    requires a <= b
    ensures a * m <= b * m
  {
  }

  lemma OffsetParts(bank: nat, off: nat, blocks: nat)
    requires 0 < blocks && off < BankSlots(blocks)
    ensures off == off / 8 / 128 * 1024 + off / 8 % 128 * 8 + off % 8 && off / 8 / 128 < blocks
    ensures (bank * BankSlots(blocks) + off) % 8 == off % 8
    ensures BufSlot(blocks) <= off ==> off == BufSlot(blocks) + off % 8
    ensures off < BufSlot(blocks) ==> !(off / 8 / 128 + 1 == blocks && off / 8 % 128 == 127)
  {
    assert bank * BankSlots(blocks) == 8 * (bank * (blocks * 128)) by {
      assert BankSlots(blocks) == 8 * (blocks * 128);
    }
    DivMod(bank * (blocks * 128) + off / 8, 8, off % 8);
  }

  /** The classifier is the one the FTL model uses on decoded entries. */
  lemma Classified(chunk: nat, blocks: nat)
    requires 0 < blocks
    ensures FindChunkLocation(chunk, blocks) == LocationOf(Decode(chunk, blocks))
  {
  }

  /** Two places of the device never share an address. */
  lemma Injective(a: Loc, b: Loc, banks: nat, blocks: nat)
    requires Fits(banks, blocks) && InDevice(a, banks, blocks) && InDevice(b, banks, blocks)
    requires !Aliased(a, blocks) && !Aliased(b, blocks) && Encode(a, blocks) == Encode(b, blocks)
    ensures a == b
  {
    hide Encode, Decode;
    RoundTrip(a, banks, blocks);
    RoundTrip(b, banks, blocks);
  }

  /** chunksInSameFlashPage. */
  function ChunksInSameFlashPage(a: nat, b: nat, blocks: nat): bool
    requires 0 < blocks
  {
    ChunkToBank(a, blocks) == ChunkToBank(b, blocks) && ChunkToLbn(a, blocks) == ChunkToLbn(b, blocks)
      && ChunkToPageOffset(a, blocks) == ChunkToPageOffset(b, blocks)
  }

  /** On masked flash addresses the page test is equality of pages. */
  lemma SameFlashPage(a: Loc, b: Loc, banks: nat, blocks: nat)
    requires Fits(banks, blocks) && InDevice(a, banks, blocks) && InDevice(b, banks, blocks) && a.page.Pg? && b.page.Pg?
    ensures ChunksInSameFlashPage(Mask(Encode(a, blocks)), Mask(Encode(b, blocks)), blocks) <==> a.page == b.page
  {
    hide Encode, Mask, ChunkToBank, ChunkToLbn, ChunkToPageOffset;
    PageDecodes(a, banks, blocks);
    PageDecodes(b, banks, blocks);
  }

  lemma PageDecodes(loc: Loc, banks: nat, blocks: nat)
    requires Fits(banks, blocks) && InDevice(loc, banks, blocks) && loc.page.Pg?
    ensures ChunkToBank(Mask(Encode(loc, blocks)), blocks) == loc.page.bank
    ensures ChunkToLbn(Mask(Encode(loc, blocks)), blocks) == loc.page.lbn
      && ChunkToPageOffset(Mask(Encode(loc, blocks)), blocks) == loc.page.page
  {
    hide BankSlots, OwBit, Mask, ChunkToBank, ChunkToChunkOffsetInBank, SlotInBank;
    AddressBounds(loc, banks, blocks);
    SlotBounds(loc, banks, blocks);
    BaseDecodes(loc, banks, blocks);
    BitSplit(loc.page.bank * BankSlots(blocks) + SlotInBank(loc, blocks));
  }

  // ----- the chunk map holds only addresses that survive -----

  lemma MappedInDevice(s: St, k: Key)
    requires Inv(s) && s.held == map[] && k in s.cmap
    ensures InDevice(s.cmap[k], s.banks, s.blocks) && !Aliased(s.cmap[k], s.blocks)
  {
    hide WCounts, OCounts, CleanOK, MembersOK, RwOK, OwOK, ListPages, Budget, TraceOK, StaleOK, Inj, Erased, ListShape;
    assert s.cmap == s.live;
    if s.live[k].page.Pg? {
      assert FlashKeyOK(k, s.live[k], s.flash, s.lists, s.role);
    }
  }

  /** Between host calls every entry of the chunk map survives its encoding in 32 bits. */
  lemma TableRoundTrip(s: St, k: Key)
    requires Inv(s) && s.held == map[] && Fits(s.banks, s.blocks) && k in s.cmap
    ensures 0 < s.blocks && Decode(Encode(s.cmap[k], s.blocks), s.blocks) == Some(s.cmap[k])
  {
    hide Inv, Encode, Decode;
    MappedInDevice(s, k);
    RoundTrip(s.cmap[k], s.banks, s.blocks);
  }

  /** No two chunks have the same address. */
  lemma TableInjective(s: St, k1: Key, k2: Key)
    requires Inv(s) && s.held == map[] && Fits(s.banks, s.blocks) && k1 in s.cmap && k2 in s.cmap && k1 != k2
    ensures 0 < s.blocks && Encode(s.cmap[k1], s.blocks) != Encode(s.cmap[k2], s.blocks)
  {
    DistinctPlaces(s, k1, k2);
    hide Inv, Encode, Decode;
    TableRoundTrip(s, k1);
    TableRoundTrip(s, k2);
  }

  lemma DistinctPlaces(s: St, k1: Key, k2: Key)
    requires Inv(s) && s.held == map[] && k1 in s.cmap && k2 in s.cmap && k1 != k2
    ensures s.cmap[k1] != s.cmap[k2]
  {
    hide BufShape, RoleShape, ListShape, StaleOK, DramOK, FlashOK, WCounts, OCounts, CleanOK, MembersOK, RwOK, OwOK,
         Erased, ListPages, Budget, TraceOK;
    assert s.cmap == s.live;
    assert s.live[k1].page == s.live[k2].page && s.live[k1].slot == s.live[k2].slot ==> k1 == k2;
  }
}
