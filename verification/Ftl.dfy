/** The static tables of the FTL, the flash, and the state they stand for. */
module FtlTables {
  import opened Base
  import opened Nand
  import opened State

  /** What ftl_metadata.c and dram_layout.h lay out in SRAM and DRAM, and the flash.
      `chunksMap` leaves out INVALID entries; an erased page is absent from `flash`. */
  datatype Tables = Tables(
    chunksMap: map<Key, Loc>,
    logBuf: seq<seq<Chunk>>, logBufMeta: seq<seq<Option<Key>>>, chunkPtr: seq<nat>,
    owLogBuf: seq<seq<Chunk>>, owLogBufMeta: seq<seq<Option<Key>>>, owChunkPtr: seq<nat>,
    rwCtrl: seq<RwCursor>, rwLpns: seq<seq<Option<nat>>>,
    owCtrl: seq<OwCursor>, owLpns: seq<seq<Option<nat>>>,
    cleanList: seq<seq<nat>>,
    writeCount: map<Blk, nat>, writeHeap: set<Blk>,
    owCount: map<Blk, nat>, owHeap: set<Blk>,
    owCounters: map<Blk, seq<nat>>,
    flash: map<PageId, Page>)

  /** The fields of `St` that only the proof keeps; `wiped` counts the erases of each block,
      `trace` is what the flash was told since format. */
  datatype Proof = Proof(
    live: map<Key, Loc>,
    held: map<Key, Chunk>,
    role: map<Blk, Role>,
    lists: map<Blk, seq<Option<nat>>>,
    fill: seq<nat>, owFill: seq<nat>,
    pending: set<nat>, owPending: set<nat>,
    debt: Debt,
    wiped: multiset<Blk>,
    trace: Trace)

  function AllBlks(banks: nat, blocks: nat): set<Blk> {
    set b, l | 0 <= b < banks && 0 <= l < blocks :: Blk(b, l)
  }

  function Upto(n: nat): seq<nat> {
    seq(n, i => i)
  }

  function Rows<T>(n: nat, row: T): (r: seq<T>)
    ensures |r| == n && forall i | 0 <= i < n :: r[i] == row
  {
    seq(n, _ => row)
  }

  /** The tables after format: nothing mapped, every block clean, full counts, an erased flash. */
  function FormattedTables(banks: nat, blocks: nat, clean: seq<seq<nat>>): Tables {
    Tables(map[],
           Rows(banks, Rows(8, BlankChunk())), Rows(banks, Rows(8, None)), Rows(banks, 0),
           Rows(banks, Rows(8, BlankChunk())), Rows(banks, Rows(8, None)), Rows(banks, 0),
           Rows(banks, Closed), Rows(banks, Rows(CHUNKS_PER_BLK, None)),
           Rows(banks, OwClosed), Rows(banks, Rows(CHUNKS_PER_BLK, None)),
           clean,
           map blk | blk in AllBlks(banks, blocks) :: CHUNKS_PER_LOG_BLK, {},
           map blk | blk in AllBlks(banks, blocks) :: OW_BLK_CHUNKS, {},
           map blk | blk in AllBlks(banks, blocks) :: Rows(PAGES_PER_BLK, 0),
           map[])
  }

  ghost function FormattedProof(banks: nat, blocks: nat): Proof {
    Proof(map[], map[], map blk | blk in AllBlks(banks, blocks) :: Role.Clean,
          map blk | blk in AllBlks(banks, blocks) :: Rows(CHUNKS_PER_BLK, None),
          Rows(banks, 0), Rows(banks, 0), {}, {}, Debt(Blk(0, 0), 0), multiset{}, Start)
  }

  class Ftl {
    const banks: nat
    const blocks: nat

    var t: Tables
    var gcNestLevel: seq<nat>
    var referenceBank: nat

    // The source keeps none of the next three; they mark where a run leaves the model.

    /** Chunks whose only copy is in a GC buffer or in the host's. */
    var inRam: set<Key>
    /** The block that an unfinished overwrite of an exhausted page owes a count to. */
    var owing: Option<Blk>
    /** Blocks with old versions that an unfinished overwrite of a whole page has given up. */
    var givenUp: set<Blk>

    ghost var g: Proof

    /** format and initLog: every block of every bank is pushed to its clean list. */
    constructor (banks: nat, blocks: nat)
      ensures this.banks == banks && this.blocks == blocks
      ensures t == FormattedTables(banks, blocks, Rows(banks, Upto(blocks))) && g == FormattedProof(banks, blocks)
      ensures gcNestLevel == Rows(banks, 0) && referenceBank == 0 && inRam == {} && owing == None && givenUp == {}
    {
      var clean: seq<seq<nat>> := [];
      for bank := 0 to banks
        invariant clean == Rows(bank, Upto(blocks))
      {
        var queue: seq<nat> := [];
        for lbn := 0 to blocks
          invariant queue == Upto(lbn)
        {
          queue := queue + [lbn];
        }
        clean := clean + [queue];
      }
      this.banks, this.blocks := banks, blocks;
      t := FormattedTables(banks, blocks, clean);
      gcNestLevel, referenceBank, inRam, owing, givenUp := Rows(banks, 0), 0, {}, None, {};
      g := FormattedProof(banks, blocks);
    }

    ghost function View(): St
      reads this
    {
      St(banks, blocks, t.chunksMap, t.logBuf, t.logBufMeta, t.chunkPtr, t.owLogBuf, t.owLogBufMeta, t.owChunkPtr,
         t.rwCtrl, t.rwLpns, t.owCtrl, t.owLpns, t.cleanList, t.writeCount, t.writeHeap, t.owCount, t.owHeap,
         t.owCounters, t.flash,
         g.live, g.held, g.role, g.lists, g.fill, g.owFill, g.pending, g.owPending, g.debt, g.wiped, g.trace)
    }
  }

  /** The tables among the fields of a state. */
  function TablesOf(s: St): Tables {
    Tables(s.cmap, s.logBuf, s.meta, s.ptr, s.owBuf, s.owMeta, s.owPtr, s.rw, s.rwList, s.ow, s.owList, s.clean,
           s.wCount, s.wIn, s.oCount, s.oIn, s.owCnt, s.flash)
  }

  lemma ViewTables(f: Ftl)
    ensures TablesOf(f.View()) == f.t
  {
  }

  /** `inRam` and `owing` are what they are meant to be. */
  ghost predicate Tracked(f: Ftl)
    reads f
  {
    f.inRam == f.g.held.Keys && f.owing == if 0 < f.g.debt.amount then Some(f.g.debt.blk) else None
  }

  /** No overwrite is between giving up old versions and accounting for it. */
  ghost predicate Unburdened(f: Ftl)
    reads f
  {
    f.givenUp == {} && f.owing.None?
  }
}
