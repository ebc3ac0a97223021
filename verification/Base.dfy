/** Values shared by every part of the model: outcomes, the bytes of a sector,
    the constants of ftl_parameters.h, and the names of places data can live. */
module Base {

  datatype Option<+T> = None | Some(value: T)

  /** Why a call did not return normally.  `Halted` is one of the source's `while(1);`
      traps.  The other three mark points beyond which a run is not followed:
      `OutOfFuel`, only victims without a dead slot are left once `fuel` of them have been collected;
      `Recollected`, a chunk that is only in a GC buffer still has an entry in the victim;
      `UnsafeCollection`, an unfinished overwrite has given up old versions in the victim, or owes it a count. */
  datatype Error = Halted | OutOfFuel | Recollected | UnsafeCollection

  datatype Outcome = Pass | Fail(error: Error) {
    predicate IsFailure() {
      Fail?
    }

    function PropagateFailure(): Outcome
      requires Fail?
    {
      this
    }
  }

  const INVALID: nat := 0xFFFF_FFFF
  const CHUNKS_PER_PAGE: nat := 8
  const PAGES_PER_BLK: nat := 128
  const CHUNKS_PER_BLK: nat := 1024
  const CHUNKS_PER_LOG_BLK: nat := 1016   // 127 data pages
  const OW_BLK_CHUNKS: nat := 1008        // CHUNKS_PER_LOG_BLK - 8
  const HIGH_PAGE_CHUNKS: nat := 504      // the 63 high pages of an overwrite block
  const OW_LIMIT: nat := 8

  type Sector = s: seq<bv8> | |s| == 512 witness seq(512, _ => 0xFF as bv8)

  function BlankSector(): Sector {
    seq(512, _ => 0xFF as bv8)
  }

  /** What a flash program does to a sector: it can only clear bits. */
  function AndSector(a: Sector, b: Sector): Sector {
    seq(512, i requires 0 <= i < 512 => a[i] & b[i])
  }

  type Chunk = c: seq<Sector> | |c| == 8 witness seq(8, _ => BlankSector())

  function BlankChunk(): Chunk {
    seq(8, _ => BlankSector())
  }

  /** `c` with its sectors from `off` on replaced by `data`. */
  function Splice(c: Chunk, off: nat, data: seq<Sector>): Chunk
    requires off + |data| <= 8
  {
    c[..off] + data + c[off + |data|..]
  }

  function AndChunk(a: Chunk, b: Chunk): Chunk {
    seq(8, i requires 0 <= i < 8 => AndSector(a[i], b[i]))
  }

  /** One entry of the chunk map table: chunk `idx` of logical page `lpn`. */
  datatype Key = Key(lpn: nat, idx: nat)

  datatype Blk = Blk(bank: nat, lbn: nat)

  /** A physical place of eight chunks: a DRAM write or overwrite buffer, or a flash page. */
  datatype PageId = Buf(ow: bool, bank: nat) | Pg(bank: nat, lbn: nat, page: nat)

  /** A decoded chunk address; `ow` is the top bit of the source's 32-bit address. */
  datatype Loc = Loc(ow: bool, page: PageId, slot: nat)

  predicate InBlk(pg: PageId, blk: Blk) {
    pg.Pg? && pg.bank == blk.bank && pg.lbn == blk.lbn
  }

  function BlkOf(pg: PageId): Blk
    requires pg.Pg?
  {
    Blk(pg.bank, pg.lbn)
  }

  function ListPage(blk: Blk, page: nat): PageId {
    Pg(blk.bank, blk.lbn, page)
  }

  /** The pages that an overwrite block uses for data. */
  predicate LowPage(page: nat) {
    page == 0 || (page % 2 == 1 && page <= 123)
  }

  datatype ChunkLocation = Invalid | FlashWLog | DRAMWLog | DRAMOwLog | FlashOwLog

  /** findChunkLocation on a decoded entry. */
  function LocationOf(entry: Option<Loc>): ChunkLocation {
    match entry
    case None => Invalid
    case Some(loc) =>
      if loc.ow then (if loc.page.Buf? then DRAMOwLog else FlashOwLog)
      else (if loc.page.Buf? then DRAMWLog else FlashWLog)
  }

  function Lookup<K, V>(m: map<K, V>, k: K): Option<V> {
    if k in m then Some(m[k]) else None
  }

  ghost predicate NoDups(q: seq<nat>) {
    forall i, j | 0 <= i < j < |q| :: q[i] != q[j]
  }

  ghost function Elems(q: seq<nat>): set<nat> {
    if |q| == 0 then {} else Elems(q[..|q| - 1]) + {q[|q| - 1]}
  }

  lemma {:induction false} ElemsCount(q: seq<nat>)
    requires NoDups(q)
    ensures |Elems(q)| == |q| && forall x :: x in Elems(q) <==> x in q
  {
    if |q| > 0 {
      ElemsCount(q[..|q| - 1]);
      assert q == q[..|q| - 1] + [q[|q| - 1]];
      assert q[|q| - 1] !in q[..|q| - 1];
    }
  }

  ghost function Below(n: nat): set<nat> {
    if n == 0 then {} else Below(n - 1) + {n - 1}
  }

  lemma {:induction false} BelowCount(n: nat)
    ensures |Below(n)| == n && forall x: nat :: x in Below(n) <==> x < n
  {
    if n > 0 {
      BelowCount(n - 1);
    }
  }

  lemma SubsetCount<T>(a: set<T>, b: set<T>)
    requires a <= b
    ensures |a| <= |b|
  {
    assert b == a + (b - a);
  }

  /** Different numbers below `n` that leave one out are fewer than `n`. */
  lemma Pigeonhole(q: seq<nat>, n: nat, x: nat)
    requires NoDups(q) && (forall i | 0 <= i < |q| :: q[i] < n) && x < n && x !in q
    ensures |q| < n
  {
    var r := q + [x];
    ElemsCount(r);
    BelowCount(n);
    SubsetCount(Elems(r), Below(n));
  }
}
