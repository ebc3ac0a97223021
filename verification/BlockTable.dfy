/** blk_management.c, log.c and format: one bank's table from log blocks to physical blocks,
    its two-entry ring of spare blocks, and the flash behind them. */
module BlockTable {
  import opened Base
  import opened State

  /** A physical page; an erased one is absent from the flash map. */
  datatype Phys = Phys(vbn: nat, page: nat)

  const FREE_BLKS: nat := 2

  /** No physical block is assigned twice. */
  ghost predicate Distinct(bmt: seq<nat>, free: seq<nat>) {
    NoDups(bmt) && NoDups(free) && forall i, j | 0 <= i < |bmt| && 0 <= j < |free| :: bmt[i] != free[j]
  }

  ghost predicate ErasedBlk(flash: map<Phys, Page>, vbn: nat) {
    forall p :: Phys(vbn, p) !in flash
  }

  function EraseBlk(flash: map<Phys, Page>, vbn: nat): map<Phys, Page> {
    map pg | pg in flash && pg.vbn != vbn :: flash[pg]
  }

  /** What the FTL sees of a log block through the table. */
  function Through(bmt: seq<nat>, flash: map<Phys, Page>, lbn: nat, page: nat): Option<Page>
    requires lbn < |bmt|
  {
    Lookup(flash, Phys(bmt[lbn], page))
  }

  /** The next spare takes the victim's place in the table, and the victim the spare's in the ring. */
  lemma ReplaceDistinct(bmt: seq<nat>, free: seq<nat>, lbn: nat, t: nat)
    requires Distinct(bmt, free) && lbn < |bmt| && t < |free|
    ensures Distinct(bmt[lbn := free[t]], free[t := bmt[lbn]])
    ensures multiset(bmt[lbn := free[t]]) + multiset(free[t := bmt[lbn]]) == multiset(bmt) + multiset(free)
  {
  }

  lemma ErasedKept(flash: map<Phys, Page>, vbn: nat)
    ensures ErasedBlk(EraseBlk(flash, vbn), vbn)
    ensures forall v | ErasedBlk(flash, v) :: ErasedBlk(EraseBlk(flash, vbn), v)
  {
  }

  /** The first good blocks are spares, the others log blocks: all differ, and a log block reads as erased. */
  lemma FirstAssignment(good: seq<nat>, flash: map<Phys, Page>)
    requires FREE_BLKS <= |good| && NoDups(good) && forall i | 0 <= i < |good| :: ErasedBlk(flash, good[i])
    ensures Distinct(good[FREE_BLKS..], good[..FREE_BLKS])
    ensures multiset(good[FREE_BLKS..]) + multiset(good[..FREE_BLKS]) == multiset(good)
    ensures forall lbn, page | 0 <= lbn < |good| - FREE_BLKS :: Through(good[FREE_BLKS..], flash, lbn, page) == None
  {
    assert good == good[..FREE_BLKS] + good[FREE_BLKS..];
    forall lbn, page: nat | 0 <= lbn < |good| - FREE_BLKS ensures Through(good[FREE_BLKS..], flash, lbn, page) == None {
      assert ErasedBlk(flash, good[lbn + FREE_BLKS]) && Phys(good[lbn + FREE_BLKS], page) !in flash;
    }
  }

  class BlkTable {
    const logBmt: array<nat>
    const freeBmt: array<nat>
    var freeListHead: nat
    var freeListTail: nat
    var flash: map<Phys, Page>

    /** The spares in the order they came back; the next one handed out is first. */
    ghost var spares: seq<nat>

    /** The ring holds the spares from the tail on, and the head is behind the last one. */
    ghost predicate Shape()
      reads this, freeBmt
    {
      && logBmt != freeBmt && freeBmt.Length == FREE_BLKS && freeListTail < FREE_BLKS && |spares| <= FREE_BLKS
      && freeListHead == (freeListTail + |spares|) % FREE_BLKS
      && forall i | 0 <= i < |spares| :: spares[i] == freeBmt[(freeListTail + i) % FREE_BLKS]
    }

    /** Between collections: the ring is full, all assignments differ, and every spare is erased. */
    ghost predicate Valid()
      reads this, logBmt, freeBmt
    {
      && Shape() && |spares| == FREE_BLKS && Distinct(logBmt[..], freeBmt[..])
      && forall i | 0 <= i < FREE_BLKS :: ErasedBlk(flash, freeBmt[i])
    }

    ghost function Assigned(): multiset<nat>
      reads this, logBmt, freeBmt
    {
      multiset(logBmt[..]) + multiset(freeBmt[..])
    }

    /** The block assignment of format: the first two good blocks are spares, the next ones log blocks; all are
        erased. */
    constructor (good: seq<nat>, before: map<Phys, Page>)
      requires FREE_BLKS <= |good| && NoDups(good)
      ensures Valid() && Assigned() == multiset(good) && logBmt.Length == |good| - FREE_BLKS
        && spares == good[..FREE_BLKS]
      ensures forall lbn, page | 0 <= lbn < logBmt.Length :: Through(logBmt[..], flash, lbn, page) == None
      ensures fresh(logBmt) && fresh(freeBmt)
    {
      hide ErasedBlk, Distinct, NoDups, Through, EraseBlk;
      var bmt, free := new nat[|good| - FREE_BLKS], new nat[FREE_BLKS];
      var f, head := before, 0;
      for i := 0 to FREE_BLKS
        invariant head == i % FREE_BLKS && forall j | 0 <= j < i :: free[j] == good[j]
        invariant forall j | 0 <= j < i :: ErasedBlk(f, good[j])
      {
        ErasedKept(f, good[i]);
        f := EraseBlk(f, good[i]);
        free[head] := good[i];
        head := (head + 1) % FREE_BLKS;
      }
      for lbn := 0 to bmt.Length
        invariant forall j | 0 <= j < lbn :: bmt[j] == good[j + FREE_BLKS]
        invariant forall j | 0 <= j < FREE_BLKS + lbn :: ErasedBlk(f, good[j])
        invariant forall j | 0 <= j < FREE_BLKS :: free[j] == good[j]
      {
        ErasedKept(f, good[FREE_BLKS + lbn]);
        f := EraseBlk(f, good[FREE_BLKS + lbn]);
        bmt[lbn] := good[FREE_BLKS + lbn];
      }
      assert free[..] == good[..FREE_BLKS] && bmt[..] == good[FREE_BLKS..];
      FirstAssignment(good, f);
      logBmt, freeBmt, freeListHead, freeListTail, flash := bmt, free, head, 0, f;
      spares := good[..FREE_BLKS];
    }

    /** get_free_vbn: the spare that has waited longest. */
    method GetFreeVbn() returns (vbn: nat)
      requires Shape() && 0 < |spares|
      modifies this`freeListTail, this`spares
      ensures Shape() && vbn == old(spares)[0] && spares == old(spares)[1..]
    {
      var offset := freeListTail;
      freeListTail := (offset + 1) % FREE_BLKS;
      vbn := freeBmt[offset];
      spares := spares[1..];
    }

    /** ret_free_vbn: the block is handed out after every other spare. */
    method RetFreeVbn(vbn: nat)
      requires Shape() && |spares| < FREE_BLKS
      modifies this`freeListHead, this`spares, freeBmt
      ensures Shape() && spares == old(spares) + [vbn]
      ensures freeBmt[..] == old(freeBmt[..])[old(freeListHead) := vbn]
    {
      freeBmt[freeListHead] := vbn;
      freeListHead := (freeListHead + 1) % FREE_BLKS;
      spares := spares + [vbn];
    }

    /** The end of a collection: the victim's log block moves to a spare, the old block is erased and
        becomes the last spare.  The log block reads as erased and no other block is touched. */
    method RecycleBlk(victimLbn: nat)
      requires Valid() && victimLbn < logBmt.Length
      modifies this, logBmt, freeBmt
      ensures Valid() && Assigned() == old(Assigned())
      ensures logBmt[victimLbn] == old(spares)[0] && spares == [old(spares)[1], old(logBmt[victimLbn])]
      ensures forall lbn, page | 0 <= lbn < logBmt.Length ::
        Through(logBmt[..], flash, lbn, page)
          == if lbn == victimLbn then None else old(Through(logBmt[..], flash, lbn, page))
    {
      hide Distinct;
      ghost var bmt0, free0, flash0 := logBmt[..], freeBmt[..], flash;
      assert freeListHead == freeListTail && spares[0] == free0[freeListTail];
      ReplaceDistinct(bmt0, free0, victimLbn, freeListTail);
      var victimVbn := logBmt[victimLbn];
      var spare := GetFreeVbn();
      logBmt[victimLbn] := spare;
      flash := EraseBlk(flash, victimVbn);
      RetFreeVbn(victimVbn);
      assert logBmt[..] == bmt0[victimLbn := spare];
      RecycledThrough(bmt0, free0, flash0, victimLbn, old(freeListTail));
    }

    /** A page program through the table reaches that log page and no other. */
    method ProgramPage(lbn: nat, page: nat, data: Page)
      requires Valid() && lbn < logBmt.Length
      modifies this`flash
      ensures Valid() && Assigned() == old(Assigned())
      ensures forall l, p | 0 <= l < logBmt.Length ::
        Through(logBmt[..], flash, l, p)
          == if l == lbn && p == page then Some(data) else old(Through(logBmt[..], flash, l, p))
    {
      flash := flash[Phys(logBmt[lbn], page) := data];
      assert logBmt[..][lbn] == logBmt[lbn];
    }
  }

  lemma RecycledThrough(bmt: seq<nat>, free: seq<nat>, flash: map<Phys, Page>, lbn: nat, t: nat)
    requires Distinct(bmt, free) && lbn < |bmt| && t < |free| && ErasedBlk(flash, free[t])
    ensures forall l, p | 0 <= l < |bmt| ::
      Through(bmt[lbn := free[t]], EraseBlk(flash, bmt[lbn]), l, p)
        == if l == lbn then None else Through(bmt, flash, l, p)
  {
    forall l, p: nat | 0 <= l < |bmt|
      ensures Through(bmt[lbn := free[t]], EraseBlk(flash, bmt[lbn]), l, p)
        == if l == lbn then None else Through(bmt, flash, l, p)
    {
      if l == lbn {
        assert Phys(free[t], p) !in flash;
      } else {
        assert bmt[l] != bmt[lbn];
      }
    }
  }
}
