/** heap.c: the indexed min-heap of one bank.  All blocks of the bank are always in the
    array; the first `n` positions, counted from 1, are the heap proper. */
module Heap {
  import opened Base

  datatype El = El(value: nat, lbn: nat)

  const U16: nat := 0x1_0000

  // ----- arrays as sequences -----

  /** The block at position `p` has that position. */
  ghost predicate PlaceOk(e: seq<El>, q: seq<nat>, p: nat)
    requires 1 <= p <= |e|
  {
    e[p - 1].lbn < |q| && q[e[p - 1].lbn] == p
  }

  /** Block `l` is where its position says. */
  ghost predicate BlockOk(e: seq<El>, q: seq<nat>, l: nat)
    requires l < |q|
  {
    1 <= q[l] <= |e| && e[q[l] - 1].lbn == l
  }

  /** `q` is the inverse of the block numbers in `e`. */
  ghost predicate Perm(e: seq<El>, q: seq<nat>) {
    && |e| == |q|
    && (forall p: nat | 1 <= p <= |e| :: PlaceOk(e, q, p))
    && (forall l: nat | l < |q| :: BlockOk(e, q, l))
  }

  /** Every count fits in sixteen bits. */
  ghost predicate Small(e: seq<El>) {
    forall p | 0 <= p < |e| :: e[p].value < U16
  }

  lemma SetSmall(e: seq<El>, p: nat, x: El)
    requires Small(e) && p < |e| && x.value < U16
    ensures Small(e[p := x])
  {
  }

  lemma SwapSmall(e: seq<El>, i: nat, j: nat)
    requires Small(e) && 1 <= i <= |e| && 1 <= j <= |e|
    ensures Small(Swapped(e, i, j)) && |Swapped(e, i, j)| == |e|
  {
  }

  /** The value at position `p` is not below its father's. */
  ghost predicate Le(e: seq<El>, p: nat)
    requires 2 <= p <= |e|
  {
    e[p / 2 - 1].value <= e[p - 1].value
  }

  ghost predicate Ordered(e: seq<El>, n: nat)
    requires n <= |e|
  {
    forall p: nat | 2 <= p <= n :: Le(e, p)
  }

  /** The count of each block. */
  ghost function CountsOf(e: seq<El>, q: seq<nat>): (c: seq<nat>)
    requires Perm(e, q)
    ensures |c| == |q| && forall l: nat | l < |q| :: BlockOk(e, q, l) && c[l] == e[q[l] - 1].value
  {
    assert forall l: nat | l < |q| :: BlockOk(e, q, l);
    seq(|q|, l requires 0 <= l < |q| => if 1 <= q[l] <= |e| then e[q[l] - 1].value else 0)
  }

  /** The blocks in the heap. */
  ghost function MembersOf(q: seq<nat>, n: nat): set<nat> {
    set l | 0 <= l < |q| && q[l] <= n
  }

  function Swapped(e: seq<El>, i: nat, j: nat): seq<El>
    requires 1 <= i <= |e| && 1 <= j <= |e|
  {
    e[i - 1 := e[j - 1]][j - 1 := e[i - 1]]
  }

  function SwappedPositions(q: seq<nat>, e: seq<El>, i: nat, j: nat): seq<nat>
    requires 1 <= i <= |e| && 1 <= j <= |e|
  {
    if e[i - 1].lbn < |q| && e[j - 1].lbn < |q| then q[e[i - 1].lbn := j][e[j - 1].lbn := i] else q
  }

  lemma SwapBlock(e: seq<El>, q: seq<nat>, i: nat, j: nat, l: nat)
    requires Perm(e, q) && 1 <= i <= |e| && 1 <= j <= |e| && l < |q|
    ensures e[i - 1].lbn < |q| && e[j - 1].lbn < |q| && 1 <= q[l] <= |e|
    ensures SwappedPositions(q, e, i, j)[l] == if q[l] == i then j else if q[l] == j then i else q[l]
    ensures BlockOk(Swapped(e, i, j), SwappedPositions(q, e, i, j), l)
    ensures Swapped(e, i, j)[SwappedPositions(q, e, i, j)[l] - 1] == e[q[l] - 1]
  {
    assert PlaceOk(e, q, i) && PlaceOk(e, q, j) && BlockOk(e, q, l);
  }

  lemma SwapPlace(e: seq<El>, q: seq<nat>, i: nat, j: nat, p: nat)
    requires Perm(e, q) && 1 <= i <= |e| && 1 <= j <= |e| && 1 <= p <= |e|
    ensures e[i - 1].lbn < |q| && e[j - 1].lbn < |q| && PlaceOk(Swapped(e, i, j), SwappedPositions(q, e, i, j), p)
  {
    assert PlaceOk(e, q, i) && PlaceOk(e, q, j) && PlaceOk(e, q, p);
  }

  lemma SwapLengths(e: seq<El>, q: seq<nat>, i: nat, j: nat)
    requires 1 <= i <= |e| && 1 <= j <= |e|
    ensures |Swapped(e, i, j)| == |e| && |SwappedPositions(q, e, i, j)| == |q|
  {
  }

  lemma SwapPerm(e: seq<El>, q: seq<nat>, i: nat, j: nat)
    requires Perm(e, q) && 1 <= i <= |e| && 1 <= j <= |e|
    ensures Perm(Swapped(e, i, j), SwappedPositions(q, e, i, j))
  {
    hide PlaceOk, BlockOk, Swapped, SwappedPositions;
    SwapLengths(e, q, i, j);
    var e', q' := Swapped(e, i, j), SwappedPositions(q, e, i, j);
    forall p: nat | 1 <= p <= |e'| ensures PlaceOk(e', q', p) {
      SwapPlace(e, q, i, j, p);
    }
    forall l: nat | l < |q'| ensures BlockOk(e', q', l) {
      SwapBlock(e, q, i, j, l);
    }
  }

  lemma SwapCounts(e: seq<El>, q: seq<nat>, i: nat, j: nat)
    requires Perm(e, q) && 1 <= i <= |e| && 1 <= j <= |e|
    ensures Perm(Swapped(e, i, j), SwappedPositions(q, e, i, j))
    ensures CountsOf(Swapped(e, i, j), SwappedPositions(q, e, i, j)) == CountsOf(e, q)
  {
    hide PlaceOk, Perm, Swapped, SwappedPositions;
    SwapPerm(e, q, i, j);
    SwapLengths(e, q, i, j);
    var e', q' := Swapped(e, i, j), SwappedPositions(q, e, i, j);
    PermLengths(e, q);
    forall l: nat | l < |q| ensures CountsOf(e', q')[l] == CountsOf(e, q)[l] {
      SwapBlock(e, q, i, j, l);
      assert BlockOk(e', q', l) && BlockOk(e, q, l);
    }
  }

  lemma PermLengths(e: seq<El>, q: seq<nat>)
    requires Perm(e, q)
    ensures |e| == |q|
  {
  }

  lemma SwapMembers(e: seq<El>, q: seq<nat>, i: nat, j: nat, n: nat)
    requires Perm(e, q) && 1 <= i <= |e| && 1 <= j <= |e| && (i <= n <==> j <= n)
    ensures e[i - 1].lbn < |q| && e[j - 1].lbn < |q| && MembersOf(SwappedPositions(q, e, i, j), n) == MembersOf(q, n)
  {
    assert PlaceOk(e, q, i) && PlaceOk(e, q, j);
    forall l: nat | l < |q| ensures SwappedPositions(q, e, i, j)[l] <= n <==> q[l] <= n {
      SwapBlock(e, q, i, j, l);
    }
  }

  // ----- a value that may be too small for its place moves up -----

  ghost predicate UpReady(e: seq<El>, n: nat, pos: nat)
    requires 1 <= pos <= n <= |e|
  {
    && (forall p: nat | 2 <= p <= n && p != pos :: Le(e, p))
    && (pos >= 2 ==> forall p: nat | 2 <= p <= n && p / 2 == pos :: e[pos / 2 - 1].value <= e[p - 1].value)
  }

  lemma UpStep(e: seq<El>, n: nat, pos: nat)
    requires 2 <= pos <= n <= |e| && UpReady(e, n, pos) && e[pos - 1].value < e[pos / 2 - 1].value
    ensures UpReady(Swapped(e, pos, pos / 2), n, pos / 2)
  {
    var e' := Swapped(e, pos, pos / 2);
    forall p: nat | 2 <= p <= n && p != pos / 2 ensures Le(e', p) {
      assert p != pos ==> Le(e, p);
    }
    forall p: nat | pos / 2 >= 2 && 2 <= p <= n && p / 2 == pos / 2
      ensures e'[pos / 2 / 2 - 1].value <= e'[p - 1].value
    {
      assert Le(e, pos / 2);
      assert p != pos ==> Le(e, p);
    }
  }

  lemma UpDone(e: seq<El>, n: nat, pos: nat)
    requires 1 <= pos <= n <= |e| && UpReady(e, n, pos) && (pos >= 2 ==> e[pos / 2 - 1].value <= e[pos - 1].value)
    ensures Ordered(e, n)
  {
    assert pos >= 2 ==> Le(e, pos);
  }

  /** Lowering one value leaves at most its own place wrong. */
  lemma LowerReady(e: seq<El>, n: nat, pos: nat, v: nat)
    requires 1 <= pos <= n <= |e| && Ordered(e, n) && v <= e[pos - 1].value
    ensures UpReady(e[pos - 1 := e[pos - 1].(value := v)], n, pos)
  {
    var e' := e[pos - 1 := e[pos - 1].(value := v)];
    forall p: nat | 2 <= p <= n && p != pos ensures Le(e', p) {
      assert Le(e, p);
    }
    forall p: nat | pos >= 2 && 2 <= p <= n && p / 2 == pos ensures e'[pos / 2 - 1].value <= e'[p - 1].value {
      assert Le(e, p) && Le(e, pos);
    }
  }

  // ----- a value that may be too large for its place moves down -----

  ghost predicate DownReady(e: seq<El>, n: nat, pos: nat)
    requires 1 <= pos && n <= |e|
  {
    && (forall p: nat | 2 <= p <= n && p / 2 != pos :: Le(e, p))
    && (pos >= 2 ==> forall p: nat | 2 <= p <= n && p / 2 == pos :: e[pos / 2 - 1].value <= e[p - 1].value)
  }

  /** Neither child is below the value at `pos`. */
  ghost predicate ChildrenOk(e: seq<El>, n: nat, pos: nat)
    requires 1 <= pos && n <= |e|
  {
    forall p: nat | 2 <= p <= n && p / 2 == pos :: Le(e, p)
  }

  lemma DownStep(e: seq<El>, n: nat, pos: nat, child: nat)
    requires 1 <= pos && n <= |e| && child / 2 == pos && 2 <= child <= n && DownReady(e, n, pos)
    requires e[child - 1].value < e[pos - 1].value
    requires forall p: nat | 2 <= p <= n && p / 2 == pos :: e[child - 1].value <= e[p - 1].value
    ensures DownReady(Swapped(e, pos, child), n, child)
  {
    var e' := Swapped(e, pos, child);
    forall p: nat | 2 <= p <= n && p / 2 != child ensures Le(e', p) {
      if p / 2 != pos {
        assert Le(e, p);
      }
    }
    forall p: nat | 2 <= p <= n && p / 2 == child ensures e'[child / 2 - 1].value <= e'[p - 1].value {
      assert Le(e, p);
    }
  }

  lemma DownDone(e: seq<El>, n: nat, pos: nat)
    requires 1 <= pos && n <= |e| && DownReady(e, n, pos) && ChildrenOk(e, n, pos)
    ensures Ordered(e, n)
  {
  }

  /** The father of every member of the heap is at least as small, so the root is a minimum. */
  lemma {:induction false} RootIsMinimum(e: seq<El>, n: nat, p: nat)
    requires 1 <= p <= n <= |e| && Ordered(e, n)
    ensures e[0].value <= e[p - 1].value
    decreases p
  {
    if p > 1 {
      assert Le(e, p);
      RootIsMinimum(e, n, p / 2);
    }
  }

  // ----- insertion and removal -----

  /** The element at `pos` can be replaced by the last one. */
  ghost predicate RemovalKeepsOrder(e: seq<El>, n: nat, pos: nat)
    requires 1 <= pos <= n <= |e|
  {
    pos == 1 || pos == n || e[pos / 2 - 1].value <= e[n - 1].value
  }

  /** A heap of six: removing its fourth block puts a 2 under a 5. */
  lemma RemovalCanBreak()
    ensures var e := [El(0, 0), El(5, 1), El(1, 2), El(6, 3), El(7, 4), El(2, 5)];
      Ordered(e, 6) && !RemovalKeepsOrder(e, 6, 4)
  {
    var e := [El(0, 0), El(5, 1), El(1, 2), El(6, 3), El(7, 4), El(2, 5)];
    forall p: nat | 2 <= p <= 6 ensures Le(e, p) {
      assert p == 2 || p == 3 || p == 4 || p == 5 || p == 6;
    }
  }

  lemma InsertMembers(e: seq<El>, q: seq<nat>, pos: nat, n: nat)
    requires Perm(e, q) && 1 <= n <= pos <= |e|
    ensures e[pos - 1].lbn < |q| && e[n - 1].lbn < |q|
    ensures MembersOf(SwappedPositions(q, e, pos, n), n) == MembersOf(q, n - 1) + {e[pos - 1].lbn}
  {
    assert PlaceOk(e, q, pos) && PlaceOk(e, q, n);
    forall l: nat | l < |q| ensures SwappedPositions(q, e, pos, n)[l] <= n <==> q[l] <= n - 1 || l == e[pos - 1].lbn {
      SwapBlock(e, q, pos, n, l);
      assert BlockOk(e, q, l);
    }
  }

  lemma RemoveMembers(e: seq<El>, q: seq<nat>, pos: nat, n: nat)
    requires Perm(e, q) && 1 <= pos <= n <= |e|
    ensures e[pos - 1].lbn < |q| && e[n - 1].lbn < |q|
    ensures MembersOf(SwappedPositions(q, e, pos, n), n - 1) == MembersOf(q, n) - {e[pos - 1].lbn}
  {
    assert PlaceOk(e, q, pos) && PlaceOk(e, q, n);
    forall l: nat | l < |q| ensures SwappedPositions(q, e, pos, n)[l] <= n - 1 <==> q[l] <= n && l != e[pos - 1].lbn {
      SwapBlock(e, q, pos, n, l);
      assert BlockOk(e, q, l);
    }
  }

  lemma MemberAt(q: seq<nat>, l: nat, n: nat)
    requires l in MembersOf(q, n)
    ensures l < |q| && q[l] <= n
  {
  }

  lemma AppendReady(e: seq<El>, n: nat, pos: nat)
    requires 1 <= n <= pos <= |e| && Ordered(e, n - 1)
    ensures UpReady(Swapped(e, pos, n), n, n)
  {
    var e' := Swapped(e, pos, n);
    forall p: nat | 2 <= p <= n && p != n ensures Le(e', p) {
      assert Le(e, p);
    }
  }

  lemma LastRemoved(e: seq<El>, e': seq<El>, n: nat)
    requires 1 <= n <= |e| == |e'| && Ordered(e, n) && forall p | 0 <= p < n - 1 :: e'[p] == e[p]
    ensures Ordered(e', n - 1) && DownReady(e', n - 1, n) && ChildrenOk(e', n - 1, n)
  {
    forall p: nat | 2 <= p <= n - 1 ensures Le(e', p) {
      assert Le(e, p);
    }
  }

  // ----- the heap of one bank -----

  class ValidChunksHeap {
    const size: nat
    var n: nat
    const el: array<El>
    const positions: array<nat>

    /** The array is a permutation of the blocks and the positions are its inverse. */
    ghost predicate Shape()
      reads this, el, positions
    {
      && 0 < size && 2 * size + 1 < U16 && el.Length == size && positions.Length == size && n <= size
      && Perm(el[..], positions[..])
      && Small(el[..])
    }

    ghost predicate Valid()
      reads this, el, positions
    {
      Shape() && Ordered(el[..], n)
    }

    ghost function Counts(): seq<nat>
      reads this, el, positions
      requires Shape()
    {
      CountsOf(el[..], positions[..])
    }

    ghost function Members(): set<nat>
      reads this, positions
    {
      MembersOf(positions[..], n)
    }

    /** ValidChunksHeapInit: every block has the initial count, none is in the heap. */
    constructor (size: nat, initialValue: nat)
      requires 0 < size && 2 * size + 1 < U16 && initialValue < U16
      ensures Valid() && this.size == size && fresh(el) && fresh(positions)
      ensures Members() == {} && Counts() == seq(size, _ => initialValue)
    {
      this.size, this.n := size, 0;
      var e := new El[size](i => El(initialValue, i));
      var q := new nat[size](i => i + 1);
      el, positions := e, q;
    }

    /** swap: two elements, and their entries of the position table. */
    method Swap(i: nat, j: nat)
      requires Shape() && 1 <= i <= size && 1 <= j <= size
      modifies el, positions
      ensures el[..] == Swapped(old(el[..]), i, j)
        && positions[..] == SwappedPositions(old(positions[..]), old(el[..]), i, j)
      ensures Shape() && Counts() == old(Counts()) && ((i <= n <==> j <= n) ==> Members() == old(Members()))
    {
      hide Perm, CountsOf, MembersOf, Small, Swapped, SwappedPositions;
      ghost var e, q := el[..], positions[..];
      InRange(e, q, i);
      InRange(e, q, j);
      SwapCounts(e, q, i, j);
      SwapSmall(e, i, j);
      if i <= n <==> j <= n {
        SwapMembers(e, q, i, j, n);
      }
      Exchange(i, j);
    }

    /** bubbleUp: the element at `pos` rises past every larger father. */
    method BubbleUp(pos: nat)
      requires Shape() && 1 <= pos <= n
      modifies el, positions
      ensures Shape() && Counts() == old(Counts()) && Members() == old(Members())
      ensures old(UpReady(el[..], n, pos)) ==> Valid()
    {
      hide Perm, CountsOf, MembersOf, UpReady, Ordered;
      var child := pos;
      while child > 1 && el[child - 1].value < el[child / 2 - 1].value
        invariant 1 <= child <= n && Shape()
        invariant Counts() == old(Counts()) && Members() == old(Members())
        invariant old(UpReady(el[..], n, pos)) ==> UpReady(el[..], n, child)
      {
        if UpReady(el[..], n, child) {
          UpStep(el[..], n, child);
        }
        Swap(child, child / 2);
        child := child / 2;
      }
      if UpReady(el[..], n, child) {
        UpDone(el[..], n, child);
      }
    }

    /** bubbleDown: the element at `pos` sinks past smaller children.  It does nothing if there are none. */
    method BubbleDown(pos: nat)
      requires Shape() && 1 <= pos <= size && (DownReady(el[..], n, pos) || ChildrenOk(el[..], n, pos))
      modifies el, positions
      ensures Shape() && Counts() == old(Counts()) && Members() == old(Members())
      ensures old(DownReady(el[..], n, pos)) ==> Valid()
      ensures old(ChildrenOk(el[..], n, pos)) ==> el[..] == old(el[..])
    {
      hide Perm, CountsOf, MembersOf, DownReady, Ordered, ChildrenOk;
      var father := pos;
      while true
        invariant 1 <= father <= size && Shape()
        invariant Counts() == old(Counts()) && Members() == old(Members())
        invariant old(DownReady(el[..], n, pos)) ==> DownReady(el[..], n, father)
        invariant old(ChildrenOk(el[..], n, pos)) ==> father == pos && el[..] == old(el[..])
        invariant !old(ChildrenOk(el[..], n, pos)) ==> old(DownReady(el[..], n, pos))
        decreases size - father
      {
        var child1, child2 := father * 2 % U16, (father * 2 + 1) % U16;
        if child1 > n {
          ChildrenDone(el[..], n, father);
          break;
        }
        var child := child1;
        if child2 > n {
          if el[father - 1].value <= el[child1 - 1].value {
            ChildrenDone(el[..], n, father);
            break;
          }
        } else {
          if el[father - 1].value <= el[child1 - 1].value && el[father - 1].value <= el[child2 - 1].value {
            ChildrenDone(el[..], n, father);
            break;
          }
          child := if el[child1 - 1].value < el[child2 - 1].value then child1 else child2;
        }
        NotDone(el[..], n, father, child);
        SmallestChild(el[..], n, father, child);
        DownStep(el[..], n, father, child);
        Swap(father, child);
        father := child;
      }
      if old(DownReady(el[..], n, pos)) {
        DownDone(el[..], n, father);
      }
    }

    /** The element of block `l` gets value `v`, wherever it is. */
    method SetValue(l: nat, v: nat)
      requires Shape() && l < size && v < U16
      modifies el
      ensures Shape() && Counts() == old(Counts())[l := v] && Members() == old(Members())
      ensures el[..] == old(el[..])[positions[l] - 1 := El(v, l)]
    {
      hide CountsOf, MembersOf;
      SetPerm(el[..], positions[..], l, v);
      ghost var e := el[..];
      SetSmall(e, positions[l] - 1, El(v, l));
      var pos := positions[l];
      el[pos - 1] := El(v, l);
      assert el[..] == e[pos - 1 := El(v, l)];
    }

    /** decrementValidChunks: traps on a zero count. */
    method Decrement(l: nat) returns (o: Outcome)
      requires Valid() && l < size
      modifies el, positions
      ensures o == if old(Counts())[l] == 0 then Fail(Halted) else Pass
      ensures Valid() && Members() == old(Members())
      ensures Counts() == if o.Pass? then old(Counts())[l := old(Counts())[l] - 1] else old(Counts())
    {
      hide Perm, CountsOf, MembersOf, Ordered;
      AtPosition(el[..], positions[..], l);
      assert el[positions[l] - 1].value < U16;
      Wrap(Counts()[l], 1);
      o := DecrementByN(l, 1);
    }

    /** decrementValidChunksByN: traps on a zero count; a larger decrement than the count wraps
        around in sixteen bits, and only then the order may be lost. */
    method DecrementByN(l: nat, k: nat) returns (o: Outcome)
      requires Valid() && l < size && k < U16
      modifies el, positions
      ensures o == if old(Counts())[l] == 0 then Fail(Halted) else Pass
      ensures Shape() && Members() == old(Members())
      ensures Counts() == if o.Pass? then old(Counts())[l := (old(Counts())[l] + U16 - k) % U16] else old(Counts())
      ensures k <= old(Counts())[l] || o.Fail? ==> Valid()
    {
      hide Perm, CountsOf, MembersOf, Ordered;
      AtPosition(el[..], positions[..], l);
      var pos := positions[l];
      var value := el[pos - 1].value;
      if value == 0 {
        return Fail(Halted);
      }
      ghost var e := el[..];
      var v := (value + U16 - k) % U16;
      SetValue(l, v);
      if pos <= n {
        if k <= value {
          LowerReady(e, n, pos, v);
        }
        BubbleUp(pos);
      } else {
        OutsideOrdered(e, n, pos, El(v, l));
      }
      o := Pass;
    }

    /** setValidChunks: traps on a block that is in the heap. */
    method SetValidChunks(l: nat, v: nat) returns (o: Outcome)
      requires Valid() && l < size && v < U16
      modifies el
      ensures o == if l in Members() then Fail(Halted) else Pass
      ensures Valid() && Members() == old(Members())
        && Counts() == if o.Pass? then old(Counts())[l := v] else old(Counts())
    {
      hide Perm, CountsOf, Ordered;
      AtPosition(el[..], positions[..], l);
      if positions[l] <= n {
        return Fail(Halted);
      }
      ghost var e := el[..];
      SetValue(l, v);
      OutsideOrdered(e, n, positions[l], El(v, l));
      o := Pass;
    }

    /** insertBlkInHeap: a block outside the heap enters it with the count it has. */
    method Insert(l: nat)
      requires Valid() && l < size && l !in Members()
      modifies this, el, positions
      ensures Valid() && Members() == old(Members()) + {l} && Counts() == old(Counts())
    {
      hide Perm, CountsOf, Ordered, UpReady;
      AtPosition(el[..], positions[..], l);
      ghost var e, q := el[..], positions[..];
      var pos := positions[l];
      n := n + 1;
      InsertMembers(e, q, pos, n);
      AppendReady(e, n, pos);
      Swap(pos, n);
      BubbleUp(n);
    }

    /** resetValidChunksAndRemove: the last element takes the removed one's place and sinks.
        The order survives exactly when nothing was at the removed place's father that is larger:
        always for the root, which is what every caller passes. */
    method ResetAndRemove(l: nat, v: nat)
      requires Valid() && l in Members() && v < U16
      modifies this, el, positions
      ensures Shape() && Members() == old(Members()) - {l} && Counts() == old(Counts())[l := v]
      ensures Valid() <==> old(RemovalKeepsOrder(el[..], n, positions[l]))
    {
      hide Perm, CountsOf, Ordered, DownReady, ChildrenOk, MembersOf;
      MemberAt(positions[..], l, n);
      AtPosition(el[..], positions[..], l);
      ghost var e0 := el[..];
      var pos := positions[l];
      SetValue(l, v);
      ghost var e1, q1 := el[..], positions[..];
      RemoveMembers(e1, q1, pos, n);
      Swap(pos, n);
      n := n - 1;
      if pos <= n {
        RemovedReady(e0, el[..], n + 1, pos);
      } else {
        LastRemoved(e0, el[..], pos);
      }
      BubbleDown(pos);
    }

    /** getVictim and getVictimValidPagesNumber: the root. */
    method GetVictim() returns (victim: Option<nat>, value: nat)
      requires Valid()
      ensures victim.None? <==> Members() == {}
      ensures victim.None? ==> value == INVALID
      ensures victim.Some? ==>
        victim.value in Members() && value == Counts()[victim.value] && positions[victim.value] == 1
      ensures victim.Some? ==> forall l | l in Members() :: value <= Counts()[l]
    {
      hide Ordered;
      if n == 0 {
        forall l | 0 <= l < size ensures positions[..][l] >= 1 {
          AtPosition(el[..], positions[..], l);
        }
        return None, INVALID;
      }
      victim, value := Some(el[0].lbn), el[0].value;
      InRange(el[..], positions[..], 1);
      AtPosition(el[..], positions[..], el[0].lbn);
      assert el[..][0].lbn in Members();
      forall l | l in Members() ensures value <= Counts()[l] {
        AtPosition(el[..], positions[..], l);
        RootIsMinimum(el[..], n, positions[l]);
      }
    }

    method Exchange(i: nat, j: nat)
      requires 1 <= i <= size && 1 <= j <= size && el.Length == size && positions.Length == size
      requires el[i - 1].lbn < size && el[j - 1].lbn < size
      modifies el, positions
      ensures el[..] == Swapped(old(el[..]), i, j)
        && positions[..] == SwappedPositions(old(positions[..]), old(el[..]), i, j)
    {
      var el1, el2 := el[i - 1], el[j - 1];
      el[i - 1] := el2;
      el[j - 1] := el1;
      positions[el1.lbn] := j;
      positions[el2.lbn] := i;
    }
  }

  lemma ChildrenDone(e: seq<El>, n: nat, f: nat)
    requires 1 <= f && n <= |e|
    requires 2 * f <= n ==> e[f - 1].value <= e[2 * f - 1].value
    requires 2 * f + 1 <= n ==> e[f - 1].value <= e[2 * f].value
    ensures ChildrenOk(e, n, f)
  {
    forall p: nat | 2 <= p <= n && p / 2 == f ensures Le(e, p) {
      assert p == 2 * f || p == 2 * f + 1;
    }
  }

  lemma NotDone(e: seq<El>, n: nat, f: nat, child: nat)
    requires 1 <= f && child / 2 == f && 2 <= child <= n <= |e| && e[child - 1].value < e[f - 1].value
    ensures !ChildrenOk(e, n, f)
  {
    assert !Le(e, child);
  }

  lemma SmallestChild(e: seq<El>, n: nat, f: nat, child: nat)
    requires 1 <= f && n <= |e| && 2 <= child <= n
    requires || (child == 2 * f && (2 * f + 1 <= n ==> e[child - 1].value < e[2 * f].value))
             || (child == 2 * f + 1 && e[child - 1].value <= e[2 * f - 1].value)
    ensures forall p: nat | 2 <= p <= n && p / 2 == f :: e[child - 1].value <= e[p - 1].value
  {
    forall p: nat | 2 <= p <= n && p / 2 == f ensures e[child - 1].value <= e[p - 1].value {
      assert p == 2 * f || p == 2 * f + 1;
    }
  }

  lemma AtPosition(e: seq<El>, q: seq<nat>, l: nat)
    requires Perm(e, q) && l < |q|
    ensures 1 <= q[l] <= |e| && e[q[l] - 1].lbn == l && CountsOf(e, q)[l] == e[q[l] - 1].value
  {
    assert BlockOk(e, q, l);
  }

  lemma OutsideOrdered(e: seq<El>, n: nat, pos: nat, x: El)
    requires n < pos <= |e| && Ordered(e, n)
    ensures Ordered(e[pos - 1 := x], n)
  {
    var e' := e[pos - 1 := x];
    forall p: nat | 2 <= p <= n ensures Le(e', p) {
      assert Le(e, p);
    }
  }

  lemma Wrap(c: nat, k: nat)
    requires c < U16 && k < U16
    ensures (c + U16 - k) % U16 == if k <= c then c - k else c + U16 - k
  {
  }

  lemma SetPerm(e: seq<El>, q: seq<nat>, l: nat, v: nat)
    requires Perm(e, q) && l < |q|
    ensures 1 <= q[l] <= |e| && Perm(e[q[l] - 1 := El(v, l)], q)
      && CountsOf(e[q[l] - 1 := El(v, l)], q) == CountsOf(e, q)[l := v]
  {
    AtPosition(e, q, l);
    var e' := e[q[l] - 1 := El(v, l)];
    forall p: nat | 1 <= p <= |e'| ensures PlaceOk(e', q, p) {
      assert PlaceOk(e, q, p);
    }
    forall k: nat | k < |q| ensures BlockOk(e', q, k) && e'[q[k] - 1] == if k == l then El(v, l) else e[q[k] - 1] {
      assert BlockOk(e, q, k);
    }
    assert Perm(e', q);
  }

  /** The heap after the last element took the place of the removed one. */
  lemma RemovedReady(e: seq<El>, e': seq<El>, n: nat, pos: nat)
    requires 1 <= pos < n <= |e| == |e'| && Ordered(e, n) && e'[pos - 1] == e[n - 1]
    requires forall p | 0 <= p < n - 1 && p != pos - 1 :: e'[p] == e[p]
    ensures pos == 1 || e[pos / 2 - 1].value <= e[n - 1].value ==> DownReady(e', n - 1, pos)
    ensures pos > 1 && e[n - 1].value < e[pos / 2 - 1].value ==> ChildrenOk(e', n - 1, pos) && !Ordered(e', n - 1)
  {
    forall p: nat | 2 <= p <= n - 1 && p / 2 != pos && p != pos ensures Le(e', p) {
      assert Le(e, p);
    }
    forall p: nat | 2 <= p <= n - 1 && p / 2 == pos && pos > 1 ensures e[pos / 2 - 1].value <= e'[p - 1].value {
      assert Le(e, p) && Le(e, pos);
    }
    if pos > 1 && e[n - 1].value < e[pos / 2 - 1].value {
      assert !Le(e', pos);
      forall p: nat | 2 <= p <= n - 1 && p / 2 == pos ensures Le(e', p) {
        assert Le(e, p) && Le(e, pos);
      }
    }
  }

  lemma InRange(e: seq<El>, q: seq<nat>, p: nat)
    requires Perm(e, q) && 1 <= p <= |e|
    ensures e[p - 1].lbn < |e| && q[e[p - 1].lbn] == p
  {
    assert PlaceOk(e, q, p);
  }
}
