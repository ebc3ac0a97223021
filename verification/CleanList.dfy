/** cleanList.c: one queue of clean blocks per bank, all built from one pool of nodes. */
module CleanList {
  import opened Base

  function First(q: seq<nat>): Option<nat> {
    if |q| == 0 then None else Some(q[0])
  }

  function Last(q: seq<nat>): Option<nat> {
    if |q| == 0 then None else Some(q[|q| - 1])
  }

  /** What the `i`th node of a chain points to. */
  function Following(q: seq<nat>, i: nat): Option<nat> {
    if i + 1 < |q| then Some(q[i + 1]) else None
  }

  /** The nodes of `q` are chained in that order, and the last one ends the chain. */
  ghost predicate Linked(next: seq<Option<nat>>, q: seq<nat>) {
    forall i | 0 <= i < |q| :: q[i] < |next| && next[q[i]] == Following(q, i)
  }

  /** The nodes `lo` to `hi` are those of the live and the unused chain, each once. */
  ghost predicate Conserved(live: seq<nat>, free: seq<nat>, lo: nat, hi: nat) {
    && NoDups(live) && NoDups(free) && (forall i, j | 0 <= i < |live| && 0 <= j < |free| :: live[i] != free[j])
    && (forall x :: x in live || x in free <==> lo <= x < hi)
    && |live| + |free| == hi - lo
  }

  /** What one bank's pointers mean. */
  ghost predicate BankOk(next: seq<Option<nat>>, head: Option<nat>, tail: Option<nat>, unused: Option<nat>, size: nat,
                         live: seq<nat>, free: seq<nat>, lo: nat, hi: nat) {
    && lo <= hi <= |next| && Conserved(live, free, lo, hi) && Linked(next, live) && Linked(next, free)
    && head == First(live) && tail == Last(live) && unused == First(free) && size == |live|
  }

  // ----- one bank, on sequences -----

  function Append(next: seq<Option<nat>>, tail: Option<nat>, x: nat): seq<Option<nat>>
    requires x < |next| && (tail.Some? ==> tail.value < |next|)
  {
    if tail.Some? then next[x := None][tail.value := Some(x)] else next[x := None]
  }

  lemma PushConserved(live: seq<nat>, free: seq<nat>, lo: nat, hi: nat)
    requires Conserved(live, free, lo, hi) && free != []
    ensures Conserved(live + [free[0]], free[1..], lo, hi)
  {
    forall x ensures x in live + [free[0]] || x in free[1..] <==> x in live || x in free {
      assert free == [free[0]] + free[1..];
    }
  }

  /** A chain is not affected by links of nodes outside it. */
  lemma LinkedOutside(next: seq<Option<nat>>, q: seq<nat>, x: nat, v: Option<nat>)
    requires Linked(next, q) && x < |next| && x !in q
    ensures Linked(next[x := v], q)
  {
    forall i | 0 <= i < |q| ensures q[i] != x {
      assert q[i] in q;
    }
  }

  lemma LinkedTail(next: seq<Option<nat>>, q: seq<nat>)
    requires Linked(next, q) && q != []
    ensures Linked(next, q[1..]) && next[q[0]] == First(q[1..])
  {
    forall i | 0 <= i < |q[1..]| ensures q[1..][i] < |next| && next[q[1..][i]] == Following(q[1..], i) {
      assert q[1..][i] == q[i + 1] && Following(q[1..], i) == Following(q, i + 1);
    }
  }

  lemma LinkedAppend(next: seq<Option<nat>>, q: seq<nat>, x: nat)
    requires Linked(next, q) && NoDups(q) && x < |next| && x !in q
    ensures q != [] ==> q[|q| - 1] < |next|
    ensures Linked(Append(next, Last(q), x), q + [x])
  {
    var q' := q + [x];
    forall i | 0 <= i < |q'| ensures q'[i] < |next| && Append(next, Last(q), x)[q'[i]] == Following(q', i) {
      if i < |q| {
        assert q[i] in q && q[i] != x;
        assert i < |q| - 1 ==> q[i] != q[|q| - 1];
      } else if q != [] {
        assert q[|q| - 1] in q;
      }
    }
  }

  lemma LinkedPrepend(next: seq<Option<nat>>, q: seq<nat>, x: nat)
    requires Linked(next, q) && x < |next| && x !in q
    ensures Linked(next[x := First(q)], [x] + q)
  {
    var q' := [x] + q;
    forall i | 0 <= i < |q'| ensures q'[i] < |next| && next[x := First(q)][q'[i]] == Following(q', i) {
      if 0 < i {
        assert q'[i] == q[i - 1] && q[i - 1] in q && Following(q', i) == Following(q, i - 1);
      }
    }
  }

  lemma Apart(live: seq<nat>, free: seq<nat>, lo: nat, hi: nat)
    requires Conserved(live, free, lo, hi)
    ensures free != [] ==> free[0] !in live && free[0] !in free[1..]
    ensures live != [] ==> live[0] !in free && live[0] !in live[1..] && live[|live| - 1] !in free
  {
  }

  lemma PushOk(next: seq<Option<nat>>, head: Option<nat>, tail: Option<nat>, unused: Option<nat>, size: nat,
               live: seq<nat>, free: seq<nat>, lo: nat, hi: nat)
    requires BankOk(next, head, tail, unused, size, live, free, lo, hi) && free != []
    ensures free[0] < |next| && (tail.Some? ==> tail.value < |next|)
    ensures BankOk(Append(next, tail, free[0]), if head.None? then Some(free[0]) else head, Some(free[0]),
                   next[free[0]], size + 1,
                   live + [free[0]], free[1..], lo, hi)
  {
    var x := free[0];
    Apart(live, free, lo, hi);
    PushConserved(live, free, lo, hi);
    LinkedTail(next, free);
    hide Linked, Conserved;
    assert free[0] in free by { assert free[0] == free[0]; }
    PushLinks(next, live, free, lo, hi);
  }

  lemma PushLinks(next: seq<Option<nat>>, live: seq<nat>, free: seq<nat>, lo: nat, hi: nat)
    requires hi <= |next| && Conserved(live, free, lo, hi) && Linked(next, live) && Linked(next, free) && free != []
    ensures free[0] < |next| && (live != [] ==> live[|live| - 1] < |next|)
    ensures Linked(Append(next, Last(live), free[0]), live + [free[0]])
      && Linked(Append(next, Last(live), free[0]), free[1..])
  {
    Apart(live, free, lo, hi);
    LinkedTail(next, free);
    LinkedAppend(next, live, free[0]);
    LinkedOutside(next, free[1..], free[0], None);
    if live != [] {
      assert live[|live| - 1] !in free[1..] by { assert free == [free[0]] + free[1..]; }
      LinkedOutside(next[free[0] := None], free[1..], live[|live| - 1], Some(free[0]));
    }
  }

  lemma PopConserved(live: seq<nat>, free: seq<nat>, lo: nat, hi: nat)
    requires Conserved(live, free, lo, hi) && live != []
    ensures Conserved(live[1..], [live[0]] + free, lo, hi)
  {
    forall x ensures x in live[1..] || x in [live[0]] + free <==> x in live || x in free {
      assert live == [live[0]] + live[1..];
    }
  }

  lemma PopOk(next: seq<Option<nat>>, head: Option<nat>, tail: Option<nat>, unused: Option<nat>, size: nat,
              live: seq<nat>, free: seq<nat>, lo: nat, hi: nat)
    requires BankOk(next, head, tail, unused, size, live, free, lo, hi) && live != []
    ensures live[0] < |next| && 0 < size
    ensures BankOk(next[live[0] := unused], next[live[0]], if head == tail then None else tail, Some(live[0]), size - 1,
                   live[1..], [live[0]] + free, lo, hi)
    ensures head == tail <==> |live| == 1
  {
    PopConserved(live, free, lo, hi);
    Apart(live, free, lo, hi);
    LinkedTail(next, live);
    LinkedOutside(next, live[1..], live[0], unused);
    LinkedPrepend(next, free, live[0]);
    assert |live| > 1 ==> live[0] != live[|live| - 1];
    hide Linked, Conserved;
  }

  /** Links of another bank's nodes do not matter. */
  lemma OtherOk(next: seq<Option<nat>>, next': seq<Option<nat>>, head: Option<nat>, tail: Option<nat>,
                unused: Option<nat>, size: nat, live: seq<nat>, free: seq<nat>, lo: nat, hi: nat)
    requires BankOk(next, head, tail, unused, size, live, free, lo, hi)
    requires |next'| == |next| && forall x | lo <= x < hi :: next'[x] == next[x]
    ensures BankOk(next', head, tail, unused, size, live, free, lo, hi)
  {
    forall i | 0 <= i < |live| ensures lo <= live[i] < hi {
      assert live[i] in live;
    }
    forall i | 0 <= i < |free| ensures lo <= free[i] < hi {
      assert free[i] in free;
    }
  }

  lemma Slices(b: nat, c: nat, banks: nat, per: nat)
    requires b < banks && c < banks && b != c
    ensures (b + 1) * per <= c * per || (c + 1) * per <= b * per
    ensures b * per <= (b + 1) * per <= banks * per
  {
    Monotone(b + 1, banks, per);
    Monotone(b, b + 1, per);
    if b < c {
      Monotone(b + 1, c, per);
    } else {
      Monotone(c + 1, b, per);
    }
  }

  lemma Monotone(a: nat, b: nat, n: nat)
    requires a <= b
    ensures a * n <= b * n
  {
  }

  // ----- the pool -----

  class CleanLists {
    const banks: nat
    const per: nat
    const next: array<Option<nat>>
    const lbn: array<nat>
    const head: array<Option<nat>>
    const tail: array<Option<nat>>
    const unused: array<Option<nat>>
    const size: array<nat>

    /** The chains of each bank, from head to tail. */
    ghost var live: seq<seq<nat>>
    ghost var free: seq<seq<nat>>

    ghost predicate Shape()
      reads this
    {
      && 0 < per && next.Length == lbn.Length == banks * per
      && head.Length == tail.Length == unused.Length == size.Length == banks && |live| == |free| == banks
      && next != head && next != tail && next != unused && head != tail && head != unused && tail != unused
      && lbn != size
    }

    ghost predicate Ok(b: nat)
      reads this, next, head, tail, unused, size
      requires Shape() && b < banks
    {
      BankOk(next[..], head[b], tail[b], unused[b], size[b], live[b], free[b], b * per, (b + 1) * per)
    }

    ghost predicate Valid()
      reads this, next, lbn, head, tail, unused, size
    {
      Shape() && forall b | 0 <= b < banks :: Ok(b)
    }

    /** The queue of bank `b`. */
    ghost function Queue(b: nat): (q: seq<nat>)
      reads this, next, lbn, head, tail, unused, size
      requires Valid() && b < banks
      ensures |q| == |live[b]|
    {
      QueueOf(lbn[..], live[b])
    }

    /** cleanListInit: each bank's slice becomes one chain of unused nodes. */
    constructor (banks: nat, per: nat)
      requires 0 < per
      ensures Valid() && this.banks == banks && this.per == per
      ensures forall b | 0 <= b < banks :: Queue(b) == []
      ensures fresh(next) && fresh(lbn) && fresh(head) && fresh(tail) && fresh(unused) && fresh(size)
    {
      var links, firsts := InitLinks(banks, per);
      this.banks, this.per := banks, per;
      next, lbn, unused := links, new nat[banks * per](_ => 0), firsts;
      head, tail, size := new Option<nat>[banks](_ => None), new Option<nat>[banks](_ => None), new nat[banks](_ => 0);
      live, free := seq(banks, _ => []), seq(banks, b requires 0 <= b => Nodes(b * per, per));
      new;
      forall b | 0 <= b < banks ensures Ok(b) {
        Slices2(b, banks, per);
        ChainedOk(next[..], b * per, per);
      }
    }

    /** The pointer work of cleanListPush. */
    method LinkAtTail(bank: nat, x: nat, logLbn: nat)
      requires Shape() && bank < banks && x < next.Length && (tail[bank].Some? ==> tail[bank].value < next.Length)
      modifies next, lbn, head, tail, unused, size
      ensures next[..] == Append(old(next[..]), old(tail[bank]), x) && lbn[..] == old(lbn[..])[x := logLbn]
      ensures unused[..] == old(unused[..])[bank := old(next[x])] && tail[..] == old(tail[..])[bank := Some(x)]
      ensures head[..] == if old(head[bank]).None? then old(head[..])[bank := Some(x)] else old(head[..])
      ensures size[..] == old(size[..])[bank := old(size[bank]) + 1]
    {
      unused[bank] := next[x];
      lbn[x] := logLbn;
      next[x] := None;
      if tail[bank].Some? {
        next[tail[bank].value] := Some(x);
      }
      tail[bank] := Some(x);
      if head[bank].None? {
        head[bank] := tail[bank];
      }
      size[bank] := size[bank] + 1;
    }

    /** Relinking nodes of one bank leaves the other banks as they are. */
    lemma OthersKept(bank: nat, next': seq<Option<nat>>)
      requires Valid() && bank < banks && |next'| == next.Length
      requires forall y | 0 <= y < |next'| && !(bank * per <= y < (bank + 1) * per) :: next'[y] == next[y]
      ensures forall b | 0 <= b < banks && b != bank ::
        BankOk(next', head[b], tail[b], unused[b], size[b], live[b], free[b], b * per, (b + 1) * per)
    {
      hide BankOk;
      forall b | 0 <= b < banks && b != bank
        ensures BankOk(next', head[b], tail[b], unused[b], size[b], live[b], free[b], b * per, (b + 1) * per)
      {
        assert Ok(b);
        Slices(b, bank, banks, per);
        OtherOk(next[..], next', head[b], tail[b], unused[b], size[b], live[b], free[b], b * per, (b + 1) * per);
      }
    }

    /** cleanListPush: traps exactly when every node of the bank is in use. */
    method Push(bank: nat, logLbn: nat) returns (o: Outcome)
      requires Valid() && bank < banks
      modifies this, next, lbn, head, tail, unused, size
      ensures Valid() && o == if |old(Queue(bank))| == per then Fail(Halted) else Pass
      ensures Queue(bank) == if o.Pass? then old(Queue(bank)) + [logLbn] else old(Queue(bank))
      ensures forall b | 0 <= b < banks && b != bank :: Queue(b) == old(Queue(b))
    {
      hide BankOk, QueueOf, Append;
      assert Ok(bank);
      Slices2(bank, banks, per);
      BankFacts(next[..], head[bank], tail[bank], unused[bank], size[bank], live[bank], free[bank], bank * per,
                (bank + 1) * per);
      if unused[bank].None? {
        return Fail(Halted);
      }
      var x := unused[bank].value;
      ghost var next0, lbn0, tail0 := next[..], lbn[..], tail[bank];
      ghost var live0, free0 := live, free;
      PushOk(next0, head[bank], tail0, unused[bank], size[bank], live[bank], free[bank], bank * per, (bank + 1) * per);
      AppendOutside(next0, tail0, x, bank * per, (bank + 1) * per);
      OthersKept(bank, Append(next0, tail0, x));
      forall b | 0 <= b < banks && b != bank
        ensures QueueOf(lbn0[x := logLbn], live[b]) == QueueOf(lbn0, live[b])
      {
        assert Ok(b);
        Slices(b, bank, banks, per);
        QueueOther(next0, head[b], tail[b], unused[b], size[b], live[b], free[b], b * per, (b + 1) * per, lbn0, x,
                   logLbn);
      }
      QueuePush(lbn0, live[bank], x, logLbn);
      LinkAtTail(bank, x, logLbn);
      live, free := live[bank := live[bank] + [x]], free[bank := free[bank][1..]];
      forall b | 0 <= b < banks ensures Ok(b) {
        if b != bank {
          assert live[b] == live0[b] && free[b] == free0[b];
        }
      }
      o := Pass;
    }

    /** The pointer work of cleanListPop. */
    method UnlinkHead(bank: nat, x: nat)
      requires Shape() && bank < banks && x < next.Length && head[bank] == Some(x) && 0 < size[bank]
      modifies next, head, tail, unused, size
      ensures next[..] == old(next[..])[x := old(unused[bank])] && unused[..] == old(unused[..])[bank := Some(x)]
      ensures head[..] == old(head[..])[bank := old(next[x])]
      ensures tail[..] == if old(head[bank]) == old(tail[bank]) then old(tail[..])[bank := None] else old(tail[..])
      ensures size[..] == old(size[..])[bank := old(size[bank]) - 1]
    {
      if head[bank] == tail[bank] {
        tail[bank] := None;
      }
      var newHead := next[x];
      next[x] := unused[bank];
      unused[bank] := head[bank];
      head[bank] := newHead;
      size[bank] := size[bank] - 1;
    }

    /** cleanListPop: traps exactly on an empty queue; the size never goes below zero. */
    method Pop(bank: nat) returns (o: Outcome, logLbn: nat)
      requires Valid() && bank < banks
      modifies this, next, head, tail, unused, size
      ensures Valid() && o == if old(Queue(bank)) == [] then Fail(Halted) else Pass
      ensures o.Pass? ==> old(Queue(bank)) == [logLbn] + Queue(bank)
      ensures o.Fail? ==> Queue(bank) == old(Queue(bank))
      ensures forall b | 0 <= b < banks && b != bank :: Queue(b) == old(Queue(b))
    {
      hide BankOk, QueueOf;
      assert Ok(bank);
      Slices2(bank, banks, per);
      BankFacts(next[..], head[bank], tail[bank], unused[bank], size[bank], live[bank], free[bank], bank * per,
                (bank + 1) * per);
      if head[bank].None? {
        return Fail(Halted), 0;
      }
      var x := head[bank].value;
      ghost var next0, lbn0 := next[..], lbn[..];
      ghost var live0, free0 := live, free;
      PopOk(next0, head[bank], tail[bank], unused[bank], size[bank], live[bank], free[bank], bank * per,
            (bank + 1) * per);
      OthersKept(bank, next0[x := unused[bank]]);
      QueuePop(lbn0, live[bank]);
      logLbn := lbn[x];
      UnlinkHead(bank, x);
      live, free := live[bank := live[bank][1..]], free[bank := [x] + free[bank]];
      forall b | 0 <= b < banks ensures Ok(b) {
        if b != bank {
          assert live[b] == live0[b] && free[b] == free0[b];
        }
      }
      o := Pass;
    }

    /** cleanListSize. */
    method Size(bank: nat) returns (n: nat)
      requires Valid() && bank < banks
      ensures n == |Queue(bank)| <= per
    {
      assert Ok(bank);
      Slices2(bank, banks, per);
      n := size[bank];
    }
  }

  /** What a bank's pointers say about its chains. */
  lemma BankFacts(next: seq<Option<nat>>, head: Option<nat>, tail: Option<nat>, unused: Option<nat>, size: nat,
                  live: seq<nat>, free: seq<nat>, lo: nat, hi: nat)
    requires BankOk(next, head, tail, unused, size, live, free, lo, hi)
    ensures |live| + |free| == hi - lo && size == |live|
    ensures unused == First(free) && head == First(live)
    ensures unused.Some? ==> lo <= unused.value < hi
    ensures head.Some? ==> lo <= head.value < hi
    ensures tail.Some? ==> lo <= tail.value < hi && lo <= hi <= |next|
    ensures free != [] ==> free[0] !in live
  {
    if unused.Some? {
      assert free[0] in free;
    }
    if head.Some? {
      assert live[0] in live && live[|live| - 1] in live;
    }
  }

  lemma AppendOutside(next: seq<Option<nat>>, tail: Option<nat>, x: nat, lo: nat, hi: nat)
    requires hi <= |next| && lo <= x < hi && (tail.Some? ==> lo <= tail.value < hi)
    ensures |Append(next, tail, x)| == |next|
      && forall y | 0 <= y < |next| && !(lo <= y < hi) :: Append(next, tail, x)[y] == next[y]
  {
  }

  lemma QueueOther(next: seq<Option<nat>>, head: Option<nat>, tail: Option<nat>, unused: Option<nat>, size: nat,
                   live: seq<nat>, free: seq<nat>, lo: nat, hi: nat, lbn: seq<nat>, x: nat, v: nat)
    requires BankOk(next, head, tail, unused, size, live, free, lo, hi) && !(lo <= x < hi) && x < |lbn|
    ensures QueueOf(lbn[x := v], live) == QueueOf(lbn, live)
  {
    forall i | 0 <= i < |live| ensures live[i] != x {
      assert live[i] in live;
    }
  }

  lemma QueuePush(lbn: seq<nat>, live: seq<nat>, x: nat, v: nat)
    requires x < |lbn| && x !in live
    ensures QueueOf(lbn[x := v], live + [x]) == QueueOf(lbn, live) + [v]
  {
    forall i | 0 <= i < |live| ensures live[i] != x {
      assert live[i] in live;
    }
  }

  lemma QueuePop(lbn: seq<nat>, live: seq<nat>)
    requires live != [] && live[0] < |lbn|
    ensures QueueOf(lbn, live) == [lbn[live[0]]] + QueueOf(lbn, live[1..])
  {
  }

  /** The next pointers and the first unused node of each bank. */
  method InitLinks(banks: nat, per: nat) returns (links: array<Option<nat>>, firsts: array<Option<nat>>)
    requires 0 < per
    ensures fresh(links) && fresh(firsts) && links != firsts && links.Length == banks * per && firsts.Length == banks
    ensures forall b | 0 <= b < banks :: Chained(links[..], b * per, per) && firsts[b] == Some(b * per)
  {
    hide Chained;
    links := new Option<nat>[banks * per](_ => None);
    firsts := new Option<nat>[banks](_ => None);
    for bank := 0 to banks
      invariant fresh(links) && fresh(firsts) && links != firsts && links.Length == banks * per
        && firsts.Length == banks
      invariant forall c | 0 <= c < bank :: Chained(links[..], c * per, per) && firsts[c] == Some(c * per)
    {
      ghost var before := links[..];
      Slices2(bank, banks, per);
      firsts[bank] := Some(bank * per);
      InitChain(links, bank * per, per);
      forall c | 0 <= c < bank ensures Chained(links[..], c * per, per) {
        Slices(c, bank, banks, per);
        SameChain(before, links[..], c * per, per);
      }
    }
  }

  lemma SameChain(next: seq<Option<nat>>, next': seq<Option<nat>>, lo: nat, n: nat)
    requires Chained(next, lo, n) && lo + n <= |next| == |next'| && forall x | lo <= x < lo + n :: next'[x] == next[x]
    ensures Chained(next', lo, n)
  {
  }

  method InitChain(links: array<Option<nat>>, addr: nat, per: nat)
    requires 0 < per && addr + per <= links.Length
    modifies links
    ensures Chained(links[..], addr, per)
    ensures forall x | 0 <= x < links.Length && !(addr <= x < addr + per) :: links[x] == old(links[x])
  {
    for i := 0 to per - 1
      invariant forall x | 0 <= x < links.Length && !(addr <= x < addr + i) :: links[x] == old(links[x])
      invariant forall x | addr <= x < addr + i :: links[x] == Some(x + 1)
    {
      links[addr + i] := Some(addr + i + 1);
    }
    links[addr + per - 1] := None;
  }

  function Nodes(lo: nat, n: nat): seq<nat> {
    seq(n, i requires 0 <= i => lo + i)
  }

  ghost predicate Chained(next: seq<Option<nat>>, lo: nat, n: nat) {
    forall x | lo <= x < lo + n :: x < |next| && next[x] == if x + 1 < lo + n then Some(x + 1) else None
  }

  lemma ChainedOk(next: seq<Option<nat>>, lo: nat, n: nat)
    requires 0 < n && lo + n <= |next| && Chained(next, lo, n)
    ensures BankOk(next, None, None, Some(lo), 0, [], Nodes(lo, n), lo, lo + n)
  {
    hide Conserved;
    NodesConserved(lo, n);
    var q := Nodes(lo, n);
    forall i | 0 <= i < n ensures next[q[i]] == Following(q, i) {
    }
  }

  lemma NodesConserved(lo: nat, n: nat)
    ensures Conserved([], Nodes(lo, n), lo, lo + n)
  {
    var q := Nodes(lo, n);
    forall x ensures x in q <==> lo <= x < lo + n {
      if lo <= x < lo + n {
        assert q[x - lo] == x;
      }
    }
  }

  lemma Slices2(b: nat, banks: nat, per: nat)
    requires b < banks
    ensures (b + 1) * per == b * per + per <= banks * per
  {
    Monotone(b + 1, banks, per);
  }

  ghost function QueueOf(lbn: seq<nat>, q: seq<nat>): (r: seq<nat>)
    ensures |r| == |q|
  {
    seq(|q|, i requires 0 <= i < |q| => if q[i] < |lbn| then lbn[q[i]] else 0)
  }
}
