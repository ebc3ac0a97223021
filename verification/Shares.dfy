/** Host pages go to the banks in turn: what each bank has to take of a sequence of page writes. */
module Shares {
  import opened Base
  import opened Room
  import opened Log
  import opened Write

  /** The sectors of a request of `n` from `lba` on that are in its first page. */
  function InFirstPage(lba: nat, n: nat): (m: nat)
    ensures m <= n && lba % 64 + m <= 64 && (0 < n ==> 0 < m)
  {
    if lba % 64 + n < 64 then n else 64 - lba % 64
  }

  /** What a request costs page by page, in chunks. */
  function PageCosts(lba: nat, n: nat): seq<nat>
    decreases n
  {
    if n == 0 then []
    else [ChunksIn(lba % 64, InFirstPage(lba, n))] + PageCosts(lba + InFirstPage(lba, n), n - InFirstPage(lba, n))
  }

  /** What bank `b` takes of `costs`, when they go to the banks one by one in turn after `ref`. */
  function Share(ref: nat, banks: nat, costs: seq<nat>, b: nat): nat
    requires 0 < banks
  {
    if costs == [] then 0
    else
      Share(ref, banks, costs[..|costs| - 1], b) + if NthBank(ref, banks, |costs|) == b then costs[|costs| - 1] else 0
  }

  ghost predicate Fits(rooms: seq<Space>, ref: nat, banks: nat, costs: seq<nat>)
    requires 0 < banks
  {
    forall b | 0 <= b < |rooms| :: Share(ref, banks, costs, b) <= rooms[b].room
  }

  /** If each bank has room for its share, the call succeeds, no bank loses more than that, and the round robin has
      turned once for each of `costs`. */
  ghost predicate Shared(before: seq<Space>, after: seq<Space>, ref: nat, ref': nat, banks: nat, costs: seq<nat>,
                         o: Outcome)
    requires 0 < banks
  {
    Fits(before, ref, banks, costs) ==>
      && o.Pass? && ref' == NthBank(ref, banks, |costs|) && |after| == |before|
      && forall b | 0 <= b < |before| :: Spent(before[b], after[b], Share(ref, banks, costs, b))
  }

  lemma {:induction false} NthNth(ref: nat, banks: nat, m: nat, n: nat)
    requires 0 < banks
    ensures NthBank(NthBank(ref, banks, m), banks, n) == NthBank(ref, banks, m + n)
  {
    hide NextAfter;
    if n > 0 {
      NthNth(ref, banks, m, n - 1);
    }
  }

  lemma {:induction false} ShareSplits(ref: nat, banks: nat, xs: seq<nat>, ys: seq<nat>, b: nat)
    requires 0 < banks
    ensures Share(ref, banks, xs + ys, b) == Share(ref, banks, xs, b) + Share(NthBank(ref, banks, |xs|), banks, ys, b)
  {
    if ys == [] {
      assert xs + ys == xs;
    } else {
      hide NthBank;
      var zs := ys[..|ys| - 1];
      assert (xs + ys)[..|xs + ys| - 1] == xs + zs;
      ShareSplits(ref, banks, xs, zs, b);
      NthNth(ref, banks, |xs|, |ys|);
    }
  }

  lemma FitsSplits(rooms: seq<Space>, ref: nat, banks: nat, xs: seq<nat>, ys: seq<nat>)
    requires 0 < banks && Fits(rooms, ref, banks, xs + ys)
    ensures Fits(rooms, ref, banks, xs)
  {
    hide Share;
    forall b | 0 <= b < |rooms| ensures Share(ref, banks, xs, b) <= rooms[b].room {
      ShareSplits(ref, banks, xs, ys, b);
    }
  }

  lemma SharedNothing(rooms: seq<Space>, ref: nat, banks: nat)
    requires 0 < banks
    ensures Shared(rooms, rooms, ref, ref, banks, [], Pass)
  {
  }

  lemma SpentTrans(x: Space, y: Space, z: Space, m: nat, n: nat)
    requires Spent(x, y, m) && Spent(y, z, n)
    ensures Spent(x, z, m + n)
  {
  }

  lemma SharedThen(before: seq<Space>, mid: seq<Space>, after: seq<Space>, ref: nat, ref': nat, ref'': nat, banks: nat,
                   xs: seq<nat>, ys: seq<nat>, o: Outcome)
    requires 0 < banks && Shared(before, mid, ref, ref', banks, xs, Pass)
    requires Shared(mid, after, ref', ref'', banks, ys, o)
    ensures Shared(before, after, ref, ref'', banks, xs + ys, o)
  {
    hide Share, NthBank;
    if Fits(before, ref, banks, xs + ys) {
      FitsSplits(before, ref, banks, xs, ys);
      forall b | 0 <= b < |mid| ensures Share(ref', banks, ys, b) <= mid[b].room {
        ShareSplits(ref, banks, xs, ys, b);
        assert Spent(before[b], mid[b], Share(ref, banks, xs, b));
      }
      NthNth(ref, banks, |xs|, |ys|);
      forall b | 0 <= b < |before| ensures Spent(before[b], after[b], Share(ref, banks, xs + ys, b)) {
        ShareSplits(ref, banks, xs, ys, b);
        SpentTrans(before[b], mid[b], after[b], Share(ref, banks, xs, b), Share(ref', banks, ys, b));
      }
    }
  }

  /** A run that fails with some of its costs cannot have had room for all. */
  lemma SharedFails(before: seq<Space>, after: seq<Space>, ref: nat, ref': nat, banks: nat, xs: seq<nat>, ys: seq<nat>,
                    o: Outcome)
    requires 0 < banks && Shared(before, after, ref, ref', banks, xs, o) && o.Fail?
    ensures Shared(before, after, ref, ref', banks, xs + ys, o)
  {
    hide Fits;
    if Fits(before, ref, banks, xs + ys) {
      FitsSplits(before, ref, banks, xs, ys);
    }
  }

  /** One step more of a run that costs `xs` + `ys` + `zs` in all. */
  lemma SharedStep(before: seq<Space>, mid: seq<Space>, after: seq<Space>, ref: nat, ref': nat, ref'': nat, banks: nat,
                   xs: seq<nat>, ys: seq<nat>, zs: seq<nat>, o: Outcome)
    requires 0 < banks && Shared(before, mid, ref, ref', banks, xs, Pass)
    requires Shared(mid, after, ref', ref'', banks, ys, o)
    ensures Shared(before, after, ref, ref'', banks, xs + ys, o)
    ensures o.Fail? ==> Shared(before, after, ref, ref'', banks, xs + ys + zs, o)
  {
    hide Shared;
    SharedThen(before, mid, after, ref, ref', ref'', banks, xs, ys, o);
    if o.Fail? {
      SharedFails(before, after, ref, ref'', banks, xs + ys, zs, o);
    }
  }

  /** One page write. */
  lemma SharedOnce(before: seq<Space>, after: seq<Space>, ref: nat, ref': nat, banks: nat, cost: nat,
                   wiped: multiset<Blk>, wiped': multiset<Blk>, o: Outcome)
    requires 0 < banks == |before| && Pays(before, after, NthBank(ref, banks, 1), cost, o)
    requires Quietly(before, NthBank(ref, banks, 1), cost, wiped, wiped')
    requires o.Pass? && wiped' == wiped ==> ref' == NthBank(ref, banks, 1)
    ensures Shared(before, after, ref, ref', banks, [cost], o)
  {
    var bank := NthBank(ref, banks, 1);
    assert bank < banks;
    forall b ensures Share(ref, banks, [cost], b) == if b == bank then cost else 0 {
      assert [cost][..0] == [];
    }
    if Fits(before, ref, banks, [cost]) {
      assert before[bank].room >= Share(ref, banks, [cost], bank);
    }
  }

  /** Work of cost zero that does not turn the round robin. */
  lemma SharedFree(before: seq<Space>, after: seq<Space>, ref: nat, banks: nat)
    requires 0 < banks && Lasts(before, after, 0, Pass)
    ensures Shared(before, after, ref, ref, banks, [], Pass)
  {
  }

  // ----- whole pages -----

  lemma DivNext(x: nat, m: nat)
    requires 0 < m
    ensures (x + 1) / m == x / m + if (x + 1) % m == 0 then 1 else 0
  {
    var q, r := x / m, x % m;
    assert x == m * q + r;
    if r + 1 == m {
      assert x + 1 == m * (q + 1) + 0;
      DivIs(x + 1, m, q + 1, 0);
    } else {
      DivIs(x + 1, m, q, r + 1);
    }
  }

  lemma DivIs(x: nat, m: nat, q: nat, r: nat)
    requires r < m && x == m * q + r
    ensures x / m == q && x % m == r
  {
    var d := x / m - q;
    assert x == m * (x / m) + x % m;
    assert m * d == r - x % m by { assert m * d == m * (x / m) - m * q; }
    Grows(m, d);
  }

  lemma Grows(m: nat, d: int)
    ensures d > 0 ==> m * d >= m
    ensures d < 0 ==> m * d <= -(m as int)
  {
  }

  /** From bank 0 on, the `n`th page goes to bank `n` modulo the number of banks. */
  lemma {:induction false} NthFromZero(banks: nat, n: nat)
    requires 0 < banks
    ensures NthBank(0, banks, n) == n % banks
  {
    if n == 0 {
      DivIs(0, banks, 0, 0);
    } else {
      NthFromZero(banks, n - 1);
      var q, r := (n - 1) / banks, (n - 1) % banks;
      assert n - 1 == banks * q + r;
      if r + 1 == banks {
        assert n == banks * (q + 1) + 0;
        DivIs(n, banks, q + 1, 0);
        DivIs(r + 1, banks, 1, 0);
      } else {
        DivIs(n, banks, q, r + 1);
        DivIs(r + 1, banks, 0, r + 1);
      }
    }
  }

  /** Of `n` pages no bank takes more than an equal part, rounded up. */
  lemma {:induction false} EqualShares(banks: nat, costs: seq<nat>, b: nat)
    requires b < banks && forall i | 0 <= i < |costs| :: costs[i] == 8
    ensures Share(0, banks, costs, b) == 8 * if b == 0 then |costs| / banks else (|costs| + banks - b) / banks
  {
    if costs == [] {
      if b == 0 {
        DivIs(0, banks, 0, 0);
      } else {
        DivIs(banks - b, banks, 0, banks - b);
      }
    } else {
      var n := |costs|;
      EqualShares(banks, costs[..n - 1], b);
      NthFromZero(banks, n);
      if b == 0 {
        DivNext(n - 1, banks);
      } else {
        DivNext(n - 1 + banks - b, banks);
        SameRemainder(n, banks, b);
      }
    }
  }

  lemma SameRemainder(n: nat, banks: nat, b: nat)
    requires 0 < b < banks
    ensures (n + banks - b) % banks == 0 <==> n % banks == b
  {
    var q, r := n / banks, n % banks;
    assert n == banks * q + r;
    if r < b {
      DivIs(n + banks - b, banks, q, r + banks - b);
    } else {
      assert n + banks - b == banks * (q + 1) + (r - b);
      DivIs(n + banks - b, banks, q + 1, r - b);
    }
  }
}
