/** The dead slots a collection can win back: the measure by which collections terminate. */
module Measure {
  import opened Base
  import opened State
  import opened Steps

  /** Dead slots of a block by its heap values; zero for clean blocks and for victims. */
  ghost function SlackOf(blk: Blk, wCount: map<Blk, nat>, oCount: map<Blk, nat>, role: map<Blk, Role>): nat {
    (if blk in wCount && wCount[blk] <= 1016 then 1016 - wCount[blk] else 0)
    + (if blk in role && CountedOw(role[blk]) && blk in oCount && oCount[blk] <= 1016 then 1016 - oCount[blk] else 0)
  }

  ghost function RowSlack(b: nat, n: nat, wCount: map<Blk, nat>, oCount: map<Blk, nat>, role: map<Blk, Role>): nat {
    if n == 0 then 0 else RowSlack(b, n - 1, wCount, oCount, role) + SlackOf(Blk(b, n - 1), wCount, oCount, role)
  }

  ghost function BlockSlack(n: nat, blocks: nat, wCount: map<Blk, nat>, oCount: map<Blk, nat>,
                            role: map<Blk, Role>): nat
  {
    if n == 0 then 0
    else BlockSlack(n - 1, blocks, wCount, oCount, role) + RowSlack(n - 1, blocks, wCount, oCount, role)
  }

  /** Filled slots of a buffer whose chunk was invalidated. */
  ghost function Holes(row: seq<Option<Key>>, n: nat): nat {
    if n == 0 then 0 else Holes(row, n - 1) + if n <= |row| && row[n - 1].None? then 1 else 0
  }

  ghost function HolesIn(n: nat, meta: seq<seq<Option<Key>>>, fill: seq<nat>): nat {
    if n == 0 then 0
    else HolesIn(n - 1, meta, fill) + if n <= |meta| && n <= |fill| then Holes(meta[n - 1], fill[n - 1]) else 0
  }

  ghost function Slack(s: St): nat {
    BlockSlack(s.banks, s.blocks, s.wCount, s.oCount, s.role) + HolesIn(s.banks, s.meta, s.fill)
  }

  // ----- one block or one buffer changes -----

  lemma {:induction false} RowStep(b: nat, n: nat, w: map<Blk, nat>, o: map<Blk, nat>, r: map<Blk, Role>,
                                   w': map<Blk, nat>, o': map<Blk, nat>, r': map<Blk, Role>, at: Blk)
    requires forall blk | blk != at :: SlackOf(blk, w', o', r') == SlackOf(blk, w, o, r)
    ensures RowSlack(b, n, w', o', r') - RowSlack(b, n, w, o, r)
         == if b == at.bank && at.lbn < n then SlackOf(at, w', o', r') - SlackOf(at, w, o, r) else 0
  {
    if n > 0 {
      RowStep(b, n - 1, w, o, r, w', o', r', at);
    }
  }

  lemma {:induction false} BlockStep(n: nat, blocks: nat, w: map<Blk, nat>, o: map<Blk, nat>, r: map<Blk, Role>,
                                     w': map<Blk, nat>, o': map<Blk, nat>, r': map<Blk, Role>, at: Blk)
    requires forall blk | blk != at :: SlackOf(blk, w', o', r') == SlackOf(blk, w, o, r)
    ensures BlockSlack(n, blocks, w', o', r') - BlockSlack(n, blocks, w, o, r)
         == if at.bank < n && at.lbn < blocks then SlackOf(at, w', o', r') - SlackOf(at, w, o, r) else 0
  {
    if n > 0 {
      BlockStep(n - 1, blocks, w, o, r, w', o', r', at);
      RowStep(n - 1, blocks, w, o, r, w', o', r', at);
    }
  }

  lemma {:induction false} HolesSame(row: seq<Option<Key>>, row': seq<Option<Key>>, n: nat)
    requires forall i | 0 <= i < n :: (i < |row| && row[i].None?) == (i < |row'| && row'[i].None?)
    ensures Holes(row, n) == Holes(row', n)
  {
    if n > 0 {
      HolesSame(row, row', n - 1);
    }
  }

  lemma {:induction false} HolesInStep(n: nat, meta: seq<seq<Option<Key>>>, fill: seq<nat>,
                                       meta': seq<seq<Option<Key>>>, fill': seq<nat>, at: nat)
    requires |meta'| == |meta| && |fill'| == |fill| == |meta|
    requires forall b | 0 <= b < |meta| && b != at :: meta'[b] == meta[b] && fill'[b] == fill[b]
    ensures HolesIn(n, meta', fill') - HolesIn(n, meta, fill)
         == if at < n && at < |meta| then Holes(meta'[at], fill'[at]) - Holes(meta[at], fill[at]) else 0
  {
    if n > 0 {
      HolesInStep(n - 1, meta, fill, meta', fill', at);
    }
  }

  // ----- the steps of a collection never add slack -----

  lemma PutSlack(banks: nat, meta: seq<seq<Option<Key>>>, fill: seq<nat>, b: nat, k: Key)
    requires |meta| == |fill| == banks && b < banks && fill[b] < |meta[b]|
    ensures HolesIn(banks, SetSlot(meta, b, fill[b], Some(k)), fill[b := fill[b] + 1]) == HolesIn(banks, meta, fill)
  {
    var meta' := SetSlot(meta, b, fill[b], Some(k));
    HolesInStep(banks, meta, fill, meta', fill[b := fill[b] + 1], b);
    HolesSame(meta[b], meta'[b], fill[b]);
  }

  lemma DrainSlack(banks: nat, meta: seq<seq<Option<Key>>>, fill: seq<nat>, b: nat)
    requires |meta| == |fill| == banks && b < banks
    ensures HolesIn(banks, meta, fill[b := 0]) == HolesIn(banks, meta, fill) - Holes(meta[b], fill[b])
  {
    HolesInStep(banks, meta, fill, meta, fill[b := 0], b);
  }

  /** Decrementing a counted block by `n` adds `n` dead slots. */
  lemma MinusSlack(banks: nat, blocks: nat, w: map<Blk, nat>, o: map<Blk, nat>, role: map<Blk, Role>, blk: Blk, r: Role,
                   n: nat)
    requires blk.bank < banks && blk.lbn < blocks && blk in w && n <= w[blk] <= 1016 && blk in role
      && CountedOw(r) == CountedOw(role[blk])
    ensures BlockSlack(banks, blocks, Minus(w, blk, n), o, role[blk := r]) == BlockSlack(banks, blocks, w, o, role) + n
  {
    BlockStep(banks, blocks, w, o, role, Minus(w, blk, n), o, role[blk := r], blk);
  }

  lemma RoleSlack(banks: nat, blocks: nat, w: map<Blk, nat>, o: map<Blk, nat>, role: map<Blk, Role>, blk: Blk, r: Role)
    requires blk in role && CountedOw(r) == CountedOw(role[blk])
    ensures BlockSlack(banks, blocks, w, o, role[blk := r]) == BlockSlack(banks, blocks, w, o, role)
  {
    BlockStep(banks, blocks, w, o, role, w, o, role[blk := r], blk);
  }

  lemma SealSlack(banks: nat, blocks: nat, w: map<Blk, nat>, o: map<Blk, nat>, role: map<Blk, Role>, blk: Blk)
    requires blk in role && CountedOw(role[blk]) && blk in w && w[blk] == 1016 && blk in o && o[blk] <= 1016
    ensures BlockSlack(banks, blocks, w[blk := o[blk]], o[blk := OW_BLK_CHUNKS], role[blk := OpenRw(2, true)])
      == BlockSlack(banks, blocks, w, o, role)
  {
    BlockStep(banks, blocks, w, o, role, w[blk := o[blk]], o[blk := OW_BLK_CHUNKS], role[blk := OpenRw(2, true)], blk);
  }

  /** Taking a victim gives up exactly its dead slots. */
  lemma TakeRwSlack(banks: nat, blocks: nat, w: map<Blk, nat>, o: map<Blk, nat>, role: map<Blk, Role>, blk: Blk)
    requires blk.bank < banks && blk.lbn < blocks && blk in role && !CountedOw(role[blk]) && blk in w && w[blk] <= 1016
    ensures BlockSlack(banks, blocks, w[blk := CHUNKS_PER_LOG_BLK], o, role[blk := Victim(false)])
         == BlockSlack(banks, blocks, w, o, role) - (1016 - w[blk])
  {
    BlockStep(banks, blocks, w, o, role, w[blk := CHUNKS_PER_LOG_BLK], o, role[blk := Victim(false)], blk);
  }

  /** An overwrite victim always gives up at least the eight slots of its list page. */
  lemma TakeOwSlack(banks: nat, blocks: nat, w: map<Blk, nat>, o: map<Blk, nat>, role: map<Blk, Role>, blk: Blk)
    requires blk.bank < banks && blk.lbn < blocks && blk in role && CountedOw(role[blk]) && blk in w && w[blk] == 1016
      && blk in o && o[blk] <= OW_BLK_CHUNKS
    ensures BlockSlack(banks, blocks, w, o[blk := OW_BLK_CHUNKS], role[blk := Victim(true)]) + 8
      <= BlockSlack(banks, blocks, w, o, role)
  {
    BlockStep(banks, blocks, w, o, role, w, o[blk := OW_BLK_CHUNKS], role[blk := Victim(true)], blk);
  }

  // ----- a full buffer -----

  /** The chunks named by the first `n` slots of a buffer. */
  function Named(row: seq<Option<Key>>, n: nat): set<Key>
    requires n <= |row|
  {
    set i | 0 <= i < n && row[i].Some? :: row[i].value
  }

  lemma {:induction false} NamedCount(row: seq<Option<Key>>, n: nat)
    requires n <= |row|
    requires forall i, j | 0 <= i < j < n && row[i].Some? && row[j].Some? :: row[i] != row[j]
    ensures |Named(row, n)| + Holes(row, n) == n
  {
    if n == 0 {
      assert Named(row, n) == {};
    } else {
      NamedCount(row, n - 1);
      if row[n - 1].Some? {
        assert Named(row, n) == Named(row, n - 1) + {row[n - 1].value};
        assert row[n - 1].value !in Named(row, n - 1);
      } else {
        assert Named(row, n) == Named(row, n - 1);
      }
    }
  }

  /** A full buffer holds eight slots: each a mapped chunk or a hole. */
  lemma FullBuffer(m: map<Key, Loc>, meta: seq<seq<Option<Key>>>, fill: seq<nat>, b: nat, ow: bool)
    requires DramOK(m, meta, fill, ow) && b < |fill| && b < |meta| && |meta[b]| == 8 && fill[b] == 8
    ensures KeysAt(m, Buf(ow, b)) == Named(meta[b], 8)
    ensures |KeysAt(m, Buf(ow, b))| + Holes(meta[b], 8) == 8
  {
    forall i, j | 0 <= i < j < 8 && meta[b][i].Some? && meta[b][j].Some?
      ensures meta[b][i] != meta[b][j]
    {
      assert m[meta[b][i].value] == Loc(ow, Buf(ow, b), i);
      assert m[meta[b][j].value] == Loc(ow, Buf(ow, b), j);
    }
    NamedCount(meta[b], 8);
    forall k | k in Named(meta[b], 8) ensures k in KeysAt(m, Buf(ow, b)) {
      var i :| 0 <= i < 8 && meta[b][i] == Some(k);
      assert m[meta[b][i].value] == Loc(ow, Buf(ow, b), i);
    }
    assert KeysAt(m, Buf(ow, b)) == Named(meta[b], 8);
  }

  /** How many of the first `n` slots hold a chunk. */
  ghost function Filled(row: seq<Option<Key>>, n: nat): nat {
    if n == 0 then 0 else Filled(row, n - 1) + if n <= |row| && row[n - 1].Some? then 1 else 0
  }

  lemma {:induction false} FilledHoles(row: seq<Option<Key>>, n: nat)
    requires n <= |row|
    ensures Filled(row, n) + Holes(row, n) == n
  {
    if n > 0 {
      FilledHoles(row, n - 1);
    }
  }

  lemma {:induction false} FilledMore(row: seq<Option<Key>>, m: nat, n: nat)
    requires m <= n
    ensures Filled(row, m) <= Filled(row, n)
  {
    if m < n {
      FilledMore(row, m, n - 1);
    }
  }
}
