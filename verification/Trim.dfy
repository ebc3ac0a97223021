/** ftl.c, trims: chunks fully inside a range are forgotten, all others are left alone. */
module Trim {
  import opened Base
  import opened State
  import opened Steps
  import opened FtlTables
  import opened ChunkMoves
  import opened VictimFrame
  import opened Internal
  import opened Log
  import opened Write
  import opened Room
  import opened Victims

  /** All eight sectors of the chunk are in the range. */
  predicate Inside(k: Key, lba: nat, n: nat) {
    k.idx < 8 && lba <= k.lpn * 64 + k.idx * 8 && k.lpn * 64 + k.idx * 8 + 8 <= lba + n
  }

  /** The content after trimming `n` sectors from `lba` on. */
  ghost function Trimmed(c: map<Key, Chunk>, lba: nat, n: nat): map<Key, Chunk> {
    map k | k in c && !Inside(k, lba, n) :: c[k]
  }

  /** The device sector by sector: a trimmed chunk reads as 0xFF, a chunk cut by the range keeps its data. */
  lemma TrimmedSector(c: map<Key, Chunk>, lba: nat, n: nat, x: nat)
    ensures SectorAt(Trimmed(c, lba, n), x)
      == if lba <= x / 8 * 8 && x / 8 * 8 + 8 <= lba + n then BlankSector() else SectorAt(c, x)
  {
    hide BlankSector;
    ChunkStart(x);
  }

  lemma ChunkStart(x: nat)
    ensures x / 64 * 64 + x % 64 / 8 * 8 == x / 8 * 8 && x % 64 / 8 < 8
  {
    var q, r := x / 64, x % 64;
    assert x == 64 * q + r;
    assert (8 * (8 * q) + r) / 8 == 8 * q + r / 8;
  }

  lemma TrimmedNone(c: map<Key, Chunk>, lba: nat)
    ensures Trimmed(c, lba, 0) == c
  {
  }

  lemma SameStart(j: Key, k: Key)
    requires j.idx < 8 && k.idx < 8
    ensures j.lpn * 64 + j.idx * 8 == k.lpn * 64 + k.idx * 8 <==> j == k
  {
    if j.lpn < k.lpn {
      assert j.lpn * 64 + 64 <= k.lpn * 64;
    } else if k.lpn < j.lpn {
      assert k.lpn * 64 + 64 <= j.lpn * 64;
    }
  }

  lemma InsideStep(lba: nat, done: nat, j: Key, k: Key, off: nat, m: nat)
    requires k.idx < 8 && off < 8 && 0 < m <= 8 - off && k.lpn * 64 + k.idx * 8 + off == lba + done
    requires off != 0 ==> done == 0
    ensures Inside(j, lba, done + m) <==> Inside(j, lba, done) || (off == 0 && m == 8 && j == k)
  {
    if j.idx < 8 {
      SameStart(j, k);
    }
  }

  lemma TrimmedStep(c: map<Key, Chunk>, lba: nat, done: nat, k: Key, off: nat, m: nat)
    requires k.idx < 8 && off < 8 && 0 < m <= 8 - off && k.lpn * 64 + k.idx * 8 + off == lba + done
    requires off != 0 ==> done == 0
    ensures off == 0 && m == 8 ==> Trimmed(c, lba, done + m) == Trimmed(c, lba, done) - {k}
    ensures off != 0 || m < 8 ==> Trimmed(c, lba, done + m) == Trimmed(c, lba, done)
  {
    hide Inside;
    forall j | j in c ensures Inside(j, lba, done + m) <==> Inside(j, lba, done) || (off == 0 && m == 8 && j == k) {
      InsideStep(lba, done, j, k, off, m);
    }
  }

  lemma TrimSettled(s: St, k: Key)
    requires Settled(s)
    ensures var t := Forget(Detach(s, k, BlankChunk()), k);
      Settled(t) && ContentOf(t) == ContentOf(s) - {k}
  {
    hide Inv, Content, VRoles, FillsBut, RwReady;
    var u := Detach(s, k, BlankChunk());
    DetachIdle(s, k, BlankChunk());
    DetachInv(s, k, BlankChunk());
    DetachFields(s, k, BlankChunk());
    ForgetInv(u, k);
    assert u.held - {k} == map[];
    assert ContentOf(s)[k := BlankChunk()] - {k} == ContentOf(s) - {k};
    hide Detach;
    assert Forget(u, k).pending == u.pending && Forget(u, k).fill == u.fill && Forget(u, k).role == u.role;
  }

  /** The old version's buffer slot or count is given up and the table forgets the chunk. */
  method TrimChunk(f: Ftl, k: Key)
    requires Ready(f)
    modifies f`t, f`g, f`inRam
    ensures Ready(f) && ContentOf(f.View()) == ContentOf(old(f.View())) - {k}
    ensures SameBlocks(old(f.t), f.t)
    ensures Rooms(f.t) == Rooms(old(f.t))
  {
    hide Inv, Idle, Content, VRoles, FillsBut, Detach;
    ghost var s := f.View();
    IdleCalm(s);
    AbandonChunk(f, k, BlankChunk());
    f.t := f.t.(chunksMap := f.t.chunksMap - {k});
    f.g := f.g.(held := f.g.held - {k});
    f.inRam := f.inRam - {k};
    DetachFields(s, k, BlankChunk());
    DetachMembers(s, k, BlankChunk());
    SameRooms(old(f.t), f.t, 0);
    TrimSettled(s, k);
  }

  /** trimRange: exactly the chunks inside the range are unmapped. */
  method TrimRange(f: Ftl, lba: nat, nSectors: nat)
    requires Ready(f)
    modifies f`t, f`g, f`inRam
    ensures Ready(f) && ContentOf(f.View()) == Trimmed(ContentOf(old(f.View())), lba, nSectors)
    ensures SameBlocks(old(f.t), f.t)
    ensures Rooms(f.t) == Rooms(old(f.t))
  {
    hide Settled, Sys, Content, Trimmed, Rooms;
    ghost var c := ContentOf(f.View());
    TrimmedNone(c, lba);
    var lpn: nat, sectOffset: nat, remaining: nat := lba / 64, lba % 64, nSectors;
    while remaining != 0
      invariant Ready(f) && SameBlocks(old(f.t), f.t) && Rooms(f.t) == Rooms(old(f.t))
        && remaining <= nSectors && ContentOf(f.View()) == Trimmed(c, lba, nSectors - remaining)
      invariant remaining != 0 ==> lpn * 64 + sectOffset == lba + nSectors - remaining && sectOffset < 64
      invariant sectOffset % 8 != 0 ==> remaining == nSectors
      decreases remaining
    {
      var chunkIdx: nat := sectOffset / 8;
      ghost var before := remaining;
      while remaining != 0 && chunkIdx < 8
        invariant Ready(f) && SameBlocks(old(f.t), f.t) && Rooms(f.t) == Rooms(old(f.t))
          && remaining <= nSectors && ContentOf(f.View()) == Trimmed(c, lba, nSectors - remaining)
        invariant lpn * 64 + sectOffset == lba + nSectors - remaining && chunkIdx <= 8
        invariant remaining != 0 ==> chunkIdx == sectOffset / 8
        invariant sectOffset % 8 != 0 && remaining != 0 ==> remaining == nSectors
        invariant remaining < before || (remaining == before && chunkIdx < 8)
        decreases remaining
      {
        var off := sectOffset % 8;
        var m := if off + remaining < 8 then remaining else 8 - off;
        TrimmedStep(c, lba, nSectors - remaining, Key(lpn, chunkIdx), off, m);
        if off == 0 && m == 8 {
          TrimChunk(f, Key(lpn, chunkIdx));
        }
        remaining, chunkIdx, sectOffset := remaining - m, chunkIdx + 1, sectOffset + m;
      }
      lpn, sectOffset := lpn + 1, 0;
    }
  }

  datatype Range = Range(lba: nat, n: nat)

  /** What a trim command's list of ranges does; ranges that are empty or start beyond the device are skipped. */
  ghost function TrimmedAll(c: map<Key, Chunk>, ranges: seq<Range>, capacity: nat): map<Key, Chunk> {
    if ranges == [] then c
    else
      var d := TrimmedAll(c, ranges[..|ranges| - 1], capacity);
      var r := ranges[|ranges| - 1];
      if r.n != 0 && r.lba < capacity then Trimmed(d, r.lba, r.n) else d
  }

  /** ftl_trim on the list of ranges found in the host's buffers. */
  method FtlTrim(f: Ftl, ranges: seq<Range>, capacity: nat)
    requires Ready(f)
    modifies f`t, f`g, f`inRam
    ensures Ready(f) && ContentOf(f.View()) == TrimmedAll(ContentOf(old(f.View())), ranges, capacity)
    ensures SameBlocks(old(f.t), f.t)
    ensures Rooms(f.t) == Rooms(old(f.t))
  {
    hide Settled, Sys, Content, Trimmed, Rooms;
    for i := 0 to |ranges|
      invariant Ready(f) && SameBlocks(old(f.t), f.t) && Rooms(f.t) == Rooms(old(f.t))
        && ContentOf(f.View()) == TrimmedAll(ContentOf(old(f.View())), ranges[..i], capacity)
    {
      assert ranges[..i + 1][..i] == ranges[..i];
      if ranges[i].n != 0 && ranges[i].lba < capacity {
        TrimRange(f, ranges[i].lba, ranges[i].n);
      }
    }
    assert ranges[..|ranges|] == ranges;
  }
}
