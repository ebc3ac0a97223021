/** read.c: a page is rebuilt chunk by chunk, several chunks of one flash page in one read. */
module Read {
  import opened Base
  import opened State
  import opened Steps
  import opened FtlTables
  import opened VictimFrame
  import opened Internal
  import opened Write

  /** Chunk `i` of page `lpn` is still to be copied and lies in flash page `page`. */
  ghost predicate Wanted(t: Tables, lpn: nat, done: seq<bool>, page: PageId, i: nat) {
    i < |done| && !done[i] && Key(lpn, i) in t.chunksMap && t.chunksMap[Key(lpn, i)].page == page
  }

  /** Exactly the requested chunks not yet copied that share the flash page of chunk `first`:
      their indexes in the page asked for, and their slots in the flash page. */
  method SetupFlashPageRead(t: Tables, lpn: nat, first: nat, last: nat, done: seq<bool>, page: PageId)
    returns (idxs: seq<nat>, slots: seq<nat>)
    requires first < last <= 8 && |done| == 8
    requires Key(lpn, first) in t.chunksMap && t.chunksMap[Key(lpn, first)].page == page && page.Pg?
    ensures |idxs| == |slots| && 1 <= |idxs| <= last - first
    ensures idxs[0] == first && slots[0] == t.chunksMap[Key(lpn, first)].slot
    ensures forall j | 0 <= j < |idxs| :: first <= idxs[j] < last && Key(lpn, idxs[j]) in t.chunksMap
    ensures forall j | 0 <= j < |idxs| ::
      t.chunksMap[Key(lpn, idxs[j])].page == page && slots[j] == t.chunksMap[Key(lpn, idxs[j])].slot
    ensures forall i | first < i < last && Wanted(t, lpn, done, page, i) :: i in idxs
  {
    idxs, slots := [first], [t.chunksMap[Key(lpn, first)].slot];
    for i := first + 1 to last
      invariant |idxs| == |slots| && 1 <= |idxs| <= i - first
      invariant idxs[0] == first && slots[0] == t.chunksMap[Key(lpn, first)].slot
      invariant forall j | 0 <= j < |idxs| :: first <= idxs[j] < last && Key(lpn, idxs[j]) in t.chunksMap
      invariant forall j | 0 <= j < |idxs| ::
        t.chunksMap[Key(lpn, idxs[j])].page == page && slots[j] == t.chunksMap[Key(lpn, idxs[j])].slot
      invariant forall k | first < k < i && Wanted(t, lpn, done, page, k) :: k in idxs
    {
      if !done[i] {
        match LocationOf(Lookup(t.chunksMap, Key(lpn, i))) {
          case Invalid =>
          case DRAMWLog =>
          case DRAMOwLog =>
          case FlashWLog =>
            if t.chunksMap[Key(lpn, i)].page == page {
              idxs, slots := idxs + [i], slots + [t.chunksMap[Key(lpn, i)].slot];
            }
          case FlashOwLog =>
            if t.chunksMap[Key(lpn, i)].page == page {
              idxs, slots := idxs + [i], slots + [t.chunksMap[Key(lpn, i)].slot];
            }
        }
      }
    }
  }

  /** Chunk `i` of the buffer is the one the table names. */
  ghost predicate Copied(s: St, lpn: nat, buf: seq<Chunk>, i: nat) {
    i < |buf| && buf[i] == ChunkAt(ContentOf(s), Key(lpn, i))
  }

  /** chunkInFlashLog: more than two chunks of one flash page cost one full read, fewer one partial read each. */
  method ChunkInFlashLog(f: Ftl, lpn: nat, first: nat, last: nat, done: seq<bool>, buf: seq<Chunk>)
    returns (done': seq<bool>, buf': seq<Chunk>)
    requires Inv(f.View()) && f.g.held == map[] && first < last <= 8 && |done| == |buf| == 8 && done[first]
    requires Key(lpn, first) in f.t.chunksMap && f.t.chunksMap[Key(lpn, first)].page.Pg?
    requires forall i | 0 <= i < 8 && i != first && done[i] :: Copied(f.View(), lpn, buf, i)
    ensures |done'| == |buf'| == 8 && done'[first]
      && forall i | 0 <= i < 8 && done'[i] :: Copied(f.View(), lpn, buf', i)
    ensures forall i | 0 <= i < 8 && done[i] :: done'[i]
    ensures forall i | 0 <= i < 8 && !done'[i] :: buf'[i] == buf[i]
    ensures forall i | 0 <= i < 8 && done'[i] && !done[i] :: first <= i < last
  {
    hide Inv, Content;
    ghost var s := f.View();
    LiveAll(s);
    FlashData(s, lpn);
    done', buf' := done, buf;
    var page := f.t.chunksMap[Key(lpn, first)].page;
    var idxs, slots := SetupFlashPageRead(f.t, lpn, first, last, done, page);
    if |idxs| > 2 {
      var temp := f.t.flash[page].chunks;
      for j := 0 to |idxs|
        invariant |done'| == |buf'| == 8 && done'[first]
        invariant forall i | 0 <= i < 8 && done'[i] && (i != first || 0 < j) :: Copied(s, lpn, buf', i)
        invariant forall i | 0 <= i < 8 && done[i] :: done'[i]
        invariant forall i | 0 <= i < 8 && !done'[i] :: buf'[i] == buf[i]
        invariant forall i | 0 <= i < 8 && done'[i] && !done[i] :: first <= i < last
      {
        buf', done' := buf'[idxs[j] := temp[slots[j]]], done'[idxs[j] := true];
      }
    } else {
      buf' := buf'[first := f.t.flash[page].chunks[slots[0]]];
    }
  }

  lemma LiveAll(s: St)
    requires Inv(s) && s.held == map[]
    ensures s.cmap == s.live
  {
  }

  lemma FlashData(s: St, lpn: nat)
    requires Inv(s) && s.held == map[]
    ensures forall i | 0 <= i < 8 && Key(lpn, i) in s.live && s.live[Key(lpn, i)].page.Pg? ::
      s.live[Key(lpn, i)].page in s.flash && s.flash[s.live[Key(lpn, i)].page].Data?
        && s.live[Key(lpn, i)].slot < |s.flash[s.live[Key(lpn, i)].page].chunks|
      && ChunkAt(ContentOf(s), Key(lpn, i)) == s.flash[s.live[Key(lpn, i)].page].chunks[s.live[Key(lpn, i)].slot]
  {
    hide Inv, Content;
    forall i | 0 <= i < 8 && Key(lpn, i) in s.live && s.live[Key(lpn, i)].page.Pg?
      ensures s.live[Key(lpn, i)].page in s.flash && s.flash[s.live[Key(lpn, i)].page].Data?
        && s.live[Key(lpn, i)].slot < |s.flash[s.live[Key(lpn, i)].page].chunks|
      ensures ChunkAt(ContentOf(s), Key(lpn, i)) == s.flash[s.live[Key(lpn, i)].page].chunks[s.live[Key(lpn, i)].slot]
    {
      OldData(s, Key(lpn, i));
    }
  }

  /** rebuildPageToFtlBuf: every requested chunk equals a direct look-up of its table entry. */
  method RebuildPageToFtlBuf(f: Ftl, lpn: nat, sectOffset: nat, nSects: nat, ftlBuf: seq<Chunk>)
    returns (buf: seq<Chunk>)
    requires Inv(f.View())
      && VRoles(f.g.role) == map[] && f.g.held == map[] && sectOffset + nSects <= 64 && |ftlBuf| == 8
    ensures |buf| == 8
    ensures forall i | sectOffset / 8 <= i < (sectOffset + nSects + 7) / 8 ::
      buf[i] == ChunkAt(ContentOf(f.View()), Key(lpn, i))
    ensures forall i | 0 <= i < 8 && !(sectOffset / 8 <= i < (sectOffset + nSects + 7) / 8) :: buf[i] == ftlBuf[i]
  {
    hide Inv, Content, VRoles;
    ghost var s := f.View();
    LiveAll(s);
    var done := seq(8, _ => false);
    buf := ftlBuf;
    var lastChunk := (sectOffset + nSects + 7) / 8;
    var chunkIdx := sectOffset / 8;
    while chunkIdx < lastChunk
      invariant sectOffset / 8 <= chunkIdx && (chunkIdx <= lastChunk || chunkIdx == sectOffset / 8)
      invariant |done| == |buf| == 8
      invariant forall i | 0 <= i < 8 && done[i] :: Copied(s, lpn, buf, i)
      invariant forall i | sectOffset / 8 <= i < chunkIdx :: done[i]
      invariant forall i | 0 <= i < 8 && done[i] :: sectOffset / 8 <= i < lastChunk
      invariant forall i | 0 <= i < 8 && !done[i] :: buf[i] == ftlBuf[i]
    {
      if !done[chunkIdx] {
        var k := Key(lpn, chunkIdx);
        OldData(s, k);
        AbandonFacts(s, k);
        done := done[chunkIdx := true];
        match LocationOf(Lookup(f.t.chunksMap, k)) {
          case Invalid =>
            buf := buf[chunkIdx := BlankChunk()];
          case FlashWLog =>
            done, buf := ChunkInFlashLog(f, lpn, chunkIdx, lastChunk, done, buf);
          case DRAMWLog =>
            buf := buf[chunkIdx := f.t.logBuf[f.t.chunksMap[k].page.bank][f.t.chunksMap[k].slot]];
          case DRAMOwLog =>
            buf := buf[chunkIdx := f.t.owLogBuf[f.t.chunksMap[k].page.bank][f.t.chunksMap[k].slot]];
          case FlashOwLog =>
            done, buf := ChunkInFlashLog(f, lpn, chunkIdx, lastChunk, done, buf);
        }
      }
      chunkIdx := chunkIdx + 1;
    }
    forall i | sectOffset / 8 <= i < lastChunk ensures buf[i] == ChunkAt(ContentOf(s), Key(lpn, i)) {
      assert done[i] && Copied(s, lpn, buf, i);
    }
  }

  /** The sectors from `off` on of a page of eight chunks. */
  function Sectors(buf: seq<Chunk>, off: nat, n: nat): (r: seq<Sector>)
    requires |buf| == 8 && off + n <= 64
    ensures |r| == n && forall i | 0 <= i < n :: r[i] == buf[(off + i) / 8][(off + i) % 8]
  {
    seq(n, i requires 0 <= i < n => buf[(off + i) / 8][(off + i) % 8])
  }

  /** `data` is what the device holds from sector `lba` on. */
  ghost predicate Reads(c: map<Key, Chunk>, lba: nat, data: seq<Sector>) {
    forall i | 0 <= i < |data| :: data[i] == SectorAt(c, lba + i)
  }

  lemma ReadsThen(c: map<Key, Chunk>, lba: nat, d1: seq<Sector>, d2: seq<Sector>)
    requires Reads(c, lba, d1) && Reads(c, lba + |d1|, d2)
    ensures Reads(c, lba, d1 + d2)
  {
    hide SectorAt;
    forall i | 0 <= i < |d1 + d2| ensures (d1 + d2)[i] == SectorAt(c, lba + i) {
      if |d1| <= i {
        assert lba + i == lba + |d1| + (i - |d1|);
      }
    }
  }

  lemma PageReads(c: map<Key, Chunk>, lpn: nat, off: nat, n: nat, buf: seq<Chunk>)
    requires |buf| == 8 && off + n <= 64
    requires forall i | off / 8 <= i < (off + n + 7) / 8 :: buf[i] == ChunkAt(c, Key(lpn, i))
    ensures Reads(c, lpn * 64 + off, Sectors(buf, off, n))
  {
    forall i | 0 <= i < n ensures Sectors(buf, off, n)[i] == SectorAt(c, lpn * 64 + off + i) {
      var x := lpn * 64 + off + i;
      assert x / 64 == lpn && x % 64 == off + i && x % 8 == (off + i) % 8;
      assert off / 8 <= (off + i) / 8 < (off + n + 7) / 8;
    }
  }

  /** readFromLogBlk: part of one page. */
  method ReadFromLogBlk(f: Ftl, lpn: nat, sectOffset: nat, nSects: nat, ftlBuf: seq<Chunk>)
    returns (out: seq<Sector>, buf: seq<Chunk>)
    requires Settled(f.View()) && sectOffset + nSects <= 64 && |ftlBuf| == 8
    ensures |out| == nSects && Reads(ContentOf(f.View()), lpn * 64 + sectOffset, out) && |buf| == 8
  {
    hide Content, Inv, VRoles;
    buf := RebuildPageToFtlBuf(f, lpn, sectOffset, nSects, ftlBuf);
    PageReads(ContentOf(f.View()), lpn, sectOffset, nSects, buf);
    out := Sectors(buf, sectOffset, nSects);
  }

  /** ftl_read: page by page; what was left in the FTL buffer does not matter. */
  method FtlRead(f: Ftl, lba: nat, n: nat, ftlBuf: seq<Chunk>) returns (out: seq<Sector>, buf: seq<Chunk>)
    requires Settled(f.View()) && |ftlBuf| == 8
    ensures |out| == n && Reads(ContentOf(f.View()), lba, out) && |buf| == 8
  {
    hide Settled, Content, Reads;
    out, buf := [], ftlBuf;
    var lpn: nat, sectOffset: nat, remaining: nat := lba / 64, lba % 64, n;
    ReadsNothing(ContentOf(f.View()), lba);
    while remaining != 0
      invariant |out| + remaining == n && |buf| == 8
      invariant remaining != 0 ==> lpn * 64 + sectOffset == lba + |out| && sectOffset < 64
      invariant Reads(ContentOf(f.View()), lba, out)
    {
      var m := if sectOffset + remaining < 64 then remaining else 64 - sectOffset;
      var part;
      part, buf := ReadFromLogBlk(f, lpn, sectOffset, m, buf);
      ReadsThen(ContentOf(f.View()), lba, out, part);
      out := out + part;
      sectOffset, remaining, lpn := 0, remaining - m, lpn + 1;
    }
  }

  lemma ReadsNothing(c: map<Key, Chunk>, lba: nat)
    ensures Reads(c, lba, [])
  {
  }
}
