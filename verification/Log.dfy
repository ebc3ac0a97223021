/** log.c, garbage_collection.c and the flush path of write.c: they call each other. */
module Log {
  import opened Base
  import opened Nand
  import opened State
  import opened Steps
  import opened FtlTables
  import opened PageMoves
  import opened BlockMoves
  import opened ChunkMoves
  import opened Measure
  import opened VictimFrame
  import opened Internal
  import opened Sealing
  import opened Collecting
  import opened Room
  import opened Victims
  import opened Endurance

  /** Round robin over the banks. */
  method ChooseNewBank(f: Ftl) returns (bank: nat)
    requires 0 < f.banks
    modifies f`referenceBank
    ensures bank == f.referenceBank == NthBank(old(f.referenceBank), f.banks, 1) < f.banks
  {
    f.referenceBank := (f.referenceBank + 1) % f.banks;
    bank := f.referenceBank;
  }

  function NextAfter(bank: nat, banks: nat): nat
    requires 0 < banks
  {
    (bank + 1) % banks
  }

  /** The bank of the `n`th choice after `bank`. */
  function NthBank(bank: nat, banks: nat, n: nat): nat
    requires 0 < banks
  {
    if n == 0 then bank else NextAfter(NthBank(bank, banks, n - 1), banks)
  }

  lemma NextInTurn(bank: nat, banks: nat, n: nat)
    requires 0 < banks
    ensures NthBank(NthBank(bank, banks, n), banks, 1) == NthBank(bank, banks, n + 1)
  {
    assert NthBank(NthBank(bank, banks, n), banks, 0) == NthBank(bank, banks, n);
  }

  lemma NextBank(b: nat, banks: nat)
    requires b < banks
    ensures (b + 1) % banks == if b + 1 == banks then 0 else b + 1
  {
  }

  lemma {:induction false} NthBankIs(bank: nat, banks: nat, n: nat)
    requires bank < banks && n <= banks
    ensures NthBank(bank, banks, n) == if bank + n < banks then bank + n else bank + n - banks
  {
    if n > 0 {
      NthBankIs(bank, banks, n - 1);
      NextBank(NthBank(bank, banks, n - 1), banks);
    }
  }

  /** Round robin is fair: among as many choices as there are banks, each bank is chosen exactly once. */
  lemma EachBankOnce(bank: nat, banks: nat, b: nat)
    requires bank < banks && b < banks
    ensures exists n :: 1 <= n <= banks && NthBank(bank, banks, n) == b
    ensures forall m, n | 1 <= m < n <= banks :: NthBank(bank, banks, m) != NthBank(bank, banks, n)
  {
    NthBankIs(bank, banks, if bank < b then b - bank else b + banks - bank);
    forall m, n | 1 <= m < n <= banks ensures NthBank(bank, banks, m) != NthBank(bank, banks, n) {
      NthBankIs(bank, banks, m);
      NthBankIs(bank, banks, n);
    }
  }

  /** The top of one bank's heap: a member with the smallest value, or INVALID. */
  method GetVictim(count: map<Blk, nat>, members: set<Blk>, bank: nat) returns (value: nat, victim: Option<Blk>)
    requires forall m | m in members :: m in count && count[m] < INVALID
    ensures victim.None? ==> value == INVALID && forall m | m in members :: m.bank != bank
    ensures victim.Some? ==> victim.value in members && victim.value.bank == bank && value == count[victim.value]
    ensures forall m | m in members && m.bank == bank :: value <= count[m]
  {
    value, victim := INVALID, None;
    var rest := set m | m in members && m.bank == bank;
    ghost var all := rest;
    assert forall m | m in members && m.bank == bank :: m in all;
    while rest != {}
      invariant rest <= all
      invariant victim.None? ==> value == INVALID && rest == all
      invariant victim.Some? ==> victim.value in all && value == count[victim.value]
      invariant forall m | m in all - rest :: value <= count[m]
      decreases rest
    {
      var m :| m in rest;
      if victim.None? || count[m] < value {
        value, victim := count[m], Some(m);
      }
      rest := rest - {m};
    }
  }

  /** The loop of flushLogBuffer: each filled slot is named in the LPN list and mapped, or given up. */
  method WriteSlots(f: Ftl, bank: nat)
    requires CanFlush(f.View(), bank)
    modifies f`t
    ensures var o := old(f.View());
      f.t == old(f.t).(
        chunksMap := o.cmap + BufAdds(o.live, Buf(false, bank), Pg(bank, o.rw[bank].lbn, o.rw[bank].page), false, 8),
        rwLpns := o.rwList[bank := WriteNames(o.rwList[bank], o.rw[bank].page, NamesOf(o.meta[bank]))],
        writeCount := Minus(o.wCount, Blk(bank, o.rw[bank].lbn), Holes(o.meta[bank], 8)))
  {
    hide DramOK, WriteNames, NamesUpto, BufAdds, NamesOf, Minus, Holes, MinusOne;
    ghost var s := f.View();
    ghost var t := f.t;
    var lbn, page := f.t.rwCtrl[bank].lbn, f.t.rwCtrl[bank].page;
    var dst, blk := Pg(bank, lbn, page), Blk(bank, lbn);
    ghost var names := NamesOf(s.meta[bank]);
    ghost var list := s.rwList[bank];
    NamesOfAt(s.meta[bank]);
    NamesEnds(list, page, names);
    AddsNone(s.live, Buf(false, bank), dst, false);
    MinusStart(s.wCount, blk, s.meta[bank]);
    for i := 0 to 8
      invariant f.t == t.(
        chunksMap := s.cmap + BufAdds(s.live, Buf(false, bank), dst, false, i),
        rwLpns := s.rwList[bank := NamesUpto(list, page, names, i)],
        writeCount := Minus(s.wCount, blk, Holes(s.meta[bank], i)))
    {
      NamesStep(list, page, names, i);
      NamesUptoLength(list, page, names, i);
      AddsStep(s.live, s.meta, s.fill, bank, dst, false, i);
      MinusStep(s.wCount, blk, s.meta[bank], i);
      f.t := f.t.(rwLpns := f.t.rwLpns[bank := f.t.rwLpns[bank][page * 8 + i := LpnOf(f.t.logBufMeta[bank][i])]]);
      if f.t.logBufMeta[bank][i].Some? {
        f.t := f.t.(chunksMap := f.t.chunksMap[f.t.logBufMeta[bank][i].value := Loc(false, dst, i)]);
      } else {
        f.t := f.t.(writeCount := MinusOne(f.t.writeCount, blk));
      }
    }
  }

  /** The program half of flushLogBuffer: the page, its LPN list entries, the table and the count. */
  method ProgramLogBuffer(f: Ftl, bank: nat)
    requires CanFlush(f.View(), bank) && Pg(bank, f.t.rwCtrl[bank].lbn, f.t.rwCtrl[bank].page) !in f.t.flash
    modifies f`t, f`g
    ensures f.View() == FlushStep(old(f.View()), bank)
  {
    hide DramOK, WriteNames, BufAdds, Holes, NamesOf, Minus, NandProgram;
    ghost var s := f.View();
    WriteSlots(f, bank);
    var lbn, page := f.t.rwCtrl[bank].lbn, f.t.rwCtrl[bank].page;
    NandErased(f.t.flash, Pg(bank, lbn, page), Data(f.t.logBuf[bank], 1));
    f.t := f.t.(flash := NandProgram(f.t.flash, Pg(bank, lbn, page), Data(f.t.logBuf[bank], 1)));
    f.g := f.g.(live := s.live + BufAdds(s.live, Buf(false, bank), Pg(bank, lbn, page), false, 8),
                lists := s.lists[Blk(bank, lbn) := f.t.rwLpns[bank]],
                role := s.role[Blk(bank, lbn) := OpenRw(NextRw(page, f.t.rwCtrl[bank].sealed),
                                                        f.t.rwCtrl[bank].sealed)],
                pending := s.pending + {bank}, fill := s.fill[bank := 0], trace := Then(s.trace,
                    Program(Pg(bank, lbn, page), RwData)));
  }

  // ----- sealing an overwrite block -----

  lemma HeapFacts(s: St)
    requires Inv(s)
    ensures forall m | m in s.wIn :: m in s.wCount && s.wCount[m] <= CHUNKS_PER_LOG_BLK
    ensures forall m | m in s.oIn :: m in s.oCount && HIGH_PAGE_CHUNKS <= s.oCount[m] <= OW_BLK_CHUNKS
  {
  }

  lemma SealFacts(s: St, blk: Blk)
    requires Inv(s) && blk in s.oIn
    ensures Sealable(s.cmap, s.live, s.held, s.flash, s.lists, s.role, blk)
    ensures Erased(s.flash, s.role) && ListPages(s.flash, s.lists, s.role)
    ensures ListPage(blk, 125) in s.flash && s.flash[ListPage(blk, 125)] == List(s.lists[blk])
    ensures blk !in s.wIn
    ensures blk in s.oCount && blk.bank < s.banks && |s.rwList| == s.banks && |s.rw| == s.banks
  {
    MemberFacts(s, blk);
  }

  ghost predicate SameRwBuffers(s: St, t: St) {
    t.logBuf == s.logBuf && t.meta == s.meta && t.ptr == s.ptr && t.fill == s.fill && t.pending == s.pending
  }

  /** setValidChunks on the write heap: traps on a block that is in the heap. */
  method SetWriteCount(f: Ftl, blk: Blk, n: nat) returns (o: Outcome)
    modifies f`t
    ensures o == if blk in old(f.t.writeHeap) then Fail(Halted) else Pass
    ensures f.t == if o.Pass? then old(f.t).(writeCount := old(f.t.writeCount)[blk := n]) else old(f.t)
  {
    if blk in f.t.writeHeap {
      return Fail(Halted);
    }
    f.t := f.t.(writeCount := f.t.writeCount[blk := n]);
    o := Pass;
  }

  /** The full overwrite block of the bank with the smallest heap value becomes its open RW block.
      Traps exactly when the bank has no full overwrite block; a block that is owed a count is refused.
      The source's count check cannot fail unless a chunk that is only in RAM has an entry in the block. */
  method SealOWBlk(f: Ftl, bank: nat) returns (o: Outcome, mismatch: bool)
    requires Inv(f.View()) && f.g.pending == {} && Tracked(f)
    requires bank < |f.t.rwCtrl| && f.t.rwCtrl[bank].Closed? && RwReadyBut(f.t.rwCtrl, f.t.writeHeap, bank)
    modifies f`t, f`g
    ensures o == Fail(Halted) <==> forall m | m in old(f.t.owHeap) :: m.bank != bank
    ensures o.Fail? ==>
      o == Fail(Halted) || (o == Fail(UnsafeCollection) && f.owing.Some? && LeastOw(old(f.t), f.owing.value, bank))
    ensures o.Pass? ==>
      Calm(f.View()) && Kept(old(f.View()), f.View()) && SameRwBuffers(old(f.View()), f.View()) && Tracked(f)
    ensures o.Pass? ==> bank < |f.t.rwCtrl| && f.t.rwCtrl[bank].Open?
    ensures o.Pass? ==> var blk := Blk(bank, f.t.rwCtrl[bank].lbn);
      && Sealed(old(f.t), f.t, blk, bank) && f.owing != Some(blk)
      && (NoStaleIn(old(f.t.chunksMap), old(f.g.held), blk) ==> !mismatch)
    ensures o.Pass? ==> f.g.wiped == old(f.g.wiped) && InPlace(old(f.g.live), f.g.live, bank)
  {
    hide Inv, Sealable, SealedMap, NoStaleIn, Erased, ListPages, Kept, KeysIn, RwReadyBut, RwReady;
    ghost var s := f.View();
    HeapFacts(s);
    mismatch := false;
    var nValidChunks, victim := GetVictim(f.t.owCount, f.t.owHeap, bank);
    if victim.None? {
      return Fail(Halted), false;
    }
    var blk := victim.value;
    if f.owing == Some(blk) {
      return Fail(UnsafeCollection), false;
    }
    SealFacts(s, blk);
    OwCounts(s, blk);
    var list := f.t.flash[ListPage(blk, 125)].lpns;
    f.t := f.t.(owHeap := f.t.owHeap - {blk}, owCount := f.t.owCount[blk := OW_BLK_CHUNKS],
                owCounters := f.t.owCounters[blk := NoCounts()],
                rwCtrl := f.t.rwCtrl[bank := Open(blk.lbn, 2, true)],
                rwLpns := f.t.rwLpns[bank := list]);
    var done := SetWriteCount(f, blk, nValidChunks);
    assert done.Pass?;
    var corresponding := SealWalk(f, blk, list);
    f.g := f.g.(live := ClearAll(s.live, blk), role := s.role[blk := OpenRw(2, true)],
                trace := Then(s.trace, SealBlk(blk)));
    mismatch := corresponding + HIGH_PAGE_CHUNKS != nValidChunks;
    SealKept(s, blk, f.t.chunksMap);
    ClearedInPlace(s.live, blk, bank);
    assert f.View() == Seal(s, blk, f.t.chunksMap);
    o := Pass;
  }

  lemma ClearedInPlace(m: map<Key, Loc>, blk: Blk, bank: nat)
    ensures InPlace(m, ClearAll(m, blk), bank)
  {
  }

  // ----- RW blocks -----

  /** Pop a clean block and make it the open RW block; traps on an empty clean list. */
  method PopRwBlk(f: Ftl, bank: nat) returns (o: Outcome)
    requires bank < |f.t.rwCtrl| && bank < |f.t.cleanList| && bank < |f.t.rwLpns|
    modifies f`t, f`g
    ensures o == if old(f.t.cleanList[bank]) == [] then Fail(Halted) else Pass
    ensures o.Pass? ==> f.View() == OpenRwBlk(old(f.View()), bank) && Opened(old(f.t), f.t, bank)
  {
    if f.t.cleanList[bank] == [] {
      return Fail(Halted);
    }
    var lbn := f.t.cleanList[bank][0];
    f.g := f.g.(role := f.g.role[Blk(bank, lbn) := OpenRw(0, false)],
                lists := f.g.lists[Blk(bank, lbn) := f.t.rwLpns[bank]]);
    f.t := f.t.(cleanList := f.t.cleanList[bank := f.t.cleanList[bank][1..]],
                rwCtrl := f.t.rwCtrl[bank := Open(lbn, 0, false)]);
    o := Pass;
  }

  /** The value of the bank's best victim in each heap; the source's check for 504 cannot trap. */
  method HeapTops(f: Ftl, bank: nat) returns (nW: nat, vW: Option<Blk>, nO: nat, vO: Option<Blk>)
    requires Inv(f.View())
    ensures vW.None? ==> nW == INVALID && forall m | m in f.t.writeHeap :: m.bank != bank
    ensures vW.Some? ==>
      && vW.value in f.t.writeHeap && vW.value.bank == bank && vW.value in f.t.writeCount
      && nW == f.t.writeCount[vW.value] <= CHUNKS_PER_LOG_BLK
    ensures forall m | m in f.t.writeHeap && m.bank == bank :: m in f.t.writeCount && nW <= f.t.writeCount[m]
    ensures vO.None? ==> nO == INVALID && forall m | m in f.t.owHeap :: m.bank != bank
    ensures vO.Some? ==>
      vO.value in f.t.owHeap && vO.value.bank == bank && vO.value in f.t.owCount && nO == f.t.owCount[vO.value]
    ensures forall m | m in f.t.owHeap && m.bank == bank :: m in f.t.owCount && nO <= f.t.owCount[m]
    ensures HIGH_PAGE_CHUNKS <= nO <= INVALID && (vO.Some? ==> nO <= OW_BLK_CHUNKS)
    ensures OwWins(f.t, bank) <==> vO.Some? && nO - HIGH_PAGE_CHUNKS < nW
  {
    hide Inv;
    HeapFacts(f.View());
    nW, vW := GetVictim(f.t.writeCount, f.t.writeHeap, bank);
    nO, vO := GetVictim(f.t.owCount, f.t.owHeap, bank);
    if vO.Some? && nO - HIGH_PAGE_CHUNKS < nW {
      assert UndercutsRw(f.t, bank, f.t.owCount[vO.value]);
    }
  }

  lemma NoneReady(rw: seq<RwCursor>, wIn: set<Blk>, bank: nat)
    requires RwReady(rw, wIn) && bank < |rw| && rw[bank].Closed?
    ensures forall m | m in wIn :: m.bank != bank
  {
  }

  /** The open RW block of the bank, allocating one if there is none yet.
      The branch of the source that collects here is never taken: a bank without an open
      RW block has an empty write heap, so the comparison of heap tops chooses to seal. */
  method GetRWLpn(f: Ftl, bank: nat) returns (o: Outcome)
    requires Calm(f.View()) && bank < f.banks && Tracked(f)
    modifies f`t, f`g
    ensures o.Pass? ==> Tracked(f) && GotRw(old(f.t), f.t, bank, f.owing)
    ensures o.Pass? ==> f.g.wiped == old(f.g.wiped) && InPlace(old(f.g.live), f.g.live, bank)
    ensures old(bank < |f.t.rwCtrl| && f.t.rwCtrl[bank].Open?) ==> o.Pass? && f.View() == old(f.View())
    ensures o.Pass? ==> Calm(f.View()) && Kept(old(f.View()), f.View()) && SameRwBuffers(old(f.View()), f.View())
    ensures o.Pass? ==> bank < |f.t.rwCtrl| && f.t.rwCtrl[bank].Open?
    ensures o.Fail? ==>
      && bank < |old(f.t.cleanList)| && |old(f.t.cleanList)[bank]| <= 1 && bank < |old(f.t.rwCtrl)|
      && old(f.t.rwCtrl)[bank].Closed?
    ensures o.Fail? && o != Fail(UnsafeCollection) ==>
      o == Fail(Halted) && forall m | m in old(f.t.writeHeap) + old(f.t.owHeap) :: m.bank != bank
    ensures o == Fail(UnsafeCollection) ==> f.owing.Some? && LeastOw(old(f.t), f.owing.value, bank)
    ensures 1 <= PagesAt(old(f.t), bank) ==> o.Pass? && NoLess(old(f.t), f.t, bank)
  {
    hide Inv, Kept, RwReady, RwReadyBut, NoLess, StockAt;
    ghost var s := f.View();
    BankFacts(s, bank);
    SameCursors(f.t, f.t, bank);
    if f.t.rwCtrl[bank].Open? {
      KeptRefl(s);
      return Pass;
    }
    ReadyBut(s.rw, s.wIn, bank);
    if |f.t.cleanList[bank]| <= 1 {
      var nW, vW, nO, vO := HeapTops(f, bank);
      NoneReady(s.rw, s.wIn, bank);
      o := Fail(Halted);
      if nO - HIGH_PAGE_CHUNKS < nW {
        var mismatch;
        o, mismatch := SealOWBlk(f, bank);
      } else {
        assert false;
      }
    } else {
      o := PopRwBlk(f, bank);
      OpenedPages(old(f.t), f.t, bank);
      OpenKept(s, bank);
    }
  }

  // ----- the pieces of a collection -----

  /** The lengths of the tables beside `Tables`, and what `inRam` and `owing` stand for. */
  ghost predicate Sys(f: Ftl)
    reads f
  {
    |f.gcNestLevel| == f.banks && f.referenceBank < f.banks && 0 < f.banks && Tracked(f)
  }

  /** The search of garbageCollectLog over one page: for each slot the first chunk of the listed
      page that the table places there.  The overwrite bit is masked; entries for the DRAM
      buffers can never equal a page address. */
  method FindValidChunks(f: Ftl, v: Blk, page: nat, list: seq<Option<nat>>) returns (keys: seq<Option<Key>>)
    requires page * 8 + 8 <= |list|
    ensures keys == SearchPage(f.t.chunksMap, list, v, page)
  {
    keys := [];
    for c := 0 to 8
      invariant |keys| == c
        && forall i | 0 <= i < c :: keys[i] == SearchSlot(f.t.chunksMap, list[page * 8 + i], v, page, i)
    {
      var key := FindValidChunk(f, v, page, c, list[page * 8 + c]);
      keys := keys + [key];
    }
  }

  method FindValidChunk(f: Ftl, v: Blk, page: nat, slot: nat, name: Option<nat>) returns (key: Option<Key>)
    ensures key == SearchSlot(f.t.chunksMap, name, v, page, slot)
  {
    key := None;
    if name.Some? {
      for i := 0 to 8
        invariant FirstPlaced(f.t.chunksMap, name.value, v, page, slot, 0)
          == FirstPlaced(f.t.chunksMap, name.value, v, page, slot, i)
      {
        if Placed(f.t.chunksMap, Key(name.value, i), v, page, slot) {
          return Some(Key(name.value, i));
        }
      }
    }
  }

  /** cleanListPush: traps when the bank has no node left for another block. */
  method PushClean(f: Ftl, v: Blk) returns (o: Outcome)
    requires v.bank < |f.t.cleanList|
    modifies f`t
    ensures o == if |old(f.t.cleanList)[v.bank]| >= f.blocks then Fail(Halted) else Pass
    ensures f.t
         == if o.Pass? then old(f.t).(cleanList := old(f.t.cleanList)[v.bank := old(f.t.cleanList)[v.bank] + [v.lbn]])
            else old(f.t)
  {
    if |f.t.cleanList[v.bank]| >= f.blocks {
      return Fail(Halted);
    }
    f.t := f.t.(cleanList := f.t.cleanList[v.bank := f.t.cleanList[v.bank] + [v.lbn]]);
    o := Pass;
  }

  /** The victim is erased, given a spare physical block, and queued as clean; the queue is never full. */
  method ReleaseBlk(f: Ftl, v: Blk)
    requires Inv(f.View()) && IsVictim(f.g.role, v) && v.bank < |f.t.cleanList|
    modifies f`t, f`g
    ensures f.View() == Release(old(f.View()), v)
    ensures forall pg | pg in f.t.flash :: !InBlk(pg, v)
  {
    hide Inv;
    CleanRoom(f.View(), v);
    f.t := f.t.(flash := Erase(f.t.flash, v));
    var o := PushClean(f, v);
    assert o.Pass?;
    f.g := f.g.(role := f.g.role[v := Clean], wiped := f.g.wiped + multiset{v}, trace := Then(f.g.trace, EraseBlk(v)));
  }

  /** The loop of the page copy: list entries and table entries of eight chunks. */
  method CopySlots(f: Ftl, db: nat, src: PageId, keys: seq<Option<Key>>)
    requires db < |f.t.rwCtrl| && f.t.rwCtrl[db].Open? && f.t.rwCtrl[db].page <= 126 && db < |f.t.rwLpns|
      && |f.t.rwLpns[db]| == CHUNKS_PER_BLK
    requires PageKeys(f.g.live, src, keys) && AllFound(keys) && Inj(f.g.live)
    modifies f`t
    ensures var o := old(f.View());
      f.t == old(f.t).(
        chunksMap := o.cmap + BufAdds(o.live, src, Pg(db, o.rw[db].lbn, o.rw[db].page), false, 8),
        rwLpns := o.rwList[db := WriteNames(o.rwList[db], o.rw[db].page, NamesOf(keys))])
  {
    hide CopiedUpto, PageKeys, AllFound, Inj;
    ghost var t := f.t;
    var c := f.t.rwCtrl[db];
    var dst := Pg(db, c.lbn, c.page);
    AllAreKeys(f.g.live, src, keys);
    CopiedEnds(t, f.g.live, db, src, dst, keys);
    for i := 0 to 8
      invariant f.t == CopiedUpto(t, f.g.live, db, src, dst, keys, i)
    {
      CopiedStep(t, f.g.live, db, src, dst, keys, i);
      f.t := f.t.(rwLpns := f.t.rwLpns[db := f.t.rwLpns[db][c.page * 8 + i := Some(keys[i].value.lpn)]],
                  chunksMap := f.t.chunksMap[keys[i].value := Loc(false, dst, i)]);
    }
  }

  /** The tables with the first `n` chunks of the page entered at `dst`. */
  ghost function CopiedUpto(t: Tables, live: map<Key, Loc>, db: nat, src: PageId, dst: PageId, keys: seq<Option<Key>>,
                            n: nat): Tables
    requires db < |t.rwLpns| && |keys| == 8 && dst.Pg? && n <= 8
  {
    t.(chunksMap := t.chunksMap + BufAdds(live, src, dst, false, n),
       rwLpns := t.rwLpns[db := NamesUpto(t.rwLpns[db], dst.page, NamesOf(keys), n)])
  }

  lemma CopiedEnds(t: Tables, live: map<Key, Loc>, db: nat, src: PageId, dst: PageId, keys: seq<Option<Key>>)
    requires db < |t.rwLpns| && |keys| == 8 && dst.Pg?
    ensures CopiedUpto(t, live, db, src, dst, keys, 0) == t
    ensures |NamesOf(keys)| == 8
    ensures CopiedUpto(t, live, db, src, dst, keys, 8)
         == t.(chunksMap := t.chunksMap + BufAdds(live, src, dst, false, 8),
               rwLpns := t.rwLpns[db := WriteNames(t.rwLpns[db], dst.page, NamesOf(keys))])
  {
    hide WriteNames, NamesUpto, BufAdds, NamesOf;
    NamesOfAt(keys);
    NamesEnds(t.rwLpns[db], dst.page, NamesOf(keys));
    AddsNone(live, src, dst, false);
  }

  lemma CopiedStep(t: Tables, live: map<Key, Loc>, db: nat, src: PageId, dst: PageId, keys: seq<Option<Key>>, n: nat)
    requires db < |t.rwLpns| && |keys| == 8 && dst.Pg? && n < 8 && dst.page * 8 + 8 <= |t.rwLpns[db]|
    requires PageKeys(live, src, keys) && AllFound(keys) && Inj(live) && keys[n].Some?
    ensures var u := CopiedUpto(t, live, db, src, dst, keys, n); var k := keys[n].value;
      && |u.rwLpns| == |t.rwLpns| && |u.rwLpns[db]| == |t.rwLpns[db]|
      && u.(rwLpns := u.rwLpns[db := u.rwLpns[db][dst.page * 8 + n := Some(k.lpn)]],
            chunksMap := u.chunksMap[k := Loc(false, dst, n)])
         == CopiedUpto(t, live, db, src, dst, keys, n + 1)
  {
    hide WriteNames, NamesUpto, BufAdds, NamesOf, PageKeys, AllFound, Inj;
    NamesOfAt(keys);
    ListStep(t.rwLpns, db, dst.page, NamesOf(keys), n);
    CopyAddsStep(live, src, dst, keys, n);
  }

  /** One LPN entry more, in the lists of all banks. */
  lemma ListStep(lists: seq<seq<Option<nat>>>, b: nat, page: nat, names: seq<Option<nat>>, n: nat)
    requires b < |lists| && |names| == 8 && n < 8 && page * 8 + 8 <= |lists[b]|
    ensures |NamesUpto(lists[b], page, names, n)| == |lists[b]|
    ensures lists[b := NamesUpto(lists[b], page, names, n)]
              [b := NamesUpto(lists[b], page, names, n)[page * 8 + n := names[n]]]
         == lists[b := NamesUpto(lists[b], page, names, n + 1)]
  {
    hide NamesUpto;
    NamesUptoLength(lists[b], page, names, n);
    NamesStep(lists[b], page, names, n);
  }

  lemma AllAreKeys(live: map<Key, Loc>, src: PageId, keys: seq<Option<Key>>)
    requires PageKeys(live, src, keys) && AllFound(keys)
    ensures |keys| == 8 && forall c | 0 <= c < 8 :: keys[c].Some?
  {
  }

  lemma CopyAddsStep(live: map<Key, Loc>, src: PageId, dst: PageId, keys: seq<Option<Key>>, c: nat)
    requires PageKeys(live, src, keys) && AllFound(keys) && Inj(live) && c < 8
    ensures BufAdds(live, src, dst, false, c + 1)
      == BufAdds(live, src, dst, false, c)[keys[c].value := Loc(false, dst, c)]
  {
    var k := keys[c].value;
    assert live[k].page == src && live[k].slot == c;
    forall j | j in live && live[j].page == src && live[j].slot == c ensures j == k {
      assert live[j].page == live[k].page && live[j].slot == live[k].slot;
    }
  }

  /** A page copy spelled out: no count changes and nothing held is touched. */
  ghost function PlainCopy(s: St, db: nat, src: PageId, keys: seq<Option<Key>>): St
    requires db < |s.rw| && s.rw[db].Open? && db < |s.rwList| && |NamesOf(keys)| == 8 && src in s.flash
      && s.flash[src].Data?
  {
    var c := s.rw[db];
    var blk := Blk(db, c.lbn);
    var adds := BufAdds(s.live, src, Pg(db, c.lbn, c.page), false, 8);
    var list := WriteNames(s.rwList[db], c.page, NamesOf(keys));
    s.(live := s.live + adds, cmap := s.cmap + adds, flash := s.flash[Pg(db, c.lbn, c.page) := Data(s.flash[src].chunks,
        1)],
       rwList := s.rwList[db := list], lists := s.lists[blk := list],
       role := s.role[blk := OpenRw(NextRw(c.page, c.sealed), c.sealed)], pending := s.pending + {db},
       trace := Then(s.trace, Program(Pg(db, c.lbn, c.page), RwData)))
  }

  lemma CopyIsPlain(s: St, db: nat, src: PageId, keys: seq<Option<Key>>)
    requires CanCopy(s, db, src, keys) && |NamesOf(keys)| == 8
    requires |BufAdds(s.live, src, Pg(db, s.rw[db].lbn, s.rw[db].page), false, 8)| == 8
    ensures src in s.flash && s.flash[src].Data? && CopyStep(s, db, src, keys) == PlainCopy(s, db, src, keys)
    ensures s.rw[db].page <= 126 && |s.rwList[db]| == CHUNKS_PER_BLK && Inj(s.live)
  {
    hide Inv, WriteNames, BufAdds, NamesOf, PageKeys, AllFound, PageData, Minus, Inj;
    RwFacts(s, db);
    LiveFacts(s);
    PageFacts(s, src, keys) by { PageKeysLen(s.live, src, keys); Found0(s.live, src, keys); }
    PageDataIs(s, src);
    var adds := BufAdds(s.live, src, Pg(db, s.rw[db].lbn, s.rw[db].page), false, 8);
    BufAddsHeld(s, src, Pg(db, s.rw[db].lbn, s.rw[db].page), false);
    assert s.held - adds.Keys == s.held;
    MinusZero(s.wCount, Blk(db, s.rw[db].lbn));
  }

  /** A page of eight mapped chunks is copied to the RW page of another bank. */
  method CopyPage(f: Ftl, db: nat, src: PageId, keys: seq<Option<Key>>)
    requires db < |f.t.rwCtrl| && f.t.rwCtrl[db].Open? && f.t.rwCtrl[db].page <= 126 && db < |f.t.rwLpns|
      && |f.t.rwLpns[db]| == CHUNKS_PER_BLK
    requires PageKeys(f.g.live, src, keys) && AllFound(keys) && Inj(f.g.live) && |NamesOf(keys)| == 8
    requires src in f.t.flash && f.t.flash[src].Data? && Pg(db, f.t.rwCtrl[db].lbn, f.t.rwCtrl[db].page) !in f.t.flash
    modifies f`t, f`g
    ensures f.t.rwCtrl == old(f.t.rwCtrl) && f.t.cleanList == old(f.t.cleanList) && f.t.chunkPtr == old(f.t.chunkPtr)
    ensures f.View() == PlainCopy(old(f.View()), db, src, keys)
  {
    hide WriteNames, BufAdds, NamesOf, PageKeys, AllFound, NandProgram;
    ghost var s := f.View();
    var c := f.t.rwCtrl[db];
    var dst := Pg(db, c.lbn, c.page);
    var data := f.t.flash[src].chunks;
    CopySlots(f, db, src, keys);
    NandErased(f.t.flash, dst, Data(data, 1));
    f.t := f.t.(flash := NandProgram(f.t.flash, dst, Data(data, 1)));
    ghost var adds := BufAdds(s.live, src, dst, false, 8);
    f.g := f.g.(live := s.live + adds, lists := s.lists[Blk(db, c.lbn) := f.t.rwLpns[db]],
                role := s.role[Blk(db, c.lbn) := OpenRw(NextRw(c.page, c.sealed), c.sealed)],
                pending := s.pending + {db},
                trace := Then(s.trace, Program(dst, RwData)));
  }

  lemma PageDataIs(s: St, src: PageId)
    requires src in s.flash && s.flash[src].Data? && src.Pg?
    ensures PageData(src, s.logBuf, s.owBuf, s.flash) == s.flash[src].chunks
  {
  }

  /** A held chunk goes to the write buffer of a bank. */
  method PutChunk(f: Ftl, k: Key, bank: nat, d: Chunk)
    requires bank < |f.t.logBuf| && bank < |f.t.logBufMeta| && bank < |f.t.chunkPtr| && bank < |f.g.fill|
    requires f.g.fill[bank] == f.t.chunkPtr[bank] < 8 && |f.t.logBuf[bank]| == 8 && |f.t.logBufMeta[bank]| == 8
    requires Tracked(f)
    modifies f`t, f`g, f`inRam
    ensures f.View() == PutRw(old(f.View()), k, bank, d) && Tracked(f)
  {
    var p := f.t.chunkPtr[bank];
    f.t := f.t.(logBuf := SetSlot(f.t.logBuf, bank, p, d),
                logBufMeta := SetSlot(f.t.logBufMeta, bank, p, Some(k)),
                chunksMap := f.t.chunksMap[k := Loc(false, Buf(false, bank), p)],
                chunkPtr := f.t.chunkPtr[bank := (p + 1) % 8]);
    f.g := f.g.(live := f.g.live[k := Loc(false, Buf(false, bank), p)], held := f.g.held - {k},
                fill := f.g.fill[bank := p + 1]);
    f.inRam := f.inRam - {k};
  }

  /** A full RW block stores its LPN list in page 127 and enters the write heap.
      The source leaves the old cursor in place until the next block is chosen; nothing reads it. */
  method CloseRwBlk(f: Ftl, bank: nat)
    requires bank < |f.t.rwCtrl| && f.t.rwCtrl[bank].Open? && bank < |f.t.rwLpns|
    requires ListPage(Blk(bank, f.t.rwCtrl[bank].lbn), 127) !in f.t.flash
    modifies f`t, f`g
    ensures f.View() == CloseRw(old(f.View()), bank)
  {
    var blk := Blk(bank, f.t.rwCtrl[bank].lbn);
    f.t := f.t.(flash := NandProgram(f.t.flash, ListPage(blk, 127), List(f.t.rwLpns[bank])),
                rwLpns := f.t.rwLpns[bank := NoNames()],
                writeHeap := f.t.writeHeap + {blk}, rwCtrl := f.t.rwCtrl[bank := Closed]);
    f.g := f.g.(role := f.g.role[blk := FullRw], pending := f.g.pending - {bank},
                trace := Then(f.g.trace, Program(ListPage(blk, 127), LpnList)));
  }

  /** After a page was programmed: move the cursor, or close the block and get another. */
  method IncreaseRWLpn(f: Ftl, bank: nat, fuel: nat) returns (o: Outcome)
    requires ProgrammedAt(f.View(), bank) && Sys(f)
    modifies f
    ensures o.Pass? ==> Idle(f.View()) && Kept(old(f.View()), f.View()) && Sys(f)
    ensures o.Pass? ==> f.gcNestLevel == old(f.gcNestLevel) && f.givenUp == old(f.givenUp) && f.owing == old(f.owing)
    ensures o.Pass? ==> Stayed(old(f.View()), old(f.referenceBank), f.View(), f.referenceBank, bank)
    ensures OnePage(old(f.t), f.t, bank, o)
    ensures 1 <= PagesAt(old(f.t), bank) ==> f.g.wiped == old(f.g.wiped)
    ensures bank < |old(f.t.rwCtrl)| && old(f.t.rwCtrl)[bank].Open? && old(f.t.rwCtrl)[bank].page != 126 ==>
      o.Pass? && f.t.cleanList == old(f.t.cleanList) && f.g.wiped == old(f.g.wiped)
    ensures BlockReplaced(old(f.View()), f.View(), bank, o, old(f.owing), old(f.gcNestLevel), fuel)
    ensures EnduresFree(old(f.View()), old(f.gcNestLevel)) ==> o.Pass? && Endures(f.View())
    ensures old(Unburdened(f)) ==> o != Fail(UnsafeCollection)
    decreases fuel, Slack(f.View()), 1, 2
  {
    hide Inv, Content, Stale, FrameOf, Slack, VRoles, RwReady, RwReadyBut, NextBlock, Refills, EnduresFree, Endures;
    ghost var s, nest := f.View(), f.gcNestLevel;
    BankFacts(s, bank);
    RwFacts(s, bank);
    var c := f.t.rwCtrl[bank];
    if c.page != 126 {
      f.t := f.t.(rwCtrl := f.t.rwCtrl[bank := c.(page := NextRw(c.page, c.sealed))]);
      f.g := f.g.(pending := f.g.pending - {bank});
      AdvancedPage(old(f.t), f.t, bank);
      AdvanceKept(s, bank);
      o := Pass;
    } else {
      ListPageErased(s, bank);
      CloseRwBlk(f, bank);
      CloseKept(s, bank);
      ghost var s1, t1 := f.View(), f.t;
      o := OpenNextRw(f, bank, fuel);
      ClosedOpened(old(f.t), t1, f.t, bank, o);
      if o.Pass? {
        KeptTrans(s, s1, f.View());
      }
    }
    IncreaseEndures(s, f.View(), bank, o, old(f.owing), nest, fuel);
  }

  /** The bank has just closed its RW block and clean blocks are scarce: seal, or take one and collect. */
  method SealOrCollect(f: Ftl, bank: nat, fuel: nat) returns (o: Outcome)
    requires BetweenBlocks(f, bank)
    modifies f
    ensures o.Pass? ==> Idle(f.View()) && Kept(old(f.View()), f.View()) && Sys(f)
    ensures o.Pass? ==> f.gcNestLevel == old(f.gcNestLevel) && f.givenUp == old(f.givenUp) && f.owing == old(f.owing)
    ensures o.Pass? ==> Stayed(old(f.View()), old(f.referenceBank), f.View(), f.referenceBank, bank)
    ensures SealedOrCollected(old(f.View()), f.View(), bank, o, old(f.owing))
    ensures Refills(old(f.View()), old(f.gcNestLevel), bank, fuel) ==> o.Pass? && 1 <= CleanAt(f.t, bank)
    ensures old(Unburdened(f)) ==> o != Fail(UnsafeCollection)
    decreases fuel, Slack(f.View()), 1, 0
  {
    hide Inv, Content, Stale, FrameOf, Slack, VRoles, RwReady, RwReadyBut, FillsBut, NoStaleIn, InPlace, Collected,
         Affordable, Refills, OwWins, LeastOw, Sealed, SealedOrCollected, Stayed, Kept, TablesOf;
    ghost var s, ref := f.View(), f.referenceBank;
    ViewTables(f);
    BankFacts(s, bank);
    var nW, vW, nO, vO := HeapTops(f, bank);
    RefillsFacts(s, f.gcNestLevel, bank, fuel);
    if nO - HIGH_PAGE_CHUNKS < nW {
      var mismatch;
      o, mismatch := SealOWBlk(f, bank);
      ViewTables(f);
      SealOutcome(s, f.View(), ref, bank, o, f.owing);
      :- o;
      IdleAfterSeal(s, f.View());
    } else {
      o := TakeCleanRw(f, bank);
      CollectOutcome(s, f.View(), ref, f.referenceBank, bank, Fail(Halted), f.owing);
      :- o;
      ghost var s1 := f.View();
      KeptSlack(s, s1);
      o := GarbageCollectLog(f, bank, fuel);
      CollectOutcome(s, f.View(), ref, f.referenceBank, bank, o, old(f.owing));
      :- o;
      KeptTrans(s, s1, f.View());
    }
    o := Pass;
  }

  /** What a seal was. */
  lemma SealOutcome(s: St, t: St, ref: nat, bank: nat, o: Outcome, owing: Option<Blk>)
    requires o.Pass? ==>
      && OwWins(TablesOf(s), bank) && bank < |t.rw| && t.rw[bank].Open? && t.wiped == s.wiped
      && Sealed(TablesOf(s), TablesOf(t), Blk(bank, t.rw[bank].lbn), bank) && owing != Some(Blk(bank, t.rw[bank].lbn))
      && InPlace(s.live, t.live, bank)
    requires o.Fail? && OwWins(TablesOf(s), bank) ==>
      o == Fail(UnsafeCollection) && owing.Some? && LeastOw(TablesOf(s), owing.value, bank)
    ensures SealedOrCollected(s, t, bank, o, owing) && (o.Pass? ==> Stayed(s, ref, t, ref, bank))
  {
    hide OwWins, LeastOw, Sealed, Collected, InPlace;
  }

  lemma IdleAfterSeal(s: St, t: St)
    requires FillsBut(s.fill, -1) && SameRwBuffers(s, t) && Calm(t)
    ensures Idle(t)
  {
  }

  /** What taking a clean block and collecting was. */
  lemma CollectOutcome(s: St, t: St, ref: nat, ref': nat, bank: nat, o: Outcome, owing: Option<Blk>)
    requires !OwWins(TablesOf(s), bank)
    requires o.Pass? ==>
      && bank < |s.clean| && bank < |s.rw| && bank < |s.rwList| && s.clean[bank] != []
      && Collected(OpenRwBlk(s, bank), t, bank)
    ensures SealedOrCollected(s, t, bank, o, owing) && (o.Pass? ==> Stayed(s, ref, t, ref', bank))
  {
    hide OwWins, Collected, InPlace;
    if o.Pass? {
      CollectedWipes(OpenRwBlk(s, bank), t, bank);
    }
  }

  /** A bank that has closed its RW block and not got another one yet. */
  ghost predicate BetweenBlocks(f: Ftl, bank: nat)
    reads f
  {
    && Inv(f.View()) && f.g.pending == {} && FillsBut(f.g.fill, -1) && Sys(f)
    && bank < f.banks && bank < |f.t.rwCtrl| && f.t.rwCtrl[bank].Closed?
    && RwReadyBut(f.t.rwCtrl, f.t.writeHeap, bank)
  }

  /** The next clean block becomes the open RW block. */
  method TakeCleanRw(f: Ftl, bank: nat) returns (o: Outcome)
    requires BetweenBlocks(f, bank)
    modifies f`t, f`g
    ensures o.Pass? ==> Idle(f.View()) && Kept(old(f.View()), f.View()) && Sys(f)
    ensures bank < |old(f.t.cleanList)| && o == if old(f.t.cleanList)[bank] == [] then Fail(Halted) else Pass
    ensures o.Pass? ==>
      && bank < |old(f.t.rwCtrl)| && bank < |old(f.t.rwLpns)| && Opened(old(f.t), f.t, bank)
      && f.View() == OpenRwBlk(old(f.View()), bank)
  {
    hide Inv, Content, Stale, FrameOf, Slack, VRoles, RwReady, RwReadyBut, FillsBut;
    ghost var s := f.View();
    BankFacts(s, bank);
    o := PopRwBlk(f, bank);
    if o.Pass? {
      OpenKept(s, bank);
    }
  }

  /** The bank has just closed its RW block: get another, and never run out of clean blocks. */
  method OpenNextRw(f: Ftl, bank: nat, fuel: nat) returns (o: Outcome)
    requires BetweenBlocks(f, bank)
    modifies f
    ensures o.Pass? ==> Idle(f.View()) && Kept(old(f.View()), f.View()) && Sys(f)
    ensures o.Pass? ==> f.gcNestLevel == old(f.gcNestLevel) && f.givenUp == old(f.givenUp) && f.owing == old(f.owing)
    ensures o.Pass? ==> Stayed(old(f.View()), old(f.referenceBank), f.View(), f.referenceBank, bank)
    ensures o.Pass? ==> bank < |f.t.cleanList| && 1 <= |f.t.cleanList[bank]|
    ensures bank < |old(f.t.cleanList)| && 2 <= |old(f.t.cleanList)[bank]| ==>
      o.Pass? && Opened(old(f.t), f.t, bank) && f.g.wiped == old(f.g.wiped)
    ensures NextBlock(old(f.View()), f.View(), bank, o, old(f.owing))
    ensures Refills(old(f.View()), old(f.gcNestLevel), bank, fuel) ==> o.Pass?
    ensures old(Unburdened(f)) ==> o != Fail(UnsafeCollection)
    decreases fuel, Slack(f.View()), 1, 1
  {
    hide Inv, Content, Stale, FrameOf, Slack, Sys, RwReady, RwReadyBut, FillsBut, Calm, SealedOrCollected, Refills,
         InPlace;
    ghost var s, ref := f.View(), f.referenceBank;
    BankFacts(s, bank);
    RefillsFacts(s, f.gcNestLevel, bank, fuel);
    if |f.t.cleanList[bank]| <= 1 {
      o := SealOrCollect(f, bank, fuel);
    } else {
      o := TakeCleanRw(f, bank);
      SameLive(s, f.View(), ref, bank);
    }
    :- o;
    IdleCalm(f.View());
    BankFacts(f.View(), bank);
    CleanLeft(s, f.View(), bank, f.owing);
    if |f.t.cleanList[bank]| < 1 {
      return Fail(Halted);
    }
    o := Pass;
  }

  lemma SameLive(s: St, t: St, ref: nat, bank: nat)
    ensures t.live == s.live ==> Stayed(s, ref, t, ref, bank)
  {
  }

  /** A seal neither uses up the last clean block nor finds one; a collection has used one before. */
  lemma CleanLeft(s: St, t: St, bank: nat, owing: Option<Blk>)
    requires bank < |s.clean| && bank < |t.clean| && bank < |s.rw| && bank < |s.rwList|
    ensures SealedOrCollected(s, t, bank, Pass, owing) ==>
      if t.clean[bank] != [] then s.clean[bank] != []
      else s.clean[bank] != [] ==> SealedOrCollected(s, t, bank, Fail(Halted), owing)
  {
    hide OwWins, LeastOw, Collected;
  }

  /** flushLogBuffer and flushLogBufferDuringGC: the same body, for the bank they are given. */
  method FlushLogBuffer(f: Ftl, bank: nat, fuel: nat) returns (o: Outcome)
    requires FullAt(f.View(), bank) && Sys(f)
    modifies f
    ensures o.Pass? ==> Idle(f.View()) && Kept(old(f.View()), f.View()) && Sys(f)
    ensures o.Pass? ==> f.gcNestLevel == old(f.gcNestLevel) && f.givenUp == old(f.givenUp) && f.owing == old(f.owing)
    ensures o.Pass? ==> Stayed(old(f.View()), old(f.referenceBank), f.View(), f.referenceBank, bank)
    ensures OnePage(old(f.t), f.t, bank, o)
    ensures 1 <= PagesAt(old(f.t), bank) ==> f.g.wiped == old(f.g.wiped)
    ensures CanFlush(old(f.View()), bank) ==>
      BlockReplaced(FlushStep(old(f.View()), bank), f.View(), bank, o, old(f.owing), old(f.gcNestLevel), fuel)
    ensures EnduresFree(old(f.View()), old(f.gcNestLevel)) ==> o.Pass? && Endures(f.View())
    ensures old(Unburdened(f)) ==> o != Fail(UnsafeCollection)
    decreases fuel, Slack(f.View()), 2
  {
    hide Inv, Content, Stale, FrameOf, Slack, VRoles, RwReady, CanFlush, FlushStep, NoLess, PagesAt, StockAt, OnePage,
         BlockReplaced, Stayed, InPlace, GotRw, Endures;
    ghost var s, ref := f.View(), f.referenceBank;
    FlushOpen(s, bank);
    o := GetRWLpn(f, bank);
    FullCalm(s, bank);
    GetEndures(s, f.View(), bank, o, f.owing);
    if o.Fail? {
      PageFails(old(f.t), f.t, bank, o);
      return;
    }
    ghost var s1, t1 := f.View(), f.t;
    FlushKept(s1, bank);
    FlushFields(s1, bank);
    InvFresh(s1, bank);
    ProgramLogBuffer(f, bank);
    ghost var s2, t2 := f.View(), f.t;
    KeptTrans(s, s1, s2);
    StepEndures(s, s1, s2, f.gcNestLevel);
    FlushedInPlace(s1, bank);
    PlaceTrans(s.live, s1.live, s2.live, bank);
    StayedSame(s, s2, ref, bank);
    SameCursors(t1, t2, bank);
    NoLessThen(old(f.t), t1, t2, bank);
    PagesKept(old(f.t), t2, bank);
    o := IncreaseRWLpn(f, bank, fuel);
    PageAfter(old(f.t), t2, f.t, bank, o);
    :- o;
    StayedThen(s, s2, f.View(), ref, f.referenceBank, bank);
    KeptTrans(s, s2, f.View());
  }

  lemma FullCalm(s: St, bank: nat)
    requires FullAt(s, bank)
    ensures Calm(s) && bank < s.banks
  {
  }

  lemma FlushOpen(s: St, bank: nat)
    requires FullAt(s, bank)
    ensures bank < |s.rw| && (CanFlush(s, bank) ==> s.rw[bank].Open?)
  {
    hide DramOK;
    BankFacts(s, bank);
  }

  /** Flushed chunks stay in their bank. */
  lemma FlushedInPlace(s: St, bank: nat)
    requires CanFlush(s, bank)
    ensures InPlace(s.live, FlushStep(s, bank).live, bank) && FlushStep(s, bank).wiped == s.wiped
  {
    hide WriteNames, NamesOf, Holes, Minus, DramOK;
  }

  lemma StayedSame(s: St, t: St, ref: nat, bank: nat)
    requires InPlace(s.live, t.live, bank)
    ensures Stayed(s, ref, t, ref, bank)
  {
    hide InPlace;
  }

  lemma StayedThen(s: St, t: St, u: St, ref: nat, ref': nat, bank: nat)
    requires Stayed(s, ref, t, ref, bank) && t.wiped == s.wiped && Stayed(t, ref, u, ref', bank) && Kept(t, u)
    ensures Stayed(s, ref, u, ref', bank)
  {
    hide Kept, Stayed;
    KeptWiped(t, u);
    StayedTrans(s, ref, t, ref, u, ref', bank);
  }

  /** A chunk held in RAM is put into the bank's write buffer, which is flushed when full. */
  method StoreChunk(f: Ftl, k: Key, bank: nat, d: Chunk, fuel: nat) returns (o: Outcome)
    requires Idle(f.View()) && Sys(f) && bank < f.banks && k in f.g.held && f.g.held[k] == d && k.idx < 8
    modifies f
    ensures o.Pass? ==> Idle(f.View()) && Sys(f)
    ensures o.Pass? ==>
      Moved(old(f.View()), f.View(), Frm(old(f.View())), old(f.g.held) - {k},
            Stale(old(f.t.chunksMap), old(f.g.held)) - {k})
    ensures o.Pass? ==> f.gcNestLevel == old(f.gcNestLevel) && f.givenUp == old(f.givenUp) && f.owing == old(f.owing)
    ensures o.Pass? ==> Stayed(old(f.View()), old(f.referenceBank), f.View(), f.referenceBank, bank)
    ensures o.Pass? && f.g.wiped == old(f.g.wiped) ==> k in f.g.live && f.g.live[k].page.bank == bank
    ensures Pays(Rooms(old(f.t)), Rooms(f.t), bank, 1, o)
    ensures Quietly(Rooms(old(f.t)), bank, 1, old(f.g.wiped), f.g.wiped)
    ensures EnduresBut(old(f.View()), old(f.gcNestLevel), k) ==> o.Pass? && Endures(f.View())
    ensures old(Unburdened(f)) ==> o != Fail(UnsafeCollection)
    decreases fuel, Slack(f.View()), 3, 0
  {
    hide Inv, Content, Stale, FrameOf, Slack, VRoles, RwReady, FillsBut, Calm, Pays, Quietly, Rooms, OnePage, InPlace,
         BlockReplaced, CanFlush, Stayed, Moved, Endures, EnduresBut;
    ghost var s, ref := f.View(), f.referenceBank;
    CalmInv(s);
    BankFacts(s, bank);
    FillAt(s, bank);
    PutChunk(f, k, bank, d);
    PutKept(s, k, bank);
    ghost var s1, t1 := f.View(), f.t;
    PutInPlace(s, k, bank, d);
    PutEndures(s, s1, f.gcNestLevel, k);
    MovedSlack(s, s1, Frm(s), s.held - {k}, Stale(s.cmap, s.held) - {k});
    if f.t.chunkPtr[bank] == 0 {
      SameCursorsAt(old(f.t), t1, bank);
      o := FlushLogBuffer(f, bank, fuel);
      ChunkIn(old(f.t), t1, f.t, bank, o);
      QuietRoom(old(f.t), bank, 1, s.wiped, f.g.wiped);
      :- o;
      PutStays(s, s1, f.View(), ref, f.referenceBank, k, bank);
      MovedKept(s, s1, f.View(), Frm(s), s.held - {k}, Stale(s.cmap, s.held) - {k});
    } else {
      ChunkIn(old(f.t), t1, f.t, bank, Pass);
      QuietRoom(old(f.t), bank, 1, s.wiped, f.g.wiped);
      StayedSame(s, s1, ref, bank);
      o := Pass;
    }
  }

  lemma MovedSlack(s: St, t: St, f: Frame, held: map<Key, Chunk>, stale: map<Key, PageId>)
    requires Moved(s, t, f, held, stale)
    ensures Slack(t) <= Slack(s)
  {
    hide Content, Stale, FrameOf, Slack;
  }

  /** Putting a chunk away, and what a flush does afterwards. */
  lemma PutStays(s: St, t: St, u: St, ref: nat, ref': nat, k: Key, b: nat)
    requires InPlace(s.live, t.live, b) && t.wiped == s.wiped && k in t.live && t.live[k].page == Buf(false, b)
    requires Stayed(t, ref, u, ref', b) && Kept(t, u)
    ensures Stayed(s, ref, u, ref', b) && (u.wiped == s.wiped ==> k in u.live && u.live[k].page.bank == b)
  {
    hide Kept;
    StayedSame(s, t, ref, b);
    StayedThen(s, t, u, ref, ref', b);
  }

  lemma PutInPlace(s: St, k: Key, b: nat, d: Chunk)
    requires Inv(s) && k in s.held && b < |s.fill| && b < |s.ptr|
    ensures var t := PutRw(s, k, b, d);
      InPlace(s.live, t.live, b) && t.wiped == s.wiped && k in t.live && t.live[k].page == Buf(false, b)
  {
    hide Inv, SetSlot;
    DisjointHeld(s);
  }

  /** writeChunkOnLogBlockDuringGC: a chunk read from a victim goes to the next bank's buffer. */
  method WriteChunkDuringGC(f: Ftl, k: Key, d: Chunk, fuel: nat) returns (o: Outcome)
    requires Idle(f.View()) && Sys(f) && k in f.g.held && f.g.held[k] == d && k.idx < 8
    modifies f
    ensures o.Pass? ==> Idle(f.View()) && Sys(f)
    ensures o.Pass? ==>
      Moved(old(f.View()), f.View(), Frm(old(f.View())), old(f.g.held) - {k},
            Stale(old(f.t.chunksMap), old(f.g.held)) - {k})
    ensures o.Pass? ==> f.gcNestLevel == old(f.gcNestLevel) && f.givenUp == old(f.givenUp) && f.owing == old(f.owing)
    ensures old(Unburdened(f)) ==> o != Fail(UnsafeCollection)
    ensures Lasts(Rooms(old(f.t)), Rooms(f.t), 1, o)
    ensures o.Pass? ==> InTurn(old(f.View()), old(f.referenceBank), f.View(), f.referenceBank, k)
    decreases fuel, Slack(f.View()), 3, 1
  {
    hide Inv, Idle, Content, Stale, FrameOf, Slack, VRoles, Moved, Pays, Lasts, Rooms, RoomAt, SameBanks,
         InPlace, Endures, EnduresBut;
    ghost var s := f.View();
    var bank := ChooseNewBank(f);
    IdleBank(f.View(), bank);
    o := StoreChunk(f, k, bank, d, fuel);
    if InPlace(s.live, f.g.live, bank) {
      PlaceBanks(s.live, f.g.live, bank);
    }
    PaysLasts(Rooms(old(f.t)), Rooms(f.t), bank, 1, 1, o);
  }

  /** Unless a block was erased, `k` is now in the bank whose turn it was, and no other chunk left its bank. */
  ghost predicate InTurn(s: St, ref: nat, t: St, ref': nat, k: Key) {
    0 < s.banks && t.wiped == s.wiped ==>
      ref' == NthBank(ref, s.banks, 1) && SameBanks(s.live, t.live) && k in t.live && t.live[k].page.bank == ref'
  }

  lemma CalmInv(s: St)
    requires Calm(s)
    ensures Inv(s)
  {
  }

  lemma FillAt(s: St, bank: nat)
    requires Idle(s) && bank < |s.fill|
    ensures s.fill[bank] < 8
  {
  }

  /** The chunks of one page, each from the GC buffer to some bank's buffer. */
  method RewriteChunks(f: Ftl, keys: seq<Option<Key>>, buf: seq<Chunk>, fuel: nat) returns (o: Outcome)
    requires Idle(f.View()) && Sys(f) && |keys| == 8 && |buf| == 8
    requires forall c | 0 <= c < 8 && keys[c].Some? ::
      keys[c].value in f.g.held && f.g.held[keys[c].value] == buf[c] && keys[c].value.idx < 8
    requires forall i, j | 0 <= i < j < 8 && keys[i].Some? :: keys[i] != keys[j]
    modifies f
    ensures o.Pass? ==> Idle(f.View()) && Sys(f)
    ensures o.Pass? ==>
      Moved(old(f.View()), f.View(), Frm(old(f.View())), old(f.g.held) - Named(keys, 8),
            Stale(old(f.t.chunksMap), old(f.g.held)) - Named(keys, 8))
    ensures o.Pass? ==> f.gcNestLevel == old(f.gcNestLevel) && f.givenUp == old(f.givenUp) && f.owing == old(f.owing)
    ensures old(Unburdened(f)) ==> o != Fail(UnsafeCollection)
    ensures Lasts(Rooms(old(f.t)), Rooms(f.t), Filled(keys, 8), o)
    ensures o.Pass? ==> Dealt(old(f.View()), old(f.referenceBank), f.View(), f.referenceBank, keys, 8)
    decreases fuel, Slack(f.View()), 4
  {
    hide Inv, Idle, Content, Stale, FrameOf, Slack, Sys, Named, Lasts, Rooms, Dealt, InTurn;
    LastsNothing(Rooms(f.t));
    ghost var s := f.View();
    DealtNone(s, f.referenceBank, keys);
    NamedNone(keys);
    assert s.held - Named(keys, 0) == s.held;
    assert Stale(s.cmap, s.held) - Named(keys, 0) == Stale(s.cmap, s.held);
    MovedRefl(s);
    for c := 0 to 8
      invariant Idle(f.View()) && Sys(f)
      invariant Moved(s, f.View(), Frm(s), s.held - Named(keys, c), Stale(s.cmap, s.held) - Named(keys, c))
      invariant Lasts(Rooms(old(f.t)), Rooms(f.t), Filled(keys, c), Pass)
      invariant Dealt(s, old(f.referenceBank), f.View(), f.referenceBank, keys, c)
      invariant f.gcNestLevel == old(f.gcNestLevel) && f.givenUp == old(f.givenUp) && f.owing == old(f.owing)
    {
      NamedNext(keys, c);
      if keys[c].Some? {
        ghost var s1 := f.View();
        ghost var h, st := s.held - Named(keys, c), Stale(s.cmap, s.held) - Named(keys, c);
        LessMore(s.held, Named(keys, c), keys[c].value);
        LessMore(Stale(s.cmap, s.held), Named(keys, c), keys[c].value);
        ghost var rooms, ref1 := Rooms(f.t), f.referenceBank;
        o := WriteChunkDuringGC(f, keys[c].value, buf[c], fuel);
        FilledMore(keys, c + 1, 8);
        LastsStep(Rooms(old(f.t)), rooms, Rooms(f.t), Filled(keys, c), 1, Filled(keys, 8), o);
        :- o;
        DealtMore(s, old(f.referenceBank), s1, ref1, f.View(), f.referenceBank, keys, c);
        MovedMoved(s, s1, f.View(), Frm(s), h, st, Frm(s1), s1.held - {keys[c].value},
                   Stale(s1.cmap, s1.held) - {keys[c].value});
      } else {
        DealtSkip(s, old(f.referenceBank), f.View(), f.referenceBank, keys, c);
      }
    }
    o := Pass;
  }

  /** Unless a block was erased, the chunks of the first `n` slots went one by one to the banks in turn. */
  ghost predicate Dealt(s: St, ref: nat, t: St, ref': nat, keys: seq<Option<Key>>, n: nat)
    requires n <= |keys|
  {
    0 < s.banks && t.wiped == s.wiped ==>
      SameBanks(s.live, t.live) && DealtOut(t.live, ref, ref', s.banks, keys, n)
  }

  ghost predicate DealtOut(m: map<Key, Loc>, ref: nat, ref': nat, banks: nat, keys: seq<Option<Key>>, n: nat)
    requires 0 < banks && n <= |keys|
  {
    && ref' == NthBank(ref, banks, Filled(keys, n))
    && forall c | 0 <= c < n && keys[c].Some? ::
         keys[c].value in m && m[keys[c].value].page.bank == NthBank(ref, banks, Filled(keys, c) + 1)
  }

  lemma DealtNone(s: St, ref: nat, keys: seq<Option<Key>>)
    ensures Dealt(s, ref, s, ref, keys, 0)
  {
  }

  lemma DealtMore(s: St, ref: nat, t: St, ref': nat, u: St, ref'': nat, keys: seq<Option<Key>>, n: nat)
    requires n < |keys| && keys[n].Some? && Dealt(s, ref, t, ref', keys, n)
    requires InTurn(t, ref', u, ref'', keys[n].value) && t.banks == s.banks
    requires s.wiped <= t.wiped <= u.wiped
    ensures Dealt(s, ref, u, ref'', keys, n + 1)
  {
    if 0 < s.banks && u.wiped == s.wiped {
      hide NthBank, SameBanks;
      assert t.wiped == s.wiped;
      BanksTrans(s.live, t.live, u.live);
      NextInTurn(ref, s.banks, Filled(keys, n));
      forall c | 0 <= c < n && keys[c].Some?
        ensures keys[c].value in u.live
        ensures u.live[keys[c].value].page.bank == NthBank(ref, s.banks, Filled(keys, c) + 1)
      {
        InSameBank(t.live, u.live, keys[c].value);
      }
    }
  }

  lemma InSameBank(m: map<Key, Loc>, m': map<Key, Loc>, k: Key)
    requires SameBanks(m, m') && k in m
    ensures k in m' && m'[k].page.bank == m[k].page.bank
  {
  }

  lemma DealtSkip(s: St, ref: nat, t: St, ref': nat, keys: seq<Option<Key>>, n: nat)
    requires n < |keys| && keys[n].None? && Dealt(s, ref, t, ref', keys, n)
    ensures Dealt(s, ref, t, ref', keys, n + 1)
  {
  }

  lemma MovedRefl(s: St)
    ensures Moved(s, s, Frm(s), s.held, Stale(s.cmap, s.held))
  {
    hide Content, Stale, FrameOf, Slack;
  }

  lemma NamedNone(keys: seq<Option<Key>>)
    ensures Named(keys, 0) == {}
  {
  }

  lemma NamedNext(keys: seq<Option<Key>>, c: nat)
    requires c < |keys| && forall i, j | 0 <= i < j < |keys| && keys[i].Some? :: keys[i] != keys[j]
    ensures keys[c].Some? ==> Named(keys, c + 1) == Named(keys, c) + {keys[c].value} && keys[c].value !in Named(keys, c)
    ensures keys[c].None? ==> Named(keys, c + 1) == Named(keys, c)
  {
  }

  lemma LessMore<V>(m: map<Key, V>, ks: set<Key>, k: Key)
    ensures m - ks - {k} == m - (ks + {k})
  {
  }

  /** What emptying one page of victim `v` achieves; with the last page the block is released. */
  ghost predicate PageDone(s: St, t: St, v: Blk, src: PageId, last: bool) {
    if last then Moved(s, t, Without(Frm(s), v), s.held, Stale(s.cmap, s.held)) && s.wiped + multiset{v} <= t.wiped
    else
      && Moved(s, t, Frm(t), s.held, Stale(s.cmap, s.held)) && Without(Frm(t), v) == Without(Frm(s), v)
      && VMap(t.live, v) == VMap(s.live, v) - KeysAt(s.live, src)
      && IsVictim(t.role, v) && v in s.lists && v in t.lists && t.lists[v] == s.lists[v]
  }

  ghost predicate CanCollect(s: St, v: Blk, src: PageId, keys: seq<Option<Key>>, last: bool) {
    && Idle(s) && IsVictim(s.role, v) && v in s.lists && src.Pg? && BlkOf(src) == v && PageKeys(s.live, src, keys)
    && NoStaleIn(s.cmap, s.held, v)
    && (last ==> VMap(s.live, v) - KeysAt(s.live, src) == map[])
  }

  lemma ReleaseProgrammed(s: St, v: Blk, db: nat)
    requires ProgrammedAt(s, db) && v.bank < |s.clean| && Inv(Release(s, v))
    ensures ProgrammedAt(Release(s, v), db)
  {
    hide Inv;
  }

  lemma SameFillsIdle(s: St, t: St)
    requires Idle(s) && Calm(t) && SameRwBuffers(s, t)
    ensures Idle(t)
  {
  }

  lemma VictimBank(s: St, v: Blk)
    requires Inv(s) && IsVictim(s.role, v)
    ensures v.bank < s.banks && |s.clean| == s.banks
  {
  }

  /** A page of eight goes to the next page of another bank's open RW block. */
  method CopyToNextBank(f: Ftl, v: Blk, page: nat, keys: seq<Option<Key>>, last: bool) returns (o: Outcome, db: nat)
    requires CanCollect(f.View(), v, ListPage(v, page), keys, last) && AllFound(keys) && Sys(f)
    modifies f`t, f`g, f`referenceBank
    ensures o.Pass? ==> ProgrammedAt(f.View(), db) && Sys(f) && NoStaleIn(f.t.chunksMap, f.g.held, v)
    ensures o.Pass? ==>
      Moved(old(f.View()), f.View(), Frm(f.View()), old(f.g.held), Stale(old(f.t.chunksMap), old(f.g.held)))
    ensures o.Pass? ==> Without(Frm(f.View()), v) == Without(Frm(old(f.View())), v)
    ensures o.Pass? ==> VMap(f.g.live, v) == VMap(old(f.g.live), v) - KeysAt(old(f.g.live), ListPage(v, page))
    ensures o.Pass? ==>
      IsVictim(f.g.role, v) && v in old(f.g.lists) && v in f.g.lists && f.g.lists[v] == old(f.g.lists)[v]
    ensures o.Pass? ==>
      f.g.held == old(f.g.held) && Stale(f.t.chunksMap, f.g.held) == Stale(old(f.t.chunksMap), old(f.g.held))
    ensures o.Pass? ==> Slack(f.View()) <= Slack(old(f.View()))
    ensures old(Unburdened(f)) ==> o != Fail(UnsafeCollection)
    ensures db < |old(f.t.rwCtrl)| && (1 <= PagesAt(old(f.t), db) ==> o.Pass? && NoLess(old(f.t), f.t, db))
    ensures db == f.referenceBank && 0 < f.banks && db == NthBank(old(f.referenceBank), f.banks, 1)
    ensures o.Pass? ==> f.g.wiped == old(f.g.wiped)
    ensures old(f.t.rwCtrl)[db].Open? ==>
      && o.Pass? && f.t.rwCtrl == old(f.t.rwCtrl) && f.t.cleanList == old(f.t.cleanList)
      && f.t.chunkPtr == old(f.t.chunkPtr)
    ensures o.Pass? ==>
      && db < |f.t.rwCtrl| && f.t.rwCtrl[db].Open?
      && SlotBySlot(f.g.live, keys, Pg(db, f.t.rwCtrl[db].lbn, f.t.rwCtrl[db].page))
  {
    hide Inv, Idle, Content, Stale, FrameOf, Slack, Without, VRoles, IsVictim, VMap, KeysAt, PageKeys, AllFound,
         BufAdds, NamesOf, NoStaleIn, ProgrammedAt, SameRwBuffers, PlainCopy, CopyStep, PagesAt, NoLess, GotRw,
         InPlace;
    var src := ListPage(v, page);
    ghost var s := f.View();
    db := ChooseNewBank(f);
    IdleCalm(s);
    IdleBank(s, db);
    o := GetRWLpn(f, db);
    if o.Fail? {
      return;
    }
    ghost var s1 := f.View();
    SameFillsIdle(s, s1);
    NoStaleKept(s, s1, v);
    VictimKept(s, s1, v);
    PageKeysSame(s.live, s1.live, src, keys);
    IdleBank(s1, db);
    CopyInv(s1, db, src, keys);
    CopyIsPlain(s1, db, src, keys);
    CopyMoved(s1, db, src, keys);
    IdleCalm(s1);
    InvFresh(s1, db);
    ghost var t1 := f.t;
    CopyPage(f, db, src, keys);
    CopiedKeys(s1, db, src, keys);
    SameCursors(t1, f.t, db);
    NoLessThen(old(f.t), t1, f.t, db);
    ghost var s2 := f.View();
    KeptMoved(s, s1, s2, Frm(s2), s1.held, Stale(s1.cmap, s1.held));
    NoStaleKept(s1, s2, v);
  }

  /** The chunks are mapped to page `dst`, each in its own slot. */
  ghost predicate SlotBySlot(m: map<Key, Loc>, keys: seq<Option<Key>>, dst: PageId) {
    forall c | 0 <= c < |keys| && keys[c].Some? ::
      keys[c].value in m && m[keys[c].value].page == dst && m[keys[c].value].slot == c
  }

  /** A whole page of bank `bank`, whose turn it was, took the chunks. */
  ghost predicate TookPage(m: map<Key, Loc>, ref': nat, keys: seq<Option<Key>>, bank: nat) {
    ref' == bank && exists dst: PageId :: dst.Pg? && dst.bank == bank && SlotBySlot(m, keys, dst)
  }

  lemma PageStays(m: map<Key, Loc>, m': map<Key, Loc>, ref': nat, keys: seq<Option<Key>>, dst: PageId)
    requires dst.Pg? && SlotBySlot(m, keys, dst) && InPlace(m, m', dst.bank) && ref' == dst.bank
    ensures TookPage(m', ref', keys, dst.bank)
  {
    assert SlotBySlot(m', keys, dst);
  }

  /** What a collection has erased after it emptied a page. */
  function Erasures(v: Blk, last: bool): multiset<Blk> {
    if last then multiset{v} else multiset{}
  }

  /** Each chunk of the page keeps its slot. */
  lemma CopiedKeys(s: St, db: nat, src: PageId, keys: seq<Option<Key>>)
    requires db < |s.rw| && s.rw[db].Open? && db < |s.rwList| && |NamesOf(keys)| == 8 && src in s.flash
      && s.flash[src].Data?
    requires PageKeys(s.live, src, keys)
    ensures SlotBySlot(PlainCopy(s, db, src, keys).live, keys, Pg(db, s.rw[db].lbn, s.rw[db].page))
    ensures PlainCopy(s, db, src, keys).wiped == s.wiped
  {
    hide WriteNames, NamesOf;
  }

  /** The bank next in turn has a page of its open block for the copy, and once the victim is released one more, or
      another block. */
  predicate PageAndNext(t: Tables, ref: nat, banks: nat, v: Blk) {
    0 < banks
    && var db := NthBank(ref, banks, 1);
    db < |t.rwCtrl| && t.rwCtrl[db].Open? && 1 <= PagesAt(WithClean(t, v), db)
  }

  /** The page of eight: copy it whole; with the last page the victim is released before the cursor moves, which may
      need it. */
  method CollectFullPage(f: Ftl, v: Blk, page: nat, keys: seq<Option<Key>>, last: bool, fuel: nat) returns (o: Outcome)
    requires CanCollect(f.View(), v, ListPage(v, page), keys, last) && AllFound(keys) && Sys(f)
    requires v.bank < |f.gcNestLevel| && 0 < f.gcNestLevel[v.bank]
    modifies f
    ensures o.Pass? ==> Idle(f.View()) && Sys(f) && PageDone(old(f.View()), f.View(), v, ListPage(v, page), last)
    ensures o.Pass? ==> f.givenUp == old(f.givenUp) && f.owing == old(f.owing)
    ensures o.Pass? ==>
      f.gcNestLevel == if last then old(f.gcNestLevel)[v.bank := old(f.gcNestLevel)[v.bank] - 1] else old(f.gcNestLevel)
    ensures old(Unburdened(f)) ==> o != Fail(UnsafeCollection)
    ensures Lasts(CreditedIf(Rooms(old(f.t)), last, v.bank), Rooms(f.t), 8, o)
    ensures o.Pass? && f.g.wiped == old(f.g.wiped) + Erasures(v, last) ==>
      0 < f.banks && TookPage(f.g.live, f.referenceBank, keys, NthBank(old(f.referenceBank), f.banks, 1))
    ensures last && PageAndNext(old(f.t), old(f.referenceBank), f.banks, v) ==> o.Pass?
    decreases fuel, Slack(f.View()), 4
  {
    hide Inv, Idle, Content, Stale, FrameOf, Slack, Without, VRoles, IsVictim, VMap, KeysAt, PageKeys, AllFound,
         NoStaleIn, ProgrammedAt, PagesAt, Lasts, Rooms, OnePage, NoLess, Credited, InPlace, BlockReplaced,
         SlotBySlot, TookPage, NthBank;
    ghost var s := f.View();
    var db;
    o, db := CopyToNextBank(f, v, page, keys, last);
    if o.Fail? {
      PageFails(old(f.t), f.t, db, o);
      LastsFails(Rooms(old(f.t)), Rooms(f.t), 8, v.bank, o);
      return;
    }
    ghost var s2, t2 := f.View(), f.t;
    if last {
      o := ReleaseAndAdvance(f, v, db, fuel);
      PageWins(old(f.t), t2, f.t, v, db, 8, o);
      NextPasses(old(f.t), t2, f.t, v, db, o);
    } else {
      o := IncreaseRWLpn(f, db, fuel);
      PageAfter(old(f.t), t2, f.t, db, o);
      PageLasts(old(f.t), f.t, db, 8, o);
    }
    if o.Pass? && f.g.wiped == s.wiped + Erasures(v, last) {
      PageStays(s2.live, f.g.live, f.referenceBank, keys, Pg(db, t2.rwCtrl[db].lbn, t2.rwCtrl[db].page));
    }
    :- o;
    if last {
      MovedMoved(s, s2, f.View(), Frm(s2), s2.held, Stale(s2.cmap, s2.held), Without(Frm(s2), v), s2.held,
                 Stale(s2.cmap, s2.held));
    } else {
      MovedKept(s, s2, f.View(), Frm(s2), s2.held, Stale(s2.cmap, s2.held));
      VictimKept(s2, f.View(), v);
    }
  }

  lemma SameWithClean(s: Tables, t: Tables, v: Blk, b: nat)
    ensures t.rwCtrl == s.rwCtrl && t.cleanList == s.cleanList ==>
      PagesAt(WithClean(t, v), b) == PagesAt(WithClean(s, v), b)
  {
    hide PagesAt, StockAt, CleanAt, Queued;
    if t.rwCtrl == s.rwCtrl && t.cleanList == s.cleanList {
      SameCursorsAt(WithClean(s, v), WithClean(t, v), b);
    }
  }

  lemma NextPasses(s: Tables, m: Tables, t: Tables, v: Blk, db: nat, o: Outcome)
    requires OnePage(WithClean(m, v), t, db, o)
    ensures m.rwCtrl == s.rwCtrl && m.cleanList == s.cleanList && 1 <= PagesAt(WithClean(s, v), db) ==> o.Pass?
  {
    hide *;
    PagePasses(WithClean(m, v), t, db, o);
    SameWithClean(s, m, v, db);
  }

  /** The emptied victim is released before the cursor moves, so that a new block may reuse it. */
  method ReleaseAndAdvance(f: Ftl, v: Blk, db: nat, fuel: nat) returns (o: Outcome)
    requires ProgrammedAt(f.View(), db) && Sys(f) && IsVictim(f.g.role, v)
      && VMap(f.g.live, v) == map[] && NoStaleIn(f.t.chunksMap, f.g.held, v)
    requires v.bank < |f.gcNestLevel| && 0 < f.gcNestLevel[v.bank]
    modifies f
    ensures o.Pass? ==>
      && Idle(f.View()) && Sys(f) && f.givenUp == old(f.givenUp) && f.owing == old(f.owing)
      && old(f.g.wiped) + multiset{v} <= f.g.wiped
    ensures o.Pass? ==>
      Moved(old(f.View()), f.View(), Without(Frm(old(f.View())), v), old(f.g.held),
            Stale(old(f.t.chunksMap), old(f.g.held)))
    ensures o.Pass? ==> f.gcNestLevel == old(f.gcNestLevel)[v.bank := old(f.gcNestLevel)[v.bank] - 1]
    ensures old(Unburdened(f)) ==> o != Fail(UnsafeCollection)
    ensures v.bank < |old(f.t.cleanList)| && OnePage(WithClean(old(f.t), v), f.t, db, o)
    ensures o.Pass? && f.g.wiped == old(f.g.wiped) + multiset{v} ==>
      f.referenceBank == old(f.referenceBank) && InPlace(old(f.g.live), f.g.live, db)
    decreases fuel, Slack(f.View()), 3
  {
    hide Inv, Idle, Content, Stale, FrameOf, Slack, Without, VRoles, IsVictim, VMap, NoStaleIn, ProgrammedAt, PagesAt,
         OnePage, NoLess, InPlace, BlockReplaced;
    ghost var s := f.View();
    ProgrammedInv(s, db);
    VictimBank(s, v);
    ReleaseBlk(f, v);
    f.gcNestLevel := f.gcNestLevel[v.bank := f.gcNestLevel[v.bank] - 1];
    ReleaseInvMoved(s, v);
    ReleaseProgrammed(s, v, db);
    ghost var s3, t3 := f.View(), f.t;
    SameCursors(WithClean(old(f.t), v), t3, db);
    o := IncreaseRWLpn(f, db, fuel);
    PageAfter(WithClean(old(f.t), v), t3, f.t, db, o);
    :- o;
    MovedKept(s, s3, f.View(), Frm(s3), s.held, Stale(s.cmap, s.held));
  }

  lemma IdleCalm(s: St)
    requires Idle(s)
    ensures Calm(s) && Inv(s) && |s.rw| == s.banks
  {
  }

  lemma IdleBank(s: St, b: nat)
    requires Idle(s) && b < s.banks
    ensures b < |s.rw| && b < |s.rwList| && b < |s.fill| && b < |s.clean|
  {
    hide Calm, FillsBut;
    IdleCalm(s);
    BankFacts(s, b);
  }

  lemma ProgrammedInv(s: St, b: nat)
    requires ProgrammedAt(s, b)
    ensures Inv(s)
  {
  }

  lemma NoStaleKept(s: St, t: St, v: Blk)
    requires NoStaleIn(s.cmap, s.held, v) && Stale(t.cmap, t.held) == Stale(s.cmap, s.held)
    ensures NoStaleIn(t.cmap, t.held, v)
  {
    forall k | k in t.held && k in t.cmap ensures !InBlk(t.cmap[k].page, v) {
      assert k in Stale(t.cmap, t.held) && k in Stale(s.cmap, s.held);
      assert Stale(t.cmap, t.held)[k] == Stale(s.cmap, s.held)[k];
    }
  }

  /** A partial page is read into the GC buffer: its chunks are now held in RAM. */
  method ReadPage(f: Ftl, v: Blk, page: nat, keys: seq<Option<Key>>, last: bool)
    returns (buf: seq<Chunk>, ghost d: map<Key, Chunk>)
    requires CanCollect(f.View(), v, ListPage(v, page), keys, last) && Sys(f) && |keys| == 8
      && exists c :: 0 <= c < 8 && keys[c].Some?
    modifies f`g, f`inRam
    ensures |buf| == 8 && f.View() == DetachMany(old(f.View()), d) && Idle(f.View()) && Sys(f)
    ensures Moved(old(f.View()), f.View(), Frm(f.View()), old(f.g.held) + d, Stale(f.t.chunksMap, old(f.g.held) + d))
    ensures Without(Frm(f.View()), v) == Without(Frm(old(f.View())), v)
      && VMap(f.g.live, v) == VMap(old(f.g.live), v) - d.Keys
    ensures d.Keys == Named(keys, 8) == KeysAt(old(f.g.live), ListPage(v, page)) && old(f.g.held).Keys !! d.Keys
    ensures forall c | 0 <= c < 8 && keys[c].Some? ::
      keys[c].value in d && d[keys[c].value] == buf[c] && keys[c].value.idx < 8
    ensures forall i, j | 0 <= i < j < 8 && keys[i].Some? :: keys[i] != keys[j]
  {
    hide Inv, Idle, Content, Stale, FrameOf, Slack, Without, VRoles, IsVictim, VMap, KeysAt, PageKeys, NoStaleIn,
         PageCopy, Named, FromVictim;
    var src := ListPage(v, page);
    ghost var s := f.View();
    IdleCalm(s);
    PageFacts(s, src, keys);
    PageDataIs(s, src);
    buf := f.t.flash[src].chunks;
    d := PageCopy(s.live, src, buf);
    PageCopyFacts(s, src, keys, buf);
    ManyMoved(s, d, v);
    f.g := f.g.(live := s.live - d.Keys, held := s.held + d);
    f.inRam := f.inRam + Named(keys, 8);
  }

  /** A page with fewer mapped chunks: they go one by one to the write buffers. */
  method CollectPartialPage(f: Ftl, v: Blk, page: nat, keys: seq<Option<Key>>, fuel: nat) returns (o: Outcome)
    requires CanCollect(f.View(), v, ListPage(v, page), keys, false) && Sys(f) && |keys| == 8
      && exists c :: 0 <= c < 8 && keys[c].Some?
    modifies f
    ensures o.Pass? ==> Idle(f.View()) && Sys(f) && PageDone(old(f.View()), f.View(), v, ListPage(v, page), false)
    ensures o.Pass? ==> f.givenUp == old(f.givenUp) && f.owing == old(f.owing) && f.gcNestLevel == old(f.gcNestLevel)
    ensures old(Unburdened(f)) ==> o != Fail(UnsafeCollection)
    ensures Lasts(Rooms(old(f.t)), Rooms(f.t), Filled(keys, 8), o)
    ensures o.Pass? && f.g.wiped == old(f.g.wiped) ==>
      0 < f.banks && DealtOut(f.g.live, old(f.referenceBank), f.referenceBank, f.banks, keys, 8)
    decreases fuel, Slack(f.View()), 5, 0
  {
    hide Inv, Idle, Content, Stale, FrameOf, Slack, Without, IsVictim, VMap, KeysAt, PageKeys, NoStaleIn, Named,
         DealtOut, SameBanks, Tracked;
    ghost var s := f.View();
    var buf, d := ReadPage(f, v, page, keys, false);
    HeldBack(s.held, d, s.cmap);
    ghost var s1 := f.View();
    StillVictim(s, d, v);
    :- RewriteChunks(f, keys, buf, fuel);
    ghost var s3 := f.View();
    MovedMoved(s, s1, s3, Frm(s1), s1.held, Stale(s1.cmap, s1.held), Frm(s1), s.held, Stale(s.cmap, s.held));
    FrameVMap(s1, s3, v);
    o := Pass;
  }

  lemma StillVictim(s: St, d: map<Key, Chunk>, v: Blk)
    requires IsVictim(s.role, v)
    ensures IsVictim(DetachMany(s, d).role, v) && DetachMany(s, d).lists == s.lists
  {
  }

  /** The victim's last page is read, and the block erased and queued as clean
      while the page's chunks are only in the GC buffer. */
  method ReadAndRelease(f: Ftl, v: Blk, page: nat, keys: seq<Option<Key>>)
    returns (buf: seq<Chunk>, ghost d: map<Key, Chunk>)
    requires CanCollect(f.View(), v, ListPage(v, page), keys, true) && Sys(f) && |keys| == 8
      && exists c :: 0 <= c < 8 && keys[c].Some?
    modifies f`t, f`g, f`inRam
    ensures |buf| == 8 && Idle(f.View()) && Sys(f)
    ensures Moved(old(f.View()), f.View(), Without(Frm(old(f.View())), v), old(f.g.held) + d,
                  Stale(f.t.chunksMap, old(f.g.held) + d))
    ensures f.g.held == old(f.g.held) + d && f.t.chunksMap == old(f.t.chunksMap)
      && Frm(f.View()) == Without(Frm(old(f.View())), v)
    ensures Slack(f.View()) <= Slack(old(f.View())) && f.g.wiped == old(f.g.wiped) + multiset{v}
    ensures Lasts(Credited(Rooms(old(f.t)), v.bank), Rooms(f.t), 0, Pass)
    ensures Rooms(f.t) == Rooms(WithClean(old(f.t), v))
    ensures d.Keys == Named(keys, 8) && old(f.g.held).Keys !! d.Keys
    ensures forall c | 0 <= c < 8 && keys[c].Some? ::
      keys[c].value in d && d[keys[c].value] == buf[c] && keys[c].value.idx < 8
    ensures forall i, j | 0 <= i < j < 8 && keys[i].Some? :: keys[i] != keys[j]
  {
    hide Inv, Idle, Content, Stale, FrameOf, Slack, Without, VRoles, IsVictim, VMap, KeysAt, PageKeys, NoStaleIn, Named,
         Moved, Lasts, Rooms, NoLess, Credited;
    ghost var s := f.View();
    buf, d := ReadPage(f, v, page, keys, true);
    ghost var s1 := f.View();
    StillVictim(s, d, v);
    IdleCalm(s1);
    VictimBank(s1, v);
    ReleaseBlk(f, v);
    EarlyRelease(s, s1, v, d);
    Won(old(f.t), f.t, v);
    SameRooms(WithClean(old(f.t), v), f.t, 0);
  }

  /** The victim's last page, with fewer than eight chunks: the rewrites may already reuse the block, and succeed
      if there is room for them with it. */
  method CollectLastPage(f: Ftl, v: Blk, page: nat, keys: seq<Option<Key>>, fuel: nat) returns (o: Outcome)
    requires CanCollect(f.View(), v, ListPage(v, page), keys, true) && Sys(f) && |keys| == 8
      && exists c :: 0 <= c < 8 && keys[c].Some?
    requires v.bank < |f.gcNestLevel| && 0 < f.gcNestLevel[v.bank]
    modifies f
    ensures o.Pass? ==> Idle(f.View()) && Sys(f) && PageDone(old(f.View()), f.View(), v, ListPage(v, page), true)
    ensures o.Pass? ==> f.givenUp == old(f.givenUp) && f.owing == old(f.owing)
    ensures o.Pass? ==> f.gcNestLevel == old(f.gcNestLevel)[v.bank := old(f.gcNestLevel)[v.bank] - 1]
    ensures old(Unburdened(f)) ==> o != Fail(UnsafeCollection)
    ensures Lasts(Credited(Rooms(old(f.t)), v.bank), Rooms(f.t), Filled(keys, 8), o)
    ensures Lasts(Rooms(WithClean(old(f.t), v)), Rooms(f.t), Filled(keys, 8), o)
    ensures o.Pass? && f.g.wiped == old(f.g.wiped) + multiset{v} ==>
      0 < f.banks && DealtOut(f.g.live, old(f.referenceBank), f.referenceBank, f.banks, keys, 8)
    decreases fuel, Slack(f.View()), 5, 0
  {
    hide Inv, Idle, Content, Stale, FrameOf, Slack, Without, VRoles, IsVictim, VMap, KeysAt, PageKeys, NoStaleIn, Named,
         Moved, Lasts, Rooms, Frm, CanCollect, PageDone, Credited, DealtOut,
         SameBanks, Tracked;
    ghost var s := f.View();
    var buf, d := ReadAndRelease(f, v, page, keys);
    HeldBack(s.held, d, s.cmap);
    ghost var s2 := f.View();
    ghost var rooms := Rooms(f.t);
    o := RewriteChunks(f, keys, buf, fuel);
    LastsThen(Credited(Rooms(old(f.t)), v.bank), rooms, Rooms(f.t), 0, Filled(keys, 8), o);
    :- o;
    LastDone(s, s2, f.View(), v, ListPage(v, page), d);
    LeaveNest(f, v.bank);
  }

  method LeaveNest(f: Ftl, bank: nat)
    requires Sys(f) && bank < |f.gcNestLevel| && 0 < f.gcNestLevel[bank]
    modifies f`gcNestLevel
    ensures Sys(f) && f.gcNestLevel == old(f.gcNestLevel)[bank := old(f.gcNestLevel)[bank] - 1]
  {
    f.gcNestLevel := f.gcNestLevel[bank := f.gcNestLevel[bank] - 1];
  }

  lemma LastDone(s: St, s2: St, s3: St, v: Blk, src: PageId, d: map<Key, Chunk>)
    requires Moved(s, s2, Without(Frm(s), v), s.held + d, Stale(s2.cmap, s.held + d)) && Frm(s2) == Without(Frm(s), v)
      && s2.held == s.held + d
    requires Moved(s2, s3, Frm(s2), s.held, Stale(s.cmap, s.held)) && s2.wiped == s.wiped + multiset{v}
    ensures PageDone(s, s3, v, src, true)
  {
    hide Content, Stale, FrameOf, Slack, Without, Moved;
    MovedWiped(s2, s3, Frm(s2), s.held, Stale(s.cmap, s.held));
    MovedMoved(s, s2, s3, Frm(s2), s2.held, Stale(s2.cmap, s2.held), Frm(s2), s.held, Stale(s.cmap, s.held));
  }

  lemma EarlyRelease(s: St, s1: St, v: Blk, d: map<Key, Chunk>)
    requires Idle(s1) && IsVictim(s1.role, v) && VMap(s1.live, v) == map[] && v.bank < |s1.clean|
    requires Moved(s, s1, Frm(s1), s.held + d, Stale(s1.cmap, s.held + d)) && Without(Frm(s1), v) == Without(Frm(s), v)
    ensures var s2 := Release(s1, v);
      && Idle(s2) && Moved(s, s2, Without(Frm(s), v), s.held + d, Stale(s1.cmap, s.held + d))
      && Frm(s2) == Without(Frm(s), v)
      && s2.held == s1.held && s2.cmap == s1.cmap && Slack(s2) <= Slack(s)
  {
    hide Inv, Idle, Content, Stale, FrameOf, Slack, Without, VRoles, IsVictim, VMap;
    IdleCalm(s1);
    var s2 := Release(s1, v);
    ReleaseInvMoved(s1, v);
    ReleaseIdle(s1, v);
    MovedMoved(s, s1, s2, Frm(s1), s.held + d, Stale(s1.cmap, s.held + d), Frm(s2), s1.held, Stale(s1.cmap, s1.held));
  }

  lemma FrameVMap(s: St, t: St, v: Blk)
    requires Frm(s) == Frm(t) && IsVictim(s.role, v)
    ensures IsVictim(t.role, v) && VMap(t.live, v) == VMap(s.live, v) && Without(Frm(t), v) == Without(Frm(s), v)
    ensures v in s.lists ==> v in t.lists && t.lists[v] == s.lists[v]
  {
    hide FrameOf, Without;
    FrameVictim(s, t, v);
  }

  lemma ReleaseIdle(s: St, v: Blk)
    requires Idle(s) && v.bank < |s.clean| && Inv(Release(s, v))
    ensures Idle(Release(s, v))
  {
    hide Inv;
  }

  /** How many of the slots hold a mapped chunk. */
  method CountValid(keys: seq<Option<Key>>) returns (n: nat)
    requires |keys| == 8
    ensures n + Holes(keys, 8) == 8
    ensures n == 8 ==> AllFound(keys)
    ensures 0 < n ==> exists c :: 0 <= c < 8 && keys[c].Some?
  {
    n := 0;
    for c := 0 to 8
      invariant n + Holes(keys, c) == c
      invariant n <= c
      invariant n == c ==> forall i | 0 <= i < c :: keys[i].Some?
      invariant 0 < n ==> exists i :: 0 <= i < 8 && keys[i].Some?
    {
      if keys[c].Some? {
        n := n + 1;
      }
    }
  }

  /** The state of a collection of `v` before page `page`: `found` chunks of `expected` have been moved. */
  ghost predicate Progress(s: St, t: St, v: Blk, list: seq<Option<nat>>, page: nat, found: nat, expected: nat) {
    && Idle(t) && Moved(s, t, Frm(t), s.held, Stale(s.cmap, s.held)) && Without(Frm(t), v) == Without(Frm(s), v)
    && IsVictim(t.role, v) && v in t.lists && t.lists[v] == list && NoStaleIn(t.cmap, t.held, v)
    && found + |VMap(t.live, v)| == expected && PagesFrom(VMap(t.live, v), page)
  }

  ghost predicate PagesFrom(m: map<Key, Loc>, page: nat) {
    forall k | k in m :: m[k].page.Pg? && page <= m[k].page.page <= 126
  }

  lemma ProgressStart(s: St, v: Blk, list: seq<Option<nat>>)
    requires Idle(s) && IsVictim(s.role, v) && v in s.lists && s.lists[v] == list && NoStaleIn(s.cmap, s.held, v)
    ensures Progress(s, s, v, list, 0, 0, |VMap(s.live, v)|)
  {
    hide Inv, Content, Stale, FrameOf, Slack, Without, NoStaleIn;
    IdleCalm(s);
    SlotListed(s, v);
    MovedRefl(s);
  }

  lemma PagesNone(m: map<Key, Loc>)
    requires PagesFrom(m, 127)
    ensures m == map[]
  {
    assert forall k :: k !in m;
  }

  /** After the last page nothing can be left. */
  lemma ProgressEnd(s: St, t: St, v: Blk, list: seq<Option<nat>>, found: nat, expected: nat)
    requires Progress(s, t, v, list, 127, found, expected)
    ensures found == expected
  {
    hide Idle, Moved, Without, NoStaleIn, VMap;
    PagesNone(VMap(t.live, v));
  }

  /** What the search of one page tells: this page's chunks, and whether they are the last. */
  lemma ProgressPage(s: St, t: St, v: Blk, list: seq<Option<nat>>, page: nat, found: nat, expected: nat,
                     keys: seq<Option<Key>>, n: nat)
    requires Progress(s, t, v, list, page, found, expected) && PageKeys(t.live, ListPage(v, page), keys)
      && n + Holes(keys, 8) == 8
    ensures found + n <= expected
    ensures CanCollect(t, v, ListPage(v, page), keys, found + n == expected)
    ensures |KeysAt(t.live, ListPage(v, page))| == n
    ensures |VMap(t.live, v) - KeysAt(t.live, ListPage(v, page))| == |VMap(t.live, v)| - n
  {
    hide Inv, Content, Stale, FrameOf, Slack, Without, NoStaleIn, VMap, KeysAt, PageKeys, Calm, FillsBut, PagesFrom,
         Holes;
    IdleCalm(t);
    LiveFacts(t);
    PageLeaves(t.live, ListPage(v, page), keys, v);
    if found + n == expected {
      NothingLeft(VMap(t.live, v) - KeysAt(t.live, ListPage(v, page)));
    }
  }

  lemma PagesNext(live: map<Key, Loc>, v: Blk, page: nat)
    requires PagesFrom(VMap(live, v), page)
    ensures PagesFrom(VMap(live, v) - KeysAt(live, ListPage(v, page)), page + 1)
  {
  }

  lemma ProgressStep(s: St, t: St, u: St, v: Blk, list: seq<Option<nat>>, page: nat, found: nat, expected: nat, n: nat)
    requires Progress(s, t, v, list, page, found, expected) && Idle(u) && PageDone(t, u, v, ListPage(v, page), false)
    requires |VMap(t.live, v) - KeysAt(t.live, ListPage(v, page))| == |VMap(t.live, v)| - n
    ensures Progress(s, u, v, list, page + 1, found + n, expected)
  {
    hide Idle, Content, Stale, FrameOf, Slack, Without, NoStaleIn, VMap, KeysAt, PagesFrom;
    MovedMoved(s, t, u, Frm(t), s.held, Stale(s.cmap, s.held), Frm(u), t.held, Stale(t.cmap, t.held));
    NoStaleKept(t, u, v);
    PagesNext(t.live, v, page);
  }

  lemma ProgressSkip(s: St, t: St, v: Blk, list: seq<Option<nat>>, page: nat, found: nat, expected: nat)
    requires Progress(s, t, v, list, page, found, expected) && KeysAt(t.live, ListPage(v, page)) == {}
    ensures Progress(s, t, v, list, page + 1, found, expected)
  {
    hide Idle, Content, Stale, FrameOf, Slack, Without, NoStaleIn, VMap, KeysAt, PagesFrom;
    PagesNext(t.live, v, page);
    assert VMap(t.live, v) - {} == VMap(t.live, v);
  }

  lemma ProgressLast(s: St, t: St, u: St, v: Blk, list: seq<Option<nat>>, page: nat, found: nat, expected: nat)
    requires Progress(s, t, v, list, page, found, expected) && PageDone(t, u, v, ListPage(v, page), true)
    ensures Moved(s, u, Without(Frm(s), v), s.held, Stale(s.cmap, s.held))
    ensures s.wiped + multiset{v} <= u.wiped
  {
    hide Idle, Content, Stale, FrameOf, Slack, Without, NoStaleIn, VMap, KeysAt, PagesFrom;
    MovedMoved(s, t, u, Frm(t), s.held, Stale(s.cmap, s.held), Without(Frm(t), v), t.held, Stale(t.cmap, t.held));
  }

  /** One page with mapped chunks: copied whole if all eight are mapped, else rewritten chunk by chunk. */
  method CollectPage(f: Ftl, v: Blk, page: nat, keys: seq<Option<Key>>, n: nat, last: bool, fuel: nat)
    returns (o: Outcome)
    requires CanCollect(f.View(), v, ListPage(v, page), keys, last) && Sys(f) && |keys| == 8 && 0 < n
      && n + Holes(keys, 8) == 8
    requires (n == 8 ==> AllFound(keys)) && exists c :: 0 <= c < 8 && keys[c].Some?
    requires v.bank < |f.gcNestLevel| && 0 < f.gcNestLevel[v.bank]
    modifies f
    ensures o.Pass? ==> Idle(f.View()) && Sys(f) && PageDone(old(f.View()), f.View(), v, ListPage(v, page), last)
    ensures o.Pass? ==> f.givenUp == old(f.givenUp) && f.owing == old(f.owing)
    ensures o.Pass? ==>
      f.gcNestLevel == if last then old(f.gcNestLevel)[v.bank := old(f.gcNestLevel)[v.bank] - 1] else old(f.gcNestLevel)
    ensures old(Unburdened(f)) ==> o != Fail(UnsafeCollection)
    ensures Lasts(CreditedIf(Rooms(old(f.t)), last, v.bank), Rooms(f.t), n, o)
    ensures o.Pass? && f.g.wiped == old(f.g.wiped) + Erasures(v, last) ==>
      0 < f.banks
      && if n == 8 then TookPage(f.g.live, f.referenceBank, keys, NthBank(old(f.referenceBank), f.banks, 1))
         else DealtOut(f.g.live, old(f.referenceBank), f.referenceBank, f.banks, keys, 8)
    decreases fuel, Slack(f.View()), 5, 1
  {
    hide Inv, Idle, CanCollect, PageDone, Sys, AllFound, Holes, Slack, Lasts, Rooms, Credited, TookPage, DealtOut,
         NthBank;
    FilledHoles(keys, 8);
    if n == 8 {
      o := CollectFullPage(f, v, page, keys, last, fuel);
    } else if last {
      o := CollectLastPage(f, v, page, keys, fuel);
    } else {
      o := CollectPartialPage(f, v, page, keys, fuel);
    }
  }

  /** The page loop of garbageCollectLog.  It always stops early: the heap value is exact. */
  method CollectPages(f: Ftl, v: Blk, list: seq<Option<nat>>, expected: nat, fuel: nat) returns (o: Outcome)
    requires Idle(f.View()) && Sys(f) && IsVictim(f.g.role, v) && v in f.g.lists && f.g.lists[v] == list
    requires NoStaleIn(f.t.chunksMap, f.g.held, v) && |VMap(f.g.live, v)| == expected && 0 < expected
    requires v.bank < |f.gcNestLevel| && 0 < f.gcNestLevel[v.bank]
    modifies f
    ensures o.Pass? ==> Idle(f.View()) && Sys(f) && f.givenUp == old(f.givenUp) && f.owing == old(f.owing)
    ensures o.Pass? ==>
      Moved(old(f.View()), f.View(), Without(Frm(old(f.View())), v), old(f.g.held),
            Stale(old(f.t.chunksMap), old(f.g.held)))
    ensures o.Pass? ==> f.gcNestLevel == old(f.gcNestLevel)[v.bank := old(f.gcNestLevel)[v.bank] - 1]
    ensures o.Pass? ==> old(f.g.wiped) + multiset{v} <= f.g.wiped
    ensures old(Unburdened(f)) ==> o != Fail(UnsafeCollection)
    ensures Lasts(Credited(Rooms(old(f.t)), v.bank), Rooms(f.t), expected, o)
    decreases fuel, Slack(f.View()), 6
  {
    hide Inv, Idle, Content, Stale, FrameOf, Slack, Without, IsVictim, VMap, NoStaleIn, Sys, Progress, Moved, Lasts,
         Rooms, Credited;
    LastsNothing(Rooms(f.t));
    ghost var s := f.View();
    ProgressStart(s, v, list);
    var found: nat := 0;
    for page := 0 to 127
      invariant Progress(s, f.View(), v, list, page, found, expected) && Slack(f.View()) <= Slack(s)
      invariant Sys(f) && f.givenUp == old(f.givenUp) && f.owing == old(f.owing) && f.gcNestLevel == old(f.gcNestLevel)
      invariant found < expected && Lasts(Rooms(old(f.t)), Rooms(f.t), found, Pass)
    {
      ghost var rooms := Rooms(f.t);
      var n;
      o, n := VisitPage(f, s, v, list, page, found, expected, fuel);
      LastsWins(Rooms(old(f.t)), rooms, Rooms(f.t), found, n, expected, found + n == expected, v.bank, o);
      if o.Fail? {
        if found + n != expected {
          LastsFails(Rooms(old(f.t)), Rooms(f.t), expected, v.bank, o);
        }
        return;
      }
      found := found + n;
      if found == expected {
        return Pass;
      }
    }
    ProgressEnd(s, f.View(), v, list, found, expected);
    o := Fail(Halted);
    assert false;
  }

  /** One turn of the page loop: `n` more mapped chunks are found and moved; with the last ones the victim is
      released. */
  method VisitPage(f: Ftl, ghost s: St, v: Blk, list: seq<Option<nat>>, page: nat, found: nat, expected: nat, fuel: nat)
    returns (o: Outcome, n: nat)
    requires Progress(s, f.View(), v, list, page, found, expected) && found < expected && page <= 126 && Sys(f)
    requires v.bank < |f.gcNestLevel| && 0 < f.gcNestLevel[v.bank]
    modifies f
    ensures found + n <= expected
    ensures o.Pass? ==> Sys(f) && f.givenUp == old(f.givenUp) && f.owing == old(f.owing)
    ensures o.Pass? && found + n < expected ==>
      && Progress(s, f.View(), v, list, page + 1, found + n, expected) && Slack(f.View()) <= Slack(s)
      && f.gcNestLevel == old(f.gcNestLevel)
    ensures o.Pass? && found + n == expected ==>
      && Idle(f.View()) && Moved(s, f.View(), Without(Frm(s), v), s.held, Stale(s.cmap, s.held))
      && s.wiped + multiset{v} <= f.g.wiped
    ensures o.Pass? && found + n == expected ==>
      f.gcNestLevel == old(f.gcNestLevel)[v.bank := old(f.gcNestLevel)[v.bank] - 1]
    ensures old(Unburdened(f)) ==> o != Fail(UnsafeCollection)
    ensures Lasts(CreditedIf(Rooms(old(f.t)), found + n == expected, v.bank), Rooms(f.t), n, o)
    decreases fuel, Slack(f.View()), 5, 2
  {
    hide Inv, Idle, Content, Stale, FrameOf, Slack, Without, IsVictim, VMap, KeysAt, PageKeys, NoStaleIn, AllFound,
         PagesFrom, Holes, CanCollect, PageDone, Sys, Progress, Moved, Lasts, Rooms, Credited, TookPage, DealtOut,
         NthBank;
    LastsNothing(Rooms(f.t));
    ghost var t := f.View();
    ProgressFacts(s, t, v, list, page, found, expected);
    SlotListed(t, v);
    var keys := FindValidChunks(f, v, page, list);
    SearchFinds(t, v, page);
    PageKeysLen(t.live, ListPage(v, page), keys);
    n := CountValid(keys);
    ProgressPage(s, t, v, list, page, found, expected, keys, n);
    if n == 0 {
      ProgressSkip(s, t, v, list, page, found, expected);
      return Pass, n;
    }
    var last := found + n == expected;
    o := CollectPage(f, v, page, keys, n, last, fuel);
    if o.Pass? {
      if last {
        ProgressLast(s, t, f.View(), v, list, page, found, expected);
      } else {
        ProgressStep(s, t, f.View(), v, list, page, found, expected, n);
        ProgressFacts(s, f.View(), v, list, page + 1, found + n, expected);
      }
    }
  }

  lemma ProgressFacts(s: St, t: St, v: Blk, list: seq<Option<nat>>, page: nat, found: nat, expected: nat)
    requires Progress(s, t, v, list, page, found, expected)
    ensures Inv(t) && Slack(t) <= Slack(s) && v in t.lists && t.lists[v] == list && NoStaleIn(t.cmap, t.held, v)
  {
    hide Inv, Content, Stale, FrameOf, Slack, Without, NoStaleIn, VMap, PagesFrom;
    IdleCalm(t);
  }

  /** Whether one of the chunks `ram` has an entry in the block. */
  predicate EntryIn(cmap: map<Key, Loc>, ram: set<Key>, v: Blk) {
    exists k | k in ram :: k in cmap && InBlk(cmap[k].page, v)
  }

  lemma EntryInIff(s: St, v: Blk)
    ensures EntryIn(s.cmap, s.held.Keys, v) <==> !NoStaleIn(s.cmap, s.held, v)
  {
  }

  /** The cheaper of the tops of the two heaps: no full block of the bank has a smaller heap value, less 504 in
      overwrite mode.
      There is none exactly when the bank has no full block at all.  The block is refused exactly when
      its entries and its heap value disagree. */
  method ChooseVictim(f: Ftl, bank: nat, fuel: nat)
    returns (o: Outcome, v: Blk, fromOw: bool, expected: nat, fuel': nat)
    requires Idle(f.View()) && Sys(f) && bank < f.banks
    ensures o == Fail(Halted) <==> forall m | m in f.t.writeHeap + f.t.owHeap :: m.bank != bank
    ensures o != Fail(Halted) ==>
      v.bank == bank && (if fromOw then v in f.t.owHeap else v in f.t.writeHeap) && Cheapest(f.View(), v, bank)
    ensures o != Fail(Halted) ==> (fromOw <==> OwWins(f.t, bank))
    ensures o == Fail(Recollected) || o == Fail(UnsafeCollection) <==> o != Fail(Halted) && Tripped(f.View(), v)
    ensures o == Fail(UnsafeCollection) ==> !Unburdened(f)
    ensures o == Fail(OutOfFuel)
      <==> o != Fail(Recollected) && o != Fail(UnsafeCollection) && fuel == 0 && Saturated(f.t, bank)
    ensures o.Pass? ==> |VMap(f.g.live, v)| == expected
    ensures o.Pass? ==>
      fuel' <= fuel && (!fromOw ==> v in f.t.writeCount && (f.t.writeCount[v] < CHUNKS_PER_LOG_BLK || fuel' < fuel))
    ensures EmptyVictim(f.t, bank) ==>
      o != Fail(Halted) && o != Fail(OutOfFuel) && expected == 0 && !fromOw && IsEmpty(f.t, v, bank)
  {
    hide Inv, Idle, Content, Stale, FrameOf, Slack, VMap, NoStaleIn, VRoles, EntryIn, OwWins;
    ghost var s := f.View();
    IdleCalm(s);
    v, fromOw, expected, fuel' := Blk(bank, 0), false, 0, fuel;
    HeapFacts(s);
    var nW, vW, nO, vO := HeapTops(f, bank);
    fromOw := nO - HIGH_PAGE_CHUNKS < nW;
    if fromOw && vO.None? {
      return Fail(Halted), v, fromOw, expected, fuel';
    }
    v := if fromOw then vO.value else vW.value;
    expected := if fromOw then nO - HIGH_PAGE_CHUNKS else nW;
    VictimCount(s, v);
    forall m | (m in s.wIn || m in s.oIn) && m.bank == bank ensures expected <= |VMap(s.live, m)| + Owed(s.debt, m) {
      VictimCount(s, m);
    }
    EntryInIff(s, v);
    if f.owing == Some(v) || EntryIn(f.t.chunksMap, f.inRam, v) {
      o := Fail(if f.owing == Some(v) || v in f.givenUp then UnsafeCollection else Recollected);
      return;
    }
    if !fromOw && expected == CHUNKS_PER_LOG_BLK {
      if fuel == 0 {
        return Fail(OutOfFuel), v, fromOw, expected, fuel';
      }
      fuel' := fuel - 1;
    }
    o := Pass;
  }

  /** Three clean blocks in every bank are room for whatever a full block holds. */
  lemma ThreeCleanSuffice(s: St, t: Tables, v: Blk)
    requires Idle(s) && (v in s.wIn || v in s.oIn) && t.rwCtrl == s.rw && t.cleanList == s.clean && t.chunkPtr == s.ptr
    requires forall b | 0 <= b < s.banks :: ThreeClean(t, b)
    ensures AllRoom(t, |VMap(s.live, v)|)
  {
    hide Inv, FillsBut, RwReady, VMap, RoomAt;
    HeapFacts(s);
    VictimCount(s, v);
    forall b | 0 <= b < |t.rwCtrl| ensures RoomAt(t, b) >= |VMap(s.live, v)| {
      BufferPtr(s, b);
      assert ThreeClean(t, b);
      CleanIsRoom(t, b);
    }
  }

  lemma BufferPtr(s: St, b: nat)
    requires Inv(s) && b < |s.rw|
    ensures b < s.banks && b < |s.ptr| && s.ptr[b] <= 7
  {
    hide RoleShape, ListShape, MapOK, StaleOK, DramOK, FlashOK, Inj, WCounts, OCounts, CleanOK, MembersOK, RwOK, OwOK,
         Erased, ListPages, Budget, TraceOK;
  }

  /** garbageCollectLog: empty the cheapest block of the bank and release it.
      The content, the chunks other collections hold, and the blocks they own are unchanged.
      `fuel` is spent only on victims without a single dead slot.
      It completes when every bank has room for the victim's mapped chunks, as with three clean blocks in each;
      a bank with at most one clean block then has one more. */
  method GarbageCollectLog(f: Ftl, bank: nat, fuel: nat) returns (o: Outcome)
    requires Idle(f.View()) && Sys(f) && bank < f.banks
    modifies f
    ensures o.Pass? ==> Idle(f.View()) && Kept(old(f.View()), f.View()) && Sys(f)
    ensures o.Pass? ==> f.gcNestLevel == old(f.gcNestLevel) && f.givenUp == old(f.givenUp) && f.owing == old(f.owing)
    ensures EmptyVictim(old(f.t), bank) && Clear(old(f.View()), bank) ==>
      bank < |old(f.gcNestLevel)| && old(f.gcNestLevel)[bank] == 0 ==>
      o.Pass? && Freed(old(f.t), f.t, bank) && f.referenceBank == old(f.referenceBank)
    ensures o.Pass? ==> Collected(old(f.View()), f.View(), bank)
    ensures bank < |old(f.gcNestLevel)| && (2 <= old(f.gcNestLevel)[bank] || NoFull(old(f.t), bank)) ==>
      o == Fail(Halted)
    ensures old(Unburdened(f)) ==> o != Fail(UnsafeCollection)
    ensures CanStart(old(f.t), old(f.gcNestLevel), bank, fuel) && Clear(old(f.View()), bank) ==>
      forall v | Cheapest(old(f.View()), v, bank) ::
        Lasts(Credited(Rooms(old(f.t)), bank), Rooms(f.t), |VMap(old(f.g.live), v)|, o)
    ensures Affordable(old(f.View()), old(f.gcNestLevel), bank, fuel) ==>
      o.Pass? && (CleanAt(old(f.t), bank) <= 1 ==> CleanAt(f.t, bank) > CleanAt(old(f.t), bank))
    ensures CanStart(old(f.t), old(f.gcNestLevel), bank, fuel) && Clear(old(f.View()), bank) ==>
      (forall b | 0 <= b < f.banks :: ThreeClean(old(f.t), b)) ==> o.Pass?
    decreases fuel, Slack(f.View()), 0, 1
  {
    hide Inv, Idle, Content, Stale, FrameOf, Slack, VMap, NoStaleIn, VRoles, Freed, EmptyVictim, Cheapest, Collected,
         Lasts, Rooms, Saturated, Kept, CanStart, ThreeClean, Tripped, Clear, OwWins, Credited, AllRoom;
    ghost var s, nest := f.View(), f.gcNestLevel;
    StartFacts(f.t, f.gcNestLevel, bank, fuel);
    f.gcNestLevel := f.gcNestLevel[bank := f.gcNestLevel[bank] + 1];
    if f.gcNestLevel[bank] > 2 {
      return Fail(Halted);
    }
    var v, fromOw, expected, fuel';
    o, v, fromOw, expected, fuel' := ChooseVictim(f, bank, fuel);
    if o != Fail(Halted) {
      ClearChoice(s, v, bank);
    }
    if o.Fail? {
      match o.error {
        case Halted =>
        case OutOfFuel =>
        case Recollected =>
        case UnsafeCollection =>
      }
      return;
    }
    SameCost(s, v, bank, expected);
    ghost var t := f.t;
    if forall b | 0 <= b < f.banks :: ThreeClean(t, b) {
      ThreeCleanSuffice(s, t, v);
    }
    o := CollectVictim(f, v, fromOw, expected, fuel');
    EnoughRoom(t, f.t, bank, expected, o);
    AffordableGains(s, nest, f.t, v, bank, fuel, o);
    FreedBy(t, f.t, v, bank);
    RestoreNest(old(f.gcNestLevel), bank);
    if o.Pass? {
      CollectedBy(s, f.View(), v, bank);
    }
  }

  /** The chosen victim is taken, emptied and released. */
  method CollectVictim(f: Ftl, v: Blk, fromOw: bool, expected: nat, fuel: nat) returns (o: Outcome)
    requires Idle(f.View()) && Sys(f) && (if fromOw then v in f.t.owHeap else v in f.t.writeHeap)
    requires !Tripped(f.View(), v) && |VMap(f.g.live, v)| == expected
    requires v.bank < |f.gcNestLevel| && 0 < f.gcNestLevel[v.bank]
    modifies f
    ensures o.Pass? ==>
      Idle(f.View()) && Kept(old(f.View()), f.View()) && Sys(f) && old(f.g.wiped) + multiset{v} <= f.g.wiped
    ensures o.Pass? ==>
      && f.gcNestLevel == old(f.gcNestLevel)[v.bank := old(f.gcNestLevel)[v.bank] - 1] && f.givenUp == old(f.givenUp)
      && f.owing == old(f.owing)
    ensures expected == 0 && !fromOw ==> o.Pass? && v.bank < |old(f.t.cleanList)| && f.t == GivenBack(old(f.t), v)
    ensures expected == 0 ==> f.referenceBank == old(f.referenceBank)
    ensures old(Unburdened(f)) ==> o != Fail(UnsafeCollection)
    ensures Lasts(Credited(Rooms(old(f.t)), v.bank), Rooms(f.t), expected, o)
    decreases fuel, Slack(f.View()),
              if fromOw || (v in f.t.writeCount && f.t.writeCount[v] < CHUNKS_PER_LOG_BLK) then 0 else 7, 0
  {
    hide Inv, Idle, Content, Stale, FrameOf, Slack, Without, IsVictim, VMap, NoStaleIn, VRoles, Lasts, Rooms, Taken,
         Tripped, Credited, GivenBack;
    ghost var s := f.View();
    var list := TakeVictim(f, v, fromOw, expected);
    ghost var s1, t1 := f.View(), f.t;
    if 0 < expected {
      o := CollectPages(f, v, list, expected, fuel);
    } else {
      ReleaseEmpty(f, v);
      TakenReleased(old(f.t), t1, f.t, v, fromOw);
      o := Pass;
    }
    TakenLasts(old(f.t), t1, f.t, v, fromOw, expected, o);
    :- o;
    MovedMoved(s, s1, f.View(), Frm(s1), s.held, Stale(s.cmap, s.held), Frm(s), s.held, Stale(s.cmap, s.held));
  }

  lemma TakenLasts(s: Tables, m: Tables, t: Tables, v: Blk, fromOw: bool, n: nat, o: Outcome)
    requires Taken(s, m, v, fromOw) && Lasts(Credited(Rooms(m), v.bank), Rooms(t), n, o)
    ensures Lasts(Credited(Rooms(s), v.bank), Rooms(t), n, o)
  {
    hide Lasts, Credited;
    SameRooms(s, m, 0);
  }

  /** An empty RW block that was taken and released was given back. */
  lemma TakenReleased(s: Tables, m: Tables, t: Tables, v: Blk, fromOw: bool)
    requires Taken(s, m, v, fromOw) && v.bank < |m.cleanList| && t == Released(m, v)
    ensures !fromOw ==> v.bank < |s.cleanList| && t == GivenBack(s, v)
  {
  }

  /** A victim without a mapped chunk is released at once. */
  method ReleaseEmpty(f: Ftl, v: Blk)
    requires Idle(f.View()) && Sys(f) && IsVictim(f.g.role, v) && |VMap(f.g.live, v)| == 0
      && NoStaleIn(f.t.chunksMap, f.g.held, v)
    requires v.bank < |f.gcNestLevel| && 0 < f.gcNestLevel[v.bank]
    modifies f
    ensures Idle(f.View()) && Sys(f) && f.givenUp == old(f.givenUp) && f.owing == old(f.owing)
    ensures Moved(old(f.View()), f.View(), Without(Frm(old(f.View())), v), old(f.g.held),
                  Stale(old(f.t.chunksMap), old(f.g.held)))
    ensures f.gcNestLevel == old(f.gcNestLevel)[v.bank := old(f.gcNestLevel)[v.bank] - 1]
    ensures v.bank < |old(f.t.cleanList)| && f.t == Released(old(f.t), v)
    ensures Lasts(Credited(Rooms(old(f.t)), v.bank), Rooms(f.t), 0, Pass)
    ensures f.g.wiped == old(f.g.wiped) + multiset{v} && f.referenceBank == old(f.referenceBank)
  {
    hide Inv, Idle, Content, Stale, FrameOf, Slack, Without, IsVictim, VMap, NoStaleIn, VRoles, Lasts, Rooms, NoLess,
         Credited;
    ghost var s := f.View();
    NothingLeft(VMap(s.live, v));
    IdleCalm(s);
    VictimBank(s, v);
    ReleaseBlk(f, v);
    f.gcNestLevel := f.gcNestLevel[v.bank := f.gcNestLevel[v.bank] - 1];
    ReleaseInvMoved(s, v);
    ReleaseIdle(s, v);
    Won(old(f.t), f.t, v);
  }

  /** What taking a victim changes. */
  ghost predicate Taken(s: Tables, t: Tables, v: Blk, fromOw: bool) {
    if fromOw then
      t == s.(owHeap := s.owHeap - {v}, owCount := s.owCount[v := OW_BLK_CHUNKS],
              owCounters := s.owCounters[v := NoCounts()])
    else t == s.(writeHeap := s.writeHeap - {v}, writeCount := s.writeCount[v := CHUNKS_PER_LOG_BLK])
  }

  /** What releasing it changes. */
  ghost function Released(t: Tables, v: Blk): Tables
    requires v.bank < |t.cleanList|
  {
    t.(flash := Erase(t.flash, v), cleanList := t.cleanList[v.bank := t.cleanList[v.bank] + [v.lbn]])
  }

  lemma EnoughRoom(s: Tables, t: Tables, bank: nat, n: nat, o: Outcome)
    requires Lasts(Credited(Rooms(s), bank), Rooms(t), n, o)
    ensures AllRoom(s, n) ==> o.Pass?
  {
    var c := Credited(Rooms(s), bank);
    if AllRoom(s, n) {
      assert forall b | 0 <= b < |c| :: c[b].room == RoomAt(s, b);
    }
  }

  /** What an affordable collection has won. */
  lemma AffordableGains(s: St, nest: seq<nat>, t: Tables, v: Blk, bank: nat, fuel: nat, o: Outcome)
    requires Idle(s) && bank < s.banks && Cheapest(s, v, bank) && !Tripped(s, v)
    requires Lasts(Credited(Rooms(TablesOf(s)), bank), Rooms(t), |VMap(s.live, v)|, o)
    ensures Affordable(s, nest, bank, fuel) ==>
      o.Pass? && (CleanAt(TablesOf(s), bank) <= 1 ==> CleanAt(t, bank) > CleanAt(TablesOf(s), bank))
  {
    hide Idle, Lasts, Rooms, Credited, RoomAt, Cheapest, Tripped, CanStart, Clear, VMap;
    if Affordable(s, nest, bank, fuel) {
      BankPtr(s, bank);
      SameCost(s, v, bank, |VMap(s.live, v)|);
      EnoughRoom(TablesOf(s), t, bank, |VMap(s.live, v)|, o);
      if CleanAt(TablesOf(s), bank) <= 1 {
        MoreClean(TablesOf(s), t, bank, |VMap(s.live, v)|, o);
      }
    }
  }

  lemma FreedBy(s: Tables, t: Tables, v: Blk, bank: nat)
    ensures IsEmpty(s, v, bank) && bank < |s.cleanList| && t == GivenBack(s, v) ==> Freed(s, t, bank)
  {
    hide GivenBack;
  }

  lemma BankPtr(s: St, bank: nat)
    requires Idle(s) && bank < s.banks
    ensures bank < |s.rw| && bank < |s.clean| && bank < |s.ptr| && s.ptr[bank] <= 7
  {
    hide Inv, FillsBut, RwReady;
    BankFacts(s, bank);
    BufferPtr(s, bank);
  }

  method DropVictim(f: Ftl, v: Blk, fromOw: bool)
    modifies f`t, f`g
    ensures f.View() == if fromOw then TakeOw(old(f.View()), v) else TakeRw(old(f.View()), v)
    ensures Taken(old(f.t), f.t, v, fromOw)
    ensures f.g.held == old(f.g.held) && f.t.chunksMap == old(f.t.chunksMap) && f.g.wiped == old(f.g.wiped)
  {
    if fromOw {
      f.t := f.t.(owHeap := f.t.owHeap - {v}, owCount := f.t.owCount[v := OW_BLK_CHUNKS],
                  owCounters := f.t.owCounters[v := NoCounts()]);
    } else {
      f.t := f.t.(writeHeap := f.t.writeHeap - {v}, writeCount := f.t.writeCount[v := CHUNKS_PER_LOG_BLK]);
    }
    f.g := f.g.(role := f.g.role[v := Victim(fromOw)]);
  }

  /** The victim leaves its heap with its count, and its counters, reset; its LPN list is read. */
  method TakeVictim(f: Ftl, v: Blk, fromOw: bool, expected: nat) returns (list: seq<Option<nat>>)
    requires Idle(f.View()) && Sys(f) && (if fromOw then v in f.t.owHeap else v in f.t.writeHeap)
    requires !Tripped(f.View(), v) && |VMap(f.g.live, v)| == expected
    modifies f`t, f`g
    ensures Idle(f.View()) && Sys(f) && IsVictim(f.g.role, v) && NoStaleIn(f.t.chunksMap, f.g.held, v)
      && |VMap(f.g.live, v)| == expected
    ensures Moved(old(f.View()), f.View(), Frm(f.View()), old(f.g.held), Stale(old(f.t.chunksMap), old(f.g.held)))
    ensures Without(Frm(f.View()), v) == Frm(old(f.View())) && f.g.held == old(f.g.held)
      && f.t.chunksMap == old(f.t.chunksMap) && f.g.wiped == old(f.g.wiped)
    ensures 0 < expected ==> v in f.g.lists && list == f.g.lists[v]
    ensures Slack(f.View()) <= Slack(old(f.View()))
    ensures fromOw || (v in old(f.t.writeCount) && old(f.t.writeCount)[v] < CHUNKS_PER_LOG_BLK) ==>
      Slack(f.View()) < Slack(old(f.View()))
    ensures Taken(old(f.t), f.t, v, fromOw)
  {
    hide Inv, Idle, Content, Stale, FrameOf, Slack, Without, IsVictim, VMap, NoStaleIn, VRoles, TakeRw, TakeOw, Taken;
    ghost var s := f.View();
    IdleCalm(s);
    TakenList(s, v);
    list := if expected == 0 then [] else f.t.flash[ListPage(v, if fromOw then 125 else 127)].lpns;
    DropVictim(f, v, fromOw);
    if fromOw {
      TakeOwMoved(s, v);
    } else {
      TakeRwMoved(s, v);
    }
    NoStaleKept(s, f.View(), v);
  }

  lemma RestoreNest(nest: seq<nat>, bank: nat)
    requires bank < |nest|
    ensures nest[bank := nest[bank] + 1][bank := nest[bank := nest[bank] + 1][bank] - 1] == nest
  {
  }

  lemma TakenList(s: St, v: Blk)
    requires Inv(s)
    ensures v in s.wIn ==>
      && ListPage(v, 127) in s.flash && s.flash[ListPage(v, 127)].List? && v in s.lists
      && s.flash[ListPage(v, 127)].lpns == s.lists[v]
    ensures v in s.oIn ==>
      && ListPage(v, 125) in s.flash && s.flash[ListPage(v, 125)].List? && v in s.lists
      && s.flash[ListPage(v, 125)].lpns == s.lists[v]
  {
  }
}
