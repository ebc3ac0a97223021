/** What nested work must leave alone: the blocks being collected and the chunks held in RAM. */
module VictimFrame {
  import opened Base
  import opened State
  import opened Steps

  datatype Frame = Frame(roles: map<Blk, Role>, live: map<Key, Loc>, lists: map<Blk, seq<Option<nat>>>)

  ghost predicate IsVictim(role: map<Blk, Role>, blk: Blk) {
    blk in role && role[blk].Victim?
  }

  ghost function VRoles(role: map<Blk, Role>): map<Blk, Role> {
    map blk | blk in role && IsVictim(role, blk) :: role[blk]
  }

  ghost function VLive(live: map<Key, Loc>, role: map<Blk, Role>): map<Key, Loc> {
    map k | k in live && live[k].page.Pg? && IsVictim(role, BlkOf(live[k].page)) :: live[k]
  }

  ghost function VLists(lists: map<Blk, seq<Option<nat>>>, role: map<Blk, Role>): map<Blk, seq<Option<nat>>> {
    map blk | blk in lists && IsVictim(role, blk) :: lists[blk]
  }

  ghost function FrameOf(live: map<Key, Loc>, role: map<Blk, Role>, lists: map<Blk, seq<Option<nat>>>): Frame {
    Frame(VRoles(role), VLive(live, role), VLists(lists, role))
  }

  ghost function Frm(s: St): Frame {
    FrameOf(s.live, s.role, s.lists)
  }

  /** The frame without victim `blk`. */
  ghost function Without(f: Frame, blk: Blk): Frame {
    Frame(f.roles - {blk}, map k | k in f.live && !InBlk(f.live[k].page, blk) :: f.live[k], f.lists - {blk})
  }

  /** Where the table still points for chunks held in RAM. */
  ghost function Stale(cmap: map<Key, Loc>, held: map<Key, Chunk>): map<Key, PageId> {
    map k | k in held && k in cmap :: cmap[k].page
  }

  /** A block that is not a victim changes role and list. */
  lemma RoleFrame(live: map<Key, Loc>, role: map<Blk, Role>, lists: map<Blk, seq<Option<nat>>>, blk: Blk, r: Role,
                  list: seq<Option<nat>>)
    requires blk in role && !role[blk].Victim? && !r.Victim? && blk in lists
    ensures FrameOf(live, role[blk := r], lists[blk := list]) == FrameOf(live, role, lists)
    ensures FrameOf(live, role[blk := r], lists) == FrameOf(live, role, lists)
  {
  }

  /** Chunks outside the victims move to places outside the victims. */
  lemma LiveFrame(live: map<Key, Loc>, live': map<Key, Loc>, role: map<Blk, Role>, lists: map<Blk, seq<Option<nat>>>)
    requires VLive(live', role) == VLive(live, role)
    ensures FrameOf(live', role, lists) == FrameOf(live, role, lists)
  {
  }

  lemma AddsFrame(live: map<Key, Loc>, adds: map<Key, Loc>, role: map<Blk, Role>, b: nat)
    requires forall k | k in adds && k in live :: live[k].page == Buf(false, b)
    requires forall k | k in adds :: adds[k].page.Pg? && !IsVictim(role, BlkOf(adds[k].page))
    ensures VLive(live + adds, role) == VLive(live, role)
  {
  }

  lemma PutFrame(live: map<Key, Loc>, k: Key, loc: Loc, role: map<Blk, Role>)
    requires k !in live && loc.page.Buf?
    ensures VLive(live[k := loc], role) == VLive(live, role)
  {
  }

  lemma SealFrame(live: map<Key, Loc>, role: map<Blk, Role>, blk: Blk)
    requires !IsVictim(role, blk)
    ensures VLive(ClearAll(live, blk), role) == VLive(live, role)
  {
  }

  lemma TakeFrame(live: map<Key, Loc>, role: map<Blk, Role>, lists: map<Blk, seq<Option<nat>>>, blk: Blk, r: Role)
    requires blk in role && !role[blk].Victim? && r.Victim?
    ensures Without(FrameOf(live, role[blk := r], lists), blk) == FrameOf(live, role, lists)
  {
  }

  lemma ReleaseFrame(live: map<Key, Loc>, role: map<Blk, Role>, lists: map<Blk, seq<Option<nat>>>, blk: Blk)
    requires blk in role && role[blk].Victim?
    ensures FrameOf(live, role[blk := Clean], lists) == Without(FrameOf(live, role, lists), blk)
  {
  }

  /** Victim `v` loses chunks to places outside the victims. */
  lemma CopyFrame(live: map<Key, Loc>, adds: map<Key, Loc>, role: map<Blk, Role>, lists: map<Blk, seq<Option<nat>>>,
                  v: Blk)
    requires forall k | k in adds :: k in live && InBlk(live[k].page, v)
    requires forall k | k in adds :: adds[k].page.Pg? && !IsVictim(role, BlkOf(adds[k].page))
    ensures Without(FrameOf(live + adds, role, lists), v) == Without(FrameOf(live, role, lists), v)
  {
  }

  /** Equal frames agree on the chunks of each victim. */
  lemma FrameVictim(s: St, t: St, v: Blk)
    requires Frm(s) == Frm(t) && IsVictim(s.role, v)
    ensures IsVictim(t.role, v) && t.role[v] == s.role[v]
    ensures KeysIn(t.live, v) == KeysIn(s.live, v)
    ensures forall k | k in KeysIn(s.live, v) :: k in s.live && k in t.live && t.live[k] == s.live[k]
    ensures v in s.lists ==> v in t.lists && t.lists[v] == s.lists[v]
  {
    assert v in VRoles(s.role) && v in VRoles(t.role);
    forall k ensures k in KeysIn(s.live, v) <==> k in KeysIn(t.live, v) {
      assert k in VLive(s.live, s.role) <==> k in VLive(t.live, t.role);
      if k in VLive(s.live, s.role) {
        assert VLive(s.live, s.role)[k] == VLive(t.live, t.role)[k];
      }
    }
    forall k | k in KeysIn(s.live, v) ensures t.live[k] == s.live[k] {
      assert VLive(s.live, s.role)[k] == VLive(t.live, t.role)[k];
    }
    if v in s.lists {
      assert v in VLists(s.lists, s.role) && v in VLists(t.lists, t.role);
      assert VLists(s.lists, s.role)[v] == VLists(t.lists, t.role)[v];
    }
  }
}
