// Registration of resource configurations and the addressing of table slots:
// which row a resource code has, and why two different (resource, instance,
// priority) triples never share a slot.

module ResourceRegistries {
  import opened Types
  import opened CocoSpec

  // The 32-bit code: the resource id in the low half, the type above it.
  function CodeOf(c: ResConf): nat {
    c.resId + c.resType * 65536
  }

  // A code is the type and the id of a configuration in two halves of 16 bits,
  // so codes agree exactly if both do.
  lemma CodeHalves(c: ResConf, code: nat)
    ensures CodeOf(c) == code <==> c.resType == code / 65536 && c.resId == code % 65536
  {
    assert code == code / 65536 * 65536 + code % 65536;
  }

  predicate SameId(a: ResConf, b: ResConf) {
    a.resType == b.resType && a.resId == b.resId
  }

  lemma CodesAgree(a: ResConf, b: ResConf)
    ensures CodeOf(a) == CodeOf(b) <==> SameId(a, b)
  {
    CodeHalves(a, CodeOf(a));
    CodeHalves(b, CodeOf(a));
  }

  // Codes and rows correspond one to one.
  ghost predicate Bijective(sil: map<nat, int>, confs: seq<ResConf>) {
    && (forall c :: c in sil ==> 0 <= sil[c] < |confs| && CodeOf(confs[sil[c]]) == c)
    && (forall i :: 0 <= i < |confs| ==> CodeOf(confs[i]) in sil && sil[CodeOf(confs[i])] == i)
  }

  class ResourceRegistry {
    var sil: map<nat, int>
    var confs: seq<ResConf>
    var total: int

    ghost predicate Valid()
      reads this
    {
      total == |confs| && Bijective(sil, confs)
    }

    constructor ()
      ensures Valid() && confs == []
    {
      sil, confs, total := map[], [], 0;
    }

    // A malformed configuration is dropped; one of the same type and id as some
    // known one takes its row; any other gets the next row.
    method RegisterResource(conf: ResConf)
      requires Valid()
      modifies this
      ensures Valid()
      ensures conf.resType == 0 ==> confs == old(confs) && sil == old(sil)
      ensures conf.resType != 0 ==> forall i :: 0 <= i < |old(confs)| && SameId(old(confs)[i], conf) ==>
                sil == old(sil) && confs == old(confs)[i := conf]
      ensures conf.resType != 0 && (forall c :: c in old(confs) ==> !SameId(c, conf)) ==>
                confs == old(confs) + [conf] && sil == old(sil)[CodeOf(conf) := |old(confs)|]
    {
      if conf.resType == 0 {
        return;
      }
      var code := CodeOf(conf);
      forall c | c in confs ensures SameId(c, conf) <==> CodeOf(c) == code {
        CodesAgree(c, conf);
      }
      if code in sil {
        var index := sil[code];
        confs := confs[index := conf];
        sil := sil - {code};
        sil := sil[code := index];
        assert sil == old(sil);
      } else {
        sil := sil[code := total];
        confs := confs + [conf];
        total := total + 1;
      }
    }

    // The registered configuration of that type and id.
    method GetResConf(code: nat) returns (r: Option<ResConf>)
      requires Valid()
      ensures r.Some? ==> r.value in confs && r.value.resType == code / 65536 && r.value.resId == code % 65536
      ensures r.None? ==> forall c :: c in confs ==> c.resType != code / 65536 || c.resId != code % 65536
    {
      forall c | c in confs ensures CodeOf(c) == code <==> c.resType == code / 65536 && c.resId == code % 65536 {
        CodeHalves(c, code);
      }
      if code !in sil {
        return None;
      }
      var index := sil[code];
      if index == -1 {
        return None;
      }
      return Some(confs[index]);
    }
  }

  // ---- Flat instance indices ----

  // Each identifier gets the number of identifiers known so far.
  function FlatMap(ids: seq<int>): map<int, int> {
    if ids == [] then map[]
    else
      var m := FlatMap(ids[..|ids| - 1]);
      m[ids[|ids| - 1] := |m|]
  }

  method BuildFlatMap(ids: seq<int>) returns (m: map<int, int>)
    ensures m == FlatMap(ids)
  {
    m := map[];
    for i := 0 to |ids|
      invariant m == FlatMap(ids[..i])
    {
      var index := |m|;
      m := m[ids[i] := index];
      assert ids[..i + 1][..i] == ids[..i];
    }
    assert ids[..|ids|] == ids;
  }

  // With distinct identifiers the index is the position, so no two share one.
  lemma {:induction false} FlatMapPositions(ids: seq<int>)
    requires NoDup(ids)
    ensures |FlatMap(ids)| == |ids|
    ensures forall x :: x in FlatMap(ids) <==> x in ids
    ensures forall i :: 0 <= i < |ids| ==> ids[i] in FlatMap(ids) && FlatMap(ids)[ids[i]] == i
  {
    if ids != [] {
      var t, x := ids[..|ids| - 1], ids[|ids| - 1];
      FlatMapPositions(t);
      assert x !in t;
      assert FlatMap(ids).Keys == FlatMap(t).Keys + {x};
    }
  }

  // Index j belongs to some identifier.
  ghost predicate Given(m: map<int, int>, j: int) {
    exists x :: x in m && m[x] == j
  }

  // The identifiers are numbered one to one with 0, 1, and so on.
  ghost predicate Numbered(m: map<int, int>) {
    && (forall x :: x in m ==> 0 <= m[x] < |m|)
    && (forall x, y :: x in m && y in m && m[x] == m[y] ==> x == y)
    && (forall j :: 0 <= j < |m| ==> Given(m, j))
  }

  lemma StaysUngiven(m: map<int, int>, x: int, j: nat)
    requires j < |m| && forall y :: y in m && y != x ==> m[y] != j
    ensures var n := m[x := |m|]; j < |n| && !Given(n, j)
  {
    var n := m[x := |m|];
    assert n.Keys == m.Keys + {x};
    assert m.Keys <= n.Keys && |m.Keys| <= |n.Keys| by {
      SubsetSize(m.Keys, n.Keys);
    }
  }

  lemma SubsetSize(a: set<int>, b: set<int>)
    requires a <= b
    ensures |a| <= |b|
  {
    assert b == a + (b - a);
  }

  // Once an identifier is repeated, the index it had is never given again.
  lemma {:induction false} RepeatLosesIndex(ids: seq<int>)
    requires !NoDup(ids)
    ensures exists j :: 0 <= j < |FlatMap(ids)| && !Given(FlatMap(ids), j)
  {
    var t, x := ids[..|ids| - 1], ids[|ids| - 1];
    var m := FlatMap(t);
    assert FlatMap(ids) == m[x := |m|];
    if NoDup(t) {
      var i :| 0 <= i < |t| && t[i] == x;
      FlatMapPositions(t);
      forall y | y in m && y != x ensures m[y] != i {
        var k :| 0 <= k < |t| && t[k] == y;
      }
      StaysUngiven(m, x, i);
    } else {
      RepeatLosesIndex(t);
      var j :| 0 <= j < |m| && !Given(m, j);
      StaysUngiven(m, x, j);
    }
  }

  // The numbering is one to one exactly if no identifier is repeated.
  lemma NumberedIff(ids: seq<int>)
    ensures Numbered(FlatMap(ids)) <==> NoDup(ids)
  {
    if NoDup(ids) {
      FlatMapPositions(ids);
      var m := FlatMap(ids);
      forall j | 0 <= j < |ids| ensures Given(m, j) {
        var x := ids[j];
        assert x in m && m[x] == j;
      }
    } else {
      RepeatLosesIndex(ids);
    }
  }

  // A repeated identifier that makes two others share an index.
  lemma RepeatedIdsCollide()
    ensures FlatMap([7, 8, 7, 9])[7] == FlatMap([7, 8, 7, 9])[9]
  {
    var a, b, c := FlatMap([7]), FlatMap([7, 8]), FlatMap([7, 8, 7]);
    assert [7, 8, 7, 9][..3] == [7, 8, 7] && [7, 8, 7][..2] == [7, 8] && [7, 8][..1] == [7] && [7][..0] == [];
    assert a == map[7 := 0];
    assert b.Keys == {7, 8};
    assert c.Keys == {7, 8};
  }

  // An identifier that is looked up as index 0: the first one, or an unknown one.
  predicate LikeFirst(ids: seq<int>, x: int) {
    x !in ids || ids[0] == x
  }

  // Two identifiers are looked up as the same index exactly if each is the
  // first registered one or not registered at all.
  lemma SameIndexIff(ids: seq<int>, a: int, b: int)
    requires NoDup(ids) && a != b
    ensures FlatIndex(FlatMap(ids), a) == FlatIndex(FlatMap(ids), b) <==> LikeFirst(ids, a) && LikeFirst(ids, b)
  {
    LikeFirstIff(ids, a);
    LikeFirstIff(ids, b);
    FlatMapInjective(ids, a, b);
  }

  lemma LikeFirstIff(ids: seq<int>, x: int)
    requires NoDup(ids)
    ensures FlatIndex(FlatMap(ids), x) == 0 <==> LikeFirst(ids, x)
  {
    FlatMapPositions(ids);
    if x in ids {
      var i :| 0 <= i < |ids| && ids[i] == x;
      assert FlatMap(ids)[ids[i]] == i;
    }
  }

  // ---- Slots ----

  // The context the coordinator is built with.
  ghost predicate Addressable(ctx: Ctx, clusterIds: seq<int>, cgroupIds: seq<int>) {
    && Bijective(ctx.sil, ctx.confs)
    && NoDup(clusterIds) && NoDup(cgroupIds) && -1 !in cgroupIds
    && ctx.clusterMap == FlatMap(clusterIds) && ctx.clusters == |clusterIds|
    && ctx.cgroupMap == FlatMap(cgroupIds) && ctx.cgroups == |cgroupIds|
  }

  // The instance an entry is about, if that instance is registered.
  function Instance(ctx: Ctx, res: Resource): Option<int> {
    if res.code !in ctx.sil || !(0 <= ctx.sil[res.code] < |ctx.confs|) then None
    else
      match ctx.confs[ctx.sil[res.code]].applyType
      case ApplyGlobal => Some(0)
      case ApplyCore => if res.CoreValue() < ctx.cores then Some(res.CoreValue()) else None
      case ApplyCluster => if res.ClusterValue() in ctx.clusterMap then Some(res.ClusterValue()) else None
      case ApplyCGroup => if res.ValueAt(0) in ctx.cgroupMap then Some(res.ValueAt(0)) else None
  }

  function FirstOf(ids: seq<int>): Option<int> {
    if ids == [] then None else Some(ids[0])
  }

  // The instance an entry is filed under: its own, and the first one for a
  // cluster or a cgroup that is not registered.
  function FiledUnder(ctx: Ctx, clusterIds: seq<int>, cgroupIds: seq<int>, res: Resource): Option<int> {
    if Instance(ctx, res).Some? || res.code !in ctx.sil || !(0 <= ctx.sil[res.code] < |ctx.confs|)
      then Instance(ctx, res)
    else
      match ctx.confs[ctx.sil[res.code]].applyType
      case ApplyCluster => FirstOf(clusterIds)
      case ApplyCGroup => if res.ValueAt(0) == -1 then None else FirstOf(cgroupIds)
      case _ => None
  }

  // The number of an instance within its resource.
  function InstanceIndex(ctx: Ctx, row: int, instance: int): int
    requires 0 <= row < |ctx.confs|
  {
    match ctx.confs[row].applyType
    case ApplyGlobal => 0
    case ApplyCore => instance
    case ApplyCluster => FlatIndex(ctx.clusterMap, instance)
    case ApplyCGroup => FlatIndex(ctx.cgroupMap, instance)
  }

  // The slot of a level of an instance.
  function SlotOf(ctx: Ctx, row: int, instance: int, prio: int): Slot
    requires 0 <= row < |ctx.confs|
  {
    Slot(row, InstanceIndex(ctx, row, instance) * TOTAL_PRIORITIES + prio)
  }

  lemma IndexInRange(ids: seq<int>, x: int)
    requires NoDup(ids)
    ensures x in FlatMap(ids) <==> x in ids
    ensures 0 <= FlatIndex(FlatMap(ids), x) && (FlatIndex(FlatMap(ids), x) < |ids| <==> ids != [])
    ensures ids != [] ==> FlatIndex(FlatMap(ids), ids[0]) == 0
  {
    FlatMapPositions(ids);
    if x in ids {
      var i :| 0 <= i < |ids| && ids[i] == x;
      assert FlatMap(ids)[ids[i]] == i;
    }
  }

  // Every entry that is not marked has the slot of its level of the instance it
  // is filed under, and no slot if there is none.
  lemma EntryHasSlot(ctx: Ctx, clusterIds: seq<int>, cgroupIds: seq<int>, res: Resource, prio: int)
    requires Addressable(ctx, clusterIds, cgroupIds) && !res.skip && Level(prio)
    ensures Target(ctx, res, prio)
         == match FiledUnder(ctx, clusterIds, cgroupIds, res)
            case Some(instance) => Some(SlotOf(ctx, ctx.sil[res.code], instance, prio))
            case None => None
  {
    IndexInRange(clusterIds, res.ClusterValue());
    IndexInRange(cgroupIds, res.ValueAt(0));
  }

  // So an entry for a cgroup that was never registered lands in the slot of the
  // first cgroup.
  lemma UnknownCGroupTakesFirst(ctx: Ctx, clusterIds: seq<int>, cgroupIds: seq<int>, res: Resource, first: Resource,
                                prio: int)
    requires Addressable(ctx, clusterIds, cgroupIds) && !res.skip && !first.skip && Level(prio)
    requires res.code in ctx.sil && ctx.confs[ctx.sil[res.code]].applyType == ApplyCGroup && first.code == res.code
    requires res.ValueAt(0) !in cgroupIds && res.ValueAt(0) != -1 && cgroupIds != [] && first.ValueAt(0) == cgroupIds[0]
    ensures Target(ctx, res, prio).Some? && Target(ctx, res, prio) == Target(ctx, first, prio)
  {
    FlatMapPositions(cgroupIds);
    EntryHasSlot(ctx, clusterIds, cgroupIds, res, prio);
    EntryHasSlot(ctx, clusterIds, cgroupIds, first, prio);
  }

  // Two entries share a slot exactly if they are for the same resource and
  // level and filed under the same instance.
  lemma SlotsShared(ctx: Ctx, clusterIds: seq<int>, cgroupIds: seq<int>, r1: Resource, p1: int, r2: Resource, p2: int)
    requires Addressable(ctx, clusterIds, cgroupIds) && !r1.skip && !r2.skip && Level(p1) && Level(p2)
    requires Target(ctx, r1, p1).Some?
    ensures Target(ctx, r1, p1) == Target(ctx, r2, p2)
       <==> r1.code == r2.code && p1 == p2
            && FiledUnder(ctx, clusterIds, cgroupIds, r1) == FiledUnder(ctx, clusterIds, cgroupIds, r2)
  {
    EntryHasSlot(ctx, clusterIds, cgroupIds, r1, p1);
    EntryHasSlot(ctx, clusterIds, cgroupIds, r2, p2);
    var a, b := FiledUnder(ctx, clusterIds, cgroupIds, r1), FiledUnder(ctx, clusterIds, cgroupIds, r2);
    if Target(ctx, r1, p1) == Target(ctx, r2, p2) {
      assert CodeOf(ctx.confs[ctx.sil[r1.code]]) == r1.code;
      assert CodeOf(ctx.confs[ctx.sil[r2.code]]) == r2.code;
      assert InstanceIndex(ctx, ctx.sil[r1.code], a.value) == InstanceIndex(ctx, ctx.sil[r2.code], b.value) && p1 == p2;
      FlatMapPositions(clusterIds);
      FlatMapPositions(cgroupIds);
      FlatMapInjective(clusterIds, a.value, b.value);
      FlatMapInjective(cgroupIds, a.value, b.value);
    }
  }

  // For registered instances: the same slot means the same resource, the same
  // instance and the same level.
  lemma SlotsDistinct(ctx: Ctx, clusterIds: seq<int>, cgroupIds: seq<int>, r1: Resource, p1: int, r2: Resource, p2: int)
    requires Addressable(ctx, clusterIds, cgroupIds) && !r1.skip && !r2.skip && Level(p1) && Level(p2)
    requires Instance(ctx, r1).Some? && Instance(ctx, r2).Some?
    ensures Target(ctx, r1, p1).Some? && Target(ctx, r2, p2).Some?
    ensures Target(ctx, r1, p1) == Target(ctx, r2, p2)
       <==> r1.code == r2.code && Instance(ctx, r1) == Instance(ctx, r2) && p1 == p2
  {
    EntryHasSlot(ctx, clusterIds, cgroupIds, r1, p1);
    EntryHasSlot(ctx, clusterIds, cgroupIds, r2, p2);
    SlotsShared(ctx, clusterIds, cgroupIds, r1, p1, r2, p2);
  }

  lemma FlatMapInjective(ids: seq<int>, a: int, b: int)
    requires NoDup(ids)
    ensures a in FlatMap(ids) && b in FlatMap(ids) && FlatMap(ids)[a] == FlatMap(ids)[b] ==> a == b
  {
    FlatMapPositions(ids);
    if a in FlatMap(ids) && b in FlatMap(ids) {
      var i :| 0 <= i < |ids| && ids[i] == a;
      var j :| 0 <= j < |ids| && ids[j] == b;
    }
  }
}
