// The concurrency coordinator as functions on values: where an entry belongs,
// what inserting and removing one entry does to the table, and what the table
// is supposed to look like for a given sequence of live entries.

module CocoSpec {
  import opened Types
  import opened ListOrder

  datatype Slot = Slot(row: int, col: int)

  // What the coordinator asked of the hardware, oldest first.
  datatype Callback = Apply(row: int, item: Item) | Tear(row: int, item: Item)

  // Everything fixed before the first request: the registered resources, the
  // flat cluster and cgroup indices, and how many instances of each exist.
  datatype Ctx = Ctx(sil: map<nat, int>, confs: seq<ResConf>, clusterMap: map<int, int>, cgroupMap: map<int, int>,
                     cores: nat, clusters: nat, cgroups: nat)

  datatype Table = Table(lists: map<Slot, seq<Item>>, ranks: map<Slot, int>, applied: seq<int>, log: seq<Callback>)

  // The number of slots of a row: four levels for each instance.
  function Width(ctx: Ctx, row: int): nat
    requires 0 <= row < |ctx.confs|
  {
    match ctx.confs[row].applyType
    case ApplyCore => TOTAL_PRIORITIES * ctx.cores
    case ApplyCluster => TOTAL_PRIORITIES * ctx.clusters
    case ApplyCGroup => TOTAL_PRIORITIES * ctx.cgroups
    case ApplyGlobal => TOTAL_PRIORITIES
  }

  predicate ValidSlot(ctx: Ctx, s: Slot) {
    0 <= s.row < |ctx.confs| && 0 <= s.col < Width(ctx, s.row)
  }

  // Looking a missing key up creates it with index 0.
  function FlatIndex(m: map<int, int>, key: int): int {
    if key in m then m[key] else 0
  }

  function SecondaryIndex(ctx: Ctx, row: int, res: Resource, prio: int): int
    requires 0 <= row < |ctx.confs|
  {
    match ctx.confs[row].applyType
    case ApplyCore => res.CoreValue() * TOTAL_PRIORITIES + prio
    case ApplyCluster => FlatIndex(ctx.clusterMap, res.ClusterValue()) * TOTAL_PRIORITIES + prio
    case ApplyCGroup =>
      if res.ValueAt(0) == -1 then -1 else FlatIndex(ctx.cgroupMap, res.ValueAt(0)) * TOTAL_PRIORITIES + prio
    case ApplyGlobal => prio
  }

  // The slot of an entry, or None when the coordinator leaves it alone: marked
  // to be skipped, unknown resource code, or an index outside the table.
  function Target(ctx: Ctx, res: Resource, prio: int): Option<Slot> {
    if res.skip || res.code !in ctx.sil then None
    else
      var row := ctx.sil[res.code];
      if 0 <= row < |ctx.confs| then
        var s := Slot(row, SecondaryIndex(ctx, row, res, prio));
        if ValidSlot(ctx, s) then Some(s) else None
      else None
  }

  ghost predicate Shape(ctx: Ctx, t: Table) {
    && |t.applied| == |ctx.confs|
    && (forall s :: s in t.lists <==> ValidSlot(ctx, s))
    && (forall s :: s in t.ranks <==> ValidSlot(ctx, s))
  }

  // An empty list for slots that do not exist.
  function ListAt(t: Table, s: Slot): seq<Item> {
    if s in t.lists then t.lists[s] else []
  }

  // The list of level q in the instance whose columns start at base.
  function LevelList(t: Table, row: int, base: int, q: int): seq<Item> {
    ListAt(t, Slot(row, base + q))
  }

  function PolicyOf(ctx: Ctx, s: Slot): Policy
    requires ValidSlot(ctx, s)
  {
    ctx.confs[s.row].policy
  }

  predicate Admits(ctx: Ctx, row: int, mode: Mode) {
    0 <= row < |ctx.confs| && mode in ctx.confs[row].modes
  }

  function ApplyAction(ctx: Ctx, mode: Mode, t: Table, row: int, item: Item, prio: int): (r: Table)
    requires Shape(ctx, t) && 0 <= row < |ctx.confs|
    ensures r.lists == t.lists && r.ranks == t.ranks && |r.applied| == |t.applied|
  {
    if (t.applied[row] >= prio || t.applied[row] == -1) && Admits(ctx, row, mode) then
      t.(applied := t.applied[row := prio], log := t.log + [Apply(row, item)])
    else t
  }

  function FastPathApply(ctx: Ctx, mode: Mode, t: Table, row: int, item: Item): (r: Table)
    ensures r == t.(log := r.log)
  {
    if Admits(ctx, row, mode) then t.(log := t.log + [Apply(row, item)]) else t
  }

  // The first level from p on whose list, in the instance starting at column
  // base, is not empty; -1 when there is none.
  function FirstLevel(t: Table, row: int, base: int, p: int): (r: int)
    requires 0 <= p <= TOTAL_PRIORITIES
    ensures r == -1 || p <= r < TOTAL_PRIORITIES
    ensures r == -1 ==> forall q :: p <= q < TOTAL_PRIORITIES ==> LevelList(t, row, base, q) == []
    ensures r != -1 ==> LevelList(t, row, base, r) != []
    ensures r != -1 ==> forall q :: p <= q < r ==> LevelList(t, row, base, q) == []
    decreases TOTAL_PRIORITIES - p
  {
    if p == TOTAL_PRIORITIES then -1
    else if LevelList(t, row, base, p) != [] then p
    else FirstLevel(t, row, base, p + 1)
  }

  function InsertOne(ctx: Ctx, mode: Mode, t: Table, item: Item, prio: int): (r: Table)
    requires Shape(ctx, t)
  {
    match Target(ctx, item.res, prio)
    case None => t
    case Some(s) =>
      match PolicyOf(ctx, s)
      case PassThrough =>
        FastPathApply(ctx, mode, t.(ranks := t.ranks[s := t.ranks[s] + 1]), s.row, item)
      case PassThroughAppend =>
        FastPathApply(ctx, mode, t, s.row, item)
      case p =>
        var l := Place(p, t.lists[s], item);
        var u := t.(lists := t.lists[s := l]);
        if l[0] == item then ApplyAction(ctx, mode, u, s.row, item, prio) else u
  }

  // A list ran empty: apply the head of the highest non-empty level of the same
  // instance, or restore the default.
  function Fallback(ctx: Ctx, mode: Mode, t: Table, row: int, base: int, item: Item): (r: Table)
    requires Shape(ctx, t) && 0 <= row < |ctx.confs|
    ensures r.lists == t.lists && r.ranks == t.ranks && |r.applied| == |t.applied|
  {
    var p := FirstLevel(t, row, base, 0);
    if p == -1 then t.(applied := t.applied[row := -1], log := t.log + [Tear(row, item)])
    else
      ApplyAction(ctx, mode, t.(applied := t.applied[row := p]), row, LevelList(t, row, base, p)[0], p)
  }

  function RemoveOne(ctx: Ctx, mode: Mode, t: Table, item: Item, prio: int): (r: Table)
    requires Shape(ctx, t)
  {
    match Target(ctx, item.res, prio)
    case None => t
    case Some(s) =>
      match PolicyOf(ctx, s)
      case PassThrough =>
        var u := t.(ranks := t.ranks[s := t.ranks[s] - 1]);
        if u.ranks[s] == 0 then u.(log := u.log + [Tear(s.row, item)]) else u
      case PassThroughAppend =>
        t.(log := t.log + [Tear(s.row, item)])
      case p =>
        var l := Without(t.lists[s], item);
        var u := t.(lists := t.lists[s := l]);
        if l == [] then
          Fallback(ctx, mode, u, s.row, SecondaryIndex(ctx, s.row, item.res, 0), item)
        else if t.lists[s][0] == item then ApplyAction(ctx, mode, u, s.row, l[0], prio)
        else u
  }

  // The cases of InsertOne and RemoveOne, one by one.
  lemma InsertOnePassThrough(ctx: Ctx, mode: Mode, t: Table, item: Item, prio: int, s: Slot)
    requires Shape(ctx, t) && Target(ctx, item.res, prio) == Some(s)
    ensures PolicyOf(ctx, s) == PassThrough ==>
              InsertOne(ctx, mode, t, item, prio)
              == FastPathApply(ctx, mode, t.(ranks := t.ranks[s := t.ranks[s] + 1]), s.row, item)
    ensures PolicyOf(ctx, s) == PassThroughAppend ==>
              InsertOne(ctx, mode, t, item, prio) == FastPathApply(ctx, mode, t, s.row, item)
  {
  }

  // An inserted pass-through entry is applied at once, whatever is in force and
  // whatever its level, unless the mode forbids it; a rank counts it if its
  // policy has one, and nothing else changes.
  lemma PassThroughApplied(ctx: Ctx, mode: Mode, t: Table, item: Item, prio: int, s: Slot)
    requires Shape(ctx, t) && Target(ctx, item.res, prio) == Some(s)
    requires PolicyOf(ctx, s) == PassThrough || PolicyOf(ctx, s) == PassThroughAppend
    ensures var r, admitted := InsertOne(ctx, mode, t, item, prio), mode in ctx.confs[s.row].modes;
      && r.log == (if admitted then t.log + [Apply(s.row, item)] else t.log)
      && (admitted ==> InForce(r.log, s.row) == Some(item))
      && r.ranks == t.ranks[s := t.ranks[s] + if PolicyOf(ctx, s) == PassThrough then 1 else 0]
      && r.lists == t.lists && r.applied == t.applied
  {
    assert t.ranks[s := t.ranks[s]] == t.ranks;
  }

  lemma InsertOneListed(ctx: Ctx, mode: Mode, t: Table, item: Item, prio: int, s: Slot, l: seq<Item>, u: Table)
    requires Shape(ctx, t) && Target(ctx, item.res, prio) == Some(s) && ListManaged(PolicyOf(ctx, s))
    requires l == Place(PolicyOf(ctx, s), t.lists[s], item) && u == t.(lists := t.lists[s := l])
    ensures Shape(ctx, u) && l != []
    ensures InsertOne(ctx, mode, t, item, prio) == if l[0] == item then ApplyAction(ctx, mode, u, s.row, item, prio)
         else u
  {
    assert u.lists.Keys == t.lists.Keys;
  }

  lemma RemoveOnePassThrough(ctx: Ctx, mode: Mode, t: Table, item: Item, prio: int, s: Slot)
    requires Shape(ctx, t) && Target(ctx, item.res, prio) == Some(s)
    ensures PolicyOf(ctx, s) == PassThrough ==>
              RemoveOne(ctx, mode, t, item, prio)
              == t.(ranks := t.ranks[s := t.ranks[s] - 1],
                    log := if t.ranks[s] == 1 then t.log + [Tear(s.row, item)] else t.log)
    ensures PolicyOf(ctx, s) == PassThroughAppend ==>
              RemoveOne(ctx, mode, t, item, prio) == t.(log := t.log + [Tear(s.row, item)])
  {
  }

  lemma RemoveOneListed(ctx: Ctx, mode: Mode, t: Table, item: Item, prio: int, s: Slot, l: seq<Item>, u: Table)
    requires Shape(ctx, t) && Target(ctx, item.res, prio) == Some(s) && ListManaged(PolicyOf(ctx, s))
    requires t.lists[s] != [] && l == Without(t.lists[s], item) && u == t.(lists := t.lists[s := l])
    ensures Shape(ctx, u)
    ensures RemoveOne(ctx, mode, t, item, prio)
         == if l == [] then Fallback(ctx, mode, u, s.row, SecondaryIndex(ctx, s.row, item.res, 0), item)
            else if t.lists[s][0] == item then ApplyAction(ctx, mode, u, s.row, l[0], prio)
            else u
  {
    assert u.lists.Keys == t.lists.Keys;
  }

  lemma InsertKeepsShape(ctx: Ctx, mode: Mode, t: Table, item: Item, prio: int)
    requires Shape(ctx, t)
    ensures Shape(ctx, InsertOne(ctx, mode, t, item, prio))
  {
    var r := InsertOne(ctx, mode, t, item, prio);
    assert r.lists.Keys == t.lists.Keys;
    assert r.ranks.Keys == t.ranks.Keys;
  }

  lemma RemoveKeepsShape(ctx: Ctx, mode: Mode, t: Table, item: Item, prio: int)
    requires Shape(ctx, t)
    ensures Shape(ctx, RemoveOne(ctx, mode, t, item, prio))
  {
    var r := RemoveOne(ctx, mode, t, item, prio);
    assert r.lists.Keys == t.lists.Keys;
    assert r.ranks.Keys == t.ranks.Keys;
  }

  // A whole request, entry by entry, in list order.
  function InsertAll(ctx: Ctx, mode: Mode, t: Table, items: seq<Item>, prio: int): (r: Table)
    requires Shape(ctx, t)
    ensures Shape(ctx, r)
  {
    if items == [] then t
    else
      var u := InsertAll(ctx, mode, t, items[..|items| - 1], prio);
      InsertKeepsShape(ctx, mode, u, items[|items| - 1], prio);
      InsertOne(ctx, mode, u, items[|items| - 1], prio)
  }

  function RemoveAll(ctx: Ctx, mode: Mode, t: Table, items: seq<Item>, prio: int): (r: Table)
    requires Shape(ctx, t)
    ensures Shape(ctx, r)
  {
    if items == [] then t
    else
      var u := RemoveAll(ctx, mode, t, items[..|items| - 1], prio);
      RemoveKeepsShape(ctx, mode, u, items[|items| - 1], prio);
      RemoveOne(ctx, mode, u, items[|items| - 1], prio)
  }

  // How many entries of a request the table takes; a request none of whose
  // entries is taken is refused.
  function Accepted(ctx: Ctx, items: seq<Item>, prio: int): nat {
    if items == [] then 0
    else
      Accepted(ctx, items[..|items| - 1], prio) +
      if Target(ctx, items[|items| - 1].res, prio).Some? then 1 else 0
  }

  // The tables in between, entry by entry.
  ghost predicate InsertStage(ctx: Ctx, mode: Mode, stages: seq<Table>, items: seq<Item>, prio: int, i: int)
    requires 0 <= i < |items| && |stages| == |items| + 1
  {
    Shape(ctx, stages[i]) && stages[i + 1] == InsertOne(ctx, mode, stages[i], items[i], prio)
  }

  ghost predicate RemoveStage(ctx: Ctx, mode: Mode, stages: seq<Table>, items: seq<Item>, prio: int, i: int)
    requires 0 <= i < |items| && |stages| == |items| + 1
  {
    Shape(ctx, stages[i]) && stages[i + 1] == RemoveOne(ctx, mode, stages[i], items[i], prio)
  }

  ghost predicate InsertStages(ctx: Ctx, mode: Mode, stages: seq<Table>, items: seq<Item>, prio: int) {
    && |stages| == |items| + 1
    && forall i {:trigger InsertStage(ctx, mode, stages, items, prio, i)} :: 0 <= i < |items| ==>
         InsertStage(ctx, mode, stages, items, prio, i)
  }

  ghost predicate RemoveStages(ctx: Ctx, mode: Mode, stages: seq<Table>, items: seq<Item>, prio: int) {
    && |stages| == |items| + 1
    && forall i {:trigger RemoveStage(ctx, mode, stages, items, prio, i)} :: 0 <= i < |items| ==>
         RemoveStage(ctx, mode, stages, items, prio, i)
  }

  lemma {:induction false} StagesOfInsert(ctx: Ctx, mode: Mode, t: Table, items: seq<Item>, prio: int)
    returns (stages: seq<Table>)
    requires Shape(ctx, t)
    ensures InsertStages(ctx, mode, stages, items, prio)
    ensures stages[0] == t && stages[|items|] == InsertAll(ctx, mode, t, items, prio)
  {
    if items == [] {
      stages := [t];
    } else {
      var init, n := items[..|items| - 1], |items| - 1;
      var before := StagesOfInsert(ctx, mode, t, init, prio);
      stages := before + [InsertAll(ctx, mode, t, items, prio)];
      forall i | 0 <= i < |items| ensures InsertStage(ctx, mode, stages, items, prio, i) {
        assert i < n ==> InsertStage(ctx, mode, before, init, prio, i);
      }
    }
  }

  lemma {:induction false} StagesOfRemove(ctx: Ctx, mode: Mode, t: Table, items: seq<Item>, prio: int)
    returns (stages: seq<Table>)
    requires Shape(ctx, t)
    ensures RemoveStages(ctx, mode, stages, items, prio)
    ensures stages[0] == t && stages[|items|] == RemoveAll(ctx, mode, t, items, prio)
  {
    if items == [] {
      stages := [t];
    } else {
      var init, n := items[..|items| - 1], |items| - 1;
      var before := StagesOfRemove(ctx, mode, t, init, prio);
      stages := before + [RemoveAll(ctx, mode, t, items, prio)];
      forall i | 0 <= i < |items| ensures RemoveStage(ctx, mode, stages, items, prio, i) {
        assert i < n ==> RemoveStage(ctx, mode, before, init, prio, i);
      }
    }
  }

  // The entry whose value the hardware holds for a resource, None for the default.
  function InForce(log: seq<Callback>, row: int): Option<Item> {
    if log == [] then None
    else
      var last := log[|log| - 1];
      if last.row == row then (if last.Apply? then Some(last.item) else None)
      else InForce(log[..|log| - 1], row)
  }

  predicate Managed(ctx: Ctx, row: int) {
    0 <= row < |ctx.confs| && ListManaged(ctx.confs[row].policy)
  }

  predicate GlobalManaged(ctx: Ctx, row: int) {
    Managed(ctx, row) && ctx.confs[row].applyType == ApplyGlobal
  }

  // The entry belongs to the instance of the resource whose columns start at base.
  ghost predicate FiledAt(ctx: Ctx, res: Resource, prio: int, row: int, base: int) {
    && 0 <= row < |ctx.confs| && base == SecondaryIndex(ctx, row, res, 0)
    && Target(ctx, res, prio) == Some(Slot(row, base + prio))
  }

  // Of the instance whose columns start at base; 0 for a global resource.
  function Winner(t: Table, row: int, base: int): Option<Item> {
    var p := FirstLevel(t, row, base, 0);
    if p == -1 then None else Some(LevelList(t, row, base, p)[0])
  }

  // The register names the smallest non-empty level of the instance and the
  // hardware holds the head of that level's list.
  ghost predicate Arbitrated(t: Table, row: int, base: int) {
    && 0 <= row < |t.applied|
    && t.applied[row] == FirstLevel(t, row, base, 0)
    && InForce(t.log, row) == Winner(t, row, base)
  }

  // ---- What the table should be ----

  // A live entry with the priority level of its request.
  datatype Live = Live(item: Item, prio: int)

  predicate Level(prio: int) {
    0 <= prio < TOTAL_PRIORITIES
  }

  // The live entries of one slot, in arrival order.
  function Holders(ctx: Ctx, live: seq<Live>, s: Slot): seq<Item> {
    if live == [] then []
    else
      var last := live[|live| - 1];
      Holders(ctx, live[..|live| - 1], s) +
      if Target(ctx, last.item.res, last.prio) == Some(s) then [last.item] else []
  }

  ghost predicate SlotAgrees(ctx: Ctx, t: Table, live: seq<Live>, s: Slot)
    requires ValidSlot(ctx, s)
  {
    var p, h := PolicyOf(ctx, s), Holders(ctx, live, s);
    && s in t.lists && t.lists[s] == (if ListManaged(p) then Arrange(p, h) else [])
    && s in t.ranks && t.ranks[s] == (if p == PassThrough then |h| else 0)
  }

  ghost predicate DistinctItems(live: seq<Live>) {
    forall i, j :: 0 <= i < j < |live| ==> live[i].item != live[j].item
  }

  // The table is the function of the live entries it is meant to be.
  ghost predicate Agrees(ctx: Ctx, t: Table, live: seq<Live>) {
    && Shape(ctx, t)
    && DistinctItems(live)
    && (forall l :: l in live ==> Level(l.prio))
    && (forall s :: ValidSlot(ctx, s) ==> SlotAgrees(ctx, t, live, s))
  }

  // Every global list-managed resource that admits all the given modes.
  ghost predicate AllArbitrated(ctx: Ctx, t: Table, modes: set<Mode>) {
    forall row :: GlobalManaged(ctx, row) && modes <= ctx.confs[row].modes ==> Arbitrated(t, row, 0)
  }

  function EmptyTable(ctx: Ctx): Table {
    Table(map r: int, c: int | 0 <= r < |ctx.confs| && 0 <= c < Width(ctx, r) :: Slot(r, c) := [],
          map r: int, c: int | 0 <= r < |ctx.confs| && 0 <= c < Width(ctx, r) :: Slot(r, c) := 0,
          seq(|ctx.confs|, _ => -1), [])
  }

  lemma EmptyTableAgrees(ctx: Ctx, modes: set<Mode>)
    ensures Agrees(ctx, EmptyTable(ctx), [])
    ensures AllArbitrated(ctx, EmptyTable(ctx), modes)
  {
    var t := EmptyTable(ctx);
    forall s ensures s in t.lists <==> ValidSlot(ctx, s) {
      assert s == Slot(s.row, s.col);
    }
    forall s ensures s in t.ranks <==> ValidSlot(ctx, s) {
      assert s == Slot(s.row, s.col);
    }
  }

  // The four levels of an instance lie next to each other and all exist as soon
  // as one does.
  lemma InstanceIsWhole(ctx: Ctx, res: Resource, prio: int, s: Slot)
    requires Target(ctx, res, prio) == Some(s) && Level(prio)
    ensures s.col - prio == SecondaryIndex(ctx, s.row, res, 0)
    ensures forall q :: Level(q) ==> ValidSlot(ctx, Slot(s.row, s.col - prio + q))
  {
    var base := s.col - prio;
    var width := Width(ctx, s.row);
    match ctx.confs[s.row].applyType
    case ApplyGlobal =>
    case ApplyCore => WholeBlock(res.CoreValue(), ctx.cores, prio);
    case ApplyCluster => WholeBlock(FlatIndex(ctx.clusterMap, res.ClusterValue()), ctx.clusters, prio);
    case ApplyCGroup => WholeBlock(FlatIndex(ctx.cgroupMap, res.ValueAt(0)), ctx.cgroups, prio);
  }

  lemma WholeBlock(k: int, n: nat, prio: int)
    requires Level(prio) && 0 <= k * TOTAL_PRIORITIES + prio < TOTAL_PRIORITIES * n
    ensures 0 <= k < n
  {
  }
}
