// The concurrency coordinator on the heap: a vector of slot lists per resource,
// the register of applied priorities, and the callbacks issued. Every method is
// proved to do to the lists what the functions of CocoSpec do to values.

module CocoTables {
  import opened Types
  import opened ListOrder
  import opened DLManagers
  import opened CocoSpec

  class Request {
    const priority: int
    var resourceList: DLManager?

    constructor (priority: int)
      ensures this.priority == priority && resourceList == null
    {
      this.priority := priority;
      resourceList := null;
    }

    ghost predicate Valid()
      reads this, resourceList, if resourceList == null then [] else resourceList.nodes
    {
      resourceList != null ==> resourceList.linkerInUse == REQUEST_LINKER && resourceList.Valid()
    }

    ghost function Nodes(): seq<Node>
      reads this, resourceList
    {
      if resourceList == null then [] else resourceList.nodes
    }

    // Appends an entry, creating the list on first use.
    method AddResource(node: Node)
      requires Valid() && node !in Nodes()
      modifies this, resourceList, Nodes(), node
      ensures Valid() && Nodes() == old(Nodes()) + [node]
      ensures old(resourceList) == null ==> fresh(resourceList)
      ensures old(resourceList) != null ==> resourceList == old(resourceList)
      ensures forall n :: n in Nodes() ==> OtherLinksKept(n, REQUEST_LINKER)
    {
      if resourceList == null {
        resourceList := new DLManager(REQUEST_LINKER);
      }
      var rc := resourceList.Insert(node);
      assert SpliceAt(old(Nodes()), |old(Nodes())|, node) == old(Nodes()) + [node];
    }
  }

  // Where each policy puts a node, in terms of the list operations.
  method LinkByPolicy(d: DLManager, node: Node, p: Policy)
    requires d.Valid() && node !in d.nodes && ListManaged(p)
    modifies d`head, d`tail, d`size, d`nodes, d.nodes, node
    ensures d.Valid()
    ensures d.nodes == SpliceAt(old(d.nodes), FirstHold(Items(old(d.nodes)), node.item, Comparator(p)), node)
    ensures forall n :: n in d.nodes ==> OtherLinksKept(n, d.linkerInUse)
  {
    var rc;
    if p == InstantApply {
      FirstHoldIs(Items(d.nodes), node.item, Comparator(p), 0);
      rc := d.InsertWithOption(node, InsertStart, 0);
    } else if p == LazyApply {
      FirstHoldIs(Items(d.nodes), node.item, Comparator(p), |d.nodes|);
      rc := d.Insert(node);
    } else {
      rc := d.InsertWithPolicy(node, Comparator(p));
    }
  }

  // Puts a node on a list under a policy and tells whether it became the head.
  method PutInList(d: DLManager, node: Node, p: Policy) returns (isHead: bool)
    requires d.Valid() && node !in d.nodes && ListManaged(p)
    modifies d`head, d`tail, d`size, d`nodes, d.nodes, node
    ensures d.Valid()
    ensures forall n :: n in d.nodes <==> n in old(d.nodes) || n == node
    ensures Items(d.nodes) == Place(p, Items(old(d.nodes)), node.item)
    ensures isHead == (d.nodes[0] == node)
    ensures forall n :: n in d.nodes ==> OtherLinksKept(n, d.linkerInUse)
  {
    PlaceIsSplice(p, Items(d.nodes), node.item);
    SpliceMembers(d.nodes, FirstHold(Items(d.nodes), node.item, Comparator(p)), node);
    LinkByPolicy(d, node, p);
    isHead := d.IsNodeNth(0, node);
  }

  lemma SpliceMembers(s: seq<Node>, k: nat, x: Node)
    requires k <= |s|
    ensures forall n :: n in SpliceAt(s, k, x) <==> n in s || n == x
    ensures Items(SpliceAt(s, k, x)) == SpliceAt(Items(s), k, x.item)
  {
    assert s == s[..k] + s[k..];
  }

  // Deletes a node from a list and tells whether it was the head.
  method TakeFromList(d: DLManager, node: Node, ghost was: seq<Item>) returns (wasHead: bool)
    requires d.Valid() && node in d.nodes && was == Items(d.nodes) && NoDup(was)
    modifies d`head, d`tail, d`size, d`nodes, d.nodes
    ensures d.Valid()
    ensures forall n :: n in d.nodes <==> n in old(d.nodes) && n != node
    ensures Items(d.nodes) == Without(was, node.item)
    ensures wasHead == (old(d.nodes)[0] == node)
    ensures forall n :: n in old(d.nodes) ==> OtherLinksKept(n, d.linkerInUse)
  {
    wasHead := d.IsNodeNth(0, node);
    ghost var k :| 0 <= k < |d.nodes| && d.nodes[k] == node;
    CutMembers(d.nodes, k);
    WithoutAt(was, k);
    var rc := d.DeleteNode(node, k);
  }

  lemma CutMembers(s: seq<Node>, k: nat)
    requires k < |s| && NoDup(s)
    ensures forall n :: n in s[..k] + s[k + 1..] <==> n in s && n != s[k]
    ensures Items(s[..k] + s[k + 1..]) == Items(s)[..k] + Items(s)[k + 1..]
  {
    CutKeepsNoDup(s, k);
    assert s == s[..k] + [s[k]] + s[k + 1..];
  }

  ghost predicate EmptySlot(rows: seq<seq<DLManager>>, where: map<DLManager, Slot>, i: nat, j: nat)
    requires i < |rows| && j < |rows[i]|
    reads rows[i][j]
  {
    var d := rows[i][j];
    d in where && where[d] == Slot(i, j) && d.linkerInUse == COCO_TABLE_LINKER && d.nodes == [] && d.Valid()
      && d.rank == 0
  }

  method BuildTable(ctx: Ctx) returns (rows: seq<seq<DLManager>>, ghost where: map<DLManager, Slot>)
    ensures |rows| == |ctx.confs|
    ensures forall i :: 0 <= i < |rows| ==> |rows[i]| == Width(ctx, i)
    ensures forall i, j :: 0 <= i < |rows| && 0 <= j < |rows[i]| ==> EmptySlot(rows, where, i, j)
    ensures fresh(where.Keys)
  {
    rows, where := [], map[];
    while |rows| < |ctx.confs|
      invariant |rows| <= |ctx.confs|
      invariant forall i :: 0 <= i < |rows| ==> |rows[i]| == Width(ctx, i)
      invariant forall i, j :: 0 <= i < |rows| && 0 <= j < |rows[i]| ==> EmptySlot(rows, where, i, j)
      invariant fresh(where.Keys)
      decreases |ctx.confs| - |rows|
    {
      var row, w := BuildRow(|rows|, Width(ctx, |rows|));
      ghost var before := rows;
      ghost var was := where;
      rows := rows + [row];
      where := where + w;
      forall i, j | 0 <= i < |rows| && 0 <= j < |rows[i]| ensures EmptySlot(rows, where, i, j) {
        if i < |before| {
          assert EmptySlot(before, was, i, j);
        }
      }
    }
  }

  method BuildRow(i: nat, n: nat) returns (row: seq<DLManager>, ghost where: map<DLManager, Slot>)
    ensures |row| == n && fresh(where.Keys)
    ensures forall j :: 0 <= j < n ==>
              && row[j] in where && where[row[j]] == Slot(i, j) && row[j].linkerInUse == COCO_TABLE_LINKER
              && row[j].nodes == [] && row[j].Valid() && row[j].rank == 0
  {
    row, where := [], map[];
    while |row| < n
      invariant |row| <= n && fresh(where.Keys)
      invariant forall j :: 0 <= j < |row| ==>
                  && row[j] in where && where[row[j]] == Slot(i, j) && row[j].linkerInUse == COCO_TABLE_LINKER
                  && row[j].nodes == [] && row[j].Valid() && row[j].rank == 0
      decreases n - |row|
    {
      var d := new DLManager(COCO_TABLE_LINKER);
      where := where[d := Slot(i, |row|)];
      row := row + [d];
    }
  }

  // The abstract lists and ranks, the slot each node is on, and the node that
  // carries each entry.
  datatype Book = Book(lists: map<Slot, seq<Item>>, ranks: map<Slot, int>, home: map<Node, Slot>,
                       owner: map<Item, Node>) {
    ghost function Enter(s: Slot, items: seq<Item>, node: Node): Book {
      Book(lists[s := items], ranks, home[node := s], owner[node.item := node])
    }

    ghost function Leave(s: Slot, items: seq<Item>, node: Node): Book {
      Book(lists[s := items], ranks, home - {node}, owner)
    }

    ghost function Ranked(s: Slot, r: int): Book {
      this.(ranks := ranks[s := r])
    }
  }

  // The links that make up the requests' own lists.
  datatype OwnLinks = OwnLinks(next: Node?, prev: Node?)

  function OwnOf(n: Node): OwnLinks
    reads n
  {
    OwnLinks(n.GetNextPtr(REQUEST_LINKER), n.GetPrevPtr(REQUEST_LINKER))
  }

  ghost predicate OwnIs(m: map<Node, OwnLinks>, n: Node)
    reads n
  {
    n in m ==> OwnOf(n) == m[n]
  }

  // The requests' own lists are linked as recorded.
  ghost predicate OwnRecorded(m: map<Node, OwnLinks>)
    reads m.Keys
  {
    forall n {:trigger OwnIs(m, n)} :: n in m ==> OwnIs(m, n)
  }

  ghost predicate ChainAt(m: map<Node, OwnLinks>, nodes: seq<Node>, i: int)
    requires 0 <= i < |nodes|
  {
    nodes[i] in m && m[nodes[i]] == OwnLinks(At(nodes, i + 1), At(nodes, i - 1))
  }

  // According to the record, these nodes are chained.
  ghost predicate ChainIn(m: map<Node, OwnLinks>, nodes: seq<Node>) {
    NoDup(nodes) && forall i {:trigger ChainAt(m, nodes, i)} :: 0 <= i < |nodes| ==> ChainAt(m, nodes, i)
  }

  lemma ChainRecorded(m: map<Node, OwnLinks>, list: DLManager)
    requires list.linkerInUse == REQUEST_LINKER && OwnRecorded(m) && ChainIn(m, list.nodes)
    requires list.head == At(list.nodes, 0) && list.tail == At(list.nodes, |list.nodes| - 1)
         && list.size == |list.nodes|
    ensures list.Valid()
  {
    forall i | 0 <= i < |list.nodes| ensures LinkedAt(list.nodes, REQUEST_LINKER, i) {
      assert ChainAt(m, list.nodes, i) && OwnIs(m, list.nodes[i]);
    }
  }

  class CocoTable {
    const ctx: Ctx
    const table: seq<seq<DLManager>>
    var applied: seq<int>
    var log: seq<Callback>

    // Where each manager belongs, and the books.
    ghost const place: map<DLManager, Slot>
    ghost var bk: Book

    ghost predicate Dimensions() {
      && |table| == |ctx.confs|
      && (forall i :: 0 <= i < |table| ==> |table[i]| == Width(ctx, i))
    }

    ghost function Manager(s: Slot): DLManager
      requires Dimensions() && ValidSlot(ctx, s)
    {
      table[s.row][s.col]
    }

    // One empty list for every slot.
    constructor (ctx: Ctx)
      ensures Valid() && this.ctx == ctx && View() == EmptyTable(ctx)
      ensures bk.home == map[] && fresh(place.Keys)
    {
      var rows, where := BuildTable(ctx);
      EmptyTableAgrees(ctx, {});
      ghost var b := Book(EmptyTable(ctx).lists, EmptyTable(ctx).ranks, map[], map[]);
      this.ctx := ctx;
      table := rows;
      place := where;
      bk := b;
      applied := seq(|ctx.confs|, _ => -1);
      log := [];
      new;
      forall t | ValidSlot(ctx, t) ensures SlotOk(bk, t) {
        assert EmptySlot(rows, where, t.row, t.col);
        assert t == Slot(t.row, t.col);
      }
    }

    // According to book b, the list of slot s holds exactly the nodes that
    // belong there.
    ghost predicate SlotBooked(b: Book, s: Slot)
      requires Dimensions() && ValidSlot(ctx, s)
      reads place.Keys
    {
      var d := Manager(s);
      && d in place && place[d] == s
      && d.linkerInUse == COCO_TABLE_LINKER
      && (forall n :: n in d.nodes ==> n in b.home && b.home[n] == s)
      && (forall n :: n in b.home && b.home[n] == s ==> n in d.nodes)
      && s in b.lists && b.lists[s] == Items(d.nodes)
      && s in b.ranks && b.ranks[s] == d.rank
    }

    ghost predicate SlotOk(b: Book, s: Slot)
      requires Dimensions() && ValidSlot(ctx, s)
      reads place.Keys, b.home.Keys
    {
      SlotBooked(b, s) && Manager(s).Valid()
    }

    ghost predicate NodeOk(b: Book, n: Node) {
      n in b.home && ValidSlot(ctx, b.home[n]) && n.item in b.owner && b.owner[n.item] == n
    }

    // Everything except possibly slot s is in order.
    ghost predicate OkExcept(b: Book, s: Option<Slot>)
      reads place.Keys, b.home.Keys
    {
      && Dimensions()
      && (forall t {:trigger SlotOk(b, t)} :: ValidSlot(ctx, t) && Some(t) != s ==> SlotOk(b, t))
      && (forall n {:trigger NodeOk(b, n)} :: n in b.home ==> NodeOk(b, n))
      && (forall t :: t in b.lists <==> ValidSlot(ctx, t))
      && (forall t :: t in b.ranks <==> ValidSlot(ctx, t))
    }

    ghost predicate Valid()
      reads this, place.Keys, bk.home.Keys
    {
      |applied| == |ctx.confs| && OkExcept(bk, None)
    }

    // No node of the table carries this entry.
    ghost predicate Unused(b: Book, node: Node) {
      node !in b.home && forall n :: n in b.home ==> n.item != node.item
    }

    lemma NoDupItems(s: Slot)
      requires Valid() && ValidSlot(ctx, s)
      ensures NoDup(bk.lists[s])
    {
      assert SlotOk(bk, s);
      var d := Manager(s);
      forall i, j | 0 <= i < j < |d.nodes| ensures d.nodes[i].item != d.nodes[j].item {
        assert d.nodes[i] in d.nodes && d.nodes[j] in d.nodes;
        assert NodeOk(bk, d.nodes[i]) && NodeOk(bk, d.nodes[j]);
      }
    }

    // ---- One list ----

    // As long as only the list of slot s and its nodes change, the other slots
    // stay in order.
    twostate lemma OtherSlotsOk(s: Slot)
      requires old(Valid()) && bk == old(bk) && ValidSlot(ctx, s)
      requires forall d :: d in place.Keys && d != Manager(s) ==> unchanged(d)
      requires forall n :: n in bk.home && bk.home[n] != s ==> n.next == old(n.next) && n.prev == old(n.prev)
      ensures OkExcept(bk, Some(s))
    {
      assert old(SlotOk(bk, s));
      forall t | ValidSlot(ctx, t) && t != s ensures SlotOk(bk, t) {
        assert old(SlotOk(bk, t));
        var e := Manager(t);
        assert e != Manager(s);
        assert unchanged(e);
        UntouchedStaysValid(e);
        assert SlotBooked(bk, t);
      }
      forall n | n in bk.home ensures NodeOk(bk, n) {
        assert old(NodeOk(bk, n));
      }
    }

    method PutInSlot(s: Slot, node: Node, p: Policy) returns (isHead: bool)
      requires Valid() && ValidSlot(ctx, s) && ListManaged(p) && Unused(bk, node)
      modifies place.Keys, bk.home.Keys, node
      ensures OkExcept(bk, Some(s))
      ensures var d := Manager(s);
        && d.Valid() && d.rank == old(d.rank)
        && (forall n :: n in d.nodes <==> n in old(d.nodes) || n == node)
        && Items(d.nodes) == Place(p, old(bk.lists[s]), node.item)
        && isHead == (d.nodes[0] == node)
      ensures forall n :: n in bk.home || n == node ==> OtherLinksKept(n, COCO_TABLE_LINKER)
    {
      assert SlotOk(bk, s);
      var d := table[s.row][s.col];
      isHead := PutInList(d, node, p);
      OtherSlotsOk(s);
    }

    // Recording in the book that slot s now also holds node.
    lemma EnterOk(b: Book, s: Slot, node: Node)
      requires OkExcept(b, Some(s)) && ValidSlot(ctx, s) && Unused(b, node)
      requires var d := Manager(s);
        && d in place && place[d] == s && d.linkerInUse == COCO_TABLE_LINKER && d.Valid() && b.ranks[s] == d.rank
        && (forall n :: n in d.nodes ==> n == node || (n in b.home && b.home[n] == s))
        && (forall n :: n in b.home && b.home[n] == s ==> n in d.nodes)
        && node in d.nodes
      ensures OkExcept(b.Enter(s, Items(Manager(s).nodes), node), None)
    {
      var c := b.Enter(s, Items(Manager(s).nodes), node);
      forall t | ValidSlot(ctx, t) ensures SlotOk(c, t) {
        assert t != s ==> SlotOk(b, t);
      }
      forall n | n in c.home ensures NodeOk(c, n) {
        assert n != node ==> NodeOk(b, n);
      }
    }

    method PlaceInSlot(s: Slot, node: Node, p: Policy) returns (isHead: bool, ghost c: Book)
      requires Valid() && ValidSlot(ctx, s) && ListManaged(p) && Unused(bk, node)
      modifies place.Keys, bk.home.Keys, node
      ensures c == bk.Enter(s, Place(p, bk.lists[s], node.item), node) && OkExcept(c, None)
      ensures c.lists[s] != [] && isHead == (c.lists[s][0] == node.item)
      ensures forall n :: n in c.home ==> OtherLinksKept(n, COCO_TABLE_LINKER)
    {
      assert SlotOk(bk, s);
      isHead := PutInSlot(s, node, p);
      ghost var d := Manager(s);
      assert d.nodes[0] in d.nodes;
      assert d.nodes[0] != node ==> NodeOk(bk, d.nodes[0]);
      c := bk.Enter(s, Items(d.nodes), node);
      EnterOk(bk, s, node);
    }

    method InsertByPolicy(s: Slot, node: Node, p: Policy) returns (isHead: bool)
      requires Valid() && ValidSlot(ctx, s) && ListManaged(p) && Unused(bk, node)
      modifies this`bk, place.Keys, bk.home.Keys, node
      ensures Valid()
      ensures bk == old(bk).Enter(s, Place(p, old(bk).lists[s], node.item), node)
      ensures bk.lists[s] != [] && isHead == (bk.lists[s][0] == node.item)
      ensures forall n :: n in bk.home ==> OtherLinksKept(n, COCO_TABLE_LINKER)
    {
      ghost var c;
      isHead, c := PlaceInSlot(s, node, p);
      bk := c;
    }

    method TakeFromSlot(s: Slot, node: Node) returns (wasHead: bool)
      requires Valid() && ValidSlot(ctx, s) && node in bk.home && bk.home[node] == s
      modifies place.Keys, bk.home.Keys
      ensures OkExcept(bk, Some(s))
      ensures var d := Manager(s);
        && d.Valid() && d.rank == old(d.rank)
        && (forall n :: n in d.nodes <==> n in old(d.nodes) && n != node)
        && Items(d.nodes) == Without(old(bk.lists[s]), node.item)
        && old(d.nodes) != [] && wasHead == (old(d.nodes)[0] == node)
      ensures forall n :: n in bk.home ==> OtherLinksKept(n, COCO_TABLE_LINKER)
    {
      assert SlotOk(bk, s);
      var d := table[s.row][s.col];
      wasHead := TakeFromList(d, node, bk.lists[s]) by {
        NoDupItems(s);
      }
      OtherSlotsOk(s);
    }

    lemma LeaveOk(b: Book, s: Slot, node: Node)
      requires OkExcept(b, Some(s)) && ValidSlot(ctx, s) && node in b.home && b.home[node] == s
      requires var d := Manager(s);
        && d in place && place[d] == s && d.linkerInUse == COCO_TABLE_LINKER && d.Valid() && b.ranks[s] == d.rank
        && (forall n :: n in d.nodes ==> n != node && n in b.home && b.home[n] == s)
        && (forall n :: n in b.home && b.home[n] == s && n != node ==> n in d.nodes)
      ensures OkExcept(b.Leave(s, Items(Manager(s).nodes), node), None)
    {
      var c := b.Leave(s, Items(Manager(s).nodes), node);
      forall t | ValidSlot(ctx, t) ensures SlotOk(c, t) {
        assert t != s ==> SlotOk(b, t);
      }
      forall n | n in c.home ensures NodeOk(c, n) {
        assert NodeOk(b, n);
      }
    }

    method LiftFromSlot(s: Slot, node: Node) returns (wasHead: bool, ghost c: Book)
      requires Valid() && ValidSlot(ctx, s) && node in bk.home && bk.home[node] == s
      modifies place.Keys, bk.home.Keys
      ensures c == bk.Leave(s, Without(bk.lists[s], node.item), node) && OkExcept(c, None)
      ensures bk.lists[s] != [] && wasHead == (bk.lists[s][0] == node.item)
      ensures forall n :: n in bk.home ==> OtherLinksKept(n, COCO_TABLE_LINKER)
    {
      assert SlotOk(bk, s);
      ghost var d := Manager(s);
      assert d.nodes[0] in d.nodes;
      assert NodeOk(bk, d.nodes[0]) && NodeOk(bk, node);
      wasHead := TakeFromSlot(s, node);
      c := bk.Leave(s, Items(d.nodes), node);
      LeaveOk(bk, s, node);
    }

    method RemoveNode(s: Slot, node: Node) returns (wasHead: bool)
      requires Valid() && ValidSlot(ctx, s) && node in bk.home && bk.home[node] == s
      modifies this`bk, place.Keys, bk.home.Keys
      ensures Valid()
      ensures bk == old(bk).Leave(s, Without(old(bk).lists[s], node.item), node)
      ensures old(bk).lists[s] != [] && wasHead == (old(bk).lists[s][0] == node.item)
      ensures forall n :: n in old(bk).home ==> OtherLinksKept(n, COCO_TABLE_LINKER)
    {
      ghost var c;
      wasHead, c := LiftFromSlot(s, node);
      bk := c;
    }

    method AddRank(s: Slot, delta: int) returns (rank: int)
      requires Valid() && ValidSlot(ctx, s)
      modifies this`bk, Manager(s)`rank
      ensures Valid()
      ensures bk == old(bk).Ranked(s, old(bk).ranks[s] + delta) && rank == bk.ranks[s]
    {
      ghost var c;
      rank, c := ChangeRank(s, delta);
      bk := c;
    }

    method ChangeRank(s: Slot, delta: int) returns (rank: int, ghost c: Book)
      requires Valid() && ValidSlot(ctx, s)
      modifies Manager(s)`rank
      ensures rank == bk.ranks[s] + delta && c == bk.Ranked(s, rank) && OkExcept(c, None)
    {
      assert SlotOk(bk, s);
      var d := table[s.row][s.col];
      d.AddToRank(delta);
      rank := d.rank;
      c := bk.Ranked(s, rank);
      forall t | ValidSlot(ctx, t) ensures SlotOk(c, t) {
        assert old(SlotOk(bk, t));
        if t != s {
          assert Manager(t) != d;
          UntouchedStaysValid(Manager(t));
        }
      }
      forall n | n in c.home ensures NodeOk(c, n) {
        assert NodeOk(bk, n);
      }
    }

    // ---- The register and the callbacks ----

    ghost function View(): Table
      reads this
    {
      Table(bk.lists, bk.ranks, applied, log)
    }

    lemma HasShape()
      requires Valid()
      ensures Shape(ctx, View())
    {
    }

    method ApplyToHardware(mode: Mode, node: Node, row: int, prio: int)
      requires Shape(ctx, View()) && 0 <= row < |ctx.confs|
      modifies this`applied, this`log
      ensures View() == ApplyAction(ctx, mode, old(View()), row, node.item, prio)
    {
      if applied[row] >= prio || applied[row] == -1 {
        if mode in ctx.confs[row].modes {
          log := log + [Apply(row, node.item)];
          applied := applied[row := prio];
        }
      }
    }

    method FastPath(mode: Mode, node: Node, row: int)
      requires 0 <= row < |ctx.confs|
      modifies this`log
      ensures View() == FastPathApply(ctx, mode, old(View()), row, node.item)
    {
      if mode in ctx.confs[row].modes {
        log := log + [Apply(row, node.item)];
      }
    }

    // The slot an entry is looked up at, None if the coordinator skips it.
    method Locate(res: Resource, prio: int) returns (r: Option<Slot>)
      requires Dimensions()
      ensures r == Target(ctx, res, prio)
    {
      if res.skip || res.code !in ctx.sil {
        return None;
      }
      var row := ctx.sil[res.code];
      if row < 0 || row >= |table| {
        return None;
      }
      var col := SecondaryIndex(ctx, row, res, prio);
      if col < 0 || col >= |table[row]| {
        return None;
      }
      return Some(Slot(row, col));
    }

    // ---- One entry ----

    method InsertListed(mode: Mode, s: Slot, node: Node, prio: int, ghost t: Table)
      requires Valid() && Unused(bk, node) && ValidSlot(ctx, s) && ListManaged(PolicyOf(ctx, s))
      requires Target(ctx, node.item.res, prio) == Some(s) && t == View() && Shape(ctx, t)
      modifies this`bk, this`applied, this`log, place.Keys, bk.home.Keys, node
      ensures Valid()
      ensures View() == InsertOne(ctx, mode, t, node.item, prio)
      ensures bk.home == old(bk).home[node := s]
      ensures forall n :: n in old(bk).home || n == node ==> OtherLinksKept(n, COCO_TABLE_LINKER)
    {
      var isHead := InsertByPolicy(s, node, ctx.confs[s.row].policy);
      ghost var u := View();
      InsertOneListed(ctx, mode, t, node.item, prio, s, bk.lists[s], u);
      if isHead {
        ApplyToHardware(mode, node, s.row, prio);
      }
    }

    method InsertRanked(mode: Mode, s: Slot, node: Node, prio: int, ghost t: Table)
      requires Valid() && ValidSlot(ctx, s) && PolicyOf(ctx, s) == PassThrough
      requires Target(ctx, node.item.res, prio) == Some(s) && t == View() && Shape(ctx, t)
      modifies this`bk, this`log, Manager(s)`rank
      ensures Valid()
      ensures View() == InsertOne(ctx, mode, t, node.item, prio)
      ensures bk.home == old(bk).home
    {
      InsertOnePassThrough(ctx, mode, t, node.item, prio, s);
      var rank := AddRank(s, 1);
      FastPath(mode, node, s.row);
    }

    // Pass-through resources put no node on a list.
    method InsertPassThrough(mode: Mode, s: Slot, node: Node, prio: int, ghost t: Table)
      requires Valid() && ValidSlot(ctx, s) && !ListManaged(PolicyOf(ctx, s))
      requires Target(ctx, node.item.res, prio) == Some(s) && t == View() && Shape(ctx, t)
      modifies this`bk, this`log, place.Keys
      ensures Valid() && bk.home == old(bk).home
      ensures View() == InsertOne(ctx, mode, t, node.item, prio)
      ensures log == old(log) + if mode in ctx.confs[s.row].modes then [Apply(s.row, node.item)] else []
    {
      PassThroughApplied(ctx, mode, t, node.item, prio, s);
      assert SlotOk(bk, s);
      if ctx.confs[s.row].policy == PassThrough {
        InsertRanked(mode, s, node, prio, t);
      } else {
        FastPath(mode, node, s.row);
      }
    }

    method InsertInCocoTable(mode: Mode, node: Node, prio: int, ghost t: Table) returns (taken: bool)
      requires Valid() && Unused(bk, node) && t == View() && Shape(ctx, t)
      modifies this`bk, this`applied, this`log, place.Keys, bk.home.Keys, node
      ensures Valid()
      ensures View() == InsertOne(ctx, mode, t, node.item, prio)
      ensures taken == Target(ctx, node.item.res, prio).Some?
      ensures var s := Target(ctx, node.item.res, prio);
        s.Some? && !ListManaged(PolicyOf(ctx, s.value)) ==>
          log == old(log) + if mode in ctx.confs[s.value.row].modes then [Apply(s.value.row, node.item)] else []
      ensures var s := Target(ctx, node.item.res, prio);
        if s.Some? && ListManaged(PolicyOf(ctx, s.value)) then
          bk.home == old(bk).home[node := s.value]
        else bk.home == old(bk).home
      ensures forall n :: n in old(bk).home || n == node ==> OtherLinksKept(n, COCO_TABLE_LINKER)
    {
      var slot := Locate(node.item.res, prio);
      if slot == None {
        return false;
      }
      if ListManaged(ctx.confs[slot.value.row].policy) {
        InsertListed(mode, slot.value, node, prio, t);
      } else {
        InsertPassThrough(mode, slot.value, node, prio, t);
      }
      return true;
    }

    // ---- A whole request ----

    // An entry that goes on a slot list.
    predicate Listed(node: Node, prio: int) {
      var s := Target(ctx, node.item.res, prio);
      s.Some? && ListManaged(PolicyOf(ctx, s.value))
    }

    // A request that is in the table has its listed entries on their slots.
    ghost predicate Placed(b: Book, node: Node, prio: int) {
      Listed(node, prio) ==> node in b.home && Target(ctx, node.item.res, prio) == Some(b.home[node])
    }

    ghost predicate AllPlaced(b: Book, nodes: seq<Node>, from: nat, to: nat, prio: int) {
      forall j {:trigger PlacedAt(b, nodes, j, prio)} :: from <= j < to && j < |nodes| ==> PlacedAt(b, nodes, j, prio)
    }

    ghost predicate PlacedAt(b: Book, nodes: seq<Node>, j: int, prio: int)
      requires 0 <= j < |nodes|
    {
      Placed(b, nodes[j], prio)
    }

    ghost predicate PlaceKept(b: Book, c: Book, n: Node) {
      n in b.home ==> n in c.home && c.home[n] == b.home[n]
    }

    // Every node of b still has its place in c.
    ghost predicate HomeKept(b: Book, c: Book) {
      forall n {:trigger PlaceKept(b, c, n)} :: n in b.home ==> PlaceKept(b, c, n)
    }

    // A node new to c is a listed one among those given.
    ghost predicate MayJoin(b: Book, c: Book, nodes: seq<Node>, prio: int, n: Node) {
      n in c.home && n !in b.home ==> n in nodes && Listed(n, prio)
    }

    ghost predicate OnlyJoined(b: Book, c: Book, nodes: seq<Node>, prio: int) {
      forall n {:trigger MayJoin(b, c, nodes, prio, n)} :: n in c.home ==> MayJoin(b, c, nodes, prio, n)
    }

    // Every node of b that is not among the given ones still has its place in c.
    ghost predicate OthersKept(b: Book, c: Book, nodes: seq<Node>) {
      forall n {:trigger PlaceKept(b, c, n)} :: n in b.home && n !in nodes ==> PlaceKept(b, c, n)
    }

    // No node is new to c, and none has changed its place.
    ghost predicate NoneJoined(b: Book, c: Book) {
      forall n {:trigger PlaceKept(c, b, n)} :: n in c.home ==> PlaceKept(c, b, n)
    }

    ghost predicate GoneAt(c: Book, nodes: seq<Node>, j: int, prio: int)
      requires 0 <= j < |nodes|
    {
      Listed(nodes[j], prio) ==> nodes[j] !in c.home
    }

    // The listed ones among the first nodes are gone from c.
    ghost predicate AllGone(c: Book, nodes: seq<Node>, to: nat, prio: int) {
      forall j {:trigger GoneAt(c, nodes, j, prio)} :: 0 <= j < to && j < |nodes| ==> GoneAt(c, nodes, j, prio)
    }

    ghost predicate UnusedAt(b: Book, nodes: seq<Node>, j: int)
      requires 0 <= j < |nodes|
    {
      Unused(b, nodes[j])
    }

    ghost predicate AllUnused(b: Book, nodes: seq<Node>, from: nat) {
      forall j {:trigger UnusedAt(b, nodes, j)} :: from <= j < |nodes| ==> UnusedAt(b, nodes, j)
    }

    // How far the insertion of a request has come: from book b to book c.
    ghost predicate InsertedUpTo(b: Book, c: Book, nodes: seq<Node>, i: nat, prio: int) {
      && AllUnused(c, nodes, i) && AllPlaced(c, nodes, 0, i, prio)
      && HomeKept(b, c) && OnlyJoined(b, c, nodes, prio)
    }

    // What inserting one node has done to the book.
    ghost predicate InsertedNode(b: Book, c: Book, node: Node, prio: int) {
      var s := Target(ctx, node.item.res, prio);
      c.home == if Listed(node, prio) then b.home[node := s.value] else b.home
    }

    lemma InsertedOneMore(b: Book, c: Book, d: Book, nodes: seq<Node>, i: nat, prio: int)
      requires i < |nodes| && NoDup(Items(nodes)) && InsertedUpTo(b, c, nodes, i, prio)
           && InsertedNode(c, d, nodes[i], prio)
      ensures InsertedUpTo(b, d, nodes, i + 1, prio)
    {
      assert UnusedAt(c, nodes, i);
      forall j | i < j < |nodes| ensures UnusedAt(d, nodes, j) {
        assert UnusedAt(c, nodes, j);
        assert Items(nodes)[i] != Items(nodes)[j];
      }
      forall j | 0 <= j < i + 1 ensures PlacedAt(d, nodes, j, prio) {
        assert j < i ==> PlacedAt(c, nodes, j, prio);
      }
      forall n | n in b.home ensures PlaceKept(b, d, n) {
        assert PlaceKept(b, c, n);
      }
      forall n | n in d.home ensures MayJoin(b, d, nodes, prio, n) {
        assert MayJoin(b, c, nodes, prio, n);
      }
    }

    // How far the removal of a request has come.
    ghost predicate RemovedUpTo(b: Book, c: Book, nodes: seq<Node>, i: nat, prio: int) {
      && AllPlaced(c, nodes, i, |nodes|, prio)
      && OthersKept(b, c, nodes) && NoneJoined(b, c) && AllGone(c, nodes, i, prio)
    }

    ghost predicate RemovedNode(b: Book, c: Book, node: Node, prio: int) {
      c.home == if Listed(node, prio) then b.home - {node} else b.home
    }

    lemma RemovedOneMore(b: Book, c: Book, d: Book, nodes: seq<Node>, i: nat, prio: int)
      requires i < |nodes| && NoDup(nodes) && RemovedUpTo(b, c, nodes, i, prio) && RemovedNode(c, d, nodes[i], prio)
      ensures RemovedUpTo(b, d, nodes, i + 1, prio)
    {
      forall j | i < j < |nodes| ensures PlacedAt(d, nodes, j, prio) {
        assert PlacedAt(c, nodes, j, prio) && nodes[i] != nodes[j];
      }
      forall j | 0 <= j < i + 1 ensures GoneAt(d, nodes, j, prio) {
        assert j < i ==> GoneAt(c, nodes, j, prio);
      }
      forall n | n in b.home && n !in nodes ensures PlaceKept(b, d, n) {
        assert PlaceKept(b, c, n);
      }
      forall n | n in d.home ensures PlaceKept(d, b, n) {
        assert PlaceKept(c, b, n);
      }
    }

    // The i-th of the nodes goes into the table.
    method InsertEntry(mode: Mode, iter: Node, prio: int, count: nat, ghost nodes: seq<Node>, ghost i: nat,
                       ghost b: Book, ghost stages: seq<Table>, ghost own: map<Node, OwnLinks>) returns (count': nat)
      requires Valid() && i < |nodes| && iter == nodes[i] && NoDup(Items(nodes)) && OwnRecorded(own)
      requires InsertStages(ctx, mode, stages, Items(nodes), prio) && View() == stages[i]
      requires InsertedUpTo(b, bk, nodes, i, prio) && count == AcceptedUpTo(nodes, i, prio)
      requires iter in own && bk.home.Keys <= own.Keys
      modifies this`bk, this`applied, this`log, place.Keys, own.Keys
      ensures Valid() && OwnRecorded(own) && InsertedUpTo(b, bk, nodes, i + 1, prio)
      ensures View() == stages[i + 1] && count' == AcceptedUpTo(nodes, i + 1, prio)
      ensures bk.home.Keys <= own.Keys
    {
      assert InsertStage(ctx, mode, stages, Items(nodes), prio, i);
      assert UnusedAt(bk, nodes, i);
      var taken := InsertInCocoTable(mode, iter, prio, View());
      count' := count + if taken then 1 else 0;
      forall n | n in own ensures OwnIs(own, n) {
        assert old(OwnIs(own, n));
      }
      InsertedOneMore(b, old(bk), bk, nodes, i, prio);
    }

    // What comes next on the request's own list.
    lemma NextOf(iter: Node, nodes: seq<Node>, i: nat, own: map<Node, OwnLinks>)
      requires i < |nodes| && iter == nodes[i] && OwnRecorded(own) && ChainIn(own, nodes)
      ensures iter.GetNextPtr(REQUEST_LINKER) == At(nodes, i + 1)
    {
      assert ChainAt(own, nodes, i) && OwnIs(own, iter);
    }

    // Iterates over the request's own list while its nodes are being put on
    // the slot lists.
    method InsertNodes(mode: Mode, list: DLManager, prio: int, ghost t: Table, ghost own: map<Node, OwnLinks>)
      returns (count: nat)
      requires Valid() && t == View() && Shape(ctx, t)
      requires list.Valid() && list.linkerInUse == REQUEST_LINKER && list !in place
      requires NoDup(Items(list.nodes)) && AllUnused(bk, list.nodes, 0)
      requires OwnRecorded(own) && ChainIn(own, list.nodes) && bk.home.Keys <= own.Keys
      modifies this`bk, this`applied, this`log, place.Keys, own.Keys
      ensures Valid() && OwnRecorded(own) && bk.home.Keys <= own.Keys
      ensures View() == InsertAll(ctx, mode, t, Items(list.nodes), prio)
      ensures count == Accepted(ctx, Items(list.nodes), prio)
      ensures InsertedUpTo(old(bk), bk, list.nodes, |list.nodes|, prio)
    {
      count := 0;
      var iter := list.head;
      ghost var i, nodes, b := 0, list.nodes, bk;
      NothingInserted(bk, nodes, prio);
      ghost var stages := StagesOfInsert(ctx, mode, t, Items(nodes), prio);
      while iter != null
        invariant 0 <= i <= |nodes| && iter == At(nodes, i)
        invariant Valid() && OwnRecorded(own) && View() == stages[i]
        invariant count == AcceptedUpTo(nodes, i, prio)
        invariant InsertedUpTo(b, bk, nodes, i, prio)
        invariant bk.home.Keys <= own.Keys
        decreases |nodes| - i
      {
        assert ChainAt(own, nodes, i);
        count := InsertEntry(mode, iter, prio, count, nodes, i, b, stages, own);
        NextOf(iter, nodes, i, own);
        iter := iter.GetNextPtr(list.linkerInUse);
        i := i + 1;
      }
      AcceptedAll(nodes, i, prio);
    }

    // How many of the first nodes the table takes.
    ghost function AcceptedUpTo(nodes: seq<Node>, i: nat, prio: int): nat
      requires i <= |nodes|
    {
      if i == 0 then 0
      else AcceptedUpTo(nodes, i - 1, prio) + if Target(ctx, nodes[i - 1].item.res, prio).Some? then 1 else 0
    }

    lemma {:induction false} AcceptedAll(nodes: seq<Node>, i: nat, prio: int)
      requires i <= |nodes|
      ensures AcceptedUpTo(nodes, i, prio) == Accepted(ctx, Items(nodes)[..i], prio)
      ensures i == |nodes| ==> AcceptedUpTo(nodes, i, prio) == Accepted(ctx, Items(nodes), prio)
    {
      if i > 0 {
        AcceptedAll(nodes, i - 1, prio);
        assert Items(nodes)[..i][..i - 1] == Items(nodes)[..i - 1];
      }
      assert Items(nodes)[..|nodes|] == Items(nodes);
    }

    lemma NothingInserted(b: Book, nodes: seq<Node>, prio: int)
      requires AllUnused(b, nodes, 0)
      ensures InsertedUpTo(b, b, nodes, 0, prio)
    {
    }

    // Puts all entries of a request into the table. All requests' own lists,
    // as recorded, stay as they are.
    method InsertRequest(mode: Mode, req: Request?, ghost t: Table, ghost own: map<Node, OwnLinks>) returns (ok: bool)
      requires Valid() && t == View() && Shape(ctx, t) && OwnRecorded(own)
      requires req != null ==> req.Valid() && req.resourceList !in place && ChainIn(own, req.Nodes())
      requires req != null ==> NoDup(Items(req.Nodes())) && AllUnused(bk, req.Nodes(), 0)
      requires bk.home.Keys <= own.Keys
      modifies this`bk, this`applied, this`log, place.Keys, own.Keys
      ensures Valid() && OwnRecorded(own) && bk.home.Keys <= own.Keys
      ensures req != null ==> req.Valid() && req.Nodes() == old(req.Nodes())
      ensures View() == if req == null then t else InsertAll(ctx, mode, t, Items(req.Nodes()), req.priority)
      ensures ok <==> req != null && Accepted(ctx, Items(req.Nodes()), req.priority) > 0
      ensures req == null ==> bk == old(bk)
      ensures req != null ==> InsertedUpTo(old(bk), bk, req.Nodes(), |req.Nodes()|, req.priority)
    {
      if req == null {
        return false;
      }
      if req.resourceList == null {
        NothingInserted(bk, [], req.priority);
        return false;
      }
      var count := InsertNodes(mode, req.resourceList, req.priority, t, own);
      ChainRecorded(own, req.resourceList);
      return count != 0;
    }

    // ---- Removal ----

    method RestoreDefault(node: Node, row: int)
      requires 0 <= row < |applied|
      modifies this`applied, this`log
      ensures applied == old(applied)[row := -1] && log == old(log) + [Tear(row, node.item)]
    {
      log := log + [Tear(row, node.item)];
      applied := applied[row := -1];
    }

    method HeadOf(s: Slot) returns (head: Node?)
      requires Valid() && ValidSlot(ctx, s)
      ensures head == null <==> bk.lists[s] == []
      ensures head != null ==> head.item == bk.lists[s][0]
    {
      assert SlotOk(bk, s);
      head := table[s.row][s.col].head;
    }

    // Looks for the highest level that still has a request.
    method FallBack(mode: Mode, row: int, base: int, node: Node, ghost t: Table)
      requires Valid() && t == View() && Shape(ctx, t) && 0 <= row < |ctx.confs|
      requires forall q :: Level(q) ==> ValidSlot(ctx, Slot(row, base + q))
      modifies this`applied, this`log
      ensures Valid()
      ensures View() == Fallback(ctx, mode, t, row, base, node.item)
    {
      var level := 0;
      while level < TOTAL_PRIORITIES
        invariant 0 <= level <= TOTAL_PRIORITIES && View() == t
        invariant FirstLevel(t, row, base, 0) == FirstLevel(t, row, base, level)
      {
        var s := Slot(row, base + level);
        assert Level(level);
        var head := HeadOf(s);
        assert LevelList(t, row, base, level) == bk.lists[s];
        if head != null {
          applied := applied[row := level];
          ApplyToHardware(mode, head, row, level);
          return;
        }
        level := level + 1;
      }
      RestoreDefault(node, row);
    }

    method RemoveListed(mode: Mode, s: Slot, node: Node, prio: int, ghost t: Table)
      requires Valid() && ValidSlot(ctx, s) && ListManaged(PolicyOf(ctx, s)) && Level(prio)
      requires Target(ctx, node.item.res, prio) == Some(s) && t == View() && Shape(ctx, t)
      requires node in bk.home && bk.home[node] == s
      modifies this`bk, this`applied, this`log, place.Keys, bk.home.Keys
      ensures Valid()
      ensures View() == RemoveOne(ctx, mode, t, node.item, prio)
      ensures bk.home == old(bk).home - {node}
      ensures forall n :: n in old(bk).home ==> OtherLinksKept(n, COCO_TABLE_LINKER)
    {
      assert bk.lists[s] != [] by {
        assert SlotOk(bk, s);
      }
      var wasHead := RemoveNode(s, node);
      RemoveOneListed(ctx, mode, t, node.item, prio, s, bk.lists[s], View());
      Reapply(mode, s, node, prio, wasHead, View());
    }

    // After the deletion: the next head of this list, or of another level.
    method Reapply(mode: Mode, s: Slot, node: Node, prio: int, wasHead: bool, ghost u: Table)
      requires Valid() && ValidSlot(ctx, s) && Level(prio) && u == View() && Shape(ctx, u)
      requires Target(ctx, node.item.res, prio) == Some(s)
      modifies this`applied, this`log
      ensures Valid()
      ensures View() == if u.lists[s] == []
           then Fallback(ctx, mode, u, s.row, SecondaryIndex(ctx, s.row, node.item.res, 0), node.item)
                        else if wasHead then ApplyAction(ctx, mode, u, s.row, u.lists[s][0], prio)
                        else u
    {
      var head := HeadOf(s);
      if head == null {
        InstanceIsWhole(ctx, node.item.res, prio, s);
        FallBack(mode, s.row, SecondaryIndex(ctx, s.row, node.item.res, 0), node, u);
      } else if wasHead {
        ApplyToHardware(mode, head, s.row, prio);
      }
    }

    method RemovePassThrough(mode: Mode, s: Slot, node: Node, prio: int, ghost t: Table)
      requires Valid() && ValidSlot(ctx, s) && !ListManaged(PolicyOf(ctx, s))
      requires Target(ctx, node.item.res, prio) == Some(s) && t == View() && Shape(ctx, t)
      modifies this`bk, this`log, Manager(s)`rank
      ensures Valid()
      ensures View() == RemoveOne(ctx, mode, t, node.item, prio)
      ensures bk.home == old(bk).home
      ensures forall n :: n in old(bk).home ==> OtherLinksKept(n, COCO_TABLE_LINKER)
    {
      RemoveOnePassThrough(ctx, mode, t, node.item, prio, s);
      if ctx.confs[s.row].policy == PassThrough {
        var rank := AddRank(s, -1);
        if rank == 0 {
          log := log + [Tear(s.row, node.item)];
        }
      } else {
        log := log + [Tear(s.row, node.item)];
      }
    }

    method RemoveFromCocoTable(mode: Mode, node: Node, prio: int, ghost t: Table)
      requires Valid() && Level(prio) && Placed(bk, node, prio) && t == View() && Shape(ctx, t)
      modifies this`bk, this`applied, this`log, place.Keys, bk.home.Keys
      ensures Valid()
      ensures View() == RemoveOne(ctx, mode, t, node.item, prio)
      ensures bk.home == if Listed(node, prio) then old(bk).home - {node} else old(bk).home
      ensures forall n :: n in old(bk).home ==> OtherLinksKept(n, COCO_TABLE_LINKER)
    {
      var slot := Locate(node.item.res, prio);
      if slot == None {
        return;
      }
      assert SlotOk(bk, slot.value);
      if ListManaged(ctx.confs[slot.value.row].policy) {
        RemoveListed(mode, slot.value, node, prio, t);
      } else {
        RemovePassThrough(mode, slot.value, node, prio, t);
      }
    }

    // The i-th of the nodes leaves the table.
    method RemoveEntry(mode: Mode, iter: Node, prio: int, ghost nodes: seq<Node>, ghost i: nat, ghost b: Book,
                       ghost stages: seq<Table>, ghost own: map<Node, OwnLinks>)
      requires Valid() && Level(prio) && i < |nodes| && iter == nodes[i] && NoDup(nodes) && OwnRecorded(own)
      requires RemoveStages(ctx, mode, stages, Items(nodes), prio) && View() == stages[i]
      requires RemovedUpTo(b, bk, nodes, i, prio) && bk.home.Keys <= own.Keys
      modifies this`bk, this`applied, this`log, place.Keys, own.Keys
      ensures Valid() && OwnRecorded(own) && RemovedUpTo(b, bk, nodes, i + 1, prio)
      ensures View() == stages[i + 1]
      ensures bk.home.Keys <= own.Keys
    {
      assert RemoveStage(ctx, mode, stages, Items(nodes), prio, i);
      assert PlacedAt(bk, nodes, i, prio);
      RemoveFromCocoTable(mode, iter, prio, View());
      forall n | n in own ensures OwnIs(own, n) {
        assert old(OwnIs(own, n));
      }
      RemovedOneMore(b, old(bk), bk, nodes, i, prio);
    }

    // Iterates over the request's own list while its nodes are being taken off
    // the slot lists; each node is visited once.
    method RemoveNodes(mode: Mode, list: DLManager, prio: int, ghost t: Table, ghost own: map<Node, OwnLinks>)
      requires Valid() && t == View() && Shape(ctx, t) && Level(prio)
      requires list.Valid() && list.linkerInUse == REQUEST_LINKER && list !in place
      requires AllPlaced(bk, list.nodes, 0, |list.nodes|, prio)
      requires OwnRecorded(own) && ChainIn(own, list.nodes) && bk.home.Keys <= own.Keys
      modifies this`bk, this`applied, this`log, place.Keys, own.Keys
      ensures Valid() && OwnRecorded(own) && bk.home.Keys <= own.Keys
      ensures View() == RemoveAll(ctx, mode, t, Items(list.nodes), prio)
      ensures RemovedUpTo(old(bk), bk, list.nodes, |list.nodes|, prio)
    {
      var iter := list.head;
      ghost var i, nodes, b := 0, list.nodes, bk;
      NothingRemoved(bk, nodes, prio);
      ghost var stages := StagesOfRemove(ctx, mode, t, Items(nodes), prio);
      while iter != null
        invariant 0 <= i <= |nodes| && iter == At(nodes, i)
        invariant Valid() && OwnRecorded(own) && View() == stages[i]
        invariant RemovedUpTo(b, bk, nodes, i, prio)
        invariant bk.home.Keys <= own.Keys
        decreases |nodes| - i
      {
        RemoveEntry(mode, iter, prio, nodes, i, b, stages, own);
        NextOf(iter, nodes, i, own);
        iter := iter.GetNextPtr(list.linkerInUse);
        i := i + 1;
      }
    }

    lemma NothingRemoved(b: Book, nodes: seq<Node>, prio: int)
      requires AllPlaced(b, nodes, 0, |nodes|, prio)
      ensures RemovedUpTo(b, b, nodes, 0, prio)
    {
    }

    // Takes all entries of a request out of the table. All requests' own
    // lists, as recorded, stay as they are.
    method RemoveRequest(mode: Mode, req: Request, ghost t: Table, ghost own: map<Node, OwnLinks>)
      requires Valid() && t == View() && Shape(ctx, t) && Level(req.priority) && OwnRecorded(own)
      requires req.Valid() && req.resourceList !in place && AllPlaced(bk, req.Nodes(), 0, |req.Nodes()|, req.priority)
      requires ChainIn(own, req.Nodes()) && bk.home.Keys <= own.Keys
      modifies this`bk, this`applied, this`log, place.Keys, own.Keys
      ensures Valid() && OwnRecorded(own) && bk.home.Keys <= own.Keys && req.Valid() && req.Nodes() == old(req.Nodes())
      ensures View() == RemoveAll(ctx, mode, t, Items(req.Nodes()), req.priority)
      ensures RemovedUpTo(old(bk), bk, req.Nodes(), |req.Nodes()|, req.priority)
    {
      if req.resourceList == null {
        NothingRemoved(bk, [], req.priority);
        return;
      }
      RemoveNodes(mode, req.resourceList, req.priority, t, own);
      ChainRecorded(own, req.resourceList);
    }
  }
}
