// The intrusive doubly linked lists. A node carries two pairs of links: linker 0
// chains the entries of one request, linker 1 the entries of one table slot.

module DLManagers {
  import opened Types
  import opened ListOrder

  const REQUEST_LINKER := 0
  const COCO_TABLE_LINKER := 1

  datatype ErrCode = Success | InvalidValue | BadArg

  datatype InsertOption = InsertStart | InsertEnd | InsertNNodeStart

  // One link for each of the two linkers; any other linker has none.
  datatype Links = Links(request: Node?, slot: Node?) {
    function Get(linker: int): Node? {
      if linker == REQUEST_LINKER then request else if linker == COCO_TABLE_LINKER then slot else null
    }

    function Set(linker: int, node: Node?): Links {
      if linker == REQUEST_LINKER then Links(node, slot)
      else if linker == COCO_TABLE_LINKER then Links(request, node)
      else this
    }
  }

  class Node {
    const item: Item
    var next: Links
    var prev: Links

    constructor (item: Item)
      ensures this.item == item
      ensures next == prev == Links(null, null)
    {
      this.item := item;
      next, prev := Links(null, null), Links(null, null);
    }

    function GetNextPtr(linker: int): Node?
      reads this
    {
      next.Get(linker)
    }

    function GetPrevPtr(linker: int): Node?
      reads this
    {
      prev.Get(linker)
    }

    method SetNextLinkage(linker: int, node: Node?)
      modifies this`next
      ensures next == old(next).Set(linker, node)
    {
      next := next.Set(linker, node);
    }

    method SetPrevLinkage(linker: int, node: Node?)
      modifies this`prev
      ensures prev == old(prev).Set(linker, node)
    {
      prev := prev.Set(linker, node);
    }
  }

  // The entries of a chain of nodes.
  function Items(s: seq<Node>): (r: seq<Item>)
    ensures |r| == |s|
    ensures forall i :: 0 <= i < |s| ==> r[i] == s[i].item
  {
    seq(|s|, i requires 0 <= i < |s| => s[i].item)
  }

  function At(s: seq<Node>, i: int): Node? {
    if 0 <= i < |s| then s[i] else null
  }

  ghost predicate Linked(n: Node, l: int, after: Node?, before: Node?)
    reads n
  {
    n.next.Get(l) == after && n.prev.Get(l) == before
  }

  ghost predicate LinkedAt(s: seq<Node>, l: int, i: nat)
    requires i < |s|
    reads s
  {
    Linked(s[i], l, At(s, i + 1), At(s, i - 1))
  }

  // The nodes are pairwise distinct, the next links lead from each to its
  // successor, and the prev links mirror them.
  ghost predicate Chained(s: seq<Node>, l: int)
    reads s
  {
    && (forall i :: 0 <= i < |s| ==> LinkedAt(s, l, i))
    && NoDup(s)
  }

  // The links of the other list a node may be on.
  twostate predicate OtherLinksKept(n: Node, l: int)
    requires 0 <= l < 2
    reads n
  {
    n.next.Get(1 - l) == old(n.next).Get(1 - l) && n.prev.Get(1 - l) == old(n.prev).Get(1 - l)
  }

  // The links at position i of s once x has been tied in before position k.
  ghost predicate LinkedInAt(s: seq<Node>, l: int, k: nat, x: Node, i: nat)
    requires i < |s|
    reads s
  {
    Linked(s[i], l, if i + 1 == k then x else At(s, i + 1), if i == k then x else At(s, i - 1))
  }

  // The links at position i of s once the node at position k has been taken out.
  ghost predicate LinkedOutAt(s: seq<Node>, l: int, k: nat, i: nat)
    requires i < |s|
    reads s
  {
    Linked(s[i], l, if i + 1 == k then At(s, k + 1) else At(s, i + 1), if i == k + 1 then At(s, k - 1)
           else At(s, i - 1))
  }

  lemma SpliceKeepsNoDup(s: seq<Node>, k: nat, x: Node)
    requires k <= |s| && x !in s && NoDup(s)
    ensures NoDup(SpliceAt(s, k, x))
  {
    var r := SpliceAt(s, k, x);
    forall i, j | 0 <= i < j < |r| ensures r[i] != r[j] {
      var i', j' := if i < k then i else i - 1, if j < k then j else j - 1;
      assert i != k ==> r[i] == s[i'];
      assert j != k ==> r[j] == s[j'];
    }
  }

  lemma LinkedInChain(s: seq<Node>, l: int, k: nat, x: Node)
    requires k <= |s| && x !in s && NoDup(s)
    requires Linked(x, l, At(s, k), At(s, k - 1))
    requires forall i :: 0 <= i < |s| ==> LinkedInAt(s, l, k, x, i)
    ensures Chained(SpliceAt(s, k, x), l)
  {
    var r := SpliceAt(s, k, x);
    SpliceKeepsNoDup(s, k, x);
    forall i | 0 <= i < |r| ensures LinkedAt(r, l, i) {
      if i < k {
        assert LinkedInAt(s, l, k, x, i);
      } else if i > k {
        assert LinkedInAt(s, l, k, x, i - 1);
      }
    }
  }

  lemma CutKeepsNoDup(s: seq<Node>, k: nat)
    requires k < |s| && NoDup(s)
    ensures NoDup(s[..k] + s[k + 1..])
    ensures s[k] !in s[..k] + s[k + 1..]
  {
  }

  lemma LinkedOutChain(s: seq<Node>, l: int, k: nat)
    requires k < |s| && NoDup(s)
    requires forall i :: 0 <= i < |s| ==> LinkedOutAt(s, l, k, i)
    ensures Chained(s[..k] + s[k + 1..], l)
  {
    var r := s[..k] + s[k + 1..];
    CutKeepsNoDup(s, k);
    forall i | 0 <= i < |r| ensures LinkedAt(r, l, i) {
      if i < k {
        assert LinkedOutAt(s, l, k, i);
      } else {
        assert LinkedOutAt(s, l, k, i + 1);
      }
    }
  }

  class DLManager {
    const linkerInUse: int
    var head: Node?
    var tail: Node?
    var size: int
    var rank: int
    ghost var nodes: seq<Node>

    ghost predicate Valid()
      reads this, nodes
    {
      && 0 <= linkerInUse < 2
      && Chained(nodes, linkerInUse)
      && head == At(nodes, 0)
      && tail == At(nodes, |nodes| - 1)
      && size == |nodes|
    }

    constructor (linker: int)
      requires 0 <= linker < 2
      ensures Valid() && linkerInUse == linker && nodes == [] && rank == 0
    {
      linkerInUse := linker;
      head, tail := null, null;
      size, rank := 0, 0;
      nodes := [];
    }

    function GetLen(): int
      reads this
    {
      size
    }

    // Appends.
    method Insert(node: Node?) returns (rc: ErrCode)
      requires Valid() && (node != null ==> node !in nodes)
      modifies this`head, this`tail, this`size, this`nodes, nodes, if node == null then {} else {node}
      ensures Valid()
      ensures rc == if node == null then InvalidValue else Success
      ensures nodes == if node == null then old(nodes) else SpliceAt(old(nodes), |old(nodes)|, node)
      ensures forall n :: n in nodes ==> OtherLinksKept(n, linkerInUse)
    {
      if node == null {
        return InvalidValue;
      }
      var last := tail;
      if last != null {
        tail := node;
        node.SetNextLinkage(linkerInUse, null);
        node.SetPrevLinkage(linkerInUse, last);
        last.SetNextLinkage(linkerInUse, node);
      } else {
        head := node;
        tail := node;
        node.SetNextLinkage(linkerInUse, null);
        node.SetPrevLinkage(linkerInUse, null);
      }
      size := size + 1;
      forall i | 0 <= i < |nodes| ensures LinkedInAt(nodes, linkerInUse, |nodes|, node, i) {
        assert old(LinkedAt(nodes, linkerInUse, i));
      }
      LinkedInChain(nodes, linkerInUse, |nodes|, node);
      nodes := SpliceAt(nodes, |nodes|, node);
      return Success;
    }

    method InsertAtStart(node: Node) returns (rc: ErrCode)
      requires Valid() && node !in nodes
      modifies this`head, this`tail, this`size, this`nodes, nodes, node
      ensures Valid() && rc == Success
      ensures nodes == SpliceAt(old(nodes), 0, node)
      ensures forall n :: n in nodes ==> OtherLinksKept(n, linkerInUse)
    {
      var first := head;
      if first != null {
        head := node;
        node.SetNextLinkage(linkerInUse, first);
        node.SetPrevLinkage(linkerInUse, null);
        first.SetPrevLinkage(linkerInUse, node);
      } else {
        node.SetPrevLinkage(linkerInUse, null);
        node.SetNextLinkage(linkerInUse, null);
        head := node;
        tail := node;
      }
      size := size + 1;
      forall i | 0 <= i < |nodes| ensures LinkedInAt(nodes, linkerInUse, 0, node, i) {
        assert old(LinkedAt(nodes, linkerInUse, i));
      }
      LinkedInChain(nodes, linkerInUse, 0, node);
      nodes := SpliceAt(nodes, 0, node);
      return Success;
    }

    // Makes node the n-th node counting from 1; position 0 also means the start.
    method InsertAtNth(node: Node, n: int) returns (rc: ErrCode)
      requires Valid() && node !in nodes
      modifies this`head, this`tail, this`size, this`nodes, nodes, node
      ensures Valid()
      ensures rc == if 0 <= n <= |old(nodes)| + 1 then Success else BadArg
      ensures nodes == if rc == BadArg then old(nodes) else SpliceAt(old(nodes), if n == 0 then 0 else n - 1, node)
      ensures forall m :: m in nodes ==> OtherLinksKept(m, linkerInUse)
    {
      if n < 0 {
        return BadArg;
      }
      if n == 0 {
        rc := InsertAtStart(node);
        return;
      }
      if n == GetLen() + 1 {
        rc := Insert(node);
        return;
      }
      if n > GetLen() {
        return BadArg;
      }
      var pos, cur := 1, head;
      while cur != null
        invariant 1 <= pos <= n
        invariant cur == nodes[pos - 1]
        decreases n - pos
      {
        if pos == n {
          break;
        }
        assert LinkedAt(nodes, linkerInUse, pos - 1);
        cur := cur.GetNextPtr(linkerInUse);
        pos := pos + 1;
      }
      assert LinkedAt(nodes, linkerInUse, n - 1);
      var before := cur.GetPrevPtr(linkerInUse);
      if before == null {
        rc := InsertAtStart(node);
        return;
      }
      LinkBetween(node, before, cur, n - 1);
      return Success;
    }

    method LinkBetween(node: Node, before: Node, cur: Node, ghost k: nat)
      requires Valid() && node !in nodes && 0 < k < |nodes| && nodes[k] == cur && nodes[k - 1] == before
      modifies this`size, this`nodes, nodes, node
      ensures Valid()
      ensures nodes == SpliceAt(old(nodes), k, node)
      ensures forall n :: n in nodes ==> OtherLinksKept(n, linkerInUse)
    {
      before.SetNextLinkage(linkerInUse, node);
      node.SetPrevLinkage(linkerInUse, before);
      cur.SetPrevLinkage(linkerInUse, node);
      node.SetNextLinkage(linkerInUse, cur);
      size := size + 1;
      forall i | 0 <= i < |nodes| ensures LinkedInAt(nodes, linkerInUse, k, node, i) {
        assert old(LinkedAt(nodes, linkerInUse, i));
      }
      LinkedInChain(nodes, linkerInUse, k, node);
      nodes := SpliceAt(nodes, k, node);
    }

    method InsertWithOption(node: Node?, option: InsertOption, n: int) returns (rc: ErrCode)
      requires Valid() && (node != null ==> node !in nodes)
      modifies this`head, this`tail, this`size, this`nodes, nodes, if node == null then {} else {node}
      ensures Valid()
      ensures rc == if node == null then InvalidValue
                    else if option == InsertNNodeStart && !(0 <= n <= |old(nodes)| + 1) then BadArg else Success
      ensures rc != Success ==> nodes == old(nodes)
      ensures rc == Success ==>
                nodes == SpliceAt(old(nodes), if option == InsertEnd then |old(nodes)|
                                              else if option == InsertStart || n == 0 then 0 else n - 1, node)
      ensures forall m :: m in nodes ==> OtherLinksKept(m, linkerInUse)
    {
      if node == null {
        return InvalidValue;
      }
      match option
      case InsertStart => rc := InsertAtStart(node);
      case InsertEnd => rc := Insert(node);
      case InsertNNodeStart => rc := InsertAtNth(node, n);
    }

    // Inserts in front of the first node the policy holds of, or at the end.
    method InsertWithPolicy(node: Node?, policy: DLPolicy) returns (rc: ErrCode)
      requires Valid() && (node != null ==> node !in nodes)
      modifies this`head, this`tail, this`size, this`nodes, nodes, if node == null then {} else {node}
      ensures Valid()
      ensures rc == if node == null then InvalidValue else Success
      ensures nodes == if node == null then old(nodes)
                       else SpliceAt(old(nodes), FirstHold(Items(old(nodes)), node.item, policy), node)
      ensures forall n :: n in nodes ==> OtherLinksKept(n, linkerInUse)
    {
      if node == null {
        return InvalidValue;
      }
      var cur := head;
      ghost var k := 0;
      while cur != null
        invariant 0 <= k <= |nodes| && cur == At(nodes, k)
        invariant forall i :: 0 <= i < k ==> !policy(node.item, nodes[i].item)
        decreases |nodes| - k
      {
        if policy(node.item, cur.item) {
          break;
        }
        assert LinkedAt(nodes, linkerInUse, k);
        cur := cur.GetNextPtr(linkerInUse);
        k := k + 1;
      }
      FirstHoldIs(Items(nodes), node.item, policy, k);
      if cur != null {
        LinkBefore(node, cur, k);
      } else {
        rc := Insert(node);
        return;
      }
      return Success;
    }

    method LinkBefore(node: Node, cur: Node, ghost k: nat)
      requires Valid() && node !in nodes && k < |nodes| && nodes[k] == cur
      modifies this`head, this`size, this`nodes, nodes, node
      ensures Valid()
      ensures nodes == SpliceAt(old(nodes), k, node)
      ensures forall n :: n in nodes ==> OtherLinksKept(n, linkerInUse)
    {
      assert LinkedAt(nodes, linkerInUse, k);
      if cur.GetPrevPtr(linkerInUse) == null {
        LinkAtHead(node, cur);
      } else {
        LinkBetween(node, cur.GetPrevPtr(linkerInUse), cur, k);
      }
    }

    method LinkAtHead(node: Node, cur: Node)
      requires Valid() && node !in nodes && nodes != [] && nodes[0] == cur
      modifies this`head, this`size, this`nodes, nodes, node
      ensures Valid()
      ensures nodes == SpliceAt(old(nodes), 0, node)
      ensures forall n :: n in nodes ==> OtherLinksKept(n, linkerInUse)
    {
      node.SetNextLinkage(linkerInUse, cur);
      node.SetPrevLinkage(linkerInUse, null);
      cur.SetPrevLinkage(linkerInUse, node);
      head := node;
      size := size + 1;
      forall i | 0 <= i < |nodes| ensures LinkedInAt(nodes, linkerInUse, 0, node, i) {
        assert old(LinkedAt(nodes, linkerInUse, i));
      }
      LinkedInChain(nodes, linkerInUse, 0, node);
      nodes := SpliceAt(nodes, 0, node);
    }

    // The caller passes a node of this list.
    method DeleteNode(node: Node?, ghost k: nat) returns (rc: ErrCode)
      requires Valid() && (node != null ==> k < |nodes| && nodes[k] == node)
      modifies this`head, this`tail, this`size, this`nodes, nodes
      ensures Valid()
      ensures rc == if node == null then InvalidValue else Success
      ensures nodes == if node == null then old(nodes) else old(nodes)[..k] + old(nodes)[k + 1..]
      ensures forall n :: n in old(nodes) ==> OtherLinksKept(n, linkerInUse)
    {
      if node == null {
        return InvalidValue;
      }
      assert LinkedAt(nodes, linkerInUse, k);
      var before, after := node.GetPrevPtr(linkerInUse), node.GetNextPtr(linkerInUse);
      Bypass(before, after, k);
      size := size - 1;
      forall i | 0 <= i < |nodes| ensures LinkedOutAt(nodes, linkerInUse, k, i) {
        assert old(LinkedAt(nodes, linkerInUse, i));
      }
      LinkedOutChain(nodes, linkerInUse, k);
      nodes := nodes[..k] + nodes[k + 1..];
      return Success;
    }

    // Joins the two neighbours of the node at position k, either of which may
    // be missing.
    method Bypass(before: Node?, after: Node?, ghost k: nat)
      requires Valid() && k < |nodes| && before == At(nodes, k - 1) && after == At(nodes, k + 1)
      modifies this`head, this`tail, nodes
      ensures head == if k == 0 then after else old(head)
      ensures tail == if k == |nodes| - 1 then before else old(tail)
      ensures forall i :: 0 <= i < |nodes| ==>
                && nodes[i].next == (if i == k - 1 then old(nodes[i].next).Set(linkerInUse, after)
                                     else old(nodes[i].next))
                && nodes[i].prev == (if i == k + 1 then old(nodes[i].prev).Set(linkerInUse, before)
                                     else old(nodes[i].prev))
    {
      if before != null {
        before.SetNextLinkage(linkerInUse, after);
      } else {
        head := after;
        if head == null {
          tail := null;
        }
      }
      if after != null {
        after.SetPrevLinkage(linkerInUse, before);
      } else {
        tail := before;
        if tail == null {
          head := null;
        }
      }
    }

    method IsNodeNth(n: int, node: Node) returns (r: bool)
      requires Valid()
      ensures r == (At(nodes, n) == node)
    {
      var position, cur := 0, head;
      while cur != null
        invariant 0 <= position <= |nodes| && cur == At(nodes, position)
        invariant n < 0 || position <= n
        decreases |nodes| - position
      {
        if position == n {
          return cur == node;
        }
        assert LinkedAt(nodes, linkerInUse, position);
        cur := cur.GetNextPtr(linkerInUse);
        position := position + 1;
      }
      return false;
    }

    // Two lists match when they have the same length and the comparison holds
    // position by position; without a comparison the nodes must be the same.
    method MatchAgainst(target: DLManager?, cmp: Option<DLPolicy>) returns (r: bool)
      requires Valid() && (target != null ==> target.Valid())
      ensures cmp.Some? ==> r == (target != null && Matches(Items(nodes), Items(target.nodes), cmp.value))
      ensures cmp.None? ==> r == (target != null && nodes == target.nodes)
    {
      if target == null || GetLen() != target.GetLen() {
        return false;
      }
      var src, dst := head, target.head;
      ghost var k := 0;
      while src != null && dst != null
        invariant 0 <= k <= |nodes| == |target.nodes|
        invariant src == At(nodes, k) && dst == At(target.nodes, k)
        invariant forall i :: 0 <= i < k ==> Same(cmp, nodes[i], target.nodes[i])
        decreases |nodes| - k
      {
        if !Same(cmp, src, dst) {
          return false;
        }
        assert LinkedAt(nodes, linkerInUse, k) && LinkedAt(target.nodes, target.linkerInUse, k);
        src := src.GetNextPtr(linkerInUse);
        dst := dst.GetNextPtr(target.linkerInUse);
        k := k + 1;
      }
      return src == null && dst == null;
    }

    method AddToRank(delta: int)
      requires Valid()
      modifies this`rank
      ensures Valid() && rank == old(rank) + delta
    {
      rank := rank + delta;
    }
  }

  predicate Same(cmp: Option<DLPolicy>, a: Node, b: Node) {
    if cmp.None? then a == b else cmp.value(a.item, b.item)
  }

  predicate Matches(a: seq<Item>, b: seq<Item>, cmp: DLPolicy) {
    |a| == |b| && forall i :: 0 <= i < |a| ==> cmp(a[i], b[i])
  }

  lemma {:induction false} FirstHoldIs(s: seq<Item>, x: Item, cmp: DLPolicy, k: nat)
    requires k <= |s| && (forall i :: 0 <= i < k ==> !cmp(x, s[i])) && (k < |s| ==> cmp(x, s[k]))
    ensures FirstHold(s, x, cmp) == k
  {
    if k > 0 {
      FirstHoldIs(s[1..], x, cmp, k - 1);
    }
  }

  // An operation on one linker leaves every list of the other linker intact,
  // even though they share the nodes.
  twostate lemma OtherListKept(d: DLManager)
    requires old(d.Valid()) && unchanged(d)
    requires forall n :: n in d.nodes ==> OtherLinksKept(n, 1 - d.linkerInUse)
    ensures d.Valid() && d.nodes == old(d.nodes)
  {
    forall i | 0 <= i < |d.nodes| ensures LinkedAt(d.nodes, d.linkerInUse, i) {
      assert old(LinkedAt(d.nodes, d.linkerInUse, i));
      assert d.nodes[i] in d.nodes;
      assert OtherLinksKept(d.nodes[i], 1 - d.linkerInUse);
    }
  }

  // A list none of whose nodes were touched is still well formed.
  twostate lemma UntouchedStaysValid(d: DLManager)
    requires old(d.Valid()) && unchanged(d)
    requires forall n :: n in d.nodes ==> n.next == old(n.next) && n.prev == old(n.prev)
    ensures d.Valid()
  {
    forall i | 0 <= i < |d.nodes| ensures LinkedAt(d.nodes, d.linkerInUse, i) {
      assert old(LinkedAt(d.nodes, d.linkerInUse, i));
      assert d.nodes[i] in d.nodes;
    }
  }
}
