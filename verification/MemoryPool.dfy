// The pool of preallocated memory blocks of one size: a queue of free nodes that
// carry a block each, and a stack of spare nodes for the blocks handed out.

module MemoryPools {
  import opened Types

  // ---- The pool as a value ----

  datatype Pool<T(==)> = Pool(free: seq<T>, held: set<T>)

  datatype PoolOp<T> = Get | Free(block: T)

  // Callers free only what they hold; on an empty pool nothing is handed out.
  function PoolStep<T(==)>(p: Pool<T>, op: PoolOp<T>): Pool<T> {
    match op
    case Get => if p.free == [] then p else Pool(p.free[1..], p.held + {p.free[0]})
    case Free(b) => if b in p.held then Pool(p.free + [b], p.held - {b}) else p
  }

  function PoolRun<T(==)>(p: Pool<T>, ops: seq<PoolOp<T>>): Pool<T> {
    if ops == [] then p else PoolStep(PoolRun(p, ops[..|ops| - 1]), ops[|ops| - 1])
  }

  ghost function Elements<T>(s: seq<T>): set<T> {
    set x | x in s
  }

  ghost predicate NotHeld<T>(p: Pool<T>, i: int)
    requires 0 <= i < |p.free|
  {
    p.free[i] !in p.held
  }

  // No block is free twice, or both free and held.
  ghost predicate Sane<T>(p: Pool<T>) {
    NoDup(p.free) && forall i {:trigger NotHeld(p, i)} :: 0 <= i < |p.free| ==> NotHeld(p, i)
  }

  // All blocks the pool knows.
  ghost function Blocks<T>(p: Pool<T>): set<T> {
    Elements(p.free) + p.held
  }

  // Free and held blocks partition the blocks there ever were.
  lemma {:induction false} RunKeepsPartition<T>(p: Pool<T>, ops: seq<PoolOp<T>>)
    requires Sane(p)
    ensures Sane(PoolRun(p, ops)) && Blocks(PoolRun(p, ops)) == Blocks(p)
  {
    if ops != [] {
      RunKeepsPartition(p, ops[..|ops| - 1]);
      StepKeepsPartition(PoolRun(p, ops[..|ops| - 1]), ops[|ops| - 1]);
    }
  }

  lemma StepKeepsPartition<T>(q: Pool<T>, op: PoolOp<T>)
    requires Sane(q)
    ensures Sane(PoolStep(q, op)) && Blocks(PoolStep(q, op)) == Blocks(q)
  {
    if op.Get? && q.free != [] {
      TakeKeepsPartition(q);
    } else if op.Free? && op.block in q.held {
      GiveKeepsPartition(q, op.block);
    }
  }

  lemma TakeKeepsPartition<T>(q: Pool<T>)
    requires Sane(q) && q.free != []
    ensures Sane(PoolStep(q, Get)) && Blocks(PoolStep(q, Get)) == Blocks(q) && q.free[0] !in q.held
    ensures PoolStep(q, Get).free == q.free[1..] && |PoolStep(q, Get).held| == |q.held| + 1
  {
    var r := PoolStep(q, Get);
    assert NotHeld(q, 0);
    assert q.free == [q.free[0]] + r.free;
    forall i | 0 <= i < |r.free| ensures NotHeld(r, i) {
      assert NotHeld(q, i + 1) && q.free[0] != q.free[i + 1];
    }
    forall i, j | 0 <= i < j < |r.free| ensures r.free[i] != r.free[j] {
      assert q.free[i + 1] != q.free[j + 1];
    }
  }

  lemma GiveKeepsPartition<T>(q: Pool<T>, b: T)
    requires Sane(q) && b in q.held
    ensures Sane(PoolStep(q, Free(b))) && Blocks(PoolStep(q, Free(b))) == Blocks(q)
  {
    var r := PoolStep(q, Free(b));
    forall i | 0 <= i < |r.free| ensures NotHeld(r, i) {
      assert i < |q.free| ==> NotHeld(q, i);
    }
    forall i, j | 0 <= i < j < |r.free| ensures r.free[i] != r.free[j] {
      assert j < |q.free| ==> q.free[i] != q.free[j];
      assert NotHeld(q, i);
    }
  }

  lemma NewBlockKeepsSane<T>(q: Pool<T>, b: T)
    requires Sane(q) && b !in Blocks(q)
    ensures Sane(Pool(q.free + [b], q.held)) && Blocks(Pool(q.free + [b], q.held)) == Blocks(q) + {b}
  {
    var r := Pool(q.free + [b], q.held);
    forall i | 0 <= i < |r.free| ensures NotHeld(r, i) {
      assert i < |q.free| ==> NotHeld(q, i);
    }
    forall i, j | 0 <= i < j < |r.free| ensures r.free[i] != r.free[j] {
      assert j < |q.free| ==> q.free[i] != q.free[j];
      assert q.free[i] in q.free;
    }
  }

  function Gets<T>(ops: seq<PoolOp<T>>): nat {
    if ops == [] then 0 else Gets(ops[..|ops| - 1]) + if ops[|ops| - 1].Get? then 1 else 0
  }

  // Blocks are reused in the order they were freed: as long as no more than n
  // blocks have been asked for, the n-th free block is free, and it is the one
  // that the request after that gets.
  lemma {:induction false} FirstFreedFirstReused<T>(p: Pool<T>, ops: seq<PoolOp<T>>, n: nat)
    requires Sane(p) && n < |p.free| && Gets(ops) <= n
    ensures n - Gets(ops) < |PoolRun(p, ops).free|
    ensures PoolRun(p, ops).free[n - Gets(ops)] == p.free[n] && p.free[n] !in PoolRun(p, ops).held
  {
    if ops != [] {
      FirstFreedFirstReused(p, ops[..|ops| - 1], n);
    }
    RunKeepsPartition(p, ops);
    assert NotHeld(PoolRun(p, ops), n - Gets(ops));
  }

  // A freed block is free again behind all others: it is held by no one and is
  // what the request after as many as there were free blocks gets.
  lemma FreedIsReused<T>(p: Pool<T>, b: T, ops: seq<PoolOp<T>>)
    requires Sane(p) && b in p.held && Gets(ops) == |p.free|
    ensures var q := PoolRun(PoolStep(p, Free(b)), ops);
      b !in q.held && q.free != [] && q.free[0] == b && b in PoolStep(q, Get).held
  {
    GiveKeepsPartition(p, b);
    FirstFreedFirstReused(PoolStep(p, Free(b)), ops, |p.free|);
  }

  // ---- The pool in memory ----

  class Block {
    constructor () {
    }
  }

  class MemoryNode {
    var next: MemoryNode?
    var block: Block?

    constructor (block: Block)
      ensures this.block == block && next == null
    {
      this.block, next := block, null;
    }
  }

  function At(s: seq<MemoryNode>, i: int): MemoryNode? {
    if 0 <= i < |s| then s[i] else null
  }

  ghost predicate Chain(s: seq<MemoryNode>)
    reads s
  {
    (forall i :: 0 <= i < |s| ==> NextOk(s, i)) && NoDup(s)
  }

  ghost predicate NextOk(s: seq<MemoryNode>, i: int)
    requires 0 <= i < |s|
    reads s
  {
    s[i].next == At(s, i + 1)
  }

  ghost predicate Carries(s: seq<MemoryNode>, blocks: seq<Block>, i: int)
    requires 0 <= i < |s| && |blocks| == |s|
    reads s
  {
    s[i].block == blocks[i]
  }

  // The free nodes carry these blocks, first to last.
  ghost predicate FreeList(s: seq<MemoryNode>, head: MemoryNode?, tail: MemoryNode?, blocks: seq<Block>)
    reads s
  {
    && Chain(s) && head == At(s, 0) && tail == At(s, |s| - 1)
    && |blocks| == |s|
    && (forall i {:trigger Carries(s, blocks, i)} :: 0 <= i < |s| ==> Carries(s, blocks, i))
  }

  ghost predicate SpareList(s: seq<MemoryNode>, head: MemoryNode?)
    reads s
  {
    Chain(s) && head == At(s, 0)
  }

  ghost predicate ApartAt(a: seq<MemoryNode>, b: seq<MemoryNode>, i: int, j: int)
    requires 0 <= i < |a| && 0 <= j < |b|
  {
    a[i] != b[j]
  }

  // No node is on both lists.
  ghost predicate Apart(a: seq<MemoryNode>, b: seq<MemoryNode>) {
    forall i, j {:trigger ApartAt(a, b, i, j)} :: 0 <= i < |a| && 0 <= j < |b| ==> ApartAt(a, b, i, j)
  }

  lemma OnOneList(a: seq<MemoryNode>, b: seq<MemoryNode>)
    requires Apart(a, b)
    ensures forall i :: 0 <= i < |a| ==> a[i] !in b
    ensures forall j :: 0 <= j < |b| ==> b[j] !in a
  {
    forall i, j | 0 <= i < |a| && 0 <= j < |b| ensures a[i] != b[j] {
      assert ApartAt(a, b, i, j);
    }
  }

  class MemoryPool {
    const blockSize: int
    var freeListHead: MemoryNode?
    var freeListTail: MemoryNode?
    var allocatedListHead: MemoryNode?
    var freeBlocks: int
    ghost var freeNodes: seq<MemoryNode>
    ghost var spareNodes: seq<MemoryNode>
    ghost var contents: Pool<Block>

    ghost predicate Valid()
      reads this, freeNodes, spareNodes
    {
      && Lists(contents.free)
      && |spareNodes| == |contents.held|
      && Sane(contents)
    }

    constructor (blockSize: int)
      ensures Valid() && Excess() == 0 && contents == Pool([], {})
      ensures freeNodes == [] && spareNodes == []
    {
      this.blockSize := blockSize;
      freeListHead, freeListTail, allocatedListHead := null, null, null;
      freeBlocks := 0;
      freeNodes, spareNodes := [], [];
      contents := Pool([], {});
    }

    // Ties a node with its block in behind the last free node.
    method Append(node: MemoryNode, ghost block: Block)
      requires FreeList(freeNodes, freeListHead, freeListTail, contents.free)
      requires node !in freeNodes && node.next == null && node.block == block
      modifies this`freeListHead, this`freeListTail, this`freeNodes, freeNodes
      ensures freeNodes == old(freeNodes) + [node] && node.block == block && node.next == null
      ensures FreeList(freeNodes, freeListHead, freeListTail, contents.free + [block])
    {
      ghost var last := |freeNodes| - 1;
      assert last >= 0 ==> NextOk(freeNodes, last);
      if freeListHead == null {
        freeListHead := node;
        freeListTail := node;
      } else {
        freeListTail.next := node;
        freeListTail := freeListTail.next;
      }
      freeNodes := freeNodes + [node];
      ghost var blocks := contents.free + [block];
      forall i | 0 <= i < |freeNodes| ensures NextOk(freeNodes, i) && Carries(freeNodes, blocks, i) {
        assert i <= last ==> old(NextOk(freeNodes, i)) && old(Carries(freeNodes, contents.free, i));
        assert i < last ==> old(freeNodes)[i] != old(freeNodes)[last];
      }
      forall i, j | 0 <= i < j < |freeNodes| ensures freeNodes[i] != freeNodes[j] {
        assert j <= last ==> old(freeNodes)[i] != old(freeNodes)[j];
      }
    }

    method AddNewNode()
      requires Valid()
      modifies this`freeListHead, this`freeListTail, this`freeNodes, this`contents, freeNodes
      ensures Valid() && spareNodes == old(spareNodes)
      ensures |freeNodes| == |old(freeNodes)| + 1 && freeNodes[..|old(freeNodes)|] == old(freeNodes)
      ensures fresh(freeNodes[|old(freeNodes)|])
      ensures |contents.free| == |old(contents.free)| + 1 && contents.free[..|old(contents.free)|] == old(contents.free)
      ensures fresh(contents.free[|old(contents.free)|]) && contents.held == old(contents.held)
    {
      var block := new Block();
      var node := new MemoryNode(block);
      NotYetThere(block);
      AppendNew(node, block);
    }

    lemma NotYetThere(block: Block)
      requires block !in contents.free && block !in contents.held
      ensures block !in Blocks(contents)
    {
    }

    method AppendNew(node: MemoryNode, ghost block: Block)
      requires Valid() && node !in freeNodes && node !in spareNodes && node.next == null && node.block == block
      requires block !in Blocks(contents)
      modifies this`freeListHead, this`freeListTail, this`freeNodes, this`contents, freeNodes
      ensures Valid() && spareNodes == old(spareNodes)
      ensures freeNodes == old(freeNodes) + [node] && contents == Pool(old(contents.free) + [block], old(contents.held))
    {
      NewBlockKeepsSane(contents, block);
      OnOneList(freeNodes, spareNodes);
      Append(node, block);
      forall i | 0 <= i < |spareNodes| ensures NextOk(spareNodes, i) {
        assert old(NextOk(spareNodes, i));
      }
      forall i, j | 0 <= i < |freeNodes| && 0 <= j < |spareNodes| ensures ApartAt(freeNodes, spareNodes, i, j) {
        assert i < |old(freeNodes)| ==> ApartAt(old(freeNodes), spareNodes, i, j);
        assert spareNodes[j] in spareNodes;
      }
      contents := Pool(contents.free + [block], contents.held);
    }

    // Room is how many nodes the system has memory for.
    method AddNodesToFreeList(blockCount: int, room: nat) returns (allocatedCount: nat)
      requires Valid() && blockCount >= 0
      modifies this`freeListHead, this`freeListTail, this`freeNodes, this`contents, freeNodes
      ensures Valid() && spareNodes == old(spareNodes)
      ensures allocatedCount == if blockCount <= room then blockCount else room
      ensures |contents.free| == |old(contents.free)| + allocatedCount && contents.held == old(contents.held)
      ensures contents.free[..|old(contents.free)|] == old(contents.free)
      ensures forall i :: |old(contents.free)| <= i < |contents.free| ==> fresh(contents.free[i])
      ensures |freeNodes| == |old(freeNodes)| + allocatedCount && freeNodes[..|old(freeNodes)|] == old(freeNodes)
      ensures forall i :: |old(freeNodes)| <= i < |freeNodes| ==> fresh(freeNodes[i])
    {
      allocatedCount := 0;
      while allocatedCount < blockCount
        invariant 0 <= allocatedCount <= blockCount && allocatedCount <= room
        invariant Valid() && spareNodes == old(spareNodes) && contents.held == old(contents.held)
        invariant |contents.free| == |old(contents.free)| + allocatedCount
        invariant contents.free[..|old(contents.free)|] == old(contents.free)
        invariant forall i :: |old(contents.free)| <= i < |contents.free| ==> fresh(contents.free[i])
        invariant |freeNodes| == |old(freeNodes)| + allocatedCount && freeNodes[..|old(freeNodes)|] == old(freeNodes)
        invariant forall i :: |old(freeNodes)| <= i < |freeNodes| ==> fresh(freeNodes[i])
      {
        if allocatedCount == room {
          return;
        }
        AddNewNode();
        allocatedCount := allocatedCount + 1;
      }
    }

    // The counter grows by what was asked for, and so exceeds the free list by
    // what could not be had.
    method MakeAllocation(blockCount: int, room: nat) returns (allocatedCount: nat)
      requires Valid() && blockCount >= 0
      modifies this`freeListHead, this`freeListTail, this`freeNodes, this`contents, this`freeBlocks, freeNodes
      ensures Valid() && spareNodes == old(spareNodes)
      ensures allocatedCount == if blockCount <= room then blockCount else room
      ensures Excess() == old(Excess()) + blockCount - allocatedCount
      ensures |contents.free| == |old(contents.free)| + allocatedCount && contents.held == old(contents.held)
      ensures contents.free[..|old(contents.free)|] == old(contents.free)
      ensures forall i :: |old(contents.free)| <= i < |contents.free| ==> fresh(contents.free[i])
      ensures |freeNodes| == |old(freeNodes)| + allocatedCount && freeNodes[..|old(freeNodes)|] == old(freeNodes)
      ensures forall i :: |old(freeNodes)| <= i < |freeNodes| ==> fresh(freeNodes[i])
    {
      allocatedCount := AddNodesToFreeList(blockCount, room);
      freeBlocks := freeBlocks + blockCount;
    }

    // Takes the first free node off its list.
    method Unlink() returns (memNode: MemoryNode)
      requires FreeList(freeNodes, freeListHead, freeListTail, contents.free) && freeNodes != []
      modifies this`freeListHead, this`freeListTail, this`freeNodes, freeNodes
      ensures memNode == old(freeNodes)[0] && memNode.block == null && memNode.next == null
      ensures freeNodes == old(freeNodes)[1..] && memNode !in freeNodes
      ensures FreeList(freeNodes, freeListHead, freeListTail, contents.free[1..])
    {
      memNode := freeListHead;
      freeListHead := freeListHead.next;
      memNode.next := null;
      if freeListHead == null {
        freeListTail := null;
      }
      memNode.block := null;
      freeNodes := freeNodes[1..];
      forall i | 0 <= i < |freeNodes|
        ensures NextOk(freeNodes, i) && Carries(freeNodes, contents.free[1..], i) && freeNodes[i] != memNode
      {
        assert old(NextOk(freeNodes, i + 1)) && old(Carries(freeNodes, contents.free, i + 1));
        assert old(freeNodes)[0] != old(freeNodes)[i + 1];
      }
      forall i, j | 0 <= i < j < |freeNodes| ensures freeNodes[i] != freeNodes[j] {
        assert old(freeNodes)[i + 1] != old(freeNodes)[j + 1];
      }
      assert old(NextOk(freeNodes, 0));
    }

    // Puts a node on the stack of spare nodes.
    method PushSpare(memNode: MemoryNode)
      requires SpareList(spareNodes, allocatedListHead) && memNode !in spareNodes
      modifies this`allocatedListHead, this`spareNodes, memNode`next
      ensures SpareList(spareNodes, allocatedListHead) && spareNodes == [memNode] + old(spareNodes)
    {
      if allocatedListHead == null {
        allocatedListHead := memNode;
        allocatedListHead.next := null;
      } else {
        memNode.next := allocatedListHead;
        allocatedListHead := memNode;
      }
      spareNodes := [memNode] + spareNodes;
      forall i | 0 <= i < |spareNodes| ensures NextOk(spareNodes, i) {
        assert i > 0 ==> spareNodes[i] == old(spareNodes)[i - 1] && old(NextOk(spareNodes, i - 1));
      }
      forall i, j | 0 <= i < j < |spareNodes| ensures spareNodes[i] != spareNodes[j] {
        assert i > 0 ==> old(spareNodes)[i - 1] != old(spareNodes)[j - 1];
        assert spareNodes[j] == old(spareNodes)[j - 1];
      }
    }

    method PopSpare() returns (memNode: MemoryNode)
      requires SpareList(spareNodes, allocatedListHead) && spareNodes != []
      modifies this`allocatedListHead, this`spareNodes, spareNodes
      ensures memNode == old(spareNodes)[0] && memNode.next == null
      ensures spareNodes == old(spareNodes)[1..] && memNode !in spareNodes
      ensures SpareList(spareNodes, allocatedListHead)
    {
      memNode := allocatedListHead;
      allocatedListHead := allocatedListHead.next;
      memNode.next := null;
      spareNodes := spareNodes[1..];
      forall i | 0 <= i < |spareNodes| ensures NextOk(spareNodes, i) && spareNodes[i] != memNode {
        assert old(NextOk(spareNodes, i + 1)) && old(spareNodes)[0] != old(spareNodes)[i + 1];
      }
      forall i, j | 0 <= i < j < |spareNodes| ensures spareNodes[i] != spareNodes[j] {
        assert old(spareNodes)[i + 1] != old(spareNodes)[j + 1];
      }
      assert old(NextOk(spareNodes, 0));
    }

    // The two lists, the free one carrying the given blocks.
    ghost predicate Lists(blocks: seq<Block>)
      reads this`freeListHead, this`freeListTail, this`allocatedListHead, this`freeNodes, this`spareNodes
      reads freeNodes, spareNodes
    {
      && FreeList(freeNodes, freeListHead, freeListTail, blocks)
      && SpareList(spareNodes, allocatedListHead)
      && Apart(freeNodes, spareNodes)
    }

    method SpareFirst()
      requires Lists(contents.free) && freeNodes != []
      modifies this`freeListHead, this`freeListTail, this`allocatedListHead, this`freeNodes, this`spareNodes, freeNodes
      ensures Lists(contents.free[1..]) && |spareNodes| == |old(spareNodes)| + 1
    {
      OnOneList(freeNodes, spareNodes);
      var memNode := Unlink();
      forall i | 0 <= i < |spareNodes| ensures NextOk(spareNodes, i) {
        assert old(NextOk(spareNodes, i));
      }
      PushSpare(memNode);
      forall i, j | 0 <= i < |freeNodes| && 0 <= j < |spareNodes| ensures ApartAt(freeNodes, spareNodes, i, j) {
        assert j > 0 ==> ApartAt(old(freeNodes), old(spareNodes), i + 1, j - 1);
        assert freeNodes[i] in freeNodes;
      }
    }

    // By how much the counter exceeds the length of the free list.
    ghost function Excess(): int
      reads this
    {
      freeBlocks - |contents.free|
    }

    // Hands out the block that has been free for the longest time, or none. A
    // counter that is too high stays so: asking with an empty list is then
    // what callers must not do.
    method GetBlock() returns (r: Option<Block>)
      requires Valid() && (contents.free == [] ==> freeBlocks == 0)
      modifies this, freeNodes
      ensures Valid() && Excess() == old(Excess())
      ensures contents == if old(freeBlocks) == 0 then old(contents)
                          else Pool(old(contents.free)[1..], old(contents.held) + {old(contents.free)[0]})
      ensures r == if old(freeBlocks) == 0 then None else Some(old(contents.free)[0])
      ensures r.Some? ==> r.value !in old(contents.held) && r.value in contents.held
    {
      if freeBlocks == 0 {
        return None;
      }
      r := TakeFirst();
    }

    function FirstBlock(): (r: Option<Block>)
      requires Lists(contents.free) && contents.free != []
      reads this, freeNodes, spareNodes
      ensures r == Some(contents.free[0])
    {
      assert Carries(freeNodes, contents.free, 0);
      Some(freeListHead.block)
    }

    method TakeFirst() returns (r: Option<Block>)
      requires Valid() && contents.free != []
      modifies this, freeNodes
      ensures Valid() && freeBlocks == old(freeBlocks) - 1 && contents == PoolStep(old(contents), Get)
      ensures r == Some(old(contents.free)[0]) && r.value !in old(contents.held)
    {
      TakeKeepsPartition(contents);
      ghost var after := PoolStep(contents, Get);
      r := FirstBlock();
      SpareFirst();
      freeBlocks := freeBlocks - 1;
      contents := after;
    }

    method FreeSpare(block: Block)
      requires Lists(contents.free) && spareNodes != []
      modifies this`freeListHead, this`freeListTail, this`allocatedListHead, this`freeNodes, this`spareNodes, freeNodes
      modifies spareNodes
      ensures Lists(contents.free + [block]) && |spareNodes| == |old(spareNodes)| - 1
    {
      OnOneList(freeNodes, spareNodes);
      var memNode := PopSpare();
      memNode.block := block;
      forall i | 0 <= i < |freeNodes| ensures NextOk(freeNodes, i) && Carries(freeNodes, contents.free, i) {
        assert old(NextOk(freeNodes, i)) && old(Carries(freeNodes, contents.free, i));
      }
      label appending:
      Append(memNode, block);
      forall i | 0 <= i < |spareNodes| ensures NextOk(spareNodes, i) {
        assert old@appending(NextOk(spareNodes, i));
      }
      forall i, j | 0 <= i < |freeNodes| && 0 <= j < |spareNodes| ensures ApartAt(freeNodes, spareNodes, i, j) {
        assert i < |old(freeNodes)| ==> ApartAt(old(freeNodes), old(spareNodes), i, j + 1);
        assert spareNodes[j] in spareNodes;
      }
    }

    // Takes a block back. A null block is ignored, and so is any block while
    // none is handed out.
    method FreeBlock(block: Option<Block>)
      requires Valid()
      requires block.Some? && contents.held != {} ==> block.value in contents.held
      modifies this, freeNodes, spareNodes
      ensures Valid() && Excess() == old(Excess())
      ensures contents == if block == None || old(contents.held) == {} then old(contents)
                          else Pool(old(contents.free) + [block.value], old(contents.held) - {block.value})
    {
      assert allocatedListHead == null <==> |contents.held| == 0;
      if block == None || allocatedListHead == null {
        return;
      }
      GiveBack(block.value);
    }

    method GiveBack(block: Block)
      requires Valid() && block in contents.held
      modifies this, freeNodes, spareNodes
      ensures Valid() && freeBlocks == old(freeBlocks) + 1
      ensures contents == Pool(old(contents.free) + [block], old(contents.held) - {block})
    {
      GiveKeepsPartition(contents, block);
      ghost var after := PoolStep(contents, Free(block));
      FreeSpare(block);
      freeBlocks := freeBlocks + 1;
      contents := after;
    }
  }
}
