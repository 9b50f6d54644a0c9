/** The CFS run queue of src/runq.rs: a tree of ready threads by (vruntime, address) and the sum of the priorities that
    share the CPU. */
module RunQueues {
  import opened KeyOrder
  import opened Topology
  import opened RbTrees
  import Kernel

  class RunQueue {
    var tree: RbTree
    var prioritySum: nat

    ghost predicate Valid()
      reads this, tree
    { tree.Valid() }

    constructor ()
      ensures Valid() && fresh(tree) && tree.nodes == [] && prioritySum == 0
    {
      tree := new RbTree();
      prioritySum := 0;
    }

    // `update_from_leftmost`: the vruntime of a thread that joins the queued ones.
    method AlignedVruntime(own: nat) returns (vruntime: int)
      requires Valid()
      ensures vruntime == if tree.nodes == [] then own else KeyAt(tree.key, tree.nodes[0])
    {
      tree.NoNullNode();
      var leftmost := tree.First();
      vruntime := if leftmost == NULL then own else KeyAt(tree.key, leftmost);
    }

    // A new thread: it starts level with the least served queued thread.
    method EnqueueThread(e: Addr, priority: nat, own: nat) returns (vruntime: int)
      requires Valid() && e != NULL && e !in tree.nodes && prioritySum + priority <= Kernel.U32_MAX
      modifies this`prioritySum, tree
      ensures Valid() && prioritySum == old(prioritySum) + priority
      ensures Joins(old(tree.nodes), old(tree.key), tree.nodes, tree.key, e, vruntime)
      ensures vruntime == if old(tree.nodes) == [] then own else KeyAt(old(tree.key), old(tree.nodes)[0])
    {
      vruntime := AlignedVruntime(own);
      ghost var nodes, key := tree.nodes, tree.key;
      ghost var j := tree.Insert(e, vruntime);
      assert nodes == nodes[..j] + nodes[j..];
      prioritySum := prioritySum + priority;
    }

    // `queued` is the entity at position `i` and the tree holds what comes after it; at the end `queued` is null.
    ghost predicate Popped(nodes: seq<Addr>, key: Keys, i: nat, queued: Addr)
      reads this, tree
    {
      && tree.Valid() && tree.key == key && i <= |nodes| && queued == Nth(nodes, i)
      && (if queued == NULL then i == |nodes| else i < |nodes| && tree.nodes == nodes[i + 1..])
    }

    method PopNext(ghost nodes: seq<Addr>, ghost key: Keys, ghost i: nat) returns (queued: Addr)
      requires tree.Valid() && tree.key == key && i <= |nodes| && tree.nodes == nodes[i..] && NULL !in nodes
      modifies tree
      ensures Popped(nodes, key, i, queued)
    {
      queued := tree.PopFirst();
    }

    // Empties the tree from the left into a new one: the same threads in the same order with the same vruntimes.
    method Rebuild()
      requires Valid()
      modifies this`tree, tree
      ensures Valid() && fresh(tree) && tree.nodes == old(tree.nodes)
      ensures forall n :: n in tree.nodes ==> KeyAt(tree.key, n) == KeyAt(old(tree.key), n)
    {
      var updated := new RbTree();
      tree.NoNullNode();
      ghost var nodes, key := tree.nodes, tree.key;
      ghost var i := 0;
      var queued := PopNext(nodes, key, i);
      while queued != NULL
        invariant MovedOver(updated, nodes, key, i) && fresh(updated) && tree == old(tree) && tree != updated
        invariant Popped(nodes, key, i, queued)
        decreases |nodes| - i
      {
        MoveLast(updated, queued, KeyAt(tree.key, queued), nodes, key, i);
        i := i + 1;
        queued := PopNext(nodes, key, i);
      }
      assert nodes[..i] == nodes;
      tree := updated;
    }

    // A woken thread: the sum grows by its priority, the others keep their places, and it aligns with the leftmost.
    method EnqueueFromWaitq(e: Addr, priority: nat, own: nat) returns (vruntime: int)
      requires Valid() && e != NULL && e !in tree.nodes
      modifies this, tree
      ensures Valid() && fresh(tree) && prioritySum == Kernel.Sat32(old(prioritySum) + priority)
      ensures Joins(old(tree.nodes), old(tree.key), tree.nodes, tree.key, e, vruntime)
      ensures vruntime == if old(tree.nodes) == [] then own else KeyAt(old(tree.key), old(tree.nodes)[0])
    {
      prioritySum := Kernel.Sat32(prioritySum + priority);
      Rebuild();
      vruntime := AlignedVruntime(own);
      ghost var nodes, key := tree.nodes, tree.key;
      ghost var j := tree.Insert(e, vruntime);
      assert nodes == nodes[..j] + nodes[j..];
    }

    // A thread that leaves for a blocked queue: only a ready one is still queued here.
    method Dequeue(e: Addr, priority: nat, queued: bool)
      requires Valid() && (queued ==> e in tree.nodes)
      modifies this`prioritySum, tree
      ensures Valid() && prioritySum == Kernel.SatSub(old(prioritySum), priority) && tree.key == old(tree.key)
      ensures !queued ==> tree.nodes == old(tree.nodes)
      ensures queued ==> forall n :: n in tree.nodes <==> n in old(tree.nodes) && n != e
    {
      if queued {
        tree.NoNullNode();
        ghost var nodes := tree.nodes;
        ghost var j;
        var r;
        r, j := tree.Remove(e);
        RemovedMembers(nodes, tree.key, j);
      }
      prioritySum := Kernel.SatSub(prioritySum, priority);
    }
  }

  // `updated` holds the first `i` of the ascending `nodes`, under the keys they had.
  ghost predicate MovedOver(updated: RbTree, nodes: seq<Addr>, key: Keys, i: nat)
    reads updated
  {
    && updated.Valid() && i <= |nodes| && updated.nodes == nodes[..i]
    && forall n :: n in updated.nodes ==> KeyAt(updated.key, n) == KeyAt(key, n)
  }

  // The next entity in ascending order goes behind those already moved.
  method MoveLast(updated: RbTree, e: Addr, k: int, ghost nodes: seq<Addr>, ghost key: Keys, ghost i: nat)
    requires MovedOver(updated, nodes, key, i) && i < |nodes| && nodes[i] == e && e != NULL
    requires k == KeyAt(key, e) && Sorted(nodes, key)
    modifies updated
    ensures MovedOver(updated, nodes, key, i + 1)
  {
    ghost var j := updated.Insert(e, k);
    AppendsLast(nodes, key, i, j, updated.key);
  }

  // `e` was put among `nodes` under key `k`; the other entities kept their order and their keys.
  ghost predicate Joins(nodes: seq<Addr>, key: Keys, nodes': seq<Addr>, key': Keys, e: Addr, k: int) {
    && (exists j: nat {:trigger nodes[j..]} :: j <= |nodes| && nodes' == nodes[..j] + [e] + nodes[j..])
    && (forall n :: n in nodes ==> KeyAt(key', n) == KeyAt(key, n)) && KeyAt(key', e) == k
  }

  lemma BehindPrecedes(front: seq<Addr>, e: Addr, behind: seq<Addr>, key: Keys)
    requires Sorted(front + [e] + behind, key)
    ensures behind != [] ==> Less(KeyAt(key, e), e, KeyAt(key, behind[0]), behind[0])
  {
    var s := front + [e] + behind;
    assert s[|front|] == e && (behind != [] ==> s[|front| + 1] == behind[0]);
  }

  // Inserting the entities of an ascending sequence one by one appends each at the end.
  lemma AppendsLast(nodes: seq<Addr>, key: Keys, i: nat, j: nat, key': Keys)
    requires Sorted(nodes, key) && i < |nodes| && j <= i
    requires Sorted(nodes[..i][..j] + [nodes[i]] + nodes[..i][j..], key')
    requires forall n :: n in nodes[..i] || n == nodes[i] ==> KeyAt(key', n) == KeyAt(key, n)
    ensures nodes[..i][..j] + [nodes[i]] + nodes[..i][j..] == nodes[..i + 1]
  {
    BehindPrecedes(nodes[..i][..j], nodes[i], nodes[..i][j..], key');
    assert forall n :: n in nodes[..i] ==> Less(KeyAt(key, n), n, KeyAt(key, nodes[i]), nodes[i]);
    assert nodes[..i][j..] == [];
  }
}
