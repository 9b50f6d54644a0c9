/** The kernel timer queue of src/ktimer.rs: two red-black trees, one for the timers that may be
    selected and one for pending releases and wake-ups, each with its least timer cached. */
module TimerQueues {
  import opened KeyOrder
  import opened Topology
  import opened RbTrees

  class KTimerQueue {
    const activeTree: RbTree
    const inactiveTree: RbTree
    var firstActive: Addr
    var firstInactive: Addr
    // The fields `expire_at` and `active` of the timer entities, by address.
    var expireAt: Keys
    var active: set<Addr>

    ghost predicate Valid()
      reads this, activeTree, inactiveTree
    {
      && activeTree != inactiveTree && activeTree.Valid() && inactiveTree.Valid()
      && (forall e :: e in activeTree.nodes ==> e in active && KeyAt(expireAt, e) == KeyAt(activeTree.key, e))
      && (forall e :: e in inactiveTree.nodes ==> e !in active && KeyAt(expireAt, e) == KeyAt(inactiveTree.key, e))
      && firstActive == Nth(activeTree.nodes, 0) && firstInactive == Nth(inactiveTree.nodes, 0)
    }

    ghost predicate Queued(e: Addr)
      reads this, activeTree, inactiveTree
    { e in activeTree.nodes || e in inactiveTree.nodes }

    predicate Before(a: Addr, b: Addr)
      reads this
    { Less(KeyAt(expireAt, a), a, KeyAt(expireAt, b), b) }

    // `m` is the least queued timer, or null when none is queued.
    ghost predicate IsFirst(m: Addr)
      reads this, activeTree, inactiveTree
    {
      if m == NULL then forall e :: !Queued(e)
      else Queued(m) && forall e :: Queued(e) && e != m ==> Before(m, e)
    }

    // `m` is the least queued timer after `a`, or null when there is none.
    ghost predicate IsNext(a: Addr, m: Addr)
      reads this, activeTree, inactiveTree
    {
      if m == NULL then forall e :: Queued(e) ==> !Before(a, e)
      else Queued(m) && Before(a, m) && forall e :: Queued(e) && Before(a, e) && e != m ==> Before(m, e)
    }

    constructor ()
      ensures Valid() && fresh(activeTree) && fresh(inactiveTree) && forall e :: !Queued(e)
    {
      activeTree := new RbTree();
      inactiveTree := new RbTree();
      firstActive, firstInactive, expireAt, active := NULL, NULL, map[], {};
    }

    function EarlierOf(a: Addr, b: Addr): Addr
      reads this
    { if a == NULL then b else if b == NULL || Before(a, b) then a else b }

    // The earliest queued timer, from the two cached minima.
    method First() returns (m: Addr)
      requires Valid()
      ensures IsFirst(m)
    {
      activeTree.NoNullNode();
      inactiveTree.NoNullNode();
      HeadLeast(activeTree.nodes, activeTree.key);
      HeadLeast(inactiveTree.nodes, inactiveTree.key);
      m := EarlierOf(firstActive, firstInactive);
    }

    // The timer after `e` in the combined order: its successor in its own tree or the first later one in the other.
    method Next(e: Addr) returns (m: Addr)
      requires Valid() && (e == NULL || Queued(e))
      ensures e == NULL ==> m == NULL
      ensures e != NULL ==> IsNext(e, m)
    {
      if e == NULL { return NULL; }
      activeTree.NoNullNode();
      inactiveTree.NoNullNode();
      var own, other := inactiveTree, activeTree;
      if e in active { own, other := activeTree, inactiveTree; }
      var a, b := After(own, other, e);
      m := EarlierOf(a, b);
    }

    // The timers after `e` in its own tree and in the other one.
    method After(own: RbTree, other: RbTree, e: Addr) returns (a: Addr, b: Addr)
      requires Valid() && {own, other} == {activeTree, inactiveTree} && e in own.nodes && e != NULL
      requires NULL !in own.nodes && NULL !in other.nodes
      ensures LeastAfter(own.nodes, e, a) && LeastAfter(other.nodes, e, b)
    {
      a := own.Next(e);
      SuccessorLeast(own.nodes, own.key, e, a);
      ghost var turns;
      b, turns := other.UpperBound(KeyAt(expireAt, e), e);
    }

    ghost predicate LeastAfter(nodes: seq<Addr>, e: Addr, m: Addr)
      reads this
    {
      && (m != NULL ==> m in nodes && Before(e, m))
      && forall t :: t in nodes && Before(e, t) ==> m != NULL && (t == m || Before(m, t))
    }

    method Contains(e: Addr) returns (found: bool)
      requires Valid()
      ensures found <==> Queued(e)
    {
      found := activeTree.Contains(e);
      if !found { found := inactiveTree.Contains(e); }
    }

    // Queues the detached timer `e` and sets its eligibility.
    method Insert(e: Addr, isActive: bool)
      requires Valid() && e != NULL && !Queued(e)
      modifies this`firstActive, this`firstInactive, this`active, activeTree, inactiveTree
      ensures Valid() && active == if isActive then old(active) + {e} else old(active) - {e}
      ensures forall t :: Queued(t) <==> old(Queued(t)) || t == e
    {
      if isActive {
        firstActive := InsertCached(activeTree, firstActive, e, KeyAt(expireAt, e));
        active := active + {e};
      } else {
        firstInactive := InsertCached(inactiveTree, firstInactive, e, KeyAt(expireAt, e));
        active := active - {e};
      }
    }

    // Unlinks `e` from the tree its flag names and keeps the flag.
    method Remove(e: Addr) returns (r: Addr)
      requires Valid() && (e == NULL || Queued(e))
      modifies this`firstActive, this`firstInactive, activeTree, inactiveTree
      ensures Valid() && r == e
      ensures forall t :: Queued(t) <==> old(Queued(t)) && (t != e || e == NULL)
    {
      r := e;
      if e == NULL { return; }
      if e in active {
        firstActive := RemoveCached(activeTree, firstActive, e);
      } else {
        firstInactive := RemoveCached(inactiveTree, firstInactive, e);
      }
    }

    method Dequeue(e: Addr) returns (r: Addr)
      requires Valid() && (e == NULL || Queued(e))
      modifies this`firstActive, this`firstInactive, this`active, activeTree, inactiveTree
      ensures Valid() && r == e && active == old(active) - (if e == NULL then {} else {e})
      ensures forall t :: Queued(t) <==> old(Queued(t)) && (t != e || e == NULL)
    {
      r := Remove(e);
      assert r != NULL ==> !Queued(r);
      if r != NULL { active := active - {r}; }
    }

    // Re-keying is only allowed while the timer is detached.
    method SetExpireAt(e: Addr, t: nat)
      requires Valid() && !Queued(e)
      modifies this`expireAt
      ensures Valid() && expireAt == old(expireAt)[e := t]
    {
      expireAt := expireAt[e := t];
    }

    // `visited` are the queued timers before `m`, in order; `m` is the next one, or null at the end.
    ghost predicate Walked(visited: seq<Addr>, m: Addr)
      reads this, activeTree, inactiveTree
    {
      && (m != NULL ==> Queued(m) && forall i :: 0 <= i < |visited| ==> Before(visited[i], m))
      && (forall e :: e in visited ==> Queued(e))
      && (forall e :: Queued(e) ==> e in visited || (m != NULL && (e == m || Before(m, e))))
      && (forall i, j :: 0 <= i < j < |visited| ==> Before(visited[i], visited[j]))
    }

    lemma WalksOn(visited: seq<Addr>, m0: Addr, m: Addr)
      requires Walked(visited, m0) && m0 != NULL && IsNext(m0, m)
      ensures Walked(visited + [m0], m)
    {
    }

    // First, then Next until null: every queued timer once, in strictly ascending order.
    method Walk() returns (visited: seq<Addr>)
      requires Valid()
      ensures forall e :: e in visited <==> Queued(e)
      ensures forall i, j :: 0 <= i < j < |visited| ==> Before(visited[i], visited[j])
    {
      ghost var left := set e | e in activeTree.nodes + inactiveTree.nodes;
      visited := [];
      var m := First();
      while m != NULL
        invariant Walked(visited, m) && forall e :: Queued(e) && e !in visited ==> e in left
        decreases left
      {
        var m0 := m;
        m := Next(m0);
        WalksOn(visited, m0, m);
        visited := visited + [m0];
        left := left - {m0};
      }
    }
  }

  // Inserts `e` and keeps the cached minimum `first` exact.
  method InsertCached(tree: RbTree, first: Addr, e: Addr, k: int) returns (first': Addr)
    requires tree.Valid() && e != NULL && e !in tree.nodes && first == Nth(tree.nodes, 0)
    modifies tree
    ensures tree.Valid() && first' == Nth(tree.nodes, 0)
    ensures tree.key == old(tree.key)[e := k]
    ensures forall t :: t in tree.nodes <==> t in old(tree.nodes) || t == e
  {
    tree.NoNullNode();
    ghost var j := tree.Insert(e, k);
    InsertMembers(old(tree.nodes), tree.key, j, e);
    first' := first;
    if first == NULL || Less(k, e, KeyAt(tree.key, first), first) {
      first' := e;
    }
  }

  // Unlinks `e`; when it was the cached minimum, its successor becomes the new one.
  method RemoveCached(tree: RbTree, first: Addr, e: Addr) returns (first': Addr)
    requires tree.Valid() && e in tree.nodes && first == Nth(tree.nodes, 0)
    modifies tree
    ensures tree.Valid() && first' == Nth(tree.nodes, 0) && tree.key == old(tree.key)
    ensures forall t :: t in tree.nodes <==> t in old(tree.nodes) && t != e
  {
    tree.NoNullNode();
    var leftmost := e == first;
    var next := NULL;
    assert leftmost <==> tree.nodes[0] == e;
    if leftmost { next := tree.Next(e); }
    ghost var j;
    var r;
    r, j := tree.Remove(e);
    RemoveMembers(old(tree.nodes), tree.key, j);
    first' := if leftmost then next else first;
  }

  lemma InsertMembers(nodes: seq<Addr>, key: Keys, j: nat, e: Addr)
    requires j <= |nodes| && NULL !in nodes && e != NULL && Sorted(nodes[..j] + [e] + nodes[j..], key)
    ensures var nodes' := nodes[..j] + [e] + nodes[j..];
      && (forall t :: t in nodes' <==> t in nodes || t == e)
      && Nth(nodes', 0) == if nodes == [] || Less(KeyAt(key, e), e, KeyAt(key, nodes[0]), nodes[0]) then e else nodes[0]
  {
    var nodes' := nodes[..j] + [e] + nodes[j..];
    assert nodes == nodes[..j] + nodes[j..];
    if j > 0 { assert nodes'[0] == nodes[0] && nodes'[j] == e; } else { assert nodes != [] ==> nodes'[1] == nodes[0]; }
  }

  lemma RemoveMembers(nodes: seq<Addr>, key: Keys, j: nat)
    requires j < |nodes| && Sorted(nodes, key)
    ensures var nodes' := nodes[..j] + nodes[j + 1..];
      && (forall t :: t in nodes' <==> t in nodes && t != nodes[j])
      && Nth(nodes', 0) == Nth(nodes, if j > 0 then 0 else 1)
  {
    var nodes' := nodes[..j] + nodes[j + 1..];
    assert nodes == nodes[..j] + [nodes[j]] + nodes[j + 1..];
    forall t | t in nodes' ensures t != nodes[j] {
      var i :| 0 <= i < |nodes'| && nodes'[i] == t;
      assert nodes'[i] == if i < j then nodes[i] else nodes[i + 1];
    }
  }

  lemma HeadLeast(nodes: seq<Addr>, key: Keys)
    requires Sorted(nodes, key) && NULL !in nodes
    ensures Nth(nodes, 0) == NULL <==> nodes == []
    ensures nodes != [] ==> Nth(nodes, 0) in nodes
    ensures forall e :: e in nodes && e != Nth(nodes, 0) ==>
      Less(KeyAt(key, Nth(nodes, 0)), Nth(nodes, 0), KeyAt(key, e), e)
  {
  }

  // The in-order successor is the least element after `e`.
  lemma SuccessorLeast(nodes: seq<Addr>, key: Keys, e: Addr, m: Addr)
    requires Sorted(nodes, key) && e in nodes && NULL !in nodes
    requires forall i :: 0 <= i < |nodes| && nodes[i] == e ==> m == Nth(nodes, i + 1)
    ensures m != NULL ==> m in nodes && Less(KeyAt(key, e), e, KeyAt(key, m), m)
    ensures forall t :: t in nodes && Less(KeyAt(key, e), e, KeyAt(key, t), t) ==>
      m != NULL && (t == m || Less(KeyAt(key, m), m, KeyAt(key, t), t))
  {
    var i :| 0 <= i < |nodes| && nodes[i] == e;
    assert i + 1 < |nodes| ==> nodes[i + 1] in nodes;
  }
}
