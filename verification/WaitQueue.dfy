/** The blocked-thread index of src/waitq.rs: a timeout tree for finite waits and a doubly linked FIFO for endless ones.
    A thread's wait entity is identified with the thread's address. */
module WaitQueues {
  import opened KeyOrder
  import opened Topology
  import opened RbTrees
  import Kernel

  ghost function Last(s: seq<Addr>): Addr { if s == [] then NULL else s[|s| - 1] }

  // The neighbours of position `i` are linked to it in both directions.
  ghost predicate Chained(s: seq<Addr>, prev: Field, next: Field, i: int)
    requires 0 <= i < |s|
  {
    Get(prev, s[i]) == (if i == 0 then NULL else s[i - 1]) &&
      Get(next, s[i]) == (if i + 1 < |s| then s[i + 1] else NULL)
  }

  // The chain from `head` to `tail` runs through exactly these threads, and nobody else has links.
  ghost predicate WellLinked(items: seq<Addr>, head: Addr, tail: Addr, prev: Field, next: Field) {
    && NULL !in items && Kernel.Distinct(items)
    && head == Nth(items, 0) && tail == Last(items)
    && (forall i :: 0 <= i < |items| ==> Chained(items, prev, next, i))
    && (forall n :: n !in items ==> Get(prev, n) == NULL && Get(next, n) == NULL)
  }

  class SuspendedWaitList {
    var head: Addr
    var tail: Addr
    var prev: Field
    var next: Field
    // The registered threads, oldest first.
    ghost var items: seq<Addr>

    ghost predicate Valid()
      reads this
    { WellLinked(items, head, tail, prev, next) }

    constructor ()
      ensures Valid() && items == []
    {
      head, tail, prev, next, items := NULL, NULL, map[], map[], [];
    }

    method PushBack(e: Addr)
      requires Valid() && e != NULL && e !in items
      modifies this
      ensures Valid() && items == old(items) + [e]
    {
      assert e != head && e != tail;
      assert Get(prev, e) == NULL && Get(next, e) == NULL;
      ghost var was := items;
      prev := prev[e := tail];
      if tail == NULL {
        head := e;
      } else {
        next := next[tail := e];
      }
      tail := e;
      items := items + [e];
      forall i | 0 <= i < |items| ensures Chained(items, prev, next, i) {
        assert i < |was| ==> Chained(was, old(prev), old(next), i) && items[i] == was[i];
      }
    }

    // Unlinks `e` at the head, in the middle or at the tail; the others keep their order.
    method Remove(e: Addr)
      requires Valid() && e in items
      modifies this
      ensures Valid() && items == Kernel.Without(old(items), e) && e !in items
    {
      ghost var was := items;
      ghost var j :| 0 <= j < |items| && items[j] == e;
      RemovedWellLinked(was, j, head, tail, prev, next);
      var p, n := Get(prev, e), Get(next, e);
      if p == NULL {
        assert head == e;
        head := n;
      } else {
        next := next[p := n];
      }
      if n == NULL {
        assert tail == e;
        tail := p;
      } else {
        prev := prev[n := p];
      }
      prev := prev[e := NULL];
      next := next[e := NULL];
      items := was[..j] + was[j + 1..];
      WithoutSplits(was, j);
    }
  }

  lemma {:induction false} WithoutSplits(s: seq<Addr>, j: nat)
    requires Kernel.Distinct(s) && j < |s|
    ensures Kernel.Without(s, s[j]) == s[..j] + s[j + 1..]
    ensures Kernel.Distinct(s[..j] + s[j + 1..]) && s[j] !in s[..j] + s[j + 1..]
    ensures forall u :: u in s[..j] + s[j + 1..] <==> u in s && u != s[j]
  {
    if j > 0 {
      assert s[0] != s[j];
      WithoutSplits(s[1..], j - 1);
      assert s[1..][..j - 1] == s[1..j] && s[1..][j..] == s[j + 1..];
      assert s[..j] == [s[0]] + s[1..j];
    }
    assert s == s[..j] + [s[j]] + s[j + 1..];
  }

  // Both ends are right again, wherever `s[j]` was.
  lemma RemovedEnds(s: seq<Addr>, j: nat, p: Addr, n: Addr)
    requires NULL !in s && j < |s|
    requires p == (if j == 0 then NULL else s[j - 1]) && n == if j + 1 < |s| then s[j + 1] else NULL
    ensures Nth(s[..j] + s[j + 1..], 0) == if p == NULL then n else Nth(s, 0)
    ensures Last(s[..j] + s[j + 1..]) == if n == NULL then p else Last(s)
    ensures (p == NULL ==> Nth(s, 0) == s[j]) && (n == NULL ==> Last(s) == s[j])
  {
    assert j > 0 ==> s[j - 1] in s;
    assert j + 1 < |s| ==> s[j + 1] in s;
  }

  lemma RemovedLinks(s: seq<Addr>, j: nat, prev: Field, next: Field, prev': Field, next': Field)
    requires NULL !in s && Kernel.Distinct(s) && j < |s|
    requires forall i :: 0 <= i < |s| ==> Chained(s, prev, next, i)
    requires var p, n := Get(prev, s[j]), Get(next, s[j]);
      && prev' == (if n == NULL then prev else prev[n := p])[s[j] := NULL]
      && next' == (if p == NULL then next else next[p := n])[s[j] := NULL]
    ensures var s' := s[..j] + s[j + 1..]; forall i :: 0 <= i < |s'| ==> Chained(s', prev', next', i)
  {
    var s' := s[..j] + s[j + 1..];
    assert Chained(s, prev, next, j);
    forall i | 0 <= i < |s'| ensures Chained(s', prev', next', i) {
      var i0 := if i < j then i else i + 1;
      assert s'[i] == s[i0] && Chained(s, prev, next, i0);
    }
  }

  // Whoever is not on the list has no links.
  lemma RemovedCleared(s: seq<Addr>, j: nat, prev: Field, next: Field, prev': Field, next': Field)
    requires j < |s| && Chained(s, prev, next, j)
    requires forall m :: m !in s ==> Get(prev, m) == NULL && Get(next, m) == NULL
    requires var p, n := Get(prev, s[j]), Get(next, s[j]);
      && prev' == (if n == NULL then prev else prev[n := p])[s[j] := NULL]
      && next' == (if p == NULL then next else next[p := n])[s[j] := NULL]
    ensures forall m :: m !in s[..j] + s[j + 1..] ==> Get(prev', m) == NULL && Get(next', m) == NULL
  {
    var s' := s[..j] + s[j + 1..];
    assert j > 0 ==> s[j - 1] == s'[j - 1];
    assert j + 1 < |s| ==> s[j + 1] == s'[j];
    forall m | m !in s' ensures Get(prev', m) == NULL && Get(next', m) == NULL {
      assert s == s[..j] + [s[j]] + s[j + 1..];
      assert m in s ==> m == s[j];
    }
  }

  // The writes of `remove` leave a well-formed list of the others.
  lemma RemovedWellLinked(s: seq<Addr>, j: nat, head: Addr, tail: Addr, prev: Field, next: Field)
    requires WellLinked(s, head, tail, prev, next) && j < |s|
    ensures var p, n := Get(prev, s[j]), Get(next, s[j]);
      var head', tail' := if p == NULL then n else head, if n == NULL then p else tail;
      var prev', next' := if n == NULL then prev else prev[n := p], if p == NULL then next else next[p := n];
      && (p == NULL ==> head == s[j]) && (n == NULL ==> tail == s[j])
      && WellLinked(s[..j] + s[j + 1..], head', tail', prev'[s[j] := NULL], next'[s[j] := NULL])
  {
    var p, n := Get(prev, s[j]), Get(next, s[j]);
    var prev', next' := if n == NULL then prev else prev[n := p], if p == NULL then next else next[p := n];
    assert Chained(s, prev, next, j);
    WithoutSplits(s, j);
    RemovedEnds(s, j, p, n);
    RemovedLinks(s, j, prev, next, prev'[s[j] := NULL], next'[s[j] := NULL]);
    RemovedCleared(s, j, prev, next, prev'[s[j] := NULL], next'[s[j] := NULL]);
  }

  class WaitQueue {
    const tree: RbTree
    const suspended: SuspendedWaitList

    ghost predicate Valid()
      reads this, tree, suspended
    { tree.Valid() && suspended.Valid() && forall t :: t in tree.nodes ==> t !in suspended.items }

    // Every blocked thread once: finite waits by wake time, then the suspended ones by registration.
    ghost function Order(): seq<Addr>
      reads tree, suspended
    { tree.nodes + suspended.items }

    constructor ()
      ensures Valid() && fresh(tree) && fresh(suspended) && tree.nodes == [] && suspended.items == []
    {
      tree := new RbTree();
      suspended := new SuspendedWaitList();
    }

    // Registers `t` and tells which blocked state it enters.
    method Insert(t: Addr, wakeAt: nat) returns (state: Kernel.State)
      requires Valid() && t != NULL && t !in Order()
      modifies tree, suspended
      ensures Valid() && state == if wakeAt == Kernel.NEVER then Kernel.Suspended else Kernel.Waiting
      ensures state.Suspended? ==>
        tree.nodes == old(tree.nodes) && tree.key == old(tree.key) && suspended.items == old(suspended.items) + [t]
      ensures state.Waiting? ==> suspended.items == old(suspended.items) && tree.key == old(tree.key)[t := wakeAt]
      ensures state.Waiting? ==> forall u :: u in tree.nodes <==> u in old(tree.nodes) || u == t
    {
      if wakeAt == Kernel.NEVER {
        suspended.PushBack(t);
        return Kernel.Suspended;
      }
      ghost var nodes := tree.nodes;
      ghost var j := tree.Insert(t, wakeAt);
      assert nodes == nodes[..j] + nodes[j..];
      return Kernel.Waiting;
    }

    method Remove(t: Addr, state: Kernel.State)
      requires Valid() && t in if state.Suspended? then suspended.items else tree.nodes
      modifies tree, suspended
      ensures Valid() && tree.key == old(tree.key)
      ensures state.Suspended? ==>
        tree.nodes == old(tree.nodes) && suspended.items == Kernel.Without(old(suspended.items), t)
      ensures !state.Suspended? ==> suspended.items == old(suspended.items)
      ensures !state.Suspended? ==> forall u :: u in tree.nodes <==> u in old(tree.nodes) && u != t
    {
      if state.Suspended? {
        ghost var j :| 0 <= j < |suspended.items| && suspended.items[j] == t;
        WithoutSplits(suspended.items, j);
        suspended.Remove(t);
      } else {
        tree.NoNullNode();
        ghost var nodes := tree.nodes;
        ghost var j;
        var r;
        r, j := tree.Remove(t);
        RemovedMembers(nodes, tree.key, j);
      }
    }

    // Takes the most overdue sleeper, if any sleeper is due.
    method PopExpired(now: nat) returns (t: Addr)
      requires Valid()
      modifies tree
      ensures Valid() && tree.key == old(tree.key)
      ensures t == NULL ==> tree.nodes == old(tree.nodes) && forall u :: u in tree.nodes ==> KeyAt(tree.key, u) > now
      ensures t != NULL ==> old(tree.nodes) == [t] + tree.nodes && KeyAt(tree.key, t) <= now
      ensures t != NULL ==> forall u :: u in tree.nodes ==> Less(KeyAt(tree.key, t), t, KeyAt(tree.key, u), u)
    {
      tree.NoNullNode();
      var first := tree.First();
      if first == NULL || KeyAt(tree.key, first) > now { return NULL; }
      t := tree.PopFirst();
    }

    // The blocked thread after `cursor`, or the first one when `cursor` is null.
    method NextWaitEntity(cursor: Addr, state: Kernel.State) returns (m: Addr)
      requires Valid() && (cursor != NULL ==> cursor in if state.Suspended? then suspended.items else tree.nodes)
      ensures cursor == NULL ==> m == Nth(Order(), 0)
      ensures forall i :: 0 <= i < |Order()| && Order()[i] == cursor ==> m == Nth(Order(), i + 1)
    {
      tree.NoNullNode();
      if cursor == NULL {
        m := tree.First();
      } else if state.Suspended? {
        ghost var j :| 0 <= j < |suspended.items| && suspended.items[j] == cursor;
        assert Chained(suspended.items, suspended.prev, suspended.next, j);
        return Get(suspended.next, cursor);
      } else {
        m := tree.Next(cursor);
      }
      if m == NULL { m := suspended.head; }
    }

    // The cursor visits every blocked thread exactly once, in order, and stops.
    method Walk(states: map<Addr, Kernel.State>) returns (visited: seq<Addr>)
      requires Valid() && forall t :: t in Order() ==> t in states && (states[t].Suspended? <==> t in suspended.items)
      ensures visited == tree.nodes + suspended.items
      ensures Kernel.Distinct(visited)
    {
      tree.NoNullNode();
      visited := [];
      var m := NextWaitEntity(NULL, Kernel.Ready);
      while m != NULL
        invariant |visited| <= |Order()| && visited == Order()[..|visited|] && m == Nth(Order(), |visited|)
        decreases |Order()| - |visited|
      {
        assert m in Order();
        visited := visited + [m];
        m := NextWaitEntity(m, states[m]);
      }
      assert visited == Order();
      forall i, j | 0 <= i < j < |visited| ensures visited[i] != visited[j] {
        assert j < |tree.nodes| ==>
          Less(KeyAt(tree.key, visited[i]), visited[i], KeyAt(tree.key, visited[j]), visited[j]);
        assert i < |tree.nodes| <= j ==> visited[i] in tree.nodes && visited[j] in suspended.items;
        assert i >= |tree.nodes| ==>
          visited[i] == suspended.items[i - |tree.nodes|] && visited[j] == suspended.items[j - |tree.nodes|];
      }
    }
  }
}
