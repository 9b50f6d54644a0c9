/** The red-black trees, cached minima and the rebuild loop compute what module Kernel says about sets of timers, ready
    threads, sleepers and waiters: each tree refines the set it stands for. */
module TreeMeaning {
  import opened Kernel
  import T = Topology
  import R = RbTrees
  import TimerQueues
  import RunQueues
  import WaitQueues

  // The ascending sequence `nodes` with the tree's keys is the set `s` ordered by `key`.
  ghost predicate StandsFor(nodes: seq<Addr>, treeKey: R.Keys, s: set<Addr>, key: map<Addr, int>) {
    && R.Sorted(nodes, treeKey) && s <= key.Keys
    && (forall t :: t in s <==> t in nodes) && (forall t :: t in s ==> R.KeyAt(treeKey, t) == key[t])
  }

  // The head of the sequence is the least element, and null stands for an empty set.
  lemma HeadIsLeast(nodes: seq<Addr>, treeKey: R.Keys, s: set<Addr>, key: map<Addr, int>)
    requires StandsFor(nodes, treeKey, s, key)
    ensures s == {} <==> nodes == []
    ensures nodes != [] ==> Least(s, key) == nodes[0]
  {
    if nodes != [] {
      assert nodes[0] in nodes && nodes[0] in s;
      assert IsLeast(s, key, nodes[0]);
    } else {
      forall t ensures t !in s { assert t in s ==> t in nodes; }
      assert s == {};
    }
  }

  // ---------- The timer queue ----------

  // The queue's fields agree with the timers: flags, expiries, and exactly the queued ones are linked.
  ghost predicate Holds(q: TimerQueues.KTimerQueue, timers: map<Addr, Timer>)
    reads q, q.activeTree, q.inactiveTree
  {
    && q.Valid() && T.NULL !in timers
    && (forall a :: a in timers ==>
         R.KeyAt(q.expireAt, a) == timers[a].expireAt && (a in q.active <==> timers[a].active))
    && (forall a :: q.Queued(a) <==> a in timers && timers[a].queued)
  }

  // The cached minimum of the active tree is `EarliestActive`.
  lemma ActiveHead(q: TimerQueues.KTimerQueue, timers: map<Addr, Timer>)
    requires Holds(q, timers)
    ensures EarliestActive(timers) == if q.firstActive == T.NULL then None else Some(q.firstActive)
  {
    q.activeTree.NoNullNode();
    var s, nodes := ActiveSet(timers), q.activeTree.nodes;
    forall t ensures t in s <==> t in nodes {
      assert t in nodes ==> q.Queued(t);
      assert t in s ==> q.Queued(t) && t in q.active;
    }
    HeadIsLeast(nodes, q.activeTree.key, s, Expiries(timers));
  }

  // The earlier of the two cached minima is `Earliest`.
  method EarliestTimer(q: TimerQueues.KTimerQueue, ghost timers: map<Addr, Timer>) returns (m: Addr)
    requires Holds(q, timers)
    ensures Earliest(timers) == if m == T.NULL then None else Some(m)
  {
    m := q.First();
    ghost var s := QueuedSet(timers);
    assert forall a :: a in s <==> q.Queued(a);
    if m != T.NULL {
      assert IsLeast(s, Expiries(timers), m);
    } else {
      forall a ensures a !in s { assert !q.Queued(a); }
      assert s == {};
    }
  }

  // The successor of a timer in the combined order is the least queued one after it.
  lemma NextIsLeast(q: TimerQueues.KTimerQueue, timers: map<Addr, Timer>, w: Addr, m: Addr)
    requires Holds(q, timers) && w in timers && timers[w].queued && q.IsFirst(w) && q.IsNext(w, m)
    ensures if m == T.NULL then QueuedSet(timers) - {w} == {}
      else m in QueuedSet(timers) - {w} && IsLeast(QueuedSet(timers) - {w}, Expiries(timers), m)
  {
    var s := QueuedSet(timers) - {w};
    forall a | a in s ensures q.Queued(a) && q.Before(w, a) { assert q.Queued(a) <==> a in timers && timers[a].queued; }
    if m == T.NULL {
      NoneIn(s);
    } else {
      assert q.Queued(m);
    }
  }

  lemma NoneIn(s: set<Addr>)
    requires forall a :: a !in s
    ensures s == {}
  {
    if s != {} { Inhabited(s); }
  }

  // The first timer, if it is not `w`, is also the least one without `w`.
  lemma FirstIsLeast(q: TimerQueues.KTimerQueue, timers: map<Addr, Timer>, w: Addr, m: Addr)
    requires Holds(q, timers) && q.IsFirst(m) && m != w
    ensures if m == T.NULL then QueuedSet(timers) - {w} == {}
      else m in QueuedSet(timers) - {w} && IsLeast(QueuedSet(timers) - {w}, Expiries(timers), m)
  {
    var s := QueuedSet(timers) - {w};
    forall a | a in s ensures q.Queued(a) { assert q.Queued(a) <==> a in timers && timers[a].queued; }
    if m == T.NULL {
      NoneIn(s);
    } else {
      assert q.Queued(m);
    }
  }

  // `earliest_queued_scheduler_expire_at` walks from the first timer past the wait timer `w` to the least other one.
  method EarliestSchedulerTimer(q: TimerQueues.KTimerQueue, w: Addr, ghost timers: map<Addr, Timer>) returns (m: Addr)
    requires Holds(q, timers) && w != T.NULL
    ensures m == T.NULL <==> QueuedSet(timers) - {w} == {}
    ensures m != T.NULL ==> m in QueuedSet(timers) && m == Least(QueuedSet(timers) - {w}, Expiries(timers))
  {
    m := q.First();
    if m != w { FirstIsLeast(q, timers, w, m); }
    while m == w
      invariant m == w ==> q.IsFirst(w)
      invariant m != w ==> if m == T.NULL then QueuedSet(timers) - {w} == {}
        else m in QueuedSet(timers) - {w} && IsLeast(QueuedSet(timers) - {w}, Expiries(timers), m)
      decreases m == w
    {
      m := q.Next(m);
      NextIsLeast(q, timers, w, m);
    }
  }

  // Taking a timer off keeps its flag.
  method TakeOff(q: TimerQueues.KTimerQueue, a: Addr, ghost timers: map<Addr, Timer>)
    requires Holds(q, timers) && a in timers && timers[a].queued
    modifies q`firstActive, q`firstInactive, q.activeTree, q.inactiveTree
    ensures Holds(q, timers[a := timers[a].(queued := false)])
  {
    var r := q.Remove(a);
  }

  // Changing the deadline of a detached timer and putting it back, active or not.
  method PutBack(q: TimerQueues.KTimerQueue, a: Addr, expireAt: nat, active: bool, ghost timers: map<Addr, Timer>)
    requires Holds(q, timers) && a in timers && !timers[a].queued
    modifies q, q.activeTree, q.inactiveTree
    ensures Holds(q, timers[a := timers[a].(expireAt := expireAt, active := active, queued := true)])
  {
    q.SetExpireAt(a, expireAt);
    q.Insert(a, active);
  }

  // Leaving the queue for a blocked thread clears the flag as well.
  method Detach(q: TimerQueues.KTimerQueue, a: Addr, ghost timers: map<Addr, Timer>)
    requires Holds(q, timers) && a in timers && timers[a].queued
    modifies q`firstActive, q`firstInactive, q`active, q.activeTree, q.inactiveTree
    ensures Holds(q, timers[a := timers[a].(active := false, queued := false)])
  {
    var r := q.Dequeue(a);
  }

  lemma OffAndOn(timers: map<Addr, Timer>, a: Addr, expireAt: nat, active: bool)
    requires a in timers
    ensures var off, on := timers[a := timers[a].(queued := false)], timers[a].(expireAt := expireAt, active := active);
      off[a := off[a].(expireAt := expireAt, active := active, queued := true)] == timers[a := on.(queued := true)]
  {
  }

  // Together they are `Arm`.
  method Rearm(q: TimerQueues.KTimerQueue, a: Addr, expireAt: nat, active: bool, ghost timers: map<Addr, Timer>)
    requires Holds(q, timers) && a in timers && timers[a].queued
    modifies q, q.activeTree, q.inactiveTree
    ensures Holds(q, timers[a := timers[a].(expireAt := expireAt, active := active, queued := true)])
  {
    TakeOff(q, a, timers);
    ghost var off := timers[a := timers[a].(queued := false)];
    PutBack(q, a, expireAt, active, off);
    OffAndOn(timers, a, expireAt, active);
  }

  // ---------- The run queue ----------

  ghost predicate Queues(q: RunQueues.RunQueue, k: Kernel)
    reads q, q.tree
  { q.Valid() && StandsFor(q.tree.nodes, q.tree.key, k.runq, RunKeys(k)) && q.prioritySum == k.prioritySum }

  lemma JoinsSet(nodes: seq<Addr>, key: R.Keys, nodes': seq<Addr>, key': R.Keys, e: Addr, v: int)
    requires RunQueues.Joins(nodes, key, nodes', key', e, v)
    ensures forall u :: u in nodes' <==> u in nodes || u == e
  {
    var j: nat :| j <= |nodes| && nodes' == nodes[..j] + [e] + nodes[j..];
    assert nodes == nodes[..j] + nodes[j..];
  }

  // Waking a thread into the tree, rebuild loop included, is `EnqueueRun`.
  method EnqueueWoken(q: RunQueues.RunQueue, t: Addr, ghost k: Kernel, priority: nat, own: nat) returns (vruntime: int)
    requires Queues(q, k) && t != T.NULL && t !in k.runq && priority == Th(k, t).priority && own == Th(k, t).vruntime
    modifies q, q.tree
    ensures Queues(q, EnqueueRun(k, t)) && vruntime == Th(EnqueueRun(k, t), t).vruntime
  {
    ghost var nodes, key := q.tree.nodes, q.tree.key;
    HeadIsLeast(nodes, key, k.runq, RunKeys(k));
    vruntime := q.EnqueueFromWaitq(t, priority, own);
    JoinsKeys(nodes, key, q.tree.nodes, q.tree.key, k, EnqueueRun(k, t), t);
  }

  // A new thread, level with the leftmost, is `SpawnCfs`.
  method EnqueueNew(q: RunQueues.RunQueue, t: Addr, priority: nat, ghost k: Kernel) returns (vruntime: int)
    requires Queues(q, k) && t != T.NULL && t !in k.threads && k.runq <= k.threads.Keys
    requires k.prioritySum + priority <= U32_MAX
    modifies q`prioritySum, q.tree
    ensures Queues(q, SpawnCfs(k, t, priority)) && vruntime == Th(SpawnCfs(k, t, priority), t).vruntime
  {
    ghost var nodes, key := q.tree.nodes, q.tree.key;
    HeadIsLeast(nodes, key, k.runq, RunKeys(k));
    vruntime := q.EnqueueThread(t, priority, 0);
    JoinsSet(nodes, key, q.tree.nodes, q.tree.key, t, vruntime);
    JoinsKeys(nodes, key, q.tree.nodes, q.tree.key, k, SpawnCfs(k, t, priority), t);
  }

  // `t` joined the tree, and nobody else's vruntime changed.
  lemma JoinsKeys(nodes: seq<Addr>, key: R.Keys, nodes': seq<Addr>, key': R.Keys, k: Kernel, k': Kernel, t: Addr)
    requires StandsFor(nodes, key, k.runq, RunKeys(k)) && t !in k.runq && R.Sorted(nodes', key')
    requires RunQueues.Joins(nodes, key, nodes', key', t, Th(k', t).vruntime) && k'.runq == k.runq + {t}
    requires forall u :: u in k.runq ==> Th(k', u).vruntime == Th(k, u).vruntime
    ensures StandsFor(nodes', key', k'.runq, RunKeys(k'))
  {
    JoinsSet(nodes, key, nodes', key', t, Th(k', t).vruntime);
    forall u | u in k'.runq ensures R.KeyAt(key', u) == RunKeys(k')[u] {
      assert u != t ==> u in nodes && RunKeys(k)[u] == RunKeys(k')[u];
    }
  }

  // A preempted CFS thread goes back among the ready ones under its own vruntime.
  method Requeue(q: RunQueues.RunQueue, t: Addr, vruntime: nat, ghost k: Kernel)
    requires Queues(q, k) && t != T.NULL && t !in k.runq && vruntime == Th(k, t).vruntime
    modifies q.tree
    ensures Queues(q, k.(runq := k.runq + {t}))
  {
    ghost var nodes, key := q.tree.nodes, q.tree.key;
    ghost var j := q.tree.Insert(t, vruntime);
    R.InsertedMembers(nodes, j, t);
    assert RunQueues.Joins(nodes, key, q.tree.nodes, q.tree.key, t, vruntime) by { assert nodes[j..] == nodes[j..]; }
    JoinsKeys(nodes, key, q.tree.nodes, q.tree.key, k, k.(runq := k.runq + {t}), t);
  }

  // A thread that blocks gives up its place, if it is queued, and its share of the sum.
  method Leave(q: RunQueues.RunQueue, t: Addr, priority: nat, queued: bool, ghost k: Kernel)
    requires Queues(q, k) && (queued <==> t in k.runq)
    modifies q`prioritySum, q.tree
    ensures Queues(q, k.(runq := k.runq - {t}, prioritySum := SatSub(k.prioritySum, priority)))
  {
    ghost var nodes := q.tree.nodes;
    q.Dequeue(t, priority, queued);
    ghost var k' := k.(runq := k.runq - {t}, prioritySum := SatSub(k.prioritySum, priority));
    forall u | u in k'.runq ensures R.KeyAt(q.tree.key, u) == RunKeys(k')[u] { assert u in k.runq; }
  }

  // The thread that `schedule` takes is the leftmost one.
  method PopLeftmost(q: RunQueues.RunQueue, ghost k: Kernel) returns (t: Addr)
    requires Queues(q, k)
    modifies q.tree
    ensures t == T.NULL <==> k.runq == {}
    ensures k.runq != {} ==> t == Leftmost(k) && Queues(q, k.(runq := k.runq - {t}))
  {
    ghost var nodes, key := q.tree.nodes, q.tree.key;
    HeadIsLeast(nodes, key, k.runq, RunKeys(k));
    t := q.tree.PopFirst();
    PopSet(nodes, key, k.runq, RunKeys(k));
  }

  lemma PopSet(nodes: seq<Addr>, treeKey: R.Keys, s: set<Addr>, key: map<Addr, int>)
    requires StandsFor(nodes, treeKey, s, key)
    ensures nodes != [] ==> StandsFor(nodes[1..], treeKey, s - {nodes[0]}, key)
  {
    if nodes != [] {
      assert nodes == [nodes[0]] + nodes[1..];
      forall u | u in nodes[1..] ensures u != nodes[0] { }
    }
  }

  // ---------- Blocked threads ----------

  ghost predicate Blocks(q: WaitQueues.WaitQueue, k: Kernel)
    reads q, q.tree, q.suspended
  { q.Valid() && StandsFor(q.tree.nodes, q.tree.key, k.waits, WakeKeys(k)) && q.suspended.items == k.suspended }

  // A sleeper joined the timeout tree.
  lemma SleeperJoins(nodes: seq<Addr>, key: R.Keys, nodes': seq<Addr>, k: Kernel, t: Addr)
    requires StandsFor(nodes, key, k.waits, WakeKeys(k)) && t !in k.waits && Th(k, t).wakeAt != NEVER
    requires R.Sorted(nodes', key[t := Th(k, t).wakeAt]) && forall u :: u in nodes' <==> u in nodes || u == t
    ensures StandsFor(nodes', key[t := Th(k, t).wakeAt], InsertWait(k, t).waits, WakeKeys(InsertWait(k, t)))
  {
    var k' := InsertWait(k, t);
    forall u | u in k'.waits ensures R.KeyAt(key[t := Th(k, t).wakeAt], u) == WakeKeys(k')[u] {
      assert u != t ==> u in k.waits;
    }
  }

  // Registering a thread is `InsertWait`, in the index and in the state that its wake time calls for.
  method InsertBlocked(q: WaitQueues.WaitQueue, t: Addr, wakeAt: nat, ghost k: Kernel) returns (state: State)
    requires Blocks(q, k) && t != T.NULL && t !in k.waits && t !in k.suspended && wakeAt == Th(k, t).wakeAt
    modifies q.tree, q.suspended
    ensures Blocks(q, InsertWait(k, t)) && state == Th(InsertWait(k, t), t).state
  {
    ghost var nodes, key := q.tree.nodes, q.tree.key;
    state := q.Insert(t, wakeAt);
    if state.Waiting? {
      SleeperJoins(nodes, key, q.tree.nodes, k, t);
    } else {
      assert WakeKeys(InsertWait(k, t)) == WakeKeys(k);
    }
  }

  // Unlinking a blocked thread is `RemoveWait`.
  method RemoveBlocked(q: WaitQueues.WaitQueue, t: Addr, state: State, ghost k: Kernel)
    requires Blocks(q, k) && state == Th(k, t).state
    requires t in if state.Suspended? then q.suspended.items else q.tree.nodes
    modifies q.tree, q.suspended
    ensures Blocks(q, RemoveWait(k, t))
  {
    q.Remove(t, state);
    ghost var k' := RemoveWait(k, t);
    forall u | u in k'.waits ensures R.KeyAt(q.tree.key, u) == WakeKeys(k')[u] { assert u in k.waits; }
  }

  // The sleeper popped at a tick is the least one, and none is popped exactly when none is due.
  method PopDue(q: WaitQueues.WaitQueue, ghost k: Kernel, now: nat) returns (t: Addr)
    requires Blocks(q, k) && now == k.now < NEVER
    modifies q.tree
    ensures t == T.NULL <==> LeastWake(k) > k.now
    ensures t == T.NULL ==> Blocks(q, k)
    ensures t != T.NULL ==> k.waits != {} && t == Least(k.waits, WakeKeys(k)) && Blocks(q, k.(waits := k.waits - {t}))
  {
    ghost var nodes, key := q.tree.nodes, q.tree.key;
    HeadIsLeast(nodes, key, k.waits, WakeKeys(k));
    PopSet(nodes, key, k.waits, WakeKeys(k));
    t := q.PopExpired(now);
    if t != T.NULL {
      ghost var k' := k.(waits := k.waits - {t});
      forall u | u in k'.waits ensures R.KeyAt(q.tree.key, u) == WakeKeys(k')[u] { assert u in k.waits; }
    }
  }

  // ---------- Waiters of a synchronisation object ----------

  // A synchronisation object hands over to its least (deadline, address) waiter.
  method PopWaiter(tree: R.RbTree, ghost waiters: set<Addr>, ghost deadline: map<Addr, int>) returns (t: Addr)
    requires tree.Valid() && StandsFor(tree.nodes, tree.key, waiters, deadline)
    modifies tree
    ensures tree.Valid() && (t == T.NULL <==> waiters == {})
    ensures waiters != {} ==> t == Least(waiters, deadline) && StandsFor(tree.nodes, tree.key, waiters - {t}, deadline)
  {
    HeadIsLeast(tree.nodes, tree.key, waiters, deadline);
    PopSet(tree.nodes, tree.key, waiters, deadline);
    t := tree.PopFirst();
  }

  // A caller that was suspended joins the waiters under the deadline it had.
  method RegisterWaiter(
    tree: R.RbTree, t: Addr, d: int, ghost waiters: set<Addr>, ghost deadline: map<Addr, int>)
    requires tree.Valid() && StandsFor(tree.nodes, tree.key, waiters, deadline) && t != T.NULL && t !in waiters
    modifies tree
    ensures tree.Valid() && StandsFor(tree.nodes, tree.key, waiters + {t}, deadline[t := d])
  {
    ghost var nodes := tree.nodes;
    ghost var j := tree.Insert(t, d);
    R.InsertedMembers(nodes, j, t);
  }
}
