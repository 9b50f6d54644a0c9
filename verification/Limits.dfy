/** Exactly where the scheduler's guarantees stop, and which timer a dispatch follows. */
module Limits {
  import opened Kernel
  import opened SetSum
  import opened Location
  import opened Fairness
  import opened JoinEffects
  import opened Runs

  // An RT thread is dispatched exactly when its timer is the least active one by (expiry, address).
  lemma RtPickEarliest(k: Kernel, t: Addr)
    requires Inv(k) && t in k.threads && Th(k, t).kind.Rt?
    ensures Pick(k) == t <==>
      ActiveSet(k.timers) != {} && IsLeast(ActiveSet(k.timers), Expiries(k.timers), Th(k, t).timer)
    ensures Pick(k) == t ==> !IsBlocked(Th(k, t).state)
  {
    assert ThreadOk(k, t, None) && ThreadOk(k, k.idle, None) && ThreadOk(k, k.current, None);
    if k.next.Some? { assert TimerOk(k, k.next.v); }
    if k.runq != {} { assert ThreadOk(k, Leftmost(k), None); }
  }

  // ---------- A lone running CFS thread ----------

  // `c` runs and everybody else that competes is at vruntime `v`.
  ghost predicate Beside(k: Kernel, c: Addr, others: set<Addr>, v: nat) {
    && k.current == c && Runnable(k) == {c} + others && others != {}
    && forall t :: t in others ==> Th(k, t).vruntime == v
  }

  // Both halves of fairness, decided by the two vruntimes.
  lemma BesideExact(k: Kernel, c: Addr, others: set<Addr>, v: nat, bound: nat)
    requires Beside(k, c, others, v)
    ensures Spread(k, bound) <==> Th(k, c).vruntime <= v + bound && v <= Th(k, c).vruntime + bound
    ensures LeastServed(k) <==> Th(k, c).vruntime <= v
  {
    Inhabited(others);
    var t :| t in others;
    assert c in Runnable(k) && t in Runnable(k);
  }

  // A CFS thread that runs alone is the only runnable one.
  lemma LoneRunnable(k: Kernel)
    requires Settled(k) && k.currentIsCfs && k.runq == {}
    ensures Runnable(k) == {k.current}
  {
    forall u ensures u in Runnable(k) <==> u == k.current {
      if u in k.threads { assert ThreadOk(k, u, None); }
    }
  }

  // With an empty run tree a woken CFS thread keeps its own vruntime.
  lemma LoneWakeExact(k: Kernel, t: Addr, bound: nat)
    requires Settled(k) && k.currentIsCfs && k.runq == {}
    requires t in k.suspended && Th(k, t).kind.Cfs? && Wake(k, t).Ok?
    ensures var c, v, k' := Th(k, k.current).vruntime, Th(k, t).vruntime, Wake(k, t).k;
      && (Spread(k', bound) <==> c <= v + bound && v <= c + bound)
      && (LeastServed(k') <==> c <= v)
  {
    assert ThreadOk(k, t, None);
    WakeInv(k, t);
    LoneRunnable(k);
    var k' := Wake(k, t).k;
    assert Runnable(k') == Runnable(k) + {t};
    BesideExact(k', k.current, {t}, Th(k, t).vruntime, bound);
  }

  // A newcomer beside it starts at vruntime zero.
  lemma LoneSpawnExact(k: Kernel, t: Addr, priority: nat, bound: nat)
    requires Settled(k) && k.currentIsCfs && k.runq == {} && t !in k.threads
    ensures var c, k' := Th(k, k.current).vruntime, SpawnCfs(k, t, priority);
      && (Spread(k', bound) <==> c <= bound)
      && (LeastServed(k') <==> c == 0)
  {
    LoneRunnable(k);
    var k' := SpawnCfs(k, t, priority);
    assert Runnable(k') == Runnable(k) + {t};
    BesideExact(k', k.current, {t}, 0, bound);
  }

  // However many CFS sleepers a tick wakes beside it, the first to wake keeps its vruntime and the others join it.
  lemma LoneTickExact(k: Kernel, elapsed: nat, k': Kernel, bound: nat)
    requires Settled(k) && k.currentIsCfs && k.runq == {}
    requires Enabled(k, Tick(elapsed)) && TickStep(k, elapsed) == Ok(k') && DueCfs(k.(now := k.now + elapsed)) != {}
    ensures var k0 := k.(now := k.now + elapsed);
      var c, v := Th(k, k.current).vruntime, Th(k, Least(DueCfs(k0), WakeKeys(k0))).vruntime;
      && (Spread(k', bound) <==> c <= v + bound && v <= c + bound)
      && (LeastServed(k') <==> c <= v)
  {
    var k0, c := k.(now := k.now + elapsed), k.current;
    LoneRunnable(k);
    assert ThreadOk(k, c, None) && c !in DueCfs(k0);
    TickRunnable(k, elapsed, k');
    forall u ensures Th(k', u).vruntime == VrFate(k0, u) { TickVruntime(k, elapsed, k', u); }
    assert Th(k', c).vruntime == Th(k, c).vruntime;
    BesideExact(k', c, DueCfs(k0), JoinLevel(k0), bound);
  }

  // Thread 2 has run alone for 100 ticks of vruntime while thread 3 was suspended at 0.
  ghost function Lone(): Kernel {
    Kernel(map[1 := Thread(Idle, Ready, 0, 0, 0, 0, 0), 2 := Thread(Cfs, Running, 1, 100, 0, 0, 0),
               3 := Thread(Cfs, Suspended, 1, 0, NEVER, 0, 0)],
           map[10 := Timer(CfsTimer, 50, true, true, 20, 10), 11 := Timer(WaitTimer, NEVER, false, true, 0, 0)],
           10, 11, {}, {}, [3], 1, 2, true, 1, Some(10), 0)
  }

  lemma LoneSettled()
    ensures Settled(Lone()) && Fair(Lone(), 0)
  {
    var k := Lone();
    assert Runnable(k) == {2};
    SumRemove({2}, k.threads, 2);
    assert {2} - {2} == {};
    assert CfsThreads(k) == {2, 3};
    SumRemove({2, 3}, k.threads, 3);
    assert {2, 3} - {3} == {2};
    assert ActiveSet(k.timers) == {10};
  }

  // The spread jumps from 0 to exactly 100 although no time was charged at all.
  lemma LoneWakeSpreads()
    ensures Fair(Lone(), 0) && Wake(Lone(), 3).Ok?
    ensures Spread(Wake(Lone(), 3).k, 100) && !Spread(Wake(Lone(), 3).k, 99) && !LeastServed(Wake(Lone(), 3).k)
  {
    LoneSettled();
    var k := Lone();
    var k1 := Arm(EnqueueRun(RemoveWait(k, 3), 3), 11, LeastWake(EnqueueRun(RemoveWait(k, 3), 3)), false);
    assert ActiveSet(k1.timers) == {10};
    assert Refresh(k1).Ok?;
    LoneWakeExact(k, 3, 99);
    LoneWakeExact(k, 3, 100);
  }

  // ---------- When the idle thread is chosen ----------

  // Exactly with no active timer, or with the CFS slice active and nobody queued, whoever is running.
  lemma IdleExactly(k: Kernel)
    requires Inv(k)
    ensures Pick(k) == k.idle <==> k.next.None? || (k.next == Some(k.cfsTimer) && k.runq == {})
  {
    assert ThreadOk(k, k.idle, None) && ThreadOk(k, k.current, None);
    if k.next.Some? {
      assert TimerOk(k, k.next.v);
      if Tm(k, k.next.v).owner.RtTimer? { assert ThreadOk(k, Tm(k, k.next.v).owner.thread, None); }
    }
    if k.runq != {} { assert ThreadOk(k, Leftmost(k), None); }
  }

  // So a thread that runs alone loses the CPU to the idle thread: it is runnable, and idle is chosen.
  lemma IdleDespiteWork()
    ensures Settled(Lone()) && Lone().current in Runnable(Lone()) && Pick(Lone()) == Lone().idle
  {
    LoneSettled();
    IdleExactly(Lone());
  }

  // ---------- Waking a thread that has not been switched out yet ----------

  // What `schedule` needs before it re-inserts an unblocked current CFS thread.
  ghost predicate Requeueable(k: Kernel) {
    k.currentIsCfs && !IsBlocked(Th(k, k.current).state) ==> k.current !in k.runq
  }

  // A wake breaks it exactly when it wakes the current CFS thread before the pending switch.
  lemma WakeRequeueable(k: Kernel, t: Addr)
    requires Inv(k) && t in k.threads && IsBlocked(Th(k, t).state) && Wake(k, t).Ok?
    ensures Requeueable(Wake(k, t).k) <==> !(t == k.current && Th(k, t).kind.Cfs?)
  {
    assert ThreadOk(k, t, None) && ThreadOk(k, k.current, None);
    var k' := Wake(k, t).k;
    if t != k.current {
      WakeInv(k, t);
      assert ThreadOk(k', k'.current, None);
    } else {
      var k1 := RemoveWait(k, t);
      if Th(k, t).kind.Cfs? { ProgramWaitSame(EnqueueRun(k1, t)); } else { WakeRtCurrent(k, t); }
    }
  }

  // Thread 2, the CFS thread on the CPU, has just blocked.
  ghost function JustBlocked(): Kernel {
    Kernel(map[1 := Thread(Idle, Ready, 0, 0, 0, 0, 0), 2 := Thread(Cfs, Suspended, 1, 0, NEVER, 0, 0)],
           map[10 := Timer(CfsTimer, 50, false, true, 20, 10), 11 := Timer(WaitTimer, NEVER, false, true, 0, 0)],
           10, 11, {}, {}, [2], 0, 2, true, 1, None, 0)
  }

  // The state meets the invariant. Woken before the switch, the thread is in the run tree already when `schedule` would
  // insert it again.
  lemma EarlyWakeBreaks()
    ensures Inv(JustBlocked()) && Requeueable(JustBlocked())
    ensures Wake(JustBlocked(), 2).Ok? && !Requeueable(Wake(JustBlocked(), 2).k)
  {
    var k := JustBlocked();
    assert Runnable(k) == {} && CfsThreads(k) == {2};
    SumRemove({2}, k.threads, 2);
    assert {2} - {2} == {};
    assert ActiveSet(k.timers) == {};
    var k1 := EnqueueRun(RemoveWait(k, 2), 2);
    assert ActiveSet(Arm(k1, 11, LeastWake(k1), false).timers) == {};
    WakeRequeueable(k, 2);
  }

  lemma ProgramWaitSame(k: Kernel)
    requires Owned(k) && k.waitTimer in k.timers && ProgramWait(k).Ok?
    ensures SameThreads(k, ProgramWait(k).k)
  {
    RefreshSame(Arm(k, k.waitTimer, LeastWake(k), false));
  }

  lemma RefreshCurrent(k: Kernel)
    requires Refresh(k).Ok?
    ensures Refresh(k).k.currentIsCfs == k.currentIsCfs
  {
  }

  lemma WakeRtCurrent(k: Kernel, t: Addr)
    requires Inv(k) && t == k.current && Th(k, t).kind.Rt? && Wake(k, t).Ok?
    ensures !Wake(k, t).k.currentIsCfs
  {
    var k1 := Arm(SetState(RemoveWait(k, t), t, Ready), Th(k, t).timer, Tm(k, Th(k, t).timer).expireAt, true);
    RefreshCurrent(k1);
    var k2 := Refresh(k1).k;
    RefreshCurrent(Arm(k2, k2.waitTimer, LeastWake(k2), false));
  }
}
