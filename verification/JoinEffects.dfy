/** The vruntimes after a tick, in closed form (src/ktimer.rs, src/runq.rs): the CFS sleepers that are due all join at
    one level. */
module JoinEffects {
  import opened Kernel
  import opened Location
  import opened ExpiryDispatch
  import opened Runs

  ghost function DueCfs(k: Kernel): set<Addr> { set t | t in k.waits && Due(k, t) && Th(k, t).kind.Cfs? }

  // The leftmost vruntime, or that of the first CFS sleeper to wake when no thread is queued.
  ghost function JoinLevel(k: Kernel): nat {
    if k.runq != {} then Th(k, Leftmost(k)).vruntime
    else if DueCfs(k) != {} then Th(k, Least(DueCfs(k), WakeKeys(k))).vruntime else 0
  }

  ghost function VrFate(k: Kernel, u: Addr): nat { if u in DueCfs(k) then JoinLevel(k) else Th(k, u).vruntime }

  // A thread that joins level with the leftmost leaves the level where it is.
  lemma LevelKept(k: Kernel, t: Addr, k': Kernel)
    requires k'.runq == k.runq + {t} && Th(k', t).vruntime == AlignedVruntime(k, t) && t !in k.runq
    requires forall u :: u in k.runq ==> Th(k', u).vruntime == Th(k, u).vruntime
    ensures Th(k', Leftmost(k')).vruntime == AlignedVruntime(k, t)
  {
    var m := Leftmost(k');
    assert IsLeast(k'.runq, RunKeys(k'), m);
    if k.runq != {} {
      var l := Leftmost(k);
      assert l in k'.runq && (m == t || m in k.runq);
    }
  }

  lemma CfsSleeperLevel(k: Kernel, elapsed: nat, t: Addr, k': Kernel)
    requires Core(k) && Due(k, t) && t == Least(k.waits, WakeKeys(k)) && Th(k, t).kind.Cfs?
    requires k' == WakeSleeper(k, elapsed, t)
    ensures forall u :: VrFate(k', u) == VrFate(k, u)
  {
    var k1 := k.(waits := k.waits - {t});
    assert ThreadOk(k, t, None);
    assert RunKeys(k1) == RunKeys(k);
    assert DueCfs(k') == DueCfs(k) - {t};
    LevelKept(k1, t, k');
    if k.runq == {} { assert IsLeast(DueCfs(k), WakeKeys(k), t); }
  }

  lemma RtSleeperLevel(k: Kernel, elapsed: nat, t: Addr, k': Kernel)
    requires Core(k) && Due(k, t) && Th(k, t).kind.Rt? && k' == WakeSleeper(k, elapsed, t)
    ensures forall u :: VrFate(k', u) == VrFate(k, u)
  {
    assert ThreadOk(k, t, None);
    assert RunKeys(k') == RunKeys(k) && DueCfs(k') == DueCfs(k);
    if k.runq == {} && DueCfs(k) != {} {
      assert IsLeast(DueCfs(k), WakeKeys(k), Least(DueCfs(k'), WakeKeys(k')));
    }
  }

  lemma {:induction false} WakeDueLevel(k: Kernel, elapsed: nat, u: Addr)
    requires Core(k) && CurrentStays(k)
    ensures VrFate(WakeDue(k, elapsed), u) == VrFate(k, u)
    decreases |k.waits|
  {
    if k.waits != {} && LeastWake(k) <= k.now {
      var t := Least(k.waits, WakeKeys(k));
      assert Due(k, t) && ThreadOk(k, t, None);
      var k1 := WakeSleeper(k, elapsed, t);
      if Th(k, t).kind.Cfs? { CfsSleeperLevel(k, elapsed, t, k1); } else { RtSleeperLevel(k, elapsed, t, k1); }
      WakeSleeperCore(k, elapsed, t);
      WakeDueLevel(k1, elapsed, u);
    }
  }

  // Nothing that decides a vruntime differs.
  lemma SameLevel(k: Kernel, k': Kernel)
    requires k'.waits == k.waits && k'.runq == k.runq && k'.now == k.now
    requires forall t :: Th(k', t) == Th(k, t).(runtime := Th(k', t).runtime)
    ensures forall u :: VrFate(k', u) == VrFate(k, u)
  {
    assert RunKeys(k') == RunKeys(k) && DueCfs(k') == DueCfs(k) && WakeKeys(k') == WakeKeys(k);
  }

  lemma TurnLevel(k: Kernel, elapsed: nat, b: Addr, k': Kernel, u: Addr)
    requires Dispatching(k) && Expired(k, b) && DispatchOne(k, elapsed, b) == Ok(k')
    ensures VrFate(k', u) == VrFate(k, u)
  {
    assert TimerOk(k, b);
    if b == k.waitTimer {
      WakeDueLevel(k, elapsed, u);
      SameLevel(WakeDue(k, elapsed), k');
    } else {
      SameLevel(k, k');
    }
  }

  lemma NoneLeft(k: Kernel, u: Addr)
    requires Dispatching(k) && (Earliest(k.timers).None? || Tm(k, Earliest(k.timers).v).expireAt > k.now)
    ensures VrFate(k, u) == Th(k, u).vruntime
  {
    assert TimerOk(k, k.waitTimer) && k.waitTimer in QueuedSet(k.timers);
    NoneDue(k);
    assert !Due(k, u);
  }

  lemma {:induction false} DispatchLevel(k: Kernel, elapsed: nat, u: Addr)
    requires Dispatching(k) && Dispatch(k, elapsed).Ok?
    ensures Th(Dispatch(k, elapsed).k, u).vruntime == VrFate(k, u)
    decreases Expired(k, k.waitTimer), |ExpiredRt(k)| + CfsTurns(k)
  {
    var e := Earliest(k.timers);
    if e.None? || Tm(k, e.v).expireAt > k.now {
      NoneLeft(k, u);
    } else {
      DispatchOneKeeps(k, elapsed, e.v);
      var k1 := DispatchOne(k, elapsed, e.v).k;
      TurnLevel(k, elapsed, e.v, k1, u);
      DispatchLevel(k1, elapsed, u);
    }
  }

  // After a tick every CFS thread that it woke is at the join level, and everybody else has the vruntime it had.
  lemma TickVruntime(k: Kernel, elapsed: nat, k': Kernel, u: Addr)
    requires Inv(k) && Enabled(k, Tick(elapsed)) && TickStep(k, elapsed) == Ok(k')
    ensures Th(k', u).vruntime == VrFate(k.(now := k.now + elapsed), u)
  {
    AdvanceKeeps(k, elapsed);
    var k0 := k.(now := k.now + elapsed);
    var r := Dispatch(k0, elapsed);
    TickIs(k, elapsed, r);
    DispatchLevel(k0, elapsed, u);
  }

  // Whoever competes after the tick competed before it or was woken by it.
  lemma TickRunnable(k: Kernel, elapsed: nat, k': Kernel)
    requires Inv(k) && Enabled(k, Tick(elapsed)) && TickStep(k, elapsed) == Ok(k')
    ensures Runnable(k') == Runnable(k) + DueCfs(k.(now := k.now + elapsed)) && k'.current == k.current
  {
    TickInv(k, elapsed, k');
    forall u ensures u in Runnable(k') <==> u in Runnable(k) + DueCfs(k.(now := k.now + elapsed)) {
      if u in k.threads { assert ThreadOk(k, u, None) && ThreadOk(k', u, None); }
    }
  }

  // `v` is the least vruntime in the run tree, or `own` when it is empty.
  ghost predicate Level(k: Kernel, v: nat, own: nat) {
    if k.runq == {} then v == own
    else
      && (forall u :: u in k.runq ==> v <= Th(k, u).vruntime)
      && exists u :: u in k.runq && Th(k, u).vruntime == v
  }

  lemma AlignedIsLevel(k: Kernel, t: Addr)
    ensures Level(k, AlignedVruntime(k, t), Th(k, t).vruntime)
  {
    if k.runq != {} { assert IsLeast(k.runq, RunKeys(k), Leftmost(k)); }
  }

  // A woken CFS thread joins at that level and is otherwise as it was.
  lemma WakeLevel(k: Kernel, t: Addr, k': Kernel)
    requires Inv(k) && t in k.threads && IsBlocked(Th(k, t).state) && t != k.current && Th(k, t).kind.Cfs?
    requires Wake(k, t) == Ok(k')
    ensures Level(k, Th(k', t).vruntime, Th(k, t).vruntime) && k'.runq == k.runq + {t}
    ensures Th(k', t) ==
      Th(k, t).(state := Ready, vruntime := Th(k', t).vruntime, runtime := Th(k', t).runtime)
  {
    assert ThreadOk(k, t, None);
    WakeInv(k, t);
    AlignedIsLevel(k, t);
    RemoveWaitUnlinks(k, t);
    WakeCfsCore(k, RemoveWait(k, t), t);
    ProgramWaitLegal(EnqueueRun(RemoveWait(k, t), t));
  }

  // So does a new one, which would start at zero.
  lemma SpawnLevel(k: Kernel, t: Addr, priority: nat)
    requires Inv(k) && t !in k.threads
    ensures var k' := SpawnCfs(k, t, priority);
      && Th(k', t) == Thread(Cfs, Ready, priority, Th(k', t).vruntime, 0, 0, 0) && Level(k, Th(k', t).vruntime, 0)
      && k'.runq == k.runq + {t} && k'.prioritySum == k.prioritySum + priority && k'.timers == k.timers
      && forall u :: u != t ==> Th(k', u) == Th(k, u)
  {
    AlignedIsLevel(k, t);
  }
}
