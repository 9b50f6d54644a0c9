/** When a step leaves a scheduler timer as it is (src/ktimer.rs, src/thread.rs): guards that can be read off the state
    before the step. */
module TimerGuards {
  import opened Kernel
  import opened Location
  import opened Scheduling
  import opened ExpiryDispatch
  import opened DispatchEffects
  import opened Runs

  // `refresh_next_ktimer` re-arms only an expired active timer, so this one is safe from it.
  predicate Safe(k: Kernel, a: Addr) { !(Tm(k, a).active && Tm(k, a).expireAt <= k.now) }

  lemma RefreshKeeps(k: Kernel, a: Addr)
    requires Refresh(k).Ok? && Safe(k, a)
    ensures Tm(Refresh(k).k, a) == Tm(k, a) && Refresh(k).k.now == k.now && Refresh(k).k.waitTimer == k.waitTimer
  {
  }

  lemma ProgramWaitKeeps(k: Kernel, a: Addr)
    requires ProgramWait(k).Ok? && Safe(k, a) && a != k.waitTimer
    ensures Tm(ProgramWait(k).k, a) == Tm(k, a) && ProgramWait(k).k.now == k.now
    ensures ProgramWait(k).k.waitTimer == k.waitTimer
  {
    RefreshKeeps(Arm(k, k.waitTimer, LeastWake(k), false), a);
  }

  // ---------- What blocking and waking do to somebody else's timer ----------

  lemma InsertWaitKeeps(k: Kernel, t: Addr, sum: nat, a: Addr, k': Kernel)
    requires ProgramWait(InsertWait(k, t).(prioritySum := sum)) == Ok(k') && a != k.waitTimer && Safe(k, a)
    ensures Tm(k', a) == Tm(k, a) && k'.now == k.now && k'.waitTimer == k.waitTimer
  {
    ProgramWaitKeeps(InsertWait(k, t).(prioritySum := sum), a);
  }

  lemma ParkRtKeeps(k: Kernel, a: Addr, k1: Kernel, k': Kernel)
    requires Park(k) == Ok(k') && Th(k, k.current).kind.Rt? && a != k.waitTimer && Safe(k1, a)
    requires k1 == SetTm(k, Th(k, k.current).timer, Tm(k, Th(k, k.current).timer).(active := false, queued := false))
    ensures Tm(k', a) == Tm(k1, a) && k'.now == k.now && k'.waitTimer == k.waitTimer
  {
    if k.next == Some(Th(k, k.current).timer) { RefreshKeeps(k1, a); }
    var k2 := if k.next == Some(Th(k, k.current).timer) then Refresh(k1).k else k1;
    assert InsertWait(k2, k.current) == InsertWait(k2, k.current).(prioritySum := k2.prioritySum);
    InsertWaitKeeps(k2, k.current, k2.prioritySum, a, k');
  }

  lemma ParkKeeps(k: Kernel, a: Addr, k': Kernel)
    requires Park(k) == Ok(k') && !Th(k, k.current).kind.Idle? && a != k.waitTimer && Safe(k, a)
    requires Th(k, k.current).kind.Rt? ==> a != Th(k, k.current).timer
    ensures Tm(k', a) == Tm(k, a) && k'.now == k.now && k'.waitTimer == k.waitTimer
  {
    var t := k.current;
    if Th(k, t).kind.Cfs? {
      var k1 := if Th(k, t).state.Ready? then k.(runq := k.runq - {t}) else k;
      InsertWaitKeeps(k1, t, SatSub(k.prioritySum, Th(k, t).priority), a, k');
    } else {
      ParkRtKeeps(k, a, SetTm(k, Th(k, t).timer, Tm(k, Th(k, t).timer).(active := false, queued := false)), k');
    }
  }

  lemma WaitUntilKeeps(k: Kernel, elapsed: nat, wakeAt: nat, a: Addr, k': Kernel)
    requires Settled(k) && k.now + elapsed < NEVER && !Th(k, k.current).kind.Idle?
    requires WaitUntil(k, elapsed, wakeAt) == Ok(k')
    requires a != k.waitTimer && a != OwnTimer(k, k.current) && Safe(k.(now := k.now + elapsed), a)
    ensures Tm(k', a) == Tm(k, a) && k'.now == k.now + elapsed && k'.waitTimer == k.waitTimer
  {
    YieldTimerCore(k, elapsed, false);
    var k1 := YieldTimer(k, OwnTimer(k, k.current), elapsed, false);
    ParkKeeps(SetTh(k1, k.current, Th(k1, k.current).(wakeAt := wakeAt)), a, k');
  }

  lemma WakeKeeps(k: Kernel, t: Addr, a: Addr, k': Kernel)
    requires Wake(k, t) == Ok(k') && a != k.waitTimer && Safe(k, a) && (Th(k, t).kind.Rt? ==> a != Th(k, t).timer)
    requires !Th(k, t).kind.Idle?
    ensures Tm(k', a) == Tm(k, a)
  {
    var k1 := RemoveWait(k, t);
    if Th(k, t).kind.Cfs? {
      ProgramWaitKeeps(EnqueueRun(k1, t), a);
    } else {
      var k2 := Arm(SetState(k1, t, Ready), Th(k, t).timer, Tm(k, Th(k, t).timer).expireAt, true);
      RefreshKeeps(k2, a);
      ProgramWaitKeeps(Refresh(k2).k, a);
    }
  }

  // A woken RT thread's own timer becomes active under the deadline it has.
  lemma WakeOwn(k: Kernel, t: Addr, k': Kernel)
    requires Wake(k, t) == Ok(k') && Th(k, t).kind.Rt? && Th(k, t).timer != k.waitTimer
    requires Tm(k, Th(k, t).timer).expireAt > k.now
    ensures var a := Th(k, t).timer; Tm(k', a) == Tm(k, a).(active := true, queued := true)
  {
    var a := Th(k, t).timer;
    var k2 := Arm(SetState(RemoveWait(k, t), t, Ready), a, Tm(k, a).expireAt, true);
    RefreshKeeps(k2, a);
    ProgramWaitKeeps(Refresh(k2).k, a);
  }

  // ---------- The guards ----------

  // A tick leaves a queued timer that lies ahead, and a detached one whose thread is not a sleeper that is due.
  ghost predicate TickLeaves(k: Kernel, elapsed: nat, a: Addr) {
    if Tm(k, a).queued then Tm(k, a).expireAt > k.now + elapsed
    else Tm(k, a).owner.RtTimer? ==> !Due(k.(now := k.now + elapsed), Tm(k, a).owner.thread)
  }

  // Sleeping and blocking park the caller's timer and may re-arm an expired one.
  ghost predicate WaitLeaves(k: Kernel, elapsed: nat, a: Addr) {
    Th(k, k.current).kind.Idle? || (OwnTimer(k, k.current) != a && Safe(k.(now := k.now + elapsed), a))
  }

  ghost predicate Untouched(k: Kernel, s: Step, a: Addr) {
    match s
    case Tick(e) => TickLeaves(k, e, a)
    case Reschedule(_) => true
    case YieldCpu(_) => Th(k, k.current).kind.Idle? || OwnTimer(k, k.current) != a
    case SleepFor(e, _) => WaitLeaves(k, e, a)
    case BlockOn(e) => WaitLeaves(k, e, a)
    case WakeUp(t) => if Th(k, t).kind.Rt? && Th(k, t).timer == a then Tm(k, a).expireAt > k.now else Safe(k, a)
    case StartCfs(_, _) => true
    case StartRt(_, _, _, _) => Safe(k, a)
    case Rekey(t, _) => Th(k, t).kind.Idle? || (OwnTimer(k, t) != a && Safe(k, a))
  }

  // What a step under its guard does: nothing, except that a woken thread's own timer becomes active.
  ghost predicate Left(k: Kernel, s: Step, a: Addr, k': Kernel) {
    Tm(k', a) == if s.WakeUp? && Th(k, s.thread).kind.Rt? && Th(k, s.thread).timer == a
      then Tm(k, a).(active := true, queued := true) else Tm(k, a)
  }

  // A timer under its guard is its own fate.
  lemma LeftFate(k: Kernel, elapsed: nat, a: Addr)
    requires Core(k) && a in k.timers && a != k.waitTimer && TickLeaves(k, 0, a)
    ensures Tm(k, a).owner.RtTimer? ==> RtFate(k, elapsed, a) == Fate(Tm(k, a), Th(k, Tm(k, a).owner.thread).runtime)
    ensures !Tm(k, a).owner.RtTimer? ==> a == k.cfsTimer && CfsFate(Tm(k, a), k.now, elapsed) == Tm(k, a)
  {
    assert TimerOk(k, a);
    if Tm(k, a).owner.RtTimer? { assert ThreadOk(k, Tm(k, a).owner.thread, None); }
  }

  lemma DispatchKeeps(k: Kernel, elapsed: nat, a: Addr, k': Kernel)
    requires Dispatching(k) && Dispatch(k, elapsed) == Ok(k') && a in k.timers && a != k.waitTimer
    requires TickLeaves(k, 0, a)
    ensures Tm(k', a) == Tm(k, a)
  {
    LeftFate(k, elapsed, a);
    DispatchFate(k, elapsed, a);
  }

  lemma TickKeeps(k: Kernel, elapsed: nat, a: Addr, k': Kernel)
    requires Inv(k) && Enabled(k, Tick(elapsed)) && TickStep(k, elapsed) == Ok(k')
    requires a in k.timers && a != k.waitTimer && TickLeaves(k, elapsed, a)
    ensures Tm(k', a) == Tm(k, a)
  {
    AdvanceKeeps(k, elapsed);
    var k0 := k.(now := k.now + elapsed);
    var r := Dispatch(k0, elapsed);
    TickIs(k, elapsed, r);
    assert TickLeaves(k0, 0, a);
    DispatchKeeps(k0, elapsed, a, r.k);
  }

  lemma WakeUpKeeps(k: Kernel, t: Addr, a: Addr, k': Kernel)
    requires Inv(k) && Enabled(k, WakeUp(t)) && Wake(k, t) == Ok(k')
    requires a in k.timers && a != k.waitTimer && Untouched(k, WakeUp(t), a)
    ensures Left(k, WakeUp(t), a, k')
  {
    assert ThreadOk(k, t, None);
    if Th(k, t).kind.Rt? && Th(k, t).timer == a { WakeOwn(k, t, k'); } else { WakeKeeps(k, t, a, k'); }
  }

  lemma RekeyKeeps(k: Kernel, t: Addr, e: nat, a: Addr, k': Kernel)
    requires SetExpire(k, t, e) == Ok(k') && Untouched(k, Rekey(t, e), a)
    ensures Tm(k', a) == Tm(k, a)
  {
    if !Th(k, t).kind.Idle? {
      var b := OwnTimer(k, t);
      var k1 := SetTm(k, b, Tm(k, b).(expireAt := e));
      if Tm(k, b).queued || k.next == Some(b) { RefreshKeeps(k1, a); }
    }
  }

  lemma SpawnRtKeeps(k: Kernel, t: Addr, b: Addr, period: nat, deadline: nat, a: Addr, k': Kernel)
    requires SpawnRt(k, t, b, period, deadline) == Ok(k') && a != b && Safe(k, a)
    ensures Tm(k', a) == Tm(k, a)
  {
    RefreshKeeps(SetTm(SetTh(k, t, Thread(Rt, Ready, 0, 0, 0, 0, b)), b,
      Timer(RtTimer(t), deadline, true, true, period, deadline)), a);
  }

  lemma SleepKeeps(k: Kernel, elapsed: nat, ticks: nat, a: Addr, k': Kernel)
    requires Settled(k) && k.now + elapsed < NEVER && Sleep(k, elapsed, ticks) == Ok(k')
    requires a != k.waitTimer && WaitLeaves(k, elapsed, a)
    ensures Tm(k', a) == Tm(k, a)
  {
    if !Th(k, k.current).kind.Idle? { WaitUntilKeeps(k, elapsed, WakeTime(k.now, elapsed, ticks), a, k'); }
  }

  lemma WaitStepKeeps(k: Kernel, s: Step, a: Addr, k': Kernel)
    requires (s.SleepFor? || s.BlockOn?) && Inv(k) && Enabled(k, s) && Apply(k, s) == Ok(k')
    requires a in k.timers && a != k.waitTimer && Untouched(k, s, a)
    ensures Tm(k', a) == Tm(k, a)
  {
    match s
    case SleepFor(e, n) => SleepKeeps(k, e, n, a, k');
    case BlockOn(e) => if !Th(k, k.current).kind.Idle? { WaitUntilKeeps(k, e, NEVER, a, k'); }
  }

  lemma SetupStepKeeps(k: Kernel, s: Step, a: Addr, k': Kernel)
    requires (s.StartCfs? || s.StartRt? || s.Rekey?) && Inv(k) && Enabled(k, s) && Apply(k, s) == Ok(k')
    requires a in k.timers && a != k.waitTimer && Untouched(k, s, a)
    ensures Tm(k', a) == Tm(k, a)
  {
    match s
    case StartCfs(t, p) =>
    case StartRt(t, b, p, d) => SpawnRtKeeps(k, t, b, p, d, a, k');
    case Rekey(t, e) => RekeyKeeps(k, t, e, a, k');
  }

  lemma ClockStepKeeps(k: Kernel, s: Step, a: Addr, k': Kernel)
    requires (s.Tick? || s.Reschedule? || s.YieldCpu?) && Inv(k) && Enabled(k, s) && Apply(k, s) == Ok(k')
    requires a in k.timers && a != k.waitTimer && Untouched(k, s, a)
    ensures Tm(k', a) == Tm(k, a)
  {
    if s.Tick? { TickKeeps(k, s.elapsed, a, k'); }
  }

  // Every step leaves a timer as it is under its guard.
  lemma StepLeaves(k: Kernel, s: Step, a: Addr, k': Kernel)
    requires Inv(k) && Enabled(k, s) && Apply(k, s) == Ok(k') && a in k.timers && a != k.waitTimer && Untouched(k, s, a)
    ensures Left(k, s, a, k')
  {
    if s.Tick? || s.Reschedule? || s.YieldCpu? {
      ClockStepKeeps(k, s, a, k');
    } else if s.SleepFor? || s.BlockOn? {
      WaitStepKeeps(k, s, a, k');
    } else if s.WakeUp? {
      WakeUpKeeps(k, s.thread, a, k');
    } else {
      SetupStepKeeps(k, s, a, k');
    }
  }

  // ---------- Kinds ----------

  lemma SwitchKind(k: Kernel, u: Addr, t: Addr)
    requires k.current in k.threads && u in k.threads
    ensures Th(SwitchTo(k, u), t).kind == Th(k, t).kind
  {
  }

  lemma ScheduleKind(k: Kernel, elapsed: nat, t: Addr)
    requires Inv(k)
    ensures Th(Schedule(k, elapsed), t).kind == Th(k, t).kind
  {
    ChargeInv(k, elapsed);
    var k1 := Charge(k, elapsed);
    PickRunnable(k1);
    SwitchKind(k1, Pick(k1), t);
    assert Th(k1, t).kind == Th(k, t).kind;
  }

  lemma WaitKind(k: Kernel, elapsed: nat, wakeAt: nat, r: Outcome, t: Addr)
    requires Settled(k) && k.now + elapsed < NEVER && wakeAt <= NEVER && r.Ok? && t in k.threads
    requires r == if Th(k, k.current).kind.Idle? then Ok(k) else WaitUntil(k, elapsed, wakeAt)
    ensures Th(r.k, t).kind == Th(k, t).kind
  {
    if !Th(k, k.current).kind.Idle? { WaitUntilInv(k, elapsed, wakeAt); }
  }

  lemma SleepKind(k: Kernel, elapsed: nat, ticks: nat, t: Addr)
    requires Settled(k) && k.now + elapsed < NEVER && Sleep(k, elapsed, ticks).Ok? && t in k.threads
    ensures Th(Sleep(k, elapsed, ticks).k, t).kind == Th(k, t).kind
  {
    WaitKind(k, elapsed, WakeTime(k.now, elapsed, ticks), Sleep(k, elapsed, ticks), t);
  }

  lemma SpawnRtKind(k: Kernel, u: Addr, a: Addr, period: nat, deadline: nat, t: Addr)
    requires Inv(k) && u !in k.threads && t in k.threads && SpawnRt(k, u, a, period, deadline).Ok?
    ensures Th(SpawnRt(k, u, a, period, deadline).k, t).kind == Th(k, t).kind
  {
  }

  lemma WakeKind(k: Kernel, u: Addr, t: Addr)
    requires Inv(k) && Enabled(k, WakeUp(u)) && Wake(k, u).Ok? && t in k.threads
    ensures Th(Wake(k, u).k, t).kind == Th(k, t).kind
  {
    assert ThreadOk(k, u, None);
    WakeInv(k, u);
  }

  // No step changes what kind of thread somebody is.
  lemma StepKind(k: Kernel, s: Step, t: Addr)
    requires Inv(k) && Enabled(k, s) && Apply(k, s).Ok? && t in k.threads
    ensures Th(Apply(k, s).k, t).kind == Th(k, t).kind
  {
    match s
    case Tick(e) => TickInv(k, e, Apply(k, s).k);
    case Reschedule(e) => ScheduleKind(k, e, t);
    case YieldCpu(e) => YieldLegal(k, e);
    case SleepFor(e, n) => SleepKind(k, e, n, t);
    case BlockOn(e) => WaitKind(k, e, NEVER, Block(k, e), t);
    case WakeUp(u) => WakeKind(k, u, t);
    case StartCfs(u, p) =>
    case StartRt(u, a, p, d) => SpawnRtKind(k, u, a, p, d, t);
    case Rekey(u, e) => SetExpireInv(k, u, e);
  }

  // A thread keeps its timer because the timer keeps its owner.
  lemma SameOwnTimer(k: Kernel, o: Addr, k': Kernel)
    requires Inv(k) && Inv(k') && o in k.threads && Th(k', o).kind == Th(k, o).kind && !Th(k, o).kind.Idle?
    requires Tm(k', OwnTimer(k, o)).owner == Tm(k, OwnTimer(k, o)).owner
    ensures OwnTimer(k', o) == OwnTimer(k, o)
  {
  }

  // Only `schedule` changes who is current.
  lemma StepCurrent(k: Kernel, s: Step)
    requires Inv(k) && Enabled(k, s) && Apply(k, s).Ok? && !s.Reschedule?
    ensures Apply(k, s).k.current == k.current
  {
    match s
    case Tick(e) => TickInv(k, e, Apply(k, s).k);
    case YieldCpu(e) => YieldLegal(k, e);
    case SleepFor(e, n) => SleepCurrent(k, e, n);
    case BlockOn(e) => if !Th(k, k.current).kind.Idle? { WaitUntilInv(k, e, NEVER); }
    case WakeUp(u) => WakeCurrent(k, u);
    case StartCfs(u, p) =>
    case StartRt(u, a, p, d) =>
    case Rekey(u, e) => SetExpireInv(k, u, e);
  }

  lemma SleepCurrent(k: Kernel, elapsed: nat, ticks: nat)
    requires Settled(k) && k.now + elapsed < NEVER && Sleep(k, elapsed, ticks).Ok?
    ensures Sleep(k, elapsed, ticks).k.current == k.current
  {
    if !Th(k, k.current).kind.Idle? { WaitUntilInv(k, elapsed, WakeTime(k.now, elapsed, ticks)); }
  }

  lemma WakeCurrent(k: Kernel, u: Addr)
    requires Inv(k) && Enabled(k, WakeUp(u)) && Wake(k, u).Ok?
    ensures Wake(k, u).k.current == k.current
  {
    assert ThreadOk(k, u, None);
    WakeInv(k, u);
  }
}
