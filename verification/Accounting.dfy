/** What sleeping and blocking charge an RT thread (src/thread.rs, src/ktimer.rs), and which jobs miss their deadline
    for it when they wake. */
module Accounting {
  import opened Kernel
  import opened Location
  import opened Scheduling
  import opened ExpiryDispatch
  import opened DispatchEffects
  import opened Runs
  import opened TimerGuards
  import opened Timing
  import opened Rearming

  // ---------- Refreshing leaves a parked thread alone ----------

  // No active timer belongs to `t`.
  ghost predicate Parked(k: Kernel, t: Addr) { forall a :: IsActive(k, a) ==> Tm(k, a).owner != RtTimer(t) }

  // Every active timer was one before, with the same owner.
  lemma ParkedStill(k: Kernel, t: Addr, k': Kernel)
    requires Parked(k, t) && forall a :: IsActive(k', a) ==> IsActive(k, a) && Tm(k', a).owner == Tm(k, a).owner
    ensures Parked(k', t)
  {
  }

  lemma RefreshSpares(k: Kernel, t: Addr, k': Kernel)
    requires Refresh(k) == Ok(k') && Parked(k, t)
    ensures Th(k', t) == Th(k, t) && Parked(k', t)
  {
    if forall a :: IsActive(k, a) ==> Tm(k, a).expireAt > k.now {
      RefreshQuiet(k);
    } else {
      NoneActive(k);
      var e := EarliestActive(k.timers).v;
      FirstOnly(k, e);
      RefreshFires(k, e);
    }
    ParkedStill(k, t, k');
  }

  lemma ProgramWaitSpares(k: Kernel, t: Addr, k': Kernel)
    requires ProgramWait(k) == Ok(k') && Parked(k, t)
    ensures Th(k', t) == Th(k, t) && Parked(k', t)
  {
    var k1 := Arm(k, k.waitTimer, LeastWake(k), false);
    ParkedStill(k, t, k1);
    RefreshSpares(k1, t, k');
  }

  // ---------- Sleep and block ----------

  // What is left of `whole` after `used`.
  function Rest(whole: nat, used: nat): nat { if used <= whole then whole - used else 0 }

  // The runtime is 32 bits wide.
  function Used(runtime: nat, elapsed: nat): nat {
    if runtime + elapsed <= U32_MAX then runtime + elapsed else U32_MAX
  }

  // The caller `c` waits until `w`, charged for the time it ran, its timer detached for the rest of its period.
  ghost predicate RtLeaves(k: Kernel, elapsed: nat, w: nat, k': Kernel) {
    var c := k.current;
    var a, used := Th(k, c).timer, Used(Th(k, c).runtime, elapsed);
    && Th(k', c) == Th(k, c).(state := if w == NEVER then Suspended else Waiting, wakeAt := w, runtime := used)
    && Tm(k', a) == Tm(k, a).(expireAt := Later(k.now + elapsed, Rest(Tm(k, a).period, used)), active := false,
                              queued := false)
  }

  lemma ParkRtLeaves(k: Kernel, k1: Kernel, k2: Kernel, k': Kernel)
    requires Park(k) == Ok(k') && Th(k, k.current).kind.Rt? && k.current in k.threads && Parked(k1, k.current)
    requires Th(k, k.current).timer != k.waitTimer && Th(k, k.current).timer in k.timers
    requires k1 == SetTm(k, Th(k, k.current).timer, Tm(k, Th(k, k.current).timer).(active := false, queued := false))
    requires k2 == if k.next == Some(Th(k, k.current).timer) then Refresh(k1).k else k1
    ensures var c := k.current;
      Th(k', c) == Th(k, c).(state := if Th(k, c).wakeAt == NEVER then Suspended else Waiting)
    ensures Tm(k', Th(k, k.current).timer) == Tm(k1, Th(k, k.current).timer)
  {
    var c := k.current;
    var a := Th(k, c).timer;
    if k.next == Some(a) { RefreshSpares(k1, c, k2); }
    var k3 := InsertWait(k2, c);
    assert Parked(k3, c) by { assert forall b :: IsActive(k3, b) <==> IsActive(k2, b); }
    ProgramWaitSpares(k3, c, k');
    ParkRtKeeps(k, a, k1, k');
  }

  lemma RtWaits(k: Kernel, elapsed: nat, w: nat, k': Kernel)
    requires Settled(k) && k.now + elapsed < NEVER && Th(k, k.current).kind.Rt? && WaitUntil(k, elapsed, w) == Ok(k')
    ensures RtLeaves(k, elapsed, w, k')
  {
    var c := k.current;
    var a := Th(k, c).timer;
    assert ThreadOk(k, c, None) && TimerOk(k, a);
    YieldTimerCore(k, elapsed, false);
    var k0 := YieldTimer(k, a, elapsed, false);
    var k1 := SetTh(k0, c, Th(k0, c).(wakeAt := w));
    var k2 := SetTm(k1, a, Tm(k1, a).(active := false, queued := false));
    assert Parked(k2, c) by {
      forall b | IsActive(k2, b) ensures Tm(k2, b).owner != RtTimer(c) { assert TimerOk(k, b); }
    }
    ParkRtLeaves(k1, k2, if k1.next == Some(a) then Refresh(k2).k else k2, k');
  }

  // The same for a CFS caller, which is not charged: what is left of the period passes before the next slice.
  ghost predicate CfsLeaves(k: Kernel, elapsed: nat, w: nat, k': Kernel) {
    var c, a := k.current, k.cfsTimer;
    && Th(k', c) == Th(k, c).(state := if w == NEVER then Suspended else Waiting, wakeAt := w)
    && Tm(k', a) == Tm(k, a).(expireAt := Later(k.now + elapsed, Rest(Tm(k, a).period, elapsed)), active := false)
  }

  lemma CfsWaits(k: Kernel, elapsed: nat, w: nat, k': Kernel)
    requires Settled(k) && k.now + elapsed < NEVER && Th(k, k.current).kind.Cfs? && WaitUntil(k, elapsed, w) == Ok(k')
    ensures CfsLeaves(k, elapsed, w, k')
  {
    var c, a := k.current, k.cfsTimer;
    assert ThreadOk(k, c, None) && TimerOk(k, a);
    YieldTimerCore(k, elapsed, false);
    var k0 := YieldTimer(k, a, elapsed, false);
    var k1 := SetTh(k0, c, Th(k0, c).(wakeAt := w));
    ParkKeeps(k1, a, k');
    var k2 := InsertWait(k1, c).(prioritySum := SatSub(k1.prioritySum, Th(k1, c).priority));
    assert Parked(k2, c) by {
      forall b | IsActive(k2, b) ensures Tm(k2, b).owner != RtTimer(c) { assert TimerOk(k, b); }
    }
    ProgramWaitSpares(k2, c, k');
  }

  // What a sleep leaves behind: an RT caller charged for the time it ran, its timer detached until the wake-up; a CFS
  // caller's slice paused.
  lemma SleepAccounts(k: Kernel, elapsed: nat, ticks: nat, k': Kernel)
    requires Settled(k) && k.now + elapsed < NEVER && Sleep(k, elapsed, ticks) == Ok(k')
    ensures Th(k, k.current).kind.Rt? ==> RtLeaves(k, elapsed, Later(k.now + elapsed, ticks), k')
    ensures Th(k, k.current).kind.Cfs? ==> CfsLeaves(k, elapsed, Later(k.now + elapsed, ticks), k')
  {
    var w := WakeTime(k.now, elapsed, ticks);
    if Th(k, k.current).kind.Rt? { RtWaits(k, elapsed, w, k'); }
    if Th(k, k.current).kind.Cfs? { CfsWaits(k, elapsed, w, k'); }
  }

  // The same for a block, which has no wake time.
  lemma BlockAccounts(k: Kernel, elapsed: nat, k': Kernel)
    requires Settled(k) && k.now + elapsed < NEVER && Block(k, elapsed) == Ok(k')
    ensures Th(k, k.current).kind.Rt? ==> RtLeaves(k, elapsed, NEVER, k')
    ensures Th(k, k.current).kind.Cfs? ==> CfsLeaves(k, elapsed, NEVER, k')
  {
    if Th(k, k.current).kind.Rt? { RtWaits(k, elapsed, NEVER, k'); }
    if Th(k, k.current).kind.Cfs? { CfsWaits(k, elapsed, NEVER, k'); }
  }

  // ---------- While it sleeps ----------

  lemma SleeperParked(k: Kernel, t: Addr)
    requires Core(k) && t in k.threads && IsBlocked(Th(k, t).state)
    ensures Parked(k, t)
  {
    assert ThreadOk(k, t, None);
    forall a | IsActive(k, a) ensures Tm(k, a).owner != RtTimer(t) { assert TimerOk(k, a); }
  }

  lemma ScheduleSpares(k: Kernel, elapsed: nat, t: Addr)
    requires Inv(k) && t in k.threads && IsBlocked(Th(k, t).state)
    ensures Th(Schedule(k, elapsed), t) == Th(k, t)
  {
    ChargeInv(k, elapsed);
    PickRunnable(Charge(k, elapsed));
  }

  lemma YieldSpares(k: Kernel, elapsed: nat, t: Addr)
    requires Inv(k) && Th(k, k.current).state.Running? && t in k.threads && IsBlocked(Th(k, t).state)
    ensures Th(Yield(k, elapsed), t) == Th(k, t)
  {
    assert ThreadOk(k, k.current, None) && TimerOk(k, k.cfsTimer);
  }

  lemma ParkCfsSpares(k: Kernel, t: Addr, k': Kernel)
    requires Park(k) == Ok(k') && Th(k, k.current).kind.Cfs? && t != k.current && Parked(k, t)
    ensures Th(k', t) == Th(k, t)
  {
    var c := k.current;
    var k1 := if Th(k, c).state.Ready? then k.(runq := k.runq - {c}) else k;
    var k2 := InsertWait(k1, c).(prioritySum := SatSub(k.prioritySum, Th(k, c).priority));
    ParkedStill(k, t, k2);
    ProgramWaitSpares(k2, t, k');
  }

  lemma ParkRtSpares(k: Kernel, t: Addr, k1: Kernel, k2: Kernel, k': Kernel)
    requires Park(k) == Ok(k') && Th(k, k.current).kind.Rt? && t != k.current && Parked(k, t)
    requires k1 == SetTm(k, Th(k, k.current).timer, Tm(k, Th(k, k.current).timer).(active := false, queued := false))
    requires k2 == if k.next == Some(Th(k, k.current).timer) then Refresh(k1).k else k1
    ensures Th(k', t) == Th(k, t)
  {
    ParkedStill(k, t, k1);
    if k.next == Some(Th(k, k.current).timer) { RefreshSpares(k1, t, k2); }
    ParkedStill(k2, t, InsertWait(k2, k.current));
    ProgramWaitSpares(InsertWait(k2, k.current), t, k');
  }

  lemma ParkSpares(k: Kernel, t: Addr, k': Kernel)
    requires Park(k) == Ok(k') && !Th(k, k.current).kind.Idle? && t != k.current && Parked(k, t)
    ensures Th(k', t) == Th(k, t)
  {
    if Th(k, k.current).kind.Cfs? {
      ParkCfsSpares(k, t, k');
    } else {
      var a := Th(k, k.current).timer;
      var k1 := SetTm(k, a, Tm(k, a).(active := false, queued := false));
      ParkRtSpares(k, t, k1, if k.next == Some(a) then Refresh(k1).k else k1, k');
    }
  }

  lemma WaitSpares(k: Kernel, elapsed: nat, w: nat, r: Outcome, t: Addr)
    requires Settled(k) && k.now + elapsed < NEVER && t in k.threads && IsBlocked(Th(k, t).state) && r.Ok?
    requires r == if Th(k, k.current).kind.Idle? then Ok(k) else WaitUntil(k, elapsed, w)
    ensures Th(r.k, t) == Th(k, t)
  {
    if !Th(k, k.current).kind.Idle? {
      assert ThreadOk(k, k.current, None) && TimerOk(k, k.cfsTimer);
      YieldTimerCore(k, elapsed, false);
      var k1 := YieldTimer(k, OwnTimer(k, k.current), elapsed, false);
      SleeperParked(k1, t);
      var k2 := SetTh(k1, k.current, Th(k1, k.current).(wakeAt := w));
      ParkedStill(k1, t, k2);
      ParkSpares(k2, t, r.k);
    }
  }

  lemma WakeSpares(k: Kernel, u: Addr, t: Addr, k': Kernel)
    requires Inv(k) && Enabled(k, WakeUp(u)) && Wake(k, u) == Ok(k') && t in k.threads && IsBlocked(Th(k, t).state)
    requires t != u
    ensures Th(k', t) == Th(k, t)
  {
    assert ThreadOk(k, u, None);
    SleeperParked(k, t);
    var k1 := RemoveWait(k, u);
    if Th(k, u).kind.Cfs? {
      ParkedStill(k, t, EnqueueRun(k1, u));
      ProgramWaitSpares(EnqueueRun(k1, u), t, k');
    } else {
      var a := Th(k, u).timer;
      var k2 := Arm(SetState(k1, u, Ready), a, Tm(k, a).expireAt, true);
      assert forall b :: IsActive(k2, b) && b != a ==> IsActive(k, b) && Tm(k2, b) == Tm(k, b);
      assert Parked(k2, t);
      RefreshSpares(k2, t, Refresh(k2).k);
      ProgramWaitSpares(Refresh(k2).k, t, k');
    }
  }

  lemma SpawnRtSpares(k: Kernel, u: Addr, a: Addr, period: nat, deadline: nat, t: Addr, k': Kernel)
    requires Inv(k) && u !in k.threads && SpawnRt(k, u, a, period, deadline) == Ok(k')
    requires t in k.threads && IsBlocked(Th(k, t).state)
    ensures Th(k', t) == Th(k, t)
  {
    SleeperParked(k, t);
    var k1 := SetTm(SetTh(k, u, Thread(Rt, Ready, 0, 0, 0, 0, a)), a,
      Timer(RtTimer(u), deadline, true, true, period, deadline));
    assert forall b :: IsActive(k1, b) && b != a ==> IsActive(k, b) && Tm(k1, b) == Tm(k, b);
    assert Parked(k1, t);
    RefreshSpares(k1, t, k');
  }

  lemma RekeySpares(k: Kernel, u: Addr, e: nat, t: Addr, k': Kernel)
    requires Inv(k) && u in k.threads && SetExpire(k, u, e) == Ok(k') && t in k.threads && IsBlocked(Th(k, t).state)
    ensures Th(k', t) == Th(k, t)
  {
    SleeperParked(k, t);
    if !Th(k, u).kind.Idle? {
      ParkedStill(k, t, Rekeyed(k, u, e));
      if Tm(k, OwnTimer(k, u)).queued || k.next == Some(OwnTimer(k, u)) { RefreshSpares(Rekeyed(k, u, e), t, k'); }
    }
  }

  lemma TickSpares(k: Kernel, elapsed: nat, t: Addr, w: nat, k': Kernel)
    requires Inv(k) && Enabled(k, Tick(elapsed)) && TickStep(k, elapsed) == Ok(k') && Asleep(k, t, w)
    requires Th(k, t).kind.Rt? && w > k.now + elapsed
    ensures Th(k', t).runtime == Th(k, t).runtime
  {
    var a, k0 := Th(k, t).timer, k.(now := k.now + elapsed);
    assert ThreadOk(k, t, None) && TimerOk(k, a);
    AdvanceKeeps(k, elapsed);
    TickIs(k, elapsed, Dispatch(k0, elapsed));
    assert !Due(k0, t) && Tm(k0, a) == Tm(k, a);
    DispatchFate(k0, elapsed, a);
  }

  lemma StepRuntime(k: Kernel, s: Step, t: Addr, w: nat, k': Kernel)
    requires Inv(k) && Enabled(k, s) && Apply(k, s) == Ok(k') && Asleep(k, t, w) && Th(k, t).kind.Rt?
    requires s.Tick? ==> w > k.now + s.elapsed
    ensures Th(k', t).runtime == Th(k, t).runtime
  {
    assert ThreadOk(k, t, None);
    match s
    case Tick(e) => TickSpares(k, e, t, w, k');
    case Reschedule(e) => ScheduleSpares(k, e, t);
    case YieldCpu(e) => YieldSpares(k, e, t);
    case SleepFor(e, n) => SleepSpares(k, e, n, t, k');
    case BlockOn(e) => WaitSpares(k, e, NEVER, Block(k, e), t);
    case WakeUp(u) => WakeSpares(k, u, t, k');
    case StartCfs(u, p) =>
    case StartRt(u, a, p, d) => SpawnRtSpares(k, u, a, p, d, t, k');
    case Rekey(u, e) => RekeySpares(k, u, e, t, k');
  }

  lemma SleepSpares(k: Kernel, elapsed: nat, ticks: nat, t: Addr, k': Kernel)
    requires Settled(k) && k.now + elapsed < NEVER && Sleep(k, elapsed, ticks) == Ok(k')
    requires t in k.threads && IsBlocked(Th(k, t).state)
    ensures Th(k', t) == Th(k, t)
  {
    WaitSpares(k, elapsed, WakeTime(k.now, elapsed, ticks), Ok(k'), t);
  }

  // The detached timer is left alone, but for a new deadline of its own.
  lemma StepTimer(k: Kernel, s: Step, t: Addr, w: nat, k': Kernel)
    requires Inv(k) && Enabled(k, s) && Apply(k, s) == Ok(k') && Asleep(k, t, w) && Th(k, t).kind.Rt?
    requires s.Tick? ==> w > k.now + s.elapsed
    ensures var a := Th(k, t).timer; Tm(k', a) == Tm(k, a).(expireAt := Tm(k', a).expireAt)
  {
    var a := Th(k, t).timer;
    assert ThreadOk(k, t, None) && TimerOk(k, a);
    if s.Rekey? && s.thread == t {
      RekeyInactive(k, t, s.expireAt, k');
    } else {
      assert ThreadOk(k, k.current, None);
      if s.WakeUp? { assert ThreadOk(k, s.thread, None); }
      if s.Rekey? { assert ThreadOk(k, s.thread, None); }
      StepLeaves(k, s, a, k');
    }
  }

  // The sleeping RT thread `t` has used `used` ticks of the job of its timer `a`.
  ghost predicate Holds(k: Kernel, t: Addr, w: nat, a: Addr, used: nat, deadline: nat) {
    && Asleep(k, t, w) && Th(k, t).kind.Rt? && Th(k, t).timer == a && Th(k, t).runtime == used
    && Tm(k, a).deadline == deadline
  }

  lemma StepHolds(k: Kernel, s: Step, t: Addr, w: nat, a: Addr, used: nat, deadline: nat, k': Kernel)
    requires Inv(k) && Enabled(k, s) && Apply(k, s) == Ok(k') && Holds(k, t, w, a, used, deadline)
    requires s.Tick? ==> w > k.now + s.elapsed
    ensures Inv(k') && Holds(k', t, w, a, used, deadline)
  {
    StepInv(k, s);
    SleepStep(k, s, t, w);
    StepKind(k, s, t);
    StepRuntime(k, s, t, w, k');
    StepTimer(k, s, t, w, k');
    SameOwnTimer(k, t, k');
  }

  lemma {:induction false} RunHolds(k: Kernel, steps: seq<Step>, t: Addr, w: nat, a: Addr, used: nat, deadline: nat,
                                    k': Kernel)
    requires Inv(k) && Reaches(k, steps, k') && NoTickFrom(k, steps, w) && Holds(k, t, w, a, used, deadline)
    ensures Inv(k') && Holds(k', t, w, a, used, deadline)
    decreases |steps|
  {
    if steps != [] {
      var k1 := Apply(k, steps[0]).k;
      StepHolds(k, steps[0], t, w, a, used, deadline, k1);
      RunHolds(k1, steps[1..], t, w, a, used, deadline, k');
    }
  }

  // ---------- The tick that wakes it ----------

  // The job has used more than its deadline by the end of the interval. Runtimes saturate, so a deadline of 32 ones is
  // never missed.
  ghost predicate Late(used: nat, elapsed: nat, deadline: nat) { used + elapsed > deadline && deadline < U32_MAX }

  lemma WakingTick(k: Kernel, elapsed: nat, t: Addr, w: nat, a: Addr, used: nat, deadline: nat)
    requires Inv(k) && Enabled(k, Tick(elapsed)) && Holds(k, t, w, a, used, deadline) && w <= k.now + elapsed
    ensures Overruns(k.(now := k.now + elapsed), elapsed, a) <==> Late(used, elapsed, deadline)
    ensures Late(used, elapsed, deadline) ==> TickStep(k, elapsed).Missed?
    ensures TickStep(k, elapsed) == Missed(t) ==> Late(used, elapsed, deadline)
  {
    var k0 := k.(now := k.now + elapsed);
    assert ThreadOk(k, t, None) && TimerOk(k, a);
    AdvanceKeeps(k, elapsed);
    TickIs(k, elapsed, Dispatch(k0, elapsed));
    assert Due(k0, t) && Tm(k0, a) == Tm(k, a) && Th(k0, t) == Th(k, t);
    MissExactly(k0, elapsed);
    if TickStep(k, elapsed) == Missed(t) {
      var b :| Overruns(k0, elapsed, b) && Tm(k0, b).owner == RtTimer(t);
      assert TimerOk(k, b) && Tm(k0, b) == Tm(k, b);
    }
  }

  // If the tick comes to an end the job goes on with what is left of its deadline, or starts over if that is nothing.
  lemma WakingTickResumes(k: Kernel, elapsed: nat, t: Addr, w: nat, a: Addr, used: nat, deadline: nat, k': Kernel)
    requires Inv(k) && Enabled(k, Tick(elapsed)) && Holds(k, t, w, a, used, deadline) && w <= k.now + elapsed
    requires TickStep(k, elapsed) == Ok(k')
    ensures Th(k', t).state.Ready? && Th(k', t).runtime ==
      if Used(used, elapsed) == deadline then 0 else Used(used, elapsed)
    ensures Tm(k', a) == Tm(k, a).(active := true, queued := true, expireAt := Later(k.now + elapsed,
      if Used(used, elapsed) == deadline then deadline else Rest(deadline, Used(used, elapsed))))
  {
    var k0 := k.(now := k.now + elapsed);
    assert ThreadOk(k, t, None) && TimerOk(k, a);
    AdvanceKeeps(k, elapsed);
    TickIs(k, elapsed, Dispatch(k0, elapsed));
    assert Due(k0, t) && Tm(k0, a) == Tm(k, a) && Th(k0, t) == Th(k, t);
    MissExactly(k0, elapsed);
    WakingTick(k, elapsed, t, w, a, used, deadline);
    DispatchFate(k0, elapsed, a);
    SleepStep(k, Tick(elapsed), t, w);
  }

  lemma SleepHolds(k: Kernel, elapsed: nat, ticks: nat, k1: Kernel)
    requires Settled(k) && k.now + elapsed + ticks < NEVER && Th(k, k.current).kind.Rt?
    requires Sleep(k, elapsed, ticks) == Ok(k1)
    ensures var t, a := k.current, Th(k, k.current).timer;
      Inv(k1) &&
        Holds(k1, t, k.now + elapsed + ticks, a, Used(Th(k, t).runtime, elapsed), Tm(k, a).deadline)
  {
    WaitUntilInv(k, elapsed, WakeTime(k.now, elapsed, ticks));
    SleepAccounts(k, elapsed, ticks, k1);
    SleepUntil(k, elapsed, ticks, k1);
  }

  lemma HeldLate(k1: Kernel, steps: seq<Step>, k2: Kernel, tick: nat, t: Addr, w: nat, a: Addr, used: nat,
    deadline: nat)
    requires Inv(k1) && Reaches(k1, steps, k2) && NoTickFrom(k1, steps, w) && Holds(k1, t, w, a, used, deadline)
    requires Inv(k2) && Enabled(k2, Tick(tick)) && w <= k2.now + tick
    ensures Overruns(k2.(now := k2.now + tick), tick, a) <==> Late(used, tick, deadline)
    ensures Late(used, tick, deadline) ==> TickStep(k2, tick).Missed?
    ensures TickStep(k2, tick) == Missed(t) ==> Late(used, tick, deadline)
  {
    RunHolds(k1, steps, t, w, a, used, deadline, k2);
    WakingTick(k2, tick, t, w, a, used, deadline);
  }

  // An RT thread sleeps, anything happens before its time, and then a tick wakes it: that tick finds it late exactly if
  // its runtime before the sleep, the time it ran before it slept and the interval of the tick exceed its deadline.
  lemma SleeperLate(k: Kernel, elapsed: nat, ticks: nat, w: nat, k1: Kernel, steps: seq<Step>, k2: Kernel, tick: nat)
    requires Settled(k) && w == k.now + elapsed + ticks < NEVER && Th(k, k.current).kind.Rt?
    requires Sleep(k, elapsed, ticks) == Ok(k1) && Inv(k1) && Reaches(k1, steps, k2) && NoTickFrom(k1, steps, w)
    requires Inv(k2) && Enabled(k2, Tick(tick)) && w <= k2.now + tick
    ensures var t := k.current; var a := Th(k, t).timer;
      var late := Th(k, t).runtime + elapsed + tick > Tm(k, a).deadline && Tm(k, a).deadline < U32_MAX;
      && (Overruns(k2.(now := k2.now + tick), tick, a) <==> late)
      && (late ==> TickStep(k2, tick).Missed?) && (TickStep(k2, tick) == Missed(t) ==> late)
  {
    var t, a := k.current, Th(k, k.current).timer;
    SleepHolds(k, elapsed, ticks, k1);
    HeldLate(k1, steps, k2, tick, t, w, a, Used(Th(k, t).runtime, elapsed), Tm(k, a).deadline);
  }

  // ---------- Every timer after a tick ----------

  ghost predicate WakesBy(k: Kernel, t: Addr, later: nat) { Th(k, t).state.Waiting? && Th(k, t).wakeAt <= later }

  lemma DueIs(k: Kernel, t: Addr, later: nat)
    requires Inv(k) && t in k.threads
    ensures Due(k.(now := later), t) <==> WakesBy(k, t, later)
  {
    assert ThreadOk(k, t, None);
  }

  // An RT timer whose thread keeps sleeping or waiting to run is left alone until it expires. Then the job starts over
  // with its relative deadline from the new time and no runtime, whether its timer was active or not.
  lemma TickReleases(k: Kernel, elapsed: nat, a: Addr, t: Addr, k': Kernel)
    requires Inv(k) && Enabled(k, Tick(elapsed)) && TickStep(k, elapsed) == Ok(k')
    requires a in k.timers && Tm(k, a).owner == RtTimer(t) && !WakesBy(k, t, k.now + elapsed)
    ensures var fires := Tm(k, a).queued && Tm(k, a).expireAt <= k.now + elapsed;
      && Th(k', t).runtime == (if fires then 0 else Th(k, t).runtime)
      && Tm(k', a) == if fires then Tm(k, a).(expireAt := Later(k.now + elapsed, Tm(k, a).deadline), active := true)
                      else Tm(k, a)
  {
    var k0 := k.(now := k.now + elapsed);
    assert TimerOk(k, a);
    DueIs(k, t, k.now + elapsed);
    AdvanceKeeps(k, elapsed);
    TickIs(k, elapsed, Dispatch(k0, elapsed));
    assert Tm(k0, a) == Tm(k, a) && Th(k0, t) == Th(k, t);
    MissExactly(k0, elapsed);
    assert !Overruns(k0, elapsed, a);
    DispatchFate(k0, elapsed, a);
  }

  // The slice timer alternates: an expired slice pauses for what the interval leaves of the period, and an expired
  // pause, or a slice whose period the interval has used up, gives way to the next slice.
  lemma TickSlices(k: Kernel, elapsed: nat, k': Kernel)
    requires Inv(k) && Enabled(k, Tick(elapsed)) && TickStep(k, elapsed) == Ok(k')
    ensures var a, later := k.cfsTimer, k.now + elapsed;
      Tm(k', a) ==
        if Tm(k, a).expireAt > later then Tm(k, a)
        else if Tm(k, a).active && elapsed < Tm(k, a).period then
          Tm(k, a).(expireAt := Later(later, Tm(k, a).period - elapsed), active := false)
        else Tm(k, a).(expireAt := Later(later, Tm(k, a).period), active := true)
  {
    var a, k0 := k.cfsTimer, k.(now := k.now + elapsed);
    assert TimerOk(k, a) && Tm(k0, a) == Tm(k, a);
    AdvanceKeeps(k, elapsed);
    TickIs(k, elapsed, Dispatch(k0, elapsed));
    DispatchFate(k0, elapsed, a);
  }

  // A tick is a deadline miss exactly if some RT job has overrun its relative deadline: that of an active timer that
  // has expired, or that of a sleeper which the tick wakes and charges for the interval.
  lemma TickMisses(k: Kernel, elapsed: nat)
    requires Inv(k) && Enabled(k, Tick(elapsed))
    ensures TickStep(k, elapsed).Missed? <==> exists a, t :: OverdueAt(k, elapsed, a, t)
  {
    var k0 := k.(now := k.now + elapsed);
    AdvanceKeeps(k, elapsed);
    TickIs(k, elapsed, Dispatch(k0, elapsed));
    MissExactly(k0, elapsed);
    forall a, t | OverdueAt(k, elapsed, a, t) ensures Overruns(k0, elapsed, a) { OverdueIs(k, elapsed, a); }
    forall a | Overruns(k0, elapsed, a) ensures exists t :: OverdueAt(k, elapsed, a, t) { OverdueIs(k, elapsed, a); }
  }

  ghost predicate OverdueAt(k: Kernel, elapsed: nat, a: Addr, t: Addr) {
    && a in k.timers && Tm(k, a).owner == RtTimer(t)
    && if WakesBy(k, t, k.now + elapsed) then Late(Th(k, t).runtime, elapsed, Tm(k, a).deadline)
       else IsActive(k, a) && Tm(k, a).expireAt <= k.now + elapsed && Th(k, t).runtime > Tm(k, a).deadline
  }

  lemma OverdueIs(k: Kernel, elapsed: nat, a: Addr)
    requires Inv(k)
    ensures Overruns(k.(now := k.now + elapsed), elapsed, a) <==>
      a in k.timers && Tm(k, a).owner.RtTimer? && OverdueAt(k, elapsed, a, Tm(k, a).owner.thread)
  {
    var k0 := k.(now := k.now + elapsed);
    if a in k.timers && Tm(k, a).owner.RtTimer? {
      assert TimerOk(k, a) && Tm(k0, a) == Tm(k, a);
      DueIs(k, Tm(k, a).owner.thread, k.now + elapsed);
    }
  }
}
