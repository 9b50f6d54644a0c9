/** What yielding and sleeping mean in time (src/thread.rs), over whole runs. */
module Timing {
  import opened Kernel
  import opened Location
  import opened Scheduling
  import opened TimerGuards
  import opened Runs

  // ---------- Yield ----------

  // An RT thread that yields is charged, gets an inactive timer that expires when the rest of its period has passed,
  // what its runtime used already subtracted, and starts its next job with no runtime. It is not chosen next.
  lemma RtYieldStepsAside(k: Kernel, elapsed: nat, k': Kernel)
    requires Settled(k) && k.now + elapsed < NEVER && Th(k, k.current).kind.Rt? && k' == Yield(k, elapsed)
    ensures var a := Th(k, k.current).timer;
      && Tm(k', a).queued && !Tm(k', a).active && Th(k', k.current).runtime == 0
      && Tm(k', a).expireAt ==
           Sat64(k.now + elapsed + SatSub(Tm(k, a).period, Sat32(Th(k, k.current).runtime + elapsed)))
    ensures Pick(k') != k.current
  {
    var a := Th(k, k.current).timer;
    YieldInv(k, elapsed);
    assert ThreadOk(k, k.current, None) && TimerOk(k, a) && ThreadOk(k', k.current, None) &&
      ThreadOk(k', k'.idle, None);
    if k'.next.Some? { assert TimerOk(k', k'.next.v); }
    if k'.runq != {} { assert ThreadOk(k', Leftmost(k'), None); }
  }

  // After a CFS thread yields, the slice timer is inactive for the rest of its period and no CFS thread is chosen next.
  lemma CfsYieldEndsSlice(k: Kernel, elapsed: nat, k': Kernel)
    requires Settled(k) && k.now + elapsed < NEVER && Th(k, k.current).kind.Cfs? && k' == Yield(k, elapsed)
    ensures Tm(k', k.cfsTimer).queued && !Tm(k', k.cfsTimer).active
    ensures Tm(k', k.cfsTimer).expireAt == Sat64(k.now + elapsed + SatSub(Tm(k, k.cfsTimer).period, elapsed))
    ensures !Th(k', Pick(k')).kind.Cfs?
  {
    YieldInv(k, elapsed);
    assert TimerOk(k, k.cfsTimer) && ThreadOk(k', k'.idle, None);
    if k'.next.Some? { assert TimerOk(k', k'.next.v); }
  }

  // ---------- Until the release ----------

  // `t` is ready to run but has finished its job: its timer waits for the next period.
  ghost predicate Resting(k: Kernel, t: Addr) {
    Awake(k, t) && Th(k, t).kind.Rt? && t != k.current && !Tm(k, Th(k, t).timer).active
  }

  // An RT thread whose timer is inactive is not chosen.
  lemma InactiveNotPicked(k: Kernel, t: Addr)
    requires Inv(k) && t in k.threads && Th(k, t).kind.Rt? && !Tm(k, Th(k, t).timer).active && t != k.current
    ensures Pick(k) != t
  {
    assert ThreadOk(k, t, None) && ThreadOk(k, k.idle, None);
    if k.next.Some? { assert TimerOk(k, k.next.v); }
    if k.runq != {} { assert ThreadOk(k, Leftmost(k), None); }
  }

  lemma RescheduleRests(k: Kernel, elapsed: nat, t: Addr)
    requires Inv(k) && Resting(k, t)
    ensures Schedule(k, elapsed).current != t
  {
    ChargeInv(k, elapsed);
    ScheduleInv(k, elapsed);
    InactiveNotPicked(Charge(k, elapsed), t);
  }

  // A tick reaches the timer of `t`.
  ghost predicate Releases(k: Kernel, s: Step, a: Addr) { s.Tick? && Tm(k, a).expireAt <= k.now + s.elapsed }

  // A resting thread's timer is left alone by every step but its release and a change of its deadline, which keeps it
  // inactive.
  lemma RestingTimer(k: Kernel, s: Step, t: Addr, k': Kernel)
    requires Inv(k) && Enabled(k, s) && Apply(k, s) == Ok(k') && Resting(k, t) && !Releases(k, s, Th(k, t).timer)
    ensures var a := Th(k, t).timer;
      Tm(k', a) == if s.Rekey? && s.thread == t then Tm(k, a).(expireAt := s.expireAt) else Tm(k, a)
  {
    var a := Th(k, t).timer;
    assert ThreadOk(k, t, None) && TimerOk(k, a);
    if s.Rekey? && s.thread == t {
      RekeyInactive(k, t, s.expireAt, k');
    } else {
      assert ThreadOk(k, k.current, None);
      if s.WakeUp? { assert ThreadOk(k, s.thread, None); }
      if s.Rekey? { assert ThreadOk(k, s.thread, None); }
      StepLeaves(k, s, a, k');
    }
  }

  lemma RekeyInactive(k: Kernel, t: Addr, e: nat, k': Kernel)
    requires SetExpire(k, t, e) == Ok(k') && !Th(k, t).kind.Idle? && !Tm(k, OwnTimer(k, t)).active
    ensures Tm(k', OwnTimer(k, t)) == Tm(k, OwnTimer(k, t)).(expireAt := e)
  {
    var a := OwnTimer(k, t);
    var k1 := SetTm(k, a, Tm(k, a).(expireAt := e));
    if Tm(k, a).queued || k.next == Some(a) { RefreshKeeps(k1, a); }
  }

  // It stays resting until the release.
  lemma RestingStep(k: Kernel, s: Step, t: Addr, k': Kernel)
    requires Inv(k) && Enabled(k, s) && Apply(k, s) == Ok(k') && Resting(k, t) && !Releases(k, s, Th(k, t).timer)
    ensures Inv(k') && Resting(k', t) && Th(k', t).timer == Th(k, t).timer
  {
    assert ThreadOk(k, t, None) && TimerOk(k, Th(k, t).timer);
    StepInv(k, s);
    RestingTimer(k, s, t, k');
    StepKind(k, s, t);
    KeepsAwake(k, s, t);
    SameOwnTimer(k, t, k');
    if s.Reschedule? { RescheduleRests(k, s.elapsed, t); } else { StepCurrent(k, s); }
  }

  // No tick of the run reaches the timer of `t`.
  ghost predicate NoRelease(k: Kernel, steps: seq<Step>, a: Addr)
    requires Inv(k)
    decreases |steps|
  {
    steps == [] || (Enabled(k, steps[0]) && Apply(k, steps[0]).Ok? ==>
      !Releases(k, steps[0], a) && (StepInv(k, steps[0]); NoRelease(Apply(k, steps[0]).k, steps[1..], a)))
  }

  // Over any run a resting thread is neither current nor chosen, until a tick reaches its timer.
  lemma {:induction false} RunResting(k: Kernel, steps: seq<Step>, k': Kernel, t: Addr)
    requires Inv(k) && Reaches(k, steps, k') && Resting(k, t) && NoRelease(k, steps, Th(k, t).timer)
    ensures Inv(k') && Resting(k', t) && Pick(k') != t
    decreases |steps|
  {
    if steps == [] {
      InactiveNotPicked(k, t);
    } else {
      StepInv(k, steps[0]);
      RestingStep(k, steps[0], t, Apply(k, steps[0]).k);
      RunResting(Apply(k, steps[0]).k, steps[1..], k', t);
    }
  }

  // The switch that a yield requests takes the CPU from the RT caller, which then rests until its release.
  lemma YieldThenRests(k: Kernel, elapsed: nat, k1: Kernel, charged: nat, k2: Kernel)
    requires Settled(k) && k.now + elapsed < NEVER && Th(k, k.current).kind.Rt?
    requires k1 == Yield(k, elapsed) && k2 == Schedule(k1, charged)
    ensures Inv(k2) && Resting(k2, k.current) && k2.timers == k1.timers
    ensures Th(k2, k.current).timer == Th(k, k.current).timer
  {
    var t := k.current;
    RtYieldStepsAside(k, elapsed, k1);
    YieldInv(k, elapsed);
    YieldLegal(k, elapsed);
    assert k1.currentIsCfs == k.currentIsCfs && Charge(k1, charged) == k1;
    ScheduleInv(k1, charged);
    ScheduleAwake(k1, charged, t);
    ScheduleKind(k1, charged, t);
    SameOwnTimer(k1, t, k2);
  }

  // The same for the slice: no CFS thread has the CPU and the slice timer is inactive.
  ghost predicate Paused(k: Kernel) { !k.currentIsCfs && !Tm(k, k.cfsTimer).active }

  lemma PausedPick(k: Kernel)
    requires Inv(k) && !Tm(k, k.cfsTimer).active
    ensures !Th(k, Pick(k)).kind.Cfs?
  {
    assert TimerOk(k, k.cfsTimer) && ThreadOk(k, k.idle, None);
    if k.next.Some? { assert TimerOk(k, k.next.v); }
  }

  lemma PausedTimer(k: Kernel, s: Step, k': Kernel)
    requires Inv(k) && Enabled(k, s) && Apply(k, s) == Ok(k') && Paused(k) && !Releases(k, s, k.cfsTimer)
    ensures !Tm(k', k.cfsTimer).active && Tm(k', k.cfsTimer).owner == CfsTimer
  {
    var a := k.cfsTimer;
    assert TimerOk(k, a) && ThreadOk(k, k.current, None);
    if s.Rekey? && Th(k, s.thread).kind.Cfs? {
      RekeyInactive(k, s.thread, s.expireAt, k');
    } else {
      if s.WakeUp? { assert ThreadOk(k, s.thread, None); }
      if s.Rekey? { assert ThreadOk(k, s.thread, None); }
      StepLeaves(k, s, a, k');
    }
  }

  lemma PausedStep(k: Kernel, s: Step, k': Kernel)
    requires Inv(k) && Enabled(k, s) && Apply(k, s) == Ok(k') && Paused(k) && !Releases(k, s, k.cfsTimer)
    ensures Inv(k') && Paused(k') && k'.cfsTimer == k.cfsTimer
  {
    StepInv(k, s);
    PausedTimer(k, s, k');
    assert TimerOk(k', k.cfsTimer);
    if s.Reschedule? {
      ChargeInv(k, s.elapsed);
      ScheduleInv(k, s.elapsed);
      PausedPick(Charge(k, s.elapsed));
      ScheduleKind(k, s.elapsed, Pick(Charge(k, s.elapsed)));
    } else {
      StepCurrent(k, s);
      StepKind(k, s, k.current);
    }
  }

  // Over any run no CFS thread is current or chosen, until a tick reaches the slice timer.
  lemma {:induction false} RunPaused(k: Kernel, steps: seq<Step>, k': Kernel)
    requires Inv(k) && Reaches(k, steps, k') && Paused(k) && NoRelease(k, steps, k.cfsTimer)
    ensures Inv(k') && Paused(k') && !Th(k', k'.current).kind.Cfs? && !Th(k', Pick(k')).kind.Cfs?
    decreases |steps|
  {
    if steps == [] {
      PausedPick(k);
    } else {
      StepInv(k, steps[0]);
      PausedStep(k, steps[0], Apply(k, steps[0]).k);
      RunPaused(Apply(k, steps[0]).k, steps[1..], k');
    }
  }

  lemma CfsYieldThenPauses(k: Kernel, elapsed: nat, k1: Kernel, charged: nat, k2: Kernel)
    requires Settled(k) && k.now + elapsed < NEVER && Th(k, k.current).kind.Cfs?
    requires k1 == Yield(k, elapsed) && k2 == Schedule(k1, charged)
    ensures Inv(k2) && Paused(k2) && k2.timers == k1.timers
  {
    CfsYieldEndsSlice(k, elapsed, k1);
    YieldInv(k, elapsed);
    assert k1.cfsTimer == k.cfsTimer;
    ChargeInv(k1, charged);
    ScheduleInv(k1, charged);
    PausedPick(Charge(k1, charged));
    ScheduleKind(k1, charged, Pick(Charge(k1, charged)));
  }

  // ---------- Sleep ----------

  lemma ProgramWaitKeepsThread(k: Kernel, t: Addr)
    requires Owned(k) && t in k.threads && ProgramWait(k).Ok?
    ensures Th(ProgramWait(k).k, t) == Th(k, t).(runtime := Th(ProgramWait(k).k, t).runtime)
  {
    RefreshSame(Arm(k, k.waitTimer, LeastWake(k), false));
  }

  // `t` enters the blocked state that its wake time calls for.
  lemma InsertState(k: Kernel, t: Addr, sum: nat, k': Kernel)
    requires Owned(k) && t in k.threads && ProgramWait(InsertWait(k, t).(prioritySum := sum)) == Ok(k')
    ensures Th(k', t).wakeAt == Th(k, t).wakeAt
    ensures Th(k', t).state == if Th(k, t).wakeAt == NEVER then Suspended else Waiting
  {
    ProgramWaitKeepsThread(InsertWait(k, t).(prioritySum := sum), t);
  }

  lemma RefreshOwned(k: Kernel)
    requires Owned(k) && Refresh(k).Ok?
    ensures Owned(Refresh(k).k) && SameThreads(k, Refresh(k).k)
  {
    RefreshSame(k);
  }

  lemma ParkRtState(k: Kernel, k1: Kernel, k2: Kernel, k': Kernel)
    requires k.current in k.threads && Park(k) == Ok(k') && Th(k, k.current).kind.Rt?
    requires k1 == SetTm(k, Th(k, k.current).timer, Tm(k, Th(k, k.current).timer).(active := false, queued := false))
    requires k2 == if k.next == Some(Th(k, k.current).timer) then Refresh(k1).k else k1
    requires Owned(k2) && SameThreads(k1, k2)
    ensures Th(k', k.current).wakeAt == Th(k, k.current).wakeAt
    ensures Th(k', k.current).state == if Th(k, k.current).wakeAt == NEVER then Suspended else Waiting
  {
    assert InsertWait(k2, k.current) == InsertWait(k2, k.current).(prioritySum := k2.prioritySum);
    InsertState(k2, k.current, k2.prioritySum, k');
  }

  lemma ParkState(k: Kernel, k': Kernel)
    requires Owned(k) && k.current in k.threads && Park(k) == Ok(k') && !Th(k, k.current).kind.Idle?
    ensures Th(k', k.current).wakeAt == Th(k, k.current).wakeAt
    ensures Th(k', k.current).state == if Th(k, k.current).wakeAt == NEVER then Suspended else Waiting
  {
    var t := k.current;
    if Th(k, t).kind.Cfs? {
      var k1 := if Th(k, t).state.Ready? then k.(runq := k.runq - {t}) else k;
      InsertState(k1, t, SatSub(k.prioritySum, Th(k, t).priority), k');
    } else {
      var k1 := SetTm(k, Th(k, t).timer, Tm(k, Th(k, t).timer).(active := false, queued := false));
      assert Owned(k1);
      if k.next == Some(Th(k, t).timer) { RefreshOwned(k1); }
      ParkRtState(k, k1, if k.next == Some(Th(k, t).timer) then Refresh(k1).k else k1, k');
    }
  }

  // A sleeper waits until exactly the elapsed time plus what it asked for.
  lemma SleepUntil(k: Kernel, elapsed: nat, ticks: nat, k': Kernel)
    requires Settled(k) && k.now + elapsed + ticks < NEVER && !Th(k, k.current).kind.Idle?
    requires Sleep(k, elapsed, ticks) == Ok(k')
    ensures k.current in k'.waits && Th(k', k.current).state.Waiting?
    ensures Th(k', k.current).wakeAt == k.now + elapsed + ticks
  {
    WaitUntilInv(k, elapsed, WakeTime(k.now, elapsed, ticks));
    YieldTimerCore(k, elapsed, false);
    var k1 := YieldTimer(k, OwnTimer(k, k.current), elapsed, false);
    CoreOwned(k1, None);
    ParkState(SetTh(k1, k.current, Th(k1, k.current).(wakeAt := WakeTime(k.now, elapsed, ticks))), k');
    assert ThreadOk(k', k.current, None);
  }

  ghost predicate Asleep(k: Kernel, t: Addr, wakeAt: nat) {
    t in k.waits && t in k.threads && Th(k, t).state.Waiting? && Th(k, t).wakeAt == wakeAt
  }

  lemma AsleepPlace(k: Kernel, t: Addr)
    requires Inv(k) && t in k.threads
    ensures t in k.waits <==> Th(k, t).state.Waiting?
  {
    assert ThreadOk(k, t, None);
  }

  lemma SpawnRtThreads(k: Kernel, u: Addr, a: Addr, period: nat, deadline: nat, t: Addr)
    requires Inv(k) && u !in k.threads && a !in k.timers && deadline >= 1 && SpawnRt(k, u, a, period, deadline).Ok?
    requires t in k.threads
    ensures Th(SpawnRt(k, u, a, period, deadline).k, t) ==
      Th(k, t).(runtime := Th(SpawnRt(k, u, a, period, deadline).k, t).runtime)
    ensures SpawnRt(k, u, a, period, deadline).k.waits == k.waits
  {
    var k1 := SetTm(SetTh(k, u, Thread(Rt, Ready, 0, 0, 0, 0, a)), a,
      Timer(RtTimer(u), deadline, true, true, period, deadline));
    CoreOwned(k, None);
    RefreshSame(k1);
  }

  lemma TickAsleep(k: Kernel, elapsed: nat, t: Addr, w: nat, k': Kernel)
    requires Inv(k) && Enabled(k, Tick(elapsed)) && TickStep(k, elapsed) == Ok(k') && Asleep(k, t, w)
    ensures if w <= k.now + elapsed then Th(k', t).state.Ready? else Asleep(k', t, w)
  {
    TickInv(k, elapsed, k');
    AsleepPlace(k', t);
  }

  lemma WaitAsleep(k: Kernel, elapsed: nat, wakeAt: nat, r: Outcome, t: Addr, w: nat)
    requires Settled(k) && k.now + elapsed < NEVER && wakeAt <= NEVER && r.Ok? && Asleep(k, t, w)
    requires r == if Th(k, k.current).kind.Idle? then Ok(k) else WaitUntil(k, elapsed, wakeAt)
    ensures Asleep(r.k, t, w)
  {
    if !Th(k, k.current).kind.Idle? {
      WaitUntilInv(k, elapsed, wakeAt);
      AsleepPlace(r.k, t);
    }
  }

  lemma SleepAsleep(k: Kernel, elapsed: nat, ticks: nat, t: Addr, w: nat)
    requires Settled(k) && k.now + elapsed < NEVER && Sleep(k, elapsed, ticks).Ok? && Asleep(k, t, w)
    ensures Asleep(Sleep(k, elapsed, ticks).k, t, w)
  {
    WaitAsleep(k, elapsed, WakeTime(k.now, elapsed, ticks), Sleep(k, elapsed, ticks), t, w);
  }

  lemma WakeAsleep(k: Kernel, u: Addr, t: Addr, w: nat)
    requires Inv(k) && Enabled(k, WakeUp(u)) && Wake(k, u).Ok? && Asleep(k, t, w)
    ensures Asleep(Wake(k, u).k, t, w)
  {
    assert ThreadOk(k, u, None);
    WakeInv(k, u);
    AsleepPlace(Wake(k, u).k, t);
  }

  // A sleeper is woken by the first tick at or after its wake time, and by nothing else.
  lemma SleepStep(k: Kernel, s: Step, t: Addr, w: nat)
    requires Inv(k) && Enabled(k, s) && Apply(k, s).Ok? && Asleep(k, t, w)
    ensures if s.Tick? && w <= k.now + s.elapsed then Th(Apply(k, s).k, t).state.Ready? else Asleep(Apply(k, s).k, t, w)
  {
    match s
    case Tick(e) => TickAsleep(k, e, t, w, Apply(k, s).k);
    case Reschedule(e) => ScheduleAsleep(k, e, t, w);
    case YieldCpu(e) => YieldLegal(k, e);
    case SleepFor(e, n) => SleepAsleep(k, e, n, t, w);
    case BlockOn(e) => WaitAsleep(k, e, NEVER, Block(k, e), t, w);
    case WakeUp(u) => WakeAsleep(k, u, t, w);
    case StartCfs(u, p) =>
    case StartRt(u, a, p, d) => SpawnRtThreads(k, u, a, p, d, t);
    case Rekey(u, e) => SetExpireInv(k, u, e);
  }

  lemma ScheduleAsleep(k: Kernel, elapsed: nat, t: Addr, w: nat)
    requires Inv(k) && Asleep(k, t, w)
    ensures Asleep(Schedule(k, elapsed), t, w)
  {
    ChargeInv(k, elapsed);
    var k1 := Charge(k, elapsed);
    assert Asleep(k1, t, w);
    PickRunnable(k1);
    if Pick(k1) != k1.current { SwitchAsleep(k1, Pick(k1), t, w); }
  }

  lemma SwitchAsleep(k: Kernel, u: Addr, t: Addr, w: nat)
    requires Asleep(k, t, w) && u in k.threads && !IsBlocked(Th(k, u).state)
    ensures Asleep(SwitchTo(k, u), t, w)
  {
  }

  // No tick of the run happens at or after `w`.
  ghost predicate NoTickFrom(k: Kernel, steps: seq<Step>, w: nat)
    requires Inv(k)
    decreases |steps|
  {
    steps == [] || (Enabled(k, steps[0]) && Apply(k, steps[0]).Ok? ==>
      (steps[0].Tick? ==> k.now + steps[0].elapsed < w) &&
        (StepInv(k, steps[0]); NoTickFrom(Apply(k, steps[0]).k, steps[1..], w)))
  }

  // Over any run a sleeper sleeps on, until a tick reaches its wake time.
  lemma {:induction false} RunAsleep(k: Kernel, steps: seq<Step>, k': Kernel, t: Addr, w: nat)
    requires Inv(k) && Reaches(k, steps, k') && NoTickFrom(k, steps, w) && Asleep(k, t, w)
    ensures Asleep(k', t, w)
    decreases |steps|
  {
    if steps != [] {
      StepInv(k, steps[0]);
      SleepStep(k, steps[0], t, w);
      RunAsleep(Apply(k, steps[0]).k, steps[1..], k', t, w);
    }
  }
}
