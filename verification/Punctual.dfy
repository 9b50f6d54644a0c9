/** How late a sleeper can wake when the ticks come from the programmed timer (src/ktimer.rs, src/thread.rs). */
module Punctual {
  import opened Kernel
  import opened SetSum
  import opened Location
  import opened ExpiryDispatch
  import opened DispatchEffects
  import opened Runs
  import opened Timing
  import opened Reload

  // ---------- The clock ----------

  lemma RefreshClock(k: Kernel)
    requires Refresh(k).Ok?
    ensures Refresh(k).k.now == k.now
  {
  }

  lemma ProgramWaitClock(k: Kernel)
    requires ProgramWait(k).Ok?
    ensures ProgramWait(k).k.now == k.now
  {
    RefreshClock(Arm(k, k.waitTimer, LeastWake(k), false));
  }

  lemma ParkClock(k: Kernel, k': Kernel)
    requires Park(k) == Ok(k') && !Th(k, k.current).kind.Idle?
    ensures k'.now == k.now
  {
    var t := k.current;
    if Th(k, t).kind.Cfs? {
      var k1 := if Th(k, t).state.Ready? then k.(runq := k.runq - {t}) else k;
      ProgramWaitClock(InsertWait(k1, t).(prioritySum := SatSub(k.prioritySum, Th(k, t).priority)));
    } else {
      var k1 := SetTm(k, Th(k, t).timer, Tm(k, Th(k, t).timer).(active := false, queued := false));
      if k.next == Some(Th(k, t).timer) { RefreshClock(k1); }
      ProgramWaitClock(InsertWait(if k.next == Some(Th(k, t).timer) then Refresh(k1).k else k1, t));
    }
  }

  lemma WaitClock(k: Kernel, elapsed: nat, wakeAt: nat, k': Kernel)
    requires Settled(k) && k.now + elapsed < NEVER && !Th(k, k.current).kind.Idle?
    requires WaitUntil(k, elapsed, wakeAt) == Ok(k')
    ensures k'.now == k.now + elapsed
  {
    YieldTimerCore(k, elapsed, false);
    var k1 := YieldTimer(k, OwnTimer(k, k.current), elapsed, false);
    ParkClock(SetTh(k1, k.current, Th(k1, k.current).(wakeAt := wakeAt)), k');
  }

  lemma WakeClock(k: Kernel, t: Addr)
    requires Wake(k, t).Ok?
    ensures Wake(k, t).k.now == k.now
  {
    var k1 := RemoveWait(k, t);
    if Th(k, t).kind.Cfs? {
      ProgramWaitClock(EnqueueRun(k1, t));
    } else {
      var k2 := Arm(SetState(k1, t, Ready), Th(k, t).timer, Tm(k, Th(k, t).timer).expireAt, true);
      RefreshClock(k2);
      ProgramWaitClock(Refresh(k2).k);
    }
  }

  lemma SpawnRtClock(k: Kernel, t: Addr, a: Addr, period: nat, deadline: nat)
    requires SpawnRt(k, t, a, period, deadline).Ok?
    ensures SpawnRt(k, t, a, period, deadline).k.now == k.now
  {
    RefreshClock(SetTm(SetTh(k, t, Thread(Rt, Ready, 0, 0, 0, 0, a)), a,
      Timer(RtTimer(t), deadline, true, true, period, deadline)));
  }

  // How far a step moves the clock.
  ghost function Advance(k: Kernel, s: Step): nat {
    match s
    case Tick(e) => e
    case YieldCpu(e) => if Th(k, k.current).kind.Idle? then 0 else e
    case SleepFor(e, _) => if Th(k, k.current).kind.Idle? then 0 else e
    case BlockOn(e) => if Th(k, k.current).kind.Idle? then 0 else e
    case _ => 0
  }

  lemma WaitStepClock(k: Kernel, s: Step)
    requires (s.SleepFor? || s.BlockOn?) && Inv(k) && Enabled(k, s) && Apply(k, s).Ok?
    ensures Apply(k, s).k.now == k.now + Advance(k, s)
  {
    if !Th(k, k.current).kind.Idle? {
      match s
      case SleepFor(e, n) => WaitClock(k, e, WakeTime(k.now, e, n), Apply(k, s).k);
      case BlockOn(e) => WaitClock(k, e, NEVER, Apply(k, s).k);
    }
  }

  lemma StepClock(k: Kernel, s: Step)
    requires Inv(k) && Enabled(k, s) && Apply(k, s).Ok?
    ensures Apply(k, s).k.now == k.now + Advance(k, s)
  {
    match s
    case Tick(e) => TickInv(k, e, Apply(k, s).k);
    case Reschedule(e) =>
    case YieldCpu(e) => if !Th(k, k.current).kind.Idle? { YieldTimerCore(k, e, true); }
    case SleepFor(_, _) => WaitStepClock(k, s);
    case BlockOn(_) => WaitStepClock(k, s);
    case WakeUp(t) => WakeClock(k, t);
    case StartCfs(t, p) =>
    case StartRt(t, a, p, d) => SpawnRtClock(k, t, a, p, d);
    case Rekey(t, e) => RekeyStepClock(k, t, e);
  }

  lemma RekeyStepClock(k: Kernel, t: Addr, e: nat)
    requires SetExpire(k, t, e).Ok?
    ensures SetExpire(k, t, e).k.now == k.now
  {
  }

  // ---------- What is programmed while somebody sleeps ----------

  // The wait timer is queued at the least wake time, so the earliest timer is no later than any sleeper.
  lemma EarliestBefore(k: Kernel, t: Addr, w: nat)
    requires Inv(k) && Asleep(k, t, w)
    ensures Earliest(k.timers).Some? && Tm(k, Earliest(k.timers).v).expireAt <= w < NEVER
  {
    assert ThreadOk(k, t, None) && TimerOk(k, k.waitTimer);
    assert k.waitTimer in QueuedSet(k.timers);
    var l := Least(k.waits, WakeKeys(k));
    assert IsLeast(k.waits, WakeKeys(k), l) && LeastWake(k) <= w;
  }

  // A timer that is due at once is programmed for the shortest interval, any other for no more than its distance.
  lemma EntityInterval(tm: Timer, now: nat)
    requires tm.expireAt < NEVER
    ensures 1 <= EntityReload(tm, now) && (tm.expireAt <= now + 1 ==> EntityReload(tm, now) == 1)
    ensures tm.expireAt > now + 1 ==> now + EntityReload(tm, now) + 1 <= tm.expireAt
  {
  }

  // A programmed tick comes at most one tick after any wake time that still lies ahead.
  lemma TickOnTime(k: Kernel, t: Addr, w: nat)
    requires Inv(k) && Asleep(k, t, w) && k.now < w
    ensures NextReload(k).Some? && k.now + NextReload(k).v + 1 <= w + 1
  {
    EarliestBefore(k, t, w);
    EntityInterval(Tm(k, Earliest(k.timers).v), k.now);
  }

  // Anything else that happens within the programmed interval comes before the wake time, exactly unless that is the
  // very next tick and the step takes one tick.
  lemma WithinInterval(k: Kernel, t: Addr, w: nat, elapsed: nat)
    requires Inv(k) && Asleep(k, t, w) && k.now < w && NextReload(k).Some? && elapsed <= NextReload(k).v
    ensures k.now + elapsed < w <==> !(w == k.now + 1 && elapsed == 1)
  {
    EarliestBefore(k, t, w);
    EntityInterval(Tm(k, Earliest(k.timers).v), k.now);
  }

  // ---------- Sleepers wake on time ----------

  // A tick lasts as long as the timer is programmed for; a call of the running thread comes within that interval, and
  // not on the very tick at which the sleeper is due.
  ghost predicate Timed(k: Kernel, s: Step, w: nat) {
    if s.Tick? then NextReload(k) == Some(s.elapsed - 1) && s.elapsed > 0
    else NextReload(k).Some? && Advance(k, s) <= NextReload(k).v && !(w == k.now + 1 && Advance(k, s) == 1)
  }

  // One step: the sleeper sleeps on before its time, or a tick wakes it, at most one tick late.
  lemma TimedStep(k: Kernel, s: Step, t: Addr, w: nat, k': Kernel)
    requires Inv(k) && Enabled(k, s) && Apply(k, s) == Ok(k') && Asleep(k, t, w) && k.now < w && Timed(k, s, w)
    ensures if Asleep(k', t, w) then k'.now < w else Th(k', t).state.Ready? && w <= k'.now <= w + 1
  {
    StepClock(k, s);
    SleepStep(k, s, t, w);
    TickOnTime(k, t, w);
    if !s.Tick? { WithinInterval(k, t, w, Advance(k, s)); }
  }

  ghost predicate TimedRun(k: Kernel, steps: seq<Step>, t: Addr, w: nat)
    requires Inv(k)
    decreases |steps|
  {
    steps == [] || (Enabled(k, steps[0]) && Apply(k, steps[0]).Ok? ==>
      && Timed(k, steps[0], w)
      && (StepInv(k, steps[0]); Asleep(Apply(k, steps[0]).k, t, w) ==>
           TimedRun(Apply(k, steps[0]).k, steps[1..], t, w)))
  }

  // Somewhere on the way `t` becomes ready no earlier than `w` and no later than one tick after it.
  ghost predicate WokenOnTime(k: Kernel, steps: seq<Step>, t: Addr, w: nat)
    requires Inv(k)
    decreases |steps|
  {
    && steps != [] && Enabled(k, steps[0]) && Apply(k, steps[0]).Ok?
    && (StepInv(k, steps[0]); var k' := Apply(k, steps[0]).k;
        (Th(k', t).state.Ready? && w <= k'.now <= w + 1) || WokenOnTime(k', steps[1..], t, w))
  }

  // Over any run driven by the programmed timer, a sleeper is woken at its time or one tick later: as long as it
  // sleeps, that time lies ahead.
  lemma {:induction false} RunOnTime(k: Kernel, steps: seq<Step>, k': Kernel, t: Addr, w: nat)
    requires Inv(k) && Reaches(k, steps, k') && Asleep(k, t, w) && k.now < w && TimedRun(k, steps, t, w)
    ensures (Asleep(k', t, w) && k'.now < w) || WokenOnTime(k, steps, t, w)
    decreases |steps|
  {
    if steps != [] {
      StepInv(k, steps[0]);
      var k1 := Apply(k, steps[0]).k;
      TimedStep(k, steps[0], t, w, k1);
      if Asleep(k1, t, w) { RunOnTime(k1, steps[1..], k', t, w); }
    }
  }

  // ---------- Where it ends ----------

  // Thread 3 is due at the very next tick, at 11.
  ghost function AlmostDue(): Kernel {
    Kernel(map[1 := Thread(Idle, Ready, 0, 0, 0, 0, 0), 2 := Thread(Cfs, Running, 1, 0, 0, 0, 0),
               3 := Thread(Cfs, Waiting, 1, 0, 11, 0, 0)],
           map[10 := Timer(CfsTimer, 500, true, true, 500, 500), 11 := Timer(WaitTimer, 11, false, true, 0, 0)],
           10, 11, {}, {3}, [], 1, 2, true, 1, Some(10), 10)
  }

  lemma AlmostDueSettled()
    ensures Settled(AlmostDue()) && Asleep(AlmostDue(), 3, 11) && NextReload(AlmostDue()) == Some(1)
  {
    var k := AlmostDue();
    assert Runnable(k) == {2} && CfsThreads(k) == {2, 3};
    SumRemove({2}, k.threads, 2);
    assert {2} - {2} == {};
    SumRemove({2, 3}, k.threads, 3);
    assert {2, 3} - {3} == {2};
    assert ActiveSet(k.timers) == {10};
    assert IsLeast(k.waits, WakeKeys(k), 3);
    DueFirst(k);
  }

  // A wait timer at 11 comes before any CFS timer, and is programmed for the shortest interval from 10 on.
  lemma DueFirst(k: Kernel)
    requires k.timers.Keys == {10, 11} && Tm(k, 11).queued && Tm(k, 11).owner.WaitTimer? && Tm(k, 11).expireAt == 11
    requires Tm(k, 10).expireAt > 11 && 10 <= k.now
    ensures NextReload(k) == Some(1)
  {
    assert IsLeast(QueuedSet(k.timers), Expiries(k.timers), 11);
  }

  // Without RT timers no tick misses a deadline.
  lemma NoMiss(k: Kernel, elapsed: nat)
    requires Inv(k) && Enabled(k, Tick(elapsed)) && forall a :: a in k.timers ==> !Tm(k, a).owner.RtTimer?
    ensures TickStep(k, elapsed).Ok?
  {
    AdvanceKeeps(k, elapsed);
    var k0 := k.(now := k.now + elapsed);
    MissExactly(k0, elapsed);
    forall a ensures !Overruns(k0, elapsed, a) { if a in k.timers { assert Tm(k0, a) == Tm(k, a); } }
    TickIs(k, elapsed, Dispatch(k0, elapsed));
  }

  // The running thread yields within the programmed interval, on the very tick at which thread 3 is due. The timer is
  // programmed anew, for the shortest interval, and the tick that wakes thread 3 comes two ticks late.
  lemma LateByTwo()
    ensures Settled(AlmostDue()) && Asleep(AlmostDue(), 3, 11) && NextReload(AlmostDue()) == Some(1)
    ensures var k1 := Yield(AlmostDue(), 1);
      && Settled(k1) && Asleep(k1, 3, 11) && NextReload(k1) == Some(1) && Enabled(k1, Tick(2))
      && TickStep(k1, 2).Ok? && TickStep(k1, 2).k.now == 13 && Th(TickStep(k1, 2).k, 3).state.Ready?
  {
    AlmostDueSettled();
    var k := AlmostDue();
    var k1 := Yield(k, 1);
    YieldInv(k, 1);
    YieldLegal(k, 1);
    DueFirst(k1);
    NoMiss(k1, 2);
    TickInv(k1, 2, TickStep(k1, 2).k);
  }
}
