/** Whole runs of the scheduler: arbitrary sequences of ticks, reschedules and thread operations. */
module Runs {
  import opened Kernel
  import opened SetSum
  import opened Location
  import opened Scheduling
  import opened ExpiryDispatch
  import opened Fairness

  // Each critical section of the system is one step.
  datatype Step =
    | Tick(elapsed: nat)
    | Reschedule(elapsed: nat)
    | YieldCpu(elapsed: nat)
    | SleepFor(elapsed: nat, ticks: nat)
    | BlockOn(elapsed: nat)
    | WakeUp(thread: Addr)
    | StartCfs(thread: Addr, priority: nat)
    | StartRt(thread: Addr, timer: Addr, period: nat, deadline: nat)
    | Rekey(thread: Addr, expireAt: nat)

  // The clock does not overflow, calls come from the running thread, and a thread that has just blocked is
  // switched out before it can be woken.
  ghost predicate Enabled(k: Kernel, s: Step) {
    match s
    case Tick(e) => k.now + e < NEVER && CurrentStays(k.(now := k.now + e))
    case Reschedule(_) => true
    case YieldCpu(e) => k.now + e < NEVER && Th(k, k.current).state.Running?
    case SleepFor(e, _) => k.now + e < NEVER && Th(k, k.current).state.Running?
    case BlockOn(e) => k.now + e < NEVER && Th(k, k.current).state.Running?
    case WakeUp(t) => t in k.suspended && t != k.current
    case StartCfs(t, p) => t !in k.threads && p > 0 && SumOf(CfsThreads(k), k.threads) + p <= U32_MAX
    case StartRt(t, a, _, d) => t !in k.threads && a !in k.timers && d >= 1
    case Rekey(t, _) => t in k.threads
  }

  ghost function TickStep(k: Kernel, elapsed: nat): Outcome
    requires Inv(k) && k.now + elapsed < NEVER && CurrentStays(k.(now := k.now + elapsed))
  {
    AdvanceKeeps(k, elapsed);
    var k1 :- Dispatch(k.(now := k.now + elapsed), elapsed);
    Ok(k1.(next := EarliestActive(k1.timers)))
  }

  ghost function Apply(k: Kernel, s: Step): Outcome
    requires Inv(k) && Enabled(k, s)
  {
    match s
    case Tick(e) => TickStep(k, e)
    case Reschedule(e) => Ok(Schedule(k, e))
    case YieldCpu(e) => Ok(Yield(k, e))
    case SleepFor(e, n) => Sleep(k, e, n)
    case BlockOn(e) => Block(k, e)
    case WakeUp(t) => Wake(k, t)
    case StartCfs(t, p) => Ok(SpawnCfs(k, t, p))
    case StartRt(t, a, p, d) => SpawnRt(k, t, a, p, d)
    case Rekey(t, e) => SetExpire(k, t, e)
  }

  lemma AdvanceKeeps(k: Kernel, elapsed: nat)
    requires Inv(k) && k.now + elapsed < NEVER
    ensures var k' := k.(now := k.now + elapsed); Core(k') && WaitArmed(k') && Runnable(k') == Runnable(k)
  {
    var k' := k.(now := k.now + elapsed);
    forall t | t in k'.threads ensures ThreadOk(k', t, None) { assert ThreadOk(k, t, None); }
    forall b | b in k'.timers ensures TimerOk(k', b) { assert TimerOk(k, b); }
    assert Runnable(k') == Runnable(k) && CfsThreads(k') == CfsThreads(k) && WakeKeys(k') == WakeKeys(k);
  }

  // A tick is the dispatch of the advanced state, with its result cached.
  lemma TickIs(k: Kernel, elapsed: nat, r: Outcome)
    requires Inv(k) && k.now + elapsed < NEVER && CurrentStays(k.(now := k.now + elapsed))
    requires Dispatching(k.(now := k.now + elapsed)) && r == Dispatch(k.(now := k.now + elapsed), elapsed)
    ensures TickStep(k, elapsed) == if r.Missed? then r else Ok(r.k.(next := EarliestActive(r.k.timers)))
  {
  }

  // What a tick does to the threads and timers, read off the dispatch of the advanced state `k0` into `k1`.
  ghost predicate TickEffect(k: Kernel, k': Kernel, elapsed: nat) {
    && k'.current == k.current && k'.now == k.now + elapsed && k'.suspended == k.suspended
    && (forall a :: !Expired(k', a))
    && (forall t :: t in k'.waits <==> t in k.waits && Th(k, t).wakeAt > k.now + elapsed)
    && (forall t :: t in k.waits && t !in k'.waits ==> Th(k', t).state.Ready?)
    && k'.threads.Keys == k.threads.Keys
    && (forall t :: t in k.threads ==>
         && Th(k', t).wakeAt == Th(k, t).wakeAt && Th(k', t).kind == Th(k, t).kind
         && Th(k', t).priority == Th(k, t).priority)
  }

  lemma TickLegal(k: Kernel, k0: Kernel, k1: Kernel)
    requires Inv(k) && k0 == k.(now := k0.now) && Progress(k0, k1)
    ensures Legal(k, k1)
  {
    forall t | t in k.threads ensures CanTransition(Th(k, t).state, Th(k1, t).state) { assert ThreadOk(k, t, None); }
  }

  lemma CachedSame(k1: Kernel, e: Opt<Addr>)
    requires forall a :: !Expired(k1, a)
    ensures forall a :: !Expired(k1.(next := e), a)
  {
    forall a ensures !Expired(k1.(next := e), a) { assert !Expired(k1, a); }
  }

  lemma TickFinish(k: Kernel, elapsed: nat, k1: Kernel)
    requires Inv(k) && Dispatching(k1) && Progress(k.(now := k.now + elapsed), k1)
    requires forall a :: !Expired(k1, a)
    requires forall t :: t in k1.waits <==> t in k.waits && Th(k.(now := k.now + elapsed), t).wakeAt > k.now + elapsed
    ensures var k' := k1.(next := EarliestActive(k1.timers)); Inv(k') && Legal(k, k') && TickEffect(k, k', elapsed)
  {
    var e := EarliestActive(k1.timers);
    CacheFree(k1, e, None);
    CachedSame(k1, e);
    TickLegal(k, k.(now := k.now + elapsed), k1);
  }

  lemma TickCore(k: Kernel, elapsed: nat, k1: Kernel)
    requires Inv(k) && Dispatching(k.(now := k.now + elapsed))
    requires Dispatch(k.(now := k.now + elapsed), elapsed) == Ok(k1)
    ensures var k' := k1.(next := EarliestActive(k1.timers)); Inv(k') && Legal(k, k') && TickEffect(k, k', elapsed)
  {
    DispatchResult(k.(now := k.now + elapsed), elapsed);
    TickFinish(k, elapsed, k1);
  }

  // A tick wakes exactly the sleepers that are due, leaves no expired timer, and caches the earliest active one.
  lemma TickInv(k: Kernel, elapsed: nat, k': Kernel)
    requires Inv(k) && Enabled(k, Tick(elapsed)) && TickStep(k, elapsed) == Ok(k')
    ensures Inv(k') && Legal(k, k') && TickEffect(k, k', elapsed)
  {
    AdvanceKeeps(k, elapsed);
    var r := Dispatch(k.(now := k.now + elapsed), elapsed);
    assert r.Ok? && k' == r.k.(next := EarliestActive(r.k.timers));
    TickCore(k, elapsed, r.k);
  }

  lemma SameThreadsLegal(k: Kernel, k': Kernel)
    requires SameThreads(k, k')
    ensures Legal(k, k')
  {
  }

  lemma OnlyWakesLegal(k: Kernel, k': Kernel, t: Addr)
    requires OnlyWakes(k, k', t)
    ensures Legal(k, k')
  {
  }

  lemma YieldLegal(k: Kernel, elapsed: nat)
    requires Settled(k) && k.now + elapsed < NEVER
    ensures SameThreads(k, Yield(k, elapsed))
  {
    if !Th(k, k.current).kind.Idle? { YieldTimerCore(k, elapsed, true); }
  }

  lemma WakeStepInv(k: Kernel, t: Addr)
    requires Inv(k) && t in k.suspended && t != k.current && Wake(k, t).Ok?
    ensures Inv(Wake(k, t).k) && Legal(k, Wake(k, t).k)
  {
    assert ThreadOk(k, t, None);
    WakeInv(k, t);
    OnlyWakesLegal(k, Wake(k, t).k, t);
  }

  lemma WaitStepInv(k: Kernel, elapsed: nat, wakeAt: nat, r: Outcome)
    requires Settled(k) && k.now + elapsed < NEVER && wakeAt <= NEVER && r.Ok?
    requires r == if Th(k, k.current).kind.Idle? then Ok(k) else WaitUntil(k, elapsed, wakeAt)
    ensures Inv(r.k) && Legal(k, r.k)
  {
    if Th(k, k.current).kind.Idle? { SameThreadsLegal(k, k); } else { WaitUntilInv(k, elapsed, wakeAt); }
  }

  lemma YieldStepInv(k: Kernel, elapsed: nat)
    requires Settled(k) && k.now + elapsed < NEVER
    ensures Inv(Yield(k, elapsed)) && Legal(k, Yield(k, elapsed))
  {
    YieldInv(k, elapsed);
    YieldLegal(k, elapsed);
    SameThreadsLegal(k, Yield(k, elapsed));
  }

  lemma RekeyStepInv(k: Kernel, t: Addr, e: nat)
    requires Inv(k) && t in k.threads && SetExpire(k, t, e).Ok?
    ensures Inv(SetExpire(k, t, e).k) && Legal(k, SetExpire(k, t, e).k)
  {
    SetExpireInv(k, t, e);
    SameThreadsLegal(k, SetExpire(k, t, e).k);
  }

  lemma ClockStepInv(k: Kernel, s: Step)
    requires (s.Tick? || s.Reschedule? || s.YieldCpu?) && Inv(k) && Enabled(k, s) && Apply(k, s).Ok?
    ensures Inv(Apply(k, s).k) && Legal(k, Apply(k, s).k)
    ensures s.Reschedule? ==> Settled(Apply(k, s).k)
  {
    match s
    case Tick(e) => TickInv(k, e, Apply(k, s).k);
    case Reschedule(e) => ScheduleInv(k, e);
    case YieldCpu(e) => YieldStepInv(k, e);
  }

  lemma SleepStepInv(k: Kernel, elapsed: nat, ticks: nat)
    requires Settled(k) && k.now + elapsed < NEVER && Sleep(k, elapsed, ticks).Ok?
    ensures Inv(Sleep(k, elapsed, ticks).k) && Legal(k, Sleep(k, elapsed, ticks).k)
  {
    WaitStepInv(k, elapsed, WakeTime(k.now, elapsed, ticks), Sleep(k, elapsed, ticks));
  }

  lemma ThreadStepInv(k: Kernel, s: Step)
    requires (s.SleepFor? || s.BlockOn? || s.WakeUp?) && Inv(k) && Enabled(k, s) && Apply(k, s).Ok?
    ensures Inv(Apply(k, s).k) && Legal(k, Apply(k, s).k)
    ensures s.Reschedule? ==> Settled(Apply(k, s).k)
  {
    match s
    case SleepFor(e, n) => SleepStepInv(k, e, n);
    case BlockOn(e) => WaitStepInv(k, e, NEVER, Block(k, e));
    case WakeUp(t) => WakeStepInv(k, t);
  }

  lemma SetupStepInv(k: Kernel, s: Step)
    requires (s.StartCfs? || s.StartRt? || s.Rekey?) && Inv(k) && Enabled(k, s) && Apply(k, s).Ok?
    ensures Inv(Apply(k, s).k) && Legal(k, Apply(k, s).k)
    ensures s.Reschedule? ==> Settled(Apply(k, s).k)
  {
    match s
    case StartCfs(t, p) => SpawnCfsInv(k, t, p);
    case StartRt(t, a, p, d) => SpawnRtInv(k, t, a, p, d);
    case Rekey(t, e) => RekeyStepInv(k, t, e);
  }

  // Every step keeps the invariant and every thread's state change is a legal one.
  lemma StepInv(k: Kernel, s: Step)
    requires Inv(k) && Enabled(k, s) && Apply(k, s).Ok?
    ensures Inv(Apply(k, s).k) && Legal(k, Apply(k, s).k)
    ensures s.Reschedule? ==> Settled(Apply(k, s).k)
  {
    if s.Tick? || s.Reschedule? || s.YieldCpu? {
      ClockStepInv(k, s);
    } else if s.SleepFor? || s.BlockOn? || s.WakeUp? {
      ThreadStepInv(k, s);
    } else {
      SetupStepInv(k, s);
    }
  }

  // Only a wake-up ends an indefinite suspension.
  lemma KeepsSuspended(k: Kernel, s: Step, t: Addr)
    requires Inv(k) && Enabled(k, s) && Apply(k, s).Ok? && t in k.suspended && s != WakeUp(t)
    ensures t in Apply(k, s).k.suspended
  {
    match s
    case Tick(e) => TickInv(k, e, Apply(k, s).k);
    case Reschedule(e) =>
    case YieldCpu(e) => YieldLegal(k, e);
    case SleepFor(e, n) => SleepSuspends(k, e, n, t);
    case BlockOn(e) => WaitSuspends(k, e, NEVER, Block(k, e), t);
    case WakeUp(u) => assert ThreadOk(k, u, None); WakeInv(k, u);
    case StartCfs(u, p) =>
    case StartRt(u, a, p, d) => SpawnRtSame(k, u, a, p, d);
    case Rekey(u, e) => SetExpireInv(k, u, e);
  }

  // It leaves the other suspended threads in their order.
  lemma WakeOrder(k: Kernel, i: nat)
    requires Inv(k) && i < |k.suspended| && k.suspended[i] != k.current && Wake(k, k.suspended[i]).Ok?
    ensures Wake(k, k.suspended[i]).k.suspended == k.suspended[..i] + k.suspended[i + 1..]
  {
    var t := k.suspended[i];
    assert t in k.suspended && ThreadOk(k, t, None);
    WithoutSplits(k.suspended, i);
    WakeSuspended(k, t);
  }

  lemma RefreshSuspended(k: Kernel)
    requires Refresh(k).Ok?
    ensures Refresh(k).k.suspended == k.suspended
  {
  }

  lemma WakeSuspended(k: Kernel, t: Addr)
    requires Wake(k, t).Ok?
    ensures Wake(k, t).k.suspended == RemoveWait(k, t).suspended
  {
    var k1 := RemoveWait(k, t);
    var k2 := if Th(k, t).kind.Cfs? then EnqueueRun(k1, t)
      else Refresh(Arm(SetState(k1, t, Ready), Th(k, t).timer, Tm(k, Th(k, t).timer).expireAt, true)).k;
    if !Th(k, t).kind.Cfs? {
      RefreshSuspended(Arm(SetState(k1, t, Ready), Th(k, t).timer, Tm(k, Th(k, t).timer).expireAt, true));
    }
    RefreshSuspended(Arm(k2, k2.waitTimer, LeastWake(k2), false));
  }

  lemma WaitSuspends(k: Kernel, elapsed: nat, wakeAt: nat, r: Outcome, t: Addr)
    requires Settled(k) && k.now + elapsed < NEVER && wakeAt <= NEVER && r.Ok? && t in k.suspended
    requires r == if Th(k, k.current).kind.Idle? then Ok(k) else WaitUntil(k, elapsed, wakeAt)
    ensures t in r.k.suspended
  {
    if !Th(k, k.current).kind.Idle? { WaitUntilInv(k, elapsed, wakeAt); }
  }

  lemma SleepSuspends(k: Kernel, elapsed: nat, ticks: nat, t: Addr)
    requires Settled(k) && k.now + elapsed < NEVER && Sleep(k, elapsed, ticks).Ok? && t in k.suspended
    ensures t in Sleep(k, elapsed, ticks).k.suspended
  {
    WaitSuspends(k, elapsed, WakeTime(k.now, elapsed, ticks), Sleep(k, elapsed, ticks), t);
  }

  lemma SpawnRtSame(k: Kernel, t: Addr, a: Addr, period: nat, deadline: nat)
    requires Inv(k) && t !in k.threads && a !in k.timers && deadline >= 1 && SpawnRt(k, t, a, period, deadline).Ok?
    ensures SpawnRt(k, t, a, period, deadline).k.suspended == k.suspended
  {
  }

  ghost predicate Awake(k: Kernel, t: Addr) { t in k.threads && !IsBlocked(Th(k, t).state) }

  lemma AwakePlace(k: Kernel, t: Addr)
    requires Inv(k) && t in k.threads
    ensures Awake(k, t) <==> t !in k.waits && t !in k.suspended
  {
    assert ThreadOk(k, t, None);
  }

  lemma TickAwake(k: Kernel, elapsed: nat, k': Kernel, t: Addr)
    requires Inv(k) && Enabled(k, Tick(elapsed)) && TickStep(k, elapsed) == Ok(k') && Awake(k, t)
    ensures Awake(k', t)
  {
    TickInv(k, elapsed, k');
    AwakePlace(k, t);
    AwakePlace(k', t);
  }

  lemma ScheduleAwake(k: Kernel, elapsed: nat, t: Addr)
    requires Inv(k) && Awake(k, t)
    ensures Awake(Schedule(k, elapsed), t)
  {
    ScheduleInv(k, elapsed);
    AwakePlace(k, t);
    AwakePlace(Schedule(k, elapsed), t);
  }

  lemma WaitAwake(k: Kernel, elapsed: nat, wakeAt: nat, r: Outcome, t: Addr)
    requires Settled(k) && k.now + elapsed < NEVER && wakeAt <= NEVER && r.Ok? && Awake(k, t)
    requires r == if Th(k, k.current).kind.Idle? then Ok(k) else WaitUntil(k, elapsed, wakeAt)
    ensures t != k.current ==> Awake(r.k, t)
  {
    if !Th(k, k.current).kind.Idle? { WaitUntilInv(k, elapsed, wakeAt); }
  }

  lemma SleepAwake(k: Kernel, elapsed: nat, ticks: nat, t: Addr)
    requires Settled(k) && k.now + elapsed < NEVER && Sleep(k, elapsed, ticks).Ok? && Awake(k, t)
    ensures t != k.current ==> Awake(Sleep(k, elapsed, ticks).k, t)
  {
    WaitAwake(k, elapsed, WakeTime(k.now, elapsed, ticks), Sleep(k, elapsed, ticks), t);
  }

  lemma SpawnRtAwake(k: Kernel, t: Addr, a: Addr, period: nat, deadline: nat, u: Addr)
    requires Inv(k) && t !in k.threads && a !in k.timers && deadline >= 1 && SpawnRt(k, t, a, period, deadline).Ok?
    requires Awake(k, u)
    ensures Awake(SpawnRt(k, t, a, period, deadline).k, u)
  {
    SpawnRtInv(k, t, a, period, deadline);
    SpawnRtQueues(k, t, a, period, deadline);
    AwakePlace(k, u);
    AwakePlace(SpawnRt(k, t, a, period, deadline).k, u);
  }

  lemma SpawnRtQueues(k: Kernel, t: Addr, a: Addr, period: nat, deadline: nat)
    requires SpawnRt(k, t, a, period, deadline).Ok?
    ensures SpawnRt(k, t, a, period, deadline).k.suspended == k.suspended
    ensures SpawnRt(k, t, a, period, deadline).k.waits == k.waits
  {
  }

  // A thread stops being awake only by its own sleep or block.
  lemma KeepsAwake(k: Kernel, s: Step, t: Addr)
    requires Inv(k) && Enabled(k, s) && Apply(k, s).Ok? && Awake(k, t)
    requires t == k.current ==> !s.SleepFor? && !s.BlockOn?
    ensures Awake(Apply(k, s).k, t)
  {
    match s
    case Tick(e) => TickAwake(k, e, Apply(k, s).k, t);
    case Reschedule(e) => ScheduleAwake(k, e, t);
    case YieldCpu(e) => YieldLegal(k, e);
    case SleepFor(e, n) => SleepAwake(k, e, n, t);
    case BlockOn(e) => WaitAwake(k, e, NEVER, Block(k, e), t);
    case WakeUp(u) => assert ThreadOk(k, u, None); WakeInv(k, u);
    case StartCfs(u, p) =>
    case StartRt(u, a, p, d) => SpawnRtAwake(k, u, a, p, d, t);
    case Rekey(u, e) => SetExpireInv(k, u, e);
  }

  // ---------- Runs ----------

  // `k'` is what the steps lead to, when no deadline miss stops the run.
  ghost predicate Reaches(k: Kernel, steps: seq<Step>, k': Kernel)
    requires Inv(k)
    decreases |steps|
  {
    if steps == [] then k' == k
    else
      && Enabled(k, steps[0]) && Apply(k, steps[0]).Ok?
      && (StepInv(k, steps[0]); Reaches(Apply(k, steps[0]).k, steps[1..], k'))
  }

  // The location invariant holds in every reachable state.
  lemma {:induction false} RunInv(k: Kernel, steps: seq<Step>, k': Kernel)
    requires Inv(k) && Reaches(k, steps, k')
    ensures Inv(k')
    decreases |steps|
  {
    if steps != [] {
      StepInv(k, steps[0]);
      RunInv(Apply(k, steps[0]).k, steps[1..], k');
    }
  }

  // ---------- Fairness over runs ----------

  // Charged intervals are at most `bound`, and whoever joins finds a queued CFS thread or none at all.
  ghost predicate FairStep(k: Kernel, s: Step, bound: nat) {
    match s
    case Tick(e) => TickContended(k.(now := k.now + e))
    case Reschedule(e) => e <= bound
    case WakeUp(t) => Th(k, t).kind.Cfs? ==> Contended(k)
    case StartCfs(_, _) => Contended(k)
    case _ => true
  }

  lemma SameThreadsFair(k: Kernel, k': Kernel, bound: nat)
    requires Fair(k, bound) && SameThreads(k, k')
    ensures Fair(k', bound)
  {
    assert Runnable(k') == Runnable(k);
    FairNobodyJoins(k, k', bound);
  }

  lemma BlockFair(k: Kernel, k': Kernel, bound: nat)
    requires Fair(k, bound) && OnlyCurrentBlocks(k, k')
    ensures Fair(k', bound)
  {
    assert Runnable(k') == Runnable(k) - {k.current};
    FairNobodyJoins(k, k', bound);
  }

  lemma WakeFair(k: Kernel, k': Kernel, t: Addr, bound: nat)
    requires Core(k) && Fair(k, bound) && OnlyWakes(k, k', t) && IsBlocked(Th(k, t).state) && t != k.current
    requires Th(k, t).kind.Cfs? ==> Contended(k)
    ensures Fair(k', bound)
  {
    if Th(k, t).kind.Cfs? {
      assert Joins(k, k', t);
      FairJoin(k, k', t, bound);
    } else {
      assert Runnable(k') == Runnable(k);
      FairNobodyJoins(k, k', bound);
    }
  }

  lemma SpawnFair(k: Kernel, t: Addr, priority: nat, bound: nat)
    requires Inv(k) && t !in k.threads && Fair(k, bound) && Contended(k)
    ensures Fair(SpawnCfs(k, t, priority), bound)
  {
    var k' := SpawnCfs(k, t, priority);
    assert Joins(k, k', t);
    FairJoin(k, k', t, bound);
  }

  lemma SpawnRtFair(k: Kernel, t: Addr, a: Addr, period: nat, deadline: nat, bound: nat)
    requires Inv(k) && t !in k.threads && a !in k.timers && deadline >= 1 && Fair(k, bound)
    requires SpawnRt(k, t, a, period, deadline).Ok?
    ensures Fair(SpawnRt(k, t, a, period, deadline).k, bound)
  {
    var k1 := SetTm(SetTh(k, t, Thread(Rt, Ready, 0, 0, 0, 0, a)), a,
      Timer(RtTimer(t), deadline, true, true, period, deadline));
    assert Runnable(k1) == Runnable(k);
    FairNobodyJoins(k, k1, bound);
    RefreshSame(k1);
    SameThreadsFair(k1, Refresh(k1).k, bound);
  }

  lemma RefreshSame(k: Kernel)
    requires Refresh(k).Ok?
    requires forall a :: a in ActiveSet(k.timers) && Tm(k, a).owner.RtTimer? ==> Tm(k, a).owner.thread in k.threads
    ensures SameThreads(k, Refresh(k).k)
  {
  }

  lemma TickFair(k: Kernel, elapsed: nat, k': Kernel, bound: nat)
    requires Inv(k) && Enabled(k, Tick(elapsed)) && TickStep(k, elapsed) == Ok(k') && Fair(k, bound)
    requires TickContended(k.(now := k.now + elapsed))
    ensures Fair(k', bound)
  {
    AdvanceKeeps(k, elapsed);
    var k0 := k.(now := k.now + elapsed);
    var r := Dispatch(k0, elapsed);
    assert r.Ok? && k' == r.k.(next := EarliestActive(r.k.timers));
    FairNobodyJoins(k, k0, bound);
    DispatchFair(k0, elapsed, bound);
    SameThreadsFair(r.k, k', bound);
  }

  lemma WakeStepFair(k: Kernel, t: Addr, bound: nat)
    requires Inv(k) && Fair(k, bound) && Enabled(k, WakeUp(t)) && FairStep(k, WakeUp(t), bound) && Wake(k, t).Ok?
    ensures Fair(Wake(k, t).k, bound)
  {
    assert ThreadOk(k, t, None);
    WakeInv(k, t);
    WakeFair(k, Wake(k, t).k, t, bound);
  }

  lemma WaitStepFair(k: Kernel, elapsed: nat, wakeAt: nat, r: Outcome, bound: nat)
    requires Settled(k) && k.now + elapsed < NEVER && wakeAt <= NEVER && r.Ok? && Fair(k, bound)
    requires r == if Th(k, k.current).kind.Idle? then Ok(k) else WaitUntil(k, elapsed, wakeAt)
    ensures Fair(r.k, bound)
  {
    if !Th(k, k.current).kind.Idle? {
      WaitUntilInv(k, elapsed, wakeAt);
      BlockFair(k, r.k, bound);
    }
  }

  lemma YieldStepFair(k: Kernel, elapsed: nat, bound: nat)
    requires Settled(k) && k.now + elapsed < NEVER && Fair(k, bound)
    ensures Fair(Yield(k, elapsed), bound)
  {
    YieldLegal(k, elapsed);
    SameThreadsFair(k, Yield(k, elapsed), bound);
  }

  lemma RekeyStepFair(k: Kernel, t: Addr, e: nat, bound: nat)
    requires Inv(k) && t in k.threads && SetExpire(k, t, e).Ok? && Fair(k, bound)
    ensures Fair(SetExpire(k, t, e).k, bound)
  {
    SetExpireInv(k, t, e);
    SameThreadsFair(k, SetExpire(k, t, e).k, bound);
  }

  lemma ClockStepFair(k: Kernel, s: Step, bound: nat)
    requires (s.Tick? || s.Reschedule? || s.YieldCpu?) && Inv(k) && Enabled(k, s) && Apply(k, s).Ok? && Fair(k, bound)
    requires FairStep(k, s, bound)
    ensures Fair(Apply(k, s).k, bound)
  {
    match s
    case Tick(e) => TickFair(k, e, Apply(k, s).k, bound);
    case Reschedule(e) => ScheduleFair(k, e, bound);
    case YieldCpu(e) => YieldStepFair(k, e, bound);
  }

  lemma SleepStepFair(k: Kernel, elapsed: nat, ticks: nat, bound: nat)
    requires Settled(k) && k.now + elapsed < NEVER && Sleep(k, elapsed, ticks).Ok? && Fair(k, bound)
    ensures Fair(Sleep(k, elapsed, ticks).k, bound)
  {
    WaitStepFair(k, elapsed, WakeTime(k.now, elapsed, ticks), Sleep(k, elapsed, ticks), bound);
  }

  lemma ThreadStepFair(k: Kernel, s: Step, bound: nat)
    requires (s.SleepFor? || s.BlockOn? || s.WakeUp?) && Inv(k) && Enabled(k, s) && Apply(k, s).Ok? && Fair(k, bound)
    requires FairStep(k, s, bound)
    ensures Fair(Apply(k, s).k, bound)
  {
    match s
    case SleepFor(e, n) => SleepStepFair(k, e, n, bound);
    case BlockOn(e) => WaitStepFair(k, e, NEVER, Block(k, e), bound);
    case WakeUp(t) => WakeStepFair(k, t, bound);
  }

  lemma SetupStepFair(k: Kernel, s: Step, bound: nat)
    requires (s.StartCfs? || s.StartRt? || s.Rekey?) && Inv(k) && Enabled(k, s) && Apply(k, s).Ok? && Fair(k, bound)
    requires FairStep(k, s, bound)
    ensures Fair(Apply(k, s).k, bound)
  {
    match s
    case StartCfs(t, p) => SpawnFair(k, t, p, bound);
    case StartRt(t, a, p, d) => SpawnRtFair(k, t, a, p, d, bound);
    case Rekey(t, e) => RekeyStepFair(k, t, e, bound);
  }

  lemma StepFair(k: Kernel, s: Step, bound: nat)
    requires Inv(k) && Enabled(k, s) && Apply(k, s).Ok? && Fair(k, bound) && FairStep(k, s, bound)
    ensures Fair(Apply(k, s).k, bound)
  {
    if s.Tick? || s.Reschedule? || s.YieldCpu? {
      ClockStepFair(k, s, bound);
    } else if s.SleepFor? || s.BlockOn? || s.WakeUp? {
      ThreadStepFair(k, s, bound);
    } else {
      SetupStepFair(k, s, bound);
    }
  }

  // The conditions of FairStep hold at every state the run passes through.
  ghost predicate FairRun(k: Kernel, steps: seq<Step>, bound: nat)
    requires Inv(k)
    decreases |steps|
  {
    steps == [] || (Enabled(k, steps[0]) && Apply(k, steps[0]).Ok? ==>
      FairStep(k, steps[0], bound) && (StepInv(k, steps[0]); FairRun(Apply(k, steps[0]).k, steps[1..], bound)))
  }

  // Over a whole run the vruntimes of any two runnable CFS threads stay within any bound that covers
  // both the initial spread and the longest charged interval.
  lemma {:induction false} RunFair(k: Kernel, steps: seq<Step>, k': Kernel, bound: nat)
    requires Inv(k) && Reaches(k, steps, k') && Fair(k, bound) && FairRun(k, steps, bound)
    ensures Fair(k', bound)
    decreases |steps|
  {
    if steps != [] {
      StepInv(k, steps[0]);
      StepFair(k, steps[0], bound);
      RunFair(Apply(k, steps[0]).k, steps[1..], k', bound);
    }
  }
}
