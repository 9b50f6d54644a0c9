/** Expiry dispatch (src/ktimer.rs): the loop that handles every expired timer at a scheduler tick. */
module ExpiryDispatch {
  import opened Kernel
  import opened Location

  // The current thread has not just gone to sleep for a time that is already over.
  ghost predicate CurrentStays(k: Kernel) { k.current in k.waits ==> Th(k, k.current).wakeAt > k.now }

  ghost predicate Due(k: Kernel, t: Addr) { t in k.waits && Th(k, t).wakeAt <= k.now }

  // One iteration of `wake_wait_thread`: the sleeper `t` becomes ready.
  ghost function WakeSleeper(k: Kernel, elapsed: nat, t: Addr): Kernel {
    var k1 := k.(waits := k.waits - {t});
    if Th(k, t).kind.Cfs? then EnqueueRun(k1, t)
    else
      var ran, a := Sat32(Th(k, t).runtime + elapsed), Th(k, t).timer;
      var k2 := SetTh(k1, t, Th(k, t).(state := Ready, runtime := ran));
      Arm(k2, a, Sat64(k.now + SatSub(Tm(k, a).deadline, ran)), true)
  }

  // `wake_wait_thread`: sleepers are popped in wake order while they are due.
  ghost function WakeDue(k: Kernel, elapsed: nat): Kernel
    decreases |k.waits|
  {
    if k.waits == {} || LeastWake(k) > k.now then k
    else
      var t := Least(k.waits, WakeKeys(k));
      var k1 := WakeSleeper(k, elapsed, t);
      assert k1.waits == k.waits - {t};
      WakeDue(k1, elapsed)
  }

  // Since `k`, sleepers may have become ready, but only due ones; nobody else changed state.
  ghost predicate Progress(k: Kernel, k': Kernel) {
    && k'.threads.Keys == k.threads.Keys && k'.timers.Keys == k.timers.Keys && k'.waits <= k.waits
    && k' == k.(threads := k'.threads, timers := k'.timers, waits := k'.waits, runq := k'.runq,
                 prioritySum := k'.prioritySum)
    && (forall t :: t in k.threads ==>
      && Th(k', t).wakeAt == Th(k, t).wakeAt && Th(k', t).kind == Th(k, t).kind
      && Th(k', t).priority == Th(k, t).priority
      && Th(k', t).state == (if t in k.waits && t !in k'.waits then Ready else Th(k, t).state))
    && (forall t :: t in k.waits && t !in k'.waits ==> Due(k, t))
  }

  lemma ProgressTrans(k: Kernel, k1: Kernel, k2: Kernel)
    requires Progress(k, k1) && Progress(k1, k2) && k.waits <= k.threads.Keys
    ensures Progress(k, k2)
  {
  }

  // No sleeper is due exactly when the least wake time lies ahead.
  lemma NoneDue(k: Kernel)
    requires k.now < NEVER
    ensures LeastWake(k) > k.now <==> forall t :: !Due(k, t)
  {
    if k.waits != {} {
      assert Due(k, Least(k.waits, WakeKeys(k))) || LeastWake(k) > k.now;
    }
  }

  lemma WakeSleeperProgress(k: Kernel, elapsed: nat, t: Addr)
    requires t in k.threads && Due(k, t) && (Th(k, t).kind.Cfs? || Th(k, t).timer in k.timers)
    ensures Progress(k, WakeSleeper(k, elapsed, t)) && WakeSleeper(k, elapsed, t).waits == k.waits - {t}
  {
  }

  lemma SleeperUnlinked(k: Kernel, t: Addr)
    requires Core(k) && Due(k, t)
    ensures Unlinked(k, k.(waits := k.waits - {t}), t)
  {
    assert ThreadOk(k, t, None);
  }

  lemma RtSleeperCore(k: Kernel, elapsed: nat, t: Addr, k1: Kernel)
    requires Core(k) && t != k.current && Due(k, t) && Th(k, t).kind.Rt? && t in k.threads && IsBlocked(Th(k, t).state)
    requires k1 == k.(waits := k.waits - {t}) && Unlinked(k, k1, t)
    ensures Core(WakeSleeper(k, elapsed, t))
  {
    var ran, a := Sat32(Th(k, t).runtime + elapsed), Th(k, t).timer;
    WakeRtCore(k, k1, t, ran, Sat64(k.now + SatSub(Tm(k, a).deadline, ran)));
  }

  lemma SleeperCore(k: Kernel, elapsed: nat, t: Addr)
    requires Core(k) && t != k.current && Due(k, t)
    ensures Core(WakeSleeper(k, elapsed, t))
  {
    assert ThreadOk(k, t, None);
    SleeperUnlinked(k, t);
    var k1 := k.(waits := k.waits - {t});
    if Th(k, t).kind.Cfs? { WakeCfsCore(k, k1, t); } else { RtSleeperCore(k, elapsed, t, k1); }
  }

  lemma WakeSleeperCore(k: Kernel, elapsed: nat, t: Addr)
    requires Core(k) && t != k.current && Due(k, t)
    ensures Core(WakeSleeper(k, elapsed, t)) && Progress(k, WakeSleeper(k, elapsed, t))
    ensures WakeSleeper(k, elapsed, t).waits == k.waits - {t}
  {
    assert ThreadOk(k, t, None);
    SleeperCore(k, elapsed, t);
    WakeSleeperProgress(k, elapsed, t);
  }

  // Every due sleeper wakes and nobody else moves.
  lemma {:induction false} WakeDueCore(k: Kernel, elapsed: nat)
    requires Core(k) && CurrentStays(k)
    ensures var k' := WakeDue(k, elapsed); Core(k') && Progress(k, k') && CurrentStays(k') && LeastWake(k') > k.now
    decreases |k.waits|
  {
    if k.waits != {} && LeastWake(k) <= k.now {
      var t := Least(k.waits, WakeKeys(k));
      WakeSleeperCore(k, elapsed, t);
      var k1 := WakeSleeper(k, elapsed, t);
      WakeDueCore(k1, elapsed);
      ProgressTrans(k, k1, WakeDue(k1, elapsed));
    }
  }

  // ---------- The dispatch loop ----------

  // One iteration: the earliest timer `a` has expired.
  ghost function DispatchOne(k: Kernel, elapsed: nat, a: Addr): Outcome {
    var tm := Tm(k, a);
    match tm.owner
    case WaitTimer => var k1 := WakeDue(k, elapsed); Ok(Arm(k1, a, LeastWake(k1), false))
    case CfsTimer =>
      if tm.active then Ok(Arm(k, a, Sat64(k.now + SatSub(tm.period, elapsed)), false))
      else Ok(Arm(k, a, Sat64(k.now + tm.period), true))
    case RtTimer(t) =>
      if tm.active && Th(k, t).runtime > tm.deadline then Missed(t)
      else Ok(Arm(SetTh(k, t, Th(k, t).(runtime := 0)), a, Sat64(k.now + tm.deadline), true))
  }

  ghost predicate Expired(k: Kernel, a: Addr) { a in k.timers && Tm(k, a).queued && Tm(k, a).expireAt <= k.now }

  ghost function ExpiredRt(k: Kernel): set<Addr> { set a | a in k.timers && Tm(k, a).owner.RtTimer? && Expired(k, a) }

  // An active CFS timer may have to expire twice: it is first parked, possibly already due, then released.
  ghost function CfsTurns(k: Kernel): nat {
    if !Expired(k, k.cfsTimer) then 0 else if Tm(k, k.cfsTimer).active then 2 else 1
  }

  // What the dispatch loop relies on from one iteration to the next.
  ghost predicate Dispatching(k: Kernel) { Core(k) && WaitArmed(k) && CurrentStays(k) }

  lemma WaitExpiry(k: Kernel, elapsed: nat)
    requires Dispatching(k)
    ensures var k' := DispatchOne(k, elapsed, k.waitTimer).k;
      && DispatchOne(k, elapsed, k.waitTimer).Ok?
      && Dispatching(k') && Progress(k, k') && !Expired(k', k.waitTimer)
  {
    assert TimerOk(k, k.waitTimer);
    WakeDueCore(k, elapsed);
    var k1 := WakeDue(k, elapsed);
    ArmWaitCore(k1);
  }

  // An expired scheduler timer is re-armed; an RT job starts with a fresh runtime.
  ghost function Released(k: Kernel, a: Addr, e: nat, active: bool): Kernel {
    var o := Tm(k, a).owner;
    Arm(if o.RtTimer? then SetTh(k, o.thread, Th(k, o.thread).(runtime := 0)) else k, a, e, active)
  }

  lemma ReleasedRetimes(k: Kernel, a: Addr, e: nat, active: bool)
    requires Expired(k, a) && a != k.waitTimer && (Tm(k, a).owner.RtTimer? ==> Tm(k, a).owner.thread in k.threads)
    ensures Retimed(k, Released(k, a, e, active)) && Progress(k, Released(k, a, e, active))
  {
  }

  lemma ReleaseCore(k: Kernel, a: Addr, e: nat, active: bool)
    requires Dispatching(k) && Expired(k, a) && a != k.waitTimer
    ensures Dispatching(Released(k, a, e, active)) && Progress(k, Released(k, a, e, active))
  {
    assert TimerOk(k, a);
    var k' := Released(k, a, e, active);
    ReleasedRetimes(k, a, e, active);
    RetimedSum(k, k');
    RetimedWaits(k, k');
    forall t | t in k'.threads ensures ThreadOk(k', t, None) { assert ThreadOk(k, t, None); }
    forall b | b in k'.timers ensures TimerOk(k', b) { assert TimerOk(k, b); }
  }

  lemma CfsTurnShorter(k: Kernel, elapsed: nat)
    requires Timers(k) && Expired(k, k.cfsTimer) && k.cfsTimer != k.waitTimer
    ensures var k' := DispatchOne(k, elapsed, k.cfsTimer).k;
      && CfsTurns(k') < CfsTurns(k) && ExpiredRt(k') == ExpiredRt(k)
      && (Expired(k', k.waitTimer) <==> Expired(k, k.waitTimer))
  {
    assert TimerOk(k, k.cfsTimer);
    assert ExpiredRt(DispatchOne(k, elapsed, k.cfsTimer).k) == ExpiredRt(k);
  }

  lemma RtTurnShorter(k: Kernel, elapsed: nat, a: Addr)
    requires Timers(k) && Expired(k, a) && Tm(k, a).owner.RtTimer? && DispatchOne(k, elapsed, a).Ok?
    ensures var k' := DispatchOne(k, elapsed, a).k;
      && CfsTurns(k') == CfsTurns(k) && ExpiredRt(k') == ExpiredRt(k) - {a}
      && (Expired(k', k.waitTimer) <==> Expired(k, k.waitTimer))
  {
    assert TimerOk(k, a);
    assert ExpiredRt(DispatchOne(k, elapsed, a).k) == ExpiredRt(k) - {a};
  }

  // Every iteration keeps the invariant and makes progress towards a queue without expired timers.
  lemma DispatchOneKeeps(k: Kernel, elapsed: nat, a: Addr)
    requires Dispatching(k) && Expired(k, a) && DispatchOne(k, elapsed, a).Ok?
    ensures var k' := DispatchOne(k, elapsed, a).k; Dispatching(k') && Progress(k, k')
    ensures var k' := DispatchOne(k, elapsed, a).k;
      if a == k.waitTimer then !Expired(k', k.waitTimer)
      else
        && (Expired(k', k.waitTimer) <==> Expired(k, k.waitTimer))
        && |ExpiredRt(k')| + CfsTurns(k') < |ExpiredRt(k)| + CfsTurns(k)
  {
    assert TimerOk(k, a);
    if a == k.waitTimer {
      WaitExpiry(k, elapsed);
    } else {
      var k' := DispatchOne(k, elapsed, a).k;
      ReleaseCore(k, a, Tm(k', a).expireAt, Tm(k', a).active);
      if a == k.cfsTimer { CfsTurnShorter(k, elapsed); } else { RtTurnShorter(k, elapsed, a); }
    }
  }

  ghost function Dispatch(k: Kernel, elapsed: nat): Outcome
    requires Dispatching(k)
    decreases Expired(k, k.waitTimer), |ExpiredRt(k)| + CfsTurns(k)
  {
    var e := Earliest(k.timers);
    if e.None? || Tm(k, e.v).expireAt > k.now then Ok(k)
    else
      var k1 :- DispatchOne(k, elapsed, e.v);
      DispatchOneKeeps(k, elapsed, e.v);
      Dispatch(k1, elapsed)
  }

  // On normal return no queued timer is expired, the due sleepers are ready and every other thread is as before.
  lemma {:induction false} DispatchResult(k: Kernel, elapsed: nat)
    requires Dispatching(k) && Dispatch(k, elapsed).Ok?
    ensures var k' := Dispatch(k, elapsed).k;
      && Dispatching(k') && Progress(k, k')
      && (forall a :: !Expired(k', a))
      && (forall t :: t in k'.waits <==> t in k.waits && Th(k, t).wakeAt > k.now)
    decreases Expired(k, k.waitTimer), |ExpiredRt(k)| + CfsTurns(k)
  {
    var e := Earliest(k.timers);
    if e.None? || Tm(k, e.v).expireAt > k.now {
      forall a ensures !Expired(k, a) { assert a in k.timers && Tm(k, a).queued ==> a in QueuedSet(k.timers); }
      assert TimerOk(k, k.waitTimer);
      assert !Expired(k, k.waitTimer);
      NoneDue(k);
      forall t | t in k.waits ensures Th(k, t).wakeAt > k.now { assert !Due(k, t); }
    } else {
      DispatchOneKeeps(k, elapsed, e.v);
      var k1 := DispatchOne(k, elapsed, e.v).k;
      DispatchResult(k1, elapsed);
      ProgressTrans(k, k1, Dispatch(k1, elapsed).k);
    }
  }
}
