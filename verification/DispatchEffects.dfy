/** What one tick makes of every timer (src/ktimer.rs), in closed form, and exactly when it ends in a deadline miss. */
module DispatchEffects {
  import opened Kernel
  import opened Location
  import opened ExpiryDispatch

  // What becomes of an RT timer and its thread's runtime.
  datatype Fate = Fate(tm: Timer, runtime: nat) | Miss

  ghost function Renewed(tm: Timer, expireAt: nat): Timer { tm.(expireAt := expireAt, active := true, queued := true) }

  // A due sleeper resumes with what is left of its deadline, an expired timer starts over, any other stays as it is.
  // A job that overran its deadline is a miss.
  ghost function FateOf(tm: Timer, due: bool, runtime: nat, now: nat, elapsed: nat): Fate {
    if due then
      var ran := Sat32(runtime + elapsed);
      if ran > tm.deadline then Miss
      else if ran == tm.deadline then Fate(Renewed(tm, Sat64(now + tm.deadline)), 0)
      else Fate(Renewed(tm, Sat64(now + tm.deadline - ran)), ran)
    else if tm.queued && tm.expireAt <= now then
      if tm.active && runtime > tm.deadline then Miss else Fate(Renewed(tm, Sat64(now + tm.deadline)), 0)
    else Fate(tm, runtime)
  }

  ghost function RtFate(k: Kernel, elapsed: nat, a: Addr): Fate {
    var t := Tm(k, a).owner;
    if !t.RtTimer? then Fate(Tm(k, a), 0)
    else FateOf(Tm(k, a), Due(k, t.thread), Th(k, t.thread).runtime, k.now, elapsed)
  }

  // The CFS timer alternates between slice and pause; a pause that is already over is skipped.
  ghost function CfsFate(tm: Timer, now: nat, elapsed: nat): Timer {
    if tm.expireAt > now then tm
    else if tm.active && elapsed < tm.period then
      tm.(expireAt := Sat64(now + tm.period - elapsed), active := false, queued := true)
    else Renewed(tm, Sat64(now + tm.period))
  }

  // ---------- Each iteration leaves every fate as it was ----------

  lemma RenewedStays(tm: Timer, now: nat, elapsed: nat)
    requires now < NEVER && tm.deadline >= 1
    ensures FateOf(Renewed(tm, Sat64(now + tm.deadline)), false, 0, now, elapsed) ==
      Fate(Renewed(tm, Sat64(now + tm.deadline)), 0)
  {
  }

  lemma WokenStays(tm: Timer, runtime: nat, now: nat, elapsed: nat)
    requires now < NEVER && tm.deadline >= 1
    ensures var ran := Sat32(runtime + elapsed);
      FateOf(Renewed(tm, Sat64(now + SatSub(tm.deadline, ran))), false, ran, now, elapsed) ==
        FateOf(tm, true, runtime, now, elapsed)
  {
  }

  // Nothing that decides the fate of `a` differs.
  ghost predicate SameRt(k: Kernel, k': Kernel, a: Addr) {
    && Tm(k', a) == Tm(k, a) && k'.now == k.now
    && (Tm(k, a).owner.RtTimer? ==>
         var t := Tm(k, a).owner.thread; Th(k', t).runtime == Th(k, t).runtime && (Due(k', t) <==> Due(k, t)))
  }

  lemma RtReleaseFate(k: Kernel, elapsed: nat, b: Addr, k': Kernel, a: Addr)
    requires Dispatching(k) && Expired(k, b) && Tm(k, b).owner.RtTimer? && DispatchOne(k, elapsed, b) == Ok(k')
    requires a in k.timers
    ensures RtFate(k', elapsed, a) == RtFate(k, elapsed, a)
  {
    assert TimerOk(k, b) && TimerOk(k, a);
    assert ThreadOk(k, Tm(k, b).owner.thread, None);
    if a == b {
      RenewedStays(Tm(k, a), k.now, elapsed);
    } else {
      assert SameRt(k, k', a);
    }
  }

  lemma WakeSleeperFate(k: Kernel, elapsed: nat, t: Addr, k': Kernel, a: Addr)
    requires Core(k) && Due(k, t) && t != k.current && k' == WakeSleeper(k, elapsed, t) && a in k.timers
    ensures RtFate(k', elapsed, a) == RtFate(k, elapsed, a)
  {
    assert ThreadOk(k, t, None) && TimerOk(k, a);
    if Th(k, t).kind.Rt? && a == Th(k, t).timer {
      WokenStays(Tm(k, a), Th(k, t).runtime, k.now, elapsed);
    } else {
      assert SameRt(k, k', a);
    }
  }

  lemma {:induction false} WakeDueFate(k: Kernel, elapsed: nat, a: Addr)
    requires Core(k) && CurrentStays(k) && a in k.timers
    ensures RtFate(WakeDue(k, elapsed), elapsed, a) == RtFate(k, elapsed, a)
    ensures !Tm(k, a).owner.RtTimer? ==> Tm(WakeDue(k, elapsed), a) == Tm(k, a)
    ensures Tm(WakeDue(k, elapsed), a).owner == Tm(k, a).owner
    decreases |k.waits|
  {
    if k.waits != {} && LeastWake(k) <= k.now {
      var t := Least(k.waits, WakeKeys(k));
      assert Due(k, t);
      var k1 := WakeSleeper(k, elapsed, t);
      assert ThreadOk(k, t, None) && TimerOk(k, a);
      WakeSleeperCore(k, elapsed, t);
      WakeSleeperFate(k, elapsed, t, k1, a);
      WakeDueFate(k1, elapsed, a);
    }
  }

  lemma WaitFate(k: Kernel, elapsed: nat, k': Kernel, a: Addr)
    requires Dispatching(k) && DispatchOne(k, elapsed, k.waitTimer) == Ok(k') && Tm(k, k.waitTimer).owner.WaitTimer?
    requires a in k.timers
    ensures Tm(k', a).owner == Tm(k, a).owner
    ensures a != k.waitTimer ==>
      RtFate(k', elapsed, a) == RtFate(k, elapsed, a) && (!Tm(k, a).owner.RtTimer? ==> Tm(k', a) == Tm(k, a))
  {
    WakeDueFate(k, elapsed, a);
    WakeDueCore(k, elapsed);
    assert TimerOk(k, a);
    assert a != k.waitTimer ==> SameRt(WakeDue(k, elapsed), k', a);
  }

  // One turn of the CFS timer leads to the same end.
  lemma CfsTurnStays(tm: Timer, now: nat, elapsed: nat)
    requires now < NEVER && tm.period >= 1 && tm.expireAt <= now
    ensures var tm' := if tm.active then
      tm.(expireAt := Sat64(now + SatSub(tm.period, elapsed)), active := false, queued := true)
                       else Renewed(tm, Sat64(now + tm.period));
      CfsFate(tm', now, elapsed) == CfsFate(tm, now, elapsed)
  {
  }

  lemma CfsTurnFate(k: Kernel, elapsed: nat, k': Kernel, a: Addr)
    requires Dispatching(k) && Expired(k, k.cfsTimer) && DispatchOne(k, elapsed, k.cfsTimer) == Ok(k') && a in k.timers
    ensures a != k.cfsTimer ==> RtFate(k', elapsed, a) == RtFate(k, elapsed, a)
    ensures a == k.cfsTimer ==> CfsFate(Tm(k', a), k.now, elapsed) == CfsFate(Tm(k, a), k.now, elapsed)
    ensures k'.now == k.now && Tm(k', a).owner == Tm(k, a).owner
  {
    assert TimerOk(k, k.cfsTimer) && TimerOk(k, a);
    CfsTurnStays(Tm(k, k.cfsTimer), k.now, elapsed);
    assert a != k.cfsTimer ==> SameRt(k, k', a);
  }

  // `a` is an RT timer or the CFS timer, `b` the expired timer that is handled.
  lemma TurnFate(k: Kernel, elapsed: nat, b: Addr, k': Kernel, a: Addr)
    requires Dispatching(k) && Expired(k, b) && DispatchOne(k, elapsed, b) == Ok(k') && a in k.timers
    requires a != k.waitTimer
    ensures RtFate(k', elapsed, a) == RtFate(k, elapsed, a) || a == k.cfsTimer
    ensures a == k.cfsTimer ==> CfsFate(Tm(k', a), k.now, elapsed) == CfsFate(Tm(k, a), k.now, elapsed)
    ensures k'.now == k.now && Tm(k', a).owner == Tm(k, a).owner
  {
    assert TimerOk(k, a) && TimerOk(k, b);
    DispatchOneKeeps(k, elapsed, b);
    if b == k.waitTimer {
      WaitFate(k, elapsed, k', a);
    } else if b == k.cfsTimer {
      CfsTurnFate(k, elapsed, k', a);
    } else {
      RtReleaseFate(k, elapsed, b, k', a);
    }
  }

  // With nothing expired everything is settled.
  lemma NothingExpired(k: Kernel, elapsed: nat, a: Addr)
    requires Dispatching(k) && (Earliest(k.timers).None? || Tm(k, Earliest(k.timers).v).expireAt > k.now)
    requires a in k.timers
    ensures Tm(k, a).owner.RtTimer? ==> RtFate(k, elapsed, a) == Fate(Tm(k, a), Th(k, Tm(k, a).owner.thread).runtime)
    ensures a == k.cfsTimer ==> CfsFate(Tm(k, a), k.now, elapsed) == Tm(k, a)
  {
    assert TimerOk(k, a) && TimerOk(k, k.waitTimer);
    assert k.waitTimer in QueuedSet(k.timers) && (Tm(k, a).queued ==> a in QueuedSet(k.timers));
    NoneDue(k);
    if Tm(k, a).owner.RtTimer? { assert !Due(k, Tm(k, a).owner.thread); }
  }

  // ---------- The whole dispatch ----------

  // On normal return every RT timer and runtime, and the CFS timer, are what their fates say.
  lemma {:induction false} DispatchFate(k: Kernel, elapsed: nat, a: Addr)
    requires Dispatching(k) && a in k.timers && a != k.waitTimer && Dispatch(k, elapsed).Ok?
    ensures var k' := Dispatch(k, elapsed).k;
      && a in k'.timers && Tm(k', a).owner == Tm(k, a).owner
      && (Tm(k, a).owner.RtTimer? ==> RtFate(k, elapsed, a) == Fate(Tm(k', a), Th(k', Tm(k, a).owner.thread).runtime))
      && (a == k.cfsTimer ==> Tm(k', a) == CfsFate(Tm(k, a), k.now, elapsed))
    decreases Expired(k, k.waitTimer), |ExpiredRt(k)| + CfsTurns(k)
  {
    var e := Earliest(k.timers);
    assert TimerOk(k, a);
    if e.None? || Tm(k, e.v).expireAt > k.now {
      NothingExpired(k, elapsed, a);
    } else {
      DispatchOneKeeps(k, elapsed, e.v);
      var k1 := DispatchOne(k, elapsed, e.v).k;
      TurnFate(k, elapsed, e.v, k1, a);
      DispatchFate(k1, elapsed, a);
    }
  }

  ghost predicate Overruns(k: Kernel, elapsed: nat, a: Addr) {
    a in k.timers && Tm(k, a).owner.RtTimer? && RtFate(k, elapsed, a).Miss?
  }

  lemma TurnOverruns(k: Kernel, elapsed: nat, b: Addr, k': Kernel)
    requires Dispatching(k) && Expired(k, b) && DispatchOne(k, elapsed, b) == Ok(k') && Dispatching(k')
    requires Progress(k, k')
    ensures forall a :: Overruns(k', elapsed, a) <==> Overruns(k, elapsed, a)
  {
    forall a | a in k.timers ensures Overruns(k', elapsed, a) <==> Overruns(k, elapsed, a) {
      assert TimerOk(k, a) && TimerOk(k', a);
      if a != k.waitTimer { TurnFate(k, elapsed, b, k', a); }
    }
  }

  lemma MissOverruns(k: Kernel, elapsed: nat, b: Addr)
    requires Dispatching(k) && Expired(k, b) && DispatchOne(k, elapsed, b).Missed?
    ensures Overruns(k, elapsed, b) && Tm(k, b).owner == RtTimer(DispatchOne(k, elapsed, b).thread)
  {
    assert TimerOk(k, b);
    assert ThreadOk(k, Tm(k, b).owner.thread, None);
  }

  // The system halts exactly when some RT job has overrun its deadline by the end of the interval, and it then names
  // the thread of such a job.
  lemma {:induction false} MissExactly(k: Kernel, elapsed: nat)
    requires Dispatching(k)
    ensures Dispatch(k, elapsed).Missed? <==> exists a :: Overruns(k, elapsed, a)
    ensures Dispatch(k, elapsed).Missed? ==>
      exists a :: Overruns(k, elapsed, a) && Tm(k, a).owner == RtTimer(Dispatch(k, elapsed).thread)
    decreases Expired(k, k.waitTimer), |ExpiredRt(k)| + CfsTurns(k)
  {
    var e := Earliest(k.timers);
    if e.None? || Tm(k, e.v).expireAt > k.now {
      forall a ensures !Overruns(k, elapsed, a) { if a in k.timers { NothingExpired(k, elapsed, a); } }
    } else if DispatchOne(k, elapsed, e.v).Missed? {
      MissOverruns(k, elapsed, e.v);
    } else {
      DispatchOneKeeps(k, elapsed, e.v);
      var k1 := DispatchOne(k, elapsed, e.v).k;
      TurnOverruns(k, elapsed, e.v, k1);
      MissExactly(k1, elapsed);
      MissNames(k, elapsed, e.v, k1);
    }
  }

  lemma MissNames(k: Kernel, elapsed: nat, b: Addr, k1: Kernel)
    requires Dispatching(k) && Expired(k, b) && DispatchOne(k, elapsed, b) == Ok(k1)
    ensures forall a :: a in k.timers ==> Tm(k1, a).owner == Tm(k, a).owner
  {
    forall a | a in k.timers ensures Tm(k1, a).owner == Tm(k, a).owner {
      if a != k.waitTimer {
        TurnFate(k, elapsed, b, k1, a);
      } else {
        DispatchOneKeeps(k, elapsed, b);
        assert TimerOk(k, a) && TimerOk(k1, a);
      }
    }
  }
}
