/** What `refresh_next_ktimer` (src/ktimer.rs) answers, and what it makes of a timer that is re-keyed, woken or new. */
module Rearming {
  import opened KeyOrder
  import opened Kernel
  import opened Location

  // ---------- The earliest active timer ----------

  ghost predicate IsActive(k: Kernel, a: Addr) { a in k.timers && Tm(k, a).queued && Tm(k, a).active }

  // Before every other active timer by (expiry, address).
  ghost predicate First(k: Kernel, a: Addr) {
    && IsActive(k, a)
    && forall b :: IsActive(k, b) && b != a ==> Less(Tm(k, a).expireAt, a, Tm(k, b).expireAt, b)
  }

  // The cached next timer is the first active one, and there is none exactly when no timer is active.
  ghost predicate Cached(k: Kernel) {
    if k.next.None? then forall a :: !IsActive(k, a) else First(k, k.next.v)
  }

  lemma FirstIs(k: Kernel, a: Addr)
    ensures First(k, a) <==> EarliestActive(k.timers) == Some(a)
    ensures Cached(k) <==> k.next == EarliestActive(k.timers)
  {
    assert forall b :: IsActive(k, b) <==> b in ActiveSet(k.timers);
    FirstOnly(k, a);
    if k.next.Some? { FirstOnly(k, k.next.v); }
    NoneActive(k);
  }

  lemma FirstOnly(k: Kernel, a: Addr)
    ensures First(k, a) <==> EarliestActive(k.timers) == Some(a)
  {
    assert forall b :: IsActive(k, b) <==> b in ActiveSet(k.timers);
    var e := EarliestActive(k.timers);
    if e.Some? { assert IsActive(k, e.v); }
  }

  lemma NoneActive(k: Kernel)
    ensures EarliestActive(k.timers).None? <==> forall a :: !IsActive(k, a)
  {
    assert forall b :: IsActive(k, b) <==> b in ActiveSet(k.timers);
    if EarliestActive(k.timers).Some? { assert IsActive(k, EarliestActive(k.timers).v); }
  }

  // ---------- Refresh ----------

  // A point in time that saturates at the end of the clock.
  function Later(now: nat, ticks: nat): (e: nat) { if now + ticks <= NEVER then now + ticks else NEVER }

  // The job of `a` has used more than its relative deadline.
  ghost predicate Overrun(k: Kernel, a: Addr) {
    Tm(k, a).owner.RtTimer? && Th(k, Tm(k, a).owner.thread).runtime > Tm(k, a).deadline
  }

  // An RT timer starts over with its relative deadline, the CFS slice with its period.
  ghost function Restarted(k: Kernel, a: Addr): nat {
    Later(k.now, if Tm(k, a).owner.RtTimer? then Tm(k, a).deadline else Tm(k, a).period)
  }

  // `a` has started over, its job with no runtime; nothing else but the cache is different.
  ghost predicate StartsOver(k: Kernel, a: Addr, k': Kernel) {
    && k' == k.(threads := k'.threads, timers := k'.timers, next := k'.next) && k'.timers.Keys == k.timers.Keys
    && Tm(k', a) == Tm(k, a).(expireAt := Restarted(k, a), active := true, queued := true)
    && (forall b :: b != a ==> Tm(k', b) == Tm(k, b))
    && (forall u :: Th(k', u) == if Tm(k, a).owner == RtTimer(u) then Th(k, u).(runtime := 0) else Th(k, u))
  }

  // If nothing active has expired only the cache changes.
  lemma RefreshQuiet(k: Kernel)
    requires forall a :: IsActive(k, a) ==> Tm(k, a).expireAt > k.now
    ensures Refresh(k).Ok? && Refresh(k).k == k.(next := Refresh(k).k.next) && Cached(Refresh(k).k)
  {
    var e := EarliestActive(k.timers);
    NoneActive(k);
    if e.Some? { FirstOnly(k, e.v); }
    assert Refresh(k) == Ok(k.(next := e));
    FirstIs(k.(next := e), 0);
  }

  // If the first active timer has expired, an overrun job of its own is a deadline miss, and otherwise it starts over.
  lemma RefreshFires(k: Kernel, a: Addr)
    requires First(k, a) && Tm(k, a).expireAt <= k.now
    ensures Refresh(k).Missed? <==> Overrun(k, a)
    ensures Refresh(k).Missed? ==> Refresh(k) == Missed(Tm(k, a).owner.thread)
    ensures Refresh(k).Ok? ==> StartsOver(k, a, Refresh(k).k) && Cached(Refresh(k).k)
  {
    FirstOnly(k, a);
    if Refresh(k).Ok? { FirstIs(Refresh(k).k, 0); }
  }

  // ---------- A new deadline ----------

  // `t` under its new deadline `e`, before the refresh.
  ghost function Rekeyed(k: Kernel, t: Addr, e: nat): Kernel {
    SetTm(k, OwnTimer(k, t), Tm(k, OwnTimer(k, t)).(expireAt := e))
  }

  // `t` may be re-keyed to the first active timer that has already expired.
  ghost predicate FiresNow(k: Kernel, a: Addr) { First(k, a) && Tm(k, a).expireAt <= k.now }

  lemma RefreshTimer(k: Kernel, a: Addr, k': Kernel)
    requires a in k.timers && Refresh(k) == Ok(k')
    ensures Tm(k', a) ==
      if FiresNow(k, a) then Tm(k, a).(expireAt := Restarted(k, a), active := true, queued := true) else Tm(k, a)
  {
    if forall b :: IsActive(k, b) ==> Tm(k, b).expireAt > k.now {
      RefreshQuiet(k);
    } else {
      var e := EarliestActive(k.timers);
      NoneActive(k);
      FirstOnly(k, e.v);
      RefreshFires(k, e.v);
    }
  }

  // The outcome of the refresh is a miss exactly if some first active timer has expired on an overrun job.
  lemma RefreshMisses(k: Kernel)
    ensures Refresh(k).Missed? <==> exists a :: FiresNow(k, a) && Overrun(k, a)
    ensures forall a :: FiresNow(k, a) && Overrun(k, a) ==> Refresh(k) == Missed(Tm(k, a).owner.thread)
  {
    forall a | FiresNow(k, a) ensures Refresh(k).Missed? <==> Overrun(k, a)
      ensures Overrun(k, a) ==> Refresh(k) == Missed(Tm(k, a).owner.thread) { RefreshFires(k, a); }
    if !exists a :: FiresNow(k, a) {
      NoneActive(k);
      var e := EarliestActive(k.timers);
      if e.Some? { FirstOnly(k, e.v); assert !FiresNow(k, e.v); }
      assert forall b :: IsActive(k, b) ==> Tm(k, b).expireAt > k.now;
      RefreshQuiet(k);
    }
  }

  // Re-keying sets the deadline, exactly unless the timer then fires at once and starts over.
  lemma RekeyTimer(k: Kernel, t: Addr, e: nat, k': Kernel)
    requires Inv(k) && t in k.threads && !Th(k, t).kind.Idle? && SetExpire(k, t, e) == Ok(k')
    ensures var a := OwnTimer(k, t);
      && Tm(k', a) == Tm(k, a).(expireAt := Tm(k', a).expireAt)
      && Tm(k', a).expireAt == if FiresNow(Rekeyed(k, t, e), a) then Restarted(k, a) else e
  {
    var a, k1 := OwnTimer(k, t), Rekeyed(k, t, e);
    assert ThreadOk(k, t, None) && TimerOk(k, a);
    if Tm(k, a).queued || k.next == Some(a) { RefreshTimer(k1, a, k'); }
  }

  // It is a deadline miss exactly if the timer counts for the scheduler and the refresh finds an overrun job.
  lemma RekeyMisses(k: Kernel, t: Addr, e: nat)
    requires Inv(k) && t in k.threads && !Th(k, t).kind.Idle?
    ensures SetExpire(k, t, e).Missed? <==>
      Tm(k, OwnTimer(k, t)).queued && exists a :: FiresNow(Rekeyed(k, t, e), a) && Overrun(Rekeyed(k, t, e), a)
  {
    assert ThreadOk(k, t, None) && TimerOk(k, OwnTimer(k, t));
    RefreshMisses(Rekeyed(k, t, e));
    if k.next.Some? { assert TimerOk(k, k.next.v); }
  }

  // ---------- A new RT thread ----------

  // Its timer is active and first expires at its relative deadline on the absolute clock, or one more such deadline
  // from now if that has passed and no other active timer comes first.
  lemma SpawnRtTimer(k: Kernel, t: Addr, a: Addr, period: nat, deadline: nat, k': Kernel)
    requires Inv(k) && t !in k.threads && a !in k.timers && SpawnRt(k, t, a, period, deadline) == Ok(k')
    ensures Th(k', t) == Thread(Rt, Ready, 0, 0, 0, 0, a)
    ensures Tm(k', a) == Timer(RtTimer(t), Tm(k', a).expireAt, true, true, period, deadline)
    ensures Tm(k', a).expireAt ==
      if deadline <= k.now && forall b :: IsActive(k, b) ==> Less(deadline, a, Tm(k, b).expireAt, b)
      then Later(k.now, deadline) else deadline
  {
    var k1 := SetTm(SetTh(k, t, Thread(Rt, Ready, 0, 0, 0, 0, a)), a,
      Timer(RtTimer(t), deadline, true, true, period, deadline));
    RefreshTimer(k1, a, k');
    assert forall b :: b != a ==> (IsActive(k1, b) <==> IsActive(k, b)) && Tm(k1, b) == Tm(k, b);
    NewRtThread(k, t, k1, k');
  }

  lemma NewRtThread(k: Kernel, t: Addr, k1: Kernel, k': Kernel)
    requires Refresh(k1) == Ok(k') && Th(k1, t).runtime == 0 && t in k1.threads
    ensures Th(k', t) == Th(k1, t)
  {
  }

  // ---------- Several refreshes ----------

  ghost predicate Before(k: Kernel, b: Addr, a: Addr) {
    IsActive(k, b) && Less(Tm(k, b).expireAt, b, Tm(k, a).expireAt, a)
  }

  // Two active timers come before `a`: two refreshes do not reach it.
  ghost predicate Crowded(k: Kernel, a: Addr) { exists b, c :: b != c && Before(k, b, a) && Before(k, c, a) }

  lemma RestartedLater(k: Kernel, a: Addr)
    requires Timers(k) && IsActive(k, a)
    ensures Restarted(k, a) > k.now && (Tm(k, a).owner.RtTimer? || a == k.cfsTimer)
  {
    assert TimerOk(k, a);
  }

  // The active timer `b` after one refresh of `k`, and after two.
  ghost function Once(k: Kernel, b: Addr): Timer {
    if FiresNow(k, b) then Tm(k, b).(expireAt := Restarted(k, b)) else Tm(k, b)
  }

  ghost function Twice(k: Kernel, b: Addr): Timer {
    if Tm(k, b).expireAt <= k.now && !Crowded(k, b) then Tm(k, b).(expireAt := Restarted(k, b)) else Tm(k, b)
  }

  // The runtime of the job of `b`.
  ghost function Ran(k: Kernel, b: Addr): nat {
    if Tm(k, b).owner.RtTimer? then Th(k, Tm(k, b).owner.thread).runtime else 0
  }

  // What `k'` makes of the active timer `b` of `k` and of its job, after one refresh and after two: a timer that starts
  // over does so with a fresh job.
  ghost predicate AfterOnce(k: Kernel, b: Addr, k': Kernel) {
    Tm(k', b) == Once(k, b) && Ran(k', b) == if FiresNow(k, b) then 0 else Ran(k, b)
  }

  ghost predicate AfterTwice(k: Kernel, b: Addr, k': Kernel) {
    Tm(k', b) == Twice(k, b) && Ran(k', b) == if Tm(k, b).expireAt <= k.now && !Crowded(k, b) then 0 else Ran(k, b)
  }

  // One refresh is a miss exactly if it fires an overrun job, two if one of them does.
  ghost predicate OnceMisses(k: Kernel) { exists b :: FiresNow(k, b) && Overrun(k, b) }

  ghost predicate TwiceMisses(k: Kernel) {
    exists b :: IsActive(k, b) && Tm(k, b).expireAt <= k.now && !Crowded(k, b) && Overrun(k, b)
  }

  // The first of the two refreshes.
  lemma FirstRefresh(k: Kernel, a: Addr, e: Addr, k1: Kernel)
    requires Timers(k) && IsActive(k, a) && Tm(k, a).expireAt <= k.now && Refresh(k) == Ok(k1) && First(k, e)
    ensures k1.now == k.now && IsActive(k1, a) && StartsOver(k, e, k1)
    ensures a != e ==> (First(k1, a) <==> !Crowded(k, a))
  {
    RefreshFires(k, e);
    RestartedLater(k, e);
    if a != e { NextFirst(k, a, e, k1); }
  }

  lemma NextFirst(k: Kernel, a: Addr, e: Addr, k1: Kernel)
    requires First(k, e) && IsActive(k, a) && a != e && Tm(k, a).expireAt <= k.now && StartsOver(k, e, k1)
    requires Restarted(k, e) > k.now && k1.timers.Keys == k.timers.Keys
    ensures First(k1, a) <==> !Crowded(k, a)
  {
    assert Before(k, e, a);
    forall b ensures b != e ==> (Before(k1, b, a) <==> Before(k, b, a)) { }
    if !First(k1, a) {
      var b :| IsActive(k1, b) && b != a && !Less(Tm(k1, a).expireAt, a, Tm(k1, b).expireAt, b);
      assert Before(k1, b, a) && b != e;
    }
  }

  // Nobody has two timers, so a job starts over exactly with its own.
  lemma RefreshOnce(k: Kernel, a: Addr, k1: Kernel)
    requires Timers(k) && IsActive(k, a) && Refresh(k) == Ok(k1)
    ensures AfterOnce(k, a, k1) && IsActive(k1, a)
  {
    assert TimerOk(k, a);
    RefreshTimer(k, a, k1);
    if forall b :: IsActive(k, b) ==> Tm(k, b).expireAt > k.now {
      RefreshQuiet(k);
    } else {
      NoneActive(k);
      var e := EarliestActive(k.timers).v;
      FirstOnly(k, e);
      RefreshFires(k, e);
      assert TimerOk(k, e);
    }
  }

  // The second comes after the wait timer has been armed.
  lemma SecondRefresh(k: Kernel, a: Addr, k1: Kernel)
    requires Timers(k) && IsActive(k, a) && ProgramWait(k) == Ok(k1)
    ensures AfterOnce(k, a, k1)
  {
    var k0 := Arm(k, k.waitTimer, LeastWake(k), false);
    ArmedTimers(k);
    RefreshOnce(k0, a, k1);
    ArmedSame(k, a);
  }

  lemma ArmedTimers(k: Kernel)
    requires Timers(k)
    ensures Timers(Arm(k, k.waitTimer, LeastWake(k), false))
  {
    var k0 := Arm(k, k.waitTimer, LeastWake(k), false);
    forall b | b in k0.timers ensures TimerOk(k0, b) { assert TimerOk(k, b); }
  }

  // The same active timers at the same time, with the same overrun jobs.
  ghost predicate SameJobs(k1: Kernel, k2: Kernel) {
    && k2.now == k1.now
    && forall b :: (IsActive(k2, b) <==> IsActive(k1, b)) &&
         (IsActive(k1, b) ==> Tm(k2, b) == Tm(k1, b) && Ran(k2, b) == Ran(k1, b))
  }

  lemma SameJobsFire(k1: Kernel, k2: Kernel, b: Addr)
    requires SameJobs(k1, k2) && IsActive(k1, b)
    ensures FiresNow(k2, b) <==> FiresNow(k1, b)
    ensures Crowded(k2, b) <==> Crowded(k1, b)
    ensures Once(k2, b) == Once(k1, b) && Twice(k2, b) == Twice(k1, b)
    ensures Overrun(k2, b) <==> Overrun(k1, b)
  {
    assert forall x :: Before(k2, x, b) <==> Before(k1, x, b);
  }

  lemma SameJobsMiss(k1: Kernel, k2: Kernel)
    requires SameJobs(k1, k2)
    ensures OnceMisses(k2) <==> OnceMisses(k1)
    ensures TwiceMisses(k2) <==> TwiceMisses(k1)
  {
    forall b | IsActive(k1, b) ensures FiresNow(k2, b) <==> FiresNow(k1, b) ensures Crowded(k2, b) <==> Crowded(k1, b) {
      SameJobsFire(k1, k2, b);
    }
  }

  lemma BothRefreshes(k: Kernel, a: Addr, k1: Kernel, k2: Kernel, k': Kernel)
    requires Timers(k) && IsActive(k, a) && Refresh(k) == Ok(k1) && Timers(k2) && ProgramWait(k2) == Ok(k')
    requires SameJobs(k1, k2)
    ensures AfterTwice(k, a, k')
  {
    RefreshOnce(k, a, k1);
    ClockStays(k, k1);
    SameJobsFire(k1, k2, a);
    SecondRefresh(k2, a, k');
    if Tm(k, a).expireAt <= k.now { ExpiredRefreshes(k, a, k1); }
  }

  lemma ClockStays(k: Kernel, k1: Kernel)
    requires Refresh(k) == Ok(k1)
    ensures k1.now == k.now
  {
  }

  lemma ExpiredRefreshes(k: Kernel, a: Addr, k1: Kernel)
    requires Timers(k) && IsActive(k, a) && Tm(k, a).expireAt <= k.now && Refresh(k) == Ok(k1)
    ensures IsActive(k1, a) && Once(k1, a) == Twice(k, a)
    ensures !Crowded(k, a) <==> First(k, a) || FiresNow(k1, a)
  {
    NoneActive(k);
    var e := EarliestActive(k.timers).v;
    FirstOnly(k, e);
    FirstRefresh(k, a, e, k1);
    if a == e {
      RestartedLater(k, a);
      assert !Crowded(k, a);
    }
  }

  lemma ProgramWaitMisses(k: Kernel)
    requires Timers(k)
    ensures ProgramWait(k).Missed? <==> OnceMisses(k)
  {
    var k0 := Arm(k, k.waitTimer, LeastWake(k), false);
    RefreshMisses(k0);
    forall b ensures (FiresNow(k0, b) && Overrun(k0, b)) <==> (FiresNow(k, b) && Overrun(k, b)) { ArmedSame(k, b); }
  }

  lemma ArmedSame(k: Kernel, b: Addr)
    requires Timers(k)
    ensures var k0 := Arm(k, k.waitTimer, LeastWake(k), false);
      (FiresNow(k0, b) <==> FiresNow(k, b)) && (IsActive(k, b) ==> Tm(k0, b) == Tm(k, b))
  {
    var k0 := Arm(k, k.waitTimer, LeastWake(k), false);
    assert TimerOk(k, k.waitTimer);
    forall x ensures (IsActive(k0, x) <==> IsActive(k, x)) && (IsActive(k, x) ==> Tm(k0, x) == Tm(k, x)) {
      if x in k.timers { assert TimerOk(k, x); }
    }
  }

  // After the first refresh has fired `e`, the second fires the next one.
  lemma SecondMisses(k: Kernel, e: Addr, k1: Kernel, b: Addr)
    requires Timers(k) && First(k, e) && Tm(k, e).expireAt <= k.now && Refresh(k) == Ok(k1)
    ensures (FiresNow(k1, b) && Overrun(k1, b)) <==>
      (IsActive(k, b) && Tm(k, b).expireAt <= k.now && !Crowded(k, b) && Overrun(k, b))
  {
    RefreshFires(k, e);
    RestartedLater(k, e);
    assert TimerOk(k, e);
    if IsActive(k, b) {
      assert TimerOk(k, b);
      if b != e && Tm(k, b).expireAt <= k.now { NextFirst(k, b, e, k1); }
    }
  }

  // Two refreshes, the second with the wait timer armed, are a miss exactly if one of the first two active timers has
  // expired on an overrun job.
  lemma BothMiss(k: Kernel, k2: Kernel)
    requires Timers(k) && (Refresh(k).Ok? ==> SameJobs(Refresh(k).k, k2) && Timers(k2))
    ensures (Refresh(k).Missed? || ProgramWait(k2).Missed?) <==> TwiceMisses(k)
  {
    RefreshMisses(k);
    NoneActive(k);
    var e := EarliestActive(k.timers);
    if e.Some? { FirstOnly(k, e.v); }
    if e.None? || Tm(k, e.v).expireAt > k.now {
      NothingFires(k, k2);
    } else if Refresh(k).Missed? {
      FirstMisses(k, e.v);
    } else {
      var k1 := Refresh(k).k;
      ProgramWaitMisses(k2);
      forall b ensures (FiresNow(k2, b) && Overrun(k2, b)) <==>
        (IsActive(k, b) && Tm(k, b).expireAt <= k.now && !Crowded(k, b) && Overrun(k, b)) {
        if IsActive(k1, b) { SameJobsFire(k1, k2, b); }
        SecondMisses(k, e.v, k1, b);
      }
    }
  }

  lemma FirstMisses(k: Kernel, e: Addr)
    requires First(k, e) && Tm(k, e).expireAt <= k.now && Refresh(k).Missed?
    ensures TwiceMisses(k)
  {
    RefreshFires(k, e);
    assert !Crowded(k, e);
  }

  lemma NothingFires(k: Kernel, k2: Kernel)
    requires Timers(k) && forall b :: IsActive(k, b) ==> Tm(k, b).expireAt > k.now
    requires Refresh(k).Ok? ==> SameJobs(Refresh(k).k, k2) && Timers(k2)
    ensures Refresh(k).Ok? && ProgramWait(k2).Ok? && !TwiceMisses(k)
  {
    RefreshQuiet(k);
    ProgramWaitMisses(k2);
    assert forall b :: IsActive(k2, b) <==> IsActive(k, b);
  }

  // ---------- Waking ----------

  // A woken RT thread counts again, under the deadline that its timer has.
  ghost function Woken(k: Kernel, t: Addr): Kernel {
    SetTm(k, Th(k, t).timer, Tm(k, Th(k, t).timer).(active := true, queued := true))
  }

  lemma WokenCore(k: Kernel, t: Addr, k2: Kernel)
    requires Inv(k) && t in k.threads && IsBlocked(Th(k, t).state) && t != k.current && Th(k, t).kind.Rt?
    requires k2 == Arm(SetState(RemoveWait(k, t), t, Ready), Th(k, t).timer, Tm(k, Th(k, t).timer).expireAt, true)
    ensures Core(k2) && SameJobs(Woken(k, t), k2)
  {
    assert ThreadOk(k, t, None) && TimerOk(k, Th(k, t).timer);
    RemoveWaitUnlinks(k, t);
    WakeRtCore(k, RemoveWait(k, t), t, Th(k, t).runtime, Tm(k, Th(k, t).timer).expireAt);
    assert SetState(RemoveWait(k, t), t, Ready) ==
      SetTh(RemoveWait(k, t), t, Th(k, t).(state := Ready, runtime := Th(k, t).runtime));
  }

  // Waking an RT thread refreshes twice: a timer starts over, or is a miss, exactly if it has expired and at most one
  // active timer comes before it. Its own timer counts like any other.
  lemma RtWakeRefreshes(k: Kernel, t: Addr, b: Addr)
    requires Inv(k) && t in k.threads && IsBlocked(Th(k, t).state) && t != k.current && Th(k, t).kind.Rt?
    ensures Wake(k, t).Missed? <==> TwiceMisses(Woken(k, t))
    ensures Wake(k, t).Ok? && IsActive(Woken(k, t), b) ==> AfterTwice(Woken(k, t), b, Wake(k, t).k)
  {
    var k2 := Arm(SetState(RemoveWait(k, t), t, Ready), Th(k, t).timer, Tm(k, Th(k, t).timer).expireAt, true);
    WokenCore(k, t, k2);
    SameJobsMiss(Woken(k, t), k2);
    if Refresh(k2).Ok? { RefreshCore(k2, None); }
    var k3 := if Refresh(k2).Ok? then Refresh(k2).k else k2;
    BothMiss(k2, k3);
    if Wake(k, t).Ok? && IsActive(Woken(k, t), b) {
      SameJobsFire(Woken(k, t), k2, b);
      BothRefreshes(k2, b, k3, k3, Wake(k, t).k);
    }
  }

  // Waking a CFS thread refreshes once.
  lemma CfsWakeRefreshes(k: Kernel, t: Addr, b: Addr)
    requires Inv(k) && t in k.threads && IsBlocked(Th(k, t).state) && t != k.current && Th(k, t).kind.Cfs?
    ensures Wake(k, t).Missed? <==> OnceMisses(k)
    ensures Wake(k, t).Ok? && IsActive(k, b) ==> AfterOnce(k, b, Wake(k, t).k)
  {
    RemoveWaitUnlinks(k, t);
    WakeCfsCore(k, RemoveWait(k, t), t);
    var k2 := EnqueueRun(RemoveWait(k, t), t);
    assert SameJobs(k, k2);
    SameJobsMiss(k, k2);
    ProgramWaitMisses(k2);
    if Wake(k, t).Ok? && IsActive(k, b) {
      SameJobsFire(k, k2, b);
      SecondRefresh(k2, b, Wake(k, t).k);
    }
  }

  // ---------- Sleeping and blocking ----------

  // The clock has advanced and the caller's own timer no longer counts.
  ghost function Gone(k: Kernel, elapsed: nat): Kernel {
    var a := OwnTimer(k, k.current);
    SetTm(k, a, Tm(k, a).(active := false)).(now := k.now + elapsed)
  }

  // The caller on its way out, charged and with its wake time set.
  ghost function Leaving(k: Kernel, elapsed: nat, w: nat): Kernel {
    var k1 := YieldTimer(k, OwnTimer(k, k.current), elapsed, false);
    SetTh(k1, k.current, Th(k1, k.current).(wakeAt := w))
  }

  lemma LeavingJobs(k: Kernel, elapsed: nat, w: nat)
    requires Core(k) && !Th(k, k.current).kind.Idle?
    ensures k.now + elapsed < NEVER ==>
      SameJobs(Gone(k, elapsed), Leaving(k, elapsed, w)) && Leaving(k, elapsed, w).next == k.next
  {
    var a := OwnTimer(k, k.current);
    assert ThreadOk(k, k.current, None) && TimerOk(k, a);
    forall b | b in k.timers && b != a ensures Ran(Leaving(k, elapsed, w), b) == Ran(Gone(k, elapsed), b) {
      assert TimerOk(k, b);
    }
  }

  lemma LeavingSame(k: Kernel, elapsed: nat, w: nat, k1: Kernel)
    requires Settled(k) && k.now + elapsed < NEVER && !Th(k, k.current).kind.Idle?
    requires k1 == Leaving(k, elapsed, w)
    ensures Core(k1) && SameJobs(Gone(k, elapsed), k1) && k1.next == k.next && k1.current == k.current
    ensures OwnTimer(k1, k.current) == OwnTimer(k, k.current) && Th(k1, k.current).kind == Th(k, k.current).kind
    ensures Th(k1, k.current).state.Running? && Th(k1, k.current).wakeAt == w
  {
    LeavingJobs(k, elapsed, w);
    YieldTimerCore(k, elapsed, false);
    LeavingCore(k, elapsed, w, k1);
  }

  lemma CfsWaitRefreshes(k: Kernel, elapsed: nat, w: nat, b: Addr)
    requires Settled(k) && k.now + elapsed < NEVER && Th(k, k.current).kind.Cfs? && w <= NEVER
    ensures WaitUntil(k, elapsed, w).Missed? <==> OnceMisses(Gone(k, elapsed))
    ensures WaitUntil(k, elapsed, w).Ok? && IsActive(Gone(k, elapsed), b) ==>
      AfterOnce(Gone(k, elapsed), b, WaitUntil(k, elapsed, w).k)
  {
    var g, k1 := Gone(k, elapsed), Leaving(k, elapsed, w);
    LeavingSame(k, elapsed, w, k1);
    ParkCfsCore(k1);
    var k2 := InsertWait(k1, k.current).(prioritySum := SatSub(k1.prioritySum, Th(k1, k.current).priority));
    assert SameJobs(g, k2);
    SameJobsMiss(g, k2);
    ProgramWaitMisses(k2);
    assert WaitUntil(k, elapsed, w) == ProgramWait(k2);
    if WaitUntil(k, elapsed, w).Ok? && IsActive(g, b) {
      SameJobsFire(g, k2, b);
      SecondRefresh(k2, b, WaitUntil(k, elapsed, w).k);
    }
  }

  lemma InsertSame(k: Kernel, t: Addr)
    ensures SameJobs(k, InsertWait(k, t))
  {
  }

  lemma DetachedSame(k: Kernel, a: Addr)
    requires !Tm(k, a).active && a in k.timers
    ensures SameJobs(k, SetTm(k, a, Tm(k, a).(active := false, queued := false)))
  {
  }

  // Blocking detaches the RT timer; the queue without it is refreshed at once only if it was the cached one.
  lemma RtParkIs(k1: Kernel, k2: Kernel, k3: Kernel)
    requires Core(k1) && Th(k1, k1.current).kind.Rt? && Th(k1, k1.current).state.Running?
    requires Th(k1, k1.current).wakeAt <= NEVER && !Tm(k1, Th(k1, k1.current).timer).active
    requires k2 == SetTm(k1, Th(k1, k1.current).timer,
      Tm(k1, Th(k1, k1.current).timer).(active := false, queued := false))
    requires k3 == if k1.next == Some(Th(k1, k1.current).timer) && Refresh(k2).Ok? then Refresh(k2).k else k2
    ensures Timers(k2) && SameJobs(k1, k2) && Timers(k3) && Timers(InsertWait(k3, k1.current))
    ensures Park(k1) == if k1.next == Some(Th(k1, k1.current).timer) && Refresh(k2).Missed? then Refresh(k2)
      else ProgramWait(InsertWait(k3, k1.current))
  {
    var c := k1.current;
    assert ThreadOk(k1, c, None);
    DequeueCore(k1);
    DetachedSame(k1, Th(k1, c).timer);
    if k1.next == Some(Th(k1, c).timer) && Refresh(k2).Ok? { RefreshCore(k2, Some(c)); }
    ParkRtCore(k3);
  }

  lemma RtWaitRefreshes(k: Kernel, elapsed: nat, w: nat, b: Addr)
    requires Settled(k) && k.now + elapsed < NEVER && Th(k, k.current).kind.Rt? && w <= NEVER
    ensures WaitUntil(k, elapsed, w).Missed? <==>
      if First(k, Th(k, k.current).timer) then TwiceMisses(Gone(k, elapsed)) else OnceMisses(Gone(k, elapsed))
    ensures WaitUntil(k, elapsed, w).Ok? && IsActive(Gone(k, elapsed), b) ==>
      if First(k, Th(k, k.current).timer) then AfterTwice(Gone(k, elapsed), b, WaitUntil(k, elapsed, w).k)
      else AfterOnce(Gone(k, elapsed), b, WaitUntil(k, elapsed, w).k)
  {
    var g, k1, c := Gone(k, elapsed), Leaving(k, elapsed, w), k.current;
    var a := Th(k, c).timer;
    LeavingSame(k, elapsed, w, k1);
    FirstIs(k, a);
    var k2 := SetTm(k1, a, Tm(k1, a).(active := false, queued := false));
    var k3 := if k1.next == Some(a) && Refresh(k2).Ok? then Refresh(k2).k else k2;
    RtParkIs(k1, k2, k3);
    InsertSame(k3, c);
    SameJobsTrans(g, k1, k2);
    RtParkRefreshes(g, k2, k3, InsertWait(k3, c), First(k, a), b);
  }

  lemma SameJobsTrans(k1: Kernel, k2: Kernel, k3: Kernel)
    requires SameJobs(k1, k2) && SameJobs(k2, k3)
    ensures SameJobs(k1, k3)
  {
  }

  lemma RtParkRefreshes(g: Kernel, k2: Kernel, k3: Kernel, k4: Kernel, first: bool, b: Addr)
    requires SameJobs(g, k2) && Timers(k2) && SameJobs(k3, k4) && Timers(k4)
    requires k3 == if first && Refresh(k2).Ok? then Refresh(k2).k else k2
    ensures ((first && Refresh(k2).Missed?) || ProgramWait(k4).Missed?) <==>
      if first then TwiceMisses(g) else OnceMisses(g)
    ensures !(first && Refresh(k2).Missed?) && ProgramWait(k4).Ok? && IsActive(g, b) ==>
      if first then AfterTwice(g, b, ProgramWait(k4).k) else AfterOnce(g, b, ProgramWait(k4).k)
  {
    SameJobsMiss(g, k2);
    if IsActive(g, b) { SameJobsFire(g, k2, b); }
    if first {
      BothMiss(k2, k4);
      if Refresh(k2).Ok? && ProgramWait(k4).Ok? && IsActive(g, b) { BothRefreshes(k2, b, k3, k4, ProgramWait(k4).k); }
    } else {
      SameJobsMiss(k3, k4);
      ProgramWaitMisses(k4);
      if ProgramWait(k4).Ok? && IsActive(g, b) {
        SameJobsFire(k3, k4, b);
        SecondRefresh(k4, b, ProgramWait(k4).k);
      }
    }
  }
}
