/** The scheduler as the program runs it, statement by statement: src/sched.rs with the parts of src/ktimer.rs,
    src/runq.rs, src/waitq.rs, src/thread.rs and src/sync.rs that it calls. Every method is proved to do to the state
    what the function of module Kernel says, and the debug assertions of the source hold on the way. */
module Schedulers {
  import opened Kernel
  import Spec = Kernel
  import opened Location
  import opened Scheduling
  import opened ExpiryDispatch
  import opened Runs

  ghost function Fresh(idle: Addr, cfs: Addr, wait: Addr, period: nat, exec: nat): Kernel {
    Kernel(map[idle := Thread(Idle, Running, 0, 0, 0, 0, 0)],
           map[cfs := Timer(CfsTimer, exec, true, true, period, exec),
               wait := Timer(WaitTimer, NEVER, false, true, 0, 0)],
           cfs, wait, {}, {}, [], 0, idle, false, idle, Some(cfs), 0)
  }

  // The state after initialisation meets the invariant that every later step keeps.
  lemma FreshSettled(idle: Addr, cfs: Addr, wait: Addr, period: nat, exec: nat)
    requires cfs != wait && period >= 1 && exec >= 1
    ensures Settled(Fresh(idle, cfs, wait, period, exec))
  {
    var k := Fresh(idle, cfs, wait, period, exec);
    assert Runnable(k) == {} && CfsThreads(k) == {};
    assert ActiveSet(k.timers) == {cfs};
  }

  // A deadline miss ends the run.
  ghost function OutcomeOf(missed: Opt<Addr>, k: Kernel): Outcome { if missed.Some? then Missed(missed.v) else Ok(k) }

  // The cached next timer is a queued one, as it is after every operation.
  ghost predicate Selectable(k: Kernel) { k.next.Some? ==> k.next.v in QueuedSet(k.timers) && k.next.v != k.waitTimer }

  // `k` while the timer `a` is off the queue.
  ghost function Detached(k: Kernel, a: Addr): Kernel { SetTm(k, a, Tm(k, a).(queued := false)) }

  lemma EnqueueDetached(k: Kernel, t: Addr, a: Addr)
    ensures EnqueueRun(Detached(k, a), t) == Detached(EnqueueRun(k, t), a)
  {
    assert RunKeys(Detached(k, a)) == RunKeys(k);
  }

  lemma ArmDetached(k: Kernel, a: Addr, b: Addr, e: nat)
    requires a in k.timers && a != b
    ensures Arm(Detached(k, a), b, e, true) == Detached(Arm(k, b, e, true), a)
  {
  }

  lemma RtSleeperIs(k: Kernel, elapsed: nat, t: Addr, ran: nat, k2: Kernel)
    requires !Th(k, t).kind.Cfs? && ran == Sat32(Th(k, t).runtime + elapsed)
    requires k2 == SetTh(k.(waits := k.waits - {t}), t, Th(k, t).(state := Ready, runtime := ran))
    ensures var b := Th(k, t).timer;
      WakeSleeper(k, elapsed, t) == Arm(k2, b, Sat64(k.now + SatSub(Tm(k, b).deadline, ran)), true)
  {
  }

  lemma RtSleeperDetached(k: Kernel, elapsed: nat, t: Addr, a: Addr)
    requires a in k.timers && Th(k, t).timer != a && !Th(k, t).kind.Cfs?
    ensures WakeSleeper(Detached(k, a), elapsed, t) == Detached(WakeSleeper(k, elapsed, t), a)
  {
    var ran, b := Sat32(Th(k, t).runtime + elapsed), Th(k, t).timer;
    var k2 := SetTh(k.(waits := k.waits - {t}), t, Th(k, t).(state := Ready, runtime := ran));
    RtSleeperIs(k, elapsed, t, ran, k2);
    RtSleeperIs(Detached(k, a), elapsed, t, ran, Detached(k2, a));
    ArmDetached(k2, a, b, Sat64(k.now + SatSub(Tm(k, b).deadline, ran)));
  }

  // Waking a sleeper and taking a timer that is not its own off the queue commute.
  lemma SleeperDetached(k: Kernel, elapsed: nat, t: Addr, a: Addr)
    requires a in k.timers && (Th(k, t).kind.Cfs? || Th(k, t).timer != a)
    ensures WakeSleeper(Detached(k, a), elapsed, t) == Detached(WakeSleeper(k, elapsed, t), a)
  {
    if Th(k, t).kind.Cfs? {
      EnqueueDetached(k.(waits := k.waits - {t}), t, a);
    } else {
      RtSleeperDetached(k, elapsed, t, a);
    }
  }

  // What makes the first sleeper ready to be woken.
  lemma FirstSleeper(k: Kernel, t: Addr)
    requires Core(k) && t in k.waits
    ensures t in k.threads && Th(k, t).state.Waiting? && t !in k.runq && !Th(k, t).kind.Idle?
    ensures Th(k, t).kind.Rt? ==>
      Th(k, t).timer in k.timers && !Tm(k, Th(k, t).timer).queued && Th(k, t).timer != k.waitTimer
  {
    assert ThreadOk(k, t, None) && TimerOk(k, k.waitTimer);
  }

  lemma WakeDueTurn(k: Kernel, elapsed: nat)
    requires Core(k) && CurrentStays(k) && k.waits != {} && LeastWake(k) <= k.now
    ensures var k' := WakeSleeper(k, elapsed, Least(k.waits, WakeKeys(k)));
      Core(k') && CurrentStays(k') && WakeDue(k, elapsed) == WakeDue(k', elapsed) && |k'.waits| < |k.waits|
  {
    var t := Least(k.waits, WakeKeys(k));
    assert Due(k, t);
    WakeSleeperCore(k, elapsed, t);
  }

  lemma DispatchTurn(k: Kernel, elapsed: nat, a: Addr)
    requires Dispatching(k) && Earliest(k.timers) == Some(a) && Tm(k, a).expireAt <= k.now
    ensures a in QueuedSet(k.timers)
    ensures DispatchOne(k, elapsed, a).Missed? ==> Dispatch(k, elapsed) == DispatchOne(k, elapsed, a)
    ensures DispatchOne(k, elapsed, a).Ok? ==> var k' := DispatchOne(k, elapsed, a).k;
      && Dispatching(k') && Dispatch(k, elapsed) == Dispatch(k', elapsed)
      && if a == k.waitTimer then Expired(k, a) && !Expired(k', a)
         else
           && (Expired(k', k.waitTimer) <==> Expired(k, k.waitTimer))
           && |ExpiredRt(k')| + CfsTurns(k') < |ExpiredRt(k)| + CfsTurns(k)
  {
    assert Expired(k, a);
    if DispatchOne(k, elapsed, a).Ok? { DispatchOneKeeps(k, elapsed, a); }
  }

  class Scheduler {
    var threads: map<Addr, Thread>
    var timers: map<Addr, Timer>
    const cfsTimer: Addr
    const waitTimer: Addr
    var runq: set<Addr>
    var waits: set<Addr>
    var suspended: seq<Addr>
    var prioritySum: nat
    var current: Addr
    var currentIsCfs: bool
    const idle: Addr
    var next: Opt<Addr>
    var now: nat

    ghost function State(): Kernel
      reads this
    {
      Kernel(threads, timers, cfsTimer, waitTimer, runq, waits, suspended, prioritySum,
             current, currentIsCfs, idle, next, now)
    }

    // `init_ktimer_queue`, `init_cfs` and `register_idle_thread`, with the idle thread on the CPU.
    constructor (idleThread: Addr, cfs: Addr, wait: Addr, period: nat, exec: nat)
      requires cfs != wait && period >= 1 && exec >= 1
      ensures State() == Fresh(idleThread, cfs, wait, period, exec) && Settled(State())
    {
      cfsTimer, waitTimer, idle, current, currentIsCfs := cfs, wait, idleThread, idleThread, false;
      threads := map[idleThread := Thread(Idle, Running, 0, 0, 0, 0, 0)];
      timers := map[cfs := Timer(CfsTimer, exec, true, true, period, exec),
                    wait := Timer(WaitTimer, NEVER, false, true, 0, 0)];
      runq, waits, suspended, prioritySum, next, now := {}, {}, [], 0, Some(cfs), 0;
      FreshSettled(idleThread, cfs, wait, period, exec);
    }

    method SetThreadState(t: Addr, s: State)
      requires t in threads && CanTransition(threads[t].state, s)
      modifies this`threads
      ensures threads == old(threads)[t := old(threads)[t].(state := s)]
    {
      threads := threads[t := threads[t].(state := s)];
    }

    // ---------- The timer queue ----------

    // `remove`: unlinked, with the flag kept.
    method RemoveTimer(a: Addr)
      requires a in timers
      modifies this`timers
      ensures timers == old(timers)[a := old(timers)[a].(queued := false)]
    {
      timers := timers[a := timers[a].(queued := false)];
    }

    // The key of a linked timer must not change.
    method SetExpireAfter(a: Addr, from: nat, ticks: nat)
      requires a in timers && !timers[a].queued
      modifies this`timers
      ensures timers == old(timers)[a := old(timers)[a].(expireAt := Sat64(from + ticks))]
    {
      timers := timers[a := timers[a].(expireAt := Sat64(from + ticks))];
    }

    method Enqueue(a: Addr, active: bool)
      requires a in timers && !timers[a].queued
      modifies this`timers
      ensures timers == old(timers)[a := old(timers)[a].(active := active, queued := true)]
    {
      timers := timers[a := timers[a].(active := active, queued := true)];
    }

    // An expired active timer starts over, unless its job overran its deadline.
    method StartOver(a: Addr) returns (missed: Opt<Addr>)
      requires Owned(State()) && a in timers
      modifies this`timers, this`threads
      ensures OutcomeOf(missed, State()) == Rearm(old(State()), a)
      ensures missed.None? ==> Owned(State()) && threads.Keys == old(threads.Keys)
      ensures missed.None? ==> timers == old(timers)[a := timers[a]] && a in timers
    {
      missed := None;
      RemoveTimer(a);
      if timers[a].owner.RtTimer? {
        var t := timers[a].owner.thread;
        if threads[t].runtime > timers[a].deadline { return Some(t); }
        threads := threads[t := threads[t].(runtime := 0)];
        SetExpireAfter(a, now, timers[a].deadline);
      } else {
        SetExpireAfter(a, now, timers[a].period);
      }
      Enqueue(a, true);
      assert timers == old(timers)
        [a := old(timers)[a].(expireAt := timers[a].expireAt, active := true, queued := true)];
    }

    // `refresh_next_ktimer`
    method RefreshNextKtimer() returns (missed: Opt<Addr>)
      requires Owned(State())
      modifies this`timers, this`threads, this`next
      ensures OutcomeOf(missed, State()) == Refresh(old(State()))
      ensures missed.None? ==> Owned(State()) && threads.Keys == old(threads.Keys)
      ensures missed.None? ==> forall a :: a in old(timers) && !old(timers)[a].active ==>
        a in timers && timers[a] == old(timers)[a]
    {
      missed := None;
      var e := EarliestActive(timers);
      if e.Some? && timers[e.v].expireAt <= now {
        missed := StartOver(e.v);
        if missed.Some? { return; }
        e := EarliestActive(timers);
      }
      next := e;
    }

    // The first entry of the timeout tree.
    function FirstWait(): Addr
      reads this
      requires waits != {} && waits <= threads.Keys
    { Least(waits, map t | t in waits :: threads[t].wakeAt) }

    // `program_wait_ktimer`: the wait timer is only touched when its deadline changes.
    method ProgramWaitKtimer() returns (missed: Opt<Addr>)
      requires Owned(State()) && waits <= threads.Keys && waitTimer in timers && timers[waitTimer].queued
      requires !timers[waitTimer].active
      modifies this`timers, this`threads, this`next
      ensures OutcomeOf(missed, State()) == ProgramWait(old(State()))
    {
      ghost var k := State();
      var expireAt := if waits == {} then NEVER else threads[FirstWait()].wakeAt;
      if timers[waitTimer].expireAt != expireAt {
        RemoveTimer(waitTimer);
        timers := timers[waitTimer := timers[waitTimer].(expireAt := expireAt)];
        Enqueue(waitTimer, false);
      }
      assert timers == Arm(k, waitTimer, LeastWake(k), false).timers;
      missed := RefreshNextKtimer();
    }

    // ---------- The scheduler ----------

    method SwitchToCfsThread(n: Addr)
      requires current in threads && n in threads && n != current && CanTransition(threads[n].state, Running)
      modifies this`threads, this`current, this`currentIsCfs
      ensures current == n && currentIsCfs
      ensures threads == (if IsBlocked(old(threads)[old(current)].state) then old(threads)
        else old(threads)[old(current) := old(threads)[old(current)].(state := Ready)])
        [n := old(threads)[n].(state := Running)]
    {
      if !IsBlocked(threads[current].state) { SetThreadState(current, Ready); }
      SetThreadState(n, Running);
      current, currentIsCfs := n, true;
    }

    method SwitchToIdleThread()
      requires current in threads && idle in threads && !IsBlocked(threads[idle].state)
      modifies this`threads, this`current, this`currentIsCfs
      ensures current == idle && currentIsCfs == old(threads)[idle].kind.Cfs?
      ensures threads == (if old(current) == idle || IsBlocked(old(threads)[old(current)].state) then old(threads)
        else old(threads)[old(current) := old(threads)[old(current)].(state := Ready)])
        [idle := old(threads)[idle].(state := Running)]
    {
      if current != idle && !IsBlocked(threads[current].state) { SetThreadState(current, Ready); }
      SetThreadState(idle, Running);
      current, currentIsCfs := idle, threads[idle].kind.Cfs?;
    }

    method RequeueCurrentBeforeIdle()
      requires current in threads && current !in runq
      modifies this`threads, this`runq
      ensures var moves := currentIsCfs && current != idle && !IsBlocked(old(threads)[current].state);
        && runq == (if moves then old(runq) + {current} else old(runq))
        && threads == if moves then old(threads)[current := old(threads)[current].(state := Ready)] else old(threads)
    {
      if !currentIsCfs || current == idle || IsBlocked(threads[current].state) { return; }
      SetThreadState(current, Ready);
      runq := runq + {current};
    }

    method SwitchToIdleRequeued()
      requires current in threads && current !in runq && idle in threads && !IsBlocked(threads[idle].state)
      requires idle !in runq
      requires current == idle ==> threads[idle].state.Running? && (currentIsCfs <==> threads[idle].kind.Cfs?)
      modifies this`threads, this`runq, this`current, this`currentIsCfs
      ensures State() == if old(current) == idle then old(State()) else SwitchTo(old(State()), idle)
    {
      RequeueCurrentBeforeIdle();
      SwitchToIdleThread();
    }

    // Charges the elapsed ticks to a running CFS thread.
    method ChargeCurrent(elapsed: nat)
      requires current in threads
      modifies this`threads
      ensures State() == Charge(old(State()), elapsed)
    {
      if currentIsCfs && threads[current].state.Running? && current != idle && prioritySum != 0 {
        var c := threads[current];
        threads := threads[current := c.(vruntime := c.vruntime + VruntimeDelta(elapsed, c.priority, prioritySum))];
      }
    }

    // A running CFS thread gives way to the popped `n` only if it has had more CPU time; otherwise `n` goes back.
    method ReplaceIfAhead(n: Addr)
      requires current in threads && n in threads && n != current && n !in runq && current !in runq
      requires !IsBlocked(threads[n].state) && !IsBlocked(threads[current].state) && threads[n].kind.Cfs?
      requires currentIsCfs && current != idle
      modifies this`threads, this`runq, this`current, this`currentIsCfs
      ensures var k := old(State()).(runq := old(runq) + {n});
        State() == if Th(k, old(current)).vruntime > Th(k, n).vruntime then SwitchTo(k, n) else k
    {
      if threads[current].vruntime > threads[n].vruntime {
        SetThreadState(current, Ready);
        runq := runq + {current};
        SetThreadState(n, Running);
        current, currentIsCfs := n, true;
      } else {
        runq := runq + {n};
      }
    }

    // The popped `n` takes the CPU from a thread that does not compete with it.
    method ReplaceOther(n: Addr)
      requires current in threads && n in threads && n != current && n !in runq
      requires !IsBlocked(threads[n].state) && threads[n].kind.Cfs?
      requires currentIsCfs ==> IsBlocked(threads[current].state) || current == idle
      modifies this`threads, this`current, this`currentIsCfs
      ensures State() == SwitchTo(old(State()).(runq := old(runq) + {n}), n)
    {
      if !currentIsCfs && !IsBlocked(threads[current].state) { SetThreadState(current, Ready); }
      SwitchToCfsThread(n);
    }

    // The CFS slice is active and a thread is queued.
    method PopCfs()
      requires Core(State()) && runq != {} && next.Some? && Tm(State(), next.v).owner.CfsTimer?
      requires Tm(State(), next.v).active
      modifies this`threads, this`runq, this`current, this`currentIsCfs
      ensures State() == if Pick(old(State())) == old(current) then old(State())
        else SwitchTo(old(State()), Pick(old(State())))
    {
      ghost var k := State();
      var n := Least(runq, map t | t in runq :: threads[t].vruntime);
      assert RunKeys(k) == map t | t in runq :: threads[t].vruntime;
      assert n == Leftmost(k);
      assert ThreadOk(k, n, None) && ThreadOk(k, current, None);
      runq := runq - {n};
      assert k == State().(runq := runq + {n});
      if currentIsCfs && !IsBlocked(threads[current].state) && current != idle {
        assert current != n;
        ReplaceIfAhead(n);
      } else {
        ReplaceOther(n);
      }
    }

    // The next timer belongs to an RT thread.
    method SwitchToRt(t: Addr)
      requires Core(State()) && t in threads && threads[t].kind.Rt? && !IsBlocked(threads[t].state)
      modifies this`threads, this`runq, this`current, this`currentIsCfs
      ensures State() == if t == old(current) then old(State()) else SwitchTo(old(State()), t)
    {
      ghost var k := State();
      assert ThreadOk(k, current, None) && ThreadOk(k, t, None);
      if !IsBlocked(threads[current].state) {
        SetThreadState(current, Ready);
        if currentIsCfs && current != idle { runq := runq + {current}; }
      }
      SetThreadState(t, Running);
      current, currentIsCfs := t, false;
    }

    // `schedule`
    method Schedule(elapsed: nat)
      requires Core(State()) && Selectable(State())
      modifies this`threads, this`runq, this`current, this`currentIsCfs
      ensures State() == Spec.Schedule(old(State()), elapsed)
      ensures Inv(old(State())) ==> Settled(State())
    {
      if Inv(State()) { ScheduleInv(State(), elapsed); }
      ChargeInv(State(), elapsed);
      ChargeCurrent(elapsed);
      ghost var k := State();
      assert ThreadOk(k, idle, None) && ThreadOk(k, current, None);
      if next.None? {
        SwitchToIdleRequeued();
      } else {
        assert TimerOk(k, next.v);
        if next.v == cfsTimer {
          if !timers[next.v].active {
            SwitchToIdleRequeued();
          } else if runq != {} {
            PopCfs();
          } else {
            SwitchToIdleRequeued();
          }
        } else {
          assert ThreadOk(k, timers[next.v].owner.thread, None);
          SwitchToRt(timers[next.v].owner.thread);
        }
      }
    }

    // ---------- Operations of the running thread ----------

    function CurrentTimer(): Addr
      reads this
      requires current in threads
    { if threads[current].kind.Rt? then threads[current].timer else cfsTimer }

    // The timer becomes inactive until `ticks` after the elapsed time.
    method ParkTimer(a: Addr, elapsed: nat, ticks: nat)
      requires a in timers
      modifies this`timers, this`now
      ensures now == Sat64(old(now) + elapsed)
      ensures timers == old(timers)
        [a := old(timers)[a].(expireAt := Sat64(now + ticks), active := false, queued := true)]
    {
      RemoveTimer(a);
      SetExpireAfter(a, Sat64(now + elapsed), ticks);
      now := Sat64(now + elapsed);
      Enqueue(a, false);
    }

    // `yield_ktimer`
    method YieldKtimer(a: Addr, elapsed: nat, reset: bool)
      requires a in timers && Owned(State())
      modifies this`timers, this`threads, this`now
      ensures State() == YieldTimer(old(State()), a, elapsed, reset)
    {
      if timers[a].owner.RtTimer? {
        var t := timers[a].owner.thread;
        var ran := Sat32(threads[t].runtime + elapsed);
        ParkTimer(a, elapsed, SatSub(timers[a].period, ran));
        threads := threads[t := threads[t].(runtime := if reset then 0 else ran)];
      } else {
        ParkTimer(a, elapsed, SatSub(timers[a].period, elapsed));
      }
    }

    // `yieldyi`
    method YieldCpu(elapsed: nat)
      requires Settled(State()) && now + elapsed < NEVER
      modifies this`timers, this`threads, this`now, this`next
      ensures State() == Yield(old(State()), elapsed) && Settled(State())
    {
      YieldInv(State(), elapsed);
      assert ThreadOk(State(), current, None);
      CoreOwned(State(), None);
      if threads[current].kind.Idle? { return; }
      YieldKtimer(CurrentTimer(), elapsed, true);
      next := EarliestActive(timers);
    }

    // `insert_wait_thread`
    method InsertWaitThread(t: Addr)
      requires t in threads && !IsBlocked(threads[t].state)
      modifies this`threads, this`suspended, this`waits
      ensures State() == InsertWait(old(State()), t)
    {
      if threads[t].wakeAt == NEVER {
        SetThreadState(t, Suspended);
        suspended := suspended + [t];
        return;
      }
      SetThreadState(t, Waiting);
      waits := waits + {t};
    }

    // `remove_wait_thread`
    method RemoveWaitThread(t: Addr)
      requires t in threads
      modifies this`suspended, this`waits
      ensures State() == RemoveWait(old(State()), t)
    {
      if threads[t].state.Suspended? {
        suspended := Without(suspended, t);
      } else {
        waits := waits - {t};
      }
    }

    // `remove_ktimer`
    method RemoveKtimer(a: Addr) returns (missed: Opt<Addr>)
      requires Owned(State()) && a in timers
      modifies this`timers, this`threads, this`next
      ensures var k1 := SetTm(old(State()), a, Tm(old(State()), a).(active := false, queued := false));
        OutcomeOf(missed, State()) == if old(next) == Some(a) then Refresh(k1) else Ok(k1)
      ensures missed.None? ==> Owned(State()) && threads.Keys == old(threads.Keys)
      ensures missed.None? ==> forall b :: b in old(timers) && b != a && !old(timers)[b].active ==>
        b in timers && timers[b] == old(timers)[b]
    {
      missed := None;
      timers := timers[a := timers[a].(active := false, queued := false)];
      if next == Some(a) { missed := RefreshNextKtimer(); }
    }

    // What the queues must offer a thread that parks.
    ghost predicate Parkable()
      reads this
    {
      && Owned(State()) && current in threads && !IsBlocked(threads[current].state) && !threads[current].kind.Idle?
      && waits <= threads.Keys && waitTimer in timers && timers[waitTimer].queued && !timers[waitTimer].active
      && (threads[current].kind.Rt? ==> threads[current].timer in timers && threads[current].timer != waitTimer)
    }

    // `dequeue_ktimerq_to_waitq`
    method ParkRt() returns (missed: Opt<Addr>)
      requires Parkable() && threads[current].kind.Rt?
      modifies this
      ensures OutcomeOf(missed, State()) == Park(old(State()))
    {
      missed := RemoveKtimer(threads[current].timer);
      if missed.Some? { return; }
      InsertWaitThread(current);
      missed := ProgramWaitKtimer();
    }

    // `dequeue_runq_to_waitq`: a ready thread is in the run tree, a running one is not.
    method ParkCurrent() returns (missed: Opt<Addr>)
      requires Parkable()
      modifies this
      ensures OutcomeOf(missed, State()) == Park(old(State()))
    {
      if threads[current].kind.Rt? {
        missed := ParkRt();
        return;
      }
      var priority := threads[current].priority;
      if threads[current].state.Ready? { runq := runq - {current}; }
      InsertWaitThread(current);
      prioritySum := SatSub(prioritySum, priority);
      missed := ProgramWaitKtimer();
    }

    lemma MayPark()
      requires Core(State()) && threads[current].state.Running? && !threads[current].kind.Idle?
      ensures Parkable()
    {
      assert ThreadOk(State(), current, None) && TimerOk(State(), waitTimer);
      CoreOwned(State(), None);
    }

    method LeaveCpu(elapsed: nat, wakeAt: nat) returns (missed: Opt<Addr>)
      requires Settled(State()) && now + elapsed < NEVER && !threads[current].kind.Idle? && wakeAt <= NEVER
      modifies this
      ensures OutcomeOf(missed, State()) == WaitUntil(old(State()), elapsed, wakeAt)
    {
      assert ThreadOk(State(), current, None);
      CoreOwned(State(), None);
      YieldTimerCore(State(), elapsed, false);
      YieldKtimer(CurrentTimer(), elapsed, false);
      WakeTimeCore(State(), wakeAt);
      threads := threads[current := threads[current].(wakeAt := wakeAt)];
      MayPark();
      missed := ParkCurrent();
    }

    // `msleepyi`
    method SleepFor(elapsed: nat, ticks: nat) returns (missed: Opt<Addr>)
      requires Settled(State()) && now + elapsed < NEVER
      modifies this
      ensures OutcomeOf(missed, State()) == Sleep(old(State()), elapsed, ticks)
    {
      if threads[current].kind.Idle? { return None; }
      missed := LeaveCpu(elapsed, WakeTime(now, elapsed, ticks));
    }

    // `block_current_thread`: returns the deadline the thread had, by which the object orders its waiters.
    method BlockCurrent(elapsed: nat) returns (missed: Opt<Addr>, deadline: Opt<nat>)
      requires Settled(State()) && now + elapsed < NEVER
      modifies this
      ensures OutcomeOf(missed, State()) == Block(old(State()), elapsed)
      ensures deadline == if old(threads[current]).kind.Idle? then None
        else Some(Tm(old(State()), OwnTimer(old(State()), old(current))).expireAt)
    {
      assert ThreadOk(State(), current, None);
      if threads[current].kind.Idle? { return None, None; }
      deadline := Some(timers[CurrentTimer()].expireAt);
      missed := LeaveCpu(elapsed, NEVER);
    }

    // ---------- Waking ----------

    // `enqueue_runq_from_waitq`
    method EnqueueRunqFromWaitq(t: Addr)
      requires t in threads && t !in runq && runq <= threads.Keys && CanTransition(threads[t].state, Ready)
      modifies this`threads, this`runq, this`prioritySum
      ensures State() == EnqueueRun(old(State()), t)
    {
      prioritySum := Sat32(prioritySum + threads[t].priority);
      SetThreadState(t, Ready);
      if runq != {} {
        assert RunKeys(old(State())) == map u | u in runq :: threads[u].vruntime;
        var leftmost := Least(runq, map u | u in runq :: threads[u].vruntime);
        threads := threads[t := threads[t].(vruntime := threads[leftmost].vruntime)];
      }
      runq := runq + {t};
    }

    // `reinsert_ktimer`
    method ReinsertKtimer(a: Addr) returns (missed: Opt<Addr>)
      requires Owned(State()) && a in timers && !timers[a].queued
      modifies this`timers, this`threads, this`next
      ensures OutcomeOf(missed, State()) == Refresh(Arm(old(State()), a, old(timers)[a].expireAt, true))
      ensures missed.None? ==> Owned(State()) && threads.Keys == old(threads.Keys)
      ensures missed.None? ==> forall b :: b in old(timers) && b != a && !old(timers)[b].active ==>
        b in timers && timers[b] == old(timers)[b]
    {
      Enqueue(a, true);
      missed := RefreshNextKtimer();
    }

    // `enqueue_ktimerq_from_waitq`
    method EnqueueKtimerqFromWaitq(t: Addr) returns (missed: Opt<Addr>)
      requires Core(State()) && t in threads && IsBlocked(threads[t].state) && threads[t].kind.Rt?
      modifies this
      ensures OutcomeOf(missed, State()) == Wake(old(State()), t)
    {
      assert ThreadOk(State(), t, None) && TimerOk(State(), waitTimer);
      CoreOwned(State(), None);
      RemoveWaitThread(t);
      SetThreadState(t, Ready);
      missed := ReinsertKtimer(threads[t].timer);
      if missed.Some? { return; }
      missed := ProgramWaitKtimer();
    }

    // `wake_waiter`
    method WakeWaiter(t: Addr) returns (missed: Opt<Addr>)
      requires Core(State()) && t in threads && IsBlocked(threads[t].state)
      modifies this
      ensures OutcomeOf(missed, State()) == Wake(old(State()), t)
    {
      assert ThreadOk(State(), t, None) && TimerOk(State(), waitTimer);
      CoreOwned(State(), None);
      if threads[t].kind.Cfs? {
        RemoveWaitThread(t);
        EnqueueRunqFromWaitq(t);
        missed := ProgramWaitKtimer();
      } else {
        missed := EnqueueKtimerqFromWaitq(t);
      }
    }

    // `set_thread_scheduler_expire_at`
    method SetSchedulerExpireAt(t: Addr, expireAt: nat) returns (missed: Opt<Addr>)
      requires Core(State()) && t in threads
      modifies this`timers, this`threads, this`next
      ensures OutcomeOf(missed, State()) == SetExpire(old(State()), t, expireAt)
    {
      ghost var k := State();
      missed := None;
      assert ThreadOk(k, t, None);
      CoreOwned(k, None);
      if threads[t].kind.Idle? { return; }
      var a := if threads[t].kind.Rt? then threads[t].timer else cfsTimer;
      assert TimerOk(k, a);
      var wasQueued, wasActive := timers[a].queued, timers[a].active;
      if wasQueued { RemoveTimer(a); }
      timers := timers[a := timers[a].(expireAt := expireAt)];
      if wasQueued { Enqueue(a, wasActive); }
      assert timers == k.timers[a := k.timers[a].(expireAt := expireAt)];
      if wasQueued {
        missed := RefreshNextKtimer();
      } else if next == Some(a) {
        missed := RefreshNextKtimer();
      }
    }

    // `thread_scheduler_expire_at`
    function ExpireAt(t: Addr): nat
      reads this
      requires t in threads && cfsTimer in timers && (threads[t].kind.Rt? ==> threads[t].timer in timers)
    {
      if threads[t].kind.Idle? then NEVER
      else timers[if threads[t].kind.Rt? then threads[t].timer else cfsTimer].expireAt
    }

    // `earliest_queued_scheduler_expire_at`: the wait timer does not count.
    function EarliestQueued(): nat
      reads this
    {
      var s := QueuedSet(timers) - {waitTimer};
      if s == {} then NEVER else timers[Least(s, Expiries(timers))].expireAt
    }

    // ---------- The tick ----------

    // One sleeper of `wake_wait_thread`.
    method ReadySleeper(t: Addr, elapsed: nat)
      requires t in threads && threads[t].state.Waiting? && t !in runq && runq <= threads.Keys
      requires threads[t].kind.Rt? ==> threads[t].timer in timers && !timers[threads[t].timer].queued
      requires !threads[t].kind.Idle?
      modifies this`threads, this`runq, this`prioritySum, this`timers, this`waits
      ensures State() == WakeSleeper(old(State()), elapsed, t)
    {
      waits := waits - {t};
      SetThreadState(t, Ready);
      if threads[t].kind.Cfs? {
        EnqueueRunqFromWaitq(t);
      } else {
        ReleaseRt(t, elapsed);
      }
    }

    // The woken RT thread resumes with what is left of its deadline.
    method ReleaseRt(t: Addr, elapsed: nat)
      requires t in threads && threads[t].timer in timers && !timers[threads[t].timer].queued
      modifies this`threads, this`timers
      ensures var ran, a := Sat32(old(threads)[t].runtime + elapsed), old(threads)[t].timer;
        && threads == old(threads)[t := old(threads)[t].(runtime := ran)]
        && timers == old(timers)[a := old(timers)[a].(
             expireAt := Sat64(now + SatSub(old(timers)[a].deadline, ran)), active := true, queued := true)]
    {
      var a := threads[t].timer;
      threads := threads[t := threads[t].(runtime := Sat32(threads[t].runtime + elapsed))];
      SetExpireAfter(a, now, SatSub(timers[a].deadline, threads[t].runtime));
      Enqueue(a, true);
    }

    // Pops the first sleeper, which is due, while the wait timer is off the queue; `k` is the state with it.
    method WakeFirst(elapsed: nat, ghost k: Kernel)
      requires State() == Detached(k, waitTimer) && Core(k) && CurrentStays(k) && waits != {} && LeastWake(k) <= now
      modifies this`threads, this`runq, this`prioritySum, this`timers, this`waits
      ensures State() == Detached(WakeSleeper(k, elapsed, Least(k.waits, WakeKeys(k))), waitTimer)
    {
      var t := FirstWait();
      assert WakeKeys(k) == map u | u in waits :: threads[u].wakeAt;
      FirstSleeper(k, t);
      SleeperDetached(k, elapsed, t, waitTimer);
      ReadySleeper(t, elapsed);
    }

    // `wake_wait_thread`: the sleepers that are due become ready, earliest first.
    method WakeWaitThread(elapsed: nat, ghost k0: Kernel)
      requires State() == Detached(k0, waitTimer) && Core(k0) && CurrentStays(k0)
      modifies this`threads, this`runq, this`prioritySum, this`timers, this`waits
      ensures State() == Detached(WakeDue(k0, elapsed), waitTimer)
    {
      ghost var k := k0;
      FirstWakes(k);
      while waits != {} && threads[FirstWait()].wakeAt <= now
        invariant State() == Detached(k, waitTimer) && Core(k) && CurrentStays(k)
        invariant waits != {} ==> threads[FirstWait()].wakeAt == LeastWake(k)
        invariant WakeDue(k, elapsed) == WakeDue(k0, elapsed)
        decreases |waits|
      {
        WakeDueTurn(k, elapsed);
        WakeFirst(elapsed, k);
        k := WakeSleeper(k, elapsed, Least(k.waits, WakeKeys(k)));
        FirstWakes(k);
      }
    }

    lemma FirstWakes(k: Kernel)
      requires State() == Detached(k, waitTimer) && k.waits <= k.threads.Keys
      ensures waits != {} ==> threads[FirstWait()].wakeAt == LeastWake(k)
    {
      assert WakeKeys(k) == map u | u in waits :: threads[u].wakeAt;
    }

    // `update_wait_ktimer_deadline`, then back into the queue; `k` is the state with the wait timer queued.
    method RequeueWait(ghost k: Kernel)
      requires State() == Detached(k, waitTimer) && k.waits <= k.threads.Keys
      modifies this`timers
      ensures State() == Arm(k, waitTimer, LeastWake(k), false)
    {
      FirstWakes(k);
      var expireAt := if waits == {} then NEVER else threads[FirstWait()].wakeAt;
      timers := timers[waitTimer := timers[waitTimer].(expireAt := expireAt)];
      Enqueue(waitTimer, false);
    }

    method HandleWait(elapsed: nat)
      requires Dispatching(State()) && waitTimer in timers && timers[waitTimer].owner.WaitTimer?
      modifies this`threads, this`runq, this`prioritySum, this`timers, this`waits
      ensures Ok(State()) == DispatchOne(old(State()), elapsed, waitTimer)
    {
      ghost var k := State();
      RemoveTimer(waitTimer);
      assert State() == Detached(k, waitTimer);
      WakeWaitThread(elapsed, k);
      WakeDueCore(k, elapsed);
      RequeueWait(WakeDue(k, elapsed));
    }

    // An active CFS timer ends its slice, an inactive one starts the next.
    method HandleCfs(elapsed: nat)
      requires cfsTimer in timers && timers[cfsTimer].owner.CfsTimer?
      modifies this`timers
      ensures Ok(State()) == DispatchOne(old(State()), elapsed, cfsTimer)
    {
      var a := cfsTimer;
      RemoveTimer(a);
      if timers[a].active {
        SetExpireAfter(a, now, SatSub(timers[a].period, elapsed));
        Enqueue(a, false);
      } else {
        SetExpireAfter(a, now, timers[a].period);
        Enqueue(a, true);
      }
      assert timers == old(timers)
        [a := old(timers)[a].(expireAt := timers[a].expireAt, active := !old(timers)[a].active, queued := true)];
    }

    // An active RT timer is a deadline reached, an inactive one a release.
    method HandleRt(a: Addr, elapsed: nat) returns (missed: Opt<Addr>)
      requires a in timers && timers[a].owner.RtTimer? && timers[a].owner.thread in threads
      modifies this`threads, this`timers
      ensures OutcomeOf(missed, State()) == DispatchOne(old(State()), elapsed, a)
    {
      missed := None;
      RemoveTimer(a);
      var t := timers[a].owner.thread;
      if timers[a].active && threads[t].runtime > timers[a].deadline { return Some(t); }
      threads := threads[t := threads[t].(runtime := 0)];
      SetExpireAfter(a, now, timers[a].deadline);
      Enqueue(a, true);
      assert timers == old(timers)
        [a := old(timers)[a].(expireAt := timers[a].expireAt, active := true, queued := true)];
    }

    // The earliest timer `a` has expired.
    method HandleExpired(a: Addr, elapsed: nat) returns (missed: Opt<Addr>)
      requires Dispatching(State()) && a in QueuedSet(timers)
      modifies this`threads, this`runq, this`prioritySum, this`timers, this`waits
      ensures OutcomeOf(missed, State()) == DispatchOne(old(State()), elapsed, a)
    {
      missed := None;
      assert TimerOk(State(), a);
      if a == waitTimer {
        HandleWait(elapsed);
      } else if a == cfsTimer {
        HandleCfs(elapsed);
      } else {
        missed := HandleRt(a, elapsed);
      }
    }

    // `dispatch_expired`: on normal return no timer is expired, and the result is the earliest active one.
    method DispatchExpired(elapsed: nat) returns (missed: Opt<Addr>, first: Opt<Addr>)
      requires Dispatching(State())
      modifies this`threads, this`runq, this`prioritySum, this`timers, this`waits
      ensures OutcomeOf(missed, State()) == Dispatch(old(State()), elapsed)
      ensures missed.None? ==> first == EarliestActive(timers) && forall a :: !Expired(State(), a)
    {
      missed := None;
      ghost var k0 := State();
      var expired := Earliest(timers);
      while expired.Some? && timers[expired.v].expireAt <= now
        invariant Dispatching(State()) && Dispatch(State(), elapsed) == Dispatch(k0, elapsed)
        invariant expired == Earliest(timers) && missed.None?
        decreases Expired(State(), waitTimer), |ExpiredRt(State())| + CfsTurns(State())
      {
        DispatchTurn(State(), elapsed, expired.v);
        missed := HandleExpired(expired.v, elapsed);
        if missed.Some? { return missed, None; }
        expired := Earliest(timers);
      }
      first := EarliestActive(timers);
      DispatchResult(State(), elapsed);
    }

    // `handle_sched_tick`
    method HandleSchedTick(elapsed: nat) returns (missed: Opt<Addr>)
      requires Inv(State()) && Enabled(State(), Tick(elapsed))
      modifies this
      ensures OutcomeOf(missed, State()) == TickStep(old(State()), elapsed)
    {
      ghost var k := State();
      AdvanceKeeps(k, elapsed);
      now := now + elapsed;
      assert State() == k.(now := k.now + elapsed);
      var first;
      missed, first := DispatchExpired(elapsed);
      TickIs(k, elapsed, OutcomeOf(missed, State()));
      if missed.Some? { return; }
      next := first;
    }

    // ---------- New threads ----------

    // `enqueue_thread`
    method EnqueueThread(t: Addr, priority: nat)
      requires t !in threads && t !in runq && runq <= threads.Keys
      modifies this`threads, this`runq, this`prioritySum
      ensures State() == SpawnCfs(old(State()), t, priority)
    {
      assert RunKeys(State()) == map u | u in runq :: threads[u].vruntime;
      var vruntime := if runq == {} then 0 else threads[Least(runq, map u | u in runq :: threads[u].vruntime)].vruntime;
      threads := threads[t := Thread(Cfs, Ready, priority, vruntime, 0, 0, 0)];
      runq := runq + {t};
      prioritySum := prioritySum + priority;
    }

    // A new RT thread: its timer is queued as active.
    method EnqueueRtThread(t: Addr, a: Addr, period: nat, deadline: nat) returns (missed: Opt<Addr>)
      requires Owned(State()) && t !in threads && a !in timers
      modifies this`threads, this`timers, this`next
      ensures OutcomeOf(missed, State()) == SpawnRt(old(State()), t, a, period, deadline)
    {
      threads := threads[t := Thread(Rt, Ready, 0, 0, 0, 0, a)];
      timers := timers[a := Timer(RtTimer(t), deadline, false, false, period, deadline)];
      Enqueue(a, true);
      assert timers == old(timers)[a := Timer(RtTimer(t), deadline, true, true, period, deadline)];
      missed := RefreshNextKtimer();
    }

    // ---------- Every step ----------

    method PerformClock(s: Step) returns (missed: Opt<Addr>)
      requires Inv(State()) && Enabled(State(), s) && (s.Tick? || s.Reschedule? || s.YieldCpu?)
      modifies this
      ensures OutcomeOf(missed, State()) == Apply(old(State()), s)
    {
      missed := None;
      match s
      case Tick(e) => missed := HandleSchedTick(e);
      case Reschedule(e) => Schedule(e);
      case YieldCpu(e) => YieldCpu(e);
    }

    method PerformThread(s: Step) returns (missed: Opt<Addr>)
      requires Inv(State()) && Enabled(State(), s) && (s.SleepFor? || s.BlockOn? || s.WakeUp?)
      modifies this
      ensures OutcomeOf(missed, State()) == Apply(old(State()), s)
    {
      match s
      case SleepFor(e, n) => missed := SleepFor(e, n);
      case BlockOn(e) => var d; missed, d := BlockCurrent(e);
      case WakeUp(t) => assert ThreadOk(State(), t, None); missed := WakeWaiter(t);
    }

    method PerformSetup(s: Step) returns (missed: Opt<Addr>)
      requires Inv(State()) && Enabled(State(), s) && (s.StartCfs? || s.StartRt? || s.Rekey?)
      modifies this
      ensures OutcomeOf(missed, State()) == Apply(old(State()), s)
    {
      missed := None;
      CoreOwned(State(), None);
      match s
      case StartCfs(t, p) => EnqueueThread(t, p);
      case StartRt(t, a, p, d) => missed := EnqueueRtThread(t, a, p, d);
      case Rekey(t, e) => missed := SetSchedulerExpireAt(t, e);
    }

    // The methods above implement every step of a run, so what is proved of runs holds of this object.
    method Perform(s: Step) returns (missed: Opt<Addr>)
      requires Inv(State()) && Enabled(State(), s)
      modifies this
      ensures OutcomeOf(missed, State()) == Apply(old(State()), s)
      ensures missed.None? ==> Inv(State()) && Legal(old(State()), State()) && (s.Reschedule? ==> Settled(State()))
    {
      ghost var k := State();
      if s.Tick? || s.Reschedule? || s.YieldCpu? {
        missed := PerformClock(s);
      } else if s.SleepFor? || s.BlockOn? || s.WakeUp? {
        missed := PerformThread(s);
      } else {
        missed := PerformSetup(s);
      }
      if missed.None? { StepInv(k, s); }
    }
  }
}
