/** What `schedule` (src/sched.rs) establishes: one running thread, chosen by deadline or by vruntime. */
module Scheduling {
  import opened Kernel
  import opened SetSum
  import opened Location

  // Nobody changed kind, priority, wake time or blockedness.
  ghost predicate SameAccounts(k: Kernel, k': Kernel) {
    && k'.threads.Keys == k.threads.Keys && k'.waits == k.waits && k'.prioritySum == k.prioritySum
    && forall u :: u in k.threads ==>
      && Th(k', u).kind == Th(k, u).kind && Th(k', u).priority == Th(k, u).priority
      && Th(k', u).wakeAt == Th(k, u).wakeAt
      && IsBlocked(Th(k', u).state) == IsBlocked(Th(k, u).state)
  }

  lemma SameAccountsKeep(k: Kernel, k': Kernel)
    requires SameAccounts(k, k') && SumKept(k) && k.waits <= k.threads.Keys
    ensures SumKept(k') && LeastWake(k') == LeastWake(k)
  {
    assert Runnable(k') == Runnable(k) && CfsThreads(k') == CfsThreads(k) && WakeKeys(k') == WakeKeys(k);
    SumSame(Runnable(k), k.threads, k'.threads);
    SumSame(CfsThreads(k), k.threads, k'.threads);
    if k.waits != {} { assert Least(k.waits, WakeKeys(k)) in k.threads; }
  }

  lemma ChargeInv(k: Kernel, elapsed: nat)
    requires Core(k)
    ensures Core(Charge(k, elapsed)) && (Inv(k) ==> Inv(Charge(k, elapsed)))
  {
    var k' := Charge(k, elapsed);
    SameAccountsKeep(k, k');
    forall t | t in k'.threads ensures ThreadOk(k', t, None) { assert ThreadOk(k, t, None); }
    forall b | b in k'.timers ensures TimerOk(k', b) { assert TimerOk(k, b); }
  }

  // The chosen thread is never a blocked one.
  lemma PickRunnable(k: Kernel)
    requires Inv(k)
    ensures Pick(k) in k.threads && !IsBlocked(Th(k, Pick(k)).state)
  {
    assert ThreadOk(k, k.idle, None) && ThreadOk(k, k.current, None);
    if k.next.Some? {
      assert TimerOk(k, k.next.v);
      if Tm(k, k.next.v).owner.RtTimer? { assert ThreadOk(k, Tm(k, k.next.v).owner.thread, None); }
    }
    if k.runq != {} { assert ThreadOk(k, Leftmost(k), None); }
  }

  lemma SwitchToChosen(k: Kernel, t: Addr)
    requires ThreadOk(k, t, None) && k.current in k.threads && t in k.threads && t != k.current
    requires !IsBlocked(Th(k, t).state)
    ensures ThreadOk(SwitchTo(k, t), t, None)
  {
  }

  lemma SwitchToOutgoing(k: Kernel, t: Addr)
    requires ThreadOk(k, k.current, None) && k.current in k.threads && t in k.threads && t != k.current
    requires !Th(k, k.current).state.Ready? && (k.currentIsCfs <==> Th(k, k.current).kind.Cfs?)
    ensures ThreadOk(SwitchTo(k, t), k.current, None)
  {
  }

  lemma SwitchToPlace(k: Kernel, t: Addr, u: Addr)
    requires ThreadOk(k, t, None) && ThreadOk(k, k.current, None) && ThreadOk(k, u, None)
    requires k.current in k.threads && t in k.threads && u in k.threads && t != k.current && !IsBlocked(Th(k, t).state)
    requires !Th(k, k.current).state.Ready? && (k.currentIsCfs <==> Th(k, k.current).kind.Cfs?)
    ensures ThreadOk(SwitchTo(k, t), u, None)
  {
    if u == t { SwitchToChosen(k, t); } else if u == k.current { SwitchToOutgoing(k, t); }
  }

  lemma SwitchToAccounts(k: Kernel, t: Addr)
    requires k.current in k.threads && t in k.threads && !IsBlocked(Th(k, t).state)
    ensures SameAccounts(k, SwitchTo(k, t))
  {
  }

  lemma SwitchToCore(k: Kernel, t: Addr)
    requires Inv(k) && t in k.threads && t != k.current && !IsBlocked(Th(k, t).state)
    ensures Settled(SwitchTo(k, t)) && Legal(k, SwitchTo(k, t))
  {
    var k' := SwitchTo(k, t);
    assert ThreadOk(k, t, None) && ThreadOk(k, k.current, None);
    SwitchToAccounts(k, t);
    SameAccountsKeep(k, k');
    forall u | u in k'.threads ensures ThreadOk(k', u, None) {
      assert ThreadOk(k, u, None);
      SwitchToPlace(k, t, u);
    }
    forall b | b in k'.timers ensures TimerOk(k', b) { assert TimerOk(k, b); }
  }

  // After `schedule` exactly one thread runs, the current one, and no blocked thread was started.
  lemma ScheduleInv(k: Kernel, elapsed: nat)
    requires Inv(k)
    ensures var k' := Schedule(k, elapsed);
      && Settled(k') && Legal(k, k') && k'.current == Pick(Charge(k, elapsed))
      && (forall t :: t in k'.threads ==> (Th(k', t).state.Running? <==> t == k'.current))
  {
    ChargeInv(k, elapsed);
    var k1 := Charge(k, elapsed);
    PickRunnable(k1);
    var k' := Schedule(k, elapsed);
    if Pick(k1) != k1.current {
      SwitchToCore(k1, Pick(k1));
    }
    forall t | t in k'.threads ensures Th(k', t).state.Running? <==> t == k'.current { assert ThreadOk(k', t, None); }
  }

  // Apart from the charge, `schedule` changes nothing but who runs: the outgoing thread becomes ready unless it is
  // blocked, the chosen one runs, and the run tree takes the one and loses the other.
  lemma ScheduleExact(k: Kernel, elapsed: nat, u: Addr, k': Kernel)
    requires Inv(k) && k' == Schedule(k, elapsed)
    ensures k' == k.(threads := k'.threads, runq := k'.runq, current := k'.current, currentIsCfs := k'.currentIsCfs)
    ensures Th(k', u) == Th(k, u).(vruntime := Th(k', u).vruntime,
      state := if u == k'.current then Running
               else if u == k.current && !IsBlocked(Th(k, u).state) then Ready else Th(k, u).state)
    ensures u in k'.runq <==>
      (u != k'.current && (u in k.runq || (u == k.current && Th(k, u).kind.Cfs? && !IsBlocked(Th(k, u).state))))
  {
    assert ThreadOk(k, k.current, None) && ThreadOk(k, k.idle, None);
    ChargeInv(k, elapsed);
    var k1 := Charge(k, elapsed);
    PickRunnable(k1);
    if Pick(k1) != k1.current { SwitchExact(k1, Pick(k1), u); }
  }

  lemma SwitchExact(k: Kernel, t: Addr, u: Addr)
    requires Inv(k) && t in k.threads && t != k.current
    ensures var k' := SwitchTo(k, t);
      && k' == k.(threads := k'.threads, runq := k'.runq, current := t, currentIsCfs := k'.currentIsCfs)
      && Th(k', u) == Th(k, u).(
           state := if u == t then Running
                    else if u == k.current && !IsBlocked(Th(k, u).state) then Ready else Th(k, u).state)
      && (u in k'.runq <==>
           (u != t && (u in k.runq || (u == k.current && Th(k, u).kind.Cfs? && !IsBlocked(Th(k, u).state)))))
  {
    assert ThreadOk(k, k.current, None) && ThreadOk(k, k.idle, None);
  }
}
