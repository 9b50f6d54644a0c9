/** CFS fairness (src/sched.rs, src/runq.rs): how far the vruntimes of runnable CFS threads can drift apart. */
module Fairness {
  import opened KeyOrder
  import opened Kernel
  import opened SetSum
  import opened Location
  import opened Scheduling
  import opened ExpiryDispatch

  // Any two runnable CFS threads are within `bound`.
  ghost predicate Spread(k: Kernel, bound: nat) {
    forall a, b :: a in Runnable(k) && b in Runnable(k) ==> Th(k, a).vruntime <= Th(k, b).vruntime + bound
  }

  // A running CFS thread has had the least CPU time.
  ghost predicate LeastServed(k: Kernel) {
    k.current in Runnable(k) ==> forall b :: b in Runnable(k) ==> Th(k, k.current).vruntime <= Th(k, b).vruntime
  }

  ghost predicate Fair(k: Kernel, bound: nat) { Spread(k, bound) && LeastServed(k) }

  // Some CFS thread is queued, or none is runnable at all: not just a lone running one.
  ghost predicate Contended(k: Kernel) { k.runq != {} || Runnable(k) == {} }

  // Vruntimes stay, the current thread stays, and nobody joins the competition.
  ghost predicate NobodyJoins(k: Kernel, k': Kernel) {
    && k'.current == k.current && Runnable(k') <= Runnable(k)
    && forall t :: t in Runnable(k') ==> Th(k', t).vruntime == Th(k, t).vruntime
  }

  lemma FairNobodyJoins(k: Kernel, k': Kernel, bound: nat)
    requires Fair(k, bound) && NobodyJoins(k, k')
    ensures Fair(k', bound)
  {
  }

  // `t` joins with the vruntime that `update_from_leftmost` gives it.
  ghost predicate Joins(k: Kernel, k': Kernel, t: Addr) {
    && k'.current == k.current && t != k.current && Runnable(k') <= Runnable(k) + {t}
    && Th(k', t).vruntime == AlignedVruntime(k, t)
    && forall u :: u in Runnable(k') && u != t ==> Th(k', u).vruntime == Th(k, u).vruntime
  }

  // Joining level with a runnable `l` widens nothing.
  lemma FairBeside(k: Kernel, k': Kernel, t: Addr, l: Addr, bound: nat)
    requires Fair(k, bound) && k'.current == k.current && t != k.current && l in Runnable(k)
    requires Runnable(k') <= Runnable(k) + {t} && Th(k', t).vruntime == Th(k, l).vruntime
    requires forall u :: u in Runnable(k') && u != t ==> Th(k', u).vruntime == Th(k, u).vruntime
    ensures Fair(k', bound)
  {
    forall a, b | a in Runnable(k') && b in Runnable(k') ensures Th(k', a).vruntime <= Th(k', b).vruntime + bound {
      var a0, b0 := if a == t then l else a, if b == t then l else b;
      assert a0 in Runnable(k) && b0 in Runnable(k);
    }
  }

  lemma LeftmostRunnable(k: Kernel)
    requires Core(k) && k.runq != {}
    ensures Leftmost(k) in Runnable(k)
  {
    assert ThreadOk(k, Leftmost(k), None);
  }

  lemma FairJoin(k: Kernel, k': Kernel, t: Addr, bound: nat)
    requires Core(k) && Fair(k, bound) && Contended(k) && Joins(k, k', t)
    ensures Fair(k', bound)
  {
    if k.runq != {} {
      LeftmostRunnable(k);
      FairBeside(k, k', t, Leftmost(k), bound);
    }
  }

  // ---------- The charge ----------

  // A runnable thread's priority is part of the sum, so no charge exceeds the elapsed time.
  lemma ChargeBounded(k: Kernel, elapsed: nat)
    requires Core(k) && k.current in Runnable(k)
    ensures Th(k, k.current).priority <= k.prioritySum
    ensures VruntimeDelta(elapsed, Th(k, k.current).priority, k.prioritySum) <= elapsed
  {
    var p, s := Th(k, k.current).priority, k.prioritySum;
    SumRemove(Runnable(k), k.threads, k.current);
    if s != 0 { DivBound(elapsed, p, s); }
  }

  lemma DivBound(e: nat, p: nat, s: nat)
    requires 0 < s && p <= s
    ensures e * p / s <= e
  {
    assert e * p <= e * s;
    var q := e * p / s;
    assert q * s <= e * p;
    assert q > e ==> q * s >= (e + 1) * s;
  }

  lemma ChargeFair(k: Kernel, elapsed: nat, bound: nat)
    requires Inv(k) && Fair(k, bound) && elapsed <= bound
    ensures var k1 := Charge(k, elapsed);
      Runnable(k1) == Runnable(k) && Spread(k1, bound)
  {
    var k1 := Charge(k, elapsed);
    assert Runnable(k1) == Runnable(k);
    assert ThreadOk(k, k.current, None);
    if k.current in Runnable(k) { ChargeBounded(k, elapsed); }
  }

  lemma SwitchFair(k: Kernel, bound: nat)
    requires Inv(k) && !IsBlocked(Th(k, Pick(k)).state) && Pick(k) in k.threads && Pick(k) != k.current
    requires Spread(k, bound)
    ensures Fair(SwitchTo(k, Pick(k)), bound)
  {
    var t := Pick(k);
    var k' := SwitchTo(k, t);
    SwitchToAccounts(k, t);
    assert Runnable(k') == Runnable(k);
    assert forall u :: u in k.threads ==> Th(k', u).vruntime == Th(k, u).vruntime;
    PickLeast(k);
  }

  // A CFS thread is only picked when no runnable CFS thread has a smaller vruntime.
  lemma PickLeast(k: Kernel)
    requires Inv(k)
    ensures Pick(k) in Runnable(k) ==> forall b :: b in Runnable(k) ==> Th(k, Pick(k)).vruntime <= Th(k, b).vruntime
  {
    assert ThreadOk(k, k.idle, None) && ThreadOk(k, k.current, None);
    if k.next.Some? && Tm(k, k.next.v).owner.RtTimer? { assert TimerOk(k, k.next.v); }
    if Pick(k) in Runnable(k) {
      var l := Leftmost(k);
      assert ThreadOk(k, l, None);
      forall b | b in Runnable(k) ensures Th(k, Pick(k)).vruntime <= Th(k, b).vruntime {
        assert ThreadOk(k, b, None);
        if b != k.current && b != l { assert Less(RunKeys(k)[l], l, RunKeys(k)[b], b); }
      }
    }
  }

  lemma ScheduleFair(k: Kernel, elapsed: nat, bound: nat)
    requires Inv(k) && Fair(k, bound) && elapsed <= bound
    ensures Fair(Schedule(k, elapsed), bound)
  {
    ChargeInv(k, elapsed);
    ChargeFair(k, elapsed, bound);
    var k1 := Charge(k, elapsed);
    PickRunnable(k1);
    if Pick(k1) == k1.current { PickLeast(k1); } else { SwitchFair(k1, bound); }
  }

  // ---------- Sleepers waking at a tick ----------

  // Waking the due sleepers at a tick finds a queued CFS thread, or wakes none.
  ghost predicate TickContended(k: Kernel) { Contended(k) || forall t :: Due(k, t) ==> !Th(k, t).kind.Cfs? }

  lemma SleeperFair(k: Kernel, elapsed: nat, t: Addr, bound: nat)
    requires Core(k) && Due(k, t) && t != k.current && Fair(k, bound) && (Th(k, t).kind.Cfs? ==> Contended(k))
    ensures var k' := WakeSleeper(k, elapsed, t);
      Fair(k', bound) && (Contended(k) ==> Contended(k')) &&
        Runnable(k') == Runnable(k) + (if Th(k, t).kind.Cfs? then {t} else {})
  {
    assert ThreadOk(k, t, None);
    var k1, k' := k.(waits := k.waits - {t}), WakeSleeper(k, elapsed, t);
    assert RunKeys(k1) == RunKeys(k);
    if Th(k, t).kind.Cfs? {
      assert Runnable(k') == Runnable(k) + {t};
      assert Joins(k, k', t);
      FairJoin(k, k', t, bound);
    } else {
      assert Runnable(k') == Runnable(k);
      FairNobodyJoins(k, k', bound);
    }
  }

  lemma StillContended(k: Kernel, elapsed: nat, t: Addr, k1: Kernel)
    requires Core(k) && Due(k, t) && t != k.current && k1 == WakeSleeper(k, elapsed, t) && TickContended(k)
    requires Contended(k) ==> Contended(k1)
    ensures TickContended(k1)
  {
    WakeSleeperCore(k, elapsed, t);
    forall u | Due(k1, u) ensures Due(k, u) && Th(k1, u).kind == Th(k, u).kind { }
  }

  lemma NextFair(k: Kernel, elapsed: nat, t: Addr, k1: Kernel, bound: nat)
    requires Core(k) && Due(k, t) && t != k.current && Fair(k, bound) && TickContended(k)
    requires k1 == WakeSleeper(k, elapsed, t)
    ensures Fair(k1, bound) && TickContended(k1)
  {
    SleeperFair(k, elapsed, t, bound);
    StillContended(k, elapsed, t, k1);
  }

  lemma {:induction false} WakeDueFair(k: Kernel, elapsed: nat, bound: nat)
    requires Core(k) && CurrentStays(k) && Fair(k, bound) && TickContended(k)
    ensures Fair(WakeDue(k, elapsed), bound)
    decreases |k.waits|
  {
    if k.waits != {} && LeastWake(k) <= k.now {
      var t := Least(k.waits, WakeKeys(k));
      assert Due(k, t);
      var k1 := WakeSleeper(k, elapsed, t);
      NextFair(k, elapsed, t, k1, bound);
      WakeSleeperCore(k, elapsed, t);
      WakeDueFair(k1, elapsed, bound);
    }
  }

  lemma DispatchOneFair(k: Kernel, elapsed: nat, a: Addr, bound: nat)
    requires Dispatching(k) && Expired(k, a) && DispatchOne(k, elapsed, a).Ok? && Fair(k, bound) && TickContended(k)
    ensures var k' := DispatchOne(k, elapsed, a).k; Fair(k', bound) && TickContended(k')
  {
    DispatchOneKeeps(k, elapsed, a);
    var k' := DispatchOne(k, elapsed, a).k;
    if Tm(k, a).owner.WaitTimer? {
      WakeDueCore(k, elapsed);
      WakeDueFair(k, elapsed, bound);
      var k1 := WakeDue(k, elapsed);
      assert Runnable(k') == Runnable(k1);
      FairNobodyJoins(k1, k', bound);
      NoneDue(k1);
      forall t ensures !Due(k', t) { assert !Due(k1, t); }
    } else {
      assert TimerOk(k, a);
      assert Runnable(k') == Runnable(k);
      FairNobodyJoins(k, k', bound);
      forall t | Due(k', t) ensures Due(k, t) && Th(k', t).kind == Th(k, t).kind { }
    }
  }

  lemma {:induction false} DispatchFair(k: Kernel, elapsed: nat, bound: nat)
    requires Dispatching(k) && Dispatch(k, elapsed).Ok? && Fair(k, bound) && TickContended(k)
    ensures Fair(Dispatch(k, elapsed).k, bound)
    decreases Expired(k, k.waitTimer), |ExpiredRt(k)| + CfsTurns(k)
  {
    var e := Earliest(k.timers);
    if e.Some? && Tm(k, e.v).expireAt <= k.now {
      DispatchOneKeeps(k, elapsed, e.v);
      DispatchOneFair(k, elapsed, e.v, bound);
      DispatchFair(DispatchOne(k, elapsed, e.v).k, elapsed, bound);
    }
  }
}
