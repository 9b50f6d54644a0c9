/** Which CFS threads get the CPU (src/sched.rs, src/runq.rs). The charge is rounded down, so a favoured thread may be
    charged nothing: docs/runq.md promises that less favoured threads do not starve, and this says exactly when. */
module Starvation {
  import opened KeyOrder
  import opened Kernel
  import opened SetSum
  import opened Location
  import opened Scheduling
  import opened Fairness
  import opened JoinEffects
  import opened Runs
  import opened TimerGuards

  // ---------- The charge that rounds to nothing ----------

  lemma ZeroCharge(elapsed: nat, priority: nat, sum: nat)
    ensures VruntimeDelta(elapsed, priority, sum) == 0 <==> sum == 0 || elapsed * priority < sum
  {
    if sum != 0 { QuotientZero(elapsed * priority, sum); }
  }

  lemma QuotientZero(n: nat, d: nat)
    requires d > 0
    ensures n / d == 0 <==> n < d
  {
  }

  // What running for `elapsed` ticks would cost `u`.
  ghost function Cost(k: Kernel, elapsed: nat, u: Addr): nat {
    VruntimeDelta(elapsed, Th(k, u).priority, k.prioritySum)
  }

  ghost predicate Ahead(k: Kernel, u: Addr, t: Addr) { Less(Th(k, u).vruntime, u, Th(k, t).vruntime, t) }

  // ---------- One reschedule ----------

  // Vruntimes change by the charge of the current thread alone.
  ghost predicate Charged(k: Kernel, elapsed: nat, k': Kernel) {
    && Inv(k') && Runnable(k') == Runnable(k) && k'.prioritySum == k.prioritySum && k'.next == k.next
    && k'.cfsTimer == k.cfsTimer
    && (forall u :: u in Runnable(k) ==>
      && Th(k', u).priority == Th(k, u).priority
      && Th(k', u).vruntime == Th(k, u).vruntime + (if u == k.current then Cost(k, elapsed, u) else 0))
  }

  lemma SwitchKeepsCfs(k: Kernel, p: Addr)
    requires k.current in k.threads && p in k.threads && !IsBlocked(Th(k, p).state)
    ensures Runnable(SwitchTo(k, p)) == Runnable(k)
    ensures forall u :: Th(SwitchTo(k, p), u).priority == Th(k, u).priority
    ensures forall u :: Th(SwitchTo(k, p), u).vruntime == Th(k, u).vruntime
  {
    SwitchToAccounts(k, p);
  }

  lemma ChargeCosts(k: Kernel, elapsed: nat)
    requires Inv(k)
    ensures var k1 := Charge(k, elapsed); Charged(k, elapsed, k1) && k1.current == k.current && k1.runq == k.runq
  {
    ChargeInv(k, elapsed);
    assert ThreadOk(k, k.current, None) && ThreadOk(k, k.idle, None);
  }

  lemma ScheduleCharges(k: Kernel, elapsed: nat)
    requires Inv(k)
    ensures var k' := Schedule(k, elapsed); Charged(k, elapsed, k') && k'.current == Pick(Charge(k, elapsed))
  {
    ChargeCosts(k, elapsed);
    ScheduleInv(k, elapsed);
    var k1 := Charge(k, elapsed);
    PickRunnable(k1);
    SwitchKeepsCfs(k1, Pick(k1));
  }

  // A queued thread is passed over while somebody runnable ranks before it, who is not charged past it.
  lemma PassedOver(k: Kernel, t: Addr, u: Addr)
    requires Inv(k) && t in k.runq && u in Runnable(k) && Ahead(k, u, t)
    ensures Pick(k) != t
  {
    assert ThreadOk(k, t, None) && ThreadOk(k, u, None) && ThreadOk(k, k.idle, None);
    if k.next.Some? && Tm(k, k.next.v).owner.RtTimer? { assert TimerOk(k, k.next.v); }
    var l := Leftmost(k);
    assert IsLeast(k.runq, RunKeys(k), l);
  }

  // ---------- Overtaken for good ----------

  // `t` waits in the run tree behind the runnable `u`.
  ghost predicate Overtaken(k: Kernel, t: Addr, u: Addr) { t in k.runq && u in Runnable(k) && Ahead(k, u, t) }

  // `u` goes on competing and is charged nothing when it is charged.
  ghost predicate Spares(k: Kernel, s: Step, u: Addr) {
    match s
    case Reschedule(e) => u == k.current ==> k.prioritySum == 0 || e * Th(k, u).priority < k.prioritySum
    case SleepFor(_, _) => u != k.current
    case BlockOn(_) => u != k.current
    case _ => true
  }

  lemma RescheduleOvertaken(k: Kernel, elapsed: nat, t: Addr, u: Addr)
    requires Inv(k) && Overtaken(k, t, u) && Spares(k, Reschedule(elapsed), u)
    ensures Overtaken(Schedule(k, elapsed), t, u)
  {
    assert ThreadOk(k, t, None);
    ZeroCharge(elapsed, Th(k, u).priority, k.prioritySum);
    ChargeCosts(k, elapsed);
    ScheduleCharges(k, elapsed);
    var k1, k' := Charge(k, elapsed), Schedule(k, elapsed);
    assert t in Runnable(k) && Ahead(k1, u, t);
    PassedOver(k1, t, u);
    QueuedUnlessCurrent(k', t);
  }

  // A runnable thread that is not current is queued.
  lemma QueuedUnlessCurrent(k: Kernel, t: Addr)
    requires Inv(k) && t in Runnable(k) && t != k.current
    ensures t in k.runq
  {
    assert ThreadOk(k, t, None);
  }

  // Between reschedules nobody's vruntime changes but that of a thread that wakes.
  lemma KeepsVruntime(k: Kernel, s: Step, t: Addr)
    requires Inv(k) && Enabled(k, s) && Apply(k, s).Ok? && !s.Reschedule? && t in Runnable(k)
    requires t == k.current ==> !s.SleepFor? && !s.BlockOn?
    ensures Th(Apply(k, s).k, t).vruntime == Th(k, t).vruntime
  {
    assert ThreadOk(k, t, None);
    match s
    case Tick(e) => TickVruntime(k, e, Apply(k, s).k, t);
    case YieldCpu(e) => YieldLegal(k, e);
    case SleepFor(e, n) => SleepVruntime(k, e, n, t);
    case BlockOn(e) => if !Th(k, k.current).kind.Idle? { WaitUntilInv(k, e, NEVER); }
    case WakeUp(u) => WakeVruntime(k, u, t);
    case StartCfs(u, p) =>
    case StartRt(u, a, p, d) => SpawnRtApart(k, u, a, p, d, Apply(k, s).k);
    case Rekey(u, e) => SetExpireInv(k, u, e);
  }

  lemma SleepVruntime(k: Kernel, elapsed: nat, ticks: nat, t: Addr)
    requires Settled(k) && k.now + elapsed < NEVER && Sleep(k, elapsed, ticks).Ok? && t in k.threads && t != k.current
    ensures Th(Sleep(k, elapsed, ticks).k, t).vruntime == Th(k, t).vruntime
  {
    if !Th(k, k.current).kind.Idle? { WaitUntilInv(k, elapsed, WakeTime(k.now, elapsed, ticks)); }
  }

  lemma WakeVruntime(k: Kernel, u: Addr, t: Addr)
    requires Inv(k) && Enabled(k, WakeUp(u)) && Wake(k, u).Ok? && t in k.threads && t != u
    ensures Th(Wake(k, u).k, t).vruntime == Th(k, t).vruntime
  {
    assert ThreadOk(k, u, None);
    WakeInv(k, u);
  }

  // A new RT thread changes no other and competes with no CFS thread.
  lemma SpawnRtApart(k: Kernel, u: Addr, a: Addr, period: nat, deadline: nat, k': Kernel)
    requires Inv(k) && Enabled(k, StartRt(u, a, period, deadline)) && SpawnRt(k, u, a, period, deadline) == Ok(k')
    ensures Runnable(k') == Runnable(k) && NobodyJoins(k, k')
    ensures forall t :: t in k.threads ==> Th(k', t).vruntime == Th(k, t).vruntime
  {
    var k1 := SetTm(SetTh(k, u, Thread(Rt, Ready, 0, 0, 0, 0, a)), a,
      Timer(RtTimer(u), deadline, true, true, period, deadline));
    assert Runnable(k1) == Runnable(k);
    RefreshSame(k1);
    assert Runnable(k') == Runnable(k1);
  }

  lemma StaysRunnable(k: Kernel, s: Step, t: Addr)
    requires Inv(k) && Enabled(k, s) && Apply(k, s).Ok? && t in Runnable(k)
    requires t == k.current ==> !s.SleepFor? && !s.BlockOn?
    ensures Inv(Apply(k, s).k) && t in Runnable(Apply(k, s).k)
  {
    StepInv(k, s);
    StepKind(k, s, t);
    KeepsAwake(k, s, t);
  }

  lemma OvertakenStep(k: Kernel, s: Step, t: Addr, u: Addr)
    requires Inv(k) && Enabled(k, s) && Apply(k, s).Ok? && Overtaken(k, t, u) && Spares(k, s, u)
    ensures Inv(Apply(k, s).k) && Overtaken(Apply(k, s).k, t, u)
  {
    assert ThreadOk(k, t, None);
    if s.Reschedule? {
      ScheduleInv(k, s.elapsed);
      RescheduleOvertaken(k, s.elapsed, t, u);
    } else {
      StaysRunnable(k, s, t);
      StaysRunnable(k, s, u);
      KeepsVruntime(k, s, t);
      KeepsVruntime(k, s, u);
      StepCurrent(k, s);
      QueuedUnlessCurrent(Apply(k, s).k, t);
    }
  }

  ghost predicate SparedRun(k: Kernel, steps: seq<Step>, u: Addr)
    requires Inv(k)
    decreases |steps|
  {
    steps == [] || (Enabled(k, steps[0]) && Apply(k, steps[0]).Ok? ==>
      Spares(k, steps[0], u) && (StepInv(k, steps[0]); SparedRun(Apply(k, steps[0]).k, steps[1..], u)))
  }

  // Over any run, ticks, wake-ups and spawns included, in which `u` goes on competing and each of its charges rounds to
  // nothing, the thread behind it is never current and never chosen.
  lemma {:induction false} RunStarved(k: Kernel, steps: seq<Step>, k': Kernel, t: Addr, u: Addr)
    requires Inv(k) && Reaches(k, steps, k') && Overtaken(k, t, u) && SparedRun(k, steps, u)
    ensures Inv(k') && Overtaken(k', t, u) && k'.current != t && Pick(k') != t
    decreases |steps|
  {
    if steps == [] {
      assert ThreadOk(k, t, None);
      PassedOver(k, t, u);
    } else {
      StepInv(k, steps[0]);
      OvertakenStep(k, steps[0], t, u);
      RunStarved(Apply(k, steps[0]).k, steps[1..], k', t, u);
    }
  }

  // ---------- Nothing but reschedules ----------

  ghost function After(k: Kernel, es: seq<nat>): Kernel
    decreases |es|
  {
    if es == [] then k else After(Schedule(k, es[0]), es[1..])
  }

  // A CFS thread with priority 1 runs, level with a queued one of priority 1000.
  ghost function Favoured(): Kernel {
    Kernel(map[1 := Thread(Idle, Ready, 0, 0, 0, 0, 0), 2 := Thread(Cfs, Running, 1, 0, 0, 0, 0),
               3 := Thread(Cfs, Ready, 1000, 0, 0, 0, 0)],
           map[10 := Timer(CfsTimer, 500, true, true, 1000, 500), 11 := Timer(WaitTimer, NEVER, false, true, 0, 0)],
           10, 11, {3}, {}, [], 1001, 2, true, 1, Some(10), 0)
  }

  lemma FavouredSettled()
    ensures Settled(Favoured()) && Fair(Favoured(), 0) && Overtaken(Favoured(), 3, 2)
  {
    var k := Favoured();
    assert Runnable(k) == {2, 3} && CfsThreads(k) == {2, 3};
    SumRemove({2, 3}, k.threads, 3);
    assert {2, 3} - {3} == {2};
    SumRemove({2}, k.threads, 2);
    assert {2} - {2} == {};
    assert ActiveSet(k.timers) == {10};
  }

  lemma FavouredStays(elapsed: nat)
    requires elapsed <= 1000
    ensures Schedule(Favoured(), elapsed) == Favoured()
  {
    var k := Favoured();
    ZeroCharge(elapsed, 1, 1001);
    assert Charge(k, elapsed).threads == k.threads;
    assert IsLeast(k.runq, RunKeys(k), 3) && Leftmost(k) == 3;
  }

  // Slices of up to 1000 ticks, however many, leave this state as it is: fair by every bound, and thread 3 never runs.
  lemma {:induction false} FavouredForever(es: seq<nat>)
    requires forall i :: 0 <= i < |es| ==> es[i] <= 1000
    ensures After(Favoured(), es) == Favoured() && Favoured().current == 2 && Fair(Favoured(), 0)
    decreases |es|
  {
    FavouredSettled();
    if es != [] {
      FavouredStays(es[0]);
      FavouredForever(es[1..]);
    }
  }

  // ---------- Chosen after all ----------

  // The CFS slice is what `schedule` serves.
  ghost predicate SliceOn(k: Kernel) { Inv(k) && k.next == Some(k.cfsTimer) }

  // A CFS thread is current and nobody runnable has had less.
  ghost predicate Ranked(k: Kernel) { k.current in Runnable(k) && LeastServed(k) }

  // How many charges `u` can take before it ranks behind `t`.
  ghost function Room(k: Kernel, t: Addr, u: Addr): nat {
    if Th(k, u).vruntime > Th(k, t).vruntime then 0 else Th(k, t).vruntime - Th(k, u).vruntime + 1
  }

  ghost function Rooms(k: Kernel, t: Addr): map<Addr, nat> { map u | u in Runnable(k) :: Room(k, t, u) }

  ghost function Others(k: Kernel, t: Addr): set<Addr> { Runnable(k) - {t} }

  ghost function Headroom(k: Kernel, t: Addr): nat { Total(Others(k, t), Rooms(k, t)) }

  lemma SliceChooses(k: Kernel, t: Addr)
    requires SliceOn(k) && k.runq != {}
    ensures Pick(k) in Runnable(k)
  {
    assert TimerOk(k, k.cfsTimer) && k.cfsTimer in ActiveSet(k.timers);
    assert ThreadOk(k, Leftmost(k), None) && ThreadOk(k, k.current, None);
  }

  // While `t` waits, a reschedule leaves a least served CFS thread on the CPU.
  lemma SliceRanks(k: Kernel, elapsed: nat, t: Addr)
    requires SliceOn(k) && t in Runnable(k) && t != k.current
    ensures var k' := Schedule(k, elapsed); SliceOn(k') && Charged(k, elapsed, k') && Ranked(k')
  {
    QueuedUnlessCurrent(k, t);
    ChargeCosts(k, elapsed);
    ScheduleCharges(k, elapsed);
    var k1, k' := Charge(k, elapsed), Schedule(k, elapsed);
    SliceChooses(k1, t);
    PickLeast(k1);
    SameRanks(k, elapsed, k1, k');
  }

  lemma SameRanks(k: Kernel, elapsed: nat, k1: Kernel, k': Kernel)
    requires Charged(k, elapsed, k1) && Charged(k, elapsed, k') && k'.current in Runnable(k1)
    requires forall b :: b in Runnable(k1) ==> Th(k1, k'.current).vruntime <= Th(k1, b).vruntime
    ensures Ranked(k')
  {
  }

  // No charge of another thread makes room, and one of a thread that ranks before `t` uses some up.
  lemma RoomShrinks(k: Kernel, elapsed: nat, t: Addr, k': Kernel)
    requires Charged(k, elapsed, k') && t in Runnable(k) && t != k.current
    ensures Headroom(k', t) <= Headroom(k, t)
    ensures Ranked(k) && Cost(k, elapsed, k.current) > 0 ==> Headroom(k', t) < Headroom(k, t)
  {
    assert Others(k', t) == Others(k, t);
    TotalMost(Others(k, t), Rooms(k', t), Rooms(k, t));
    if Ranked(k) && Cost(k, elapsed, k.current) > 0 {
      TotalLess(Others(k, t), Rooms(k', t), Rooms(k, t), k.current);
    }
  }

  // A ranked thread other than `t` has room left.
  lemma RankedHasRoom(k: Kernel, t: Addr)
    requires Ranked(k) && t in Runnable(k) && t != k.current
    ensures Headroom(k, t) > 0
  {
    TotalRemove(Others(k, t), Rooms(k, t), k.current);
  }

  // The reschedules that it takes at most: the room of the others, and one to start with.
  ghost function Patience(k: Kernel, t: Addr): nat { Headroom(k, t) + (if Ranked(k) then 0 else 1) }

  lemma PatienceShrinks(k: Kernel, elapsed: nat, t: Addr)
    requires SliceOn(k) && t in Runnable(k) && t != k.current
    requires Ranked(k) ==> Cost(k, elapsed, k.current) > 0
    ensures var k' := Schedule(k, elapsed); SliceOn(k') && t in Runnable(k') && Patience(k', t) < Patience(k, t)
  {
    SliceRanks(k, elapsed, t);
    RoomShrinks(k, elapsed, t, Schedule(k, elapsed));
  }

  // Off the slice a reschedule may interrupt whoever is least served, whose charge makes up for it.
  lemma RescheduleSpares(k: Kernel, elapsed: nat, t: Addr, k': Kernel)
    requires Charged(k, elapsed, k') && t in Runnable(k) && t != k.current
    requires Ranked(k) ==> Cost(k, elapsed, k.current) > 0
    ensures Patience(k', t) <= Patience(k, t)
  {
    RoomShrinks(k, elapsed, t, k');
  }

  // Whoever leaves takes its room along.
  lemma LeavingSpares(k: Kernel, t: Addr, k': Kernel)
    requires NobodyJoins(k, k') && t in Runnable(k') && t != k.current
    ensures Patience(k', t) <= Patience(k, t)
  {
    TotalMost(Others(k', t), Rooms(k', t), Rooms(k, t));
    if Ranked(k) && !Ranked(k') {
      RankedHasRoom(k, t);
      TotalRemove(Others(k, t), Rooms(k, t), k.current);
      TotalSubset(Others(k', t), Others(k, t) - {k.current}, Rooms(k, t));
    } else {
      TotalSubset(Others(k', t), Others(k, t), Rooms(k, t));
    }
  }

  // The CFS threads that a step adds to the competition.
  ghost function Joiners(k: Kernel, s: Step): set<Addr> {
    match s
    case Tick(e) => DueCfs(k.(now := k.now + e))
    case WakeUp(u) => if Th(k, u).kind.Cfs? then {u} else {}
    case StartCfs(u, _) => {u}
    case _ => {}
  }

  lemma WaitJoins(k: Kernel, elapsed: nat, wakeAt: nat, r: Outcome)
    requires Settled(k) && k.now + elapsed < NEVER && wakeAt <= NEVER && r.Ok?
    requires r == if Th(k, k.current).kind.Idle? then Ok(k) else WaitUntil(k, elapsed, wakeAt)
    ensures NobodyJoins(k, r.k)
  {
    if !Th(k, k.current).kind.Idle? { WaitUntilInv(k, elapsed, wakeAt); }
  }

  lemma SleepJoins(k: Kernel, elapsed: nat, ticks: nat)
    requires Settled(k) && k.now + elapsed < NEVER && Sleep(k, elapsed, ticks).Ok?
    ensures NobodyJoins(k, Sleep(k, elapsed, ticks).k)
  {
    WaitJoins(k, elapsed, WakeTime(k.now, elapsed, ticks), Sleep(k, elapsed, ticks));
  }

  lemma WakeJoins(k: Kernel, u: Addr)
    requires Inv(k) && Enabled(k, WakeUp(u)) && Wake(k, u).Ok? && !Th(k, u).kind.Cfs?
    ensures NobodyJoins(k, Wake(k, u).k)
  {
    assert ThreadOk(k, u, None);
    WakeInv(k, u);
  }

  lemma TickJoins(k: Kernel, elapsed: nat, k': Kernel)
    requires Inv(k) && Enabled(k, Tick(elapsed)) && TickStep(k, elapsed) == Ok(k')
    requires DueCfs(k.(now := k.now + elapsed)) == {}
    ensures NobodyJoins(k, k')
  {
    TickRunnable(k, elapsed, k');
    forall u | u in Runnable(k') ensures Th(k', u).vruntime == Th(k, u).vruntime { TickVruntime(k, elapsed, k', u); }
  }

  lemma StepJoins(k: Kernel, s: Step)
    requires Inv(k) && Enabled(k, s) && Apply(k, s).Ok? && !s.Reschedule? && Joiners(k, s) == {}
    ensures NobodyJoins(k, Apply(k, s).k)
  {
    match s
    case Tick(e) => TickJoins(k, e, Apply(k, s).k);
    case YieldCpu(e) => YieldLegal(k, e);
    case SleepFor(e, n) => SleepJoins(k, e, n);
    case BlockOn(e) => WaitJoins(k, e, NEVER, Block(k, e));
    case WakeUp(u) => WakeJoins(k, u);
    case StartRt(u, a, p, d) => SpawnRtApart(k, u, a, p, d, Apply(k, s).k);
    case Rekey(u, e) => SetExpireInv(k, u, e);
  }

  // Joining level with the leftmost, nobody brings more room than the spread allows.
  lemma JoiningSpares(k: Kernel, t: Addr, k': Kernel, j: set<Addr>, bound: nat)
    requires k'.current == k.current && t in Runnable(k) && t != k.current && Fair(k', bound)
    requires Runnable(k') == Runnable(k) + j && Runnable(k) !! j
    requires forall u :: u in Runnable(k) ==> Th(k', u).vruntime == Th(k, u).vruntime
    ensures Patience(k', t) <= Patience(k, t) + |j| * (bound + 1)
  {
    JoiningRoom(k, t, k', j);
    TotalAtMost(j, Rooms(k', t), bound + 1);
  }

  lemma JoiningRoom(k: Kernel, t: Addr, k': Kernel, j: set<Addr>)
    requires t in Runnable(k) && Runnable(k') == Runnable(k) + j && Runnable(k) !! j
    requires forall u :: u in Runnable(k) ==> Th(k', u).vruntime == Th(k, u).vruntime
    ensures Headroom(k', t) <= Headroom(k, t) + Total(j, Rooms(k', t))
  {
    assert Others(k', t) == Others(k, t) + j;
    TotalUnion(Others(k, t), j, Rooms(k', t));
    TotalMost(Others(k, t), Rooms(k', t), Rooms(k, t));
  }

  lemma TickAdds(k: Kernel, elapsed: nat, k': Kernel)
    requires Inv(k) && Enabled(k, Tick(elapsed)) && TickStep(k, elapsed) == Ok(k')
    ensures var j := DueCfs(k.(now := k.now + elapsed)); Runnable(k') == Runnable(k) + j && Runnable(k) !! j
  {
    TickRunnable(k, elapsed, k');
    forall u | u in Runnable(k) ensures u !in DueCfs(k.(now := k.now + elapsed)) { assert ThreadOk(k, u, None); }
  }

  lemma WakeAdds(k: Kernel, u: Addr)
    requires Inv(k) && Enabled(k, WakeUp(u)) && Wake(k, u).Ok? && Th(k, u).kind.Cfs?
    ensures Runnable(Wake(k, u).k) == Runnable(k) + {u} && u !in Runnable(k)
  {
    assert ThreadOk(k, u, None);
    WakeInv(k, u);
    WokenAdds(k, Wake(k, u).k, u);
  }

  lemma WokenAdds(k: Kernel, k': Kernel, u: Addr)
    requires OnlyWakes(k, k', u) && Th(k, u).kind.Cfs?
    ensures Runnable(k') == Runnable(k) + {u}
  {
  }

  lemma StepAdds(k: Kernel, s: Step)
    requires Inv(k) && Enabled(k, s) && Apply(k, s).Ok? && Joiners(k, s) != {}
    ensures Runnable(Apply(k, s).k) == Runnable(k) + Joiners(k, s) && Runnable(k) !! Joiners(k, s)
  {
    match s
    case Tick(e) => TickAdds(k, e, Apply(k, s).k);
    case WakeUp(u) => WakeAdds(k, u);
    case StartCfs(u, p) => SpawnAdds(k, u, p);
  }

  lemma SpawnAdds(k: Kernel, u: Addr, priority: nat)
    requires u !in k.threads
    ensures Runnable(SpawnCfs(k, u, priority)) == Runnable(k) + {u} && u !in Runnable(k)
  {
  }

  lemma JoinersSpare(k: Kernel, s: Step, t: Addr, k': Kernel, bound: nat)
    requires Inv(k) && Enabled(k, s) && Apply(k, s) == Ok(k') && Joiners(k, s) != {}
    requires t in Runnable(k) && t != k.current && Fair(k', bound)
    ensures Patience(k', t) <= Patience(k, t) + Toll(k, s, bound)
  {
    StepAdds(k, s);
    StepCurrent(k, s);
    forall u | u in Runnable(k) ensures Th(k', u).vruntime == Th(k, u).vruntime { KeepsVruntime(k, s, u); }
    JoiningSpares(k, t, k', Joiners(k, s), bound);
  }

  // Charges are at most `bound`, and those of a CFS thread at least one.
  ghost predicate Pays(k: Kernel, s: Step, bound: nat) {
    s.Reschedule? ==>
      && s.elapsed <= bound
      && (k.current in Runnable(k) ==>
            k.prioritySum != 0 && s.elapsed * Th(k, k.current).priority >= k.prioritySum)
  }

  // A reschedule that the active slice governs.
  ghost predicate OnSlice(k: Kernel, s: Step) { s.Reschedule? && k.next == Some(k.cfsTimer) }

  // While nobody joins no step costs `t` any patience, and a reschedule on the slice gains it some.
  lemma StepSpares(k: Kernel, s: Step, t: Addr, bound: nat)
    requires Inv(k) && Enabled(k, s) && Apply(k, s).Ok? && Pays(k, s, bound) && t in Runnable(k) && t != k.current
    requires Joiners(k, s) == {}
    ensures var k' := Apply(k, s).k;
      && Inv(k') && t in Runnable(k')
      && Patience(k', t) <= Patience(k, t) - (if OnSlice(k, s) then 1 else 0)
  {
    StaysRunnable(k, s, t);
    if s.Reschedule? {
      ZeroCharge(s.elapsed, Th(k, k.current).priority, k.prioritySum);
      ScheduleCharges(k, s.elapsed);
      RescheduleSpares(k, s.elapsed, t, Schedule(k, s.elapsed));
      if OnSlice(k, s) { PatienceShrinks(k, s.elapsed, t); }
    } else {
      StepJoins(k, s);
      LeavingSpares(k, t, Apply(k, s).k);
    }
  }

  ghost predicate PaidRun(k: Kernel, steps: seq<Step>, bound: nat)
    requires Inv(k)
    decreases |steps|
  {
    steps == [] || (Enabled(k, steps[0]) && Apply(k, steps[0]).Ok? ==>
      Pays(k, steps[0], bound) && (StepInv(k, steps[0]); PaidRun(Apply(k, steps[0]).k, steps[1..], bound)))
  }

  // How many reschedules of the run the active slice governs.
  ghost function Slices(k: Kernel, steps: seq<Step>): nat
    requires Inv(k)
    decreases |steps|
  {
    if steps == [] || !Enabled(k, steps[0]) || !Apply(k, steps[0]).Ok? then 0
    else
      StepInv(k, steps[0]);
      (if OnSlice(k, steps[0]) then 1 else 0) + Slices(Apply(k, steps[0]).k, steps[1..])
  }

  // What the joiners of a step may cost in reschedules.
  ghost function Toll(k: Kernel, s: Step, bound: nat): nat { |Joiners(k, s)| * (bound + 1) }

  ghost function Tolls(k: Kernel, steps: seq<Step>, bound: nat): nat
    requires Inv(k)
    decreases |steps|
  {
    if steps == [] || !Enabled(k, steps[0]) || !Apply(k, steps[0]).Ok? then 0
    else
      StepInv(k, steps[0]);
      Toll(k, steps[0], bound) + Tolls(Apply(k, steps[0]).k, steps[1..], bound)
  }

  ghost predicate NobodyNew(k: Kernel, steps: seq<Step>)
    requires Inv(k)
    decreases |steps|
  {
    steps == [] || (Enabled(k, steps[0]) && Apply(k, steps[0]).Ok? ==>
      Joiners(k, steps[0]) == {} && (StepInv(k, steps[0]); NobodyNew(Apply(k, steps[0]).k, steps[1..])))
  }

  ghost predicate Served(k: Kernel, steps: seq<Step>, t: Addr)
    requires Inv(k)
    decreases |steps|
  {
    k.current == t || (steps != [] && Enabled(k, steps[0]) && Apply(k, steps[0]).Ok? &&
      (StepInv(k, steps[0]); Served(Apply(k, steps[0]).k, steps[1..], t)))
  }

  // Over any run in which every charge counts and nobody joins, RT threads running and slices pausing as they may, a
  // runnable thread gets the CPU before the slice has governed `Patience` reschedules.
  lemma {:induction false} RunServed(k: Kernel, steps: seq<Step>, k': Kernel, t: Addr, bound: nat)
    requires Inv(k) && Reaches(k, steps, k') && t in Runnable(k) && PaidRun(k, steps, bound)
    requires NobodyNew(k, steps) && Slices(k, steps) >= Patience(k, t)
    ensures Served(k, steps, t)
    decreases |steps|
  {
    if k.current != t {
      if Ranked(k) { RankedHasRoom(k, t); }
      StepInv(k, steps[0]);
      StepSpares(k, steps[0], t, bound);
      RunServed(Apply(k, steps[0]).k, steps[1..], k', t, bound);
    }
  }

  // A queued thread is the competition that keeps the run fair.
  lemma StaysFair(k: Kernel, s: Step, t: Addr, bound: nat)
    requires Inv(k) && Enabled(k, s) && Apply(k, s).Ok? && Pays(k, s, bound) && Fair(k, bound)
    requires t in Runnable(k) && t != k.current
    ensures Fair(Apply(k, s).k, bound)
  {
    QueuedUnlessCurrent(k, t);
    StepFair(k, s, bound);
  }

  lemma StepCosts(k: Kernel, s: Step, t: Addr, bound: nat)
    requires Inv(k) && Enabled(k, s) && Apply(k, s).Ok? && Pays(k, s, bound) && Fair(k, bound)
    requires t in Runnable(k) && t != k.current
    ensures var k' := Apply(k, s).k;
      && Inv(k') && t in Runnable(k') && Fair(k', bound)
      && Patience(k', t) <= Patience(k, t) + Toll(k, s, bound) - (if OnSlice(k, s) then 1 else 0)
  {
    StaysFair(k, s, t, bound);
    if Joiners(k, s) == {} {
      StepSpares(k, s, t, bound);
    } else {
      StaysRunnable(k, s, t);
      JoinersSpare(k, s, t, Apply(k, s).k, bound);
    }
  }

  // The same with joining threads, each of which costs it at most one more than the bound on the spread.
  lemma {:induction false} RunServedAnyway(k: Kernel, steps: seq<Step>, k': Kernel, t: Addr, bound: nat)
    requires Inv(k) && Reaches(k, steps, k') && t in Runnable(k) && PaidRun(k, steps, bound) && Fair(k, bound)
    requires Slices(k, steps) >= Patience(k, t) + Tolls(k, steps, bound)
    ensures Served(k, steps, t)
    decreases |steps|
  {
    if k.current != t {
      if Ranked(k) { RankedHasRoom(k, t); }
      StepInv(k, steps[0]);
      StepCosts(k, steps[0], t, bound);
      RunServedAnyway(Apply(k, steps[0]).k, steps[1..], k', t, bound);
    }
  }

  // The patience in terms of the spread and the number of competitors.
  lemma PatienceBound(k: Kernel, t: Addr, bound: nat)
    requires t in Runnable(k) && Spread(k, bound)
    ensures Patience(k, t) <= (|Runnable(k)| - 1) * (bound + 1) + 1
  {
    TotalAtMost(Others(k, t), Rooms(k, t), bound + 1);
    assert |Others(k, t)| == |Runnable(k)| - 1;
  }

  // No starvation while every charge counts: a runnable thread gets the CPU before the slice has governed as many
  // reschedules as the spread and the number of competitors allow, those that join on the way included.
  lemma NoStarvation(k: Kernel, steps: seq<Step>, k': Kernel, t: Addr, bound: nat)
    requires Inv(k) && Reaches(k, steps, k') && t in Runnable(k) && PaidRun(k, steps, bound) && Fair(k, bound)
    requires Slices(k, steps) >= (|Runnable(k)| - 1) * (bound + 1) + 1 + Tolls(k, steps, bound)
    ensures Served(k, steps, t)
  {
    PatienceBound(k, t, bound);
    RunServedAnyway(k, steps, k', t, bound);
  }

  // ---------- Exactly who starves under equal slices ----------

  ghost function AfterEqual(k: Kernel, elapsed: nat, n: nat): Kernel
    decreases n
  {
    if n == 0 then k else AfterEqual(Schedule(k, elapsed), elapsed, n - 1)
  }

  // Somebody whose charge rounds to nothing ranks before `t`, or is current and least served.
  ghost predicate StuckBehind(k: Kernel, elapsed: nat, t: Addr, u: Addr) {
    && u in Runnable(k) && u != t && (k.prioritySum == 0 || elapsed * Th(k, u).priority < k.prioritySum)
    && (Ahead(k, u, t) || (u == k.current && LeastServed(k)))
  }

  ghost predicate Stuck(k: Kernel, elapsed: nat, t: Addr) { exists u :: StuckBehind(k, elapsed, t, u) }

  // A free ride at the front is never interrupted.
  lemma FreeRide(k: Kernel, elapsed: nat, t: Addr, u: Addr)
    requires SliceOn(k) && t in k.runq && u == k.current && StuckBehind(k, elapsed, t, u) && LeastServed(k)
    ensures var k' := Schedule(k, elapsed); k'.current == u && StuckBehind(k', elapsed, t, u)
  {
    ZeroCharge(elapsed, Th(k, u).priority, k.prioritySum);
    ChargeCosts(k, elapsed);
    ScheduleCharges(k, elapsed);
    var k1 := Charge(k, elapsed);
    assert TimerOk(k1, k1.cfsTimer) && k1.cfsTimer in ActiveSet(k1.timers);
    assert ThreadOk(k1, u, None) && ThreadOk(k1, Leftmost(k1), None) && ThreadOk(k1, k1.idle, None);
    assert Leftmost(k1) in Runnable(k1);
  }

  lemma StuckStays(k: Kernel, elapsed: nat, t: Addr, u: Addr, k': Kernel)
    requires SliceOn(k) && t in k.runq && StuckBehind(k, elapsed, t, u) && k' == Schedule(k, elapsed)
    ensures SliceOn(k') && t in k'.runq && t != k'.current && StuckBehind(k', elapsed, t, u)
  {
    assert ThreadOk(k, t, None);
    SliceRanks(k, elapsed, t);
    if Ahead(k, u, t) {
      RescheduleOvertaken(k, elapsed, t, u);
      assert ThreadOk(k', t, None);
    } else {
      FreeRide(k, elapsed, t, u);
      QueuedUnlessCurrent(k', t);
    }
  }

  lemma {:induction false} StuckForever(k: Kernel, elapsed: nat, t: Addr, u: Addr, n: nat)
    requires SliceOn(k) && t in k.runq && StuckBehind(k, elapsed, t, u)
    ensures AfterEqual(k, elapsed, n).current != t
    decreases n
  {
    if n == 0 {
      assert ThreadOk(k, t, None);
    } else {
      var k' := Schedule(k, elapsed);
      StuckStays(k, elapsed, t, u, k');
      StuckForever(k', elapsed, t, u, n - 1);
    }
  }

  // Nobody gets ahead of `t` for free later on.
  lemma UnstuckStays(k: Kernel, elapsed: nat, t: Addr, u: Addr)
    requires SliceOn(k) && t in k.runq && !Stuck(k, elapsed, t) && Schedule(k, elapsed).current != t
    ensures !StuckBehind(Schedule(k, elapsed), elapsed, t, u)
  {
    var k' := Schedule(k, elapsed);
    assert ThreadOk(k, t, None);
    SliceRanks(k, elapsed, t);
    if StuckBehind(k', elapsed, t, u) {
      ZeroCharge(elapsed, Th(k, u).priority, k.prioritySum);
      assert !StuckBehind(k, elapsed, t, u);
      assert !Ahead(k', u, t);
      FreshLeader(k, elapsed, t, u);
    }
  }

  // A thread that comes to the front while `t` is queued ranks before `t`, or was there already.
  lemma FreshLeader(k: Kernel, elapsed: nat, t: Addr, u: Addr)
    requires SliceOn(k) && t in k.runq && u in Runnable(k) && u != t && Schedule(k, elapsed).current == u
    requires Cost(k, elapsed, u) == 0
    ensures Ahead(k, u, t) || (u == k.current && LeastServed(k))
  {
    ChargeCosts(k, elapsed);
    ScheduleCharges(k, elapsed);
    var k1 := Charge(k, elapsed);
    assert ThreadOk(k, t, None) && TimerOk(k1, k1.cfsTimer) && k1.cfsTimer in ActiveSet(k1.timers);
    PickLeast(k1);
    var l := Leftmost(k1);
    assert IsLeast(k1.runq, RunKeys(k1), l) && ThreadOk(k1, l, None) && ThreadOk(k1, k1.idle, None);
  }

  lemma UnstuckNext(k: Kernel, elapsed: nat, t: Addr, k': Kernel)
    requires SliceOn(k) && t in k.runq && !Stuck(k, elapsed, t) && k' == Schedule(k, elapsed)
    ensures SliceOn(k') && t in Runnable(k') && Patience(k', t) < Patience(k, t)
    ensures k'.current != t ==> t in k'.runq && !Stuck(k', elapsed, t)
  {
    assert ThreadOk(k, t, None);
    if Ranked(k) { RankedPays(k, elapsed, t); }
    PatienceShrinks(k, elapsed, t);
    if k'.current != t {
      QueuedUnlessCurrent(k', t);
      forall u ensures !StuckBehind(k', elapsed, t, u) { UnstuckStays(k, elapsed, t, u); }
    }
  }

  ghost predicate ChosenBy(k: Kernel, elapsed: nat, t: Addr, m: nat) {
    exists n: nat :: n <= m && AfterEqual(k, elapsed, n).current == t
  }

  lemma ChosenLater(k: Kernel, elapsed: nat, k': Kernel, t: Addr, m: nat)
    requires k' == Schedule(k, elapsed) && (k'.current == t || ChosenBy(k', elapsed, t, m))
    ensures ChosenBy(k, elapsed, t, m + 1)
  {
    var n: nat := 0;
    if k'.current == t {
      assert AfterEqual(k', elapsed, 0).current == t;
    } else {
      n :| n <= m && AfterEqual(k', elapsed, n).current == t;
    }
    assert AfterEqual(k, elapsed, n + 1).current == t;
  }

  // Otherwise `t` is chosen after at most `Patience` reschedules.
  lemma {:induction false} UnstuckChosen(k: Kernel, elapsed: nat, t: Addr, m: nat)
    requires SliceOn(k) && t in k.runq && !Stuck(k, elapsed, t) && m >= Patience(k, t)
    ensures ChosenBy(k, elapsed, t, m)
    decreases m
  {
    var k' := Schedule(k, elapsed);
    UnstuckNext(k, elapsed, t, k');
    if k'.current != t { UnstuckChosen(k', elapsed, t, m - 1); }
    ChosenLater(k, elapsed, k', t, m - 1);
  }

  lemma RankedPays(k: Kernel, elapsed: nat, t: Addr)
    requires Ranked(k) && t != k.current && !Stuck(k, elapsed, t)
    ensures Cost(k, elapsed, k.current) > 0
  {
    ZeroCharge(elapsed, Th(k, k.current).priority, k.prioritySum);
    assert !StuckBehind(k, elapsed, t, k.current);
  }

  // Under equal slices a queued thread starves exactly if somebody rides for free in front of it.
  lemma StarvesExactly(k: Kernel, elapsed: nat, t: Addr)
    requires SliceOn(k) && t in k.runq
    ensures (forall n: nat :: AfterEqual(k, elapsed, n).current != t) <==> Stuck(k, elapsed, t)
    ensures !Stuck(k, elapsed, t) ==> ChosenBy(k, elapsed, t, Patience(k, t))
  {
    assert ThreadOk(k, t, None);
    if Stuck(k, elapsed, t) {
      var u :| StuckBehind(k, elapsed, t, u);
      forall n: nat ensures AfterEqual(k, elapsed, n).current != t { StuckForever(k, elapsed, t, u, n); }
    } else {
      UnstuckChosen(k, elapsed, t, Patience(k, t));
      var n: nat :| n <= Patience(k, t) && AfterEqual(k, elapsed, n).current == t;
      assert !(AfterEqual(k, elapsed, n).current != t);
    }
  }
}
