/** What CFS threads are charged (src/sched.rs, src/runq.rs): their time weighted by their priority. */
module Charges {
  import opened Kernel
  import opened Location
  import opened Scheduling
  import opened Runs
  import opened Starvation

  // `g` is the share `elapsed * priority / sum`, rounded down.
  ghost predicate Share(g: int, elapsed: nat, priority: nat, sum: nat) {
    g >= 0 && g * sum <= elapsed * priority < (g + 1) * sum
  }

  lemma DeltaIsShare(elapsed: nat, priority: nat, sum: nat)
    requires sum > 0
    ensures Share(VruntimeDelta(elapsed, priority, sum), elapsed, priority, sum)
  {
    QuotientBounds(elapsed * priority, sum);
  }

  lemma QuotientBounds(n: nat, d: nat)
    requires d > 0
    ensures n / d * d <= n < (n / d + 1) * d
  {
  }

  // ---------- One reschedule ----------

  ghost predicate Running(k: Kernel, u: Addr) { u == k.current && Th(k, u).kind.Cfs? && Th(k, u).state.Running? }

  ghost function Gain(k: Kernel, k': Kernel, u: Addr): int { Th(k', u).vruntime - Th(k, u).vruntime }

  // A running CFS thread is charged its share of the elapsed time. Nobody else is charged, and neither is a current
  // thread that has just blocked.
  lemma ScheduleGain(k: Kernel, elapsed: nat, u: Addr, k': Kernel)
    requires Inv(k) && k' == Schedule(k, elapsed)
    ensures var g := Gain(k, k', u);
      if Running(k, u) && k.prioritySum > 0 then Share(g, elapsed, Th(k, u).priority, k.prioritySum) else g == 0
  {
    assert ThreadOk(k, k.current, None) && ThreadOk(k, k.idle, None);
    ChargeInv(k, elapsed);
    var k1 := Charge(k, elapsed);
    PickRunnable(k1);
    SwitchKeepsVruntime(k1, Pick(k1), u);
    if k.prioritySum > 0 { DeltaIsShare(elapsed, Th(k, k.current).priority, k.prioritySum); }
  }

  lemma SwitchKeepsVruntime(k: Kernel, t: Addr, u: Addr)
    requires k.current in k.threads && t in k.threads
    ensures Th(SwitchTo(k, t), u).vruntime == Th(k, u).vruntime
  {
  }

  lemma ShareMonotone(g: int, p: nat, h: int, q: nat, elapsed: nat, sum: nat)
    requires Share(g, elapsed, p, sum) && Share(h, elapsed, q, sum) && p <= q
    ensures g <= h
  {
    assert elapsed * p <= elapsed * q;
    assert g >= h + 1 ==> g * sum >= (h + 1) * sum;
  }

  // Of two threads that have run equally long beside the same competition, the one with the lower priority number is
  // charged no more.
  lemma FavouredPaysLess(k: Kernel, j: Kernel, elapsed: nat, k': Kernel, j': Kernel)
    requires Inv(k) && Inv(j) && k' == Schedule(k, elapsed) && j' == Schedule(j, elapsed)
    requires Running(k, k.current) && Running(j, j.current) && k.prioritySum == j.prioritySum > 0
    requires Th(k, k.current).priority <= Th(j, j.current).priority
    ensures Gain(k, k', k.current) <= Gain(j, j', j.current)
  {
    ScheduleGain(k, elapsed, k.current, k');
    ScheduleGain(j, elapsed, j.current, j');
    ShareMonotone(Gain(k, k', k.current), Th(k, k.current).priority, Gain(j, j', j.current),
      Th(j, j.current).priority, elapsed, k.prioritySum);
  }

  // ---------- Priorities ----------

  lemma WaitPriority(k: Kernel, elapsed: nat, wakeAt: nat, r: Outcome, t: Addr)
    requires Settled(k) && k.now + elapsed < NEVER && wakeAt <= NEVER && r.Ok? && t in k.threads && t != k.current
    requires r == if Th(k, k.current).kind.Idle? then Ok(k) else WaitUntil(k, elapsed, wakeAt)
    ensures Th(r.k, t).priority == Th(k, t).priority
  {
    if !Th(k, k.current).kind.Idle? { WaitUntilInv(k, elapsed, wakeAt); }
  }

  lemma SleepPriority(k: Kernel, elapsed: nat, ticks: nat, t: Addr)
    requires Settled(k) && k.now + elapsed < NEVER && Sleep(k, elapsed, ticks).Ok? && t in k.threads && t != k.current
    ensures Th(Sleep(k, elapsed, ticks).k, t).priority == Th(k, t).priority
  {
    WaitPriority(k, elapsed, WakeTime(k.now, elapsed, ticks), Sleep(k, elapsed, ticks), t);
  }

  lemma WakePriority(k: Kernel, u: Addr, t: Addr)
    requires Inv(k) && Enabled(k, WakeUp(u)) && Wake(k, u).Ok? && Awake(k, t)
    ensures Th(Wake(k, u).k, t).priority == Th(k, t).priority
  {
    assert ThreadOk(k, u, None);
    WakeInv(k, u);
  }

  lemma SpawnRtPriority(k: Kernel, u: Addr, a: Addr, period: nat, deadline: nat, t: Addr)
    requires u !in k.threads && t in k.threads && SpawnRt(k, u, a, period, deadline).Ok?
    ensures Th(SpawnRt(k, u, a, period, deadline).k, t).priority == Th(k, t).priority
  {
  }

  lemma SchedulePriority(k: Kernel, elapsed: nat, t: Addr)
    requires Inv(k) && t in k.threads
    ensures Th(Schedule(k, elapsed), t).priority == Th(k, t).priority
  {
    ChargeInv(k, elapsed);
    var k1 := Charge(k, elapsed);
    PickRunnable(k1);
    SwitchToAccounts(k1, Pick(k1));
    assert Th(k1, t).priority == Th(k, t).priority;
  }

  // No step changes the priority of a thread that is awake and stays so.
  lemma StepPriority(k: Kernel, s: Step, t: Addr)
    requires Inv(k) && Enabled(k, s) && Apply(k, s).Ok? && Stays(k, s, t) && Awake(k, t)
    ensures Th(Apply(k, s).k, t).priority == Th(k, t).priority
  {
    match s
    case Tick(e) => TickInv(k, e, Apply(k, s).k);
    case Reschedule(e) => SchedulePriority(k, e, t);
    case YieldCpu(e) => YieldLegal(k, e);
    case SleepFor(e, n) => SleepPriority(k, e, n, t);
    case BlockOn(e) => WaitPriority(k, e, NEVER, Block(k, e), t);
    case WakeUp(u) => WakePriority(k, u, t);
    case StartCfs(u, p) =>
    case StartRt(u, a, p, d) => SpawnRtPriority(k, u, a, p, d, t);
    case Rekey(u, e) => SetExpireInv(k, u, e);
  }

  // `c` goes on competing.
  ghost predicate Stays(k: Kernel, s: Step, c: Addr) { c == k.current ==> !s.SleepFor? && !s.BlockOn? }

  // The step charges `c`.
  ghost predicate Bills(k: Kernel, s: Step, c: Addr) { s.Reschedule? && c == k.current }

  // `c` goes on competing, beside competitors of constant total priority whenever it is charged.
  ghost predicate SteadyRun(k: Kernel, steps: seq<Step>, c: Addr, sum: nat)
    requires Inv(k)
    decreases |steps|
  {
    steps == [] || (Enabled(k, steps[0]) && Apply(k, steps[0]).Ok? ==>
      && Stays(k, steps[0], c) && (Bills(k, steps[0], c) ==> k.prioritySum == sum)
      && (StepInv(k, steps[0]); SteadyRun(Apply(k, steps[0]).k, steps[1..], c, sum)))
  }

  // ---------- Adding up ----------

  datatype Entry = Entry(gain: int, time: nat)

  function Gains(l: seq<Entry>): int { if l == [] then 0 else l[0].gain + Gains(l[1..]) }

  function Times(l: seq<Entry>): nat { if l == [] then 0 else l[0].time + Times(l[1..]) }

  ghost predicate AllShares(l: seq<Entry>, priority: nat, sum: nat) {
    forall i :: 0 <= i < |l| ==> Share(l[i].gain, l[i].time, priority, sum)
  }

  // `n` charges for `time` ticks add up to the share of the whole time, short of it by less than one each.
  ghost predicate Shares(g: int, n: nat, time: nat, priority: nat, sum: nat) {
    g >= 0 && g * sum <= time * priority <= g * sum + n * (sum - 1)
  }

  lemma AddShare(g: int, e: nat, h: int, n: nat, time: nat, p: nat, sum: nat)
    requires sum > 0 && Share(g, e, p, sum) && Shares(h, n, time, p, sum)
    ensures Shares(g + h, n + 1, e + time, p, sum)
  {
    assert (g + h) * sum == g * sum + h * sum;
    assert (e + time) * p == e * p + time * p;
    assert (n + 1) * (sum - 1) == n * (sum - 1) + (sum - 1);
    assert (g + 1) * sum == g * sum + sum;
  }

  lemma {:induction false} SharesAddUp(l: seq<Entry>, p: nat, sum: nat)
    requires sum > 0 && AllShares(l, p, sum)
    ensures Shares(Gains(l), |l|, Times(l), p, sum)
    decreases |l|
  {
    if l != [] {
      assert forall i :: 0 <= i < |l[1..]| ==> l[1..][i] == l[i + 1];
      SharesAddUp(l[1..], p, sum);
      AddShare(l[0].gain, l[0].time, Gains(l[1..]), |l[1..]|, Times(l[1..]), p, sum);
    }
  }

  // ---------- Over a run ----------

  // One step charges `c` its share, or leaves its vruntime as it is.
  lemma StepGain(k: Kernel, s: Step, c: Addr, k': Kernel)
    requires Inv(k) && Enabled(k, s) && Apply(k, s) == Ok(k') && c in Runnable(k) && Stays(k, s, c)
    ensures Inv(k') && c in Runnable(k') && Th(k', c).priority == Th(k, c).priority
    ensures var g := Gain(k, k', c);
      if Bills(k, s, c) && k.prioritySum > 0 then Share(g, s.elapsed, Th(k, c).priority, k.prioritySum) else g == 0
  {
    assert ThreadOk(k, c, None);
    StaysRunnable(k, s, c);
    StepPriority(k, s, c);
    if s.Reschedule? { ScheduleGain(k, s.elapsed, c, k'); } else { KeepsVruntime(k, s, c); }
  }

  // Every charge of `c` in the run: what it gained, and for which time.
  ghost function Ledger(k: Kernel, steps: seq<Step>, c: Addr): seq<Entry>
    requires Inv(k)
    decreases |steps|
  {
    if steps == [] || !Enabled(k, steps[0]) || !Apply(k, steps[0]).Ok? then []
    else
      StepInv(k, steps[0]);
      var k1 := Apply(k, steps[0]).k;
      (if Bills(k, steps[0], c) then [Entry(Gain(k, k1, c), steps[0].elapsed)] else []) + Ledger(k1, steps[1..], c)
  }

  lemma AddEntry(first: seq<Entry>, rest: seq<Entry>, p: nat, sum: nat)
    requires |first| <= 1 && AllShares(first, p, sum) && AllShares(rest, p, sum)
    ensures AllShares(first + rest, p, sum) && Gains(first + rest) == Gains(first) + Gains(rest)
  {
    if first == [] { assert first + rest == rest; } else { assert (first + rest)[1..] == rest; }
  }

  lemma {:induction false} RunLedger(k: Kernel, steps: seq<Step>, k': Kernel, c: Addr, p: nat, sum: nat)
    requires Inv(k) && Reaches(k, steps, k') && c in Runnable(k) && SteadyRun(k, steps, c, sum) && sum > 0
    requires p == Th(k, c).priority
    ensures AllShares(Ledger(k, steps, c), p, sum) && Gains(Ledger(k, steps, c)) == Gain(k, k', c)
    decreases |steps|
  {
    if steps != [] {
      var k1 := Apply(k, steps[0]).k;
      StepGain(k, steps[0], c, k1);
      RunLedger(k1, steps[1..], k', c, p, sum);
      var first := if Bills(k, steps[0], c) then [Entry(Gain(k, k1, c), steps[0].elapsed)] else [];
      AddEntry(first, Ledger(k1, steps[1..], c), p, sum);
    }
  }

  // Over any run, with ticks, yields, wakes, spawns and RT threads in between, a CFS thread that goes on competing is
  // charged its share of the time it ran, rounded down once for each charge.
  lemma RunShares(k: Kernel, steps: seq<Step>, k': Kernel, c: Addr, sum: nat)
    requires Inv(k) && Reaches(k, steps, k') && c in Runnable(k) && SteadyRun(k, steps, c, sum) && sum > 0
    ensures var l := Ledger(k, steps, c); Shares(Gain(k, k', c), |l|, Times(l), Th(k, c).priority, sum)
  {
    RunLedger(k, steps, k', c, Th(k, c).priority, sum);
    SharesAddUp(Ledger(k, steps, c), Th(k, c).priority, sum);
  }
}
