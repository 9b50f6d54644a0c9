/** Programming the 24-bit scheduler timer (src/ktimer.rs): far deadlines are reached in chunks, near ones at most one
    tick late. A reload value R makes the timer fire after R + 1 ticks. */
module Reload {
  import opened Kernel
  import opened Location
  import opened ExpiryDispatch
  import opened Runs

  const RELOAD_MIN: nat := 1
  const RELOAD_MAX: nat := 0xFF_FFFF
  // The longest interval that one programming covers.
  const CHUNK: nat := 0x100_0000

  // ---------- Tick counts and reload values ----------

  function ReloadFromTicks(ticks: nat): Opt<nat> {
    if ticks == 0 || ticks - 1 > RELOAD_MAX then None else Some(ticks - 1)
  }

  function WritableReload(reload: nat): nat {
    if reload < RELOAD_MIN then RELOAD_MIN else if reload > RELOAD_MAX then RELOAD_MAX else reload
  }

  function ProgrammableReload(ticks: nat): nat {
    var r := ReloadFromTicks(ticks);
    WritableReload(if r.Some? then r.v else if ticks == 0 then 0 else RELOAD_MAX)
  }

  function Min(a: nat, b: nat): nat { if a <= b then a else b }

  // `KTimerEntity::remaining_at`: capped at what the timer holds, and that cap for a timer that never expires.
  function RemainingAt(expireAt: nat, now: nat): nat {
    if expireAt == NEVER then RELOAD_MAX else Min(SatSub(expireAt, now), RELOAD_MAX)
  }

  // `scheduler_timer_reload_for_entity` for the RT and wait timers, and for the CFS timer, whose interval its own
  // relative deadline also limits.
  function DeadlineReload(expireAt: nat, now: nat): nat {
    WritableReload(Min(SatSub(SatSub(expireAt, now), 1), RELOAD_MAX))
  }

  function SliceReload(expireAt: nat, deadline: nat, now: nat): nat {
    ProgrammableReload(Min(RemainingAt(expireAt, now), deadline))
  }

  function EntityReload(tm: Timer, now: nat): nat {
    if tm.owner.CfsTimer? then SliceReload(tm.expireAt, tm.deadline, now) else DeadlineReload(tm.expireAt, now)
  }

  ghost function NextReload(k: Kernel): Opt<nat> {
    var e := Earliest(k.timers);
    if e.None? then None else Some(EntityReload(Tm(k, e.v), k.now))
  }

  // The CFS formula is the deadline formula with the relative deadline as a second limit, one short of the longest
  // interval because the remaining ticks are capped before they become a reload.
  lemma SliceIsDeadline(expireAt: nat, deadline: nat, now: nat)
    requires expireAt <= NEVER && (expireAt == NEVER ==> now + CHUNK <= NEVER)
    ensures SliceReload(expireAt, deadline, now)
         == Min(DeadlineReload(Min(expireAt, now + deadline), now), RELOAD_MAX - 1)
  {
  }

  // What is programmed is always writable, and the interval is the distance rounded into [2, CHUNK].
  lemma Interval(expireAt: nat, now: nat)
    ensures var d := SatSub(expireAt, now);
      DeadlineReload(expireAt, now) + 1 == if d < 2 then 2 else if d > CHUNK then CHUNK else d
  {
  }

  // ---------- No timer is more than one tick late ----------

  // How late the timer that is programmed for finds the deadlines.
  ghost predicate OneTickLate(k: Kernel) {
    NextReload(k).Some? && forall a :: a in QueuedSet(k.timers) ==> k.now + NextReload(k).v + 1 <= Tm(k, a).expireAt + 1
  }

  // The earliest timer is a CFS timer at NEVER, and the cap that stands for its remaining ticks, limited by its
  // relative deadline, reaches past the end of the clock.
  ghost predicate CapTooLong(k: Kernel) {
    var e := Earliest(k.timers);
    e.Some? && Tm(k, e.v).owner.CfsTimer? && Tm(k, e.v).expireAt == NEVER
    && NEVER + 1 < k.now + Min(RELOAD_MAX, Tm(k, e.v).deadline)
  }

  lemma SliceInterval(expireAt: nat, deadline: nat, now: nat)
    requires now < expireAt <= NEVER
    ensures now + SliceReload(expireAt, deadline, now) <= expireAt
       <==> !(expireAt == NEVER && NEVER + 1 < now + Min(RELOAD_MAX, deadline))
    ensures now + SliceReload(expireAt, deadline, now) == expireAt && now + CHUNK <= NEVER ==> expireAt == now + 1
  {
  }

  // Starting with no expired timer, every queued timer is at most one tick late when the programmed interval has
  // passed, exactly unless the cap for a CFS timer at NEVER is too long.
  lemma AtMostOneTickLate(k: Kernel)
    requires QueuedSet(k.timers) != {}
    requires forall b :: b in QueuedSet(k.timers) ==> k.now < Tm(k, b).expireAt <= NEVER
    ensures OneTickLate(k) <==> !CapTooLong(k)
    ensures NextReload(k).Some? && RELOAD_MIN <= NextReload(k).v <= RELOAD_MAX
  {
    var e := Earliest(k.timers).v;
    assert e in QueuedSet(k.timers);
    Interval(Tm(k, e).expireAt, k.now);
    SliceInterval(Tm(k, e).expireAt, Tm(k, e).deadline, k.now);
    assert forall a :: a in QueuedSet(k.timers) ==> Tm(k, e).expireAt <= Tm(k, a).expireAt;
  }

  // One chunk away from the end of the clock nothing is late by more than a tick, and by one tick only a timer that
  // was due on the next tick.
  lemma LateOnlyIfNext(k: Kernel, a: Addr)
    requires a in QueuedSet(k.timers) && k.now + CHUNK <= NEVER
    requires forall b :: b in QueuedSet(k.timers) ==> k.now < Tm(k, b).expireAt <= NEVER
    ensures OneTickLate(k)
    ensures k.now + NextReload(k).v + 1 == Tm(k, a).expireAt + 1 ==> Tm(k, a).expireAt == k.now + 1
  {
    AtMostOneTickLate(k);
    var e := Earliest(k.timers).v;
    assert e in QueuedSet(k.timers);
    Interval(Tm(k, e).expireAt, k.now);
    SliceInterval(Tm(k, e).expireAt, Tm(k, e).deadline, k.now);
    assert Tm(k, e).expireAt <= Tm(k, a).expireAt;
  }

  // Six ticks before the end of the clock, with the CFS timer at NEVER.
  ghost function AtTheEnd(): Kernel {
    Kernel(map[1 := Thread(Idle, Running, 0, 0, 0, 0, 0)],
           map[10 := Timer(CfsTimer, NEVER, true, true, CHUNK, CHUNK),
               11 := Timer(WaitTimer, NEVER, false, true, 0, 0)],
           10, 11, {}, {}, [], 0, 1, false, 1, Some(10), NEVER - 6)
  }

  // The state meets the invariant, and yet the timer is programmed for the longest CFS interval.
  lemma EndIsLate()
    ensures Settled(AtTheEnd()) && NextReload(AtTheEnd()) == Some(RELOAD_MAX - 1) && !OneTickLate(AtTheEnd())
  {
    var k := AtTheEnd();
    assert Runnable(k) == {} && CfsThreads(k) == {};
    assert ActiveSet(k.timers) == {10} && QueuedSet(k.timers) == {10, 11};
    assert IsLeast(QueuedSet(k.timers), Expiries(k.timers), 10);
    AtMostOneTickLate(k);
  }

  // ---------- A lone deadline ----------

  // When the timer interrupt that reaches `expireAt` occurs, reprogramming at each earlier one.
  function Arrival(now: nat, expireAt: nat): nat
    decreases SatSub(expireAt, now)
  {
    if now >= expireAt then now else Arrival(now + DeadlineReload(expireAt, now) + 1, expireAt)
  }

  function Interrupts(now: nat, expireAt: nat): nat
    decreases SatSub(expireAt, now)
  {
    if now >= expireAt then 0 else 1 + Interrupts(now + DeadlineReload(expireAt, now) + 1, expireAt)
  }

  // Any distance is covered in finitely many chunks: one per CHUNK ticks or part of it. The last interrupt is on time,
  // except that it is one tick late exactly when the distance leaves remainder one.
  lemma {:induction false} LoneDeadline(now: nat, expireAt: nat)
    requires now < expireAt
    ensures Arrival(now, expireAt) == if (expireAt - now) % CHUNK == 1 then expireAt + 1 else expireAt
    ensures Interrupts(now, expireAt) == (expireAt - now + CHUNK - 1) / CHUNK
    decreases expireAt - now
  {
    Interval(expireAt, now);
    var now' := now + DeadlineReload(expireAt, now) + 1;
    if now' < expireAt {
      LoneDeadline(now', expireAt);
      assert (expireAt - now) % CHUNK == (expireAt - now') % CHUNK;
      assert (expireAt - now + CHUNK - 1) / CHUNK == (expireAt - now' + CHUNK - 1) / CHUNK + 1;
    }
  }

  // ---------- The same inside the running scheduler ----------

  // Every queued timer but `a` expires later than one tick after it.
  ghost predicate LoneTimer(k: Kernel, a: Addr) {
    && a in QueuedSet(k.timers) && !Tm(k, a).owner.CfsTimer? && k.now < Tm(k, a).expireAt < NEVER - 1
    && forall b :: b in QueuedSet(k.timers) && b != a ==> Tm(k, b).expireAt > Tm(k, a).expireAt + 1
  }

  lemma LoneFirst(k: Kernel, a: Addr)
    requires LoneTimer(k, a)
    ensures Earliest(k.timers) == Some(a) && NextReload(k) == Some(DeadlineReload(Tm(k, a).expireAt, k.now))
  {
    var e := Earliest(k.timers).v;
    assert e in QueuedSet(k.timers);
  }

  // A tick before the deadline only moves the clock.
  lemma QuietTick(k: Kernel, a: Addr, elapsed: nat)
    requires Inv(k) && LoneTimer(k, a) && k.now + elapsed < Tm(k, a).expireAt
    ensures Enabled(k, Tick(elapsed)) && Apply(k, Tick(elapsed)) == Ok(k.(now := k.now + elapsed))
  {
    var k0 := k.(now := k.now + elapsed);
    assert TimerOk(k, k.waitTimer) && k.waitTimer in QueuedSet(k.timers);
    if k.current in k.waits { assert Th(k, k.current).wakeAt >= LeastWake(k); }
    AdvanceKeeps(k, elapsed);
    LoneFirst(k, a);
    assert Dispatch(k0, elapsed) == Ok(k0);
  }

  lemma ReachesFirst(k: Kernel, s: Step, k1: Kernel, rest: seq<Step>, k': Kernel)
    requires Inv(k) && Enabled(k, s) && Apply(k, s) == Ok(k1) && Inv(k1) && Reaches(k1, rest, k')
    ensures Reaches(k, [s] + rest, k')
  {
    StepInv(k, s);
    assert ([s] + rest)[1..] == rest;
  }

  lemma LoneStays(k: Kernel, a: Addr, i: nat, k1: Kernel)
    requires Inv(k) && LoneTimer(k, a) && k.now + i < Tm(k, a).expireAt && k1 == k.(now := k.now + i)
    ensures Enabled(k, Tick(i)) && Apply(k, Tick(i)) == Ok(k1) && Inv(k1) && LoneTimer(k1, a)
  {
    QuietTick(k, a, i);
    StepInv(k, Tick(i));
  }

  // `steps` leads to the last of `n` programmings before the deadline, whose interrupt comes at `arrival`.
  ghost predicate Laps(k: Kernel, expireAt: nat, steps: seq<Step>, k': Kernel, n: nat, arrival: nat)
    requires Inv(k)
  {
    && Reaches(k, steps, k') && k' == k.(now := k'.now) && k'.now < expireAt
    && |steps| + 1 == n && NextReload(k').Some? && k'.now + NextReload(k').v + 1 == arrival
  }

  ghost predicate LastLap(k: Kernel, a: Addr, steps: seq<Step>, k': Kernel)
    requires Inv(k)
  {
    var e := Tm(k, a).expireAt;
    Laps(k, e, steps, k', Interrupts(k.now, e), Arrival(k.now, e))
  }

  lemma OneChunk(now: nat, expireAt: nat, i: nat)
    requires now + i < expireAt && i == DeadlineReload(expireAt, now) + 1
    ensures Arrival(now, expireAt) == Arrival(now + i, expireAt)
    ensures Interrupts(now, expireAt) == 1 + Interrupts(now + i, expireAt)
  {
  }

  lemma AddLap(k: Kernel, e: nat, i: nat, k1: Kernel, rest: seq<Step>, k': Kernel, n: nat, arrival: nat)
    requires Inv(k) && k1 == k.(now := k.now + i) && Enabled(k, Tick(i)) && Apply(k, Tick(i)) == Ok(k1)
    requires Inv(k1) && Laps(k1, e, rest, k', n, arrival)
    ensures Laps(k, e, [Tick(i)] + rest, k', n + 1, arrival)
  {
    ReachesFirst(k, Tick(i), k1, rest, k');
  }

  lemma NoLap(k: Kernel, a: Addr)
    requires Inv(k) && LoneTimer(k, a) && k.now + DeadlineReload(Tm(k, a).expireAt, k.now) + 1 >= Tm(k, a).expireAt
    ensures LastLap(k, a, [], k)
  {
    LoneFirst(k, a);
  }

  lemma OneLap(k: Kernel, a: Addr, i: nat, k1: Kernel, rest: seq<Step>, k': Kernel)
    requires Inv(k) && k1 == k.(now := k.now + i) && Enabled(k, Tick(i)) && Apply(k, Tick(i)) == Ok(k1)
    requires k1.now < Tm(k, a).expireAt && i == DeadlineReload(Tm(k, a).expireAt, k.now) + 1
    requires Inv(k1) && LastLap(k1, a, rest, k')
    ensures LastLap(k, a, [Tick(i)] + rest, k')
  {
    var e := Tm(k, a).expireAt;
    OneChunk(k.now, e, i);
    ChunkAdded(k, a, k1, Interrupts(k.now, e), Arrival(k.now, e), i, rest, k');
  }

  lemma ChunkAdded(k: Kernel, a: Addr, k1: Kernel, n: nat, arrival: nat, i: nat, rest: seq<Step>, k': Kernel)
    requires Inv(k) && k1 == k.(now := k.now + i) && Enabled(k, Tick(i)) && Apply(k, Tick(i)) == Ok(k1)
    requires Inv(k1) && n > 0 && LastLap(k1, a, rest, k')
    requires n - 1 == Interrupts(k1.now, Tm(k1, a).expireAt) && arrival == Arrival(k1.now, Tm(k1, a).expireAt)
    requires n == Interrupts(k.now, Tm(k, a).expireAt) && arrival == Arrival(k.now, Tm(k, a).expireAt)
    ensures LastLap(k, a, [Tick(i)] + rest, k')
  {
    AddLap(k, Tm(k, a).expireAt, i, k1, rest, k', n - 1, arrival);
  }

  // The interrupts programmed for a lone deadline are ticks that change nothing but the clock, until the one that
  // reaches it, on the tick that LoneDeadline tells.
  lemma {:induction false} LoneRun(k: Kernel, a: Addr) returns (steps: seq<Step>, k': Kernel)
    requires Inv(k) && LoneTimer(k, a)
    ensures LastLap(k, a, steps, k')
    decreases Tm(k, a).expireAt - k.now
  {
    var i := DeadlineReload(Tm(k, a).expireAt, k.now) + 1;
    if k.now + i >= Tm(k, a).expireAt {
      NoLap(k, a);
      steps, k' := [], k;
    } else {
      var k1 := k.(now := k.now + i);
      LoneStays(k, a, i, k1);
      steps, k' := LoneRun(k1, a);
      OneLap(k, a, i, k1, steps, k');
      steps := [Tick(i)] + steps;
    }
  }
}
