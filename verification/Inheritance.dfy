/** Deadline inheritance on one mutex: `boost_owner_deadline` and `restore_owner_deadline` (src/sync.rs) over
    `set_thread_scheduler_expire_at` (src/ktimer.rs). */
module Inheritance {
  import opened Kernel
  import opened Location
  import opened Runs
  import opened Mutexes
  import opened Rearming
  import opened TimerGuards

  // ---------- Changing the deadline ----------

  // The timer keeps its flags and takes the new deadline, exactly unless it then is the earliest active timer and
  // already expired, in which case it starts over: with its relative deadline, or the slice with its period, from now.
  lemma SetExpireExact(k: Kernel, t: Addr, e: nat, k': Kernel)
    requires Inv(k) && t in k.threads && !Th(k, t).kind.Idle? && SetExpire(k, t, e) == Ok(k')
    ensures var a := OwnTimer(k, t);
      && OwnTimer(k', t) == a && Th(k', t).kind == Th(k, t).kind
      && Tm(k', a) == Tm(k, a).(expireAt := Tm(k', a).expireAt)
      && (Tm(k', a).expireAt == e <==> !(e <= k.now && EarliestActive(Rekeyed(k, t, e).timers) == Some(a)))
      && (Tm(k', a).expireAt != e ==>
           Tm(k', a).expireAt == Later(k.now, if Th(k, t).kind.Rt? then Tm(k, a).deadline else Tm(k, a).period) > k.now)
  {
    var a := OwnTimer(k, t);
    assert ThreadOk(k, t, None) && TimerOk(k, a);
    SetExpireInv(k, t, e);
    RekeyTimer(k, t, e, k');
    FirstOnly(Rekeyed(k, t, e), a);
  }

  // ---------- The inheritance invariant ----------

  // `base` is the owner's own deadline. While boosted it is saved in the mutex and the timer runs on an earlier one.
  ghost predicate Lent(s: System, o: Addr, base: nat) {
    && s.m.owner == Some(o)
    && (if s.m.boosted then s.m.original == base &&
         (if Th(s.k, o).kind.Idle? then base == NEVER else SchedulerExpiry(s.k, o) < base)
        else SchedulerExpiry(s.k, o) == base)
  }

  // A contended `lock` that neither expires nor re-arms the owner's timer: the two threads have different timers,
  // and neither the old nor the lent deadline has passed.
  ghost predicate Undisturbed(s: System, elapsed: nat, o: Addr) {
    var c := s.k.current;
    && OwnTimer(s.k, c) != OwnTimer(s.k, o)
    && Safe(s.k.(now := s.k.now + elapsed), OwnTimer(s.k, o))
    && (Block(s.k, elapsed).Ok? && Tm(s.k, OwnTimer(s.k, o)).active ==>
          BoostTarget(Block(s.k, elapsed).k, Tm(s.k, OwnTimer(s.k, c)).expireAt) > s.k.now + elapsed)
  }

  // A deadline still ahead is taken as it is.
  lemma BoostTimer(k1: Kernel, o: Addr, e: nat, k': Kernel)
    requires Inv(k1) && o in k1.threads && !Th(k1, o).kind.Idle? && SetExpire(k1, o, e) == Ok(k')
    requires Tm(k1, OwnTimer(k1, o)).active ==> e > k1.now
    ensures OwnTimer(k', o) == OwnTimer(k1, o) && Tm(k', OwnTimer(k1, o)) == Tm(k1, OwnTimer(k1, o)).(expireAt := e)
    ensures Th(k', o).kind == Th(k1, o).kind
  {
    SetExpireExact(k1, o, e, k');
    var r := Rekeyed(k1, o, e);
    assert EarliestActive(r.timers) == Some(OwnTimer(k1, o)) ==> OwnTimer(k1, o) in ActiveSet(r.timers);
  }

  lemma BlockLeaves(s: System, elapsed: nat, o: Addr, k1: Kernel)
    requires Sound(s) && MutexEnabled(s, Lock(elapsed)) && s.m.owner == Some(o) && s.k.current != o
    requires !Th(s.k, s.k.current).kind.Idle? && !Th(s.k, o).kind.Idle? && Undisturbed(s, elapsed, o)
    requires Block(s.k, elapsed) == Ok(k1)
    ensures Inv(k1) && o in k1.threads && Th(k1, o).kind == Th(s.k, o).kind && OwnTimer(k1, o) == OwnTimer(s.k, o)
    ensures Tm(k1, OwnTimer(s.k, o)) == Tm(s.k, OwnTimer(s.k, o)) && k1.now == s.k.now + elapsed
  {
    assert ThreadOk(s.k, o, None) && TimerOk(s.k, OwnTimer(s.k, o));
    WaitUntilInv(s.k, elapsed, NEVER);
    WaitUntilKeeps(s.k, elapsed, NEVER, OwnTimer(s.k, o), k1);
  }

  // The owner's deadline never rises while others queue up, and an effective boost strictly lowers it, in the same
  // tree.
  lemma BoostLowers(s: System, elapsed: nat, o: Addr, base: nat, k1: Kernel, s': System)
    requires Sound(s) && MutexEnabled(s, Lock(elapsed)) && Lent(s, o, base) && s.k.current != o
    requires !Th(s.k, s.k.current).kind.Idle? && !Th(s.k, o).kind.Idle? && Undisturbed(s, elapsed, o)
    requires Block(s.k, elapsed) == Ok(k1) && LockContended(s, elapsed) == Next(s')
    ensures Lent(s', o, base)
    ensures var c, a := s.k.current, OwnTimer(s.k, o);
      var d := Tm(s.k, OwnTimer(s.k, c)).expireAt;
      && OwnTimer(s'.k, o) == a && Tm(s'.k, a) == Tm(s.k, a).(expireAt := Tm(s'.k, a).expireAt)
      && (if Boosts(k1, o, c, d) then Tm(s'.k, a).expireAt == BoostTarget(k1, d) < Tm(s.k, a).expireAt && s'.m.boosted
          else Tm(s'.k, a) == Tm(s.k, a) && s'.m.boosted == s.m.boosted)
  {
    var d := Tm(s.k, OwnTimer(s.k, s.k.current)).expireAt;
    BlockLeaves(s, elapsed, o, k1);
    if Boosts(k1, o, s.k.current, d) { BoostTimer(k1, o, BoostTarget(k1, d), s'.k); }
  }

  // The owner may be the idle thread, which has no timer to lend to.
  lemma BoostIdle(s: System, elapsed: nat, o: Addr, base: nat, k1: Kernel, s': System)
    requires Sound(s) && MutexEnabled(s, Lock(elapsed)) && Lent(s, o, base) && s.k.current != o
    requires !Th(s.k, s.k.current).kind.Idle? && Th(s.k, o).kind.Idle?
    requires Block(s.k, elapsed) == Ok(k1) && LockContended(s, elapsed) == Next(s')
    ensures Lent(s', o, base)
  {
    assert ThreadOk(s.k, o, None);
    WaitUntilInv(s.k, elapsed, NEVER);
  }

  // ---------- Guards that can be read off the state before a step ----------

  // Every queued timer but the wait timer lies after `later`.
  ghost predicate AllAhead(k: Kernel, later: nat) {
    forall b :: b in QueuedSet(k.timers) && b != k.waitTimer ==> Tm(k, b).expireAt > later
  }

  // A contended `lock`: the caller runs on another timer, the owner's is not an expired active one, and if it is active
  // no scheduler timer has expired and the elapsed time does not use up a CFS caller's period.
  ghost predicate QuietLock(s: System, elapsed: nat, o: Addr) {
    var k, later := s.k, s.k.now + elapsed;
    && OwnTimer(k, k.current) != OwnTimer(k, o) && Safe(k.(now := later), OwnTimer(k, o))
    && (Tm(k, OwnTimer(k, o)).active ==>
          AllAhead(k, later) && (Th(k, k.current).kind.Cfs? ==> elapsed < Tm(k, k.cfsTimer).period))
  }

  ghost predicate Quiet(s: System, a: MutexStep, o: Addr) {
    match a
    case TryLock => true
    case Lock(e) => s.k.current == o || Th(s.k, s.k.current).kind.Idle? || Th(s.k, o).kind.Idle? || QuietLock(s, e, o)
    case Unlock => false
    case Other(step) => Th(s.k, o).kind.Idle? || Untouched(s.k, step, OwnTimer(s.k, o))
  }

  // The caller's own CFS timer starts a pause that lies ahead.
  lemma BlockedCfsTimer(k: Kernel, elapsed: nat, k1: Kernel)
    requires Settled(k) && k.now + elapsed < NEVER && Th(k, k.current).kind.Cfs? && Block(k, elapsed) == Ok(k1)
    requires elapsed < Tm(k, k.cfsTimer).period
    ensures Tm(k1, k.cfsTimer).expireAt > k.now + elapsed
  {
    var a := k.cfsTimer;
    assert TimerOk(k, a);
    YieldTimerCore(k, elapsed, false);
    var k0 := YieldTimer(k, a, elapsed, false);
    ParkKeeps(SetTh(k0, k.current, Th(k0, k.current).(wakeAt := NEVER)), a, k1);
  }

  // The caller's own RT timer leaves the queue.
  lemma BlockedRtTimer(k: Kernel, elapsed: nat, k1: Kernel)
    requires Settled(k) && k.now + elapsed < NEVER && Th(k, k.current).kind.Rt? && Block(k, elapsed) == Ok(k1)
    ensures !Tm(k1, Th(k, k.current).timer).queued
  {
    var a := Th(k, k.current).timer;
    assert ThreadOk(k, k.current, None) && TimerOk(k, a);
    YieldTimerCore(k, elapsed, false);
    var k0 := YieldTimer(k, a, elapsed, false);
    var k2 := SetTh(k0, k.current, Th(k0, k.current).(wakeAt := NEVER));
    ParkRtKeeps(k2, a, SetTm(k2, a, Tm(k2, a).(active := false, queued := false)), k1);
  }

  // If all timers lie ahead they still do once the caller has blocked.
  lemma BlockAhead(k: Kernel, elapsed: nat, k1: Kernel, b: Addr)
    requires Settled(k) && k.now + elapsed < NEVER && !Th(k, k.current).kind.Idle? && Block(k, elapsed) == Ok(k1)
    requires AllAhead(k, k.now + elapsed) && (Th(k, k.current).kind.Cfs? ==> elapsed < Tm(k, k.cfsTimer).period)
    requires b in QueuedSet(k1.timers) && b != k.waitTimer
    ensures Tm(k1, b).expireAt > k.now + elapsed
  {
    if b != OwnTimer(k, k.current) {
      assert b in k.timers ==> TimerOk(k, b);
      WaitUntilKeeps(k, elapsed, NEVER, b, k1);
    } else if Th(k, k.current).kind.Cfs? {
      BlockedCfsTimer(k, elapsed, k1);
    } else {
      BlockedRtTimer(k, elapsed, k1);
    }
  }

  // So the lent deadline lies ahead, too.
  lemma QuietUndisturbed(s: System, elapsed: nat, o: Addr)
    requires Sound(s) && MutexEnabled(s, Lock(elapsed)) && s.m.owner == Some(o) && s.k.current != o
    requires !Th(s.k, s.k.current).kind.Idle? && !Th(s.k, o).kind.Idle? && QuietLock(s, elapsed, o)
    ensures Undisturbed(s, elapsed, o)
  {
    var k, c := s.k, s.k.current;
    if Block(k, elapsed).Ok? && Tm(k, OwnTimer(k, o)).active {
      var k1 := Block(k, elapsed).k;
      assert ThreadOk(k, c, None) && ThreadOk(k, o, None) && TimerOk(k, OwnTimer(k, o));
      assert TimerOk(k, OwnTimer(k, c)) && OwnTimer(k, c) in QueuedSet(k.timers);
      WaitUntilKeeps(k, elapsed, NEVER, OwnTimer(k, o), k1);
      var q := QueuedSet(k1.timers) - {k1.waitTimer};
      if q != {} { BlockAhead(k, elapsed, k1, Least(q, Expiries(k1.timers))); }
    }
  }

  // ---------- How far a boost goes ----------

  // `x` is the least of the owner's own deadline, the waiter's and the expiries of the queued timers but the wait
  // timer.
  ghost predicate LeastDeadline(x: nat, own: nat, waiter: nat, k1: Kernel) {
    && x <= own && x <= waiter
    && (forall b :: b in k1.timers && Tm(k1, b).queued && b != k1.waitTimer ==> x <= Tm(k1, b).expireAt)
    && (x == own || x == waiter ||
        exists b :: b in k1.timers && Tm(k1, b).queued && b != k1.waitTimer && x == Tm(k1, b).expireAt)
  }

  lemma TargetIsLeast(k1: Kernel, own: nat, waiter: nat)
    requires own <= NEVER
    ensures LeastDeadline(if BoostTarget(k1, waiter) < own then BoostTarget(k1, waiter) else own, own, waiter, k1)
  {
    var q := QueuedSet(k1.timers) - {k1.waitTimer};
    assert forall b :: b in k1.timers && Tm(k1, b).queued && b != k1.waitTimer ==> b in q;
    if q != {} { assert IsLeast(q, Expiries(k1.timers), Least(q, Expiries(k1.timers))); }
  }

  // The boost of `o` by `c` as the rest of a contended `lock`.
  lemma Lends(s: System, elapsed: nat, o: Addr, k1: Kernel, s': System)
    requires LockContended(s, elapsed) == Next(s') && s.m.owner == Some(o) && Block(s.k, elapsed) == Ok(k1)
    requires !(Th(k1, o).kind.Cfs? && Th(k1, s.k.current).kind.Cfs?)
    requires Inv(k1) && o in k1.threads && !Th(k1, o).kind.Idle?
    requires var d := Tm(s.k, OwnTimer(s.k, s.k.current)).expireAt;
      Tm(k1, OwnTimer(k1, o)).active ==> BoostTarget(k1, d) > k1.now
    ensures var a, d := OwnTimer(k1, o), Tm(s.k, OwnTimer(s.k, s.k.current)).expireAt;
      var own := Tm(k1, a).expireAt;
      var falls := BoostTarget(k1, d) < own;
      && Tm(s'.k, a) == Tm(k1, a).(expireAt := if falls then BoostTarget(k1, d) else own)
      && s'.m.boosted == (s.m.boosted || falls)
      && s'.m.original == (if falls && !s.m.boosted then own else s.m.original)
  {
    var d := Tm(s.k, OwnTimer(s.k, s.k.current)).expireAt;
    if Boosts(k1, o, s.k.current, d) { BoostTimer(k1, o, BoostTarget(k1, d), s'.k); }
  }

  // After a contended `lock`, unless owner and waiter are both CFS threads, the owner's timer expires at the least of
  // these deadlines, with its flags kept. The mutex is boosted from the first time this has lowered it on, and then
  // remembers what it was. (Expiries are 64 bits wide.)
  lemma LockLends(s: System, elapsed: nat, o: Addr, k1: Kernel, s': System)
    requires Sound(s) && MutexEnabled(s, Lock(elapsed)) && s.m.owner == Some(o) && s.k.current != o
    requires !Th(s.k, s.k.current).kind.Idle? && !Th(s.k, o).kind.Idle? && QuietLock(s, elapsed, o)
    requires !(Th(s.k, o).kind.Cfs? && Th(s.k, s.k.current).kind.Cfs?)
    requires Block(s.k, elapsed) == Ok(k1) && MutexApply(s, Lock(elapsed)) == Next(s')
    ensures var a, k := OwnTimer(s.k, o), s.k;
      var own, x := Tm(k, a).expireAt, Tm(s'.k, a).expireAt;
      && Tm(s'.k, a) == Tm(k, a).(expireAt := x)
      && (own <= NEVER ==> LeastDeadline(x, own, Tm(k, OwnTimer(k, k.current)).expireAt, k1))
      && s'.m.boosted == (s.m.boosted || x < own)
      && s'.m.original == (if x < own && !s.m.boosted then own else s.m.original)
  {
    var d, own := Tm(s.k, OwnTimer(s.k, s.k.current)).expireAt, Tm(s.k, OwnTimer(s.k, o)).expireAt;
    QuietUndisturbed(s, elapsed, o);
    BlockLeaves(s, elapsed, o, k1);
    BlockKinds(s.k, elapsed, k1);
    Lends(s, elapsed, o, k1, s');
    if own <= NEVER { TargetIsLeast(k1, own, d); }
  }

  lemma BlockKinds(k: Kernel, elapsed: nat, k1: Kernel)
    requires Settled(k) && k.now + elapsed < NEVER && !Th(k, k.current).kind.Idle? && Block(k, elapsed) == Ok(k1)
    ensures Th(k1, k.current).kind == Th(k, k.current).kind
  {
    WaitUntilInv(k, elapsed, NEVER);
  }

  lemma LendsNothing(s: System, elapsed: nat, o: Addr, k1: Kernel, s': System)
    requires LockContended(s, elapsed) == Next(s') && s.m.owner == Some(o) && Block(s.k, elapsed) == Ok(k1)
    requires Th(k1, o).kind.Idle? || (Th(k1, o).kind.Cfs? && Th(k1, s.k.current).kind.Cfs?)
    ensures var d := Tm(s.k, OwnTimer(s.k, s.k.current)).expireAt;
      s'.k == k1 && s'.m.boosted == (s.m.boosted || (Th(k1, o).kind.Idle? && BoostTarget(k1, d) < NEVER))
    ensures Th(k1, o).kind.Cfs? ==> s'.m.original == s.m.original
  {
  }

  // Two CFS threads share the slice timer: then nothing is lent.
  lemma CfsLendsNothing(s: System, elapsed: nat, o: Addr, k1: Kernel, s': System)
    requires Sound(s) && MutexEnabled(s, Lock(elapsed)) && s.m.owner == Some(o) && s.k.current != o
    requires Th(s.k, o).kind.Cfs? && Th(s.k, s.k.current).kind.Cfs?
    requires Block(s.k, elapsed) == Ok(k1) && MutexApply(s, Lock(elapsed)) == Next(s')
    ensures s'.k == k1 && s'.m.boosted == s.m.boosted && s'.m.original == s.m.original
  {
    WaitUntilInv(s.k, elapsed, NEVER);
    LendsNothing(s, elapsed, o, k1, s');
  }

  // The idle thread has no deadline to lower, but counts as boosted as soon as there is one it could have been lent.
  lemma IdleLendsNothing(s: System, elapsed: nat, o: Addr, k1: Kernel, s': System, x: nat)
    requires Sound(s) && MutexEnabled(s, Lock(elapsed)) && s.m.owner == Some(o) && s.k.current != o
    requires !Th(s.k, s.k.current).kind.Idle? && Th(s.k, o).kind.Idle?
    requires Block(s.k, elapsed) == Ok(k1) && MutexApply(s, Lock(elapsed)) == Next(s')
    requires LeastDeadline(x, NEVER, Tm(s.k, OwnTimer(s.k, s.k.current)).expireAt, k1)
    ensures s'.k == k1 && s'.m.boosted == (s.m.boosted || x < NEVER)
  {
    WaitUntilInv(s.k, elapsed, NEVER);
    LendsNothing(s, elapsed, o, k1, s');
    TargetIsLeast(k1, NEVER, Tm(s.k, OwnTimer(s.k, s.k.current)).expireAt);
  }

  // ---------- From taking the mutex to giving it back ----------

  // Every quiet step keeps what the mutex remembers about its owner.
  lemma StepLent(s: System, a: MutexStep, o: Addr, base: nat)
    requires Sound(s) && MutexEnabled(s, a) && MutexApply(s, a).Next? && Quiet(s, a, o) && Lent(s, o, base)
    ensures Lent(MutexApply(s, a).s, o, base)
  {
    var c := s.k.current;
    if a.Lock? && c != o && !Th(s.k, c).kind.Idle? {
      var k1, s' := Block(s.k, a.elapsed).k, LockContended(s, a.elapsed).s;
      if Th(s.k, o).kind.Idle? {
        BoostIdle(s, a.elapsed, o, base, k1, s');
      } else {
        QuietUndisturbed(s, a.elapsed, o);
        BoostLowers(s, a.elapsed, o, base, k1, s');
      }
    } else if a.Other? {
      OtherSteady(s, a.step, o, Apply(s.k, a.step).k);
    }
  }

  // A kernel step under its guard leaves the owner's deadline as it is.
  lemma OtherSteady(s: System, step: Step, o: Addr, k': Kernel)
    requires Sound(s) && MutexEnabled(s, Other(step)) && Apply(s.k, step) == Ok(k') && s.m.owner == Some(o)
    requires Quiet(s, Other(step), o)
    ensures SchedulerExpiry(k', o) == SchedulerExpiry(s.k, o) && Th(k', o).kind == Th(s.k, o).kind
  {
    var k, a := s.k, OwnTimer(s.k, o);
    assert ThreadOk(k, o, None) && TimerOk(k, k.cfsTimer);
    StepInv(k, step);
    StepKind(k, step, o);
    if !Th(k, o).kind.Idle? {
      StepLeaves(k, step, a, k');
      SameOwnTimer(k, o, k');
    }
  }

  ghost predicate QuietRun(s: System, steps: seq<MutexStep>, o: Addr)
    requires Sound(s)
    decreases |steps|
  {
    steps == [] || (MutexEnabled(s, steps[0]) && MutexApply(s, steps[0]).Next? ==>
      Quiet(s, steps[0], o) && (MutexStepSound(s, steps[0]); QuietRun(MutexApply(s, steps[0]).s, steps[1..], o)))
  }

  // However many boosts a run makes, the mutex still remembers the deadline from before the first.
  lemma {:induction false} RunLent(s: System, steps: seq<MutexStep>, o: Addr, base: nat, s': System)
    requires Sound(s) && MutexReaches(s, steps, s') && QuietRun(s, steps, o) && Lent(s, o, base)
    ensures Sound(s') && Lent(s', o, base)
    decreases |steps|
  {
    if steps != [] {
      MutexStepSound(s, steps[0]);
      StepLent(s, steps[0], o, base);
      RunLent(MutexApply(s, steps[0]).s, steps[1..], o, base, s');
    }
  }

  lemma RestoreBase(s: System, o: Addr, base: nat, k1: Kernel)
    requires Sound(s) && o == s.k.current && Lent(s, o, base) && Restore(s.k, s.m, o) == Ok(k1)
    requires Tm(s.k, OwnTimer(s.k, o)).active ==> base > s.k.now
    ensures Inv(k1) && SchedulerExpiry(k1, o) == base && SameThreads(s.k, k1)
    ensures !Th(k1, o).kind.Idle? ==> Safe(k1, OwnTimer(k1, o))
  {
    if s.m.boosted {
      SetExpireInv(s.k, o, base);
      if !Th(s.k, o).kind.Idle? { BoostTimer(s.k, o, base, k1); RekeyClock(s.k, o, base, k1); }
    }
  }

  lemma RekeyClock(k: Kernel, t: Addr, e: nat, k': Kernel)
    requires SetExpire(k, t, e) == Ok(k')
    ensures k'.now == k.now
  {
  }

  lemma HandOffKeeps(s: System, o: Addr, k1: Kernel, t: Addr, k': Kernel)
    requires Sound(s) && Inv(k1) && SameThreads(s.k, k1) && s.m.owner == Some(o) && t in s.m.waiters
    requires k1.current == o && Wake(k1, t) == Ok(k')
    requires !Th(k1, o).kind.Idle? ==> Safe(k1, OwnTimer(k1, o))
    ensures SchedulerExpiry(k', o) == SchedulerExpiry(k1, o)
  {
    var a := OwnTimer(k1, o);
    assert ThreadOk(k1, t, None) && ThreadOk(k1, o, None);
    WakeInv(k1, t);
    if !Th(k1, o).kind.Idle? {
      assert TimerOk(k1, a);
      WakeKeeps(k1, t, a, k');
    }
  }

  // Unlocking gives the owner the deadline `base` back, also past the wake-up of the next owner.
  lemma UnlockRestores(s: System, o: Addr, base: nat, k1: Kernel, s': System)
    requires Sound(s) && MutexEnabled(s, Unlock) && o == s.k.current && Lent(s, o, base)
    requires Restore(s.k, s.m, o) == Ok(k1) && Unlocked(s) == Next(s')
    requires Tm(s.k, OwnTimer(s.k, o)).active ==> base > s.k.now
    ensures SchedulerExpiry(s'.k, o) == base && !s'.m.boosted
  {
    RestoreBase(s, o, base, k1);
    if s.m.waiters != {} { HandOffKeeps(s, o, k1, Least(s.m.waiters, s.m.deadline), s'.k); }
  }

  // The whole episode: `o` takes the free mutex, anything happens that leaves its timer alone, any number of threads
  // queue up and boost it, and when it unlocks it is back on the deadline it started with.
  lemma InheritanceRestored(s: System, steps: seq<MutexStep>, o: Addr, s1: System, k1: Kernel, s': System)
    requires Sound(s) && s.m.owner == Some(o) && !s.m.boosted
    requires MutexReaches(s, steps, s1) && QuietRun(s, steps, o)
    requires MutexEnabled(s1, Unlock) && o == s1.k.current
    requires Restore(s1.k, s1.m, o) == Ok(k1) && s1.m.waiters <= s1.m.deadline.Keys && Unlocked(s1) == Next(s')
    requires Tm(s1.k, OwnTimer(s1.k, o)).active ==> SchedulerExpiry(s.k, o) > s1.k.now
    ensures SchedulerExpiry(s'.k, o) == SchedulerExpiry(s.k, o) && !s'.m.boosted
  {
    RunLent(s, steps, o, SchedulerExpiry(s.k, o), s1);
    UnlockRestores(s1, o, SchedulerExpiry(s.k, o), k1, s');
  }
}
