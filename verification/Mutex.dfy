/** The scheduler mutex with deadline inheritance (src/sync.rs) inside the running scheduler. */
module Mutexes {
  import opened Kernel
  import opened Location
  import opened Runs

  // `boosted` and `original` are `owner_boosted` and `owner_original_deadline_at`.
  datatype Mutex = Mutex(owner: Opt<Addr>, waiters: set<Addr>, deadline: map<Addr, int>, boosted: bool, original: nat)

  // `guards` are the threads holding a guard: the owner, and the waiters inside a blocked `lock`.
  datatype System = System(k: Kernel, m: Mutex, guards: set<Addr>)

  datatype Result = Next(s: System) | Halted

  // ---------- Deadlines ----------

  // `thread_scheduler_expire_at`
  function SchedulerExpiry(k: Kernel, t: Addr): nat {
    if Th(k, t).kind.Idle? then NEVER else Tm(k, OwnTimer(k, t)).expireAt
  }

  // `earliest_queued_scheduler_expire_at`: the wait timer does not count.
  ghost function EarliestScheduler(k: Kernel): nat {
    var s := QueuedSet(k.timers) - {k.waitTimer};
    if s == {} then NEVER else Tm(k, Least(s, Expiries(k.timers))).expireAt
  }

  ghost function BoostTarget(k: Kernel, waiterDeadline: nat): nat {
    if waiterDeadline < EarliestScheduler(k) then waiterDeadline else EarliestScheduler(k)
  }

  // `boost_owner_deadline` has an effect
  ghost predicate Boosts(k: Kernel, owner: Addr, waiter: Addr, waiterDeadline: nat) {
    !(Th(k, owner).kind.Cfs? && Th(k, waiter).kind.Cfs?) && BoostTarget(k, waiterDeadline) < SchedulerExpiry(k, owner)
  }

  // ---------- Steps ----------

  datatype MutexStep = TryLock | Lock(elapsed: nat) | Unlock | Other(step: Step)

  ghost predicate Sound(s: System) {
    && Inv(s.k) && s.m.waiters <= s.m.deadline.Keys
    && s.guards == s.m.waiters + (if s.m.owner.Some? then {s.m.owner.v} else {})
    && (s.m.owner.None? ==> s.m.waiters == {} && !s.m.boosted)
    && (s.m.owner.Some? ==> s.m.owner.v in s.k.threads && s.m.owner.v !in s.m.waiters)
    && (forall t :: t in s.m.waiters ==> t in s.k.suspended)
  }

  // A guard is used by the thread that holds it, and only the mutex wakes its waiters.
  ghost predicate MutexEnabled(s: System, a: MutexStep) {
    match a
    case TryLock => Th(s.k, s.k.current).state.Running?
    case Lock(e) => s.k.now + e < NEVER && Th(s.k, s.k.current).state.Running?
    case Unlock => Th(s.k, s.k.current).state.Running? && s.k.current in s.guards
    case Other(step) => Enabled(s.k, step) && (step.WakeUp? ==> step.thread !in s.m.waiters)
  }

  // `lock` of an owned mutex: block, register, then lend the owner an earlier deadline.
  ghost function LockContended(s: System, elapsed: nat): Result
  {
    var c := s.k.current;
    var d := Tm(s.k, OwnTimer(s.k, c)).expireAt;
    match Block(s.k, elapsed)
    case Missed(_) => Halted
    case Ok(k1) =>
      var m1 := s.m.(waiters := s.m.waiters + {c}, deadline := s.m.deadline[c := d]);
      if s.m.owner.None? || !Boosts(k1, s.m.owner.v, c, d) then Next(System(k1, m1, s.guards + {c}))
      else
        var o := s.m.owner.v;
        var m2 := if m1.boosted then m1 else m1.(boosted := true, original := SchedulerExpiry(k1, o));
        match SetExpire(k1, o, BoostTarget(k1, d))
        case Missed(_) => Halted
        case Ok(k2) => Next(System(k2, m2, s.guards + {c}))
  }

  // `restore_owner_deadline`
  ghost function Restore(k: Kernel, m: Mutex, owner: Addr): Outcome {
    if m.boosted then SetExpire(k, owner, m.original) else Ok(k)
  }

  // `unlock_guard`: restore, then hand the mutex to the waiter with the least (deadline, address).
  ghost function Unlocked(s: System): Result
    requires s.m.waiters <= s.m.deadline.Keys
  {
    var c := s.k.current;
    match Restore(s.k, s.m, c)
    case Missed(_) => Halted
    case Ok(k1) =>
      var m1 := if s.m.boosted then s.m.(boosted := false, original := 0) else s.m;
      if s.m.waiters == {} then Next(System(k1, m1.(owner := None), s.guards - {c}))
      else
        var t := Least(s.m.waiters, s.m.deadline);
        match Wake(k1, t)
        case Missed(_) => Halted
        case Ok(k2) => Next(System(k2, m1.(owner := Some(t), waiters := s.m.waiters - {t}), s.guards - {c}))
  }

  // The two halves of an unlock: `r` restores, `w` wakes the new owner if there is one.
  lemma UnlockedIs(s: System, r: Outcome, w: Outcome)
    requires s.m.waiters <= s.m.deadline.Keys && r == Restore(s.k, s.m, s.k.current)
    requires s.m.waiters != {} && r.Ok? ==> w == Wake(r.k, Least(s.m.waiters, s.m.deadline))
    ensures var m1 := if s.m.boosted then s.m.(boosted := false, original := 0) else s.m;
      Unlocked(s) == if r.Missed? then Halted
        else if s.m.waiters == {} then Next(System(r.k, m1.(owner := None), s.guards - {s.k.current}))
        else if w.Missed? then Halted
        else var t := Least(s.m.waiters, s.m.deadline);
          Next(System(w.k, m1.(owner := Some(t), waiters := s.m.waiters - {t}), s.guards - {s.k.current}))
  {
  }

  ghost function MutexApply(s: System, a: MutexStep): Result
    requires Sound(s) && MutexEnabled(s, a)
  {
    var c := s.k.current;
    match a
    case TryLock => Next(if s.m.owner.None? then s.(m := s.m.(owner := Some(c)), guards := s.guards + {c}) else s)
    case Lock(e) =>
      if s.m.owner.None? then Next(s.(m := s.m.(owner := Some(c)), guards := s.guards + {c}))
      else if s.m.owner == Some(c) || Th(s.k, c).kind.Idle? then Next(s)
      else LockContended(s, e)
    case Unlock => Unlocked(s)
    case Other(step) => (match Apply(s.k, step) case Missed(_) => Halted case Ok(k') => Next(s.(k := k')))
  }

  // ---------- Safety ----------

  // Whoever runs and holds a guard is the owner, so the ownership check of `unlock_guard` never fails.
  lemma RunningGuardOwns(s: System)
    requires Sound(s) && Th(s.k, s.k.current).state.Running? && s.k.current in s.guards
    ensures s.m.owner == Some(s.k.current)
  {
    assert ThreadOk(s.k, s.k.current, None);
  }

  // At most one unblocked thread holds a guard.
  lemma MutualExclusion(s: System, a: Addr, b: Addr)
    requires Sound(s) && a in s.guards && b in s.guards
    requires !IsBlocked(Th(s.k, a).state) && !IsBlocked(Th(s.k, b).state)
    ensures a == b
  {
    assert a in s.k.threads ==> ThreadOk(s.k, a, None);
    assert b in s.k.threads ==> ThreadOk(s.k, b, None);
  }

  lemma LockSound(s: System, elapsed: nat, k1: Kernel, k2: Kernel, m2: Mutex)
    requires Sound(s) && MutexEnabled(s, Lock(elapsed)) && s.m.owner.Some? && s.m.owner != Some(s.k.current)
    requires !Th(s.k, s.k.current).kind.Idle? && Block(s.k, elapsed) == Ok(k1)
    requires k2 == k1 || (exists e :: SetExpire(k1, s.m.owner.v, e) == Ok(k2))
    requires m2.owner == s.m.owner && m2.waiters == s.m.waiters + {s.k.current} && m2.waiters <= m2.deadline.Keys
    ensures Sound(System(k2, m2, s.guards + {s.k.current}))
  {
    WaitUntilInv(s.k, elapsed, NEVER);
    if k2 != k1 {
      var e :| SetExpire(k1, s.m.owner.v, e) == Ok(k2);
      SetExpireInv(k1, s.m.owner.v, e);
    }
  }

  // The waiter `t` was woken and is now the owner; everybody else is where they were.
  lemma OwnerWoken(s: System, k1: Kernel, t: Addr, s': System)
    requires Sound(s) && s.m.owner == Some(s.k.current) && t in s.m.waiters
    requires SameThreads(s.k, k1) && Inv(s'.k) && OnlyWakes(k1, s'.k, t)
    requires s'.m.owner == Some(t) && s'.m.waiters == s.m.waiters - {t} && s'.m.deadline == s.m.deadline
    requires s'.guards == s.guards - {s.k.current}
    ensures Sound(s')
  {
  }

  lemma HandOverSound(s: System, k1: Kernel, t: Addr, k2: Kernel, s': System)
    requires Sound(s) && s.m.owner == Some(s.k.current) && t in s.m.waiters
    requires Inv(k1) && SameThreads(s.k, k1) && Wake(k1, t) == Ok(k2)
    requires s'.k == k2 && s'.m.owner == Some(t) && s'.m.waiters == s.m.waiters - {t} && s'.m.deadline == s.m.deadline
    requires s'.guards == s.guards - {s.k.current}
    ensures Sound(s')
  {
    assert ThreadOk(k1, t, None);
    WakeInv(k1, t);
    OwnerWoken(s, k1, t, s');
  }

  lemma UnlockSound(s: System, k1: Kernel, s': System)
    requires Sound(s) && MutexEnabled(s, Unlock) && Restore(s.k, s.m, s.k.current) == Ok(k1) && Unlocked(s) == Next(s')
    ensures Sound(s')
  {
    RunningGuardOwns(s);
    if s.m.boosted { SetExpireInv(s.k, s.k.current, s.m.original); }
    if s.m.waiters != {} { HandOverSound(s, k1, Least(s.m.waiters, s.m.deadline), s'.k, s'); }
  }

  lemma OtherSound(s: System, step: Step, k': Kernel)
    requires Sound(s) && MutexEnabled(s, Other(step)) && Apply(s.k, step) == Ok(k')
    ensures Sound(s.(k := k'))
  {
    StepInv(s.k, step);
    forall t | t in s.m.waiters ensures t in k'.suspended { KeepsSuspended(s.k, step, t); }
  }

  lemma ContendedSound(s: System, e: nat, k1: Kernel, s': System)
    requires Sound(s) && MutexEnabled(s, Lock(e)) && s.m.owner.Some? && s.m.owner != Some(s.k.current)
    requires !Th(s.k, s.k.current).kind.Idle? && Block(s.k, e) == Ok(k1) && LockContended(s, e) == Next(s')
    ensures Sound(s')
  {
    LockSound(s, e, k1, s'.k, s'.m);
  }

  lemma LockStepSound(s: System, e: nat)
    requires Sound(s) && MutexEnabled(s, Lock(e)) && MutexApply(s, Lock(e)).Next?
    ensures Sound(MutexApply(s, Lock(e)).s)
  {
    if s.m.owner.Some? && s.m.owner != Some(s.k.current) && !Th(s.k, s.k.current).kind.Idle? {
      ContendedSound(s, e, Block(s.k, e).k, LockContended(s, e).s);
    }
  }

  lemma MutexStepSound(s: System, a: MutexStep)
    requires Sound(s) && MutexEnabled(s, a) && MutexApply(s, a).Next?
    ensures Sound(MutexApply(s, a).s)
  {
    match a
    case TryLock =>
    case Lock(e) => LockStepSound(s, e);
    case Unlock => UnlockSound(s, Restore(s.k, s.m, s.k.current).k, Unlocked(s).s);
    case Other(step) => OtherSound(s, step, Apply(s.k, step).k);
  }

  // Unlocking passes ownership to the waiter with the least (deadline, address), which becomes ready and leaves the
  // suspended list; without waiters the mutex becomes free. The other waiters stay where they are, and what the mutex
  // remembered about a boost is cleared.
  lemma UnlockHandsOver(s: System, k1: Kernel, s': System)
    requires Sound(s) && MutexEnabled(s, Unlock) && Restore(s.k, s.m, s.k.current) == Ok(k1) && Unlocked(s) == Next(s')
    ensures s.m.waiters == {} ==> s'.m.owner.None? && s'.k == k1
    ensures s.m.waiters != {} ==>
      && s'.m.owner.Some? && IsLeast(s.m.waiters, s.m.deadline, s'.m.owner.v)
      && s'.m.waiters == s.m.waiters - {s'.m.owner.v}
      && Th(s'.k, s'.m.owner.v).state.Ready? && s'.k.current == s.k.current
    ensures s'.guards == s.guards - {s.k.current} && s'.m.deadline == s.m.deadline
    ensures !s'.m.boosted && (s.m.boosted ==> s'.m.original == 0)
  {
    RunningGuardOwns(s);
    if s.m.boosted { SetExpireInv(s.k, s.k.current, s.m.original); }
    if s.m.waiters != {} {
      var t := Least(s.m.waiters, s.m.deadline);
      assert ThreadOk(s.k, t, None) && ThreadOk(k1, t, None);
      WakeInv(k1, t);
    }
  }

  // ---------- What the calls answer ----------

  // A free mutex is taken on the spot, by either call. The owner itself and the idle thread get an error from `lock`,
  // and whoever finds it taken gets one from `try_lock`. In all these cases nothing else changes.
  lemma LockAtOnce(s: System, a: MutexStep)
    requires Sound(s) && MutexEnabled(s, a) && (a.TryLock? || a.Lock?)
    requires s.m.owner.Some? ==> a.TryLock? || s.m.owner.v == s.k.current || Th(s.k, s.k.current).kind.Idle?
    ensures MutexApply(s, a) == Next(
      if s.m.owner.None? then
        System(s.k, Mutex(Some(s.k.current), {}, s.m.deadline, false, s.m.original), {s.k.current})
      else s)
  {
  }

  // After the block only the deadline of the owner may change.
  lemma LockRekeys(s: System, elapsed: nat, k1: Kernel, s': System)
    requires Sound(s) && MutexEnabled(s, Lock(elapsed)) && LockContended(s, elapsed) == Next(s')
    requires Block(s.k, elapsed) == Ok(k1) && Inv(k1) && s.m.owner.Some? && s.m.owner.v in k1.threads
    ensures SameThreads(k1, s'.k)
  {
    var o, d := s.m.owner.v, Tm(s.k, OwnTimer(s.k, s.k.current)).expireAt;
    if Boosts(k1, o, s.k.current, d) { SetExpireInv(k1, o, BoostTarget(k1, d)); }
  }

  lemma LockEnrolls(s: System, elapsed: nat, s': System)
    requires LockContended(s, elapsed) == Next(s') && s.m.owner.Some?
    ensures s'.m == s.m.(waiters := s.m.waiters + {s.k.current}, boosted := s'.m.boosted, original := s'.m.original,
      deadline := s.m.deadline[s.k.current := Tm(s.k, OwnTimer(s.k, s.k.current)).expireAt])
    ensures s'.guards == s.guards + {s.k.current}
  {
  }

  // Otherwise the caller leaves the CPU for the end of the suspended list and queues up under the expiry that its timer
  // had, behind the same owner and beside the other waiters.
  lemma LockQueues(s: System, elapsed: nat, k1: Kernel, s': System)
    requires Sound(s) && MutexEnabled(s, Lock(elapsed)) && MutexApply(s, Lock(elapsed)) == Next(s')
    requires s.m.owner.Some? && s.m.owner.v != s.k.current && !Th(s.k, s.k.current).kind.Idle?
    requires Block(s.k, elapsed) == Ok(k1)
    ensures var k, c := s.k, s.k.current; var a := if Th(k, c).kind.Rt? then Th(k, c).timer else k.cfsTimer;
      && s'.m.owner == s.m.owner && s'.m.waiters == s.m.waiters + {c} && c !in s.m.waiters
      && s'.m.deadline == s.m.deadline[c := Tm(k, a).expireAt] && s'.guards == s.guards + {c}
    ensures s'.k.suspended == s.k.suspended + [s.k.current] && s'.k.current == s.k.current
  {
    assert ThreadOk(s.k, s.k.current, None);
    WaitUntilInv(s.k, elapsed, NEVER);
    LockEnrolls(s, elapsed, s');
    LockRekeys(s, elapsed, k1, s');
  }

  // ---------- Runs ----------

  ghost predicate MutexReaches(s: System, steps: seq<MutexStep>, s': System)
    requires Sound(s)
    decreases |steps|
  {
    if steps == [] then s' == s else
      && MutexEnabled(s, steps[0]) && MutexApply(s, steps[0]).Next?
      && (MutexStepSound(s, steps[0]); MutexReaches(MutexApply(s, steps[0]).s, steps[1..], s'))
  }

  // In every reachable state at most one unblocked thread holds a guard, it is the owner, all waiters are
  // suspended, and a free mutex has none.
  lemma {:induction false} MutexRun(s: System, steps: seq<MutexStep>, s': System)
    requires Sound(s) && MutexReaches(s, steps, s')
    ensures Sound(s')
    ensures forall a, b ::
      a in s'.guards && b in s'.guards && !IsBlocked(Th(s'.k, a).state) && !IsBlocked(Th(s'.k, b).state) ==> a == b
    ensures Th(s'.k, s'.k.current).state.Running? && s'.k.current in s'.guards ==> s'.m.owner == Some(s'.k.current)
    decreases |steps|
  {
    if steps == [] {
      forall a, b | a in s'.guards && b in s'.guards && !IsBlocked(Th(s'.k, a).state) && !IsBlocked(Th(s'.k, b).state)
        ensures a == b { MutualExclusion(s', a, b); }
      if Th(s'.k, s'.k.current).state.Running? && s'.k.current in s'.guards { RunningGuardOwns(s'); }
    } else {
      MutexStepSound(s, steps[0]);
      MutexRun(MutexApply(s, steps[0]).s, steps[1..], s');
    }
  }
}
