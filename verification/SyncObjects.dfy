/** Semaphore and mutex objects as the program runs them (src/sync.rs): each method updates the object's fields and
    calls the scheduler, and is proved to be the step of the same name in modules Semaphores and Mutexes. */
module SyncObjects {
  import opened Kernel
  import opened Location
  import opened Schedulers
  import S = Semaphores
  import M = Mutexes

  // `NotFound` is what the idle thread gets, which cannot block.
  datatype Answer = Granted | Parked | WouldBlock | WouldDeadlock | NotFound

  // Blocking keeps the invariant and everybody's existence.
  lemma BlockedThen(k: Kernel, elapsed: nat, k1: Kernel, o: Addr)
    requires Settled(k) && k.now + elapsed < NEVER && !Th(k, k.current).kind.Idle? && Block(k, elapsed) == Ok(k1)
    requires o in k.threads
    ensures Inv(k1) && o in k1.threads && k.current in k1.threads
  {
    WaitUntilInv(k, elapsed, NEVER);
  }

  class Semaphore {
    var count: nat
    const max: nat
    var waiters: set<Addr>
    var deadline: map<Addr, int>
    ghost var granted: nat
    ghost var given: nat

    ghost function Sys(sched: Scheduler): S.System
      reads this, sched
    { S.System(sched.State(), S.Sem(count, max, waiters, deadline), granted, given) }

    constructor (initial: nat, maximum: nat)
      requires initial <= maximum
      ensures count == initial && max == maximum && waiters == {} && granted == 0 && given == 0
    {
      count, max, waiters, deadline, granted, given := initial, maximum, {}, map[], 0, 0;
    }

    method TryTake(sched: Scheduler, ghost initial: nat) returns (r: Answer)
      requires S.SemInv(Sys(sched), initial)
      modifies this`count, this`granted
      ensures S.SemApply(old(Sys(sched)), S.TryTake) == S.Next(Sys(sched)) && S.SemInv(Sys(sched), initial)
      ensures r == if old(count) > 0 then Granted else WouldBlock
    {
      if count == 0 { return WouldBlock; }
      count, granted := count - 1, granted + 1;
      return Granted;
    }

    // The caller is suspended and registered under the deadline it had.
    method Enroll(sched: Scheduler, elapsed: nat) returns (missed: Opt<Addr>)
      requires Settled(sched.State()) && sched.now + elapsed < NEVER && !sched.threads[sched.current].kind.Idle?
      modifies this`waiters, this`deadline, sched
      ensures OutcomeOf(missed, sched.State()) == Block(old(sched.State()), elapsed)
      ensures missed.None? ==>
        var c, k := old(sched.current), old(sched.State());
        waiters == old(waiters) + {c} && deadline == old(deadline)[c := Tm(k, OwnTimer(k, c)).expireAt]
    {
      var c := sched.current;
      var d;
      missed, d := sched.BlockCurrent(elapsed);
      if missed.None? { waiters, deadline := waiters + {c}, deadline[c := d.v]; }
    }

    // Takes a token or suspends the caller and registers it under the deadline it had.
    method Take(sched: Scheduler, elapsed: nat, ghost initial: nat) returns (r: Answer, missed: Opt<Addr>)
      requires S.SemInv(Sys(sched), initial) && S.SemEnabled(Sys(sched), S.TakeOrBlock(elapsed))
      modifies this, sched
      ensures if missed.Some? then S.SemApply(old(Sys(sched)), S.TakeOrBlock(elapsed)).Halted?
        else S.SemApply(old(Sys(sched)), S.TakeOrBlock(elapsed)) == S.Next(Sys(sched)) && S.SemInv(Sys(sched), initial)
      ensures missed.None? ==> r == if old(count) > 0 then Granted
        else if Th(old(sched.State()), old(sched.current)).kind.Idle? then NotFound else Parked
    {
      ghost var s := Sys(sched);
      if count > 0 {
        count, granted := count - 1, granted + 1;
        return Granted, None;
      }
      if sched.threads[sched.current].kind.Idle? { return NotFound, None; }
      missed := Enroll(sched, elapsed);
      S.TakeIs(s, elapsed, OutcomeOf(missed, sched.State()));
      r := Parked;
      if missed.None? { S.SemStepInv(s, S.TakeOrBlock(elapsed), initial); }
    }

    // The most urgent waiter gets the token directly.
    method Pass(sched: Scheduler) returns (missed: Opt<Addr>)
      requires Inv(sched.State()) && waiters <= deadline.Keys && waiters != {}
      requires forall t :: t in waiters ==> t in sched.suspended
      modifies this`waiters, this`granted, this`given, sched
      ensures var t := Least(old(waiters), deadline);
        && OutcomeOf(missed, sched.State()) == Wake(old(sched.State()), t) && waiters == old(waiters) - {t}
        && granted == old(granted) + 1 && given == old(given) + 1
    {
      var t := Least(waiters, deadline);
      assert ThreadOk(sched.State(), t, None);
      waiters, granted, given := waiters - {t}, granted + 1, given + 1;
      missed := sched.WakeWaiter(t);
    }

    // Without a waiter the token is stored if it fits.
    method PassOrStore(sched: Scheduler) returns (missed: Opt<Addr>)
      requires Inv(sched.State()) && waiters <= deadline.Keys
      requires forall t :: t in waiters ==> t in sched.suspended
      modifies this, sched
      ensures deadline == old(deadline)
      ensures old(waiters) != {} ==>
        var t := Least(old(waiters), deadline);
        && OutcomeOf(missed, sched.State()) == Wake(old(sched.State()), t) && waiters == old(waiters) - {t}
        && granted == old(granted) + 1 && given == old(given) + 1 && count == old(count)
      ensures old(waiters) == {} ==>
        && missed.None? && sched.State() == old(sched.State()) && waiters == {} && granted == old(granted)
        && (if old(count) < max then count == old(count) + 1 && given == old(given) + 1
            else count == old(count) && given == old(given))
    {
      missed := None;
      if waiters != {} {
        missed := Pass(sched);
      } else if count < max {
        count, given := count + 1, given + 1;
      }
    }

    // Wakes the most urgent waiter, or stores the token if it fits.
    method Give(sched: Scheduler, ghost initial: nat) returns (ok: bool, missed: Opt<Addr>)
      requires S.SemInv(Sys(sched), initial) && S.SemEnabled(Sys(sched), S.GiveOne)
      modifies this, sched
      ensures if missed.Some? then S.SemApply(old(Sys(sched)), S.GiveOne).Halted?
        else S.SemApply(old(Sys(sched)), S.GiveOne) == S.Next(Sys(sched)) && S.SemInv(Sys(sched), initial)
      ensures ok <==> old(waiters) != {} || old(count) < max
    {
      ghost var s := Sys(sched);
      ok := waiters != {} || count < max;
      missed := PassOrStore(sched);
      S.GiveIs(s, OutcomeOf(missed, sched.State()));
      if missed.None? { S.SemStepInv(s, S.GiveOne, initial); }
    }
  }

  class Mutex {
    var owner: Opt<Addr>
    var waiters: set<Addr>
    var deadline: map<Addr, int>
    var ownerBoosted: bool
    var ownerOriginal: nat
    ghost var guards: set<Addr>

    ghost function Sys(sched: Scheduler): M.System
      reads this, sched
    { M.System(sched.State(), M.Mutex(owner, waiters, deadline, ownerBoosted, ownerOriginal), guards) }

    constructor ()
      ensures owner.None? && waiters == {} && !ownerBoosted && guards == {}
    {
      owner, waiters, deadline, ownerBoosted, ownerOriginal, guards := None, {}, map[], false, 0, {};
    }

    method TryLock(sched: Scheduler) returns (r: Answer)
      requires M.Sound(Sys(sched)) && M.MutexEnabled(Sys(sched), M.TryLock)
      modifies this`owner, this`guards
      ensures M.MutexApply(old(Sys(sched)), M.TryLock) == M.Next(Sys(sched)) && M.Sound(Sys(sched))
      ensures r == if old(owner).None? then Granted
        else if old(owner) == Some(sched.current) then WouldDeadlock else WouldBlock
    {
      M.MutexStepSound(Sys(sched), M.TryLock);
      if owner.Some? { return if owner.v == sched.current then WouldDeadlock else WouldBlock; }
      owner, guards := Some(sched.current), guards + {sched.current};
      return Granted;
    }

    // `boost_owner_deadline`
    method BoostOwner(sched: Scheduler, o: Addr, waiter: Addr, waiterDeadline: nat) returns (missed: Opt<Addr>)
      requires Inv(sched.State()) && o in sched.threads && waiter in sched.threads
      modifies this`ownerBoosted, this`ownerOriginal, sched`timers, sched`threads, sched`next
      ensures var k := old(sched.State()); var boosts := M.Boosts(k, o, waiter, waiterDeadline);
        && ownerBoosted == (old(ownerBoosted) || boosts)
        && ownerOriginal == (if boosts && !old(ownerBoosted) then M.SchedulerExpiry(k, o) else old(ownerOriginal))
        && OutcomeOf(missed, sched.State())
           == if boosts then SetExpire(k, o, M.BoostTarget(k, waiterDeadline)) else Ok(k)
    {
      missed := None;
      assert ThreadOk(sched.State(), o, None);
      if sched.threads[o].kind.Cfs? && sched.threads[waiter].kind.Cfs? { return; }
      var earliest := sched.EarliestQueued();
      var target := if waiterDeadline < earliest then waiterDeadline else earliest;
      var expireAt := sched.ExpireAt(o);
      if target >= expireAt { return; }
      if !ownerBoosted { ownerOriginal, ownerBoosted := expireAt, true; }
      missed := sched.SetSchedulerExpireAt(o, target);
    }

    // Takes a free mutex, or suspends the caller behind the owner, whose deadline it may advance.
    method Lock(sched: Scheduler, elapsed: nat) returns (r: Answer, missed: Opt<Addr>)
      requires M.Sound(Sys(sched)) && M.MutexEnabled(Sys(sched), M.Lock(elapsed))
      modifies this, sched
      ensures if missed.Some? then M.MutexApply(old(Sys(sched)), M.Lock(elapsed)).Halted?
        else M.MutexApply(old(Sys(sched)), M.Lock(elapsed)) == M.Next(Sys(sched)) && M.Sound(Sys(sched))
      ensures missed.None? ==> r == if old(owner).None? then Granted
        else if old(owner) == Some(old(sched.current)) then WouldDeadlock
        else if Th(old(sched.State()), old(sched.current)).kind.Idle? then NotFound else Parked
    {
      ghost var s := Sys(sched);
      var c := sched.current;
      if owner.None? {
        owner, guards := Some(c), guards + {c};
        return Granted, None;
      }
      if owner.v == c { return WouldDeadlock, None; }
      assert ThreadOk(s.k, c, None);
      if sched.threads[c].kind.Idle? { return NotFound, None; }
      missed := LockContended(sched, elapsed);
      r := Parked;
      if missed.None? { M.MutexStepSound(s, M.Lock(elapsed)); }
    }

    // `block_current_thread_on`: the caller is suspended and registered under the deadline it had.
    method Enroll(sched: Scheduler, elapsed: nat) returns (missed: Opt<Addr>, d: nat)
      requires Settled(sched.State()) && sched.now + elapsed < NEVER && owner.Some? && owner.v in sched.threads
      requires !sched.threads[sched.current].kind.Idle?
      modifies this`waiters, this`deadline, this`guards, sched
      ensures OutcomeOf(missed, sched.State()) == Block(old(sched.State()), elapsed)
      ensures missed.None? ==> Inv(sched.State()) && owner.v in sched.threads && old(sched.current) in sched.threads
      ensures missed.None? ==> d == Tm(old(sched.State()), OwnTimer(old(sched.State()), old(sched.current))).expireAt
      ensures missed.None? ==>
        waiters == old(waiters) + {old(sched.current)} && deadline == old(deadline)[old(sched.current) := d]
      ensures missed.None? ==> guards == old(guards) + {old(sched.current)}
    {
      ghost var k := sched.State();
      var c := sched.current;
      var was;
      missed, was := sched.BlockCurrent(elapsed);
      if missed.Some? { return missed, 0; }
      BlockedThen(k, elapsed, sched.State(), owner.v);
      d := was.v;
      waiters, deadline, guards := waiters + {c}, deadline[c := d], guards + {c};
    }

    method LockContended(sched: Scheduler, elapsed: nat) returns (missed: Opt<Addr>)
      requires M.Sound(Sys(sched)) && M.MutexEnabled(Sys(sched), M.Lock(elapsed)) && owner.Some?
      requires owner.v != sched.current
      requires sched.current in sched.threads && !sched.threads[sched.current].kind.Idle?
      modifies this, sched
      ensures if missed.Some? then M.LockContended(old(Sys(sched)), elapsed).Halted?
        else M.LockContended(old(Sys(sched)), elapsed) == M.Next(Sys(sched))
    {
      var c := sched.current;
      var d;
      missed, d := Enroll(sched, elapsed);
      if missed.Some? { return; }
      missed := BoostOwner(sched, owner.v, c, d);
    }

    // `restore_owner_deadline`
    method RestoreOwner(sched: Scheduler, o: Addr) returns (missed: Opt<Addr>)
      requires Inv(sched.State()) && o in sched.threads
      modifies this`ownerBoosted, this`ownerOriginal, sched`timers, sched`threads, sched`next
      ensures OutcomeOf(missed, sched.State()) == M.Restore(old(sched.State()), old(Sys(sched)).m, o)
      ensures missed.None? ==> !ownerBoosted && ownerOriginal == (if old(ownerBoosted) then 0 else old(ownerOriginal))
      ensures missed.None? ==> Inv(sched.State()) && SameThreads(old(sched.State()), sched.State())
    {
      ghost var k := sched.State();
      missed := None;
      if !ownerBoosted { return; }
      missed := sched.SetSchedulerExpireAt(o, ownerOriginal);
      if missed.Some? { return; }
      SetExpireInv(k, o, ownerOriginal);
      ownerOriginal, ownerBoosted := 0, false;
    }

    // Ownership goes straight to the most urgent waiter, if there is one.
    method HandOver(sched: Scheduler) returns (missed: Opt<Addr>)
      requires Inv(sched.State()) && waiters <= deadline.Keys && forall t :: t in waiters ==> t in sched.suspended
      modifies this`waiters, this`owner, sched
      ensures old(waiters) == {} ==> missed.None? && owner.None? && waiters == {} && sched.State() == old(sched.State())
      ensures old(waiters) != {} ==> var t := Least(old(waiters), deadline);
        owner == Some(t) && waiters == old(waiters) - {t} &&
          OutcomeOf(missed, sched.State()) == Wake(old(sched.State()), t)
    {
      if waiters == {} {
        owner := None;
        return None;
      }
      var t := Least(waiters, deadline);
      assert ThreadOk(sched.State(), t, None);
      waiters, owner := waiters - {t}, Some(t);
      missed := sched.WakeWaiter(t);
    }

    // `unlock_guard`: restores the deadline and hands the mutex over.
    method Unlock(sched: Scheduler) returns (missed: Opt<Addr>)
      requires M.Sound(Sys(sched)) && M.MutexEnabled(Sys(sched), M.Unlock)
      modifies this, sched
      ensures if missed.Some? then M.MutexApply(old(Sys(sched)), M.Unlock).Halted?
        else M.MutexApply(old(Sys(sched)), M.Unlock) == M.Next(Sys(sched)) && M.Sound(Sys(sched))
    {
      ghost var s := Sys(sched);
      assert owner == Some(sched.current) by { M.RunningGuardOwns(s); }
      missed := Release(sched);
      if missed.None? { M.MutexStepSound(s, M.Unlock); }
    }

    method Release(sched: Scheduler) returns (missed: Opt<Addr>)
      requires M.Sound(Sys(sched)) && owner == Some(sched.current)
      modifies this, sched
      ensures if missed.Some? then M.Unlocked(old(Sys(sched))).Halted?
        else M.Unlocked(old(Sys(sched))) == M.Next(Sys(sched))
    {
      ghost var s := Sys(sched);
      var c := sched.current;
      missed := RestoreOwner(sched, c);
      ghost var r := OutcomeOf(missed, sched.State());
      if missed.Some? {
        M.UnlockedIs(s, r, r);
        return;
      }
      guards := guards - {c};
      missed := HandOver(sched);
      M.UnlockedIs(s, r, OutcomeOf(missed, sched.State()));
    }
  }
}
