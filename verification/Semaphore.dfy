/** Binary and counting semaphores (src/sync.rs) inside the running scheduler. */
module Semaphores {
  import opened Kernel
  import opened Location
  import opened Runs

  // The waiter tree by its meaning: the blocked threads with the deadlines captured when they blocked.
  // A binary semaphore is the case max == 1.
  datatype Sem = Sem(count: nat, max: nat, waiters: set<Addr>, deadline: map<Addr, int>)

  datatype GiveResult = Woke(thread: Addr) | Stored | Full

  function Take(s: Sem): Sem
    requires s.count > 0
  { s.(count := s.count - 1) }

  function Register(s: Sem, t: Addr, deadline: int): Sem {
    s.(waiters := s.waiters + {t}, deadline := s.deadline[t := deadline])
  }

  // `give`: the waiter with the least (deadline, address) gets the token, otherwise it is stored if it fits.
  ghost function Give(s: Sem): (Sem, GiveResult)
    requires s.waiters <= s.deadline.Keys
  {
    if s.waiters != {} then var t := Least(s.waiters, s.deadline); (s.(waiters := s.waiters - {t}), Woke(t))
    else if s.count < s.max then (s.(count := s.count + 1), Stored)
    else (s, Full)
  }

  // A semaphore in use: `granted` counts the takes that obtained a token, `given` the gives that succeeded.
  datatype System = System(k: Kernel, sem: Sem, granted: nat, given: nat)

  datatype SemStep =
    | TryTake
    | TakeOrBlock(elapsed: nat)
    | GiveOne
    | Other(step: Step)

  ghost predicate SemInv(s: System, initial: nat) {
    && Inv(s.k) && s.sem.waiters <= s.sem.deadline.Keys
    && (forall t :: t in s.sem.waiters ==> t in s.k.suspended)
    && (s.sem.waiters != {} ==> s.sem.count == 0)
    && s.sem.count <= s.sem.max
    && initial + s.given == s.sem.count + s.granted
  }

  // Nobody but the semaphore wakes its waiters, and a thread that has just blocked is switched out first.
  ghost predicate SemEnabled(s: System, a: SemStep)
    requires s.sem.waiters <= s.sem.deadline.Keys
  {
    match a
    case TryTake => true
    case TakeOrBlock(e) => s.k.now + e < NEVER && Th(s.k, s.k.current).state.Running?
    case GiveOne => Give(s.sem).1.Woke? ==> Give(s.sem).1.thread != s.k.current
    case Other(step) => Enabled(s.k, step) && (step.WakeUp? ==> step.thread !in s.sem.waiters)
  }

  datatype SemOutcome = Next(s: System) | Halted

  ghost function SemApply(s: System, a: SemStep): SemOutcome
    requires s.sem.waiters <= s.sem.deadline.Keys && Inv(s.k) && SemEnabled(s, a)
  {
    match a
    case TryTake => Next(if s.sem.count > 0 then s.(sem := Take(s.sem), granted := s.granted + 1) else s)
    case TakeOrBlock(e) =>
      if s.sem.count > 0 then Next(s.(sem := Take(s.sem), granted := s.granted + 1))
      else if Th(s.k, s.k.current).kind.Idle? then Next(s)
      else (match Block(s.k, e)
            case Missed(_) => Halted
            case Ok(k') =>
              var d := Tm(s.k, OwnTimer(s.k, s.k.current)).expireAt;
              Next(s.(k := k', sem := Register(s.sem, s.k.current, d))))
    case GiveOne =>
      (match Give(s.sem).1
       case Woke(t) =>
         (match Wake(s.k, t)
          case Missed(_) => Halted
          case Ok(k') => Next(System(k', Give(s.sem).0, s.granted + 1, s.given + 1)))
       case Stored => Next(s.(sem := Give(s.sem).0, given := s.given + 1))
       case Full => Next(s))
    case Other(step) =>
      match Apply(s.k, step)
      case Missed(_) => Halted
      case Ok(k') => Next(s.(k := k'))
  }

  // What a give comes to, when `w` is the wake-up of the most urgent waiter.
  lemma GiveIs(s: System, w: Outcome)
    requires s.sem.waiters <= s.sem.deadline.Keys && Inv(s.k) && SemEnabled(s, GiveOne)
    requires s.sem.waiters != {} ==> w == Wake(s.k, Least(s.sem.waiters, s.sem.deadline))
    ensures SemApply(s, GiveOne) ==
      if s.sem.waiters != {} && w.Missed? then Halted
      else if s.sem.waiters != {} then
        var q := s.sem.(waiters := s.sem.waiters - {Least(s.sem.waiters, s.sem.deadline)});
        Next(System(w.k, q, s.granted + 1, s.given + 1))
      else if s.sem.count < s.sem.max then Next(s.(sem := s.sem.(count := s.sem.count + 1), given := s.given + 1))
      else Next(s)
  {
  }

  // What a take without a stored token comes to, when `b` is the block of the caller.
  lemma TakeIs(s: System, elapsed: nat, b: Outcome)
    requires s.sem.waiters <= s.sem.deadline.Keys && Inv(s.k) && SemEnabled(s, TakeOrBlock(elapsed))
    requires s.sem.count == 0 && !Th(s.k, s.k.current).kind.Idle? && b == Block(s.k, elapsed)
    ensures var d := Tm(s.k, OwnTimer(s.k, s.k.current)).expireAt;
      SemApply(s, TakeOrBlock(elapsed)) ==
        if b.Missed? then Halted else Next(s.(k := b.k, sem := Register(s.sem, s.k.current, d)))
  {
  }

  lemma BlockKeeps(s: System, elapsed: nat, k': Kernel, initial: nat)
    requires SemInv(s, initial) && SemEnabled(s, TakeOrBlock(elapsed)) && s.sem.count == 0
    requires !Th(s.k, s.k.current).kind.Idle? && Block(s.k, elapsed) == Ok(k')
    ensures var d := Tm(s.k, OwnTimer(s.k, s.k.current)).expireAt;
      SemInv(s.(k := k', sem := Register(s.sem, s.k.current, d)), initial)
  {
    WaitUntilInv(s.k, elapsed, NEVER);
  }

  lemma GiveKeeps(s: System, k': Kernel, initial: nat)
    requires SemInv(s, initial) && SemEnabled(s, GiveOne) && Give(s.sem).1.Woke?
    requires Wake(s.k, Give(s.sem).1.thread) == Ok(k')
    ensures SemInv(System(k', Give(s.sem).0, s.granted + 1, s.given + 1), initial)
    ensures Th(k', Give(s.sem).1.thread).state.Ready?
  {
    var t := Give(s.sem).1.thread;
    assert ThreadOk(s.k, t, None);
    WakeInv(s.k, t);
  }

  // Every step keeps tokens conserved, the count within bounds, and waiters suspended while no token is stored.
  lemma SemStepInv(s: System, a: SemStep, initial: nat)
    requires SemInv(s, initial) && SemEnabled(s, a) && SemApply(s, a).Next?
    ensures SemInv(SemApply(s, a).s, initial)
  {
    match a
    case TryTake =>
    case TakeOrBlock(e) =>
      if s.sem.count == 0 && !Th(s.k, s.k.current).kind.Idle? { BlockKeeps(s, e, Block(s.k, e).k, initial); }
    case GiveOne =>
      if Give(s.sem).1.Woke? { GiveKeeps(s, Wake(s.k, Give(s.sem).1.thread).k, initial); }
    case Other(step) =>
      StepInv(s.k, step);
      forall t | t in s.sem.waiters ensures t in Apply(s.k, step).k.suspended { KeepsSuspended(s.k, step, t); }
  }

  // ---------- What the calls answer ----------

  // A stored token is taken on the spot, by either call. Without one, `try_take` and the idle thread get nothing and
  // nothing changes.
  lemma TakeAtOnce(s: System, a: SemStep)
    requires s.sem.waiters <= s.sem.deadline.Keys && Inv(s.k) && SemEnabled(s, a) && (a.TryTake? || a.TakeOrBlock?)
    requires s.sem.count == 0 ==> a.TryTake? || Th(s.k, s.k.current).kind.Idle?
    ensures SemApply(s, a) == Next(
      if s.sem.count > 0 then
        System(s.k, Sem(s.sem.count - 1, s.sem.max, s.sem.waiters, s.sem.deadline), s.granted + 1, s.given)
      else s)
  {
  }

  // Otherwise the caller leaves the CPU for the end of the suspended list and waits under the expiry its timer had.
  lemma TakeQueues(s: System, elapsed: nat, s': System)
    requires s.sem.waiters <= s.sem.deadline.Keys && Inv(s.k) && SemEnabled(s, TakeOrBlock(elapsed))
    requires s.sem.count == 0 && !Th(s.k, s.k.current).kind.Idle? && SemApply(s, TakeOrBlock(elapsed)) == Next(s')
    ensures var k, c := s.k, s.k.current; var a := if Th(k, c).kind.Rt? then Th(k, c).timer else k.cfsTimer;
      && s'.sem == Sem(0, s.sem.max, s.sem.waiters + {c}, s.sem.deadline[c := Tm(k, a).expireAt])
      && s'.k.suspended == k.suspended + [c] && s'.k.current == c
      && s'.granted == s.granted && s'.given == s.given
  {
    TakeIs(s, elapsed, Ok(s'.k));
    WaitUntilInv(s.k, elapsed, NEVER);
  }

  // A give wakes the most urgent waiter, which has the token, or stores it if it fits; a full semaphore stays as it is.
  lemma GiveAnswers(s: System, s': System)
    requires s.sem.waiters <= s.sem.deadline.Keys && Inv(s.k) && SemEnabled(s, GiveOne)
    requires (forall t :: t in s.sem.waiters ==> t in s.k.suspended) && SemApply(s, GiveOne) == Next(s')
    ensures s.sem.waiters == {} ==> s' == (if s.sem.count < s.sem.max then
      System(s.k, Sem(s.sem.count + 1, s.sem.max, {}, s.sem.deadline), s.granted, s.given + 1) else s)
    ensures s.sem.waiters != {} ==> exists t ::
      && IsLeast(s.sem.waiters, s.sem.deadline, t) && OnlyWakes(s.k, s'.k, t)
      && s'.sem == s.sem.(waiters := s.sem.waiters - {t}) && s'.granted == s.granted + 1 && s'.given == s.given + 1
  {
    if s.sem.waiters != {} {
      var t := Least(s.sem.waiters, s.sem.deadline);
      assert ThreadOk(s.k, t, None);
      GiveIs(s, Wake(s.k, t));
      WakeInv(s.k, t);
    }
  }

  ghost predicate SemReaches(s: System, steps: seq<SemStep>, s': System, initial: nat)
    requires SemInv(s, initial)
    decreases |steps|
  {
    if steps == [] then s' == s else
      && SemEnabled(s, steps[0]) && SemApply(s, steps[0]).Next?
      && (SemStepInv(s, steps[0], initial); SemReaches(SemApply(s, steps[0]).s, steps[1..], s', initial))
  }

  // Conservation over any interleaving.
  lemma {:induction false} SemRun(s: System, steps: seq<SemStep>, s': System, initial: nat)
    requires SemInv(s, initial) && SemReaches(s, steps, s', initial)
    ensures initial + s'.given == s'.sem.count + s'.granted && s'.sem.count <= s'.sem.max
    ensures s'.sem.waiters != {} ==> s'.sem.count == 0
    ensures forall t :: t in s'.sem.waiters ==> t in s'.k.suspended
    decreases |steps|
  {
    if steps != [] {
      SemStepInv(s, steps[0], initial);
      SemRun(SemApply(s, steps[0]).s, steps[1..], s', initial);
    }
  }
}
