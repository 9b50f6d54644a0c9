/** Blocking sends and receives on one message queue (src/message.rs) inside the running scheduler: no wake-up is
    lost. */
module MessageProtocol {
  import opened Kernel
  import opened Location
  import opened Runs

  type Message = int

  // The ring by its meaning. A waiter tree is its blocked threads with the deadlines captured when they blocked.
  datatype Queue = Queue(
    capacity: nat, buffer: seq<Message>,
    senders: set<Addr>, receivers: set<Addr>, deadline: map<Addr, int>)

  // `wokenSenders` and `wokenReceivers` were taken off a waiter tree and have not retried yet.
  datatype System = System(
    k: Kernel, q: Queue, wokenSenders: set<Addr>, wokenReceivers: set<Addr>,
    sent: seq<Message>, received: seq<Message>)

  datatype Status = Done | Full | Empty | Parked | InvalidContext
  datatype Result = Next(s: System, status: Status) | Halted

  datatype QueueStep =
    | TrySend(m: Message)
    | TryReceive
    | SendOnce(m: Message, canBlock: bool, elapsed: nat)
    | ReceiveOnce(canBlock: bool, elapsed: nat)
    | Other(step: Step)

  // ---------- The steps ----------

  // Takes the waiter with the least (deadline, address) off its tree and wakes it.
  ghost function Deliver(s: System): Result
    requires s.q.receivers <= s.q.deadline.Keys
  {
    if s.q.receivers == {} then Next(s, Done) else
    var t := Least(s.q.receivers, s.q.deadline);
    match Wake(s.k, t)
    case Missed(_) => Halted
    case Ok(k') =>
      var q := s.q.(receivers := s.q.receivers - {t});
      Next(s.(k := k', q := q, wokenReceivers := s.wokenReceivers + {t}), Done)
  }

  ghost function FreeUp(s: System): Result
    requires s.q.senders <= s.q.deadline.Keys
  {
    if s.q.senders == {} then Next(s, Done) else
    var t := Least(s.q.senders, s.q.deadline);
    match Wake(s.k, t)
    case Missed(_) => Halted
    case Ok(k') =>
      var q := s.q.(senders := s.q.senders - {t});
      Next(s.(k := k', q := q, wokenSenders := s.wokenSenders + {t}), Done)
  }

  ghost function Send(s: System, m: Message): Result
    requires s.q.receivers <= s.q.deadline.Keys
  {
    if |s.q.buffer| == s.q.capacity then Next(s, Full)
    else Deliver(s.(q := s.q.(buffer := s.q.buffer + [m]), sent := s.sent + [m]))
  }

  ghost function Receive(s: System): Result
    requires s.q.senders <= s.q.deadline.Keys
  {
    if s.q.buffer == [] then Next(s, Empty)
    else FreeUp(s.(q := s.q.(buffer := s.q.buffer[1..]), received := s.received + [s.q.buffer[0]]))
  }

  predicate MayBlock(k: Kernel, canBlock: bool) {
    canBlock && Th(k, k.current).state.Running? && !Th(k, k.current).kind.Idle?
  }

  // `block`: the caller leaves the CPU and joins the waiter tree, or gets an error and nothing changes.
  ghost function Register(s: System, sender: bool, canBlock: bool, elapsed: nat): Result {
    var c := s.k.current;
    if !MayBlock(s.k, canBlock) then Next(s, InvalidContext)
    else
      var q := s.q.(deadline := s.q.deadline[c := Tm(s.k, OwnTimer(s.k, c)).expireAt]);
      match Block(s.k, elapsed)
      case Missed(_) => Halted
      case Ok(k') =>
        var q' := if sender then q.(senders := q.senders + {c}) else q.(receivers := q.receivers + {c});
        Next(s.(k := k', q := q'), Parked)
  }

  ghost predicate Waiters(s: System) { s.q.senders <= s.q.deadline.Keys && s.q.receivers <= s.q.deadline.Keys }

  // Registered threads are suspended and woken ones are awake until they retry.
  ghost predicate Linked(s: System) {
    && Waiters(s) && s.q.senders !! s.q.receivers
    && (forall t :: t in s.q.senders || t in s.q.receivers ==> t in s.k.suspended)
    && (forall t :: t in s.wokenSenders || t in s.wokenReceivers ==> Awake(s.k, t))
  }

  // Receivers that sleep while messages are buffered are outnumbered by receivers on their way, and the same for
  // senders and free slots.
  ghost predicate NoneForgotten(s: System) {
    && |s.q.buffer| <= s.q.capacity
    && (s.q.receivers != {} ==> |s.q.buffer| <= |s.wokenReceivers|)
    && (s.q.senders != {} ==> s.q.capacity - |s.q.buffer| <= |s.wokenSenders|)
  }

  ghost predicate QueueInv(s: System) {
    Inv(s.k) && Linked(s) && NoneForgotten(s) && s.sent == s.received + s.q.buffer
  }

  // A thread that has just blocked is switched out before the queue is used again, a woken thread retries before it
  // blocks elsewhere, and only the queue wakes its waiters.
  ghost predicate QueueEnabled(s: System, a: QueueStep) {
    var c := s.k.current;
    match a
    case TrySend(_) => c !in s.q.receivers
    case TryReceive => c !in s.q.senders
    case SendOnce(_, _, e) => c !in s.q.receivers && s.k.now + e < NEVER && c !in s.wokenReceivers
    case ReceiveOnce(_, e) => c !in s.q.senders && s.k.now + e < NEVER && c !in s.wokenSenders
    case Other(step) =>
      && Enabled(s.k, step) && (step.WakeUp? ==> step.thread !in s.q.senders && step.thread !in s.q.receivers)
      && (step.SleepFor? || step.BlockOn? ==> c !in s.wokenSenders && c !in s.wokenReceivers)
  }

  ghost function QueueApply(s: System, a: QueueStep): Result
    requires QueueInv(s) && QueueEnabled(s, a)
  {
    var c := s.k.current;
    match a
    case TrySend(m) => Send(s, m)
    case TryReceive => Receive(s)
    case SendOnce(m, can, e) =>
      var s0 := s.(wokenSenders := s.wokenSenders - {c});
      if |s.q.buffer| == s.q.capacity then Register(s0, true, can, e) else Send(s0, m)
    case ReceiveOnce(can, e) =>
      var s0 := s.(wokenReceivers := s.wokenReceivers - {c});
      if s.q.buffer == [] then Register(s0, false, can, e) else Receive(s0)
    case Other(step) =>
      match Apply(s.k, step)
      case Missed(_) => Halted
      case Ok(k') => Next(s.(k := k'), Done)
  }

  // ---------- The queue's own steps ----------

  // Waking `t`, one of the waiters, leaves the other waiters suspended and the woken threads awake.
  lemma WakeLinked(s: System, t: Addr, k': Kernel)
    requires Inv(s.k) && Linked(s) && t in s.q.senders + s.q.receivers && t != s.k.current && Wake(s.k, t) == Ok(k')
    ensures Inv(k') && Awake(k', t) && !Awake(s.k, t)
    ensures forall u :: u != t && u in s.k.suspended ==> u in k'.suspended
    ensures forall u :: Awake(s.k, u) ==> Awake(k', u)
  {
    assert ThreadOk(s.k, t, None);
    WakeInv(s.k, t);
  }

  // One more message than before is matched by one more receiver on its way.
  lemma DeliveredKeeps(s: System, before: seq<Message>, t: Addr, k': Kernel, s': System)
    requires Inv(s.k) && Linked(s) && t in s.q.receivers && t != s.k.current && Wake(s.k, t) == Ok(k')
    requires |s.q.buffer| == |before| + 1 <= s.q.capacity && s.sent == s.received + s.q.buffer
    requires |before| <= |s.wokenReceivers|
    requires s.q.senders != {} ==> s.q.capacity - |s.q.buffer| <= |s.wokenSenders|
    requires s' == s.(k := k', q := s'.q, wokenReceivers := s.wokenReceivers + {t})
    requires s'.q == s.q.(receivers := s.q.receivers - {t})
    ensures QueueInv(s')
  {
    WakeLinked(s, t, k');
  }

  lemma DeliverKeeps(s: System, before: seq<Message>)
    requires Inv(s.k) && Linked(s) && s.k.current !in s.q.receivers && Deliver(s).Next?
    requires |s.q.buffer| == |before| + 1 <= s.q.capacity && s.sent == s.received + s.q.buffer
    requires s.q.receivers != {} ==> |before| <= |s.wokenReceivers|
    requires s.q.senders != {} ==> s.q.capacity - |s.q.buffer| <= |s.wokenSenders|
    ensures QueueInv(Deliver(s).s)
  {
    if s.q.receivers != {} {
      DeliveredKeeps(s, before, Least(s.q.receivers, s.q.deadline), Deliver(s).s.k, Deliver(s).s);
    }
  }

  lemma FreeUpKeeps(s: System, before: seq<Message>)
    requires Inv(s.k) && Linked(s) && s.k.current !in s.q.senders && FreeUp(s).Next?
    requires |s.q.buffer| + 1 == |before| <= s.q.capacity && s.sent == s.received + s.q.buffer
    requires s.q.senders != {} ==> s.q.capacity - |before| <= |s.wokenSenders|
    requires s.q.receivers != {} ==> |s.q.buffer| <= |s.wokenReceivers|
    ensures QueueInv(FreeUp(s).s)
  {
    if s.q.senders != {} {
      var t := Least(s.q.senders, s.q.deadline);
      WakeLinked(s, t, FreeUp(s).s.k);
    }
  }

  // `s` is `s0` in which the caller, if it was woken, no longer counts as being on its way.
  lemma SendKeeps(s0: System, s: System, m: Message)
    requires QueueInv(s0) && (s == s0 || s == s0.(wokenSenders := s0.wokenSenders - {s.k.current}))
    requires s.k.current !in s.q.receivers && |s.q.buffer| < s.q.capacity && Send(s, m).Next?
    ensures QueueInv(Send(s, m).s)
  {
    DeliverKeeps(s.(q := s.q.(buffer := s.q.buffer + [m]), sent := s.sent + [m]), s.q.buffer);
  }

  lemma ReceiveKeeps(s0: System, s: System)
    requires QueueInv(s0) && (s == s0 || s == s0.(wokenReceivers := s0.wokenReceivers - {s.k.current}))
    requires s.k.current !in s.q.senders && s.q.buffer != [] && Receive(s).Next?
    ensures QueueInv(Receive(s).s)
  {
    var m, rest := s.q.buffer[0], s.q.buffer[1..];
    assert s.sent == s.received + [m] + rest by { assert s.q.buffer == [m] + rest; }
    assert |s0.wokenReceivers| <= |s.wokenReceivers| + 1;
    FreeUpKeeps(s.(q := s.q.(buffer := rest), received := s.received + [m]), s.q.buffer);
  }

  // What the caller finds that has to park: a full buffer, or an empty one. It no longer counts as being on its way.
  ghost predicate Stuck(s0: System, s: System, sender: bool) {
    && QueueInv(s0)
    && s == (if sender then s0.(wokenSenders := s0.wokenSenders - {s0.k.current})
             else s0.(wokenReceivers := s0.wokenReceivers - {s0.k.current}))
    && (if sender then |s.q.buffer| == s.q.capacity && s.k.current !in s.wokenReceivers
        else s.q.buffer == [] && s.k.current !in s.wokenSenders)
  }

  lemma RefusedKeeps(s0: System, s: System, sender: bool)
    requires Stuck(s0, s, sender)
    ensures QueueInv(s)
  {
  }

  // The waiters are suspended, the caller among them, and the woken threads still awake.
  lemma ParkedLinked(s0: System, s: System, sender: bool, s': System)
    requires Stuck(s0, s, sender) && Parks(s, sender, s')
    ensures Linked(s')
  {
  }

  lemma ParkedKeeps(s0: System, s: System, sender: bool, s': System)
    requires Stuck(s0, s, sender) && Parks(s, sender, s')
    ensures QueueInv(s')
  {
    ParkedLinked(s0, s, sender, s');
  }

  // The caller was awake and now ends the suspended list.
  lemma Suspended(k: Kernel, elapsed: nat, k': Kernel)
    requires Settled(k) && k.now + elapsed < NEVER && !Th(k, k.current).kind.Idle? && Block(k, elapsed) == Ok(k')
    ensures Inv(k') && OnlyCurrentBlocks(k, k') && k'.suspended == k.suspended + [k.current]
    ensures Awake(k, k.current) && k.current !in k.suspended
  {
    assert ThreadOk(k, k.current, None);
    WaitUntilInv(k, elapsed, NEVER);
  }

  // What parking the caller leaves behind.
  lemma RegisterLeaves(s: System, sender: bool, canBlock: bool, elapsed: nat)
    requires Register(s, sender, canBlock, elapsed).Next? && MayBlock(s.k, canBlock)
    ensures var r, c := Register(s, sender, canBlock, elapsed), s.k.current;
      && r.status == Parked && Block(s.k, elapsed) == Ok(r.s.k) && r.s == s.(k := r.s.k, q := r.s.q)
      && r.s.q == s.q.(senders := r.s.q.senders, receivers := r.s.q.receivers,
                       deadline := s.q.deadline[c := Tm(s.k, OwnTimer(s.k, c)).expireAt])
      && r.s.q.senders == (if sender then s.q.senders + {c} else s.q.senders)
      && r.s.q.receivers == if sender then s.q.receivers else s.q.receivers + {c}
  {
  }

  // The same with what the scheduler did to the caller.
  lemma RegisterParks(s: System, sender: bool, canBlock: bool, elapsed: nat, s': System)
    requires Inv(s.k) && s.k.now + elapsed < NEVER && MayBlock(s.k, canBlock)
    requires Register(s, sender, canBlock, elapsed).Next? && s' == Register(s, sender, canBlock, elapsed).s
    ensures Parks(s, sender, s')
  {
    RegisterLeaves(s, sender, canBlock, elapsed);
    Suspended(s.k, elapsed, s'.k);
  }

  // `s'` is `s` with the caller suspended and registered.
  ghost predicate Parks(s: System, sender: bool, s': System) {
    && Inv(s'.k) && OnlyCurrentBlocks(s.k, s'.k) && s'.k.suspended == s.k.suspended + [s.k.current]
    && Awake(s.k, s.k.current) && s.k.current !in s.k.suspended
    && s' == s.(k := s'.k, q := s'.q) && s'.q.deadline.Keys == s.q.deadline.Keys + {s.k.current}
    && s'.q.buffer == s.q.buffer && s'.q.capacity == s.q.capacity
    && s'.q.senders == (if sender then s.q.senders + {s.k.current} else s.q.senders)
    && s'.q.receivers == if sender then s.q.receivers else s.q.receivers + {s.k.current}
  }

  // The caller parks while the buffer is full, or while it is empty, or is refused.
  lemma RegisterKeeps(s0: System, s: System, sender: bool, canBlock: bool, elapsed: nat, s': System)
    requires Stuck(s0, s, sender) && s.k.now + elapsed < NEVER
    requires Register(s, sender, canBlock, elapsed).Next? && s' == Register(s, sender, canBlock, elapsed).s
    ensures QueueInv(s')
  {
    if MayBlock(s.k, canBlock) {
      RegisterParks(s, sender, canBlock, elapsed, s');
      ParkedKeeps(s0, s, sender, s');
    } else {
      RefusedKeeps(s0, s, sender);
    }
  }

  lemma OtherKeeps(s: System, step: Step)
    requires QueueInv(s) && QueueEnabled(s, Other(step)) && Apply(s.k, step).Ok?
    ensures QueueInv(s.(k := Apply(s.k, step).k))
  {
    var k' := Apply(s.k, step).k;
    StepInv(s.k, step);
    forall t | t in s.q.senders || t in s.q.receivers ensures t in k'.suspended { KeepsSuspended(s.k, step, t); }
    forall t | t in s.wokenSenders || t in s.wokenReceivers ensures Awake(k', t) { KeepsAwake(s.k, step, t); }
  }

  lemma QueueStepInv(s: System, a: QueueStep)
    requires QueueInv(s) && QueueEnabled(s, a) && QueueApply(s, a).Next?
    ensures QueueInv(QueueApply(s, a).s)
  {
    var c := s.k.current;
    match a
    case TrySend(m) => if |s.q.buffer| < s.q.capacity { SendKeeps(s, s, m); }
    case TryReceive => if s.q.buffer != [] { ReceiveKeeps(s, s); }
    case SendOnce(m, can, e) =>
      var s0 := s.(wokenSenders := s.wokenSenders - {c});
      if |s.q.buffer| == s.q.capacity {
        RegisterKeeps(s, s0, true, can, e, Register(s0, true, can, e).s);
      } else {
        SendKeeps(s, s0, m);
      }
    case ReceiveOnce(can, e) =>
      var s0 := s.(wokenReceivers := s.wokenReceivers - {c});
      if s.q.buffer == [] {
        RegisterKeeps(s, s0, false, can, e, Register(s0, false, can, e).s);
      } else {
        ReceiveKeeps(s, s0);
      }
    case Other(step) => OtherKeeps(s, step);
  }

  // A send that returns an error, or parks, has stored nothing; one that succeeds appends, and does so exactly when
  // there is room.
  lemma SendEffect(s: System, a: QueueStep, s': System, status: Status)
    requires QueueInv(s) && QueueEnabled(s, a) && QueueApply(s, a) == Next(s', status) && (a.TrySend? || a.SendOnce?)
    ensures status.Done? <==> |s.q.buffer| < s.q.capacity
    ensures s'.q.buffer == s.q.buffer + (if status.Done? then [a.m] else []) && s'.received == s.received
    ensures status.InvalidContext? ==> s'.k == s.k && s'.q == s.q && a.SendOnce? && !MayBlock(s.k, a.canBlock)
    ensures a.TrySend? && !status.Done? ==> status == Full && s' == s
  {
  }

  // The same for a receive, which takes the oldest message.
  lemma ReceiveEffect(s: System, a: QueueStep, s': System, status: Status)
    requires QueueInv(s) && QueueEnabled(s, a) && QueueApply(s, a) == Next(s', status)
    requires a.TryReceive? || a.ReceiveOnce?
    ensures status.Done? <==> s.q.buffer != []
    ensures s'.q.buffer == (if status.Done? then s.q.buffer[1..] else s.q.buffer) && s'.sent == s.sent
    ensures s'.received == s.received + (if status.Done? then [s.q.buffer[0]] else [])
    ensures status.InvalidContext? ==> s'.k == s.k && s'.q == s.q && a.ReceiveOnce? && !MayBlock(s.k, a.canBlock)
    ensures a.TryReceive? && !status.Done? ==> status == Empty && s' == s
  {
  }

  // ---------- What the calls answer ----------

  // The caller has left the CPU for the end of the suspended list and waits, under the expiry that its timer had,
  // beside the other senders or receivers; the messages are as they were.
  ghost predicate ParkedAs(s: System, sender: bool, s': System) {
    var k, q, c := s.k, s.q, s.k.current;
    var a := if Th(k, c).kind.Rt? then Th(k, c).timer else k.cfsTimer;
    && s'.k.suspended == k.suspended + [c] && c !in k.suspended && s'.k.current == c
    && s'.q == q.(senders := if sender then q.senders + {c} else q.senders,
                  receivers := if sender then q.receivers else q.receivers + {c},
                  deadline := q.deadline[c := Tm(k, a).expireAt])
    && s'.sent == s.sent && s'.received == s.received
  }

  lemma RegisterAnswers(s: System, sender: bool, canBlock: bool, elapsed: nat, s': System, status: Status)
    requires Inv(s.k) && s.k.now + elapsed < NEVER && Register(s, sender, canBlock, elapsed) == Next(s', status)
    ensures var may := canBlock && Th(s.k, s.k.current).state.Running? && !Th(s.k, s.k.current).kind.Idle?;
      if may then status == Parked && ParkedAs(s, sender, s') else status == InvalidContext && s' == s
  {
    if MayBlock(s.k, canBlock) {
      RegisterLeaves(s, sender, canBlock, elapsed);
      RegisterParks(s, sender, canBlock, elapsed, s');
    }
  }

  // A blocking send succeeds exactly when there is room. Otherwise it parks, exactly if the caller may block, and fails
  // with an error if not; it never answers `Full`.
  lemma SendOnceAnswers(s: System, m: Message, canBlock: bool, elapsed: nat, s': System, status: Status)
    requires QueueInv(s) && QueueEnabled(s, SendOnce(m, canBlock, elapsed))
    requires QueueApply(s, SendOnce(m, canBlock, elapsed)) == Next(s', status)
    ensures var may := canBlock && Th(s.k, s.k.current).state.Running? && !Th(s.k, s.k.current).kind.Idle?;
      status == if |s.q.buffer| < s.q.capacity then Done else if may then Parked else InvalidContext
    ensures status.Parked? ==> ParkedAs(s, true, s')
    ensures !status.Done? ==>
      s'.wokenSenders == s.wokenSenders - {s.k.current} && s'.wokenReceivers == s.wokenReceivers
  {
    var s0 := s.(wokenSenders := s.wokenSenders - {s.k.current});
    if |s.q.buffer| == s.q.capacity { RegisterAnswers(s0, true, canBlock, elapsed, s', status); }
  }

  // The same for a blocking receive and the messages.
  lemma ReceiveOnceAnswers(s: System, canBlock: bool, elapsed: nat, s': System, status: Status)
    requires QueueInv(s) && QueueEnabled(s, ReceiveOnce(canBlock, elapsed))
    requires QueueApply(s, ReceiveOnce(canBlock, elapsed)) == Next(s', status)
    ensures var may := canBlock && Th(s.k, s.k.current).state.Running? && !Th(s.k, s.k.current).kind.Idle?;
      status == if s.q.buffer != [] then Done else if may then Parked else InvalidContext
    ensures status.Parked? ==> ParkedAs(s, false, s')
    ensures !status.Done? ==>
      s'.wokenReceivers == s.wokenReceivers - {s.k.current} && s'.wokenSenders == s.wokenSenders
  {
    var s0 := s.(wokenReceivers := s.wokenReceivers - {s.k.current});
    if s.q.buffer == [] { RegisterAnswers(s0, false, canBlock, elapsed, s', status); }
  }

  // `t`, the most urgent of `waiting`, is ready and nobody else's state has changed; without waiters nothing happens.
  ghost predicate WakesFirst(k: Kernel, waiting: set<Addr>, deadline: map<Addr, int>, k': Kernel, rest: set<Addr>)
    requires waiting <= deadline.Keys
  {
    if waiting == {} then k' == k && rest == {}
    else exists t :: IsLeast(waiting, deadline, t) && rest == waiting - {t} && OnlyWakes(k, k', t)
  }

  lemma WakesLeast(s: System, t: Addr, k': Kernel)
    requires Inv(s.k) && Linked(s) && t in s.q.senders + s.q.receivers && t != s.k.current && Wake(s.k, t) == Ok(k')
    ensures OnlyWakes(s.k, k', t)
  {
    assert ThreadOk(s.k, t, None);
    WakeInv(s.k, t);
  }

  lemma DeliverWakes(s: System, s': System)
    requires Inv(s.k) && Linked(s) && s.k.current !in s.q.receivers && Deliver(s) == Next(s', Done)
    ensures WakesFirst(s.k, s.q.receivers, s.q.deadline, s'.k, s'.q.receivers)
    ensures s'.q == s.q.(receivers := s'.q.receivers) && s'.wokenSenders == s.wokenSenders
    ensures s'.wokenReceivers == s.wokenReceivers + (s.q.receivers - s'.q.receivers)
  {
    if s.q.receivers != {} {
      var t := Least(s.q.receivers, s.q.deadline);
      WakesLeast(s, t, s'.k);
      OneLess(s.q.receivers, s'.q.receivers, t);
    }
  }

  lemma OneLess(all: set<Addr>, rest: set<Addr>, t: Addr)
    requires t in all && rest == all - {t}
    ensures all - rest == {t}
  {
  }

  lemma FreeUpWakes(s: System, s': System)
    requires Inv(s.k) && Linked(s) && s.k.current !in s.q.senders && FreeUp(s) == Next(s', Done)
    ensures WakesFirst(s.k, s.q.senders, s.q.deadline, s'.k, s'.q.senders)
    ensures s'.q == s.q.(senders := s'.q.senders) && s'.wokenReceivers == s.wokenReceivers
    ensures s'.wokenSenders == s.wokenSenders + (s.q.senders - s'.q.senders)
  {
    if s.q.senders != {} {
      var t := Least(s.q.senders, s.q.deadline);
      WakesLeast(s, t, s'.k);
      OneLess(s.q.senders, s'.q.senders, t);
    }
  }

  // A send that succeeds wakes the most urgent receiver, which is then on its way, and no sender.
  lemma SendWakes(s: System, a: QueueStep, s': System)
    requires QueueInv(s) && QueueEnabled(s, a) && (a.TrySend? || a.SendOnce?) && QueueApply(s, a) == Next(s', Done)
    ensures WakesFirst(s.k, s.q.receivers, s.q.deadline, s'.k, s'.q.receivers)
    ensures s'.q.senders == s.q.senders && s'.q.deadline == s.q.deadline
    ensures s'.wokenReceivers == s.wokenReceivers + (s.q.receivers - s'.q.receivers)
    ensures s'.wokenSenders == if a.SendOnce? then s.wokenSenders - {s.k.current} else s.wokenSenders
  {
    var s0 := if a.SendOnce? then s.(wokenSenders := s.wokenSenders - {s.k.current}) else s;
    DeliverWakes(s0.(q := s.q.(buffer := s.q.buffer + [a.m]), sent := s.sent + [a.m]), s');
  }

  // A receive that succeeds wakes the most urgent sender, and no receiver.
  lemma ReceiveWakes(s: System, a: QueueStep, s': System)
    requires QueueInv(s) && QueueEnabled(s, a) && (a.TryReceive? || a.ReceiveOnce?)
    requires QueueApply(s, a) == Next(s', Done)
    ensures WakesFirst(s.k, s.q.senders, s.q.deadline, s'.k, s'.q.senders)
    ensures s'.q.receivers == s.q.receivers && s'.q.deadline == s.q.deadline
    ensures s'.wokenSenders == s.wokenSenders + (s.q.senders - s'.q.senders)
    ensures s'.wokenReceivers == if a.ReceiveOnce? then s.wokenReceivers - {s.k.current} else s.wokenReceivers
  {
    var s0 := if a.ReceiveOnce? then s.(wokenReceivers := s.wokenReceivers - {s.k.current}) else s;
    FreeUpWakes(s0.(q := s.q.(buffer := s.q.buffer[1..]), received := s.received + [s.q.buffer[0]]), s');
  }

  // ---------- Runs ----------

  ghost predicate QueueReaches(s: System, steps: seq<QueueStep>, s': System)
    requires QueueInv(s)
    decreases |steps|
  {
    if steps == [] then s' == s else
      && QueueEnabled(s, steps[0]) && QueueApply(s, steps[0]).Next?
      && (QueueStepInv(s, steps[0]); QueueReaches(QueueApply(s, steps[0]).s, steps[1..], s'))
  }

  // In every reachable state: no registered thread is forgotten, messages leave in the order they came, and none is
  // lost or invented.
  lemma {:induction false} QueueRun(s: System, steps: seq<QueueStep>, s': System)
    requires QueueInv(s) && QueueReaches(s, steps, s')
    ensures s'.q.receivers != {} ==> |s'.q.buffer| <= |s'.wokenReceivers|
    ensures s'.q.senders != {} ==> s'.q.capacity - |s'.q.buffer| <= |s'.wokenSenders|
    ensures s'.sent == s'.received + s'.q.buffer && |s'.q.buffer| <= s'.q.capacity
    ensures Linked(s')
    decreases |steps|
  {
    if steps != [] {
      QueueStepInv(s, steps[0]);
      QueueRun(QueueApply(s, steps[0]).s, steps[1..], s');
    }
  }

  // Hence, once every woken thread has retried, receivers sleep only on an empty queue and senders only on a full one.
  lemma QuietMeansBlocked(s: System, steps: seq<QueueStep>, s': System)
    requires QueueInv(s) && QueueReaches(s, steps, s')
    requires s'.wokenReceivers == {} && s'.wokenSenders == {}
    ensures s'.q.receivers != {} ==> s'.q.buffer == []
    ensures s'.q.senders != {} ==> |s'.q.buffer| == s'.q.capacity
  {
    QueueRun(s, steps, s');
  }
}
