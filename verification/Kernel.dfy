/** Scheduler state and the operations that move threads between its queues, as functions from
    state to state: src/sched.rs, src/ktimer.rs, src/runq.rs, src/waitq.rs and src/thread.rs.
    The red-black trees appear here by their meaning, as sets with a (key, address) order. */
module Kernel {
  import opened KeyOrder

  const NEVER: nat := 0xFFFF_FFFF_FFFF_FFFF
  const U32_MAX: nat := 0xFFFF_FFFF

  function Sat64(n: nat): nat { if n < NEVER then n else NEVER }
  function Sat32(n: nat): nat { if n < U32_MAX then n else U32_MAX }
  function SatSub(a: nat, b: nat): nat { if a < b then 0 else a - b }

  type Addr = int

  datatype Opt<T> = None | Some(v: T)
  datatype Kind = Idle | Cfs | Rt
  datatype State = Ready | Running | Waiting | Suspended

  predicate IsBlocked(s: State) { s.Waiting? || s.Suspended? }

  predicate CanTransition(s: State, n: State) {
    match s
    case Ready => true
    case Running => true
    case Waiting => n.Ready? || n.Waiting?
    case Suspended => n.Ready? || n.Suspended?
  }

  // `timer` is the address of the RT timer of an RT thread.
  datatype Thread = Thread(
    kind: Kind, state: State, priority: nat, vruntime: nat, wakeAt: nat, runtime: nat, timer: Addr)

  datatype Owner = CfsTimer | WaitTimer | RtTimer(thread: Addr)
  datatype Timer = Timer(owner: Owner, expireAt: nat, active: bool, queued: bool, period: nat, deadline: nat)

  datatype Kernel = Kernel(
    threads: map<Addr, Thread>,
    timers: map<Addr, Timer>,
    cfsTimer: Addr,
    waitTimer: Addr,
    runq: set<Addr>,
    waits: set<Addr>,
    suspended: seq<Addr>,
    prioritySum: nat,
    current: Addr,
    currentIsCfs: bool,
    idle: Addr,
    next: Opt<Addr>,
    now: nat)

  // A missed RT deadline ends the run: `record_rt_deadline_miss` panics.
  datatype Outcome = Ok(k: Kernel) | Missed(thread: Addr) {
    predicate IsFailure() { Missed? }
    function PropagateFailure(): Outcome requires Missed? { this }
    function Extract(): Kernel requires Ok? { k }
  }

  // ---------- The least element of a set under a (key, address) order ----------

  predicate IsLeast(s: set<Addr>, key: map<Addr, int>, m: Addr)
    requires s <= key.Keys
  {
    m in s && forall x :: x in s && x != m ==> Less(key[m], m, key[x], x)
  }

  lemma Inhabited(s: set<Addr>)
    requires s != {}
    ensures exists x :: x in s
  {
    assert (forall x :: x !in s) ==> s == {};
  }

  lemma {:induction false} LeastExists(s: set<Addr>, key: map<Addr, int>)
    requires s != {} && s <= key.Keys
    ensures exists m :: IsLeast(s, key, m)
    decreases |s|
  {
    Inhabited(s);
    var x :| x in s;
    if s == {x} {
      assert IsLeast(s, key, x);
    } else {
      assert s - {x} != {};
      LeastExists(s - {x}, key);
      var y :| IsLeast(s - {x}, key, y);
      assert IsLeast(s, key, if Less(key[x], x, key[y], y) then x else y);
    }
  }

  function Least(s: set<Addr>, key: map<Addr, int>): (m: Addr)
    requires s <= key.Keys && s != {}
    ensures IsLeast(s, key, m)
  {
    LeastExists(s, key);
    var m :| IsLeast(s, key, m);
    m
  }

  // ---------- Reading and writing the state ----------

  function Th(k: Kernel, t: Addr): Thread {
    if t in k.threads then k.threads[t] else Thread(Idle, Ready, 0, 0, 0, 0, 0)
  }

  function Tm(k: Kernel, a: Addr): Timer {
    if a in k.timers then k.timers[a] else Timer(WaitTimer, 0, false, false, 0, 0)
  }

  function SetTh(k: Kernel, t: Addr, th: Thread): Kernel { k.(threads := k.threads[t := th]) }

  function SetTm(k: Kernel, a: Addr, tm: Timer): Kernel { k.(timers := k.timers[a := tm]) }

  function SetState(k: Kernel, t: Addr, s: State): Kernel { SetTh(k, t, Th(k, t).(state := s)) }

  // ---------- Timers ----------

  function Expiries(timers: map<Addr, Timer>): map<Addr, int> { map a | a in timers :: timers[a].expireAt }

  function ActiveSet(timers: map<Addr, Timer>): set<Addr> {
    set a | a in timers && timers[a].queued && timers[a].active
  }

  function QueuedSet(timers: map<Addr, Timer>): set<Addr> {
    set a | a in timers && timers[a].queued
  }

  function FirstOf(s: set<Addr>, timers: map<Addr, Timer>): (e: Opt<Addr>)
    requires s <= timers.Keys
    ensures e.None? <==> s == {}
    ensures e.Some? ==> IsLeast(s, Expiries(timers), e.v)
  {
    if s == {} then None else Some(Least(s, Expiries(timers)))
  }

  // `first_active`: the earliest timer eligible for selection.
  function EarliestActive(timers: map<Addr, Timer>): Opt<Addr> { FirstOf(ActiveSet(timers), timers) }

  // `first`: the earliest queued timer of either tree.
  function Earliest(timers: map<Addr, Timer>): Opt<Addr> { FirstOf(QueuedSet(timers), timers) }

  function Arm(k: Kernel, a: Addr, expireAt: nat, active: bool): Kernel {
    SetTm(k, a, Tm(k, a).(expireAt := expireAt, active := active, queued := true))
  }

  // `refresh_next_ktimer`: re-arms at most one expired active timer, then caches the earliest one.
  ghost function Refresh(k: Kernel): Outcome {
    var e := EarliestActive(k.timers);
    if e.None? || Tm(k, e.v).expireAt > k.now then Ok(k.(next := e))
    else var k1 :- Rearm(k, e.v); Ok(k1.(next := EarliestActive(k1.timers)))
  }

  // An expired active timer starts over; an RT job that overran its deadline halts the system.
  function Rearm(k: Kernel, a: Addr): Outcome {
    var tm := Tm(k, a);
    match tm.owner
    case RtTimer(t) =>
      if Th(k, t).runtime > tm.deadline then Missed(t)
      else Ok(Arm(SetTh(k, t, Th(k, t).(runtime := 0)), a, Sat64(k.now + tm.deadline), true))
    case _ => Ok(Arm(k, a, Sat64(k.now + tm.period), true))
  }

  // `yield_ktimer`: charges the elapsed ticks and parks the timer until the next period.
  function YieldTimer(k: Kernel, a: Addr, elapsed: nat, reset: bool): Kernel {
    var tm, later := Tm(k, a), Sat64(k.now + elapsed);
    match tm.owner
    case RtTimer(t) =>
      var ran := Sat32(Th(k, t).runtime + elapsed);
      var k1 := SetTh(k, t, Th(k, t).(runtime := if reset then 0 else ran));
      Arm(k1, a, Sat64(later + SatSub(tm.period, ran)), false).(now := later)
    case _ => Arm(k, a, Sat64(later + SatSub(tm.period, elapsed)), false).(now := later)
  }

  function OwnTimer(k: Kernel, t: Addr): Addr { if Th(k, t).kind.Rt? then Th(k, t).timer else k.cfsTimer }

  // ---------- Blocked threads ----------

  function WakeKeys(k: Kernel): map<Addr, int> { map t | t in k.waits :: Th(k, t).wakeAt }

  function LeastWake(k: Kernel): nat {
    if k.waits == {} then NEVER else Th(k, Least(k.waits, WakeKeys(k))).wakeAt
  }

  // `insert_wait_thread`: finite waits go to the timeout tree, endless ones to the FIFO list.
  function InsertWait(k: Kernel, t: Addr): Kernel {
    if Th(k, t).wakeAt == NEVER then SetState(k, t, Suspended).(suspended := k.suspended + [t])
    else SetState(k, t, Waiting).(waits := k.waits + {t})
  }

  ghost predicate Distinct(s: seq<Addr>) { forall i, j :: 0 <= i < j < |s| ==> s[i] != s[j] }

  function Without(s: seq<Addr>, t: Addr): seq<Addr> {
    if s == [] then [] else if s[0] == t then s[1..] else [s[0]] + Without(s[1..], t)
  }

  function RemoveWait(k: Kernel, t: Addr): Kernel {
    if Th(k, t).state.Suspended? then k.(suspended := Without(k.suspended, t)) else k.(waits := k.waits - {t})
  }

  // `program_wait_ktimer`
  ghost function ProgramWait(k: Kernel): Outcome { Refresh(Arm(k, k.waitTimer, LeastWake(k), false)) }

  // ---------- CFS run queue ----------

  function RunKeys(k: Kernel): map<Addr, int> { map t | t in k.runq :: Th(k, t).vruntime }

  function Leftmost(k: Kernel): Addr
    requires k.runq != {}
  { Least(k.runq, RunKeys(k)) }

  function AlignedVruntime(k: Kernel, t: Addr): nat {
    if k.runq == {} then Th(k, t).vruntime else Th(k, Leftmost(k)).vruntime
  }

  // `enqueue_runq_from_waitq`
  ghost function EnqueueRun(k: Kernel, t: Addr): Kernel {
    SetTh(k, t, Th(k, t).(state := Ready, vruntime := AlignedVruntime(k, t))).(
      prioritySum := Sat32(k.prioritySum + Th(k, t).priority), runq := k.runq + {t})
  }

  // ---------- Operations of the running thread ----------

  // `yieldyi`
  ghost function Yield(k: Kernel, elapsed: nat): Kernel {
    if Th(k, k.current).kind.Idle? then k
    else var k1 := YieldTimer(k, OwnTimer(k, k.current), elapsed, true); k1.(next := EarliestActive(k1.timers))
  }

  // `dequeue_runq_to_waitq` and `dequeue_ktimerq_to_waitq` for the current thread
  ghost function Park(k: Kernel): Outcome {
    var t := k.current;
    if Th(k, t).kind.Cfs? then
      var k1 := if Th(k, t).state.Ready? then k.(runq := k.runq - {t}) else k;
      ProgramWait(InsertWait(k1, t).(prioritySum := SatSub(k.prioritySum, Th(k, t).priority)))
    else
      var k1 := SetTm(k, Th(k, t).timer, Tm(k, Th(k, t).timer).(active := false, queued := false));
      var k2 :- if k.next == Some(Th(k, t).timer) then Refresh(k1) else Ok(k1);
      ProgramWait(InsertWait(k2, t))
  }

  // Leaves the CPU until absolute time `wakeAt`, or for good when that is NEVER.
  ghost function WaitUntil(k: Kernel, elapsed: nat, wakeAt: nat): Outcome {
    var k1 := YieldTimer(k, OwnTimer(k, k.current), elapsed, false);
    Park(SetTh(k1, k.current, Th(k1, k.current).(wakeAt := wakeAt)))
  }

  // `set_wake_after` once the clock has advanced.
  function WakeTime(now: nat, elapsed: nat, ticks: nat): (w: nat)
    ensures w <= NEVER && (now + elapsed + ticks < NEVER ==> w == now + elapsed + ticks)
  { Sat64(Sat64(now + elapsed) + ticks) }

  // `msleepyi`
  ghost function Sleep(k: Kernel, elapsed: nat, ticks: nat): Outcome {
    if Th(k, k.current).kind.Idle? then Ok(k) else WaitUntil(k, elapsed, WakeTime(k.now, elapsed, ticks))
  }

  // `block_current_thread`; an idle thread gets an error instead and nothing changes.
  ghost function Block(k: Kernel, elapsed: nat): Outcome
  {
    if Th(k, k.current).kind.Idle? then Ok(k) else WaitUntil(k, elapsed, NEVER)
  }

  // `wake_waiter`
  ghost function Wake(k: Kernel, t: Addr): Outcome {
    var k1 := RemoveWait(k, t);
    if Th(k, t).kind.Cfs? then ProgramWait(EnqueueRun(k1, t))
    else
      var k2 :- Refresh(Arm(SetState(k1, t, Ready), Th(k, t).timer, Tm(k, Th(k, t).timer).expireAt, true));
      ProgramWait(k2)
  }

  // `enqueue_thread` for a new CFS thread
  ghost function SpawnCfs(k: Kernel, t: Addr, priority: nat): Kernel {
    var k1 := SetTh(k, t, Thread(Cfs, Ready, priority, 0, 0, 0, 0));
    SetTh(k1, t, Th(k1, t).(vruntime := AlignedVruntime(k, t))).(
      runq := k.runq + {t}, prioritySum := k.prioritySum + priority)
  }

  // A new RT thread with its timer, whose first expiry is the relative deadline itself.
  ghost function SpawnRt(k: Kernel, t: Addr, a: Addr, period: nat, deadline: nat): Outcome {
    Refresh(SetTm(SetTh(k, t, Thread(Rt, Ready, 0, 0, 0, 0, a)), a,
      Timer(RtTimer(t), deadline, true, true, period, deadline)))
  }

  // `set_thread_scheduler_expire_at`
  ghost function SetExpire(k: Kernel, t: Addr, expireAt: nat): Outcome {
    if Th(k, t).kind.Idle? then Ok(k) else
    var a := OwnTimer(k, t);
    var k1 := SetTm(k, a, Tm(k, a).(expireAt := expireAt));
    if Tm(k, a).queued || k.next == Some(a) then Refresh(k1) else Ok(k1)
  }

  // ---------- The scheduler ----------

  function VruntimeDelta(elapsed: nat, priority: nat, sum: nat): nat {
    if sum == 0 then 0 else elapsed * priority / sum
  }

  function Charge(k: Kernel, elapsed: nat): Kernel {
    var c := Th(k, k.current);
    if k.currentIsCfs && c.state.Running? && k.current != k.idle && k.prioritySum != 0
    then SetTh(k, k.current, c.(vruntime := c.vruntime + VruntimeDelta(elapsed, c.priority, k.prioritySum)))
    else k
  }

  // The thread that runs next.
  ghost function Pick(k: Kernel): Addr {
    if k.next.None? then k.idle
    else match Tm(k, k.next.v).owner
      case RtTimer(t) => t
      case _ =>
        if !Tm(k, k.next.v).active || k.runq == {} then k.idle
        else if k.currentIsCfs && !IsBlocked(Th(k, k.current).state) && k.current != k.idle
             && Th(k, k.current).vruntime <= Th(k, Leftmost(k)).vruntime then k.current
        else Leftmost(k)
  }

  // The outgoing thread goes back to where its kind waits, unless it is blocked.
  function Preempt(k: Kernel): Kernel {
    if IsBlocked(Th(k, k.current).state) then k
    else
      var runq := if k.currentIsCfs && k.current != k.idle then k.runq + {k.current} else k.runq;
      SetState(k, k.current, Ready).(runq := runq)
  }

  function SwitchTo(k: Kernel, t: Addr): Kernel {
    var k1 := Preempt(k);
    SetState(k1, t, Running).(runq := k1.runq - {t}, current := t, currentIsCfs := Th(k, t).kind.Cfs?)
  }

  // `schedule`
  ghost function Schedule(k: Kernel, elapsed: nat): Kernel {
    var k1 := Charge(k, elapsed);
    if Pick(k1) == k1.current then k1 else SwitchTo(k1, Pick(k1))
  }
}
