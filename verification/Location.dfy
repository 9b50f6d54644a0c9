/** The invariant that ties every thread's state to the queue that holds it, kept by every step. */
module Location {
  import opened Kernel
  import opened SetSum

  // Where thread `t` must be found, by kind and state.
  ghost predicate PlaceOk(k: Kernel, t: Addr) {
    var th := Th(k, t);
    && (th.kind.Idle? <==> t == k.idle)
    && (th.kind.Idle? ==> !IsBlocked(th.state))
    && (t in k.runq <==> th.kind.Cfs? && th.state.Ready?)
    && (t in k.waits <==> th.state.Waiting?)
    && (t in k.suspended <==> th.state.Suspended?)
    && (th.state.Waiting? ==> th.wakeAt < NEVER)
    && (th.state.Running? ==> t == k.current)
  }

  // An RT thread's timer is queued exactly while the thread is not blocked. `x` is exempt.
  ghost predicate TimerLink(k: Kernel, t: Addr, x: Opt<Addr>) {
    var th := Th(k, t);
    th.kind.Rt? ==>
      && th.timer in k.timers && Tm(k, th.timer).owner == RtTimer(t)
      && (x == Some(t) || (Tm(k, th.timer).queued <==> !IsBlocked(th.state)))
  }

  ghost predicate ThreadOk(k: Kernel, t: Addr, x: Opt<Addr>) { PlaceOk(k, t) && TimerLink(k, t, x) }

  ghost predicate TimerOk(k: Kernel, a: Addr) {
    var tm := Tm(k, a);
    && (tm.owner.CfsTimer? <==> a == k.cfsTimer)
    && (tm.owner.WaitTimer? <==> a == k.waitTimer)
    && (tm.owner.RtTimer? ==>
         tm.owner.thread in k.threads && Th(k, tm.owner.thread).kind.Rt? && Th(k, tm.owner.thread).timer == a)
    && (tm.active ==> tm.queued && a != k.waitTimer)
    && (!tm.owner.RtTimer? ==> tm.queued)
    && (tm.owner.RtTimer? ==> tm.deadline >= 1)
    && (tm.owner.CfsTimer? ==> tm.period >= 1)
  }

  ghost predicate Threads(k: Kernel, x: Opt<Addr>) {
    && k.current in k.threads && k.idle in k.threads && !Th(k, k.current).state.Ready?
    && (k.currentIsCfs <==> Th(k, k.current).kind.Cfs?)
    && k.runq <= k.threads.Keys && k.waits <= k.threads.Keys && (forall t :: t in k.suspended ==> t in k.threads)
    && Distinct(k.suspended)
    && (forall t {:trigger ThreadOk(k, t, x)} {:trigger t in k.threads} :: t in k.threads ==> ThreadOk(k, t, x))
  }

  ghost predicate Timers(k: Kernel) {
    && k.cfsTimer in k.timers && k.waitTimer in k.timers && k.now < NEVER
    && (forall a {:trigger TimerOk(k, a)} {:trigger a in k.timers} :: a in k.timers ==> TimerOk(k, a))
  }

  // The CFS threads that compete for the CPU.
  ghost function Runnable(k: Kernel): set<Addr> {
    set t | t in k.threads && Th(k, t).kind.Cfs? && !IsBlocked(Th(k, t).state)
  }

  ghost function CfsThreads(k: Kernel): set<Addr> { set t | t in k.threads && Th(k, t).kind.Cfs? }

  // The running sum counts the queued CFS threads and an unblocked current one; all priorities together fit in u32.
  ghost predicate SumKept(k: Kernel) {
    k.prioritySum == SumOf(Runnable(k), k.threads) && SumOf(CfsThreads(k), k.threads) <= U32_MAX
  }

  // Everything but the two caches, which are stale inside an operation.
  ghost predicate CoreBut(k: Kernel, x: Opt<Addr>) { Threads(k, x) && Timers(k) && SumKept(k) }

  ghost predicate Core(k: Kernel) { CoreBut(k, None) }

  // Whoever owns a timer exists.
  ghost predicate Owned(k: Kernel) {
    forall a :: a in k.timers && Tm(k, a).owner.RtTimer? ==> Tm(k, a).owner.thread in k.threads
  }

  lemma CoreOwned(k: Kernel, x: Opt<Addr>)
    requires CoreBut(k, x)
    ensures Owned(k)
  {
    forall a | a in k.timers && Tm(k, a).owner.RtTimer? ensures Tm(k, a).owner.thread in k.threads {
      assert TimerOk(k, a);
    }
  }

  // The wait timer fires exactly at the least finite wake time.
  ghost predicate WaitArmed(k: Kernel) { Tm(k, k.waitTimer).expireAt == LeastWake(k) }

  // The cached next timer is the earliest active one.
  ghost predicate NextCached(k: Kernel) { k.next == EarliestActive(k.timers) }

  ghost predicate Inv(k: Kernel) { Core(k) && WaitArmed(k) && NextCached(k) }

  // Somebody runs: what `schedule` restores.
  ghost predicate Settled(k: Kernel) { Inv(k) && Th(k, k.current).state.Running? }

  // ---------- Timer changes leave every thread where it is ----------

  // Threads, queues and the current thread are the same up to RT runtimes.
  ghost predicate SameThreads(k: Kernel, k': Kernel) {
    && k' == k.(threads := k'.threads, timers := k'.timers, next := k'.next, now := k'.now)
    && k'.threads.Keys == k.threads.Keys
    && (forall t :: t in k.threads ==> Th(k', t) == Th(k, t).(runtime := Th(k', t).runtime))
  }

  // `k'` differs from `k` only in RT runtimes, timer expiries and the cache; the wait timer is untouched.
  ghost predicate Retimed(k: Kernel, k': Kernel) {
    && SameThreads(k, k') && k'.timers.Keys == k.timers.Keys
    && Tm(k', k.waitTimer) == Tm(k, k.waitTimer)
    && (forall a :: a in k.timers && !Tm(k, a).queued ==> Tm(k', a) == Tm(k, a))
  }

  // The cache is no part of the core.
  lemma CacheFree(k: Kernel, e: Opt<Addr>, x: Opt<Addr>)
    requires CoreBut(k, x)
    ensures CoreBut(k.(next := e), x) && LeastWake(k.(next := e)) == LeastWake(k)
  {
    var k' := k.(next := e);
    forall t | t in k'.threads ensures ThreadOk(k', t, x) { assert ThreadOk(k, t, x); }
    forall b | b in k'.timers ensures TimerOk(k', b) { assert TimerOk(k, b); }
    assert Runnable(k') == Runnable(k) && CfsThreads(k') == CfsThreads(k) && WakeKeys(k') == WakeKeys(k);
  }

  lemma RetimedWaits(k: Kernel, k': Kernel)
    requires Retimed(k, k') && k.waits <= k.threads.Keys
    ensures LeastWake(k') == LeastWake(k)
  {
    assert WakeKeys(k') == WakeKeys(k);
  }

  lemma RetimedSum(k: Kernel, k': Kernel)
    requires Retimed(k, k') && SumKept(k)
    ensures SumKept(k')
  {
    assert Runnable(k') == Runnable(k) && CfsThreads(k') == CfsThreads(k);
    SumSame(Runnable(k), k.threads, k'.threads);
    SumSame(CfsThreads(k), k.threads, k'.threads);
  }

  lemma RearmThread(k: Kernel, a: Addr, x: Opt<Addr>, k': Kernel, t: Addr)
    requires TimerOk(k, a) && Tm(k, a).queued && Rearm(k, a) == Ok(k') && a in k.timers && ThreadOk(k, t, x)
    ensures ThreadOk(k', t, x)
  {
  }

  lemma RearmTimer(k: Kernel, a: Addr, k': Kernel, b: Addr)
    requires TimerOk(k, a) && Tm(k, a).queued && a != k.waitTimer && Rearm(k, a) == Ok(k') && TimerOk(k, b)
    ensures TimerOk(k', b)
  {
  }

  lemma RearmRetimes(k: Kernel, a: Addr, k': Kernel)
    requires TimerOk(k, a) && Tm(k, a).queued && a in k.timers && a != k.waitTimer && Rearm(k, a) == Ok(k')
    ensures Retimed(k, k')
  {
  }

  lemma RearmCore(k: Kernel, a: Addr, x: Opt<Addr>)
    requires CoreBut(k, x) && a in ActiveSet(k.timers) && Rearm(k, a).Ok?
    ensures CoreBut(Rearm(k, a).k, x) && Retimed(k, Rearm(k, a).k)
  {
    var k' := Rearm(k, a).k;
    assert TimerOk(k, a);
    RearmRetimes(k, a, k');
    RetimedSum(k, k');
    forall t | t in k'.threads ensures ThreadOk(k', t, x) { RearmThread(k, a, x, k', t); }
    forall b | b in k'.timers ensures TimerOk(k', b) { RearmTimer(k, a, k', b); }
  }

  // `refresh_next_ktimer` keeps the core and restores the cache.
  lemma RefreshCore(k: Kernel, x: Opt<Addr>)
    requires CoreBut(k, x) && Refresh(k).Ok?
    ensures CoreBut(Refresh(k).k, x) && NextCached(Refresh(k).k) && Retimed(k, Refresh(k).k)
  {
    var e := EarliestActive(k.timers);
    if e.None? || Tm(k, e.v).expireAt > k.now {
      CacheFree(k, e, x);
    } else {
      RearmCore(k, e.v, x);
      var k1 := Rearm(k, e.v).k;
      CacheFree(k1, EarliestActive(k1.timers), x);
    }
  }

  lemma RefreshInv(k: Kernel)
    requires Core(k) && WaitArmed(k) && Refresh(k).Ok?
    ensures Inv(Refresh(k).k)
  {
    RefreshCore(k, None);
    RetimedWaits(k, Refresh(k).k);
  }

  lemma ArmWaitCore(k: Kernel)
    requires Core(k)
    ensures var k' := Arm(k, k.waitTimer, LeastWake(k), false); Core(k') && WaitArmed(k')
  {
    var k' := Arm(k, k.waitTimer, LeastWake(k), false);
    forall t | t in k'.threads ensures ThreadOk(k', t, None) { assert ThreadOk(k, t, None); }
    forall b | b in k'.timers ensures TimerOk(k', b) { assert TimerOk(k, b); }
    assert Runnable(k') == Runnable(k) && CfsThreads(k') == CfsThreads(k) && WakeKeys(k') == WakeKeys(k);
  }

  // `program_wait_ktimer` restores the whole invariant.
  lemma ProgramWaitInv(k: Kernel)
    requires Core(k) && ProgramWait(k).Ok?
    ensures Inv(ProgramWait(k).k)
  {
    ArmWaitCore(k);
    RefreshInv(Arm(k, k.waitTimer, LeastWake(k), false));
  }

  // ---------- Yield, sleep and block ----------

  lemma YieldTimerCore(k: Kernel, elapsed: nat, reset: bool)
    requires Core(k) && k.now + elapsed < NEVER && Th(k, k.current).state.Running? && !Th(k, k.current).kind.Idle?
    ensures var k' := YieldTimer(k, OwnTimer(k, k.current), elapsed, reset);
      Core(k') && Retimed(k, k') && k'.now == k.now + elapsed && OwnTimer(k', k.current) == OwnTimer(k, k.current)
  {
    var a := OwnTimer(k, k.current);
    var k' := YieldTimer(k, a, elapsed, reset);
    assert ThreadOk(k, k.current, None) && TimerOk(k, a);
    RetimedSum(k, k');
    forall t | t in k'.threads ensures ThreadOk(k', t, None) { assert ThreadOk(k, t, None); }
    forall b | b in k'.timers ensures TimerOk(k', b) { assert TimerOk(k, b); }
  }

  // `yieldyi` keeps the invariant, and the caller still runs.
  lemma YieldInv(k: Kernel, elapsed: nat)
    requires Settled(k) && k.now + elapsed < NEVER
    ensures Settled(Yield(k, elapsed))
  {
    if !Th(k, k.current).kind.Idle? {
      YieldTimerCore(k, elapsed, true);
      var k1 := YieldTimer(k, OwnTimer(k, k.current), elapsed, true);
      RetimedWaits(k, k1);
      CacheFree(k1, EarliestActive(k1.timers), None);
    }
  }

  lemma DistinctAppend(s: seq<Addr>, t: Addr)
    requires Distinct(s) && t !in s
    ensures Distinct(s + [t])
  {
  }

  lemma ParkCfsSum(k: Kernel, k': Kernel, c: Addr)
    requires SumKept(k) && c in k.threads && Th(k, c).kind.Cfs? && !IsBlocked(Th(k, c).state)
    requires k'.threads.Keys == k.threads.Keys && k'.prioritySum == SatSub(k.prioritySum, Th(k, c).priority)
    requires IsBlocked(Th(k', c).state) && Th(k', c) == Th(k, c).(state := Th(k', c).state)
    requires forall t :: t in k.threads && t != c ==> Th(k', t) == Th(k, t)
    ensures SumKept(k')
  {
    assert Runnable(k') == Runnable(k) - {c} && CfsThreads(k') == CfsThreads(k);
    SumRemove(Runnable(k), k.threads, c);
    SumSame(Runnable(k'), k.threads, k'.threads);
    SumSame(CfsThreads(k), k.threads, k'.threads);
  }

  // A running CFS thread leaves for a blocked queue.
  lemma ParkCfsCore(k: Kernel)
    requires Core(k) && Th(k, k.current).state.Running? && Th(k, k.current).kind.Cfs?
    requires Th(k, k.current).wakeAt <= NEVER
    ensures Core(InsertWait(k, k.current).(prioritySum := SatSub(k.prioritySum, Th(k, k.current).priority)))
  {
    var c := k.current;
    var k' := InsertWait(k, c).(prioritySum := SatSub(k.prioritySum, Th(k, c).priority));
    assert ThreadOk(k, c, None);
    forall t | t in k'.threads ensures ThreadOk(k', t, None) { assert ThreadOk(k, t, None); }
    forall b | b in k'.timers ensures TimerOk(k', b) { assert TimerOk(k, b); }
    DistinctAppend(k.suspended, c);
    ParkCfsSum(k, k', c);
  }

  // A running RT thread whose timer has already left the queue does the same.
  lemma ParkRtCore(k: Kernel)
    requires CoreBut(k, Some(k.current)) && Th(k, k.current).state.Running? && Th(k, k.current).kind.Rt?
    requires Th(k, k.current).wakeAt <= NEVER && !Tm(k, Th(k, k.current).timer).queued
    ensures Core(InsertWait(k, k.current))
  {
    var c, x := k.current, Some(k.current);
    var k' := InsertWait(k, c);
    assert ThreadOk(k, c, x);
    forall t | t in k'.threads ensures ThreadOk(k', t, None) { assert ThreadOk(k, t, x); }
    forall b | b in k'.timers ensures TimerOk(k', b) { assert TimerOk(k, b); }
    DistinctAppend(k.suspended, c);
    assert Runnable(k') == Runnable(k) && CfsThreads(k') == CfsThreads(k);
    SumSame(Runnable(k), k.threads, k'.threads);
    SumSame(CfsThreads(k), k.threads, k'.threads);
  }

  lemma DequeueCore(k: Kernel)
    requires Core(k) && Th(k, k.current).kind.Rt?
    ensures var a := Th(k, k.current).timer;
      CoreBut(SetTm(k, a, Tm(k, a).(active := false, queued := false)), Some(k.current))
  {
    var a, x := Th(k, k.current).timer, Some(k.current);
    var k' := SetTm(k, a, Tm(k, a).(active := false, queued := false));
    assert ThreadOk(k, k.current, None) && TimerOk(k, a);
    forall t | t in k'.threads ensures ThreadOk(k', t, x) { assert ThreadOk(k, t, None); }
    forall b | b in k'.timers ensures TimerOk(k', b) { assert TimerOk(k, b); }
    assert Runnable(k') == Runnable(k) && CfsThreads(k') == CfsThreads(k);
  }

  // No step takes a blocked thread straight to running.
  ghost predicate Legal(k: Kernel, k': Kernel) {
    forall t :: t in k.threads ==> t in k'.threads && CanTransition(Th(k, t).state, Th(k', t).state)
  }

  lemma ProgramWaitLegal(k: Kernel)
    requires Core(k) && ProgramWait(k).Ok?
    ensures Inv(ProgramWait(k).k) && SameThreads(k, ProgramWait(k).k)
  {
    ProgramWaitInv(k);
    ArmWaitCore(k);
    RefreshCore(Arm(k, k.waitTimer, LeastWake(k), false), None);
  }

  // The current thread blocks: every thread but it keeps its state.
  ghost predicate OnlyCurrentBlocks(k: Kernel, k': Kernel) {
    && k'.current == k.current && IsBlocked(Th(k', k.current).state) && k'.threads.Keys == k.threads.Keys
    && Th(k', k.current).kind == Th(k, k.current).kind
    && (forall t :: t in k.threads && t != k.current ==> Th(k', t) == Th(k, t).(runtime := Th(k', t).runtime))
    && k'.runq == k.runq && (k'.suspended == k.suspended || k'.suspended == k.suspended + [k.current])
  }

  lemma ParksRt(k: Kernel, k2: Kernel, k': Kernel)
    requires k.current in k.threads && k2.threads.Keys == k.threads.Keys && k2.current == k.current
    requires k2.runq == k.runq && k2.waits == k.waits && k2.suspended == k.suspended
    requires forall t :: t in k.threads ==> Th(k2, t) == Th(k, t).(runtime := Th(k2, t).runtime)
    requires SameThreads(InsertWait(k2, k.current), k')
    ensures OnlyCurrentBlocks(k, k')
    ensures Th(k, k.current).wakeAt == NEVER ==> k'.suspended == k.suspended + [k.current] && k'.waits == k.waits
  {
  }

  lemma ParkRtInv(k: Kernel)
    requires Core(k) && Th(k, k.current).state.Running? && Th(k, k.current).kind.Rt?
    requires Th(k, k.current).wakeAt <= NEVER && Park(k).Ok?
    ensures Inv(Park(k).k) && OnlyCurrentBlocks(k, Park(k).k)
    ensures Th(k, k.current).wakeAt == NEVER ==>
      Park(k).k.suspended == k.suspended + [k.current] && Park(k).k.waits == k.waits
  {
    var c := k.current;
    assert ThreadOk(k, c, None);
    var a := Th(k, c).timer;
    var k1 := SetTm(k, a, Tm(k, a).(active := false, queued := false));
    DequeueCore(k);
    if k.next == Some(a) { RefreshCore(k1, Some(c)); }
    var k2 := if k.next == Some(a) then Refresh(k1).k else k1;
    ParkRtCore(k2);
    ProgramWaitLegal(InsertWait(k2, c));
    ParksRt(k, k2, Park(k).k);
  }

  lemma ParkInv(k: Kernel)
    requires Core(k) && Th(k, k.current).state.Running? && !Th(k, k.current).kind.Idle?
    requires Th(k, k.current).wakeAt <= NEVER
    requires Park(k).Ok?
    ensures Inv(Park(k).k) && OnlyCurrentBlocks(k, Park(k).k)
    ensures Th(k, k.current).wakeAt == NEVER ==>
      Park(k).k.suspended == k.suspended + [k.current] && Park(k).k.waits == k.waits
  {
    if Th(k, k.current).kind.Cfs? {
      ParkCfsCore(k);
      ProgramWaitLegal(InsertWait(k, k.current).(prioritySum := SatSub(k.prioritySum, Th(k, k.current).priority)));
    } else {
      ParkRtInv(k);
    }
  }

  lemma WakeTimeCore(k: Kernel, w: nat)
    requires Core(k) && Th(k, k.current).state.Running?
    ensures Core(SetTh(k, k.current, Th(k, k.current).(wakeAt := w)))
  {
    var k' := SetTh(k, k.current, Th(k, k.current).(wakeAt := w));
    forall t | t in k'.threads ensures ThreadOk(k', t, None) { assert ThreadOk(k, t, None); }
    forall b | b in k'.timers ensures TimerOk(k', b) { assert TimerOk(k, b); }
    assert Runnable(k') == Runnable(k) && CfsThreads(k') == CfsThreads(k);
    SumSame(Runnable(k), k.threads, k'.threads);
    SumSame(CfsThreads(k), k.threads, k'.threads);
  }

  // The state in which the caller parks: charged, its timer inactive, its wake time set.
  lemma LeavingCore(k: Kernel, elapsed: nat, wakeAt: nat, k2: Kernel)
    requires Core(k) && Th(k, k.current).state.Running? && k.now + elapsed < NEVER && !Th(k, k.current).kind.Idle?
    requires var k1 := YieldTimer(k, OwnTimer(k, k.current), elapsed, false);
      k2 == SetTh(k1, k.current, Th(k1, k.current).(wakeAt := wakeAt))
    ensures Core(k2) && k2.current == k.current && Th(k2, k.current).wakeAt == wakeAt
    ensures Th(k2, k.current).kind == Th(k, k.current).kind && Th(k2, k.current).state.Running?
    ensures k2.threads.Keys == k.threads.Keys && k2.runq == k.runq && k2.suspended == k.suspended && k2.waits == k.waits
    ensures forall t :: t in k.threads && t != k.current ==> Th(k2, t) == Th(k, t).(runtime := Th(k2, t).runtime)
  {
    YieldTimerCore(k, elapsed, false);
    WakeTimeCore(YieldTimer(k, OwnTimer(k, k.current), elapsed, false), wakeAt);
  }

  // `msleepyi` and `block_current_thread`
  lemma WaitUntilInv(k: Kernel, elapsed: nat, wakeAt: nat)
    requires Settled(k) && k.now + elapsed < NEVER && !Th(k, k.current).kind.Idle? && wakeAt <= NEVER
    requires WaitUntil(k, elapsed, wakeAt).Ok?
    ensures var k' := WaitUntil(k, elapsed, wakeAt).k;
      && Inv(k') && OnlyCurrentBlocks(k, k') && Legal(k, k')
      && (wakeAt == NEVER ==> k'.suspended == k.suspended + [k.current] && k'.waits == k.waits)
  {
    var k1 := YieldTimer(k, OwnTimer(k, k.current), elapsed, false);
    var k2 := SetTh(k1, k.current, Th(k1, k.current).(wakeAt := wakeAt));
    LeavingCore(k, elapsed, wakeAt, k2);
    ParkInv(k2);
  }

  // ---------- Wake ----------

  lemma {:induction false} WithoutMembers(s: seq<Addr>, t: Addr)
    requires Distinct(s)
    ensures Distinct(Without(s, t)) && forall u :: u in Without(s, t) <==> u in s && u != t
  {
    if s != [] {
      var r := s[1..];
      assert s == [s[0]] + r;
      assert s[0] !in r by { assert forall i :: 0 <= i < |r| ==> r[i] == s[i + 1]; }
      WithoutMembers(r, t);
    }
  }

  // The others keep their order.
  lemma {:induction false} WithoutSplits(s: seq<Addr>, i: nat)
    requires Distinct(s) && i < |s|
    ensures Without(s, s[i]) == s[..i] + s[i + 1..]
  {
    if i > 0 {
      WithoutSplits(s[1..], i - 1);
      assert s[..i] == [s[0]] + s[1..][..i - 1] && s[1..][i - 1] == s[i] && s[1..][i..] == s[i + 1..];
    }
  }

  // `k1` is `k` with `t` unlinked from whichever blocked queue held it.
  ghost predicate Unlinked(k: Kernel, k1: Kernel, t: Addr) {
    && k1 == k.(waits := k1.waits, suspended := k1.suspended) && Distinct(k1.suspended) && k1.waits <= k.waits
    && (forall u :: u in k1.waits <==> u in k.waits && u != t)
    && (forall u :: u in k1.suspended <==> u in k.suspended && u != t)
  }

  lemma RemoveWaitUnlinks(k: Kernel, t: Addr)
    requires Core(k) && t in k.threads && IsBlocked(Th(k, t).state)
    ensures Unlinked(k, RemoveWait(k, t), t)
  {
    assert ThreadOk(k, t, None);
    WithoutMembers(k.suspended, t);
  }

  lemma WakeCfsSum(k: Kernel, k': Kernel, t: Addr)
    requires SumKept(k) && t in k.threads && IsBlocked(Th(k, t).state) && Th(k, t).kind.Cfs?
    requires k'.threads.Keys == k.threads.Keys && k'.prioritySum == Sat32(k.prioritySum + Th(k, t).priority)
    requires Th(k', t) == Th(k, t).(state := Ready, vruntime := Th(k', t).vruntime)
    requires forall u :: u in k.threads && u != t ==> Th(k', u) == Th(k, u)
    ensures SumKept(k')
  {
    assert Runnable(k') == Runnable(k) + {t} && CfsThreads(k') == CfsThreads(k);
    SumInsert(Runnable(k), k.threads, t);
    SumMonotone(Runnable(k'), CfsThreads(k), k.threads);
    SumSame(Runnable(k'), k.threads, k'.threads);
    SumSame(CfsThreads(k), k.threads, k'.threads);
  }

  lemma WakeCfsCore(k: Kernel, k1: Kernel, t: Addr)
    requires Core(k) && t in k.threads && IsBlocked(Th(k, t).state) && t != k.current && Th(k, t).kind.Cfs?
    requires Unlinked(k, k1, t)
    ensures Core(EnqueueRun(k1, t))
  {
    var k' := EnqueueRun(k1, t);
    assert ThreadOk(k, t, None);
    forall u | u in k'.threads ensures ThreadOk(k', u, None) { assert ThreadOk(k, u, None); }
    forall b | b in k'.timers ensures TimerOk(k', b) { assert TimerOk(k, b); }
    WakeCfsSum(k, k', t);
  }

  lemma WakeRtCore(k: Kernel, k1: Kernel, t: Addr, ran: nat, e: nat)
    requires Core(k) && t in k.threads && IsBlocked(Th(k, t).state) && t != k.current && Th(k, t).kind.Rt?
    requires Unlinked(k, k1, t)
    ensures Core(Arm(SetTh(k1, t, Th(k, t).(state := Ready, runtime := ran)), Th(k, t).timer, e, true))
  {
    var k' := Arm(SetTh(k1, t, Th(k, t).(state := Ready, runtime := ran)), Th(k, t).timer, e, true);
    assert ThreadOk(k, t, None) && TimerOk(k, Th(k, t).timer);
    forall u | u in k'.threads ensures ThreadOk(k', u, None) { assert ThreadOk(k, u, None); }
    forall b | b in k'.timers ensures TimerOk(k', b) { assert TimerOk(k, b); }
    assert Runnable(k') == Runnable(k) && CfsThreads(k') == CfsThreads(k);
    SumSame(Runnable(k), k.threads, k'.threads);
    SumSame(CfsThreads(k), k.threads, k'.threads);
  }

  // `t` became ready; no other thread moved.
  ghost predicate OnlyWakes(k: Kernel, k': Kernel, t: Addr) {
    && t in k.threads && Th(k', t).state.Ready? && k'.current == k.current && k'.threads.Keys == k.threads.Keys
    && (forall u :: u in k.threads && u != t ==> Th(k', u) == Th(k, u).(runtime := Th(k', u).runtime))
    && (forall u :: u in k'.suspended <==> u in k.suspended && u != t)
    && (forall u :: u in k'.waits <==> u in k.waits && u != t)
    && Th(k', t).kind == Th(k, t).kind
    && (if Th(k, t).kind.Cfs? then k'.runq == k.runq + {t} && Th(k', t).vruntime == AlignedVruntime(k, t)
         else k'.runq == k.runq)
  }

  lemma WakesRt(k: Kernel, k1: Kernel, t: Addr, k2: Kernel, k': Kernel)
    requires t in k.threads && Th(k, t).kind.Rt? && Unlinked(k, k1, t) && SameThreads(k2, k')
    requires k2.(timers := k1.timers) == SetState(k1, t, Ready)
    ensures OnlyWakes(k, k', t)
  {
  }

  lemma SameThreadsTrans(k: Kernel, k1: Kernel, k2: Kernel)
    requires SameThreads(k, k1) && SameThreads(k1, k2)
    ensures SameThreads(k, k2)
  {
  }

  lemma WakeRtInv(k: Kernel, k1: Kernel, t: Addr, e: nat)
    requires Core(k) && t in k.threads && IsBlocked(Th(k, t).state) && t != k.current && Th(k, t).kind.Rt?
    requires Unlinked(k, k1, t)
    ensures var r := Refresh(Arm(SetState(k1, t, Ready), Th(k, t).timer, e, true));
      r.Ok? && ProgramWait(r.k).Ok? ==> Inv(ProgramWait(r.k).k) && OnlyWakes(k, ProgramWait(r.k).k, t)
  {
    WakeRtCore(k, k1, t, Th(k, t).runtime, e);
    var k2 := Arm(SetState(k1, t, Ready), Th(k, t).timer, e, true);
    if Refresh(k2).Ok? && ProgramWait(Refresh(k2).k).Ok? {
      RefreshCore(k2, None);
      var k3 := Refresh(k2).k;
      ProgramWaitLegal(k3);
      SameThreadsTrans(k2, k3, ProgramWait(k3).k);
      WakesRt(k, k1, t, k2, ProgramWait(k3).k);
    }
  }

  lemma WakesCfs(k: Kernel, k1: Kernel, t: Addr, k2: Kernel, k': Kernel)
    requires t in k.threads && Th(k, t).kind.Cfs? && Unlinked(k, k1, t) && SameThreads(k2, k')
    requires k2 == EnqueueRun(k1, t)
    ensures OnlyWakes(k, k', t)
  {
    assert RunKeys(k1) == RunKeys(k);
  }

  lemma WakeCfsInv(k: Kernel, k1: Kernel, t: Addr)
    requires Core(k) && t in k.threads && IsBlocked(Th(k, t).state) && t != k.current && Th(k, t).kind.Cfs?
    requires Unlinked(k, k1, t) && ProgramWait(EnqueueRun(k1, t)).Ok?
    ensures Inv(ProgramWait(EnqueueRun(k1, t)).k) && OnlyWakes(k, ProgramWait(EnqueueRun(k1, t)).k, t)
  {
    WakeCfsCore(k, k1, t);
    var k2 := EnqueueRun(k1, t);
    ProgramWaitLegal(k2);
    WakesCfs(k, k1, t, k2, ProgramWait(k2).k);
  }

  // `wake_waiter`: the thread becomes ready and no other thread moves.
  lemma WakeInv(k: Kernel, t: Addr)
    requires Inv(k) && t in k.threads && IsBlocked(Th(k, t).state) && t != k.current && Wake(k, t).Ok?
    ensures Inv(Wake(k, t).k) && OnlyWakes(k, Wake(k, t).k, t)
  {
    assert ThreadOk(k, t, None);
    RemoveWaitUnlinks(k, t);
    var k1 := RemoveWait(k, t);
    if Th(k, t).kind.Cfs? {
      WakeCfsInv(k, k1, t);
    } else {
      WakeRtInv(k, k1, t, Tm(k, Th(k, t).timer).expireAt);
    }
  }

  // ---------- Spawn and re-key ----------

  lemma SpawnSum(k: Kernel, k': Kernel, t: Addr)
    requires SumKept(k) && t !in k.threads && Th(k', t).kind.Cfs? && Th(k', t).state.Ready?
    requires k'.threads.Keys == k.threads.Keys + {t}
    requires forall u :: u in k.threads ==> Th(k', u) == Th(k, u)
    requires k'.prioritySum == k.prioritySum + Th(k', t).priority
    requires SumOf(CfsThreads(k), k.threads) + Th(k', t).priority <= U32_MAX
    ensures SumKept(k')
  {
    assert Runnable(k') == Runnable(k) + {t} && CfsThreads(k') == CfsThreads(k) + {t};
    SumInsert(Runnable(k), k'.threads, t);
    SumInsert(CfsThreads(k), k'.threads, t);
    SumSame(Runnable(k), k.threads, k'.threads);
    SumSame(CfsThreads(k), k.threads, k'.threads);
  }

  lemma SpawnCfsInv(k: Kernel, t: Addr, priority: nat)
    requires Inv(k) && t !in k.threads && priority > 0 && SumOf(CfsThreads(k), k.threads) + priority <= U32_MAX
    ensures Inv(SpawnCfs(k, t, priority)) && Legal(k, SpawnCfs(k, t, priority))
  {
    var k' := SpawnCfs(k, t, priority);
    forall u | u in k'.threads ensures ThreadOk(k', u, None) { if u != t { assert ThreadOk(k, u, None); } }
    forall b | b in k'.timers ensures TimerOk(k', b) { assert TimerOk(k, b); }
    assert WakeKeys(k') == WakeKeys(k);
    SpawnSum(k, k', t);
  }

  lemma SpawnRtCore(k: Kernel, t: Addr, a: Addr, period: nat, deadline: nat, k': Kernel)
    requires Inv(k) && t !in k.threads && a !in k.timers && deadline >= 1
    requires k' == SetTm(SetTh(k, t, Thread(Rt, Ready, 0, 0, 0, 0, a)), a,
      Timer(RtTimer(t), deadline, true, true, period, deadline))
    ensures Core(k') && WaitArmed(k')
  {
    forall u | u in k'.threads ensures ThreadOk(k', u, None) { if u != t { assert ThreadOk(k, u, None); } }
    forall b | b in k'.timers ensures TimerOk(k', b) { if b != a { assert TimerOk(k, b); } }
    assert Runnable(k') == Runnable(k) && CfsThreads(k') == CfsThreads(k) && WakeKeys(k') == WakeKeys(k);
    SumSame(Runnable(k), k.threads, k'.threads);
    SumSame(CfsThreads(k), k.threads, k'.threads);
  }

  lemma SpawnRtInv(k: Kernel, t: Addr, a: Addr, period: nat, deadline: nat)
    requires Inv(k) && t !in k.threads && a !in k.timers && deadline >= 1 && SpawnRt(k, t, a, period, deadline).Ok?
    ensures Inv(SpawnRt(k, t, a, period, deadline).k) && Legal(k, SpawnRt(k, t, a, period, deadline).k)
  {
    var k' := SetTm(SetTh(k, t, Thread(Rt, Ready, 0, 0, 0, 0, a)), a,
      Timer(RtTimer(t), deadline, true, true, period, deadline));
    SpawnRtCore(k, t, a, period, deadline, k');
    RefreshInv(k');
    RefreshCore(k', None);
  }

  // `set_thread_scheduler_expire_at`: a deadline boost or its restoration.
  lemma SetExpireInv(k: Kernel, t: Addr, e: nat)
    requires Inv(k) && t in k.threads && SetExpire(k, t, e).Ok?
    ensures Inv(SetExpire(k, t, e).k) && SameThreads(k, SetExpire(k, t, e).k)
  {
    if !Th(k, t).kind.Idle? {
      var a := OwnTimer(k, t);
      assert ThreadOk(k, t, None) && TimerOk(k, a);
      var k' := SetTm(k, a, Tm(k, a).(expireAt := e));
      RekeyedCore(k, a, e, k');
      if Tm(k, a).queued || k.next == Some(a) {
        RefreshInv(k');
        RefreshCore(k', None);
      } else {
        UnqueuedKeepsFirst(k.timers, k'.timers, a);
      }
    }
  }

  lemma RekeyedCore(k: Kernel, a: Addr, e: nat, k': Kernel)
    requires Core(k) && WaitArmed(k) && a in k.timers && a != k.waitTimer && k' == SetTm(k, a, Tm(k, a).(expireAt := e))
    ensures Core(k') && WaitArmed(k') && ActiveSet(k'.timers) == ActiveSet(k.timers)
  {
    forall u | u in k'.threads ensures ThreadOk(k', u, None) { assert ThreadOk(k, u, None); }
    forall b | b in k'.timers ensures TimerOk(k', b) { assert TimerOk(k, b); }
    assert Runnable(k') == Runnable(k) && CfsThreads(k') == CfsThreads(k) && WakeKeys(k') == WakeKeys(k);
  }

  lemma UnqueuedKeepsFirst(timers: map<Addr, Timer>, timers': map<Addr, Timer>, a: Addr)
    requires a !in ActiveSet(timers) && timers'.Keys == timers.Keys && ActiveSet(timers') == ActiveSet(timers)
    requires forall b :: b in timers && b != a ==> timers'[b] == timers[b]
    ensures EarliestActive(timers') == EarliestActive(timers)
  {
    var e, e' := EarliestActive(timers), EarliestActive(timers');
    if e.Some? {
      assert IsLeast(ActiveSet(timers), Expiries(timers), e'.v);
    }
  }
}
