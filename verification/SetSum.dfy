/** Sums of weights over finite sets: thread priorities, and the room that competitors have left. */
module SetSum {
  import opened Kernel

  function WeightOf(w: map<Addr, nat>, t: Addr): nat { if t in w then w[t] else 0 }

  ghost function Total(s: set<Addr>, w: map<Addr, nat>): nat
    decreases |s|
  {
    if s == {} then 0 else
      Inhabited(s);
      var t :| t in s;
      WeightOf(w, t) + Total(s - {t}, w)
  }

  // The order of summation does not matter: any member can be split off.
  lemma {:induction false} TotalRemove(s: set<Addr>, w: map<Addr, nat>, t: Addr)
    requires t in s
    ensures Total(s, w) == WeightOf(w, t) + Total(s - {t}, w)
    decreases |s|
  {
    Inhabited(s);
    var x :| x in s && Total(s, w) == WeightOf(w, x) + Total(s - {x}, w);
    if x != t {
      TotalRemove(s - {x}, w, t);
      TotalRemove(s - {t}, w, x);
      assert s - {x} - {t} == s - {t} - {x};
    }
  }

  // Lighter members make a lighter total.
  lemma {:induction false} TotalMost(s: set<Addr>, w: map<Addr, nat>, w': map<Addr, nat>)
    requires forall t :: t in s ==> WeightOf(w, t) <= WeightOf(w', t)
    ensures Total(s, w) <= Total(s, w')
    decreases |s|
  {
    if s != {} {
      Inhabited(s);
      var t :| t in s;
      TotalRemove(s, w, t);
      TotalRemove(s, w', t);
      TotalMost(s - {t}, w, w');
    }
  }

  lemma TotalLess(s: set<Addr>, w: map<Addr, nat>, w': map<Addr, nat>, x: Addr)
    requires x in s && WeightOf(w, x) < WeightOf(w', x)
    requires forall t :: t in s ==> WeightOf(w, t) <= WeightOf(w', t)
    ensures Total(s, w) < Total(s, w')
  {
    TotalRemove(s, w, x);
    TotalRemove(s, w', x);
    TotalMost(s - {x}, w, w');
  }

  lemma {:induction false} TotalSubset(s: set<Addr>, u: set<Addr>, w: map<Addr, nat>)
    requires s <= u
    ensures Total(s, w) <= Total(u, w)
    decreases |s|
  {
    if s != {} {
      Inhabited(s);
      var t :| t in s;
      TotalRemove(s, w, t);
      TotalRemove(u, w, t);
      TotalSubset(s - {t}, u - {t}, w);
    }
  }

  lemma {:induction false} TotalUnion(s: set<Addr>, u: set<Addr>, w: map<Addr, nat>)
    requires s !! u
    ensures Total(s + u, w) == Total(s, w) + Total(u, w)
    decreases |u|
  {
    if u == {} {
      assert s + u == s;
    } else {
      Inhabited(u);
      var t :| t in u;
      TotalRemove(u, w, t);
      TotalRemove(s + u, w, t);
      assert s + u - {t} == s + (u - {t});
      TotalUnion(s, u - {t}, w);
    }
  }

  lemma OneMore(n: nat, most: nat)
    ensures (n + 1) * most == n * most + most
  {
  }

  lemma {:induction false} TotalAtMost(s: set<Addr>, w: map<Addr, nat>, most: nat)
    requires forall t :: t in s ==> WeightOf(w, t) <= most
    ensures Total(s, w) <= |s| * most
    decreases |s|
  {
    if s != {} {
      Inhabited(s);
      var t :| t in s;
      TotalRemove(s, w, t);
      TotalAtMost(s - {t}, w, most);
      OneMore(|s - {t}|, most);
    }
  }

  // ---------- Priorities ----------

  function PriorityOf(threads: map<Addr, Thread>, t: Addr): nat { if t in threads then threads[t].priority else 0 }

  ghost function Priorities(threads: map<Addr, Thread>): map<Addr, nat> { map t | t in threads :: threads[t].priority }

  ghost function SumOf(s: set<Addr>, threads: map<Addr, Thread>): nat { Total(s, Priorities(threads)) }

  // Only the priorities of the members matter.
  lemma SumSame(s: set<Addr>, p: map<Addr, Thread>, q: map<Addr, Thread>)
    requires forall t :: t in s ==> PriorityOf(p, t) == PriorityOf(q, t)
    ensures SumOf(s, p) == SumOf(s, q)
  {
    TotalMost(s, Priorities(p), Priorities(q));
    TotalMost(s, Priorities(q), Priorities(p));
  }

  lemma SumRemove(s: set<Addr>, threads: map<Addr, Thread>, t: Addr)
    requires t in s
    ensures SumOf(s, threads) == PriorityOf(threads, t) + SumOf(s - {t}, threads)
  {
    TotalRemove(s, Priorities(threads), t);
  }

  lemma SumInsert(s: set<Addr>, threads: map<Addr, Thread>, t: Addr)
    requires t !in s
    ensures SumOf(s + {t}, threads) == PriorityOf(threads, t) + SumOf(s, threads)
  {
    SumRemove(s + {t}, threads, t);
    assert s + {t} - {t} == s;
  }

  lemma SumMonotone(s: set<Addr>, u: set<Addr>, threads: map<Addr, Thread>)
    requires s <= u
    ensures SumOf(s, threads) <= SumOf(u, threads)
  {
    TotalSubset(s, u, Priorities(threads));
  }
}
