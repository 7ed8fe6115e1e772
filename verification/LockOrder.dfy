/**
  Threads that take and release recursive mutexes, and use what a mutex guards.  A mutex is named by its
  place in one order; a thread in order takes only a mutex it already has or one above all it has, and
  uses only what the mutexes it has guard.
*/
module LockOrder {
  import Totals

  type Mutex = nat
  type Thread = nat

  datatype Act = Lock(mutex: Mutex) | Unlock(mutex: Mutex) | Use(mutex: Mutex)

  /** What a thread has, as often as it has it, and what it will still do. */
  datatype Local = Local(held: multiset<Mutex>, todo: seq<Act>)

  type Pool = map<Thread, Local>

  predicate Above(held: multiset<Mutex>, m: Mutex) {
    m in held || forall h :: h in held ==> h < m
  }

  /** Taking in order, releasing only what is held, and in the end holding `base`. */
  predicate Returns(held: multiset<Mutex>, todo: seq<Act>, base: multiset<Mutex>)
    decreases |todo|
  {
    if todo == [] then held == base
    else match todo[0]
      case Lock(m) => Above(held, m) && Returns(held + multiset{m}, todo[1..], base)
      case Unlock(m) => m in held && Returns(held - multiset{m}, todo[1..], base)
      case Use(m) => m in held && Returns(held, todo[1..], base)
  }

  predicate InOrder(me: Local) {
    Returns(me.held, me.todo, multiset{})
  }

  /** A thread waits for a mutex only while another thread has it. */
  predicate Free(p: Pool, t: Thread, m: Mutex) {
    forall u :: u in p && u != t ==> m !in p[u].held
  }

  predicate Enabled(p: Pool, t: Thread) {
    t in p && p[t].todo != [] && (p[t].todo[0].Lock? ==> Free(p, t, p[t].todo[0].mutex))
  }

  function Acted(me: Local): Local
    requires me.todo != []
  {
    match me.todo[0]
    case Lock(m) => Local(me.held + multiset{m}, me.todo[1..])
    case Unlock(m) => Local(me.held - multiset{m}, me.todo[1..])
    case Use(_) => Local(me.held, me.todo[1..])
  }

  function Step(p: Pool, t: Thread): Pool
    requires Enabled(p, t)
  {
    p[t := Acted(p[t])]
  }

  ghost predicate Leads(p: Pool, schedule: seq<Thread>, p': Pool)
    decreases |schedule|
  {
    if schedule == [] then p' == p
    else Enabled(p, schedule[0]) && Leads(Step(p, schedule[0]), schedule[1..], p')
  }

  ghost predicate Exclusive(p: Pool) {
    forall t, u, m :: t in p && u in p && t != u && m in p[t].held ==> m !in p[u].held
  }

  ghost predicate Orderly(p: Pool) {
    Exclusive(p) && forall t :: t in p ==> InOrder(p[t])
  }

  /** Only a mutex no other thread has is added to what a thread holds. */
  lemma StepHolds(p: Pool, t: Thread, m: Mutex)
    requires Enabled(p, t) && m in Acted(p[t]).held
    ensures m in p[t].held || Free(p, t, m)
  {
  }

  lemma StepExclusive(p: Pool, t: Thread, u: Thread, v: Thread, m: Mutex)
    requires Exclusive(p) && Enabled(p, t) && u in p && v in p && u != v
    requires m in Step(p, t)[u].held
    ensures m !in Step(p, t)[v].held
  {
    if u == t { StepHolds(p, t, m); }
    if v == t && m in Step(p, t)[v].held { StepHolds(p, t, m); }
  }

  lemma ActedInOrder(me: Local)
    requires InOrder(me) && me.todo != []
    ensures InOrder(Acted(me))
  {
  }

  lemma StepOrderly(p: Pool, t: Thread)
    requires Orderly(p) && Enabled(p, t)
    ensures Orderly(Step(p, t))
  {
    var p' := Step(p, t);
    forall u, v, m | u in p' && v in p' && u != v && m in p'[u].held ensures m !in p'[v].held {
      StepExclusive(p, t, u, v, m);
    }
    forall u | u in p' ensures InOrder(p'[u]) {
      assert InOrder(p[u]);
      if u == t { ActedInOrder(p[t]); }
    }
  }

  lemma {:induction false} RunOrderly(p: Pool, schedule: seq<Thread>, p': Pool)
    requires Orderly(p) && Leads(p, schedule, p')
    ensures Orderly(p')
    decreases |schedule|
  {
    if schedule != [] {
      StepOrderly(p, schedule[0]);
      RunOrderly(Step(p, schedule[0]), schedule[1..], p');
    }
  }

  // ---------- No race ----------

  /** The thread is about to use what the mutex guards. */
  predicate Uses(p: Pool, t: Thread, m: Mutex) {
    t in p && p[t].todo != [] && p[t].todo[0] == Use(m)
  }

  /** In no interleaving are two threads about to use the same thing at the same time. */
  lemma NeverBoth(p: Pool, schedule: seq<Thread>, p': Pool, t: Thread, u: Thread, m: Mutex)
    requires Orderly(p) && Leads(p, schedule, p')
    requires Uses(p', t, m) && Uses(p', u, m)
    ensures t == u
  {
    RunOrderly(p, schedule, p');
    assert InOrder(p'[t]) && InOrder(p'[u]);
  }

  // ---------- No deadlock ----------

  /** The mutexes below a bound are all there are. */
  predicate Below(p: Pool, bound: nat) {
    forall t, m :: t in p && m in p[t].held ==> m < bound
  }

  /**
    Following the chain of who waits for whom leads to higher and higher mutexes, and so to a thread that can go
    on.
  */
  lemma {:induction false} ChainEnds(p: Pool, t: Thread, bound: nat) returns (runner: Thread)
    requires Orderly(p) && Below(p, bound) && t in p && p[t].todo != []
    ensures Enabled(p, runner)
    decreases if p[t].todo[0].Lock? && p[t].todo[0].mutex < bound then bound - p[t].todo[0].mutex else 0
  {
    if Enabled(p, t) { return t; }
    var m := p[t].todo[0].mutex;
    var holder :| holder in p && holder != t && m in p[holder].held;
    assert InOrder(p[holder]);
    if Enabled(p, holder) { return holder; }
    var m' := p[holder].todo[0].mutex;
    assert m' !in p[holder].held by {
      var other :| other in p && other != holder && m' in p[other].held;
    }
    assert m < m';
    runner := ChainEnds(p, holder, bound);
  }

  /** Every mutex held or still to be taken is below the bound: there are finitely many. */
  ghost predicate Named(p: Pool, bound: nat) {
    forall t :: t in p ==> NamedBy(p[t], bound)
  }

  ghost predicate NamedBy(me: Local, bound: nat) {
    (forall m :: m in me.held ==> m < bound) && forall i :: 0 <= i < |me.todo| ==> me.todo[i].mutex < bound
  }

  lemma {:induction false} RunNamed(p: Pool, schedule: seq<Thread>, p': Pool, bound: nat)
    requires Named(p, bound) && Leads(p, schedule, p')
    ensures Named(p', bound)
    decreases |schedule|
  {
    if schedule != [] {
      var t := schedule[0];
      assert NamedBy(p[t], bound);
      assert NamedBy(Acted(p[t]), bound);
      RunNamed(Step(p, t), schedule[1..], p', bound);
    }
  }

  /** No interleaving of threads in order leads to a state in which none of the unfinished ones can go on. */
  lemma NoDeadlock(p: Pool, schedule: seq<Thread>, p': Pool, bound: nat, t: Thread) returns (runner: Thread)
    requires Orderly(p) && Named(p, bound) && Leads(p, schedule, p')
    requires t in p' && p'[t].todo != []
    ensures Enabled(p', runner)
  {
    RunOrderly(p, schedule, p');
    RunNamed(p, schedule, p', bound);
    forall u, m | u in p' && m in p'[u].held ensures m < bound { assert NamedBy(p'[u], bound); }
    runner := ChainEnds(p', t, bound);
  }

  // ---------- Every run comes to its end ----------

  function Left(p: Pool): map<Thread, nat> {
    map t | t in p :: |p[t].todo|
  }

  lemma StepLeft(p: Pool, t: Thread)
    requires Enabled(p, t)
    ensures Totals.Total(Left(p)) == Totals.Total(Left(Step(p, t))) + 1
  {
    Totals.TotalUpdate(Left(p), t, |p[t].todo| - 1);
    assert |Step(p, t)[t].todo| == |p[t].todo| - 1;
    assert Left(Step(p, t)) == Left(p)[t := |p[t].todo| - 1];
  }

  lemma {:induction false} RunLength(p: Pool, schedule: seq<Thread>, p': Pool)
    requires Leads(p, schedule, p')
    ensures |schedule| + Totals.Total(Left(p')) == Totals.Total(Left(p))
    decreases |schedule|
  {
    if schedule != [] {
      StepLeft(p, schedule[0]);
      RunLength(Step(p, schedule[0]), schedule[1..], p');
    }
  }

  predicate Finished(p: Pool) {
    forall t :: t in p ==> p[t] == Local(multiset{}, [])
  }

  /** A run that cannot be continued has taken every action of every thread, and every mutex is free. */
  lemma RunsFinish(p: Pool, schedule: seq<Thread>, p': Pool, bound: nat)
    requires Orderly(p) && Named(p, bound) && Leads(p, schedule, p')
    requires forall t :: !Enabled(p', t)
    ensures Finished(p') && |schedule| == Totals.Total(Left(p))
  {
    RunOrderly(p, schedule, p');
    forall t | t in p' ensures p'[t] == Local(multiset{}, []) {
      if p'[t].todo != [] {
        var runner := NoDeadlock(p, schedule, p', bound, t);
      }
      assert InOrder(p'[t]);
    }
    NothingLeft(p');
    RunLength(p, schedule, p');
  }

  lemma {:induction false} NothingLeft(p: Pool)
    requires Finished(p)
    ensures Totals.Total(Left(p)) == 0
    decreases |p|
  {
    if p != map[] {
      var t :| t in p;
      Totals.TotalRemove(Left(p), t);
      assert Left(p) - {t} == Left(p - {t});
      NothingLeft(p - {t});
    } else {
      assert Left(p) == map[];
    }
  }

  /** Out of order, two threads can wait for each other. */
  lemma OppositeOrdersDeadlock(a: Mutex, b: Mutex)
    requires a != b
    ensures var one, two := [Lock(a), Lock(b), Unlock(b), Unlock(a)], [Lock(b), Lock(a), Unlock(a), Unlock(b)];
      var p := map[0 := Local(multiset{}, one), 1 := Local(multiset{}, two)];
      exists p' :: Leads(p, [0, 1], p') && (forall t :: !Enabled(p', t)) && !Finished(p')
  {
    var one, two := [Lock(a), Lock(b), Unlock(b), Unlock(a)], [Lock(b), Lock(a), Unlock(a), Unlock(b)];
    var p := map[0 := Local(multiset{}, one), 1 := Local(multiset{}, two)];
    assert Enabled(p, 0);
    var q := Step(p, 0);
    assert Enabled(q, 1);
    var p' := Step(q, 1);
    assert [0, 1][1..] == [1] && [1][1..] == [];
    assert Leads(p', [], p') && Leads(q, [1], p');
    assert Leads(p, [0, 1], p');
    assert p'[0].todo[0] == Lock(b) && p'[1].todo[0] == Lock(a);
    assert b in p'[1].held && a in p'[0].held;
  }

  // ---------- Putting programs together ----------

  lemma {:induction false} ReturnsAppend(held: multiset<Mutex>, first: seq<Act>, middle: multiset<Mutex>,
                                         second: seq<Act>, base: multiset<Mutex>)
    requires Returns(held, first, middle) && Returns(middle, second, base)
    ensures Returns(held, first + second, base)
    decreases |first|
  {
    if first == [] {
      assert first + second == second;
    } else {
      assert (first + second)[1..] == first[1..] + second;
      match first[0] {
        case Lock(m) => ReturnsAppend(held + multiset{m}, first[1..], middle, second, base);
        case Unlock(m) => ReturnsAppend(held - multiset{m}, first[1..], middle, second, base);
        case Use(_) => ReturnsAppend(held, first[1..], middle, second, base);
      }
    }
  }
}
