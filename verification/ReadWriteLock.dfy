/**
  The writer-preferring read-write lock: one recursive mutex guards the entrance, an atomic counter
  counts the readers.  A reader holds the mutex only while it counts itself in; a writer keeps it, and
  spins until the counter is zero.  Every atomic action of every thread is one step.
*/
module ReadWriteLock {
  import Totals
  import opened Wrappers

  type Thread = nat

  /** Where a thread stands: outside every operation, or in the middle of ReadLock or WriteLock. */
  datatype Place = Idle | Entered | Counted | Spinning

  /** How often a thread has read-locked and write-locked and not yet unlocked. */
  datatype Local = Local(place: Place, reading: nat, writing: nat)

  datatype Lock = Lock(owner: Option<Thread>, depth: nat, counter: int, threads: map<Thread, Local>)

  datatype Action = ReadEnter | ReadCount | ReadLeave | ReadUnlock | WriteEnter | WriteProceed | WriteUnlock

  /** The recursive mutex can be taken when nobody else has it. */
  predicate MutexFree(l: Lock, t: Thread) {
    l.owner == None || l.owner == Some(t)
  }

  predicate Enabled(l: Lock, t: Thread, a: Action) {
    && t in l.threads
    && var me := l.threads[t];
    match a
    case ReadEnter => me.place == Idle && MutexFree(l, t)
    case ReadCount => me.place == Entered
    case ReadLeave => me.place == Counted
    case ReadUnlock => me.place == Idle && me.reading > 0
    case WriteEnter => me.place == Idle && MutexFree(l, t)
    case WriteProceed => me.place == Spinning && l.counter <= 0
    case WriteUnlock => me.place == Idle && me.writing > 0
  }

  function Take(l: Lock, t: Thread): Lock {
    l.(owner := Some(t), depth := l.depth + 1)
  }

  function Release(l: Lock): Lock {
    if l.depth <= 1 then l.(owner := None, depth := 0) else l.(depth := l.depth - 1)
  }

  function At(l: Lock, t: Thread, me: Local): Lock {
    l.(threads := l.threads[t := me])
  }

  function Step(l: Lock, t: Thread, a: Action): Lock
    requires Enabled(l, t, a)
  {
    var me := l.threads[t];
    match a
    case ReadEnter => At(Take(l, t), t, me.(place := Entered))
    case ReadCount => At(l.(counter := l.counter + 1), t, me.(place := Counted))
    case ReadLeave => At(Release(l), t, me.(place := Idle, reading := me.reading + 1))
    case ReadUnlock => At(l.(counter := l.counter - 1), t, me.(reading := me.reading - 1))
    case WriteEnter => At(Take(l, t), t, me.(place := Spinning))
    case WriteProceed => At(l, t, me.(place := Idle, writing := me.writing + 1))
    case WriteUnlock => At(Release(l), t, me.(writing := me.writing - 1))
  }

  /** The lock as constructed, before any of the threads has touched it. */
  function Init(threads: set<Thread>): Lock {
    Lock(None, 0, 0, map t | t in threads :: Local(Idle, 0, 0))
  }

  // ---------- What every step keeps ----------

  /** How often a thread is counted as a reader. */
  function Counts(me: Local): nat {
    me.reading + if me.place == Counted then 1 else 0
  }

  /** How often a thread has the mutex. */
  function Holds(me: Local): nat {
    me.writing + if me.place == Idle then 0 else 1
  }

  function Readers(threads: map<Thread, Local>): map<Thread, nat> {
    map t | t in threads :: Counts(threads[t])
  }

  ghost predicate Tallied(l: Lock) {
    l.counter == Totals.Total(Readers(l.threads))
  }

  ghost predicate Owned(l: Lock) {
    && (l.owner == None <==> l.depth == 0)
    && (forall t :: t in l.threads ==> Holds(l.threads[t]) == if l.owner == Some(t) then l.depth else 0)
  }

  /** While a thread is past WriteLock no other thread reads, and no other thread writes. */
  ghost predicate Exclusive(l: Lock) {
    forall w, t :: w in l.threads && t in l.threads && w != t && l.threads[w].writing > 0 ==>
      Counts(l.threads[t]) == 0 && l.threads[t].writing == 0
  }

  ghost predicate Inv(l: Lock) {
    Tallied(l) && Owned(l) && Exclusive(l)
  }

  lemma InitInv(threads: set<Thread>)
    ensures Inv(Init(threads))
  {
    NoReaders(Init(threads).threads);
  }

  lemma {:induction false} NoReaders(threads: map<Thread, Local>)
    requires forall t :: t in threads ==> Counts(threads[t]) == 0
    ensures Totals.Total(Readers(threads)) == 0
    decreases |threads|
  {
    if threads != map[] {
      var t :| t in threads;
      Totals.TotalRemove(Readers(threads), t);
      assert Readers(threads) - {t} == Readers(threads - {t});
      NoReaders(threads - {t});
    } else {
      assert Readers(threads) == map[];
    }
  }

  lemma CountKept(l: Lock, t: Thread, a: Action)
    requires Tallied(l) && Enabled(l, t, a)
    ensures Tallied(Step(l, t, a))
  {
    var l' := Step(l, t, a);
    Totals.TotalUpdate(Readers(l.threads), t, Counts(l'.threads[t]));
    assert Readers(l'.threads) == Readers(l.threads)[t := Counts(l'.threads[t])];
  }

  lemma OwnerKept(l: Lock, t: Thread, a: Action)
    requires Owned(l) && Enabled(l, t, a)
    ensures Owned(Step(l, t, a))
  {
    assert Holds(l.threads[t]) == if l.owner == Some(t) then l.depth else 0;
  }

  /** A writer gets past the spin only when nobody, not even itself, is counted as a reader. */
  lemma ZeroMeansNone(l: Lock, t: Thread)
    requires Tallied(l) && l.counter <= 0 && t in l.threads
    ensures Counts(l.threads[t]) == 0
  {
    Totals.TotalAtLeast(Readers(l.threads), t);
  }

  lemma ExclusionKept(l: Lock, t: Thread, a: Action)
    requires Inv(l) && Enabled(l, t, a)
    ensures Exclusive(Step(l, t, a))
  {
    var l' := Step(l, t, a);
    forall w, u | w in l'.threads && u in l'.threads && w != u && l'.threads[w].writing > 0
      ensures Counts(l'.threads[u]) == 0 && l'.threads[u].writing == 0
    {
      if w == t && a.WriteProceed? {
        ZeroMeansNone(l, u);
      } else {
        assert l.threads[w].writing > 0;
        assert Counts(l.threads[u]) == 0;
        assert Holds(l.threads[w]) > 0;
      }
    }
  }

  lemma StepKeeps(l: Lock, t: Thread, a: Action)
    requires Inv(l) && Enabled(l, t, a)
    ensures Inv(Step(l, t, a))
  {
    CountKept(l, t, a);
    OwnerKept(l, t, a);
    ExclusionKept(l, t, a);
  }

  // ---------- Whole runs ----------

  datatype Move = Move(thread: Thread, action: Action)

  /** Carrying out the moves one by one, each when it is enabled, leads from one lock to the other. */
  ghost predicate Leads(l: Lock, moves: seq<Move>, l': Lock)
    decreases |moves|
  {
    if moves == [] then l' == l
    else
      && Enabled(l, moves[0].thread, moves[0].action)
      && Leads(Step(l, moves[0].thread, moves[0].action), moves[1..], l')
  }

  lemma {:induction false} RunKeeps(l: Lock, moves: seq<Move>, l': Lock)
    requires Inv(l) && Leads(l, moves, l')
    ensures Inv(l')
    decreases |moves|
  {
    if moves != [] {
      StepKeeps(l, moves[0].thread, moves[0].action);
      RunKeeps(Step(l, moves[0].thread, moves[0].action), moves[1..], l');
    }
  }

  /**
    Read-write exclusion, for any number of threads and every interleaving: while one thread is
    past WriteLock, no other thread is inside as a reader or as a writer.
  */
  lemma Exclusion(threads: set<Thread>, moves: seq<Move>, l: Lock, writer: Thread, other: Thread)
    requires Leads(Init(threads), moves, l)
    requires writer in l.threads && other in l.threads && other != writer && l.threads[writer].writing > 0
    ensures l.threads[other].reading == 0 && l.threads[other].writing == 0
  {
    InitInv(threads);
    RunKeeps(Init(threads), moves, l);
    assert Counts(l.threads[other]) == 0;
  }

  // ---------- Who a waiting writer waits for ----------

  /** Once a writer has entered, no move of another thread lets a reader in: the counter can only fall. */
  lemma WriterPreferred(l: Lock, writer: Thread, other: Thread, a: Action)
    requires Inv(l) && writer in l.threads && l.threads[writer].place == Spinning
    requires other != writer && Enabled(l, other, a)
    ensures a == ReadUnlock && Step(l, other, a).counter == l.counter - 1
    ensures Step(l, other, a).threads[writer] == l.threads[writer]
  {
    assert Holds(l.threads[writer]) > 0;
    assert Holds(l.threads[other]) == 0;
  }

  lemma {:induction false} SomeReader(threads: map<Thread, Local>) returns (t: Thread)
    requires Totals.Total(Readers(threads)) > 0
    ensures t in threads && Counts(threads[t]) > 0
  {
    if t' :| t' in threads && Counts(threads[t']) > 0 {
      t := t';
    } else {
      NoReaders(threads);
    }
  }

  /** A thread that still reads stays in WriteLock for ever, whatever the others do. */
  lemma {:induction false} NoUpgrade(l: Lock, writer: Thread, moves: seq<Move>, l': Lock)
    requires Inv(l) && writer in l.threads && l.threads[writer].place == Spinning && l.threads[writer].reading > 0
    requires Leads(l, moves, l')
    ensures writer in l'.threads && l'.threads[writer] == l.threads[writer]
    decreases |moves|
  {
    if moves != [] {
      var t, a := moves[0].thread, moves[0].action;
      if t == writer {
        if l.counter <= 0 { ZeroMeansNone(l, writer); }
        assert false;
      }
      WriterPreferred(l, writer, t, a);
      StepKeeps(l, t, a);
      NoUpgrade(Step(l, t, a), writer, moves[1..], l');
    }
  }
}
