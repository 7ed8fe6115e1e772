/**
  Threads that use one read-write lock as their programs say.  A thread carries out its operations in
  order and waits where the recursive mutex is taken: in ReadLock and in WriteLock.
*/
module LockPrograms {
  import opened ReadWriteLock
  import opened Wrappers

  datatype Op = LockRead | UnlockRead | LockWrite | UnlockWrite

  /** The lock, and what every thread will still ask of it. */
  datatype Running = Running(lock: Lock, todo: map<Thread, seq<Op>>)

  /** The next atomic action of a thread: the rest of the operation it is in, or the beginning of its next one. */
  function NextAction(me: Local, todo: seq<Op>): Option<Action> {
    match me.place
    case Entered => Some(ReadCount)
    case Counted => Some(ReadLeave)
    case Spinning => Some(WriteProceed)
    case Idle =>
      if todo == [] then None
      else match todo[0]
        case LockRead => Some(ReadEnter)
        case UnlockRead => Some(ReadUnlock)
        case LockWrite => Some(WriteEnter)
        case UnlockWrite => Some(WriteUnlock)
  }

  predicate Able(r: Running, t: Thread) {
    && t in r.lock.threads && t in r.todo
    && var next := NextAction(r.lock.threads[t], r.todo[t]);
    next.Some? && Enabled(r.lock, t, next.value)
  }

  function Turn(r: Running, t: Thread): Running
    requires Able(r, t)
  {
    Running(Step(r.lock, t, NextAction(r.lock.threads[t], r.todo[t]).value),
            if r.lock.threads[t].place == Idle then r.todo[t := r.todo[t][1..]] else r.todo)
  }

  function Start(programs: map<Thread, seq<Op>>): Running {
    Running(Init(programs.Keys), programs)
  }

  /** Letting the threads take turns in this order leads from one state to the other. */
  ghost predicate Runs(r: Running, schedule: seq<Thread>, r': Running)
    decreases |schedule|
  {
    if schedule == [] then r' == r
    else Able(r, schedule[0]) && Runs(Turn(r, schedule[0]), schedule[1..], r')
  }

  ghost predicate Good(r: Running) {
    Inv(r.lock) && r.todo.Keys == r.lock.threads.Keys
  }

  lemma TurnGood(r: Running, t: Thread)
    requires Good(r) && Able(r, t)
    ensures Good(Turn(r, t))
  {
    StepKeeps(r.lock, t, NextAction(r.lock.threads[t], r.todo[t]).value);
  }

  // ---------- When WriteLock returns ----------

  predicate Waiting(r: Running, w: Thread) {
    w in r.lock.threads && r.lock.threads[w].place == Spinning
  }

  /** The next n operations all give a read lock back. */
  predicate Unlocks(todo: seq<Op>, n: nat) {
    |todo| >= n && forall i :: 0 <= i < n ==> todo[i] == UnlockRead
  }

  /**
    A thread gives back every read lock it has before it asks for anything; the waiting writer has asked
    already, so it has none.
  */
  predicate LeavesFirst(r: Running, w: Thread, t: Thread)
    requires t in r.lock.threads && t in r.todo
  {
    if t == w then r.lock.threads[t].reading == 0 else Unlocks(r.todo[t], r.lock.threads[t].reading)
  }

  ghost predicate AllLeaveFirst(r: Running, w: Thread)
    requires Good(r)
  {
    forall t :: t in r.lock.threads ==> LeavesFirst(r, w, t)
  }

  /** While a writer waits, the turn of another thread gives one read lock back and can be nothing else. */
  lemma OnlyUnlocks(r: Running, w: Thread, t: Thread)
    requires Good(r) && Waiting(r, w) && Able(r, t) && t != w
    ensures r.todo[t] != [] && r.todo[t][0] == UnlockRead && r.lock.threads[t].place == Idle
    ensures r.lock.threads[t].reading > 0
    ensures var r' := Turn(r, t);
      && r'.lock.threads == r.lock.threads[t := r.lock.threads[t].(reading := r.lock.threads[t].reading - 1)]
      && r'.todo == r.todo[t := r.todo[t][1..]] && r'.lock.counter == r.lock.counter - 1
  {
    WriterPreferred(r.lock, w, t, NextAction(r.lock.threads[t], r.todo[t]).value);
  }

  /**
    A writer that cannot go on waits for a reader inside, and that one can move exactly when its next operation
    is to unlock.
  */
  lemma WaitsForReader(r: Running, w: Thread) returns (reader: Thread)
    requires Good(r) && Waiting(r, w) && !Able(r, w)
    ensures reader in r.lock.threads && r.lock.threads[reader].reading > 0
    ensures reader != w ==> (Able(r, reader) <==> r.todo[reader] != [] && r.todo[reader][0] == UnlockRead)
  {
    reader := SomeReader(r.lock.threads);
    assert Holds(r.lock.threads[w]) > 0;
    if reader != w {
      assert Holds(r.lock.threads[reader]) == 0;
      if Able(r, reader) { OnlyUnlocks(r, w, reader); }
    }
  }

  lemma TurnLeaves(r: Running, w: Thread, t: Thread)
    requires Good(r) && Waiting(r, w) && Able(r, t) && t != w
    ensures Good(Turn(r, t)) && Waiting(Turn(r, t), w)
    ensures AllLeaveFirst(r, w) ==> AllLeaveFirst(Turn(r, t), w)
    ensures forall u :: u in r.lock.threads && !LeavesFirst(r, w, u) ==> !LeavesFirst(Turn(r, t), w, u)
  {
    hide Inv, Turn, Enabled;
    TurnGood(r, t);
    OnlyUnlocks(r, w, t);
    UnlocksRest(r.todo[t], r.lock.threads[t].reading);
    var r' := Turn(r, t);
    forall u | u in r.lock.threads ensures LeavesFirst(r', w, u) == LeavesFirst(r, w, u) {
      if u != t { assert r'.lock.threads[u] == r.lock.threads[u]; }
    }
  }

  lemma UnlocksRest(todo: seq<Op>, n: nat)
    requires n > 0 && todo != [] && todo[0] == UnlockRead
    ensures Unlocks(todo[1..], n - 1) <==> Unlocks(todo, n)
  {
    if Unlocks(todo[1..], n - 1) {
      forall i | 0 <= i < n ensures todo[i] == UnlockRead {
        if i > 0 { assert todo[1..][i - 1] == todo[i]; }
      }
    }
  }

  lemma WriterBlocked(r: Running, w: Thread, t: Thread)
    requires Good(r) && Waiting(r, w) && t in r.lock.threads && !LeavesFirst(r, w, t)
    ensures !Able(r, w)
  {
    if r.lock.counter <= 0 { ZeroMeansNone(r.lock, t); }
  }

  /** As long as somebody does not leave first, the writer does not get past, whatever the others do. */
  lemma {:induction false} NeverReturns(r: Running, w: Thread, t: Thread, schedule: seq<Thread>, r': Running)
    requires Good(r) && Waiting(r, w) && t in r.lock.threads && !LeavesFirst(r, w, t)
    requires Runs(r, schedule, r')
    ensures Waiting(r', w) && r'.lock.threads[w] == r.lock.threads[w]
    decreases |schedule|
  {
    hide Inv, Turn;
    if schedule != [] {
      var u := schedule[0];
      WriterBlocked(r, w, t);
      OnlyUnlocks(r, w, u);
      TurnLeaves(r, w, u);
      NeverReturns(Turn(r, u), w, t, schedule[1..], r');
    }
  }

  ghost predicate Returns(r: Running, w: Thread, schedule: seq<Thread>, r': Running) {
    Runs(r, schedule, r') && w in r'.lock.threads && r'.lock.threads[w].place == Idle
  }

  lemma {:induction false} ReadersLeave(r: Running, w: Thread) returns (schedule: seq<Thread>, r': Running)
    requires Good(r) && Waiting(r, w) && AllLeaveFirst(r, w)
    ensures Returns(r, w, schedule, r')
    decreases r.lock.counter
  {
    if Able(r, w) {
      schedule, r' := [w], Turn(r, w);
      assert schedule[1..] == [];
    } else {
      var reader := WaitsForReader(r, w);
      assert LeavesFirst(r, w, w) && LeavesFirst(r, w, reader);
      OnlyUnlocks(r, w, reader);
      TurnLeaves(r, w, reader);
      var rest;
      rest, r' := ReadersLeave(Turn(r, reader), w);
      schedule := [reader] + rest;
      assert schedule[1..] == rest;
    }
  }

  /**
    WriteLock can return exactly when every thread that is counted as a reader, the caller included,
    gives all its read locks back before it asks for the lock again.
  */
  lemma WriteLockReturns(r: Running, w: Thread)
    requires Good(r) && Waiting(r, w)
    ensures (exists schedule, r' :: Returns(r, w, schedule, r')) <==> AllLeaveFirst(r, w)
  {
    if AllLeaveFirst(r, w) {
      var schedule, r' := ReadersLeave(r, w);
      assert Returns(r, w, schedule, r');
    } else {
      var t :| t in r.lock.threads && !LeavesFirst(r, w, t);
      forall schedule, r' | Runs(r, schedule, r') ensures !Returns(r, w, schedule, r') {
        NeverReturns(r, w, t, schedule, r');
      }
    }
  }

  /**
    Then it cannot fail to: the other threads have only so many turns, and when they have none left the writer
    has one.
  */
  lemma {:induction false} WriterComes(r: Running, w: Thread, schedule: seq<Thread>, r': Running)
    requires Good(r) && Waiting(r, w) && AllLeaveFirst(r, w)
    requires Runs(r, schedule, r') && w !in schedule
    ensures |schedule| <= r.lock.counter
    ensures (forall t :: t != w ==> !Able(r', t)) ==> Able(r', w)
    decreases |schedule|
  {
    if schedule == [] {
      if !Able(r, w) {
        var reader := WaitsForReader(r, w);
        assert LeavesFirst(r, w, w) && LeavesFirst(r, w, reader);
      }
    } else {
      assert schedule[0] in schedule;
      OnlyUnlocks(r, w, schedule[0]);
      TurnLeaves(r, w, schedule[0]);
      WriterComes(Turn(r, schedule[0]), w, schedule[1..], r');
    }
  }

  // ---------- Two ways to wait for ever ----------

  const NESTED: seq<Op> := [LockRead, LockRead, UnlockRead, UnlockRead]
  const WRITER: seq<Op> := [LockWrite, UnlockWrite]

  /** The reader is inside once, and the writer has not come yet. */
  function Inside(): Running {
    Running(Lock(None, 0, 1, map[0 := Local(Idle, 1, 0), 1 := Local(Idle, 0, 0)]),
            map[0 := NESTED[1..], 1 := WRITER])
  }

  /** The reader is inside once and wants to read again; the writer holds the mutex and waits. */
  function Deadlocked(): Running {
    Running(Lock(Some(1), 1, 1, map[0 := Local(Idle, 1, 0), 1 := Local(Spinning, 0, 0)]),
            map[0 := NESTED[1..], 1 := WRITER[1..]])
  }

  /** A ReadLock nobody disturbs: three turns of one thread. */
  lemma ReadLockTurns(r: Running, t: Thread)
    requires t in r.lock.threads && t in r.todo && r.todo[t] != [] && r.todo[t][0] == LockRead
    requires r.lock.threads[t].place == Idle && r.lock.owner == None && r.lock.depth == 0
    ensures var me := r.lock.threads[t];
      Runs(r, [t, t, t], Running(Lock(None, 0, r.lock.counter + 1, r.lock.threads[t := me.(reading := me.reading + 1)]),
                                 r.todo[t := r.todo[t][1..]]))
  {
    var r1 := Turn(r, t);
    var r2 := Turn(r1, t);
    var r3 := Turn(r2, t);
    var me := r.lock.threads[t];
    assert r3.lock.threads == r.lock.threads[t := me.(reading := me.reading + 1)];
    hide Turn, Able;
    assert [t, t, t][1..] == [t, t] && [t, t][1..] == [t] && [t][1..] == [];
    assert Runs(r2, [t], r3) && Runs(r1, [t, t], r3);
  }

  lemma ReaderInside()
    ensures Runs(Start(map[0 := NESTED, 1 := WRITER]), [0, 0, 0], Inside())
  {
    ReadLockTurns(Start(map[0 := NESTED, 1 := WRITER]), 0);
  }

  lemma {:induction false} RunsThen(r: Running, first: seq<Thread>, middle: Running, t: Thread)
    requires Runs(r, first, middle) && Able(middle, t)
    ensures Runs(r, first + [t], Turn(middle, t))
    decreases |first|
  {
    if first == [] {
      assert [t][1..] == [] && first + [t] == [t];
    } else {
      assert (first + [t])[1..] == first[1..] + [t];
      RunsThen(Turn(r, first[0]), first[1..], middle, t);
    }
  }

  /**
    A reader that asks again while a writer waits: from the beginning, four turns lead to a state in
    which nobody can move any more, although the writer holds no read lock.
  */
  lemma NestedReadDeadlock()
    ensures Runs(Start(map[0 := NESTED, 1 := WRITER]), [0, 0, 0, 1], Deadlocked())
    ensures Waiting(Deadlocked(), 1) && Deadlocked().lock.threads[1].reading == 0 && Deadlocked().todo[0] != []
    ensures forall t :: !Able(Deadlocked(), t)
  {
    ReaderInside();
    var r3 := Inside();
    assert Able(r3, 1) && Turn(r3, 1) == Deadlocked();
    RunsThen(Start(map[0 := NESTED, 1 := WRITER]), [0, 0, 0], r3, 1);
    assert [0, 0, 0] + [1] == [0, 0, 0, 1];
  }

  const UPGRADER: seq<Op> := [LockRead, LockWrite, UnlockWrite, UnlockRead]

  /** The thread is inside as a reader and waits in WriteLock for the readers to leave. */
  function SelfBlocked(): Running {
    Running(Lock(Some(0), 1, 1, map[0 := Local(Spinning, 1, 0)]), map[0 := UPGRADER[2..]])
  }

  /** A reader that asks for the write lock: alone, from the beginning, four turns and it can never move again. */
  lemma UpgradeDeadlock()
    ensures Runs(Start(map[0 := UPGRADER]), [0, 0, 0, 0], SelfBlocked())
    ensures Waiting(SelfBlocked(), 0) && SelfBlocked().lock.threads[0].reading == 1
    ensures forall t :: !Able(SelfBlocked(), t)
  {
    var r := Running(Lock(None, 0, 1, map[0 := Local(Idle, 1, 0)]), map[0 := UPGRADER[1..]]);
    ReadLockTurns(Start(map[0 := UPGRADER]), 0);
    assert Runs(Start(map[0 := UPGRADER]), [0, 0, 0], r);
    assert Able(r, 0) && Turn(r, 0) == SelfBlocked();
    RunsThen(Start(map[0 := UPGRADER]), [0, 0, 0], r, 0);
    assert [0, 0, 0] + [0] == [0, 0, 0, 0];
  }
}
