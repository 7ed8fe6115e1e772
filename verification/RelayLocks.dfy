/**
  The mutexes of the two relays.  Every table has one; a loop over a table holds it from the first row
  to the last, and each change of a table in memory takes the mutex of that table, again if it is the
  one of the loop.  A failing database write takes a mutex for the error text.
*/
module RelayLocks {
  import opened Escrow
  import opened Relay
  import opened RelayHandle
  import opened LockOrder
  import opened Wrappers

  const DATABASE: Mutex := 8
  const MUTEXES := 9

  function MutexOf(source: Layer, t: Table): Mutex {
    (if source == L1 then 0 else 4) + Stage(t)
  }

  function CmdLocks(source: Layer, c: Cmd, fails: bool): seq<Act> {
    match c
    case DbPut(_, _) => if fails then Hold(DATABASE) else []
    case DbDelete(_, _) => if fails then Hold(DATABASE) else []
    case MapEmplace(t, _) => Hold(MutexOf(source, t))
    case MapErase(t, _) => Hold(MutexOf(source, t))
    case Rearm(t, _) => [Use(MutexOf(source, t))]
    case _ => []
  }

  /** Take the mutex, use what it guards, and give it back. */
  function Hold(m: Mutex): seq<Act> {
    [Lock(m), Use(m), Unlock(m)]
  }

  /** What a plan takes and releases, whatever the network answers and whichever writes fail. */
  function PlanLocks(source: Layer, todo: seq<Cmd>, net: Net, fails: Cmd -> bool): seq<Act>
    decreases Work(todo)
  {
    if todo == [] then []
    else
      var answer := Answer(source, todo[0], net);
      RestShrinks(todo, answer);
      CmdLocks(source, todo[0], fails(todo[0])) + PlanLocks(source, Rest(todo, answer), net, fails)
  }

  /** A row a loop comes to: the tables as the loop finds them there, the answers it gets, and the time. */
  datatype Visit = Visit(tables: Agent, id: TxId, net: Net, now: int, fails: Cmd -> bool)

  datatype Job =
    | StartEvent(source: Layer, info: Info, net: Net, fails: Cmd -> bool)
    | SendEvent(source: Layer, info: Info, net: Net, fails: Cmd -> bool)
    | AckedEvent(source: Layer, info: Info, net: Net, fails: Cmd -> bool)
    | Loop(source: Layer, sweep: Sweep, visits: seq<Visit>)

  /** A turn looks at its row and carries out the plan for it. */
  function VisitLocks(source: Layer, s: Sweep, v: Visit): seq<Act> {
    [Use(MutexOf(source, SweptTable(s)))]
    + PlanLocks(source, SweepPlan(s, v.tables, v.id, v.net, v.now), v.net, v.fails)
  }

  function VisitsLocks(source: Layer, s: Sweep, visits: seq<Visit>): seq<Act> {
    if visits == [] then [] else VisitLocks(source, s, visits[0]) + VisitsLocks(source, s, visits[1..])
  }

  function JobLocks(j: Job): seq<Act> {
    match j
    case StartEvent(source, info, net, fails) => PlanLocks(source, StartPlan(source, info, net.ledgerSeq), net, fails)
    case SendEvent(source, info, net, fails) => PlanLocks(source, SendEventPlan(info), net, fails)
    case AckedEvent(source, info, net, fails) => PlanLocks(source, AckedEventPlan(info), net, fails)
    case Loop(source, s, visits) =>
      var m := MutexOf(source, SweptTable(s));
      [Lock(m)] + VisitsLocks(source, s, visits) + [Unlock(m)]
  }

  /** A thread does one job after the other. */
  function Program(jobs: seq<Job>): seq<Act> {
    if jobs == [] then [] else JobLocks(jobs[0]) + Program(jobs[1..])
  }

  function Threads(work: map<Thread, seq<Job>>): Pool {
    map t | t in work :: Local(multiset{}, Program(work[t]))
  }

  // ---------- A plan touches no table before the one its loop runs over ----------

  /** The first table a command, or what is saved or sent after it, can touch. */
  function FirstTable(c: Cmd): Table {
    match c
    case SubmitTx(_, _) => SendTable
    case SubmitAck(_) => AckTable
    case SubmitReply(_) => ReplyTable
    case _ => c.table
  }

  predicate From(t: Table, todo: seq<Cmd>) {
    forall i :: 0 <= i < |todo| ==> Stage(t) <= Stage(FirstTable(todo[i]))
  }

  lemma RestFrom(t: Table, todo: seq<Cmd>, answer: Option<Hash>)
    requires todo != [] && From(t, todo)
    ensures From(t, Rest(todo, answer))
  {
    if Submits(todo[0]) && answer.Some? {
      var saved := Saved(todo[0], answer.value);
      forall i | 0 <= i < |saved + todo[1..]| ensures Stage(t) <= Stage(FirstTable((saved + todo[1..])[i])) {
        if i >= |saved| { assert (saved + todo[1..])[i] == todo[i - |saved| + 1]; }
      }
    }
  }

  /**
    The order of the tables: confirmation and start loops send and ack, the send loop acks, the ack and reply
    loops keep to themselves.
  */
  lemma SweepFrom(s: Sweep, v: Visit)
    ensures From(SweptTable(s), SweepPlan(s, v.tables, v.id, v.net, v.now))
    ensures RearmsOnly(SweptTable(s), SweepPlan(s, v.tables, v.id, v.net, v.now))
  {
  }

  /** A deadline is only set by a loop over the table it stands in. */
  predicate RearmsOnly(t: Table, todo: seq<Cmd>) {
    forall i :: 0 <= i < |todo| && todo[i].Rearm? ==> todo[i].table == t
  }

  lemma RestRearms(t: Table, todo: seq<Cmd>, answer: Option<Hash>)
    requires todo != [] && RearmsOnly(t, todo)
    ensures RearmsOnly(t, Rest(todo, answer))
  {
    if Submits(todo[0]) && answer.Some? {
      var saved := Saved(todo[0], answer.value);
      forall i | 0 <= i < |saved + todo[1..]| && (saved + todo[1..])[i].Rearm?
        ensures (saved + todo[1..])[i].table == t
      {
        assert (saved + todo[1..])[i] == todo[i - |saved| + 1];
      }
    }
  }

  // ---------- So every job keeps the order ----------

  /** Nothing held, or the mutex of a loop over a table that is not after `t`. */
  predicate Outer(source: Layer, t: Table, held: multiset<Mutex>) {
    held == multiset{} || held == multiset{MutexOf(source, t)}
  }

  lemma HoldReturns(held: multiset<Mutex>, m: Mutex)
    requires Above(held, m)
    ensures Returns(held, Hold(m), held)
  {
    assert Hold(m)[1..] == [Use(m), Unlock(m)] && [Use(m), Unlock(m)][1..] == [Unlock(m)] && [Unlock(m)][1..] == [];
    assert held + multiset{m} - multiset{m} == held;
    assert Returns(held + multiset{m}, [Unlock(m)], held);
    assert Returns(held + multiset{m}, Hold(m)[1..], held);
  }

  lemma CmdReturns(source: Layer, t: Table, held: multiset<Mutex>, c: Cmd, fails: bool)
    requires Outer(source, t, held) && Stage(t) <= Stage(FirstTable(c))
    requires c.Rearm? ==> MutexOf(source, c.table) in held
    ensures Returns(held, CmdLocks(source, c, fails), held)
  {
    if c.DbPut? || c.DbDelete? {
      HoldReturns(held, DATABASE);
    } else if c.MapEmplace? || c.MapErase? {
      HoldReturns(held, MutexOf(source, c.table));
    } else if c.Rearm? {
      assert CmdLocks(source, c, fails)[1..] == [];
    }
  }

  lemma RestNoRearm(todo: seq<Cmd>, answer: Option<Hash>)
    requires todo != [] && forall c :: c in todo ==> !c.Rearm?
    ensures forall c :: c in Rest(todo, answer) ==> !c.Rearm?
  {
    if Submits(todo[0]) && answer.Some? {
      forall c | c in Rest(todo, answer) ensures !c.Rearm? {
        assert c in Saved(todo[0], answer.value) || c in todo[1..];
      }
    }
  }

  lemma {:induction false} PlanReturns(source: Layer, t: Table, held: multiset<Mutex>, todo: seq<Cmd>, net: Net,
                                       fails: Cmd -> bool)
    requires Outer(source, t, held) && From(t, todo)
    requires RearmsOnly(t, todo) && (held == multiset{} ==> forall c :: c in todo ==> !c.Rearm?)
    ensures Returns(held, PlanLocks(source, todo, net, fails), held)
    decreases Work(todo)
  {
    if todo != [] {
      var answer := Answer(source, todo[0], net);
      RestShrinks(todo, answer);
      RestFrom(t, todo, answer);
      RestRearms(t, todo, answer);
      if held == multiset{} { RestNoRearm(todo, answer); }
      CmdReturns(source, t, held, todo[0], fails(todo[0]));
      PlanReturns(source, t, held, Rest(todo, answer), net, fails);
      var first, rest := CmdLocks(source, todo[0], fails(todo[0])), PlanLocks(source, Rest(todo, answer), net, fails);
      ReturnsAppend(held, first, held, rest, held);
    }
  }

  lemma LooksFirst(held: multiset<Mutex>, m: Mutex, acts: seq<Act>)
    requires m in held && Returns(held, acts, held)
    ensures Returns(held, [Use(m)] + acts, held)
  {
    assert ([Use(m)] + acts)[1..] == acts;
  }

  lemma {:induction false} VisitsReturn(source: Layer, s: Sweep, visits: seq<Visit>)
    ensures var held := multiset{MutexOf(source, SweptTable(s))}; Returns(held, VisitsLocks(source, s, visits), held)
  {
    if visits != [] {
      var held := multiset{MutexOf(source, SweptTable(s))};
      var v := visits[0];
      SweepFrom(s, v);
      PlanReturns(source, SweptTable(s), held, SweepPlan(s, v.tables, v.id, v.net, v.now), v.net, v.fails);
      VisitsReturn(source, s, visits[1..]);
      LooksFirst(held, MutexOf(source, SweptTable(s)),
                 PlanLocks(source, SweepPlan(s, v.tables, v.id, v.net, v.now), v.net, v.fails));
      ReturnsAppend(held, VisitLocks(source, s, v), held, VisitsLocks(source, s, visits[1..]), held);
    }
  }

  lemma LoopReturns(m: Mutex, body: seq<Act>)
    requires Returns(multiset{m}, body, multiset{m})
    ensures Returns(multiset{}, [Lock(m)] + body + [Unlock(m)], multiset{})
  {
    assert [Unlock(m)][1..] == [] && multiset{m} - multiset{m} == multiset{};
    assert Returns(multiset{m}, [Unlock(m)], multiset{});
    assert [Lock(m)][1..] == [] && multiset{} + multiset{m} == multiset{m};
    assert Returns(multiset{}, [Lock(m)], multiset{m});
    ReturnsAppend(multiset{}, [Lock(m)], multiset{m}, body, multiset{m});
    ReturnsAppend(multiset{}, [Lock(m)] + body, multiset{m}, [Unlock(m)], multiset{});
  }

  /** Whatever a handler or a loop does, it takes its mutexes in order and gives them all back. */
  lemma JobReturns(j: Job)
    ensures Returns(multiset{}, JobLocks(j), multiset{})
  {
    match j {
      case StartEvent(source, info, net, fails) =>
        PlanReturns(source, StartTable, multiset{}, StartPlan(source, info, net.ledgerSeq), net, fails);
      case SendEvent(source, info, net, fails) =>
        PlanReturns(source, StartTable, multiset{}, SendEventPlan(info), net, fails);
      case AckedEvent(source, info, net, fails) =>
        PlanReturns(source, StartTable, multiset{}, AckedEventPlan(info), net, fails);
      case Loop(source, s, visits) =>
        VisitsReturn(source, s, visits);
        LoopReturns(MutexOf(source, SweptTable(s)), VisitsLocks(source, s, visits));
    }
  }

  lemma {:induction false} ProgramReturns(jobs: seq<Job>)
    ensures Returns(multiset{}, Program(jobs), multiset{})
  {
    if jobs != [] {
      JobReturns(jobs[0]);
      ProgramReturns(jobs[1..]);
      ReturnsAppend(multiset{}, JobLocks(jobs[0]), multiset{}, Program(jobs[1..]), multiset{});
    }
  }

  // ---------- And they are the nine mutexes ----------

  predicate Nine(acts: seq<Act>) {
    forall i :: 0 <= i < |acts| ==> acts[i].mutex < MUTEXES
  }

  lemma {:induction false} PlanNine(source: Layer, todo: seq<Cmd>, net: Net, fails: Cmd -> bool)
    ensures Nine(PlanLocks(source, todo, net, fails))
    decreases Work(todo)
  {
    if todo != [] {
      RestShrinks(todo, Answer(source, todo[0], net));
      PlanNine(source, Rest(todo, Answer(source, todo[0], net)), net, fails);
    }
  }

  lemma {:induction false} VisitsNine(source: Layer, s: Sweep, visits: seq<Visit>)
    ensures Nine(VisitsLocks(source, s, visits))
  {
    if visits != [] {
      var v := visits[0];
      PlanNine(source, SweepPlan(s, v.tables, v.id, v.net, v.now), v.net, v.fails);
      VisitsNine(source, s, visits[1..]);
    }
  }

  lemma {:induction false} ProgramNine(jobs: seq<Job>)
    ensures Nine(Program(jobs))
  {
    if jobs != [] {
      match jobs[0] {
        case StartEvent(source, info, net, fails) =>
          PlanNine(source, StartPlan(source, info, net.ledgerSeq), net, fails);
        case SendEvent(source, info, net, fails) => PlanNine(source, SendEventPlan(info), net, fails);
        case AckedEvent(source, info, net, fails) => PlanNine(source, AckedEventPlan(info), net, fails);
        case Loop(source, s, visits) => VisitsNine(source, s, visits);
      }
      ProgramNine(jobs[1..]);
    }
  }

  lemma ThreadsOrderly(work: map<Thread, seq<Job>>)
    ensures Orderly(Threads(work)) && Named(Threads(work), MUTEXES)
  {
    var p := Threads(work);
    forall t | t in p ensures InOrder(p[t]) && NamedBy(p[t], MUTEXES) {
      ProgramReturns(work[t]);
      ProgramNine(work[t]);
    }
  }

  /**
    No interleaving of any threads, each handling events and running loops of either relay, reaches
    a state in which the unfinished ones all wait.
  */
  lemma RelaysNeverDeadlock(work: map<Thread, seq<Job>>, schedule: seq<Thread>, p: Pool, t: Thread)
      returns (runner: Thread)
    requires Leads(Threads(work), schedule, p) && t in p && p[t].todo != []
    ensures Enabled(p, runner)
  {
    ThreadsOrderly(work);
    runner := NoDeadlock(Threads(work), schedule, p, MUTEXES, t);
  }

  /** A run that cannot go on has done all the work, and no mutex is held. */
  lemma RelaysFinish(work: map<Thread, seq<Job>>, schedule: seq<Thread>, p: Pool)
    requires Leads(Threads(work), schedule, p) && forall t :: !Enabled(p, t)
    ensures Finished(p)
  {
    ThreadsOrderly(work);
    RunsFinish(Threads(work), schedule, p, MUTEXES);
  }

  /** And in none of them are two threads about to use the same table at the same time. */
  lemma RelaysNeverRace(work: map<Thread, seq<Job>>, schedule: seq<Thread>, p: Pool, t: Thread, u: Thread, m: Mutex)
    requires Leads(Threads(work), schedule, p) && Uses(p, t, m) && Uses(p, u, m)
    ensures t == u
  {
    ThreadsOrderly(work);
    NeverBoth(Threads(work), schedule, p, t, u, m);
  }

  // ---------- Which tables a handler uses ----------

  /** An event that is answered: the row is saved under the mutex of its table, and then another one cleared. */
  lemma SendEventLocks(source: Layer, i: Info, net: Net, fails: Cmd -> bool)
    requires net.submit(CallOf(source, SubmitAck(i.(status := ACK_SUCCESS)))).Some?
    requires forall c :: !fails(c)
    ensures var send, ack := if source == L1 then 1 else 5, if source == L1 then 2 else 6;
      JobLocks(SendEvent(source, i, net, fails))
      == [Lock(ack), Use(ack), Unlock(ack), Lock(send), Use(send), Unlock(send)]
  {
    var c := SubmitAck(i.(status := ACK_SUCCESS));
    hide PlanLocks, CallOf;
    SubmitLocks(source, c, Clear(SendTable, i.id), net, fails);
    var h := net.submit(CallOf(source, c)).value;
    var row := i.(status := ACK_SUCCESS, ackHash := h);
    assert Saved(c, h) == [DbPut(AckTable, row), MapEmplace(AckTable, row)];
    SaveClearLocks(source, row, net, fails);
  }

  lemma SaveClearLocks(source: Layer, row: Info, net: Net, fails: Cmd -> bool)
    requires forall c :: !fails(c)
    ensures var send, ack := if source == L1 then 1 else 5, if source == L1 then 2 else 6;
      PlanLocks(source, [DbPut(AckTable, row), MapEmplace(AckTable, row)] + Clear(SendTable, row.id), net, fails)
      == [Lock(ack), Use(ack), Unlock(ack), Lock(send), Use(send), Unlock(send)]
  {
    assert PlanLocks(source, [], net, fails) == [];
    hide PlanLocks;
    PairLocks(source, DbPut(AckTable, row), MapEmplace(AckTable, row), Clear(SendTable, row.id), net, fails);
    PairLocks(source, DbDelete(SendTable, row.id), MapErase(SendTable, row.id), [], net, fails);
    assert Clear(SendTable, row.id) + [] == Clear(SendTable, row.id);
  }

  lemma SubmitLocks(source: Layer, c: Cmd, rest: seq<Cmd>, net: Net, fails: Cmd -> bool)
    requires Submits(c) && net.submit(CallOf(source, c)).Some?
    ensures PlanLocks(source, [c] + rest, net, fails)
         == PlanLocks(source, Saved(c, net.submit(CallOf(source, c)).value) + rest, net, fails)
  {
    RestShrinks([c] + rest, Answer(source, c, net));
    assert ([c] + rest)[1..] == rest;
  }

  lemma PairLocks(source: Layer, first: Cmd, second: Cmd, rest: seq<Cmd>, net: Net, fails: Cmd -> bool)
    requires !Submits(first) && !Submits(second) && (first.DbPut? || first.DbDelete?) && !fails(first)
    ensures PlanLocks(source, [first, second] + rest, net, fails)
         == CmdLocks(source, second, fails(second)) + PlanLocks(source, rest, net, fails)
  {
    var todo := [first, second] + rest;
    RestShrinks(todo, None);
    RestShrinks([second] + rest, None);
    assert todo[1..] == [second] + rest && ([second] + rest)[1..] == rest;
  }
}
