/**
  What the relays bring about.  A handler that nobody disturbs does in the step system what its plan
  says; with the call it submits included, every loop and every event moves a transfer on.  So a
  transfer whose deposit is made can be completed exactly if it was executed inside its window.
*/
module Progress {
  import opened Answers
  import opened Escrow
  import opened Relay
  import opened RelayHandle
  import opened World
  import opened Protocol
  import opened HandOff
  import opened Hazards
  import opened Witnesses
  import opened Wrappers

  // ---------- One run after the other ----------

  lemma {:induction false} RunThen(s: System, first: seq<Action>, second: seq<Action>)
    requires Possible(s, first) && Possible(Final(s, first), second)
    ensures Possible(s, first + second) && Final(s, first + second) == Final(Final(s, first), second)
    decreases |first|
  {
    if first == [] {
      assert first + second == second;
    } else {
      assert (first + second)[1..] == first[1..] + second;
      RunThen(Do(s, first[0]), first[1..], second);
    }
  }

  lemma RunOne(s: System, a: Action)
    requires Enabled(s, a)
    ensures Possible(s, [a]) && Final(s, [a]) == Do(s, a)
  {
    assert [a][1..] == [];
    assert Possible(Do(s, a), []) && Final(Do(s, a), []) == Do(s, a);
  }

  // ---------- A handler nobody disturbs ----------

  /** A submission that is taken gets the next number of the system. */
  ghost predicate Numbered(d: Layer, job: seq<Cmd>, net: Net, next: Hash)
    decreases Relay.Work(job)
  {
    if job == [] then true
    else
      var answer := Answer(d, job[0], net);
      RestShrinks(job, answer);
      && (answer.Some? ==> answer.value == next)
      && Numbered(d, Rest(job, answer), net, if Submits(job[0]) then next + 1 else next)
  }

  /** Its steps, with the answers of `net`; what is taken is included. */
  function Steps(d: Layer, job: seq<Cmd>, net: Net): seq<Action>
    decreases Relay.Work(job)
  {
    if job == [] then []
    else
      var answer := Answer(d, job[0], net);
      RestShrinks(job, answer);
      [Action.Work(d, job, answer.Some?, answer.Some?)] + Steps(d, Rest(job, answer), net)
  }

  /** The calls taken are pending under their numbers. */
  function Queued(p: Pair<map<Hash, Call>>, next: Hash, sent: seq<Sent>): Pair<map<Hash, Call>>
    decreases |sent|
  {
    if sent == [] then p
    else
      var q := if sent[0].accepted then Put(p, sent[0].target, At(p, sent[0].target)[next := sent[0].call]) else p;
      Queued(q, next + 1, sent[1..])
  }

  /** After the handler: its calls are pending, its tables written, and nothing else is different. */
  ghost predicate CarriedOut(s: System, f: System, d: Layer, job: seq<Cmd>, net: Net) {
    && f.chain == s.chain && f.time == s.time && f.receipts == s.receipts
    && f.pending == Queued(s.pending, s.next, Calls(d, job, net)) && f.next == s.next + |Calls(d, job, net)|
    && At(f.tables, d) == Run(d, At(s.tables, d), job, net, s.time.agent)
    && At(f.tables, Other(d)) == At(s.tables, Other(d))
    && At(f.jobs, d) == At(s.jobs, d) - multiset{job} + multiset{[]} && At(f.jobs, Other(d)) == At(s.jobs, Other(d))
  }

  /** One command of a handler, with this answer. */
  ghost predicate Stepped(s: System, f: System, d: Layer, job: seq<Cmd>, answer: Option<Hash>)
    requires job != []
  {
    && f.chain == s.chain && f.time == s.time && f.receipts == s.receipts
    && At(f.jobs, d) == At(s.jobs, d) - multiset{job} + multiset{Rest(job, answer)}
    && At(f.jobs, Other(d)) == At(s.jobs, Other(d)) && At(f.tables, Other(d)) == At(s.tables, Other(d))
    && At(f.tables, d) == (if Submits(job[0]) then At(s.tables, d) else Local(At(s.tables, d), job[0], s.time.agent))
    && f.next == s.next + (if Submits(job[0]) then 1 else 0)
    && f.pending == (if Submits(job[0]) && answer.Some? then
                       var t := TargetOf(d, job[0]);
                       Put(s.pending, t, At(s.pending, t)[s.next := CallOf(d, job[0])])
                     else s.pending)
  }

  lemma OneStep(s: System, d: Layer, job: seq<Cmd>, net: Net)
    requires job in At(s.jobs, d) && job != []
    requires var answer := Answer(d, job[0], net); answer.Some? ==> answer.value == s.next
    ensures var answer := Answer(d, job[0], net);
      var a := Action.Work(d, job, answer.Some?, answer.Some?);
      Enabled(s, a) && Stepped(s, Do(s, a), d, job, answer)
  {
  }

  lemma CallsFirst(d: Layer, job: seq<Cmd>, net: Net)
    requires job != []
    ensures var answer := Answer(d, job[0], net);
      Calls(d, job, net)
      == if Submits(job[0]) then
           [Sent(TargetOf(d, job[0]), CallOf(d, job[0]), answer.Some?)] + Calls(d, Rest(job, answer), net)
         else Calls(d, Rest(job, answer), net)
  {
    RestShrinks(job, Answer(d, job[0], net));
    assert !Submits(job[0]) ==> [] + Calls(d, Rest(job, None), net) == Calls(d, Rest(job, None), net);
  }

  lemma RunFirst(d: Layer, a: Agent, job: seq<Cmd>, net: Net, now: int)
    requires job != []
    ensures Run(d, a, job, net, now)
         == Run(d, if Submits(job[0]) then a else Local(a, job[0], now), Rest(job, Answer(d, job[0], net)), net, now)
  {
    RestShrinks(job, Answer(d, job[0], net));
  }

  lemma SwapTwice(jobs: Jobs, job: seq<Cmd>, rest: seq<Cmd>)
    ensures jobs - multiset{job} + multiset{rest} - multiset{rest} + multiset{[]} == jobs - multiset{job} + multiset{[]}
  {
  }

  lemma QueuedFirst(p: Pair<map<Hash, Call>>, next: Hash, first: Sent, sent: seq<Sent>)
    ensures Queued(p, next, [first] + sent)
         == Queued(if first.accepted then Put(p, first.target, At(p, first.target)[next := first.call]) else p,
                   next + 1, sent)
  {
    assert ([first] + sent)[1..] == sent;
  }

  lemma QueuedAfter(s: System, s': System, d: Layer, job: seq<Cmd>, net: Net)
    requires job != [] && Stepped(s, s', d, job, Answer(d, job[0], net))
    ensures var rest := Rest(job, Answer(d, job[0], net));
      && Queued(s'.pending, s'.next, Calls(d, rest, net)) == Queued(s.pending, s.next, Calls(d, job, net))
      && s'.next + |Calls(d, rest, net)| == s.next + |Calls(d, job, net)|
  {
    hide Rest, Local, Queued, Calls;
    var answer := Answer(d, job[0], net);
    CallsFirst(d, job, net);
    if Submits(job[0]) {
      QueuedFirst(s.pending, s.next, Sent(TargetOf(d, job[0]), CallOf(d, job[0]), answer.Some?),
                  Calls(d, Rest(job, answer), net));
    }
  }

  lemma CarriedOn(s: System, s': System, f: System, d: Layer, job: seq<Cmd>, net: Net)
    requires job != [] && Stepped(s, s', d, job, Answer(d, job[0], net))
    requires CarriedOut(s', f, d, Rest(job, Answer(d, job[0], net)), net)
    ensures CarriedOut(s, f, d, job, net)
  {
    hide Rest, Local, Queued, Calls, Run, Answer;
    QueuedAfter(s, s', d, job, net);
    RunFirst(d, At(s.tables, d), job, net, s.time.agent);
    SwapTwice(At(s.jobs, d), job, Rest(job, Answer(d, job[0], net)));
  }

  lemma StepsFirst(d: Layer, job: seq<Cmd>, net: Net)
    requires job != []
    ensures var answer := Answer(d, job[0], net);
      && Steps(d, job, net) != [] && Steps(d, job, net)[0] == Action.Work(d, job, answer.Some?, answer.Some?)
      && Steps(d, job, net)[1..] == Steps(d, Rest(job, answer), net)
  {
    RestShrinks(job, Answer(d, job[0], net));
  }

  /**
    A handler that runs from start to end without being disturbed does in the step system what its
    plan says: the same tables, and the same calls pending in the same order.
  */
  lemma {:induction false} Uninterrupted(s: System, d: Layer, job: seq<Cmd>, net: Net)
    requires job in At(s.jobs, d) && Numbered(d, job, net, s.next)
    ensures Possible(s, Steps(d, job, net)) && CarriedOut(s, Final(s, Steps(d, job, net)), d, job, net)
    decreases Relay.Work(job)
  {
    if job == [] {
      assert At(s.jobs, d) - multiset{job} + multiset{[]} == At(s.jobs, d);
      DoesNothing(d, At(s.tables, d), net, s.time.agent);
    } else {
      var answer := Answer(d, job[0], net);
      RestShrinks(job, answer);
      OneStep(s, d, job, net);
      var s' := Do(s, Action.Work(d, job, answer.Some?, answer.Some?));
      Uninterrupted(s', d, Rest(job, answer), net);
      CarriedOn(s, s', Final(s', Steps(d, Rest(job, answer), net)), d, job, net);
      hide Do, Rest, Steps, CarriedOut;
      StepsFirst(d, job, net);
    }
  }

  // ---------- One event or one turn of a loop, and the call it submits ----------

  /** The action puts this plan under way in direction d, and does nothing else of account. */
  predicate Begins(s: System, a: Action, d: Layer, plan: seq<Cmd>) {
    match a
    case Visit(e, _, _, _, _, _) => e == d && plan == VisitPlan(s, a)
    case Deliver(layer, event, ledgerSeq) =>
      && Route(layer, event) == d && event.id in At(s.chain, layer).records
      && plan == DeliverPlan(layer, event, At(s.chain, layer).records[event.id], ledgerSeq)
    case _ => false
  }

  lemma BegunIs(s: System, a: Action, d: Layer, plan: seq<Cmd>)
    requires Enabled(s, a) && Begins(s, a, d, plan)
    ensures var s' := Do(s, a);
      && s'.chain == s.chain && s'.time == s.time && s'.receipts == s.receipts && s'.pending == s.pending
      && s'.next == s.next && s'.tables == s.tables
      && At(s'.jobs, d) == At(s.jobs, d) + multiset{plan} && At(s'.jobs, Other(d)) == At(s.jobs, Other(d))
  {
  }

  /** The action, every step of the handler it starts, and the inclusion of the call submitted under this number. */
  function Answering(a: Action, d: Layer, plan: seq<Cmd>, net: Net, layer: Layer, hash: Hash): seq<Action> {
    [a] + Steps(d, plan, net) + [Include(layer, hash, true)]
  }

  /** The chain after a call of the agent, and the tables after a plan. */
  ghost predicate Moved(s: System, f: System, d: Layer, layer: Layer, call: Call, after: Agent) {
    && f.chain == World.Step(s.chain, layer, AgentMsg(At(s.chain, layer), call, BlockTime(s.time, layer), true), call)
    && At(f.tables, d) == after && At(f.tables, Other(d)) == At(s.tables, Other(d)) && f.time == s.time
  }

  /** After the action, nothing but steps of handlers of its direction, and one inclusion at the end. */
  ghost predicate AnswerTo(run: seq<Action>, a: Action, d: Layer) {
    && |run| >= 2 && run[0] == a && run[|run| - 1].Include?
    && forall i :: 0 < i < |run| - 1 ==> run[i].Work? && run[i].d == d
  }

  lemma {:induction false} StepsAreWork(d: Layer, job: seq<Cmd>, net: Net)
    ensures forall b :: b in Steps(d, job, net) ==> b.Work? && b.d == d
    decreases Relay.Work(job)
  {
    if job != [] {
      RestShrinks(job, Answer(d, job[0], net));
      StepsAreWork(d, Rest(job, Answer(d, job[0], net)), net);
    }
  }

  /** Among the calls a plan submits, this one is taken, under this number. */
  ghost predicate Waits(s: System, sent: seq<Sent>, layer: Layer, hash: Hash, call: Call) {
    var p := Queued(s.pending, s.next, sent);
    hash in At(p, layer) && At(p, layer)[hash] == call
  }

  lemma LastWaits(s: System, layer: Layer, call: Call)
    ensures Waits(s, [Sent(layer, call, true)], layer, s.next, call)
  {
    QueuedFirst(s.pending, s.next, Sent(layer, call, true), []);
    assert [Sent(layer, call, true)] + [] == [Sent(layer, call, true)];
  }

  /** The same after a first call that was refused. */
  lemma SecondWaits(s: System, first: Sent, layer: Layer, call: Call)
    requires !first.accepted
    ensures Waits(s, [first, Sent(layer, call, true)], layer, s.next + 1, call)
  {
    QueuedFirst(s.pending, s.next, first, [Sent(layer, call, true)]);
    QueuedFirst(s.pending, s.next + 1, Sent(layer, call, true), []);
    assert [first] + [Sent(layer, call, true)] == [first, Sent(layer, call, true)];
    assert [Sent(layer, call, true)] + [] == [Sent(layer, call, true)];
  }

  lemma HandlerRuns(s: System, a: Action, d: Layer, plan: seq<Cmd>, net: Net)
    requires Enabled(s, a) && Begins(s, a, d, plan) && Numbered(d, plan, net, s.next)
    ensures var run := [a] + Steps(d, plan, net);
      && Possible(s, run)
      && var f := Final(s, run);
      && f.chain == s.chain && f.time == s.time && f.receipts == s.receipts
      && f.pending == Queued(s.pending, s.next, Calls(d, plan, net))
      && At(f.tables, d) == Run(d, At(s.tables, d), plan, net, s.time.agent)
      && At(f.tables, Other(d)) == At(s.tables, Other(d))
  {
    BegunIs(s, a, d, plan);
    Uninterrupted(Do(s, a), d, plan, net);
    hide Do, Steps, Numbered, Begins, Enabled, Queued, Calls, Run;
    RunOne(s, a);
    RunThen(s, [a], Steps(d, plan, net));
  }

  lemma AnswerRuns(s: System, a: Action, d: Layer, plan: seq<Cmd>, net: Net, sent: seq<Sent>, layer: Layer, hash: Hash,
                   call: Call, after: Agent)
    requires Enabled(s, a) && Begins(s, a, d, plan) && Numbered(d, plan, net, s.next)
    requires Does(d, At(s.tables, d), plan, net, s.time.agent, sent, after) && Waits(s, sent, layer, hash, call)
    ensures var run := Answering(a, d, plan, net, layer, hash);
      AnswerTo(run, a, d) && Possible(s, run) && Moved(s, Final(s, run), d, layer, call, after)
  {
    StepsAreWork(d, plan, net);
    HandlerRuns(s, a, d, plan, net);
    var s2 := Final(s, [a] + Steps(d, plan, net));
    var last := Include(layer, hash, true);
    RunOne(s2, last);
    RunThen(s, [a] + Steps(d, plan, net), [last]);
  }

  lemma {:induction false} NumberedQuiet(d: Layer, job: seq<Cmd>, net: Net, next: Hash)
    requires forall c :: c in job ==> !Submits(c)
    ensures Numbered(d, job, net, next)
    decreases |job|
  {
    if job != [] {
      assert job[0] in job;
      NumberedQuiet(d, job[1..], net, next);
    }
  }

  lemma NumberedOnce(d: Layer, job: seq<Cmd>, net: Net, next: Hash)
    requires job != [] && Submits(job[0]) && net.submit(CallOf(d, job[0])) == Some(next)
    requires forall c :: c in job[1..] ==> !Submits(c)
    ensures Numbered(d, job, net, next)
  {
    RestShrinks(job, Some(next));
    forall c | c in Rest(job, Some(next)) ensures !Submits(c) {
      assert c in Saved(job[0], next) || c in job[1..];
    }
    NumberedQuiet(d, Rest(job, Some(next)), net, next + 1);
  }

  /** The three shapes of a plan that begins with a submission. */
  lemma NumberedShapes(d: Layer, c: Cmd, t: Table, net: Net, next: Hash)
    requires Submits(c) && net.submit(CallOf(d, c)) == Some(next)
    ensures Numbered(d, [c], net, next)
    ensures Numbered(d, [c, Rearm(t, c.info.id)], net, next)
    ensures Numbered(d, [c] + Clear(t, c.info.id), net, next)
  {
    hide Numbered, CallOf;
    NumberedOnce(d, [c], net, next);
    NumberedOnce(d, [c, Rearm(t, c.info.id)], net, next);
    assert ([c] + Clear(t, c.info.id))[1..] == Clear(t, c.info.id);
    NumberedOnce(d, [c] + Clear(t, c.info.id), net, next);
  }

  // ---------- What an included call does ----------

  /** A true ack of a record that is INIT takes effect; a success has to be inside the window. */
  lemma AckTakes(l: Ledger, c: Call, time: nat)
    requires c.SendAckedTx? && |c.id| == 32 && c.id in l.records && l.records[c.id].status == INIT
    requires 1 <= c.result <= 3 && |c.errorDesc| < 2048 && l.balance == Locked(l)
    requires c.result == 1 ==> l.records[c.id].createTimestamp < c.executeTime < l.records[c.id].timeout
    ensures var l' := After(l, AgentMsg(l, c, time, true), c);
      && c.id in l'.records
      && l'.records[c.id].status
         == (if c.result == 1 then ACK_SUCCESS else if c.result == 2 then ACK_FAIL else ACK_TIMEOUT)
      && l'.layer == l.layer && l'.chainId == l.chainId
      && l'.records[c.id].srcChainId == l.records[c.id].srcChainId
  {
    LockedCovers(l, c.id);
    AckDoneExactly(l, AgentMsg(l, c, time, true), c);
    WroteBy(l, AgentMsg(l, c, time, true), c);
  }

  lemma SourceTakes(s: System, f: System, d: Layer, id: TxId, call: Call, after: Agent)
    requires Inv(s) && Known(s.chain, d, id) && SourceRecord(s.chain, d, id).status == INIT
    requires call.SendAckedTx? && call.id == id && 1 <= call.result <= 3 && |call.errorDesc| < 2048
    requires call.result == 1 ==>
      SourceRecord(s.chain, d, id).createTimestamp < call.executeTime < SourceRecord(s.chain, d, id).timeout
    requires Moved(s, f, d, d, call, after)
    ensures Known(f.chain, d, id)
    ensures SourceRecord(f.chain, d, id).status
         == if call.result == 1 then ACK_SUCCESS else if call.result == 2 then ACK_FAIL else ACK_TIMEOUT
  {
    AckTakes(At(s.chain, d), call, BlockTime(s.time, d));
  }

  lemma DestTakes(s: System, f: System, d: Layer, id: TxId, call: Call, after: Agent)
    requires Inv(s) && Opened(s.chain, d, id) && DestRecord(s.chain, d, id).status == INIT
    requires call.SendAckedTx? && call.id == id && call.result == 1 && |call.errorDesc| < 2048
    requires 0 < call.executeTime < DestRecord(s.chain, d, id).timeout
    requires Moved(s, f, d, Other(d), call, after)
    ensures Opened(f.chain, d, id) && DestRecord(f.chain, d, id).status == ACK_SUCCESS
  {
    assert Mirrors(s.chain, d, id);
    AckTakes(At(s.chain, Other(d)), call, BlockTime(s.time, Other(d)));
  }

  lemma DestOpens(s: System, f: System, d: Layer, id: TxId, call: Call, after: Agent)
    requires Sendable(s, d, id) && call.SendTx? && call.id == id && CallOk(s.chain, Other(d), call)
    requires Moved(s, f, d, Other(d), call, after)
    ensures Opened(f.chain, d, id) && Known(f.chain, d, id) && SourceRecord(f.chain, d, id).status == INIT
  {
    SendDone(s, d, id, call);
  }

  // ---------- From a plan to its effect ----------

  /** An answer under way: the action can happen, its plan submits this one call, and leaves these tables. */
  ghost predicate Submitting(s: System, a: Action, d: Layer, plan: seq<Cmd>, net: Net, layer: Layer, call: Call,
                           after: Agent)
  {
    && Enabled(s, a) && Begins(s, a, d, plan) && Numbered(d, plan, net, s.next)
    && Does(d, At(s.tables, d), plan, net, s.time.agent, [Sent(layer, call, true)], after)
  }

  lemma SourceDecided(s: System, a: Action, d: Layer, id: TxId, plan: seq<Cmd>, net: Net, call: Call, after: Agent)
      returns (run: seq<Action>)
    requires Inv(s) && Submitting(s, a, d, plan, net, d, call, after)
    requires Known(s.chain, d, id) && SourceRecord(s.chain, d, id).status == INIT
    requires call.SendAckedTx? && call.id == id && 1 <= call.result <= 3 && |call.errorDesc| < 2048
    requires call.result == 1 ==>
      SourceRecord(s.chain, d, id).createTimestamp < call.executeTime < SourceRecord(s.chain, d, id).timeout
    ensures AnswerTo(run, a, d) && Possible(s, run) && At(Final(s, run).tables, d) == after
    ensures Known(Final(s, run).chain, d, id)
    ensures SourceRecord(Final(s, run).chain, d, id).status
         == if call.result == 1 then ACK_SUCCESS else if call.result == 2 then ACK_FAIL else ACK_TIMEOUT
  {
    run := Answering(a, d, plan, net, d, s.next);
    LastWaits(s, d, call);
    AnswerRuns(s, a, d, plan, net, [Sent(d, call, true)], d, s.next, call, after);
    hide Answering, AnswerTo, Inv, Final, Possible;
    SourceTakes(s, Final(s, run), d, id, call, after);
  }

  lemma DestDecided(s: System, a: Action, d: Layer, id: TxId, plan: seq<Cmd>, net: Net, call: Call, after: Agent)
      returns (run: seq<Action>)
    requires Inv(s) && Submitting(s, a, d, plan, net, Other(d), call, after)
    requires Opened(s.chain, d, id) && DestRecord(s.chain, d, id).status == INIT
    requires call.SendAckedTx? && call.id == id && call.result == 1 && |call.errorDesc| < 2048
    requires 0 < call.executeTime < DestRecord(s.chain, d, id).timeout
    ensures AnswerTo(run, a, d) && Possible(s, run) && At(Final(s, run).tables, d) == after
    ensures Opened(Final(s, run).chain, d, id) && DestRecord(Final(s, run).chain, d, id).status == ACK_SUCCESS
  {
    run := Answering(a, d, plan, net, Other(d), s.next);
    LastWaits(s, Other(d), call);
    AnswerRuns(s, a, d, plan, net, [Sent(Other(d), call, true)], Other(d), s.next, call, after);
    hide Answering, AnswerTo, Inv, Final, Possible;
    DestTakes(s, Final(s, run), d, id, call, after);
  }

  lemma DestOpened(s: System, a: Action, d: Layer, id: TxId, plan: seq<Cmd>, net: Net, call: Call, after: Agent)
      returns (run: seq<Action>)
    requires Sendable(s, d, id) && Submitting(s, a, d, plan, net, Other(d), call, after)
    requires call.SendTx? && call.id == id && CallOk(s.chain, Other(d), call)
    ensures AnswerTo(run, a, d) && Possible(s, run) && At(Final(s, run).tables, d) == after
    ensures Opened(Final(s, run).chain, d, id)
  {
    run := Answering(a, d, plan, net, Other(d), s.next);
    LastWaits(s, Other(d), call);
    AnswerRuns(s, a, d, plan, net, [Sent(Other(d), call, true)], Other(d), s.next, call, after);
    hide Answering, AnswerTo, Sendable, Final, Possible;
    DestOpens(s, Final(s, run), d, id, call, after);
  }

  // ---------- The loops ----------

  /** The answers during one turn, every submission taken. */
  function Taken(s: System, a: Action): Net
    requires a.Visit?
  {
    VisitNet(s, a).(submit := c => Some(s.next))
  }

  lemma TakenIs(s: System, a: Action, h: Hash, id: TxId)
    requires a.Visit?
    ensures forall c :: Taken(s, a).submit(c) == Some(s.next)
    ensures Taken(s, a).receipt(h) == a.receipt && Taken(s, a).status(id) == a.status
    ensures Taken(s, a).readDest(id) == VisitNet(s, a).readDest(id)
  {
  }

  predicate RowIn(s: System, d: Layer, t: Table, id: TxId) {
    Key(t, id) in At(s.tables, d).mem
  }

  function RowOf(s: System, d: Layer, t: Table, id: TxId): Info
    requires RowIn(s, d, t, id)
  {
    At(s.tables, d).mem[Key(t, id)].info
  }

  predicate Due(s: System, d: Layer, t: Table, id: TxId)
    requires RowIn(s, d, t, id)
  {
    At(s.tables, d).mem[Key(t, id)].ackDeadline < s.time.agent
  }

  predicate StillOpen(s: System, d: Layer, id: TxId) {
    Known(s.chain, d, id) && SourceRecord(s.chain, d, id).status == INIT
  }

  /** A success quoted with this execute time is inside the window of the source record. */
  predicate InWindow(s: System, d: Layer, id: TxId, executeTime: nat)
    requires Known(s.chain, d, id)
  {
    SourceRecord(s.chain, d, id).createTimestamp < executeTime < SourceRecord(s.chain, d, id).timeout
  }

  lemma AckRowPlan(s: System, d: Layer, id: TxId)
    requires Inv(s) && RowIn(s, d, AckTable, id) && Due(s, d, AckTable, id)
    ensures var a := Visit(d, AckSweep, id, false, INIT, false);
      var e := At(s.tables, d).mem[Key(AckTable, id)];
      && e.info.status != INIT && e.info.id == id && Enabled(s, a)
      && VisitPlan(s, a) == AckTimeoutPlan(e, s.time.agent, false, INIT)
      && VisitPlan(s, a) == [SubmitAck(e.info), Rearm(AckTable, id)]
  {
    assert AgentOk(s, d);
  }

  lemma AckRowAnswers(s: System, d: Layer, id: TxId)
    requires Inv(s) && RowIn(s, d, AckTable, id) && Due(s, d, AckTable, id)
    ensures var a := Visit(d, AckSweep, id, false, INIT, false);
      var i := RowOf(s, d, AckTable, id);
      var call := Call.SendAckedTx(id, Code(i.status), Description(d, i), i.executeTimestamp);
      && i.status != INIT && i.id == id
      && Submitting(s, a, d, VisitPlan(s, a), Taken(s, a), d, call,
                    Agent(At(s.tables, d).mem[Key(AckTable, id) := Entry(i, s.time.agent + 60_000_000)],
                          At(s.tables, d).db[Key(AckTable, id) := i.(ackHash := s.next)]))
  {
    hide Inv, Enabled, VisitPlan, AckTimeoutPlan, Numbered, Does, Words, Code, Description, CallOf, Taken;
    AckRowPlan(s, d, id);
    var a := Visit(d, AckSweep, id, false, INIT, false);
    var i := RowOf(s, d, AckTable, id);
    TakenIs(s, a, i.ackHash, id);
    WordsAre(d, i);
    SuccessIsOne(i.status);
    AckLoop(d, At(s.tables, d), id, Taken(s, a), s.time.agent, Code(i.status), Description(d, i));
    NumberedShapes(d, SubmitAck(i), AckTable, Taken(s, a), s.next);
  }

  lemma SuccessIsOne(status: Status)
    ensures Code(status) == 1 <==> status == ACK_SUCCESS
  {
  }

  /**
    A due ack row, while the source is undecided: the turn of the loop sends the ack once more, and it
    is decided as the row says.  The row stays and is due again a minute later.
  */
  lemma AckRowDecides(s: System, d: Layer, id: TxId) returns (run: seq<Action>)
    requires Reachable(s) && RowIn(s, d, AckTable, id) && Due(s, d, AckTable, id) && StillOpen(s, d, id)
    requires var i := RowOf(s, d, AckTable, id); i.status == ACK_SUCCESS ==> InWindow(s, d, id, i.executeTimestamp)
    ensures AnswerTo(run, Visit(d, AckSweep, id, false, INIT, false), d) && Possible(s, run)
    ensures var f, i := Final(s, run), RowOf(s, d, AckTable, id);
      && Known(f.chain, d, id) && SourceRecord(f.chain, d, id).status == i.status
      && At(f.tables, d).mem == At(s.tables, d).mem[Key(AckTable, id) := Entry(i, s.time.agent + 60_000_000)]
  {
    ReachableOk(s);
    AckRowAnswers(s, d, id);
    var a := Visit(d, AckSweep, id, false, INIT, false);
    var i := RowOf(s, d, AckTable, id);
    var call := Call.SendAckedTx(id, Code(i.status), Description(d, i), i.executeTimestamp);
    var after := Agent(At(s.tables, d).mem[Key(AckTable, id) := Entry(i, s.time.agent + 60_000_000)],
                       At(s.tables, d).db[Key(AckTable, id) := i.(ackHash := s.next)]);
    hide Submitting, Inv, Reachable, VisitPlan, AnswerTo, Possible, Final, SaveAt, ClearAt;
    run := SourceDecided(s, a, d, id, VisitPlan(s, a), Taken(s, a), call, after);
  }

  lemma ReplyRowTrue(s: System, d: Layer, id: TxId)
    requires Inv(s) && RowIn(s, d, ReplyTable, id)
    ensures var i := RowOf(s, d, ReplyTable, id);
      && i.id == id && i.status == ACK_SUCCESS && Known(s.chain, d, id)
      && i.executeTimestamp == SourceRecord(s.chain, d, id).executeTimestamp
  {
    assert AgentOk(s, d);
    hide JobsOk, PendingOk, WorldOk, Known;
    assert RowOk(s.chain, d, ReplyTable, RowOf(s, d, ReplyTable, id));
  }

  lemma ReplyRowPlan(s: System, d: Layer, id: TxId)
    requires Inv(s) && RowIn(s, d, ReplyTable, id) && Due(s, d, ReplyTable, id)
    ensures var a := Visit(d, ReplySweep, id, false, INIT, false);
      var e := At(s.tables, d).mem[Key(ReplyTable, id)];
      && e.info.status == ACK_SUCCESS && e.info.id == id && Enabled(s, a)
      && Known(s.chain, d, id) && e.info.executeTimestamp == SourceRecord(s.chain, d, id).executeTimestamp
      && VisitPlan(s, a) == ReplyTimeoutPlan(e, s.time.agent, false, INIT)
      && VisitPlan(s, a) == [SubmitReply(e.info), Rearm(ReplyTable, id)]
  {
    ReplyRowTrue(s, d, id);
    hide Inv, Known;
  }

  lemma ReplyRowAnswers(s: System, d: Layer, id: TxId)
    requires Inv(s) && RowIn(s, d, ReplyTable, id) && Due(s, d, ReplyTable, id)
    ensures var a := Visit(d, ReplySweep, id, false, INIT, false);
      var i := RowOf(s, d, ReplyTable, id);
      var call := Call.SendAckedTx(id, 1, Description(d, i), i.executeTimestamp);
      && Known(s.chain, d, id) && i.executeTimestamp == SourceRecord(s.chain, d, id).executeTimestamp
      && |call.errorDesc| < 2048
      && Submitting(s, a, d, VisitPlan(s, a), Taken(s, a), Other(d), call,
                    Agent(At(s.tables, d).mem[Key(ReplyTable, id) := Entry(i, s.time.agent + 60_000_000)],
                          At(s.tables, d).db[Key(ReplyTable, id) := i.(replyHash := s.next)]))
  {
    hide Inv, Enabled, VisitPlan, ReplyTimeoutPlan, Numbered, Does, CallOf, Taken;
    ReplyRowPlan(s, d, id);
    var a := Visit(d, ReplySweep, id, false, INIT, false);
    var i := RowOf(s, d, ReplyTable, id);
    TakenIs(s, a, i.replyHash, id);
    ReplyLoop(d, At(s.tables, d), id, Taken(s, a), s.time.agent, 1, Description(d, i));
    NumberedShapes(d, SubmitReply(i), ReplyTable, Taken(s, a), s.next);
  }

  /** A due payout row, while the receiver is unpaid: the turn of the loop sends the payout once more, and it pays. */
  lemma ReplyRowPays(s: System, d: Layer, id: TxId) returns (run: seq<Action>)
    requires Reachable(s) && RowIn(s, d, ReplyTable, id) && Due(s, d, ReplyTable, id)
    requires Opened(s.chain, d, id) && DestRecord(s.chain, d, id).status == INIT
    requires DestRecord(s.chain, d, id).executeTimestamp < DestRecord(s.chain, d, id).timeout
    ensures AnswerTo(run, Visit(d, ReplySweep, id, false, INIT, false), d) && Possible(s, run)
    ensures var f := Final(s, run);
      && Opened(f.chain, d, id) && DestRecord(f.chain, d, id).status == ACK_SUCCESS
      && At(f.tables, d).mem
         == At(s.tables, d).mem[Key(ReplyTable, id) := Entry(RowOf(s, d, ReplyTable, id), s.time.agent + 60_000_000)]
  {
    ReachableOk(s);
    ReplyRowAnswers(s, d, id);
    assert AgentOk(s, d) && Backed(s.chain, d, id);
    var a := Visit(d, ReplySweep, id, false, INIT, false);
    var i := RowOf(s, d, ReplyTable, id);
    assert RowOk(s.chain, d, ReplyTable, i);
    var call := Call.SendAckedTx(id, 1, Description(d, i), i.executeTimestamp);
    var after := Agent(At(s.tables, d).mem[Key(ReplyTable, id) := Entry(i, s.time.agent + 60_000_000)],
                       At(s.tables, d).db[Key(ReplyTable, id) := i.(replyHash := s.next)]);
    hide Submitting, Inv, Reachable, VisitPlan, AnswerTo, Possible, Final, AgentOk, SaveAt, ClearAt;
    run := DestDecided(s, a, d, id, VisitPlan(s, a), Taken(s, a), call, after);
  }

  lemma MovedOn(a: Agent, t: Table, i: Info, u: Table, now: int)
    requires t != u
    ensures var after := ClearAt(SaveAt(a, t, i, now), u, i.id, now);
      Key(t, i.id) in after.mem && Key(u, i.id) !in after.mem
  {
  }

  lemma ConfirmedRowPlan(s: System, id: TxId, confirmSeq: int)
    requires Inv(s) && RowIn(s, L2, StartTable, id)
    requires RowOf(s, L2, StartTable, id).confirmSeq <= confirmSeq
    ensures var a := Visit(L2, ConfirmSweep(confirmSeq), id, false, INIT, false);
      var e := At(s.tables, L2).mem[Key(StartTable, id)];
      var i := e.info;
      && i.id == id && Enabled(s, a) && VisitPlan(s, a) == ConfirmPlan(e, confirmSeq, s.time.agent)
      && CallOk(s.chain, L1, Call.SendTx(id, i.srcBid, i.destBid, i.amount, i.timeout))
      && VisitPlan(s, a)
         == if i.timeout < s.time.agent then [SubmitAck(i.(status := ACK_TIMEOUT))]
            else [SubmitTx(i, false)] + Clear(StartTable, id)
  {
    assert AgentOk(s, L2) && RowOk(s.chain, L2, StartTable, RowOf(s, L2, StartTable, id));
  }

  lemma ConfirmedRowAnswers(s: System, id: TxId, confirmSeq: int)
    requires Inv(s) && RowIn(s, L2, StartTable, id)
    requires RowOf(s, L2, StartTable, id).confirmSeq <= confirmSeq
    ensures var a := Visit(L2, ConfirmSweep(confirmSeq), id, false, INIT, false);
      var i, t, now := RowOf(s, L2, StartTable, id), At(s.tables, L2), s.time.agent;
      if i.timeout < now then
        Submitting(s, a, L2, VisitPlan(s, a), Taken(s, a), L2,
                 Call.SendAckedTx(id, 3, "send tx failed", i.executeTimestamp),
                 SaveAt(t, AckTable, i.(status := ACK_TIMEOUT, ackHash := s.next), now))
      else
        var call := Call.SendTx(id, i.srcBid, i.destBid, i.amount, i.timeout);
        && CallOk(s.chain, L1, call)
        && Submitting(s, a, L2, VisitPlan(s, a), Taken(s, a), L1, call,
                    ClearAt(SaveAt(t, SendTable, i.(sendHash := s.next), now), StartTable, id, now))
  {
    hide Inv, Enabled, VisitPlan, ConfirmPlan, Numbered, Does, CallOf, CallOk, Taken, SaveAt, ClearAt;
    ConfirmedRowPlan(s, id, confirmSeq);
    var a := Visit(L2, ConfirmSweep(confirmSeq), id, false, INIT, false);
    var e := At(s.tables, L2).mem[Key(StartTable, id)];
    TakenIs(s, a, NO_HASH, id);
    ConfirmLoop(L2, At(s.tables, L2), e, confirmSeq, Taken(s, a), s.time.agent);
    NumberedShapes(L2, SubmitTx(e.info, false), StartTable, Taken(s, a), s.next);
    NumberedShapes(L2, SubmitAck(e.info.(status := ACK_TIMEOUT)), StartTable, Taken(s, a), s.next);
  }

  /**
    A start from L2 whose height is confirmed: in time it is opened on L1, and its row moves from the
    starts to the sends; past its timeout it is refused on L2.
  */
  lemma ConfirmedRowSent(s: System, id: TxId, confirmSeq: int) returns (run: seq<Action>)
    requires Reachable(s) && RowIn(s, L2, StartTable, id) && RowOf(s, L2, StartTable, id).confirmSeq <= confirmSeq
    requires RowOf(s, L2, StartTable, id).timeout >= s.time.agent && Sendable(s, L2, id)
    ensures AnswerTo(run, Visit(L2, ConfirmSweep(confirmSeq), id, false, INIT, false), L2) && Possible(s, run)
    ensures Opened(Final(s, run).chain, L2, id)
    ensures !RowIn(Final(s, run), L2, StartTable, id) && RowIn(Final(s, run), L2, SendTable, id)
  {
    ReachableOk(s);
    ConfirmedRowAnswers(s, id, confirmSeq);
    var a := Visit(L2, ConfirmSweep(confirmSeq), id, false, INIT, false);
    var i, t, now := RowOf(s, L2, StartTable, id), At(s.tables, L2), s.time.agent;
    assert AgentOk(s, L2) && i.id == id;
    MovedOn(t, SendTable, i.(sendHash := s.next), StartTable, now);
    var call := Call.SendTx(id, i.srcBid, i.destBid, i.amount, i.timeout);
    hide Submitting, Inv, Reachable, VisitPlan, AnswerTo, Possible, Final, AgentOk, Sendable, CallOk, SaveAt, ClearAt;
    run := DestOpened(s, a, L2, id, VisitPlan(s, a), Taken(s, a), call,
                      ClearAt(SaveAt(t, SendTable, i.(sendHash := s.next), now), StartTable, id, now));
  }

  lemma ConfirmedRowRefused(s: System, id: TxId, confirmSeq: int) returns (run: seq<Action>)
    requires Reachable(s) && RowIn(s, L2, StartTable, id) && RowOf(s, L2, StartTable, id).confirmSeq <= confirmSeq
    requires RowOf(s, L2, StartTable, id).timeout < s.time.agent && StillOpen(s, L2, id)
    ensures AnswerTo(run, Visit(L2, ConfirmSweep(confirmSeq), id, false, INIT, false), L2) && Possible(s, run)
    ensures var f := Final(s, run); Known(f.chain, L2, id) && SourceRecord(f.chain, L2, id).status == ACK_TIMEOUT
  {
    ReachableOk(s);
    ConfirmedRowAnswers(s, id, confirmSeq);
    var a := Visit(L2, ConfirmSweep(confirmSeq), id, false, INIT, false);
    var i := RowOf(s, L2, StartTable, id);
    hide Submitting, Inv, Reachable, VisitPlan, AnswerTo, Possible, Final, SaveAt, ClearAt;
    run := SourceDecided(s, a, L2, id, VisitPlan(s, a), Taken(s, a),
                         Call.SendAckedTx(id, 3, "send tx failed", i.executeTimestamp),
                         SaveAt(At(s.tables, L2), AckTable, i.(status := ACK_TIMEOUT, ackHash := s.next),
                                s.time.agent));
  }

  lemma StartRowPlan(s: System, id: TxId)
    requires Inv(s) && RowIn(s, L2, StartTable, id) && RowOf(s, L2, StartTable, id).timeout < s.time.agent
    ensures var a := Visit(L2, StartSweep, id, false, INIT, false);
      var e := At(s.tables, L2).mem[Key(StartTable, id)];
      && e.info.id == id && Enabled(s, a) && VisitPlan(s, a) == StartTimeoutPlan(e, s.time.agent)
      && VisitPlan(s, a) == [SubmitAck(e.info.(status := ACK_FAIL))] + Clear(StartTable, id)
  {
    assert AgentOk(s, L2);
  }

  lemma StartRowAnswers(s: System, id: TxId)
    requires Inv(s) && RowIn(s, L2, StartTable, id) && RowOf(s, L2, StartTable, id).timeout < s.time.agent
    ensures var a := Visit(L2, StartSweep, id, false, INIT, false);
      var i, t, now := RowOf(s, L2, StartTable, id), At(s.tables, L2), s.time.agent;
      Submitting(s, a, L2, VisitPlan(s, a), Taken(s, a), L2,
               Call.SendAckedTx(id, 2, "send tx failed", i.executeTimestamp),
               ClearAt(SaveAt(t, AckTable, i.(status := ACK_FAIL, ackHash := s.next), now), StartTable, id, now))
  {
    hide Inv, Enabled, VisitPlan, StartTimeoutPlan, Numbered, Does, CallOf, Taken, SaveAt, ClearAt;
    StartRowPlan(s, id);
    var a := Visit(L2, StartSweep, id, false, INIT, false);
    var e := At(s.tables, L2).mem[Key(StartTable, id)];
    TakenIs(s, a, NO_HASH, id);
    StartLoop(L2, At(s.tables, L2), e, Taken(s, a), s.time.agent);
    NumberedShapes(L2, SubmitAck(e.info.(status := ACK_FAIL)), StartTable, Taken(s, a), s.next);
  }

  /** A start from L2 that was never confirmed and is past its timeout: it is refused, and its row goes. */
  lemma StartRowRefused(s: System, id: TxId) returns (run: seq<Action>)
    requires Reachable(s) && RowIn(s, L2, StartTable, id) && RowOf(s, L2, StartTable, id).timeout < s.time.agent
    requires StillOpen(s, L2, id)
    ensures AnswerTo(run, Visit(L2, StartSweep, id, false, INIT, false), L2) && Possible(s, run)
    ensures var f := Final(s, run);
      && Known(f.chain, L2, id) && SourceRecord(f.chain, L2, id).status == ACK_FAIL
      && !RowIn(f, L2, StartTable, id) && RowIn(f, L2, AckTable, id)
  {
    ReachableOk(s);
    StartRowAnswers(s, id);
    var a := Visit(L2, StartSweep, id, false, INIT, false);
    var i, t, now := RowOf(s, L2, StartTable, id), At(s.tables, L2), s.time.agent;
    assert AgentOk(s, L2) && i.id == id;
    MovedOn(t, AckTable, i.(status := ACK_FAIL, ackHash := s.next), StartTable, now);
    hide Submitting, Inv, Reachable, VisitPlan, AnswerTo, Possible, Final, AgentOk, SaveAt, ClearAt;
    run := SourceDecided(s, a, L2, id, VisitPlan(s, a), Taken(s, a),
                         Call.SendAckedTx(id, 2, "send tx failed", i.executeTimestamp),
                         ClearAt(SaveAt(t, AckTable, i.(status := ACK_FAIL, ackHash := s.next), now), StartTable, id,
                                 now));
  }

  lemma SendRowPlan(s: System, d: Layer, id: TxId, receipt: bool)
    requires Inv(s) && RowIn(s, d, SendTable, id) && RowOf(s, d, SendTable, id).timeout < s.time.agent
    requires receipt ==> RowOf(s, d, SendTable, id).sendHash in s.receipts && Opened(s.chain, d, id)
    ensures var a := Visit(d, SendSweep, id, receipt, INIT, true);
      var e := At(s.tables, d).mem[Key(SendTable, id)];
      var record := VisitNet(s, a).readDest(id);
      && e.info.id == id && Enabled(s, a) && (receipt ==> record == Some(DestRecord(s.chain, d, id)))
      && VisitPlan(s, a) == SendTimeoutPlan(e, s.time.agent, receipt, ReadAt(id, record))
      && VisitPlan(s, a)
         == if receipt then
              [SubmitAck(Read(id, DestRecord(s.chain, d, id)).(status := ACK_SUCCESS))] + Clear(SendTable, id)
            else [SubmitAck(e.info.(status := ACK_TIMEOUT))] + Clear(SendTable, id)
  {
    assert AgentOk(s, d);
  }

  lemma SendRowAnswers(s: System, d: Layer, id: TxId, receipt: bool)
    requires Inv(s) && RowIn(s, d, SendTable, id) && RowOf(s, d, SendTable, id).timeout < s.time.agent
    requires receipt ==> RowOf(s, d, SendTable, id).sendHash in s.receipts && Opened(s.chain, d, id)
    ensures var a := Visit(d, SendSweep, id, receipt, INIT, true);
      var i, t, now := RowOf(s, d, SendTable, id), At(s.tables, d), s.time.agent;
      if receipt then
        var r := DestRecord(s.chain, d, id);
        var call := Call.SendAckedTx(id, 1, if d == L1 then "success" else "", Clamp(r.executeTimestamp));
        var row := Read(id, r).(status := ACK_SUCCESS, ackHash := s.next);
        Submitting(s, a, d, VisitPlan(s, a), Taken(s, a), d, call,
                 ClearAt(SaveAt(t, AckTable, row, now), SendTable, id, now))
      else
        Submitting(s, a, d, VisitPlan(s, a), Taken(s, a), d,
                 Call.SendAckedTx(id, 3, "send tx failed", i.executeTimestamp),
                 ClearAt(SaveAt(t, AckTable, i.(status := ACK_TIMEOUT, ackHash := s.next), now), SendTable, id, now))
  {
    hide Inv, Enabled, VisitPlan, VisitNet, SendTimeoutPlan, Numbered, Does, CallOf, Taken, SaveAt, ClearAt;
    SendRowPlan(s, d, id, receipt);
    var a := Visit(d, SendSweep, id, receipt, INIT, true);
    var e := At(s.tables, d).mem[Key(SendTable, id)];
    TakenIs(s, a, e.info.sendHash, id);
    SendLoop(d, At(s.tables, d), e, Taken(s, a).readDest(id), Taken(s, a), s.time.agent,
             if d == L1 then "success" else "");
    if receipt {
      NumberedShapes(d, SubmitAck(Read(id, DestRecord(s.chain, d, id)).(status := ACK_SUCCESS)), SendTable,
                     Taken(s, a), s.next);
    } else {
      NumberedShapes(d, SubmitAck(e.info.(status := ACK_TIMEOUT)), SendTable, Taken(s, a), s.next);
    }
  }

  /** A send past its timeout whose receipt is there: the success ack is sent, and inside the window it takes effect. */
  lemma SendRowSucceeds(s: System, d: Layer, id: TxId) returns (run: seq<Action>)
    requires Reachable(s) && RowIn(s, d, SendTable, id) && RowOf(s, d, SendTable, id).timeout < s.time.agent
    requires RowOf(s, d, SendTable, id).sendHash in s.receipts && Opened(s.chain, d, id) && StillOpen(s, d, id)
    requires InWindow(s, d, id, DestRecord(s.chain, d, id).executeTimestamp)
    ensures AnswerTo(run, Visit(d, SendSweep, id, true, INIT, true), d) && Possible(s, run)
    ensures var f := Final(s, run); Known(f.chain, d, id) && SourceRecord(f.chain, d, id).status == ACK_SUCCESS
    ensures !RowIn(Final(s, run), d, SendTable, id) && RowIn(Final(s, run), d, AckTable, id)
  {
    ReachableOk(s);
    SendRowAnswers(s, d, id, true);
    assert Mirrors(s.chain, d, id);
    var r, t, now := DestRecord(s.chain, d, id), At(s.tables, d), s.time.agent;
    var a := Visit(d, SendSweep, id, true, INIT, true);
    var call := Call.SendAckedTx(id, 1, if d == L1 then "success" else "", Clamp(r.executeTimestamp));
    var row := Read(id, r).(status := ACK_SUCCESS, ackHash := s.next);
    MovedOn(t, AckTable, row, SendTable, now);
    hide Submitting, Inv, Reachable, VisitPlan, AnswerTo, Possible, Final, SaveAt, ClearAt;
    run := SourceDecided(s, a, d, id, VisitPlan(s, a), Taken(s, a), call,
                         ClearAt(SaveAt(t, AckTable, row, now), SendTable, id, now));
  }

  /** And without a receipt it is refused. */
  lemma SendRowRefused(s: System, d: Layer, id: TxId) returns (run: seq<Action>)
    requires Reachable(s) && RowIn(s, d, SendTable, id) && RowOf(s, d, SendTable, id).timeout < s.time.agent
    requires StillOpen(s, d, id)
    ensures AnswerTo(run, Visit(d, SendSweep, id, false, INIT, true), d) && Possible(s, run)
    ensures var f := Final(s, run); Known(f.chain, d, id) && SourceRecord(f.chain, d, id).status == ACK_TIMEOUT
    ensures !RowIn(Final(s, run), d, SendTable, id) && RowIn(Final(s, run), d, AckTable, id)
  {
    ReachableOk(s);
    SendRowAnswers(s, d, id, false);
    assert AgentOk(s, d);
    var i, t, now := RowOf(s, d, SendTable, id), At(s.tables, d), s.time.agent;
    assert i.id == id;
    var a := Visit(d, SendSweep, id, false, INIT, true);
    var row := i.(status := ACK_TIMEOUT, ackHash := s.next);
    MovedOn(t, AckTable, row, SendTable, now);
    hide Submitting, Inv, Reachable, VisitPlan, AnswerTo, Possible, Final, AgentOk, SaveAt, ClearAt;
    run := SourceDecided(s, a, d, id, VisitPlan(s, a), Taken(s, a),
                         Call.SendAckedTx(id, 3, "send tx failed", i.executeTimestamp),
                         ClearAt(SaveAt(t, AckTable, row, now), SendTable, id, now));
  }

  // ---------- The events ----------

  /** The answers during an event, every submission taken. */
  function Told(s: System, ledgerSeq: Option<int>): Net {
    Net(c => Some(s.next), h => false, i => INIT, i => None, i => None, ledgerSeq)
  }

  lemma ToldIs(s: System, ledgerSeq: Option<int>)
    ensures forall c :: Told(s, ledgerSeq).submit(c) == Some(s.next)
    ensures Told(s, ledgerSeq).ledgerSeq == ledgerSeq
  {
  }

  lemma EventThere(s: System, layer: Layer, event: Event)
    requires Reachable(s) && event.id in At(s.chain, layer).records && !event.RefundEvent?
    requires var l, r := At(s.chain, layer), At(s.chain, layer).records[event.id];
      RoleOf(l, r) == (if event.SendTxEvent? then Destination else Source)
      && (event.SendAckedTxEvent? ==> r.status == ACK_SUCCESS)
    ensures Enabled(s, Deliver(layer, event, None))
  {
    ReachableAnnounced(s);
    assert RecordAnnounced(At(s.chain, layer), event.id);
  }

  lemma EventBegins(s: System, layer: Layer, event: Event)
    requires event.id in At(s.chain, layer).records
    ensures var plan := DeliverPlan(layer, event, At(s.chain, layer).records[event.id], None);
      Begins(s, Deliver(layer, event, None), Route(layer, event), plan)
  {
  }

  lemma StartEventPlan(s: System, id: TxId)
    requires Reachable(s) && Known(s.chain, L1, id)
    ensures var a := Deliver(L1, StartTxEvent(id), None);
      var plan := [SubmitTx(Read(id, SourceRecord(s.chain, L1, id)), true)];
      && Enabled(s, a) && Begins(s, a, L1, plan) && plan == StartPlan(L1, Read(id, SourceRecord(s.chain, L1, id)), None)
  {
    EventThere(s, L1, StartTxEvent(id));
  }

  /** A start on L1: its event is answered with a send, and in time that opens the transfer on L2. */
  lemma StartEventOpens(s: System, id: TxId) returns (run: seq<Action>)
    requires Reachable(s) && Sendable(s, L1, id)
    ensures AnswerTo(run, Deliver(L1, StartTxEvent(id), None), L1) && Possible(s, run)
    ensures Opened(Final(s, run).chain, L1, id) && RowIn(Final(s, run), L1, SendTable, id)
  {
    var a := Deliver(L1, StartTxEvent(id), None);
    var r, t, now, net := SourceRecord(s.chain, L1, id), At(s.tables, L1), s.time.agent, Told(s, None);
    var plan := [SubmitTx(Read(id, r), true)];
    var call := Call.SendTx(id, r.srcBid, r.destBid, Clamp(r.amount), Clamp(r.timeout));
    var row := Read(id, r).(sendHash := s.next);
    StartEventPlan(s, id);
    StartOnL1(t, id, r, net, now);
    NumberedOnce(L1, plan, net, s.next);
    SaveIs(t, SendTable, row, now);
    hide Inv, Reachable, AnswerTo, Possible, Final, Numbered, Does, Enabled, Begins, StartPlan, Sendable, Known;
    run := DestOpened(s, a, L1, id, plan, net, call, SaveAt(t, SendTable, row, now));
  }

  /** The answers when the node refuses the send and takes the refusal that follows. */
  function SendRefused(s: System): Net {
    Net((c: Call) => if c.SendTx? then None else Some(s.next + 1), h => false, i => INIT, i => None, i => None, None)
  }

  lemma RefusedNumbered(s: System, id: TxId, r: Record)
    ensures Numbered(L1, [SubmitTx(Read(id, r), true)], SendRefused(s), s.next)
  {
    var c := SubmitTx(Read(id, r), true);
    var nack := SubmitAck(Read(id, r).(status := ACK_FAIL));
    RestShrinks([c], None);
    assert Rest([c], None) == [nack];
    NumberedShapes(L1, nack, AckTable, SendRefused(s), s.next + 1);
  }

  /** A start on L1 whose send the node refuses: the transfer is refused on L1. */
  lemma StartEventRefused(s: System, id: TxId) returns (run: seq<Action>)
    requires Reachable(s) && StillOpen(s, L1, id)
    ensures AnswerTo(run, Deliver(L1, StartTxEvent(id), None), L1) && Possible(s, run)
    ensures var f := Final(s, run); Known(f.chain, L1, id) && SourceRecord(f.chain, L1, id).status == ACK_FAIL
  {
    ReachableOk(s);
    var a := Deliver(L1, StartTxEvent(id), None);
    var r, t, now, net := SourceRecord(s.chain, L1, id), At(s.tables, L1), s.time.agent, SendRefused(s);
    var plan := [SubmitTx(Read(id, r), true)];
    var send := Call.SendTx(id, r.srcBid, r.destBid, Clamp(r.amount), Clamp(r.timeout));
    var refusal := Call.SendAckedTx(id, 2, "send tx failed", Clamp(r.executeTimestamp));
    var after := SaveAt(t, AckTable, Read(id, r).(status := ACK_FAIL, ackHash := s.next + 1), now);
    StartEventPlan(s, id);
    StartOnL1(t, id, r, net, now);
    RefusedNumbered(s, id, r);
    SecondWaits(s, Sent(L2, send, false), L1, refusal);
    run := Answering(a, L1, plan, net, L1, s.next + 1);
    assert Does(L1, t, plan, net, now, [Sent(L2, send, false), Sent(L1, refusal, true)], after);
    hide Inv, Reachable, AnswerTo, Possible, Final, Numbered, Does, Enabled, Begins, StartPlan, Answering, Waits;
    AnswerRuns(s, a, L1, plan, net, [Sent(L2, send, false), Sent(L1, refusal, true)], L1, s.next + 1, refusal, after);
    SourceTakes(s, Final(s, run), L1, id, refusal, after);
  }

  /** A start on L2: its event makes a row that waits for the height of the ledger to be confirmed. */
  lemma StartEventSaved(s: System, id: TxId, ledgerSeq: int) returns (run: seq<Action>)
    requires Reachable(s) && Known(s.chain, L2, id) && !RowIn(s, L2, StartTable, id)
    ensures |run| >= 1 && run[0] == Deliver(L2, StartTxEvent(id), Some(ledgerSeq)) && Possible(s, run)
    ensures RowIn(Final(s, run), L2, StartTable, id)
    ensures RowOf(Final(s, run), L2, StartTable, id)
         == Read(id, SourceRecord(s.chain, L2, id)).(confirmSeq := ledgerSeq)
  {
    var a := Deliver(L2, StartTxEvent(id), Some(ledgerSeq));
    EventThere(s, L2, StartTxEvent(id));
    var r, t, net := SourceRecord(s.chain, L2, id), At(s.tables, L2), Told(s, Some(ledgerSeq));
    var i := Read(id, r).(confirmSeq := ledgerSeq);
    StartOnL2(t, id, r, net, s.time.agent);
    NumberedQuiet(L2, Save(StartTable, i), net, s.next);
    SaveIs(t, StartTable, i, s.time.agent);
    hide Reachable, Possible, Final, Numbered;
    HandlerRuns(s, a, L2, Save(StartTable, i), net);
    run := [a] + Steps(L2, Save(StartTable, i), net);
  }

  lemma SendEventAnswers(s: System, d: Layer, id: TxId)
    requires Reachable(s) && Opened(s.chain, d, id)
    ensures var a := Deliver(Other(d), SendTxEvent(id), None);
      var r, t, now := DestRecord(s.chain, d, id), At(s.tables, d), s.time.agent;
      var row := Read(id, r).(status := ACK_SUCCESS, ackHash := s.next);
      Submitting(s, a, d, SendEventPlan(Read(id, r)), Told(s, None), d,
                 Call.SendAckedTx(id, 1, if d == L1 then "success" else "", Clamp(r.executeTimestamp)),
                 ClearAt(SaveAt(t, AckTable, row, now), SendTable, id, now))
  {
    EventThere(s, Other(d), SendTxEvent(id));
    EventBegins(s, Other(d), SendTxEvent(id));
    var r := DestRecord(s.chain, d, id);
    ToldIs(s, None);
    hide Reachable, Enabled, Begins, Numbered, Does, Told, CallOf, SaveAt, ClearAt;
    SendExecuted(d, At(s.tables, d), id, r, Told(s, None), s.time.agent, if d == L1 then "success" else "");
    NumberedShapes(d, SubmitAck(Read(id, r).(status := ACK_SUCCESS)), SendTable, Told(s, None), s.next);
  }

  /** A send executed: its event is answered with the success ack, which inside the window takes effect. */
  lemma SendEventSucceeds(s: System, d: Layer, id: TxId) returns (run: seq<Action>)
    requires Reachable(s) && Opened(s.chain, d, id) && StillOpen(s, d, id)
    requires InWindow(s, d, id, DestRecord(s.chain, d, id).executeTimestamp)
    ensures AnswerTo(run, Deliver(Other(d), SendTxEvent(id), None), d) && Possible(s, run)
    ensures var f := Final(s, run); Known(f.chain, d, id) && SourceRecord(f.chain, d, id).status == ACK_SUCCESS
  {
    ReachableOk(s);
    SendEventAnswers(s, d, id);
    assert Mirrors(s.chain, d, id);
    var r, t, now := DestRecord(s.chain, d, id), At(s.tables, d), s.time.agent;
    var row := Read(id, r).(status := ACK_SUCCESS, ackHash := s.next);
    hide Submitting, Inv, Reachable, AnswerTo, Possible, Final;
    var a := Deliver(Other(d), SendTxEvent(id), None);
    run := SourceDecided(s, a, d, id, SendEventPlan(Read(id, r)), Told(s, None),
                         Call.SendAckedTx(id, 1, if d == L1 then "success" else "", Clamp(r.executeTimestamp)),
                         ClearAt(SaveAt(t, AckTable, row, now), SendTable, id, now));
  }

  lemma AckEventAnswers(s: System, d: Layer, id: TxId)
    requires Reachable(s) && Known(s.chain, d, id) && SourceRecord(s.chain, d, id).status == ACK_SUCCESS
    ensures var a := Deliver(d, SendAckedTxEvent(id), None);
      var r, t, now := SourceRecord(s.chain, d, id), At(s.tables, d), s.time.agent;
      Submitting(s, a, d, AckedEventPlan(Read(id, r)), Told(s, None), Other(d),
                 Call.SendAckedTx(id, 1, if d == L1 then "success" else "", Clamp(r.executeTimestamp)),
                 ClearAt(SaveAt(t, ReplyTable, Read(id, r).(replyHash := s.next), now), AckTable, id, now))
  {
    EventThere(s, d, SendAckedTxEvent(id));
    EventBegins(s, d, SendAckedTxEvent(id));
    var r := SourceRecord(s.chain, d, id);
    ToldIs(s, None);
    hide Reachable, Enabled, Begins, Numbered, Does, Told, CallOf, SaveAt, ClearAt;
    Answers.AckExecuted(d, At(s.tables, d), id, r, Told(s, None), s.time.agent, 1, if d == L1 then "success" else "");
    NumberedShapes(d, SubmitReply(Read(id, r)), AckTable, Told(s, None), s.next);
  }

  /** A success on the source: its event is answered with the payout, and the receiver is paid. */
  lemma AckEventPays(s: System, d: Layer, id: TxId) returns (run: seq<Action>)
    requires Reachable(s) && Known(s.chain, d, id) && SourceRecord(s.chain, d, id).status == ACK_SUCCESS
    requires Opened(s.chain, d, id) && DestRecord(s.chain, d, id).status == INIT
    requires DestRecord(s.chain, d, id).executeTimestamp < DestRecord(s.chain, d, id).timeout
    ensures AnswerTo(run, Deliver(d, SendAckedTxEvent(id), None), d) && Possible(s, run)
    ensures var w := Final(s, run).chain; Opened(w, d, id) && DestRecord(w, d, id).status == ACK_SUCCESS
  {
    ReachableOk(s);
    AckEventAnswers(s, d, id);
    assert Mirrors(s.chain, d, id) && Backed(s.chain, d, id);
    var r, t, now := SourceRecord(s.chain, d, id), At(s.tables, d), s.time.agent;
    hide Submitting, Inv, Reachable, AnswerTo, Possible, Final;
    run := DestDecided(s, Deliver(d, SendAckedTxEvent(id), None), d, id, AckedEventPlan(Read(id, r)), Told(s, None),
                       Call.SendAckedTx(id, 1, if d == L1 then "success" else "", Clamp(r.executeTimestamp)),
                       ClearAt(SaveAt(t, ReplyTable, Read(id, r).(replyHash := s.next), now), AckTable, id, now));
  }

  // ---------- When a transfer can be completed ----------

  /** The agent has its money back on the source, and the receiver has been paid on the destination. */
  predicate Complete(w: Chains, d: Layer, id: TxId) {
    && Known(w, d, id) && SourceRecord(w, d, id).status == ACK_SUCCESS
    && Opened(w, d, id) && DestRecord(w, d, id).status == ACK_SUCCESS
  }

  ghost predicate Completes(s: System, run: seq<Action>, d: Layer, id: TxId) {
    Possible(s, run) && Complete(Final(s, run).chain, d, id)
  }

  ghost predicate CanComplete(s: System, d: Layer, id: TxId) {
    exists run :: Completes(s, run, d, id)
  }

  /** What never changes between a transfer now and after a run. */
  predicate SameTransfer(w: Chains, w': Chains, d: Layer, id: TxId)
    requires Known(w, d, id) && Opened(w, d, id) && Known(w', d, id) && Opened(w', d, id)
  {
    var r, r', q, q' := SourceRecord(w, d, id), SourceRecord(w', d, id), DestRecord(w, d, id), DestRecord(w', d, id);
    && r'.createTimestamp == r.createTimestamp && r'.timeout == r.timeout
    && (r.status != INIT ==> r'.status == r.status)
    && q'.executeTimestamp == q.executeTimestamp && q'.timeout == q.timeout
    && (q.status != INIT ==> q'.status == q.status)
  }

  lemma {:induction false} KeptThrough(s: System, run: seq<Action>, d: Layer, id: TxId)
    requires HandOffInv(s) && Possible(s, run) && Known(s.chain, d, id) && Opened(s.chain, d, id)
    ensures var w := Final(s, run).chain; Known(w, d, id) && Opened(w, d, id) && SameTransfer(s.chain, w, d, id)
    decreases |run|
  {
    if run != [] {
      ActionGood(s, run[0]);
      GoodStepKeeps(s, Do(s, run[0]));
      KnownStable(s.chain, Do(s, run[0]).chain, d, id);
      hide HandOffInv, GoodDir;
      KeptThrough(Do(s, run[0]), run[1..], d, id);
    }
  }

  /** A completed transfer was executed inside both windows. */
  lemma CompleteInWindow(s: System, d: Layer, id: TxId)
    requires Reachable(s) && Complete(s.chain, d, id)
    ensures var executed := DestRecord(s.chain, d, id).executeTimestamp;
      InWindow(s, d, id, executed) && executed < DestRecord(s.chain, d, id).timeout
  {
    ReachableOk(s);
    ReachableAnnounced(s);
    assert Backed(s.chain, d, id);
    assert RecordAnnounced(At(s.chain, d), id) && RecordAnnounced(At(s.chain, Other(d)), id);
  }

  lemma CompleteNow(s: System, d: Layer, id: TxId)
    requires Complete(s.chain, d, id)
    ensures CanComplete(s, d, id)
  {
    assert Completes(s, [], d, id);
  }

  lemma CompleteAfter(s: System, run: seq<Action>, d: Layer, id: TxId)
    requires Possible(s, run) && CanComplete(Final(s, run), d, id)
    ensures CanComplete(s, d, id)
  {
    var more :| Completes(Final(s, run), more, d, id);
    RunThen(s, run, more);
    assert Completes(s, run + more, d, id);
  }

  /** The second half: the payout. */
  lemma PayoutCompletes(s: System, d: Layer, id: TxId)
    requires Reachable(s) && Known(s.chain, d, id) && SourceRecord(s.chain, d, id).status == ACK_SUCCESS
    requires Opened(s.chain, d, id) && DestRecord(s.chain, d, id).executeTimestamp < DestRecord(s.chain, d, id).timeout
    ensures CanComplete(s, d, id)
  {
    ReachableOrdered(s);
    assert Mirrors(s.chain, d, id);
    if DestRecord(s.chain, d, id).status == INIT {
      var run := AckEventPays(s, d, id);
      KeptThrough(s, run, d, id);
      CompleteNow(Final(s, run), d, id);
      CompleteAfter(s, run, d, id);
    } else {
      CompleteNow(s, d, id);
    }
  }

  /** The first half: the success ack. */
  lemma AckCompletes(s: System, d: Layer, id: TxId)
    requires Reachable(s) && StillOpen(s, d, id) && Opened(s.chain, d, id)
    requires InWindow(s, d, id, DestRecord(s.chain, d, id).executeTimestamp)
    requires DestRecord(s.chain, d, id).executeTimestamp < DestRecord(s.chain, d, id).timeout
    ensures CanComplete(s, d, id)
  {
    ReachableOrdered(s);
    var run := SendEventSucceeds(s, d, id);
    KeptThrough(s, run, d, id);
    RunReachable(s, run);
    PayoutCompletes(Final(s, run), d, id);
    CompleteAfter(s, run, d, id);
  }

  /**
    Once its deposit is made, a transfer can be completed exactly if it is not refused and was executed
    after its creation, before its timeout, and before the timeout the destination has for it.
  */
  lemma CompletesExactly(s: System, d: Layer, id: TxId)
    requires Reachable(s) && Opened(s.chain, d, id)
    ensures Known(s.chain, d, id)
    ensures var r, q := SourceRecord(s.chain, d, id), DestRecord(s.chain, d, id);
      CanComplete(s, d, id) <==>
        && r.status !in {ACK_FAIL, ACK_TIMEOUT}
        && r.createTimestamp < q.executeTimestamp < r.timeout && q.executeTimestamp < q.timeout
  {
    ReachableOrdered(s);
    assert Mirrors(s.chain, d, id);
    var r, q := SourceRecord(s.chain, d, id), DestRecord(s.chain, d, id);
    if CanComplete(s, d, id) {
      var run :| Completes(s, run, d, id);
      KeptThrough(s, run, d, id);
      RunReachable(s, run);
      CompleteInWindow(Final(s, run), d, id);
    }
    if r.status == ACK_SUCCESS && q.executeTimestamp < q.timeout {
      PayoutCompletes(s, d, id);
    } else if r.status == INIT && InWindow(s, d, id, q.executeTimestamp) && q.executeTimestamp < q.timeout {
      AckCompletes(s, d, id);
    }
  }
}
