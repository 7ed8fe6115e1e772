/**
  Runs from the empty bridge to the states in which something the bridge is for is not kept: nothing
  in the theorems with a condition is about a state that cannot come about.
*/
module Witnesses {
  import opened Escrow
  import opened Relay
  import opened RelayHandle
  import opened World
  import opened Protocol
  import opened Safety
  import opened HandOff
  import opened Agreement
  import opened OutOfPocket
  import opened Hazards
  import opened Wrappers

  // ---------- Going from one state to another ----------

  ghost predicate Goes(s: System, run: seq<Action>, s': System) {
    Possible(s, run) && Final(s, run) == s'
  }

  lemma {:induction false} GoesThen(s: System, first: seq<Action>, middle: System, a: Action)
    requires Goes(s, first, middle) && Enabled(middle, a)
    ensures Goes(s, first + [a], Do(middle, a))
    decreases |first|
  {
    if first == [] {
      assert first + [a] == [a] && [a][1..] == [];
      assert Possible(Do(middle, a), []) && Final(Do(middle, a), []) == Do(middle, a);
    } else {
      assert (first + [a])[1..] == first[1..] + [a];
      GoesThen(Do(s, first[0]), first[1..], middle, a);
    }
  }

  lemma NextReachable(s: System, a: Action)
    requires Reachable(s) && Enabled(s, a)
    ensures Reachable(Do(s, a)) && Inv(Do(s, a))
  {
    var owner1, owner2, chainId, timeout1, timeout2, time, run :|
      ReachedBy(s, owner1, owner2, chainId, timeout1, timeout2, time, run);
    GoesThen(Init(owner1, owner2, chainId, timeout1, timeout2, time), run, s, a);
    assert ReachedBy(Do(s, a), owner1, owner2, chainId, timeout1, timeout2, time, run + [a]);
    ReachableOk(Do(s, a));
  }

  lemma {:induction false} RunReachable(s: System, run: seq<Action>)
    requires Reachable(s) && Possible(s, run)
    ensures Reachable(Final(s, run))
    decreases |run|
  {
    if run != [] {
      NextReachable(s, run[0]);
      RunReachable(Do(s, run[0]), run[1..]);
    }
  }

  // ---------- Handlers that come and go ----------

  lemma AddTake(jobs: Jobs, job: seq<Cmd>)
    ensures jobs + multiset{job} - multiset{job} == jobs
  {
  }

  // ---------- The steps of a transfer ----------

  const SENDER: Address := 1
  const RECEIVER: Address := 2
  const AGENT: Address := 9

  /** A transfer just started: nothing else has happened. */
  ghost predicate JustStarted(s: System, d: Layer, id: TxId, amount: nat, created: nat, timeout: nat) {
    && Reachable(s) && Inv(s) && Known(s.chain, d, id) && !Opened(s.chain, d, id)
    && SourceRecord(s.chain, d, id)
       == Record(OwnChain(At(s.chain, d)), PeerChain(At(s.chain, d)), SENDER, RECEIVER, amount,
                 INIT, NONE, "", created, 0, timeout)
    && StartTxEvent(id) in At(s.chain, d).events
    && At(s.tables, d) == Agent(map[], map[]) && At(s.jobs, d) == multiset{} && At(s.pending, d) == map[]
  }

  lemma EmptyReachable(timeout: nat, time: Times)
    ensures var s := Init(AGENT, AGENT, 1, timeout, timeout, time); Reachable(s) && Inv(s)
  {
    var s := Init(AGENT, AGENT, 1, timeout, timeout, time);
    InitOk(AGENT, AGENT, 1, timeout, timeout, time);
    assert Possible(s, []) && Final(s, []) == s;
    assert ReachedBy(s, AGENT, AGENT, 1, timeout, timeout, time, []);
  }

  lemma Begin(d: Layer, id: TxId, amount: nat, timeout: nat, time: Times) returns (s: System)
    requires |id| == ID_LENGTH && BlockTime(time, d) + timeout < UINT256_LIMIT
    ensures JustStarted(s, d, id, amount, BlockTime(time, d), BlockTime(time, d) + timeout) && s.time == time
  {
    var s0 := Init(AGENT, AGENT, 1, timeout, timeout, time);
    EmptyReachable(timeout, time);
    var call := Call.StartTx(id, SENDER, RECEIVER, amount);
    var msg := Msg(SENDER, amount, BlockTime(time, d), true);
    var a := User(d, call, msg);
    assert Enabled(s0, a);
    NextReachable(s0, a);
    s := Do(s0, a);
    var l := At(s0.chain, d);
    assert Apply(l, msg, call).Done?;
    WroteBy(l, msg, call);
    AnnouncedBy(l, msg, call);
  }

  /** A submission the node answers with an error and includes all the same. */
  lemma Slipped(s: System, d: Layer, job: seq<Cmd>) returns (s': System, h: Hash)
    requires Reachable(s) && Inv(s) && job in At(s.jobs, d) && job != [] && Submits(job[0])
    ensures Reachable(s') && Inv(s') && s'.chain == s.chain && s'.tables == s.tables && s'.time == s.time
    ensures s'.receipts == s.receipts
    ensures h in At(s'.pending, TargetOf(d, job[0])) && At(s'.pending, TargetOf(d, job[0]))[h] == CallOf(d, job[0])
    ensures At(s'.jobs, d) == At(s.jobs, d) - multiset{job} + multiset{Rest(job, None)}
  {
    var a := Work(d, job, false, true);
    NextReachable(s, a);
    s', h := Do(s, a), s.next;
  }

  /** An event delivered: the handler it calls for is under way. */
  lemma Delivered(s: System, layer: Layer, event: Event, ledgerSeq: Option<int>) returns (s': System)
    requires Reachable(s) && event in At(s.chain, layer).events && event.id in At(s.chain, layer).records
    ensures Reachable(s') && Inv(s') && s'.chain == s.chain && s'.tables == s.tables && s'.time == s.time
    ensures s'.pending == s.pending
    ensures var plan := DeliverPlan(layer, event, At(s.chain, layer).records[event.id], ledgerSeq);
      At(s'.jobs, Route(layer, event)) == At(s.jobs, Route(layer, event)) + multiset{plan}
  {
    var a := Deliver(layer, event, ledgerSeq);
    NextReachable(s, a);
    s' := Do(s, a);
  }

  /** A first event of a start on L1: a handler is about to send the transfer. */
  lemma StartSeen(s: System, id: TxId, amount: nat, created: nat, timeout: nat) returns (s': System, job: seq<Cmd>)
    requires JustStarted(s, L1, id, amount, created, timeout)
    ensures Reachable(s') && Inv(s') && s'.chain == s.chain && s'.tables == s.tables && s'.time == s.time
    ensures job == [SubmitTx(Read(id, SourceRecord(s.chain, L1, id)), true)] && At(s'.jobs, L1) == multiset{job}
  {
    var a := Deliver(L1, StartTxEvent(id), None);
    NextReachable(s, a);
    DeliverOnce(s, id);
    s', job := Do(s, a), [SubmitTx(Read(id, SourceRecord(s.chain, L1, id)), true)];
  }

  // ---------- The agent out of pocket ----------

  lemma ReachesLost(s: System, d: Layer, id: TxId)
    requires Reachable(s) && CanLose(s, d, id)
    ensures exists s' :: Reachable(s') && Lost(s'.chain, d, id)
  {
    var run :| Leads(s, run, d, id);
    RunReachable(s, run);
  }

  lemma StartedSendable(s: System, d: Layer, id: TxId, amount: nat, created: nat, timeout: nat)
    requires JustStarted(s, d, id, amount, created, timeout)
    requires InTime(Other(d), Clamp(timeout), BlockTime(s.time, Other(d)))
    ensures Sendable(s, d, id)
  {
  }

  /** A start event that comes twice. */
  lemma RepeatedStartReached(id: TxId)
    requires |id| == ID_LENGTH
    ensures exists s :: Reachable(s) && Lost(s.chain, L1, id)
  {
    var s := Begin(L1, id, 5, 100, Times(1, 1, 1));
    StartedSendable(s, L1, id, 5, 1, 101);
    RepeatedStartLoses(s, id);
    ReachesLost(s, L1, id);
  }

  /** A send the node refuses and includes all the same. */
  lemma UnreportedSendReached(id: TxId)
    requires |id| == ID_LENGTH
    ensures exists s :: Reachable(s) && Lost(s.chain, L1, id)
  {
    var s := Begin(L1, id, 5, 100, Times(1, 1, 1));
    StartedSendable(s, L1, id, 5, 1, 101);
    var seen, job := StartSeen(s, id, 5, 1, 101);
    UnreportedSendLoses(seen, id, job);
    ReachesLost(seen, L1, id);
  }

  /** One local command of a handler. */
  lemma LocalDone(s: System, d: Layer, job: seq<Cmd>) returns (s': System)
    requires Reachable(s) && Inv(s) && job in At(s.jobs, d) && job != [] && !Submits(job[0])
    ensures Reachable(s') && Inv(s') && At(s'.jobs, d) == At(s.jobs, d) - multiset{job} + multiset{job[1..]}
    ensures s'.chain == s.chain && s'.pending == s.pending && s'.receipts == s.receipts && s'.time == s.time
    ensures At(s'.tables, d) == Local(At(s.tables, d), job[0], s.time.agent)
  {
    var a := Work(d, job, false, false);
    NextReachable(s, a);
    s' := Do(s, a);
  }

  /** Both halves of a save. */
  lemma SaveDone(s: System, d: Layer, t: Table, row: Info) returns (s': System)
    requires Reachable(s) && Inv(s) && Save(t, row) in At(s.jobs, d)
    ensures Reachable(s') && Inv(s')
    ensures s'.chain == s.chain && s'.pending == s.pending && s'.receipts == s.receipts && s'.time == s.time
    ensures At(s'.tables, d) == SaveAt(At(s.tables, d), t, row, s.time.agent)
    ensures At(s'.jobs, d) == At(s.jobs, d) - multiset{Save(t, row)} + multiset{[]}
  {
    var half := LocalDone(s, d, Save(t, row));
    assert Save(t, row)[1..] == [MapEmplace(t, row)];
    s' := LocalDone(half, d, [MapEmplace(t, row)]);
    AddTake(At(s.jobs, d) - multiset{Save(t, row)}, [MapEmplace(t, row)]);
    assert [MapEmplace(t, row)][1..] == [];
  }

  /** A submission the node takes, and includes or not. */
  lemma Submitted(s: System, d: Layer, job: seq<Cmd>, included: bool) returns (s': System, h: Hash)
    requires Reachable(s) && Inv(s) && job in At(s.jobs, d) && job != [] && Submits(job[0])
    ensures Reachable(s') && Inv(s') && s'.chain == s.chain && s'.tables == s.tables && s'.time == s.time
    ensures s'.receipts == s.receipts && At(s'.jobs, d) == At(s.jobs, d) - multiset{job} + multiset{Rest(job, Some(h))}
    ensures included ==>
      h in At(s'.pending, TargetOf(d, job[0])) && At(s'.pending, TargetOf(d, job[0]))[h] == CallOf(d, job[0])
    ensures !included ==> s'.pending == s.pending
  {
    var a := Work(d, job, true, included);
    NextReachable(s, a);
    s', h := Do(s, a), s.next;
  }

  /** A send from L1 that was taken, noted in both tables, and is pending. */
  lemma SentAndNoted(s: System, id: TxId, amount: nat, created: nat, timeout: nat) returns (s': System, h: Hash)
    requires JustStarted(s, L1, id, amount, created, timeout)
    ensures Reachable(s') && Inv(s') && s'.chain == s.chain && s'.time == s.time
    ensures h in s'.pending.two && s'.pending.two[h].SendTx? && s'.pending.two[h].id == id
    ensures Key(SendTable, id) in s'.tables.one.mem
    ensures s'.tables.one.mem[Key(SendTable, id)].info.timeout == Clamp(timeout)
  {
    var seen, job := StartSeen(s, id, amount, created, timeout);
    var sent;
    sent, h := Submitted(seen, L1, job, true);
    var row := job[0].info.(sendHash := h);
    assert Rest(job, Some(h)) == Save(SendTable, row);
    s' := SaveDone(sent, L1, SendTable, row);
  }

  /** A receipt that is not shown. */
  lemma MissingReceiptReached(id: TxId)
    requires |id| == ID_LENGTH
    ensures exists s :: Reachable(s) && Lost(s.chain, L1, id)
  {
    var s := Begin(L1, id, 5, 100, Times(1, 1, 1));
    StartedSendable(s, L1, id, 5, 1, 101);
    var sent, h := SentAndNoted(s, id, 5, 1, 101);
    SendOpens(sent, L1, id, h);
    NextReachable(sent, Include(L2, h, true));
    var there := DoInclude(sent, L2, h, true);
    NextReachable(there, Tick(Times(200, 200, 200)));
    var late := Do(there, Tick(Times(200, 200, 200)));
    MissingReceiptLoses(late, L1, id);
    ReachesLost(late, L1, id);
  }

  /** A clock of the agent that is ahead. */
  lemma ClockAheadReached(id: TxId)
    requires |id| == ID_LENGTH
    ensures exists s :: Reachable(s) && Lost(s.chain, L1, id)
  {
    var s := Begin(L1, id, 5, 100, Times(1, 1, 1));
    var sent, h := SentAndNoted(s, id, 5, 1, 101);
    NextReachable(sent, Tick(Times(1, 1, 200)));
    var ahead := Do(sent, Tick(Times(1, 1, 200)));
    ClockAheadLoses(ahead, L1, id, h);
    ReachesLost(ahead, L1, id);
  }

  // ---------- Transfers from L2 ----------

  /** A start on L2, saved in both tables. */
  lemma StartSaved(s: System, id: TxId, amount: nat, created: nat, timeout: nat) returns (s': System)
    requires JustStarted(s, L2, id, amount, created, timeout)
    ensures Reachable(s') && Inv(s') && s'.chain == s.chain && s'.time == s.time
    ensures var row := Read(id, SourceRecord(s.chain, L2, id)).(confirmSeq := 0);
      Key(StartTable, id) in s'.tables.two.db && Key(StartTable, id) in s'.tables.two.mem
      && s'.tables.two.mem[Key(StartTable, id)].info == row
  {
    var row := Read(id, SourceRecord(s.chain, L2, id)).(confirmSeq := 0);
    var seen := Delivered(s, L2, StartTxEvent(id), Some(0));
    hide Inv, Reachable;
    s' := SaveDone(seen, L2, StartTable, row);
  }

  /** A loop turn: its handler is under way. */
  lemma Visited(s: System, a: Action) returns (s': System)
    requires Reachable(s) && a.Visit? && Enabled(s, a)
    ensures Reachable(s') && Inv(s') && At(s'.jobs, a.d) == At(s.jobs, a.d) + multiset{VisitPlan(s, a)}
    ensures s' == s.(jobs := s'.jobs)
  {
    NextReachable(s, a);
    s' := Do(s, a);
  }

  /** A start on L2, saved and confirmed: a handler is about to send it. */
  lemma StartConfirmed(s: System, id: TxId, amount: nat, created: nat, timeout: nat) returns (s': System, job: seq<Cmd>)
    requires JustStarted(s, L2, id, amount, created, timeout) && s.time.agent <= Clamp(timeout)
    ensures Reachable(s') && Inv(s') && s'.chain == s.chain && s'.time == s.time
    ensures Key(StartTable, id) in s'.tables.two.db
    ensures job in At(s'.jobs, L2) && job != [] && job[0].SubmitTx? && job[0].info.id == id
  {
    var saved := StartSaved(s, id, amount, created, timeout);
    var visit := Visit(L2, ConfirmSweep(0), id, false, INIT, false);
    s' := Visited(saved, visit);
    job := VisitPlan(saved, visit);
  }

  /** A crash between a send from L2 and the note of it. */
  lemma CrashReached(id: TxId)
    requires |id| == ID_LENGTH
    ensures exists s :: Reachable(s) && Lost(s.chain, L2, id)
  {
    var s := Begin(L2, id, 5, 100, Times(1, 1, 1));
    StartedSendable(s, L2, id, 5, 1, 101);
    var confirmed, job := StartConfirmed(s, id, 5, 1, 101);
    CrashLoses(confirmed, id, job);
    ReachesLost(confirmed, L2, id);
  }

  // ---------- A transfer opened and acked at chosen times ----------

  /** A transfer the agent has a send pending for. */
  ghost predicate Sending(s: System, d: Layer, id: TxId, h: Hash, r: Record) {
    && Reachable(s) && Inv(s) && Known(s.chain, d, id) && !Opened(s.chain, d, id) && SourceRecord(s.chain, d, id) == r
    && r.status == INIT && r.srcBid == SENDER && r.destBid == RECEIVER
    && h in At(s.pending, Other(d)) && At(s.pending, Other(d))[h].SendTx? && At(s.pending, Other(d))[h].id == id
  }

  lemma SlippedSend(d: Layer, id: TxId, amount: nat, timeout: nat, time: Times) returns (s: System, h: Hash, r: Record)
    requires |id| == ID_LENGTH && BlockTime(time, d) + timeout < UINT256_LIMIT
    requires time.agent <= Clamp(BlockTime(time, d) + timeout)
    ensures Sending(s, d, id, h, r) && s.time == time
    ensures r.amount == amount && r.createTimestamp == BlockTime(time, d) && r.timeout == BlockTime(time, d) + timeout
    ensures d == L1 ==> s.tables.one == Agent(map[], map[])
    ensures d == L1 ==> At(s.jobs, L1) == multiset{[SubmitAck(Read(id, r).(status := ACK_FAIL))]}
  {
    var begun := Begin(d, id, amount, timeout, time);
    r := SourceRecord(begun.chain, d, id);
    var job;
    if d == L1 {
      s, job := StartSeen(begun, id, amount, BlockTime(time, d), BlockTime(time, d) + timeout);
    } else {
      s, job := StartConfirmed(begun, id, amount, BlockTime(time, d), BlockTime(time, d) + timeout);
    }
    s, h := Slipped(s, d, job);
  }

  /** The send is executed at a block time of our choice. */
  lemma OpensAt(s: System, d: Layer, id: TxId, h: Hash, r: Record, time: Times) returns (s': System)
    requires Sending(s, d, id, h, r) && InTime(Other(d), Clamp(r.timeout), BlockTime(time, Other(d)))
    ensures Reachable(s') && Undecided(s', d, id) && SourceRecord(s'.chain, d, id) == r
    ensures DestRecord(s'.chain, d, id).executeTimestamp == BlockTime(time, Other(d))
    ensures DestRecord(s'.chain, d, id).status == INIT
    ensures SendTxEvent(id) in At(s'.chain, Other(d)).events
    ensures s'.tables == s.tables && s'.jobs == s.jobs && s'.time == time
  {
    NextReachable(s, Tick(time));
    var s1 := Do(s, Tick(time));
    SendOpens(s1, d, id, h);
    var a := Include(Other(d), h, true);
    NextReachable(s1, a);
    s' := Do(s1, a);
    var l, c := At(s1.chain, Other(d)), At(s1.pending, Other(d))[h];
    var msg := AgentMsg(l, c, BlockTime(time, Other(d)), true);
    assert Apply(l, msg, c).Done?;
    WroteBy(l, msg, c);
    AnnouncedBy(l, msg, c);
  }

  /** The success ack of an opened transfer, pending. */
  lemma AckPends(s: System, d: Layer, id: TxId) returns (s': System, h: Hash)
    requires Reachable(s) && Undecided(s, d, id) && SendTxEvent(id) in At(s.chain, Other(d)).events
    ensures Reachable(s') && Inv(s') && s'.chain == s.chain && s'.tables == s.tables && s'.time == s.time
    ensures h in At(s'.pending, d) && At(s'.pending, d)[h] == SuccessCall(s, d, id)
  {
    var a := Deliver(Other(d), SendTxEvent(id), None);
    NextReachable(s, a);
    var s1 := Do(s, a);
    var job := SendEventPlan(Read(id, DestRecord(s.chain, d, id)));
    assert job in At(s1.jobs, d);
    s', h := Slipped(s1, d, job);
  }

  /** The success ack is there in time. */
  predicate InWindow(s: System, d: Layer, id: TxId)
    requires Known(s.chain, d, id) && Opened(s.chain, d, id)
  {
    var r, executed := SourceRecord(s.chain, d, id), DestRecord(s.chain, d, id).executeTimestamp;
    r.createTimestamp < executed && (d == L2 ==> executed != r.timeout)
  }

  /** A pending success ack executed. */
  lemma AckExecuted(s: System, d: Layer, id: TxId, h: Hash) returns (s': System)
    requires Reachable(s) && Undecided(s, d, id) && InWindow(s, d, id)
    requires h in At(s.pending, d) && At(s.pending, d)[h] == SuccessCall(s, d, id)
    ensures Reachable(s') && Inv(s') && s'.tables == s.tables && s'.time == s.time && Unpaid(s'.chain, d, id)
    ensures At(s'.chain, Other(d)) == At(s.chain, Other(d)) && s'.jobs == s.jobs
    ensures SourceRecord(s'.chain, d, id) == SourceRecord(s.chain, d, id).(
              status := ACK_SUCCESS, executeTimestamp := DestRecord(s.chain, d, id).executeTimestamp)
  {
    SuccessAckWindow(s, d, id, BlockTime(s.time, d));
    assert Mirrors(s.chain, d, id);
    var a := Include(d, h, true);
    NextReachable(s, a);
    s' := Do(s, a);
    var l, c := At(s.chain, d), At(s.pending, d)[h];
    WroteBy(l, AgentMsg(l, c, BlockTime(s.time, d), true), c);
  }

  /** The success ack sent and executed, without a trace in the tables. */
  lemma Succeeds(s: System, d: Layer, id: TxId) returns (s': System)
    requires Reachable(s) && Undecided(s, d, id) && InWindow(s, d, id)
    requires SendTxEvent(id) in At(s.chain, Other(d)).events
    ensures Reachable(s') && Inv(s') && s'.tables == s.tables && s'.time == s.time && Unpaid(s'.chain, d, id)
    ensures At(s'.chain, Other(d)) == At(s.chain, Other(d))
    ensures SourceRecord(s'.chain, d, id) == SourceRecord(s.chain, d, id).(
              status := ACK_SUCCESS, executeTimestamp := DestRecord(s.chain, d, id).executeTimestamp)
  {
    var pending, h := AckPends(s, d, id);
    s' := AckExecuted(pending, d, id, h);
  }

  // ---------- Acks and payouts that are refused, amounts that are cut ----------

  /** Opened and undecided, and the success ack is refused at any time. */
  ghost predicate AckRefused(s: System, d: Layer, id: TxId) {
    Undecided(s, d, id) && forall time ::
      Apply(At(s.chain, d), AgentMsg(At(s.chain, d), SuccessCall(s, d, id), time, true), SuccessCall(s, d, id)).Revert?
  }

  /** The agent was paid more on the source than it put in on the destination. */
  ghost predicate Uneven(s: System, d: Layer, id: TxId) {
    && Known(s.chain, d, id) && SourceRecord(s.chain, d, id).status == ACK_SUCCESS
    && Opened(s.chain, d, id) && DestRecord(s.chain, d, id).amount < SourceRecord(s.chain, d, id).amount
  }

  /** The agent was paid, and the payout to a willing receiver is refused at any time. */
  ghost predicate PayoutRefused(s: System, d: Layer, id: TxId) {
    Unpaid(s.chain, d, id) && forall time ::
      var l, call := At(s.chain, Other(d)), PayoutCall(s, d, id); Apply(l, AgentMsg(l, call, time, true), call).Revert?
  }

  /** A send from L2 executed at its timeout. */
  lemma LateSendReached(id: TxId)
    requires |id| == ID_LENGTH
    ensures exists s :: Reachable(s) && AckRefused(s, L2, id)
  {
    var s, h, r := SlippedSend(L2, id, 5, 100, Times(1, 1, 1));
    var s' := OpensAt(s, L2, id, h, r, Times(101, 101, 101));
    forall time ensures
      Apply(s'.chain.two, AgentMsg(s'.chain.two, SuccessCall(s', L2, id), time, true), SuccessCall(s', L2, id)).Revert?
    {
      SuccessAckWindow(s', L2, id, time);
    }
  }

  /** An amount of 2^63. */
  lemma UnevenReached(id: TxId)
    requires |id| == ID_LENGTH
    ensures exists s :: Reachable(s) && Uneven(s, L1, id)
  {
    var s, h, r := SlippedSend(L1, id, MAX_INT64 + 1, 100, Times(1, 1, 1));
    var there := OpensAt(s, L1, id, h, r, Times(2, 2, 2));
    var s' := Succeeds(there, L1, id);
    assert Mirrors(s'.chain, L1, id);
  }

  /** A timeout of 2^63 and more on L2, and a send executed on L1 at the last moment the agent can name. */
  lemma RefusedPayoutReached(id: TxId)
    requires |id| == ID_LENGTH
    ensures exists s :: Reachable(s) && PayoutRefused(s, L2, id)
  {
    var s, h, r := SlippedSend(L2, id, 5, MAX_INT64 + 1, Times(1, 1, 1));
    var there := OpensAt(s, L2, id, h, r, Times(MAX_INT64, MAX_INT64, MAX_INT64));
    var s' := Succeeds(there, L2, id);
    forall time ensures
      Apply(s'.chain.one, AgentMsg(s'.chain.one, PayoutCall(s', L2, id), time, true), PayoutCall(s', L2, id)).Revert?
    {
      NoStuckPayout(s', L2, id, time);
    }
  }

  // ---------- An id that no table remembers ----------

  /** A refusal saved by the agent although its send is still pending. */
  lemma RefusalSaved(id: TxId) returns (s: System, h: Hash, r: Record)
    requires |id| == ID_LENGTH
    ensures Sending(s, L1, id, h, r) && r.createTimestamp == 1 && r.timeout == 101
    ensures OnlyRow(s.tables.one, AckTable, id) && Key(AckTable, id) in s.tables.one.mem
    ensures s.tables.one.mem[Key(AckTable, id)].info.status == ACK_FAIL
    ensures s.tables.one.db[Key(AckTable, id)].status == ACK_FAIL
    ensures s.tables.one.mem[Key(AckTable, id)].ackDeadline == 1 + ACK_PERIOD && s.jobs.one == multiset{[]}
  {
    var slipped;
    slipped, h, r := SlippedSend(L1, id, 5, 100, Times(1, 1, 1));
    var nack := SubmitAck(Read(id, r).(status := ACK_FAIL));
    var taken, k := Submitted(slipped, L1, [nack], false);
    var row := nack.info.(ackHash := k);
    assert Rest([nack], Some(k)) == Save(AckTable, row);
    s := SaveDone(taken, L1, AckTable, row);
  }

  /** A refusal row of the agent, in both tables and due, for a transfer that is not refused. */
  ghost predicate DueRefusal(s: System, id: TxId) {
    && OnlyRow(s.tables.one, AckTable, id) && Key(AckTable, id) in s.tables.one.mem
    && s.tables.one.mem[Key(AckTable, id)].info.status == ACK_FAIL
    && s.tables.one.mem[Key(AckTable, id)].ackDeadline < s.time.agent
  }

  /** The refusal saved, and the send executed after all. */
  lemma RefusedButOpen(id: TxId) returns (s: System)
    requires |id| == ID_LENGTH
    ensures Reachable(s) && Undecided(s, L1, id) && InWindow(s, L1, id) && SendTxEvent(id) in s.chain.two.events
    ensures DueRefusal(s, id) && s.jobs.one == multiset{[]}
  {
    var saved, h, r := RefusalSaved(id);
    s := OpensAt(saved, L1, id, h, r, Times(2, 2, 2 + ACK_PERIOD));
  }

  /** An action after which an id is in no table although its transfer is not over. */
  ghost predicate Forgets(s: System, a: Action, d: Layer, id: TxId) {
    Reachable(s) && Enabled(s, a) && Minded(s, d, id) && !Minded(Do(s, a), d, id)
  }

  lemma ForgetsThen(s: System, id: TxId)
    requires Reachable(s) && Inv(s) && Unpaid(s.chain, L1, id) && DueRefusal(s, id)
    ensures exists s', a :: Forgets(s', a, L1, id) && s'.tables == s.tables
  {
    DueRefusalDrops(s, L1, id);
    var a := Visit(L1, AckSweep, id, false, ACK_SUCCESS, false);
    NextReachable(s, a);
    var s', b := Do(s, a), Work(L1, Clear(AckTable, id), false, false);
    assert Key(AckTable, id) in s'.tables.one.db;
    DropIsLost(s', b, L1, id);
    assert Forgets(s', b, L1, id);
  }

  /** A send refused and included, its refusal saved, and the success ack the only one that took effect. */
  lemma ForgottenReached(id: TxId)
    requires |id| == ID_LENGTH
    ensures exists s, a :: Forgets(s, a, L1, id)
  {
    var there := RefusedButOpen(id);
    var s := Succeeds(there, L1, id);
    ForgetsThen(s, id);
  }

  /** A success ack taken and pending, with its row still to be saved. */
  lemma SuccessTaken(s: System, id: TxId) returns (s': System, k: Hash, row: Info)
    requires Reachable(s) && Undecided(s, L1, id) && SendTxEvent(id) in s.chain.two.events
    ensures Reachable(s') && Inv(s') && s'.chain == s.chain && s'.time == s.time && s'.tables == s.tables
    ensures k in s'.pending.one && s'.pending.one[k] == SuccessCall(s, L1, id)
    ensures row.status == ACK_SUCCESS && row.id == id
    ensures s'.jobs.one == s.jobs.one + multiset{[DbPut(AckTable, row)] + Half(row)}
  {
    var seen := Delivered(s, L2, SendTxEvent(id), None);
    hide Inv, Reachable;
    var job := SendEventPlan(Read(id, DestRecord(s.chain, L1, id)));
    s', k := Submitted(seen, L1, job, true);
    row := job[0].info.(ackHash := k);
    assert Rest(job, Some(k)) == [DbPut(AckTable, row)] + Half(row);
    AddTake(s.jobs.one, job);
  }

  /** The same, its row written to the database and not yet to memory. */
  lemma SuccessHalfSaved(s: System, id: TxId) returns (s': System, k: Hash, row: Info)
    requires Reachable(s) && Undecided(s, L1, id) && SendTxEvent(id) in s.chain.two.events
    ensures Reachable(s') && Inv(s') && s'.chain == s.chain
    ensures s'.time == s.time && s'.tables.one.mem == s.tables.one.mem
    ensures k in s'.pending.one && s'.pending.one[k] == SuccessCall(s, L1, id)
    ensures row.status == ACK_SUCCESS && row.id == id && s'.tables.one.db == s.tables.one.db[Key(AckTable, id) := row]
    ensures s'.jobs.one == s.jobs.one + multiset{Half(row)}
  {
    hide Inv, Reachable, SuccessCall;
    var taken;
    taken, k, row := SuccessTaken(s, id);
    var rest := [DbPut(AckTable, row)] + Half(row);
    assert rest[1..] == Half(row);
    AddTake(s.jobs.one, rest);
    s' := LocalDone(taken, L1, rest);
  }

  ghost predicate ForgetsSuccess(s: System, a: Action, id: TxId) {
    && Forgets(s, a, L1, id) && Key(AckTable, id) in s.tables.one.db
    && s.tables.one.db[Key(AckTable, id)].status == ACK_SUCCESS
  }

  /** The row that is lost can be that of a success: the database has it, while memory keeps the refusal. */
  lemma SuccessRowForgotten(id: TxId)
    requires |id| == ID_LENGTH
    ensures exists s, a :: ForgetsSuccess(s, a, id)
  {
    var there := RefusedButOpen(id);
    var put, k, row := SuccessHalfSaved(there, id);
    assert SuccessCall(put, L1, id) == SuccessCall(there, L1, id);
    var s := AckExecuted(put, L1, id, k);
    ForgetsThen(s, id);
    var s', a :| Forgets(s', a, L1, id) && s'.tables == s.tables;
    assert ForgetsSuccess(s', a, id);
  }

  // ---------- A row in memory that the database does not have ----------

  /** Nobody is writing the row, and memory has it while the database does not. */
  ghost predicate OnlyInMemory(s: System, d: Layer, k: Key) {
    && k in At(s.tables, d).mem && k !in At(s.tables, d).db
    && forall j :: j in At(s.jobs, d) ==> !Between(j, k)
  }

  /** One handler is between the halves of a write of the row, and no other. */
  ghost predicate OneBetween(jobs: Jobs, half: seq<Cmd>, k: Key) {
    jobs[half] == 1 && forall j :: j in jobs && j != half ==> !Between(j, k)
  }

  /** What is left of the handlers when one of them has come and gone and another has gone on. */
  lemma GoneOn(jobs: Jobs, half: seq<Cmd>, rest: seq<Cmd>, k: Key)
    requires OneBetween(jobs, half, k) && !Between(rest, k) && half != []
    ensures forall j :: j in jobs + multiset{[]} - multiset{half} + multiset{rest} ==> !Between(j, k)
  {
    var jobs' := jobs + multiset{[]} - multiset{half} + multiset{rest};
    assert forall j :: j in jobs' ==> j == rest || j == [] || (j in jobs && j != half);
  }

  lemma HalfAlone(jobs: Jobs, row: Info, id: TxId)
    requires jobs == multiset{[]}
    ensures OneBetween(jobs + multiset{Half(row)}, Half(row), Key(AckTable, row.id))
  {
    assert forall j :: j in jobs + multiset{Half(row)} ==> j == [] || j == Half(row);
  }

  /** A handler of a success between the halves of its save. */
  function Half(row: Info): seq<Cmd> {
    [MapEmplace(AckTable, row)] + Clear(SendTable, row.id)
  }

  /** The success executed, its row half saved, and the refusal row still in memory. */
  ghost predicate HalfWay(s: System, row: Info) {
    && Reachable(s) && Inv(s) && Unpaid(s.chain, L1, row.id) && DueRefusal(s, row.id)
    && OneBetween(s.jobs.one, Half(row), Key(AckTable, row.id))
  }

  lemma HalfWayReached(id: TxId) returns (s: System, row: Info)
    requires |id| == ID_LENGTH
    ensures HalfWay(s, row) && row.id == id
  {
    var there := RefusedButOpen(id);
    var put, ack;
    put, ack, row := SuccessHalfSaved(there, id);
    HalfAlone(there.jobs.one, row, id);
    assert SuccessCall(put, L1, id) == SuccessCall(there, L1, id);
    s := AckExecuted(put, L1, id, ack);
  }

  lemma DueRefusalPlan(s: System, id: TxId)
    requires Inv(s) && DueRefusal(s, id)
    ensures VisitPlan(s, Visit(L1, AckSweep, id, false, ACK_SUCCESS, false)) == Clear(AckTable, id)
  {
    RowIsItsOwn(s, id);
    hide Inv;
  }

  lemma RowIsItsOwn(s: System, id: TxId)
    requires Inv(s) && Key(AckTable, id) in s.tables.one.mem
    ensures s.tables.one.mem[Key(AckTable, id)].info.id == id
  {
    assert AgentOk(s, L1);
  }

  lemma ClearDone(s: System, t: Table, id: TxId) returns (s': System)
    requires Reachable(s) && Inv(s) && Clear(t, id) in s.jobs.one
    ensures Reachable(s') && Inv(s') && s'.jobs.one == s.jobs.one - multiset{Clear(t, id)} + multiset{[]}
    ensures s'.tables.one == ClearAt(s.tables.one, t, id, s.time.agent)
  {
    hide Inv, Reachable, Local;
    var deleted := LocalDone(s, L1, Clear(t, id));
    assert Clear(t, id)[1..] == [MapErase(t, id)] && [MapErase(t, id)][1..] == [];
    AddTake(s.jobs.one - multiset{Clear(t, id)}, [MapErase(t, id)]);
    s' := LocalDone(deleted, L1, [MapErase(t, id)]);
  }

  /** The loop comes and clears the row, both halves. */
  lemma ClearedBeside(s: System, row: Info) returns (s': System)
    requires HalfWay(s, row)
    ensures Reachable(s') && Inv(s')
    ensures At(s'.tables, L1) == ClearAt(At(s.tables, L1), AckTable, row.id, s.time.agent)
    ensures s'.jobs.one == s.jobs.one + multiset{[]}
  {
    DueRefusalDrops(s, L1, row.id);
    DueRefusalPlan(s, row.id);
    hide HalfWay, Inv, Reachable, Enabled, Local;
    var visited := Visited(s, Visit(L1, AckSweep, row.id, false, ACK_SUCCESS, false));
    AddTake(s.jobs.one, Clear(AckTable, row.id));
    s' := ClearDone(visited, AckTable, row.id);
  }

  /** And the handler of the success goes on with the second half of its save. */
  lemma EmplacedAfter(s: System, row: Info, cleared: System) returns (s': System)
    requires HalfWay(s, row) && Reachable(cleared) && Inv(cleared)
    requires At(cleared.tables, L1) == ClearAt(At(s.tables, L1), AckTable, row.id, s.time.agent)
    requires cleared.jobs.one == s.jobs.one + multiset{[]}
    ensures Reachable(s') && OnlyInMemory(s', L1, Key(AckTable, row.id))
  {
    var k := Key(AckTable, row.id);
    assert OneBetween(s.jobs.one, Half(row), k) && Half(row) in cleared.jobs.one;
    hide HalfWay, Inv, Reachable, OneBetween, DueRefusal, Unpaid;
    s' := LocalDone(cleared, L1, Half(row));
    assert Half(row)[1..] == Clear(SendTable, row.id);
    GoneOn(s.jobs.one, Half(row), Clear(SendTable, row.id), k);
    EmplaceAfterClear(At(s.tables, L1), row, s.time.agent, cleared.time.agent);
  }

  lemma EmplaceAfterClear(a: Agent, row: Info, before: int, now: int)
    ensures var a' := Local(ClearAt(a, AckTable, row.id, before), Half(row)[0], now);
      Key(AckTable, row.id) in a'.mem && Key(AckTable, row.id) !in a'.db
  {
  }

  /** A save and a clear of the same row that overlap: the clear comes between the two halves of the save. */
  lemma OverlapReached(id: TxId)
    requires |id| == ID_LENGTH
    ensures exists s :: Reachable(s) && OnlyInMemory(s, L1, Key(AckTable, id))
  {
    var s, row := HalfWayReached(id);
    var cleared := ClearedBeside(s, row);
    var s' := EmplacedAfter(s, row, cleared);
  }
}
