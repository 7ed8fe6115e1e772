/**
  Why the conditions of a clean run are there: without them the bridge, as it is, can leave the
  agent out of pocket.  Each lemma gives the run, from any state of the described kind.
*/
module Hazards {
  import opened Escrow
  import opened Relay
  import opened RelayHandle
  import opened World
  import opened Protocol
  import opened HandOff
  import opened OutOfPocket
  import opened Wrappers

  /** The agent's deposit is on the destination and the source will refund: the agent has paid for nothing. */
  predicate Lost(w: Chains, d: Layer, id: TxId) {
    Opened(w, d, id) && Refused(w, d, id)
  }

  ghost predicate Leads(s: System, run: seq<Action>, d: Layer, id: TxId) {
    Possible(s, run) && Lost(Final(s, run).chain, d, id)
  }

  ghost predicate CanLose(s: System, d: Layer, id: TxId) {
    exists run :: Leads(s, run, d, id)
  }

  lemma LosesNow(s: System, d: Layer, id: TxId)
    requires Lost(s.chain, d, id)
    ensures CanLose(s, d, id)
  {
    assert Leads(s, [], d, id);
  }

  lemma LosesAfter(s: System, a: Action, d: Layer, id: TxId)
    requires Enabled(s, a) && CanLose(Do(s, a), d, id)
    ensures CanLose(s, d, id)
  {
    var run :| Leads(Do(s, a), run, d, id);
    assert ([a] + run)[1..] == run;
    assert Leads(s, [a] + run, d, id);
  }

  /** A transfer both ends know, whose source is still undecided. */
  ghost predicate Undecided(s: System, d: Layer, id: TxId) {
    Inv(s) && Opened(s.chain, d, id) && Known(s.chain, d, id) && SourceRecord(s.chain, d, id).status == INIT
  }

  /** A refusal of an undecided transfer, sent by the agent, is always accepted. */
  lemma RefusalAccepted(l: Ledger, msg: Msg, c: Call)
    requires c.SendAckedTx? && c.result in {2, 3} && |c.errorDesc| < ERROR_DESC_LIMIT
    requires msg.sender == l.owner && msg.value == 0
    requires |c.id| == ID_LENGTH && c.id in l.records && l.records[c.id].status == INIT
    ensures Apply(l, msg, c).Done? && After(l, msg, c).records[c.id].status in {ACK_FAIL, ACK_TIMEOUT}
  {
  }

  lemma RefusalPending(s: System, d: Layer, id: TxId, h: Hash)
    requires Undecided(s, d, id) && h in At(s.pending, d)
    requires At(s.pending, d)[h].SendAckedTx? && At(s.pending, d)[h].id == id && At(s.pending, d)[h].result in {2, 3}
    requires |At(s.pending, d)[h].errorDesc| < ERROR_DESC_LIMIT
    ensures CanLose(s, d, id)
  {
    var a := Include(d, h, true);
    var s' := DoInclude(s, d, h, true);
    IncludePermitted(s, d, h, true);
    var l, c := At(s.chain, d), At(s.pending, d)[h];
    var msg := AgentMsg(l, c, BlockTime(s.time, d), true);
    RefusalAccepted(l, msg, c);
    WorldKept(s.chain, d, msg, c);
    KnownStable(s.chain, s'.chain, d, id);
    assert Lost(s'.chain, d, id);
    LosesNow(s', d, id);
    LosesAfter(s, a, d, id);
  }

  lemma RefusalUnderWay(s: System, d: Layer, id: TxId, job: seq<Cmd>)
    requires Undecided(s, d, id) && job in At(s.jobs, d) && job != []
    requires job[0].SubmitAck? && job[0].info.id == id && job[0].info.status in {ACK_FAIL, ACK_TIMEOUT}
    ensures CanLose(s, d, id)
  {
    var a := Work(d, job, true, true);
    WorkKeeps(s, d, job, true, true);
    var s' := DoWork(s, d, job, true, true);
    assert s'.chain == s.chain && s.next in At(s'.pending, d) && At(s'.pending, d)[s.next] == CallOf(d, job[0]);
    RefusalPending(s', d, id, s.next);
    LosesAfter(s, a, d, id);
  }

  /** Past its timeout, and without a receipt shown, a send is refused by the loop over the send rows. */
  lemma SendSweepRefuses(s: System, d: Layer, id: TxId)
    requires Inv(s) && Key(SendTable, id) in At(s.tables, d).mem
    requires At(s.tables, d).mem[Key(SendTable, id)].info.timeout < s.time.agent
    ensures var a := Visit(d, SendSweep, id, false, INIT, false);
      && Enabled(s, a) && Inv(Do(s, a)) && Do(s, a) == s.(jobs := Do(s, a).jobs)
      && var plan := VisitPlan(s, a);
      && plan in At(Do(s, a).jobs, d) && plan != []
      && plan[0].SubmitAck? && plan[0].info.id == id && plan[0].info.status == ACK_TIMEOUT
  {
    assert AgentOk(s, d);
    VisitKeeps(s, Visit(d, SendSweep, id, false, INIT, false));
  }

  /**
    A missing receipt: when the node fails to show the receipt of a SendTx that did execute and the
    timeout has passed, the timeout loop refuses the transfer.
  */
  lemma MissingReceiptLoses(s: System, d: Layer, id: TxId)
    requires Undecided(s, d, id)
    requires Key(SendTable, id) in At(s.tables, d).mem
    requires At(s.tables, d).mem[Key(SendTable, id)].info.timeout < s.time.agent
    ensures CanLose(s, d, id)
  {
    var a := Visit(d, SendSweep, id, false, INIT, false);
    SendSweepRefuses(s, d, id);
    RefusalUnderWay(Do(s, a), d, id, VisitPlan(s, a));
    LosesAfter(s, a, d, id);
  }

  // ---------- A start handled twice ----------

  lemma SecondSendRefused(s: System, id: TxId, job: seq<Cmd>)
    requires Undecided(s, L1, id) && job in At(s.jobs, L1) && job != []
    requires job[0].SubmitTx? && job[0].ackOnFail && job[0].info.id == id
    ensures CanLose(s, L1, id)
  {
    var a := Work(L1, job, false, false);
    WorkKeeps(s, L1, job, false, false);
    var s' := DoWork(s, L1, job, false, false);
    var rest := Rest(job, None);
    assert s'.chain == s.chain && rest in At(s'.jobs, L1);
    RefusalUnderWay(s', L1, id, rest);
    LosesAfter(s, a, L1, id);
  }

  /** A transfer that the agent can still open on the other chain. */
  ghost predicate Sendable(s: System, d: Layer, id: TxId) {
    && Inv(s) && Known(s.chain, d, id) && !Opened(s.chain, d, id)
    && var r := SourceRecord(s.chain, d, id);
    && r.status == INIT && r.srcBid != ZERO_ADDRESS && r.destBid != ZERO_ADDRESS
    && InTime(Other(d), Clamp(r.timeout), BlockTime(s.time, Other(d)))
  }

  /** A send of the agent that reaches the chain in time opens the transfer. */
  lemma SendOpens(s: System, d: Layer, id: TxId, h: Hash)
    requires Sendable(s, d, id)
    requires h in At(s.pending, Other(d)) && At(s.pending, Other(d))[h].SendTx? && At(s.pending, Other(d))[h].id == id
    ensures var s' := DoInclude(s, Other(d), h, true);
      && Undecided(s', d, id) && s'.jobs == s.jobs && s'.tables == s.tables && s'.time == s.time
  {
    var c := At(s.pending, Other(d))[h];
    var l := At(s.chain, Other(d));
    var msg := AgentMsg(l, c, BlockTime(s.time, Other(d)), true);
    assert AgentOk(s, Other(d)) && CallOk(s.chain, Other(d), c);
    assert !(Known(s.chain, L1, id) && Known(s.chain, L2, id));
    SendDone(s, d, id, c);
    IncludeKeeps(s, Other(d), h, true);
    IncludeFrame(s, Other(d), h, true);
    hide Apply, Inv, CallOk, InTime, AgentOk;
    assert DoInclude(s, Other(d), h, true).chain == World.Step(s.chain, Other(d), msg, c);
  }

  lemma SendDone(s: System, d: Layer, id: TxId, c: Call)
    requires Sendable(s, d, id) && c.SendTx? && c.id == id && CallOk(s.chain, Other(d), c)
    ensures var msg := AgentMsg(At(s.chain, Other(d)), c, BlockTime(s.time, Other(d)), true);
      var w := World.Step(s.chain, Other(d), msg, c);
      && Opened(w, d, id) && Known(w, d, id) && SourceRecord(w, d, id).status == INIT
  {
    assert !(Known(s.chain, L1, id) && Known(s.chain, L2, id));
  }

  lemma OneSentOneToSend(s: System, id: TxId, h: Hash, job: seq<Cmd>)
    requires Sendable(s, L1, id) && job in At(s.jobs, L1) && job != []
    requires job[0].SubmitTx? && job[0].ackOnFail && job[0].info.id == id
    requires h in At(s.pending, L2) && At(s.pending, L2)[h].SendTx? && At(s.pending, L2)[h].id == id
    ensures CanLose(s, L1, id)
  {
    SendOpens(s, L1, id, h);
    SecondSendRefused(DoInclude(s, L2, h, true), id, job);
    LosesAfter(s, Include(L2, h, true), L1, id);
  }

  lemma TwoToSend(s: System, id: TxId, job: seq<Cmd>)
    requires Sendable(s, L1, id) && job != [] && At(s.jobs, L1)[job] >= 2
    requires job[0].SubmitTx? && job[0].ackOnFail && job[0].info.id == id
    ensures CanLose(s, L1, id)
  {
    var a := Work(L1, job, true, true);
    WorkKeeps(s, L1, job, true, true);
    var s' := DoWork(s, L1, job, true, true);
    assert s'.chain == s.chain && job in At(s'.jobs, L1) && s'.time == s.time;
    assert At(s'.pending, L2)[s.next] == CallOf(L1, job[0]);
    OneSentOneToSend(s', id, s.next, job);
    LosesAfter(s, a, L1, id);
  }

  lemma DeliverOnce(s: System, id: TxId)
    requires Inv(s) && StartTxEvent(id) in s.chain.one.events && Known(s.chain, L1, id)
    ensures var s' := DoDeliver(s, L1, StartTxEvent(id), None);
      && Enabled(s, Deliver(L1, StartTxEvent(id), None)) && Inv(s')
      && s'.chain == s.chain && s'.time == s.time
      && At(s'.jobs, L1) == At(s.jobs, L1) + multiset{[SubmitTx(Read(id, SourceRecord(s.chain, L1, id)), true)]}
  {
    DeliverKeeps(s, L1, StartTxEvent(id), None);
  }

  /**
    A start handled twice: both handlers submit a SendTx, the first executes, the second is refused
    by the node, and its failure ack refuses a transfer whose deposit is already on L2.
  */
  lemma RepeatedStartLoses(s: System, id: TxId)
    requires Sendable(s, L1, id) && StartTxEvent(id) in s.chain.one.events
    ensures CanLose(s, L1, id)
  {
    var a := Deliver(L1, StartTxEvent(id), None);
    var job := [SubmitTx(Read(id, SourceRecord(s.chain, L1, id)), true)];
    DeliverOnce(s, id);
    var s1 := Do(s, a);
    DeliverOnce(s1, id);
    var s2 := Do(s1, a);
    assert At(s2.jobs, L1)[job] >= 2;
    TwoToSend(s2, id, job);
    LosesAfter(s1, a, L1, id);
    LosesAfter(s, a, L1, id);
  }

  // ---------- A send refused to the agent and included all the same ----------

  /** When the node answers a SendTx with an error but the call is included, the failure ack that follows refuses it. */
  lemma UnreportedSendLoses(s: System, id: TxId, job: seq<Cmd>)
    requires Sendable(s, L1, id) && job in At(s.jobs, L1) && job != []
    requires job[0].SubmitTx? && job[0].ackOnFail && job[0].info.id == id
    ensures CanLose(s, L1, id)
  {
    WorkKeeps(s, L1, job, false, true);
    var s' := DoWork(s, L1, job, false, true);
    var rest := Rest(job, None);
    assert s'.chain == s.chain && rest in At(s'.jobs, L1) && s'.time == s.time;
    assert At(s'.pending, L2)[s.next] == CallOf(L1, job[0]);
    SendOpens(s', L1, id, s.next);
    RefusalUnderWay(DoInclude(s', L2, s.next, true), L1, id, rest);
    LosesAfter(s', Include(L2, s.next, true), L1, id);
    LosesAfter(s, Work(L1, job, false, true), L1, id);
  }

  // ---------- Two clocks ----------

  /**
    A clock of the agent's machine that is ahead of the chain: the timeout loop refuses a transfer
    whose send is still pending, truthfully without a receipt, and in time for its chain.
  */
  lemma ClockAheadLoses(s: System, d: Layer, id: TxId, h: Hash)
    requires Sendable(s, d, id)
    requires h in At(s.pending, Other(d)) && At(s.pending, Other(d))[h].SendTx? && At(s.pending, Other(d))[h].id == id
    requires Key(SendTable, id) in At(s.tables, d).mem
    requires At(s.tables, d).mem[Key(SendTable, id)].info.timeout < s.time.agent
    ensures CanLose(s, d, id)
  {
    var a := Visit(d, SendSweep, id, false, INIT, false);
    SendSweepRefuses(s, d, id);
    var s', plan := Do(s, a), VisitPlan(s, a);
    hide Do, VisitPlan, DoInclude, Inv;
    SendOpens(s', d, id, h);
    RefusalUnderWay(DoInclude(s', Other(d), h, true), d, id, plan);
    LosesAfter(s', Include(Other(d), h, true), d, id);
    LosesAfter(s, a, d, id);
  }

  // ---------- A crash between a send and the note of it ----------

  lemma StartRowTimesOut(s: System, id: TxId)
    requires Undecided(s, L2, id) && Key(StartTable, id) in At(s.tables, L2).mem
    requires At(s.tables, L2).mem[Key(StartTable, id)].info.timeout < s.time.agent
    ensures CanLose(s, L2, id)
  {
    var a := Visit(L2, StartSweep, id, false, INIT, false);
    assert AgentOk(s, L2);
    VisitKeeps(s, a);
    var s' := Do(s, a);
    var plan := VisitPlan(s, a);
    assert plan in At(s'.jobs, L2) && s'.chain == s.chain;
    RefusalUnderWay(s', L2, id, plan);
    LosesAfter(s, a, L2, id);
  }

  lemma SentBeforeCrash(s: System, id: TxId, h: Hash)
    requires Sendable(s, L2, id) && Key(StartTable, id) in At(s.tables, L2).db
    requires h in At(s.pending, L1) && At(s.pending, L1)[h].SendTx? && At(s.pending, L1)[h].id == id
    ensures CanLose(s, L2, id)
  {
    CrashKeeps(s);
    var s1 := DoCrash(s);
    SendOpens(s1, L2, id, h);
    var s2 := DoInclude(s1, L1, h, true);
    var row := At(s2.tables, L2).mem[Key(StartTable, id)].info;
    var late := Tick(s2.time.(agent := row.timeout + 1));
    StepKeeps(s2, late);
    StartRowTimesOut(Do(s2, late), id);
    LosesAfter(s2, late, L2, id);
    LosesAfter(s1, Include(L1, h, true), L2, id);
    LosesAfter(s, Crash, L2, id);
  }

  /**
    A crash after the SendTx of a transfer from L2 was submitted and before it was noted: the start
    row is still in the database, the restarted agent knows of no send, and its timeout refuses the transfer.
  */
  lemma CrashLoses(s: System, id: TxId, job: seq<Cmd>)
    requires Sendable(s, L2, id) && Key(StartTable, id) in At(s.tables, L2).db
    requires job in At(s.jobs, L2) && job != [] && job[0].SubmitTx? && job[0].info.id == id
    ensures CanLose(s, L2, id)
  {
    WorkKeeps(s, L2, job, true, true);
    var s' := DoWork(s, L2, job, true, true);
    assert s'.chain == s.chain && s'.tables == s.tables && s'.time == s.time;
    assert At(s'.pending, L1)[s.next] == CallOf(L2, job[0]);
    SentBeforeCrash(s', id, s.next);
    LosesAfter(s, Work(L2, job, true, true), L2, id);
  }

  // ---------- Exactly how long a deposit can be lost ----------

  /** The events of a record have been emitted, and a success was executed between its creation and its timeout. */
  predicate RecordAnnounced(l: Ledger, id: TxId)
    requires id in l.records
  {
    var r := l.records[id];
    && (RoleOf(l, r) == Source ==> StartTxEvent(id) in l.events)
    && (RoleOf(l, r) == Destination ==> SendTxEvent(id) in l.events)
    && (RoleOf(l, r) == Source && r.status == ACK_SUCCESS ==> SendAckedTxEvent(id) in l.events)
    && (r.status == ACK_SUCCESS ==> r.createTimestamp < r.executeTimestamp < r.timeout)
  }

  ghost predicate LedgerAnnounced(l: Ledger) {
    forall id :: id in l.records ==> RecordAnnounced(l, id)
  }

  ghost predicate AllAnnounced(w: Chains) {
    LedgerAnnounced(w.one) && LedgerAnnounced(w.two)
  }

  lemma WriteAnnounced(l: Ledger, l': Ledger, msg: Msg, c: Call)
    requires l.chainId != 0 && Wrote(l, l', msg, c) && l'.events == l.events + Announced(l, c)
    requires LedgerAnnounced(l) && Coherent(l)
    ensures LedgerAnnounced(l')
  {
    forall id | id in l'.records ensures RecordAnnounced(l', id) {
      if id != c.id {
        assert id in l.records && RecordAnnounced(l, id);
      } else {
        if id in l.records { assert RecordAnnounced(l, id); }
        assert forall e :: e in Announced(l, c) ==> e in l'.events;
        if Announced(l, c) != [] { assert Announced(l, c)[0] in l'.events; }
      }
    }
  }

  lemma CallAnnounced(w: Chains, layer: Layer, msg: Msg, c: Call)
    requires WorldOk(w) && AllAnnounced(w)
    ensures AllAnnounced(World.Step(w, layer, msg, c))
  {
    var l := At(w, layer);
    if Apply(l, msg, c).Done? {
      WroteBy(l, msg, c);
      AnnouncedBy(l, msg, c);
      WriteAnnounced(l, After(l, msg, c), msg, c);
    }
  }

  lemma StepAnnounced(s: System, a: Action)
    requires Inv(s) && Enabled(s, a) && AllAnnounced(s.chain)
    ensures AllAnnounced(Do(s, a).chain)
  {
    match a {
      case User(layer, call, msg) => CallAnnounced(s.chain, layer, msg, call);
      case Include(layer, hash, accepts) =>
        var call := At(s.pending, layer)[hash];
        var msg := AgentMsg(At(s.chain, layer), call, BlockTime(s.time, layer), accepts);
        CallAnnounced(s.chain, layer, msg, call);
      case _ => assert Do(s, a).chain == s.chain;
    }
  }

  lemma {:induction false} RunAnnounced(s: System, run: seq<Action>)
    requires Inv(s) && AllAnnounced(s.chain) && Possible(s, run)
    ensures AllAnnounced(Final(s, run).chain)
    decreases |run|
  {
    if run != [] {
      StepKeeps(s, run[0]);
      StepAnnounced(s, run[0]);
      RunAnnounced(Do(s, run[0]), run[1..]);
    }
  }

  lemma ReachableAnnounced(s: System)
    requires Reachable(s)
    ensures AllAnnounced(s.chain)
  {
    var owner1, owner2, chainId, timeout1, timeout2, time, run :|
      ReachedBy(s, owner1, owner2, chainId, timeout1, timeout2, time, run);
    InitOk(owner1, owner2, chainId, timeout1, timeout2, time);
    RunAnnounced(Init(owner1, owner2, chainId, timeout1, timeout2, time), run);
  }

  /** A success ack that has taken effect is final, whatever happens after it. */
  lemma {:induction false} SuccessStays(s: System, run: seq<Action>, d: Layer, id: TxId)
    requires HandOffInv(s) && Possible(s, run)
    requires Known(s.chain, d, id) && SourceRecord(s.chain, d, id).status == ACK_SUCCESS
    ensures var w := Final(s, run).chain; Known(w, d, id) && SourceRecord(w, d, id).status == ACK_SUCCESS
    decreases |run|
  {
    if run != [] {
      ActionGood(s, run[0]);
      GoodStepKeeps(s, Do(s, run[0]));
      KnownStable(s.chain, Do(s, run[0]).chain, d, id);
      SuccessStays(Do(s, run[0]), run[1..], d, id);
    }
  }

  lemma StartAgainL1(s: System, id: TxId)
    requires Undecided(s, L1, id) && StartTxEvent(id) in s.chain.one.events
    ensures CanLose(s, L1, id)
  {
    var a := Deliver(L1, StartTxEvent(id), None);
    DeliverOnce(s, id);
    SecondSendRefused(Do(s, a), id, [SubmitTx(Read(id, SourceRecord(s.chain, L1, id)), true)]);
    LosesAfter(s, a, L1, id);
  }

  lemma RowOutlives(s: System, id: TxId)
    requires Undecided(s, L2, id) && Key(StartTable, id) in At(s.tables, L2).mem
    ensures CanLose(s, L2, id)
  {
    var row := At(s.tables, L2).mem[Key(StartTable, id)].info;
    var late := Tick(s.time.(agent := s.time.agent + row.timeout + 1));
    StepKeeps(s, late);
    StartRowTimesOut(Do(s, late), id);
    LosesAfter(s, late, L2, id);
  }

  lemma RowEmplaced(s: System, id: TxId, job: seq<Cmd>)
    requires Undecided(s, L2, id) && job in At(s.jobs, L2) && job != []
    requires job[0].MapEmplace? && job[0].table == StartTable && job[0].info.id == id
    ensures CanLose(s, L2, id)
  {
    var a := Work(L2, job, false, false);
    WorkKeeps(s, L2, job, false, false);
    RowOutlives(Do(s, a), id);
    LosesAfter(s, a, L2, id);
  }

  lemma StartAgainL2(s: System, id: TxId)
    requires Undecided(s, L2, id) && StartTxEvent(id) in s.chain.two.events
    ensures CanLose(s, L2, id)
  {
    var a := Deliver(L2, StartTxEvent(id), Some(0));
    var i := Read(id, SourceRecord(s.chain, L2, id)).(confirmSeq := 0);
    DeliverKeeps(s, L2, StartTxEvent(id), Some(0));
    var s1 := Do(s, a);
    var job := Save(StartTable, i);
    assert job in At(s1.jobs, L2) && s1.chain == s.chain;
    var b := Work(L2, job, false, false);
    WorkKeeps(s1, L2, job, false, false);
    var s2 := Do(s1, b);
    assert job[1..] in At(s2.jobs, L2) && s2.chain == s.chain;
    RowEmplaced(s2, id, job[1..]);
    hide Do, Inv, Enabled;
    LosesAfter(s1, b, L2, id);
    LosesAfter(s, a, L2, id);
  }

  /**
    Once the agent has put its deposit into a transfer, the deposit can still be lost exactly until the
    success ack has taken effect on the source: the start event handled again is enough, from every such state.
  */
  lemma CanLoseExactly(s: System, d: Layer, id: TxId)
    requires Reachable(s) && Opened(s.chain, d, id)
    ensures Known(s.chain, d, id)
    ensures CanLose(s, d, id) <==> SourceRecord(s.chain, d, id).status != ACK_SUCCESS
  {
    ReachableOrdered(s);
    ReachableAnnounced(s);
    assert Mirrors(s.chain, d, id) && RecordAnnounced(At(s.chain, d), id);
    assert SourceRecord(s.chain, d, id).status == INIT ==> Undecided(s, d, id);
    hide HandOffInv, Reachable, Undecided, Mirrors;
    match SourceRecord(s.chain, d, id).status {
      case INIT => if d == L1 { StartAgainL1(s, id); } else { StartAgainL2(s, id); }
      case ACK_SUCCESS =>
        forall run | Possible(s, run) ensures !Leads(s, run, d, id) { SuccessStays(s, run, d, id); }
      case ACK_FAIL => LosesNow(s, d, id);
      case ACK_TIMEOUT => LosesNow(s, d, id);
    }
  }
}
