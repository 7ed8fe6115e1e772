/**
  The whole bridge as a step system: two contracts, the calls submitted but not yet included, the
  agent's tables in memory and in the database, the handlers under way, the clocks, and restarts.
  Events may be lost, repeated or late, calls may be dropped or included late, submissions may fail
  with or without being included, handlers interleave at every write, and the agent may crash between any two.
*/
module Protocol {
  import opened Escrow
  import opened Relay
  import opened RelayHandle
  import opened World
  import opened Wrappers

  /** Block time of each chain and the clock of the agent's machine. */
  datatype Times = Times(one: nat, two: nat, agent: nat)

  function BlockTime(t: Times, layer: Layer): nat {
    if layer == L1 then t.one else t.two
  }

  /** What has happened in one direction, for stating properties; no step reads it. */
  datatype Past = Past(handled: set<TxId>, sent: map<TxId, Hash>, nacked: set<TxId>)

  /** The handlers under way, each with the commands it still has to carry out. */
  type Jobs = multiset<seq<Cmd>>

  datatype System = System(
    chain: Chains, pending: Pair<map<Hash, Call>>, receipts: set<Hash>, next: Hash,
    tables: Pair<Agent>, jobs: Pair<Jobs>, past: Pair<Past>, time: Times)

  datatype Action =
    | User(layer: Layer, call: Call, msg: Msg)
    | Include(layer: Layer, hash: Hash, accepts: bool)
    | Drop(layer: Layer, hash: Hash)
    | Tick(time: Times)
    | Deliver(layer: Layer, event: Event, ledgerSeq: Option<int>)
    | Visit(d: Layer, sweep: Sweep, id: TxId, receipt: bool, status: Status, readable: bool)
    | Work(d: Layer, job: seq<Cmd>, taken: bool, included: bool)
    | Crash

  function Init(owner1: Address, owner2: Address, chainId: nat, timeout1: nat, timeout2: nat, time: Times): System {
    System(Pair(Ledger(L1, owner1, chainId, timeout1, map[], 0, [], []),
                Ledger(L2, owner2, chainId, timeout2, map[], 0, [], [])),
           Pair(map[], map[]), {}, 1, Pair(Agent(map[], map[]), Agent(map[], map[])),
           Pair(multiset{}, multiset{}), Pair(Past({}, map[], {}), Past({}, map[], {})), time)
  }

  // ---------- Routing ----------

  /**
    Which relay an event goes to: the start and the ack of a transfer are seen on its source, the send on its
    destination.
  */
  function Route(layer: Layer, e: Event): Layer {
    if e.SendTxEvent? then Other(layer) else layer
  }

  function DeliverPlan(layer: Layer, e: Event, r: Record, ledgerSeq: Option<int>): seq<Cmd> {
    match e
    case StartTxEvent(id) => StartPlan(layer, Read(id, r), ledgerSeq)
    case SendTxEvent(id) => SendEventPlan(Read(id, r))
    case SendAckedTxEvent(id) => AckedEventPlan(Read(id, r))
    case RefundEvent(_) => []
  }

  /** The answers one turn of a loop gets from the nodes. */
  function VisitNet(s: System, a: Action): Net
    requires a.Visit?
  {
    Net(c => None, h => a.receipt, i => a.status, i => None,
        i => if a.readable && i in At(s.chain, Other(a.d)).records then Some(At(s.chain, Other(a.d)).records[i])
             else None,
        None)
  }

  function VisitPlan(s: System, a: Action): seq<Cmd>
    requires a.Visit?
  {
    SweepPlan(a.sweep, At(s.tables, a.d), a.id, VisitNet(s, a), s.time.agent)
  }

  function QueriedHash(sweep: Sweep, i: Info): Hash {
    match sweep
    case ConfirmSweep(_) => NO_HASH
    case StartSweep => NO_HASH
    case SendSweep => i.sendHash
    case AckSweep => i.ackHash
    case ReplySweep => i.replyHash
  }

  /** The chain whose record a status query is about. */
  function AckedChain(d: Layer, sweep: Sweep): Layer {
    if sweep == ReplySweep then Other(d) else d
  }

  // ---------- Which actions can happen ----------

  predicate Enabled(s: System, a: Action) {
    match a
    case User(layer, call, msg) => Permitted(s.chain, layer, msg, call)
      && (call.SendTx? || call.SendAckedTx? ==> msg.sender != At(s.chain, layer).owner)
    case Include(layer, hash, _) => hash in At(s.pending, layer)
    case Drop(layer, hash) => hash in At(s.pending, layer)
    case Tick(_) => true
    case Deliver(layer, event, _) => event in At(s.chain, layer).events && event.id in At(s.chain, layer).records
    case Visit(d, sweep, id, receipt, status, _) =>
      && (sweep.ConfirmSweep? || sweep.StartSweep? ==> d == L2)
      && Key(SweptTable(sweep), id) in At(s.tables, d).mem
      // A node never shows a receipt for a transaction that did not succeed, and a status query
      // either answers truly or, when it fails, answers INIT.
      && (receipt ==> QueriedHash(sweep, At(s.tables, d).mem[Key(SweptTable(sweep), id)].info) in s.receipts)
      && (status != INIT ==> id in At(s.chain, AckedChain(d, sweep)).records
                             && status == At(s.chain, AckedChain(d, sweep)).records[id].status)
    case Work(d, job, _, _) => job in At(s.jobs, d) && job != []
    case Crash => true
  }

  // ---------- What they do ----------

  function AddJob(s: System, d: Layer, job: seq<Cmd>): System {
    s.(jobs := Put(s.jobs, d, At(s.jobs, d) + multiset{job}))
  }

  function DoInclude(s: System, layer: Layer, hash: Hash, accepts: bool): System
    requires hash in At(s.pending, layer)
  {
    var call := At(s.pending, layer)[hash];
    var l := At(s.chain, layer);
    var msg := AgentMsg(l, call, BlockTime(s.time, layer), accepts);
    s.(chain := World.Step(s.chain, layer, msg, call),
       pending := Put(s.pending, layer, At(s.pending, layer) - {hash}),
       receipts := if Apply(l, msg, call).Done? then s.receipts + {hash} else s.receipts)
  }

  function Noted(p: Past, c: Cmd, hash: Hash, included: bool): Past
    requires Submits(c)
  {
    match c
    case SubmitTx(i, _) => if included then p.(sent := p.sent[i.id := hash]) else p
    case SubmitAck(i) => if i.status != ACK_SUCCESS then p.(nacked := p.nacked + {i.id}) else p
    case SubmitReply(_) => p
  }

  function DoWork(s: System, d: Layer, job: seq<Cmd>, taken: bool, included: bool): System
    requires job in At(s.jobs, d) && job != []
  {
    var c := job[0];
    var rest := Rest(job, if taken then Some(s.next) else None);
    var jobs := Put(s.jobs, d, At(s.jobs, d) - multiset{job} + multiset{rest});
    if Submits(c) then
      var target := TargetOf(d, c);
      s.(jobs := jobs, next := s.next + 1,
         past := Put(s.past, d, Noted(At(s.past, d), c, s.next, included)),
         pending := if included then Put(s.pending, target, At(s.pending, target)[s.next := CallOf(d, c)])
                    else s.pending)
    else
      s.(jobs := jobs, tables := Put(s.tables, d, Local(At(s.tables, d), c, s.time.agent)))
  }

  /** After a restart memory is what the database says. */
  function Reloaded(a: Agent, now: int): Agent {
    a.(mem := map k | k in a.db :: Entry(a.db[k], now + ACK_PERIOD))
  }

  function DoCrash(s: System): System {
    s.(jobs := Pair(multiset{}, multiset{}),
       tables := Pair(Reloaded(s.tables.one, s.time.agent), Reloaded(s.tables.two, s.time.agent)))
  }

  function DoDeliver(s: System, layer: Layer, event: Event, ledgerSeq: Option<int>): System
    requires event.id in At(s.chain, layer).records
  {
    var d := Route(layer, event);
    var s' := AddJob(s, d, DeliverPlan(layer, event, At(s.chain, layer).records[event.id], ledgerSeq));
    if event.StartTxEvent? then
      s'.(past := Put(s.past, d, At(s.past, d).(handled := At(s.past, d).handled + {event.id})))
    else s'
  }

  function Do(s: System, a: Action): System
    requires Enabled(s, a)
  {
    match a
    case User(layer, call, msg) => s.(chain := World.Step(s.chain, layer, msg, call))
    case Include(layer, hash, accepts) => DoInclude(s, layer, hash, accepts)
    case Drop(layer, hash) => s.(pending := Put(s.pending, layer, At(s.pending, layer) - {hash}))
    case Tick(time) => s.(time := time)
    case Deliver(layer, event, ledgerSeq) => DoDeliver(s, layer, event, ledgerSeq)
    case Visit(d, _, _, _, _, _) => AddJob(s, d, VisitPlan(s, a))
    case Work(d, job, taken, included) => DoWork(s, d, job, taken, included)
    case Crash => DoCrash(s)
  }

  // ---------- The invariant ----------

  ghost predicate TablesOk(w: Chains, d: Layer, a: Agent) {
    && (forall k :: k in a.mem ==> a.mem[k].info.id == k.id && RowOk(w, d, k.table, a.mem[k].info))
    && (forall k :: k in a.db ==> a.db[k].id == k.id && RowOk(w, d, k.table, a.db[k]))
  }

  ghost predicate JobOk(w: Chains, d: Layer, job: seq<Cmd>) {
    forall c :: c in job ==> CmdOk(w, d, c)
  }

  ghost predicate JobsOk(w: Chains, d: Layer, jobs: Jobs) {
    forall job :: job in jobs ==> JobOk(w, d, job)
  }

  ghost predicate PendingOk(w: Chains, layer: Layer, pending: map<Hash, Call>) {
    forall h :: h in pending ==> CallOk(w, layer, pending[h])
  }

  ghost predicate AgentOk(s: System, d: Layer) {
    && TablesOk(s.chain, d, At(s.tables, d))
    && JobsOk(s.chain, d, At(s.jobs, d))
    && PendingOk(s.chain, d, At(s.pending, d))
  }

  /** The contracts are in order, and everything the agent holds, plans or has submitted is true of them. */
  ghost predicate Inv(s: System) {
    WorldOk(s.chain) && forall d :: AgentOk(s, d)
  }

  lemma InitOk(owner1: Address, owner2: Address, chainId: nat, timeout1: nat, timeout2: nat, time: Times)
    requires chainId != 0
    ensures Inv(Init(owner1, owner2, chainId, timeout1, timeout2, time))
  {
    var s := Init(owner1, owner2, chainId, timeout1, timeout2, time);
    EmptyOk(s.chain.one, L1);
    EmptyOk(s.chain.two, L2);
  }

  lemma EmptyOk(l: Ledger, layer: Layer)
    requires l.layer == layer && l.chainId != 0 && l.records == map[]
    requires l.balance == 0 && l.events == [] && l.moves == []
    ensures LedgerOk(l, layer)
  {
    assert LiveAmounts(l.records) == map[];
    forall role, flow ensures Moved([], role, flow) == Totals.Total(FlowAmounts(l, role, flow)) {
      assert FlowAmounts(l, role, flow) == map[];
    }
  }

  // ---------- Chain steps ----------

  lemma TablesStable(w: Chains, w': Chains, d: Layer, a: Agent)
    requires Evolves(w, w') && TablesOk(w, d, a)
    ensures TablesOk(w', d, a)
  {
    forall k | k in a.mem ensures RowOk(w', d, k.table, a.mem[k].info) {
      RowStable(w, w', d, k.table, a.mem[k].info);
    }
    forall k | k in a.db ensures RowOk(w', d, k.table, a.db[k]) {
      RowStable(w, w', d, k.table, a.db[k]);
    }
  }

  lemma JobsStable(w: Chains, w': Chains, d: Layer, jobs: Jobs)
    requires Evolves(w, w') && JobsOk(w, d, jobs)
    ensures JobsOk(w', d, jobs)
  {
    forall job, c | job in jobs && c in job ensures CmdOk(w', d, c) {
      assert JobOk(w, d, job);
      CmdStable(w, w', d, c);
    }
  }

  lemma PendingStable(w: Chains, w': Chains, layer: Layer, pending: map<Hash, Call>)
    requires Evolves(w, w') && WorldOk(w') && PendingOk(w, layer, pending)
    ensures PendingOk(w', layer, pending)
  {
    forall h | h in pending ensures CallOk(w', layer, pending[h]) {
      CallStable(w, w', layer, pending[h]);
    }
  }

  /**
    A change of the chains alone, or one that also takes a call out of the pending ones, keeps the agent's facts
    true.
  */
  lemma ChainStep(s: System, s': System)
    requires Inv(s) && WorldOk(s'.chain) && Evolves(s.chain, s'.chain)
    requires s'.tables == s.tables && s'.jobs == s.jobs
    requires forall d, h :: h in At(s'.pending, d) ==>
      h in At(s.pending, d) && At(s'.pending, d)[h] == At(s.pending, d)[h]
    ensures Inv(s')
  {
    forall d ensures AgentOk(s', d) {
      assert AgentOk(s, d);
      TablesStable(s.chain, s'.chain, d, At(s.tables, d));
      JobsStable(s.chain, s'.chain, d, At(s.jobs, d));
      PendingStable(s.chain, s'.chain, d, At(s.pending, d));
      assert forall h :: h in At(s'.pending, d) ==> CallOk(s'.chain, d, At(s'.pending, d)[h]);
    }
  }

  /** A pending call of the agent is a permitted one. */
  lemma IncludePermitted(s: System, layer: Layer, hash: Hash, accepts: bool)
    requires Inv(s) && hash in At(s.pending, layer)
    ensures var call := At(s.pending, layer)[hash];
      Permitted(s.chain, layer, AgentMsg(At(s.chain, layer), call, BlockTime(s.time, layer), accepts), call)
  {
    assert AgentOk(s, layer);
    assert CallOk(s.chain, layer, At(s.pending, layer)[hash]);
  }

  lemma UserKeeps(s: System, layer: Layer, call: Call, msg: Msg)
    requires Inv(s) && Enabled(s, User(layer, call, msg))
    ensures Inv(Do(s, User(layer, call, msg)))
  {
    WorldKept(s.chain, layer, msg, call);
    ChainStep(s, Do(s, User(layer, call, msg)));
  }

  lemma IncludeKeeps(s: System, layer: Layer, hash: Hash, accepts: bool)
    requires Inv(s) && hash in At(s.pending, layer)
    ensures Inv(DoInclude(s, layer, hash, accepts))
  {
    var call := At(s.pending, layer)[hash];
    var msg := AgentMsg(At(s.chain, layer), call, BlockTime(s.time, layer), accepts);
    IncludePermitted(s, layer, hash, accepts);
    WorldKept(s.chain, layer, msg, call);
    ChainStep(s, DoInclude(s, layer, hash, accepts));
  }

  lemma DropKeeps(s: System, layer: Layer, hash: Hash)
    requires Inv(s) && hash in At(s.pending, layer)
    ensures Inv(Do(s, Drop(layer, hash)))
  {
    EvolvesReflexive(s.chain);
    ChainStep(s, Do(s, Drop(layer, hash)));
  }

  // ---------- Agent steps ----------

  lemma AddJobKeeps(s: System, d: Layer, job: seq<Cmd>, s': System)
    requires Inv(s) && JobOk(s.chain, d, job)
    requires s'.chain == s.chain && s'.tables == s.tables && s'.pending == s.pending
    requires s'.jobs == Put(s.jobs, d, At(s.jobs, d) + multiset{job})
    ensures Inv(s')
  {
    forall e ensures AgentOk(s', e) {
      assert AgentOk(s, e);
      assert forall j :: j in At(s'.jobs, e) ==> j in At(s.jobs, e) || (e == d && j == job);
    }
  }

  /** What is read of a source record, or of the destination record opened for it, is true. */
  lemma ReadSourceOk(w: Chains, d: Layer, id: TxId)
    requires Known(w, d, id)
    ensures InfoOk(w, d, Read(id, SourceRecord(w, d, id)))
  {
  }

  lemma ReadDestOk(w: Chains, d: Layer, id: TxId)
    requires Mirrors(w, d, id) && Opened(w, d, id)
    ensures AckOk(w, d, Read(id, DestRecord(w, d, id)).(status := ACK_SUCCESS))
  {
  }

  lemma StartPlanOk(w: Chains, d: Layer, i: Info, ledgerSeq: Option<int>)
    requires InfoOk(w, d, i)
    ensures JobOk(w, d, StartPlan(d, i, ledgerSeq))
  {
  }

  lemma SendEventPlanOk(w: Chains, d: Layer, id: TxId)
    requires Mirrors(w, d, id) && Opened(w, d, id)
    ensures JobOk(w, d, SendEventPlan(Read(id, DestRecord(w, d, id))))
  {
    ReadDestOk(w, d, id);
  }

  lemma AckedEventPlanOk(w: Chains, d: Layer, id: TxId)
    requires Mirrors(w, d, id) && Backed(w, d, id) && Known(w, d, id) && SourceRecord(w, d, id).status == ACK_SUCCESS
    ensures JobOk(w, d, AckedEventPlan(Read(id, SourceRecord(w, d, id))))
  {
    ReadSourceOk(w, d, id);
  }

  /** What a handler reads when an event arrives is true, so its plan is. */
  lemma DeliverPlanOk(w: Chains, layer: Layer, event: Event, ledgerSeq: Option<int>)
    requires WorldOk(w) && event in At(w, layer).events && event.id in At(w, layer).records
    ensures JobOk(w, Route(layer, event), DeliverPlan(layer, event, At(w, layer).records[event.id], ledgerSeq))
  {
    assert EventOk(At(w, layer), event);
    var d, id := Route(layer, event), event.id;
    assert Mirrors(w, d, id) && Backed(w, d, id);
    match event {
      case StartTxEvent(_) => StartPlanOk(w, d, Read(id, At(w, layer).records[id]), ledgerSeq);
      case SendTxEvent(_) => SendEventPlanOk(w, d, id);
      case SendAckedTxEvent(_) => AckedEventPlanOk(w, d, id);
      case RefundEvent(_) =>
    }
  }

  lemma DeliverKeeps(s: System, layer: Layer, event: Event, ledgerSeq: Option<int>)
    requires Inv(s) && Enabled(s, Deliver(layer, event, ledgerSeq))
    ensures Inv(DoDeliver(s, layer, event, ledgerSeq))
  {
    DeliverPlanOk(s.chain, layer, event, ledgerSeq);
    AddJobKeeps(s, Route(layer, event), DeliverPlan(layer, event, At(s.chain, layer).records[event.id], ledgerSeq),
                DoDeliver(s, layer, event, ledgerSeq));
  }

  /** A loop only passes on what its rows and a record it reads say. */
  lemma SweepPlanOk(w: Chains, d: Layer, a: Agent, sweep: Sweep, id: TxId, net: Net, now: int)
    requires TablesOk(w, d, a) && Mirrors(w, d, id)
    requires Known(w, d, id) ==> !Known(w, Other(d), id)
    requires forall i :: net.readDest(i).Some? ==>
      i in At(w, Other(d)).records && net.readDest(i).value == At(w, Other(d)).records[i]
    ensures JobOk(w, d, SweepPlan(sweep, a, id, net, now))
  {
    if Key(SweptTable(sweep), id) in a.mem {
      var i := a.mem[Key(SweptTable(sweep), id)].info;
      assert RowOk(w, d, SweptTable(sweep), i) && i.id == id;
      if sweep.SendSweep? { SendTimeoutOk(w, d, a.mem[Key(SendTable, id)], net, now); }
    }
  }

  lemma SendTimeoutOk(w: Chains, d: Layer, e: Entry, net: Net, now: int)
    requires InfoOk(w, d, e.info) && Mirrors(w, d, e.info.id) && !Known(w, Other(d), e.info.id)
    requires var i := e.info.id; net.readDest(i).Some? ==>
      i in At(w, Other(d)).records && net.readDest(i).value == At(w, Other(d)).records[i]
    ensures var read := ReadAt(e.info.id, net.readDest(e.info.id));
      JobOk(w, d, SendTimeoutPlan(e, now, net.receipt(e.info.sendHash), read))
  {
    if net.readDest(e.info.id).Some? { SendEventPlanOk(w, d, e.info.id); }
  }

  lemma VisitPlanOk(s: System, a: Action)
    requires Inv(s) && a.Visit?
    ensures JobOk(s.chain, a.d, VisitPlan(s, a))
  {
    assert AgentOk(s, a.d) && Mirrors(s.chain, a.d, a.id);
    assert !(Known(s.chain, L1, a.id) && Known(s.chain, L2, a.id));
    SweepPlanOk(s.chain, a.d, At(s.tables, a.d), a.sweep, a.id, VisitNet(s, a), s.time.agent);
  }

  lemma VisitKeeps(s: System, a: Action)
    requires Inv(s) && a.Visit? && Enabled(s, a)
    ensures Inv(Do(s, a))
  {
    VisitPlanOk(s, a);
    AddJobKeeps(s, a.d, VisitPlan(s, a), Do(s, a));
  }

  lemma RestOk(w: Chains, d: Layer, job: seq<Cmd>, answer: Option<Hash>)
    requires JobOk(w, d, job) && job != []
    ensures JobOk(w, d, Rest(job, answer))
  {
    assert CmdOk(w, d, job[0]);
    forall c | c in Rest(job, answer) ensures CmdOk(w, d, c) {
      if c !in job && Submits(job[0]) && answer.Some? { assert c in Saved(job[0], answer.value); }
    }
  }

  lemma LocalOk(w: Chains, d: Layer, a: Agent, c: Cmd, now: int)
    requires TablesOk(w, d, a) && CmdOk(w, d, c) && !Submits(c)
    ensures TablesOk(w, d, Local(a, c, now))
  {
  }

  /** A submitted call says what its command says. */
  lemma CallOfOk(w: Chains, d: Layer, c: Cmd)
    requires WorldOk(w) && CmdOk(w, d, c) && Submits(c)
    ensures CallOk(w, TargetOf(d, c), CallOf(d, c))
  {
    assert !(Known(w, L1, c.info.id) && Known(w, L2, c.info.id));
  }

  lemma WorkJobsOk(s: System, d: Layer, job: seq<Cmd>, taken: bool, included: bool)
    requires Inv(s) && job in At(s.jobs, d) && job != []
    ensures JobsOk(s.chain, d, At(DoWork(s, d, job, taken, included).jobs, d))
  {
    assert AgentOk(s, d);
    var rest := Rest(job, if taken then Some(s.next) else None);
    RestOk(s.chain, d, job, if taken then Some(s.next) else None);
    assert forall j :: j in At(s.jobs, d) - multiset{job} + multiset{rest} ==> j in At(s.jobs, d) || j == rest;
  }

  lemma WorkTablesOk(s: System, d: Layer, job: seq<Cmd>, taken: bool, included: bool, e: Layer)
    requires Inv(s) && job in At(s.jobs, d) && job != []
    ensures TablesOk(s.chain, e, At(DoWork(s, d, job, taken, included).tables, e))
  {
    assert AgentOk(s, d) && AgentOk(s, e) && JobOk(s.chain, d, job) && CmdOk(s.chain, d, job[0]);
    if !Submits(job[0]) { LocalOk(s.chain, d, At(s.tables, d), job[0], s.time.agent); }
  }

  lemma WorkPendingOk(s: System, d: Layer, job: seq<Cmd>, taken: bool, included: bool, e: Layer)
    requires Inv(s) && job in At(s.jobs, d) && job != []
    ensures PendingOk(s.chain, e, At(DoWork(s, d, job, taken, included).pending, e))
  {
    assert AgentOk(s, d) && AgentOk(s, e) && JobOk(s.chain, d, job) && CmdOk(s.chain, d, job[0]);
    if Submits(job[0]) { CallOfOk(s.chain, d, job[0]); }
  }

  lemma WorkKeeps(s: System, d: Layer, job: seq<Cmd>, taken: bool, included: bool)
    requires Inv(s) && job in At(s.jobs, d) && job != []
    ensures Inv(DoWork(s, d, job, taken, included))
  {
    var s' := DoWork(s, d, job, taken, included);
    WorkJobsOk(s, d, job, taken, included);
    forall e ensures AgentOk(s', e) {
      assert AgentOk(s, e);
      WorkTablesOk(s, d, job, taken, included, e);
      WorkPendingOk(s, d, job, taken, included, e);
    }
  }

  lemma CrashKeeps(s: System)
    requires Inv(s)
    ensures Inv(DoCrash(s))
  {
    var s' := DoCrash(s);
    forall d ensures AgentOk(s', d) {
      assert AgentOk(s, d);
    }
  }

  lemma StepKeeps(s: System, a: Action)
    requires Inv(s) && Enabled(s, a)
    ensures Inv(Do(s, a))
  {
    match a {
      case User(layer, call, msg) => UserKeeps(s, layer, call, msg);
      case Include(layer, hash, accepts) => IncludeKeeps(s, layer, hash, accepts);
      case Drop(layer, hash) => DropKeeps(s, layer, hash);
      case Tick(_) => assert forall d :: AgentOk(s, d) ==> AgentOk(Do(s, a), d);
      case Deliver(layer, event, ledgerSeq) => DeliverKeeps(s, layer, event, ledgerSeq);
      case Visit(_, _, _, _, _, _) => VisitKeeps(s, a);
      case Work(d, job, taken, included) => WorkKeeps(s, d, job, taken, included);
      case Crash => CrashKeeps(s);
    }
  }

  // ---------- Runs ----------

  /** The states after each action of a run, or nothing if some action was not possible. */
  ghost predicate Possible(s: System, run: seq<Action>)
    decreases |run|
  {
    run != [] ==> Enabled(s, run[0]) && Possible(Do(s, run[0]), run[1..])
  }

  ghost function Final(s: System, run: seq<Action>): System
    requires Possible(s, run)
    decreases |run|
  {
    if run == [] then s else Final(Do(s, run[0]), run[1..])
  }

  lemma {:induction false} RunKeeps(s: System, run: seq<Action>)
    requires Inv(s) && Possible(s, run)
    ensures Inv(Final(s, run))
    decreases |run|
  {
    if run != [] {
      StepKeeps(s, run[0]);
      RunKeeps(Do(s, run[0]), run[1..]);
    }
  }

  /** A state some run leads to from an empty bridge. */
  ghost predicate Reachable(s: System) {
    exists owner1, owner2, chainId, timeout1, timeout2, time, run ::
      ReachedBy(s, owner1, owner2, chainId, timeout1, timeout2, time, run)
  }

  ghost predicate ReachedBy(s: System, owner1: Address, owner2: Address, chainId: nat, timeout1: nat, timeout2: nat,
                            time: Times, run: seq<Action>) {
    chainId != 0
    && var s0 := Init(owner1, owner2, chainId, timeout1, timeout2, time);
    Possible(s0, run) && Final(s0, run) == s
  }

  lemma ReachableOk(s: System)
    requires Reachable(s)
    ensures Inv(s)
  {
    var owner1, owner2, chainId, timeout1, timeout2, time, run :|
      ReachedBy(s, owner1, owner2, chainId, timeout1, timeout2, time, run);
    InitOk(owner1, owner2, chainId, timeout1, timeout2, time);
    RunKeeps(Init(owner1, owner2, chainId, timeout1, timeout2, time), run);
  }
}
