/** Every action of a clean run keeps the clean invariant; hence the agent is never out of pocket in one. */
module OutOfPocket {
  import opened Escrow
  import opened Relay
  import opened RelayHandle
  import opened World
  import opened Protocol
  import opened HandOff
  import opened Clean
  import CleanStarts
  import CleanRuns
  import opened Wrappers

  predicate Refused(w: Chains, d: Layer, id: TxId) {
    Known(w, d, id) && SourceRecord(w, d, id).status in {ACK_FAIL, ACK_TIMEOUT}
  }

  // ---------- Steps of the chains and the clock ----------

  /** A step that leaves the agent alone: what may be new on the chains at one id. */
  ghost predicate NewsOk(s: System, s': System, d: Layer, id: TxId) {
    && (Opened(s'.chain, d, id) && !Opened(s.chain, d, id) ==>
          id in At(s.past, d).sent && At(s.past, d).sent[id] in s'.receipts && !Nacking(s, d, id))
    && (Refused(s'.chain, d, id) && !Refused(s.chain, d, id) ==> id in At(s.past, d).nacked)
  }

  ghost predicate ChainFrame(s: System, s': System) {
    && s'.tables == s.tables && s'.jobs == s.jobs && s'.past == s.past && s.time.agent <= s'.time.agent
    && s.receipts <= s'.receipts && Evolves(s.chain, s'.chain)
    && (forall e, h :: h in At(s'.pending, e) ==> h in At(s.pending, e) && At(s'.pending, e)[h] == At(s.pending, e)[h])
  }

  lemma ChainAt(s: System, s': System, d: Layer, id: TxId)
    requires ChainFrame(s, s') && CleanAt(s, d, id) && NewsOk(s, s', d, id)
    ensures CleanAt(s', d, id)
  {
    KnownStable(s.chain, s'.chain, d, id);
    assert Waiting(s', d, id) == Waiting(s, d, id) && Nacking(s', d, id) == Nacking(s, d, id);
    if Closed(s, d, id) { assert Closed(s', d, id); }
  }

  lemma ChainClean(s: System, s': System, d: Layer)
    requires ChainFrame(s, s') && CleanDir(s, d) && forall id :: NewsOk(s, s', d, id)
    ensures CleanDir(s', d)
  {
    forall id ensures CleanAt(s', d, id) {
      assert CleanAt(s, d, id) && NewsOk(s, s', d, id);
      ChainAt(s, s', d, id);
    }
    assert CleanJobs(s', d) && CleanPending(s', d);
  }

  /** Only a SendTx opens a destination record and only a failure ack refuses a source record, each at its own id. */
  lemma NewsOfCall(w: Chains, w': Chains, layer: Layer, msg: Msg, c: Call, d: Layer, id: TxId)
    requires Next(w, w', layer, msg, c)
    ensures Opened(w', d, id) && !Opened(w, d, id) ==> c.SendTx? && layer == Other(d) && id == c.id
    ensures Refused(w', d, id) && !Refused(w, d, id) ==> c.SendAckedTx? && layer == d && id == c.id && c.result != 1
  {
  }

  lemma UserNews(s: System, s': System, layer: Layer, call: Call, msg: Msg, d: Layer, id: TxId)
    requires Inv(s) && Enabled(s, User(layer, call, msg)) && s' == Do(s, User(layer, call, msg))
    ensures NewsOk(s, s', d, id)
  {
    var l := At(s.chain, layer);
    if Apply(l, msg, call).Done? {
      WroteBy(l, msg, call);
      assert Next(s.chain, s'.chain, layer, msg, call);
      NewsOfCall(s.chain, s'.chain, layer, msg, call, d, id);
    } else {
      assert s'.chain == s.chain;
    }
  }

  lemma UserClean(s: System, layer: Layer, call: Call, msg: Msg, d: Layer)
    requires CleanInv(s) && Enabled(s, User(layer, call, msg))
    ensures CleanDir(Do(s, User(layer, call, msg)), d)
  {
    var s' := Do(s, User(layer, call, msg));
    WorldKept(s.chain, layer, msg, call);
    forall id ensures NewsOk(s, s', d, id) { UserNews(s, s', layer, call, msg, d, id); }
    ChainClean(s, s', d);
  }

  /** A send that is accepted is in time, so its transfer has not been given up. */
  lemma InTimeNotNacking(s: System, d: Layer, c: Call)
    requires CleanInv(s) && c.SendTx? && CallOk(s.chain, Other(d), c)
    requires c.id in At(s.past, d).sent && InTime(Other(d), c.timeout, BlockTime(s.time, Other(d)))
    ensures !Nacking(s, d, c.id)
  {
    assert CleanDir(s, d) && CleanAt(s, d, c.id);
  }

  lemma IncludeNews(s: System, s': System, layer: Layer, hash: Hash, accepts: bool, d: Layer, id: TxId)
    requires CleanInv(s) && hash in At(s.pending, layer) && s' == DoInclude(s, layer, hash, accepts)
    ensures NewsOk(s, s', d, id)
  {
    var c := At(s.pending, layer)[hash];
    var l := At(s.chain, layer);
    var msg := AgentMsg(l, c, BlockTime(s.time, layer), accepts);
    IncludePermitted(s, layer, hash, accepts);
    assert AgentOk(s, layer) && CallOk(s.chain, layer, c) && CleanDir(s, d) && CleanPending(s, d);
    if Apply(l, msg, c).Done? {
      WroteBy(l, msg, c);
      assert Next(s.chain, s'.chain, layer, msg, c);
      NewsOfCall(s.chain, s'.chain, layer, msg, c, d, id);
      if c.SendTx? && layer == Other(d) { InTimeNotNacking(s, d, c); }
    } else {
      assert s'.chain == s.chain;
    }
  }

  lemma IncludeClean(s: System, layer: Layer, hash: Hash, accepts: bool, d: Layer)
    requires CleanInv(s) && hash in At(s.pending, layer)
    ensures CleanDir(DoInclude(s, layer, hash, accepts), d)
  {
    var s' := DoInclude(s, layer, hash, accepts);
    IncludeTook(s, layer, hash, accepts);
    IncludeFrame(s, layer, hash, accepts);
    forall id ensures NewsOk(s, s', d, id) { IncludeNews(s, s', layer, hash, accepts, d, id); }
    ChainClean(s, s', d);
  }

  lemma DropClean(s: System, layer: Layer, hash: Hash, d: Layer)
    requires CleanInv(s) && hash in At(s.pending, layer)
    ensures CleanDir(Do(s, Drop(layer, hash)), d)
  {
    EvolvesReflexive(s.chain);
    ChainClean(s, Do(s, Drop(layer, hash)), d);
  }

  lemma TickClean(s: System, time: Times, d: Layer)
    requires CleanInv(s) && s.time.agent <= time.agent
    ensures CleanDir(Do(s, Tick(time)), d)
  {
    EvolvesReflexive(s.chain);
    ChainClean(s, Do(s, Tick(time)), d);
  }

  // ---------- Steps of the handlers ----------

  lemma SubmitFrame(s: System, d: Layer, job: seq<Cmd>, taken: bool)
    requires job in At(s.jobs, d) && job != [] && Submits(job[0])
    ensures CleanRuns.SubmitStep(s, DoWork(s, d, job, taken, taken), d, job, if taken then Some(s.next) else None)
  {
  }

  lemma LocalFrame(s: System, d: Layer, job: seq<Cmd>, taken: bool, included: bool)
    requires job in At(s.jobs, d) && job != [] && !Submits(job[0])
    ensures CleanRuns.LocalStep(s, DoWork(s, d, job, taken, included), d, job)
  {
  }

  lemma WorkClean(s: System, s': System, d: Layer, job: seq<Cmd>, taken: bool, included: bool, e: Layer)
    requires CleanInv(s) && job in At(s.jobs, d) && job != [] && (Submits(job[0]) ==> taken == included)
    requires s' == DoWork(s, d, job, taken, included)
    ensures CleanDir(s', e)
  {
    assert CleanDir(s, d) && CleanDir(s, e);
    if Submits(job[0]) {
      SubmitFrame(s, d, job, taken);
      CleanRuns.SubmitClean(s, s', d, job, if taken then Some(s.next) else None, e);
    } else {
      LocalFrame(s, d, job, taken, included);
      CleanRuns.LocalClean(s, s', d, job, e);
    }
  }

  lemma ActionClean(s: System, a: Action, d: Layer)
    requires CleanInv(s) && Enabled(s, a) && CleanAction(s, a)
    ensures CleanDir(Do(s, a), d)
  {
    match a {
      case User(layer, call, msg) => UserClean(s, layer, call, msg, d);
      case Include(layer, hash, accepts) => IncludeClean(s, layer, hash, accepts, d);
      case Drop(layer, hash) => DropClean(s, layer, hash, d);
      case Tick(time) => TickClean(s, time, d);
      case Deliver(layer, event, ledgerSeq) => CleanStarts.DeliverClean(s, layer, event, ledgerSeq, d);
      case Visit(_, _, _, _, _, _) => CleanStarts.VisitClean(s, a, d);
      case Work(e, job, taken, included) => WorkClean(s, Do(s, a), e, job, taken, included, d);
    }
  }

  lemma CleanStepKeeps(s: System, a: Action)
    requires CleanInv(s) && Enabled(s, a) && CleanAction(s, a)
    ensures CleanInv(Do(s, a))
  {
    ActionGood(s, a);
    GoodStepKeeps(s, Do(s, a));
    forall d ensures CleanDir(Do(s, a), d) { ActionClean(s, a, d); }
  }

  // ---------- Clean runs ----------

  /** A run whose every action is clean. */
  ghost predicate CleanRun(s: System, run: seq<Action>)
    requires Possible(s, run)
    decreases |run|
  {
    run != [] ==> CleanAction(s, run[0]) && CleanRun(Do(s, run[0]), run[1..])
  }

  lemma InitClean(owner1: Address, owner2: Address, chainId: nat, timeout1: nat, timeout2: nat, time: Times)
    requires chainId != 0 && OneClock(time)
    ensures CleanInv(Init(owner1, owner2, chainId, timeout1, timeout2, time))
  {
    InitHandOff(owner1, owner2, chainId, timeout1, timeout2, time);
  }

  lemma {:induction false} CleanRunKeeps(s: System, run: seq<Action>)
    requires CleanInv(s) && Possible(s, run) && CleanRun(s, run)
    ensures CleanInv(Final(s, run))
    decreases |run|
  {
    if run != [] {
      CleanStepKeeps(s, run[0]);
      CleanRunKeeps(Do(s, run[0]), run[1..]);
    }
  }

  /**
    The agent is never out of pocket: in a clean run from the empty bridge, once its SendTx has
    executed on the destination the source never becomes ACK_FAIL or ACK_TIMEOUT, and the agent
    never even sends a failure ack for the transfer.
  */
  lemma NeverOutOfPocket(owner1: Address, owner2: Address, chainId: nat, timeout1: nat, timeout2: nat, time: Times,
                         run: seq<Action>, d: Layer, id: TxId)
    requires chainId != 0 && OneClock(time)
    requires var s0 := Init(owner1, owner2, chainId, timeout1, timeout2, time); Possible(s0, run) && CleanRun(s0, run)
    ensures var s := Final(Init(owner1, owner2, chainId, timeout1, timeout2, time), run);
      Opened(s.chain, d, id) ==> !Refused(s.chain, d, id) && id !in At(s.past, d).nacked
  {
    var s0 := Init(owner1, owner2, chainId, timeout1, timeout2, time);
    InitClean(owner1, owner2, chainId, timeout1, timeout2, time);
    CleanRunKeeps(s0, run);
    assert CleanDir(Final(s0, run), d) && CleanAt(Final(s0, run), d, id);
  }

  /**
    In clean runs the hand-off has no exception: an id that was in the database is in it, or its transfer has
    settled.
  */
  lemma CleanHandOff(s: System, run: seq<Action>, d: Layer, id: TxId)
    requires CleanInv(s) && Possible(s, run) && CleanRun(s, run)
    requires InDatabase(s, d, id)
    ensures InDatabase(Final(s, run), d, id) || Settled(Final(s, run).chain, d, id)
  {
    HandOffRun(s, run, d, id);
    CleanRunKeeps(s, run);
    var s' := Final(s, run);
    assert CleanDir(s', d) && CleanAt(s', d, id) && Backed(s'.chain, d, id);
  }
}
