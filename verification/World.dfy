/**
  The two contracts together: which facts about them the relays rely on, and that no call the
  agent or anybody else can make breaks those facts.  A direction is named by the chain its
  transfers start on.
*/
module World {
  import opened Escrow
  import opened Relay
  import opened Wrappers

  datatype Pair<+T> = Pair(one: T, two: T)

  function At<T>(p: Pair<T>, layer: Layer): T {
    if layer == L1 then p.one else p.two
  }

  function Put<T>(p: Pair<T>, layer: Layer, v: T): Pair<T> {
    if layer == L1 then p.(one := v) else p.(two := v)
  }

  type Chains = Pair<Ledger>

  /** A transfer of direction d: its record is a source record on d. */
  predicate Known(w: Chains, d: Layer, id: TxId) {
    id in At(w, d).records && RoleOf(At(w, d), At(w, d).records[id]) == Source
  }

  function SourceRecord(w: Chains, d: Layer, id: TxId): Record
    requires Known(w, d, id)
  {
    At(w, d).records[id]
  }

  /** The record the agent opened for it on the other chain. */
  predicate Opened(w: Chains, d: Layer, id: TxId) {
    id in At(w, Other(d)).records && RoleOf(At(w, Other(d)), At(w, Other(d)).records[id]) == Destination
  }

  function DestRecord(w: Chains, d: Layer, id: TxId): Record
    requires Opened(w, d, id)
  {
    At(w, Other(d)).records[id]
  }

  /** The destination record carries what the source record says, and is paid only after the source was. */
  ghost predicate Mirrors(w: Chains, d: Layer, id: TxId) {
    Opened(w, d, id) ==>
      && Known(w, d, id)
      && var r, q := SourceRecord(w, d, id), DestRecord(w, d, id);
      && q.srcBid == r.srcBid && q.destBid == r.destBid
      && q.amount == Clamp(r.amount) && q.timeout == Clamp(r.timeout)
      && q.createTimestamp == 0 && InTime(Other(d), q.timeout, q.executeTimestamp)
      && q.status in {INIT, ACK_SUCCESS} && q.refunded == NONE
      && (q.status == ACK_SUCCESS ==> r.status == ACK_SUCCESS)
  }

  /** A source record is a success only if the destination record exists, with the same execute time. */
  ghost predicate Backed(w: Chains, d: Layer, id: TxId) {
    Known(w, d, id) && SourceRecord(w, d, id).status == ACK_SUCCESS ==>
      && Opened(w, d, id)
      && SourceRecord(w, d, id).executeTimestamp == DestRecord(w, d, id).executeTimestamp
      && var r := SourceRecord(w, d, id); r.createTimestamp < r.executeTimestamp < r.timeout
  }

  ghost predicate LedgerOk(l: Ledger, layer: Layer) {
    && l.layer == layer && Coherent(l) && l.balance == Locked(l) && Accounted(l) && Balanced(l)
    && (forall id :: id in l.records ==> |id| == ID_LENGTH)
    && (forall e :: e in l.events ==> EventOk(l, e))
  }

  /** Events are never ahead of the records they announce. */
  predicate EventOk(l: Ledger, e: Event) {
    && e.id in l.records
    && match e
       case StartTxEvent(id) => RoleOf(l, l.records[id]) == Source
       case SendTxEvent(id) => RoleOf(l, l.records[id]) == Destination
       case SendAckedTxEvent(id) => RoleOf(l, l.records[id]) == Source && l.records[id].status == ACK_SUCCESS
       case RefundEvent(id) => l.records[id].refunded == REFUNDED
  }

  ghost predicate WorldOk(w: Chains) {
    && LedgerOk(w.one, L1) && LedgerOk(w.two, L2) && w.one.chainId == w.two.chainId
    && (forall id :: !(Known(w, L1, id) && Known(w, L2, id)))
    && (forall d, id :: Mirrors(w, d, id) && Backed(w, d, id))
  }

  // ---------- What the agent may know and send ----------

  /** The message agrees with the source record on everything that never changes. */
  predicate InfoOk(w: Chains, d: Layer, i: Info) {
    && Known(w, d, i.id)
    && var r := SourceRecord(w, d, i.id);
    i.srcBid == r.srcBid && i.destBid == r.destBid && i.amount == Clamp(r.amount) && i.timeout == Clamp(r.timeout)
  }

  /** A success ack stands for a destination record and quotes its execute time. */
  predicate AckOk(w: Chains, d: Layer, i: Info) {
    && InfoOk(w, d, i) && i.status != INIT
    && (i.status == ACK_SUCCESS ==> Opened(w, d, i.id) && i.executeTimestamp == DestRecord(w, d, i.id).executeTimestamp)
  }

  /** A reply ack stands for a source record that succeeded. */
  predicate ReplyOk(w: Chains, d: Layer, i: Info) {
    && InfoOk(w, d, i) && i.status == ACK_SUCCESS
    && SourceRecord(w, d, i.id).status == ACK_SUCCESS
    && i.executeTimestamp == SourceRecord(w, d, i.id).executeTimestamp
  }

  predicate RowOk(w: Chains, d: Layer, t: Table, i: Info) {
    match t
    case StartTable => InfoOk(w, d, i)
    case SendTable => InfoOk(w, d, i)
    case AckTable => AckOk(w, d, i)
    case ReplyTable => ReplyOk(w, d, i)
  }

  predicate CmdOk(w: Chains, d: Layer, c: Cmd) {
    match c
    case SubmitTx(i, ackOnFail) => InfoOk(w, d, i)
    case SubmitAck(i) => AckOk(w, d, i)
    case SubmitReply(i) => ReplyOk(w, d, i)
    case DbPut(t, i) => RowOk(w, d, t, i)
    case MapEmplace(t, i) => RowOk(w, d, t, i)
    case DbDelete(_, _) => true
    case MapErase(_, _) => true
    case Rearm(_, _) => true
  }

  /** What a call of the agent on a chain says is true. */
  predicate CallOk(w: Chains, layer: Layer, c: Call) {
    match c
    case StartTx(_, _, _, _) => false
    case Refund(_) => false
    case SendTx(id, src, dest, amount, timeout) =>
      var d := Other(layer);
      && Known(w, d, id)
      && var r := SourceRecord(w, d, id);
      src == r.srcBid && dest == r.destBid && amount == Clamp(r.amount) && timeout == Clamp(r.timeout)
    case SendAckedTx(id, result, desc, executeTime) =>
      if Known(w, layer, id) then
        && result in {1, 2, 3}
        && (result == 1 ==> Opened(w, layer, id) && executeTime == DestRecord(w, layer, id).executeTimestamp)
      else
        && Known(w, Other(layer), id)
        && result == 1
        && SourceRecord(w, Other(layer), id).status == ACK_SUCCESS
        && executeTime == SourceRecord(w, Other(layer), id).executeTimestamp
  }

  /** The transaction of a call: the agent sends the amount along with SendTx and nothing with an ack. */
  function AgentMsg(l: Ledger, c: Call, time: nat, accepts: bool): Msg {
    Msg(l.owner, if c.SendTx? then c.amount else 0, time, accepts)
  }

  /**
    Anybody may start a fresh transfer or ask for a refund; the agent's calls are true; other callers of owner
    functions fail.
  */
  predicate Permitted(w: Chains, layer: Layer, msg: Msg, c: Call) {
    match c
    case StartTx(id, _, _, _) => |id| == ID_LENGTH && id !in w.one.records && id !in w.two.records
    case Refund(_) => true
    case SendTx(_, _, _, _, _) => msg.sender == At(w, layer).owner ==> CallOk(w, layer, c)
    case SendAckedTx(_, _, _, _) => msg.sender == At(w, layer).owner ==> CallOk(w, layer, c)
  }

  function Step(w: Chains, layer: Layer, msg: Msg, c: Call): Chains {
    Put(w, layer, After(At(w, layer), msg, c))
  }

  // ---------- Facts only grow ----------

  ghost predicate LedgerEvolves(l: Ledger, l': Ledger) {
    && l'.layer == l.layer && l'.chainId == l.chainId && l'.owner == l.owner
    && forall id :: id in l.records ==>
        && id in l'.records && RecordEvolves(l.records[id], l'.records[id])
        && (RoleOf(l, l.records[id]) == Destination ==>
              l'.records[id].executeTimestamp == l.records[id].executeTimestamp)
  }

  ghost predicate Evolves(w: Chains, w': Chains) {
    LedgerEvolves(w.one, w'.one) && LedgerEvolves(w.two, w'.two)
  }

  lemma EvolvesReflexive(w: Chains)
    ensures Evolves(w, w)
  {
  }

  lemma KnownStable(w: Chains, w': Chains, d: Layer, id: TxId)
    requires Evolves(w, w')
    ensures Known(w, d, id) ==> Known(w', d, id) && RecordEvolves(SourceRecord(w, d, id), SourceRecord(w', d, id))
    ensures Opened(w, d, id) ==>
      && Opened(w', d, id) && RecordEvolves(DestRecord(w, d, id), DestRecord(w', d, id))
      && DestRecord(w', d, id).executeTimestamp == DestRecord(w, d, id).executeTimestamp
  {
  }

  lemma RowStable(w: Chains, w': Chains, d: Layer, t: Table, i: Info)
    requires Evolves(w, w') && RowOk(w, d, t, i)
    ensures RowOk(w', d, t, i)
  {
    KnownStable(w, w', d, i.id);
  }

  lemma CmdStable(w: Chains, w': Chains, d: Layer, c: Cmd)
    requires Evolves(w, w') && CmdOk(w, d, c)
    ensures CmdOk(w', d, c)
  {
    if Submits(c) || c.DbPut? || c.MapEmplace? { KnownStable(w, w', d, c.info.id); }
  }

  lemma CallStable(w: Chains, w': Chains, layer: Layer, c: Call)
    requires Evolves(w, w') && WorldOk(w') && CallOk(w, layer, c)
    ensures CallOk(w', layer, c)
  {
    KnownStable(w, w', layer, c.id);
    KnownStable(w, w', Other(layer), c.id);
    assert !(Known(w', L1, c.id) && Known(w', L2, c.id));
  }

  // ---------- Every permitted call keeps the facts ----------

  /** On a destination record the agent only acks with the execute time the record already has. */
  lemma AckKeepsExecuteTime(w: Chains, layer: Layer, c: Call)
    requires WorldOk(w) && c.SendAckedTx? && CallOk(w, layer, c)
    requires c.id in At(w, layer).records && RoleOf(At(w, layer), At(w, layer).records[c.id]) == Destination
    ensures c.result == 1 && c.executeTime == At(w, layer).records[c.id].executeTimestamp
    ensures Known(w, Other(layer), c.id) && SourceRecord(w, Other(layer), c.id).status == ACK_SUCCESS
  {
    assert Opened(w, Other(layer), c.id) && Backed(w, Other(layer), c.id);
  }

  lemma MoneyKept(l: Ledger, msg: Msg, c: Call)
    requires Coherent(l) && l.balance == Locked(l) && Accounted(l) && Balanced(l) && FreshCall(l, c)
    requires Apply(l, msg, c).Done?
    ensures var l' := After(l, msg, c); Coherent(l') && l'.balance == Locked(l') && Accounted(l') && Balanced(l')
  {
    SolventKept(l, msg, c);
    ExactBalanceKept(l, msg, c);
    AccountedKept(l, msg, c);
    BalancedKept(l, msg, c);
  }

  lemma EventsKept(l: Ledger, l': Ledger, msg: Msg, c: Call)
    requires Coherent(l) && FreshCall(l, c) && Wrote(l, l', msg, c) && l'.events == l.events + Announced(l, c)
    requires forall e :: e in l.events ==> EventOk(l, e)
    ensures forall e :: e in l'.events ==> EventOk(l', e)
  {
    forall e | e in l'.events ensures EventOk(l', e) {
      if e in l.events { assert EventOk(l, e); } else { assert e in Announced(l, c); }
    }
  }

  lemma LedgerOkKept(w: Chains, layer: Layer, msg: Msg, c: Call)
    requires WorldOk(w) && Permitted(w, layer, msg, c)
    ensures LedgerOk(After(At(w, layer), msg, c), layer)
  {
    var l := At(w, layer);
    if Apply(l, msg, c).Done? {
      var l' := After(l, msg, c);
      MoneyKept(l, msg, c);
      WroteBy(l, msg, c);
      AnnouncedBy(l, msg, c);
      EventsKept(l, l', msg, c);
    }
  }

  /** The state after a call, with the ledger it leaves given by what the call wrote. */
  ghost predicate Next(w: Chains, w': Chains, layer: Layer, msg: Msg, c: Call) {
    && Permitted(w, layer, msg, c)
    && w' == Put(w, layer, At(w', layer)) && Wrote(At(w, layer), At(w', layer), msg, c)
  }

  lemma WroteEvolves(l: Ledger, l': Ledger, msg: Msg, c: Call)
    requires Coherent(l) && Wrote(l, l', msg, c) && (c.StartTx? ==> c.id !in l.records)
    requires c.SendAckedTx? && RoleOf(l, l.records[c.id]) == Destination ==>
      c.result == 1 && c.executeTime == l.records[c.id].executeTimestamp
    ensures LedgerEvolves(l, l')
  {
    forall id | id in l.records
      ensures RecordEvolves(l.records[id], l'.records[id])
      ensures RoleOf(l, l.records[id]) == Destination ==>
        l'.records[id].executeTimestamp == l.records[id].executeTimestamp
    {
      if id != c.id { assert l'.records[id] == l.records[id]; }
    }
  }

  lemma NextEvolves(w: Chains, w': Chains, layer: Layer, msg: Msg, c: Call)
    requires WorldOk(w) && Next(w, w', layer, msg, c)
    ensures Evolves(w, w')
  {
    var l := At(w, layer);
    if c.SendAckedTx? && RoleOf(l, l.records[c.id]) == Destination { AckKeepsExecuteTime(w, layer, c); }
    assert Coherent(l);
    EvolvesReflexive(w);
    hide Wrote, LedgerEvolves, RecordEvolves, LedgerOk, Coherent, Mirrors, Backed, RoleOf;
    WroteEvolves(l, At(w', layer), msg, c);
  }

  lemma NextElsewhere(w: Chains, w': Chains, layer: Layer, msg: Msg, c: Call, d: Layer, id: TxId)
    requires WorldOk(w) && Next(w, w', layer, msg, c) && id != c.id
    ensures Mirrors(w', d, id) && Backed(w', d, id) && !(Known(w', L1, id) && Known(w', L2, id))
  {
    assert Mirrors(w, d, id) && Backed(w, d, id) && !(Known(w, L1, id) && Known(w, L2, id));
    assert Known(w', L1, id) == Known(w, L1, id) && Known(w', L2, id) == Known(w, L2, id);
    assert Opened(w', d, id) == Opened(w, d, id);
  }

  lemma NextHereOpening(w: Chains, w': Chains, layer: Layer, msg: Msg, c: Call, d: Layer)
    requires WorldOk(w) && Next(w, w', layer, msg, c) && (c.StartTx? || c.SendTx?)
    ensures Mirrors(w', d, c.id) && Backed(w', d, c.id) && !(Known(w', L1, c.id) && Known(w', L2, c.id))
  {
    assert Mirrors(w, d, c.id) && Backed(w, d, c.id) && !(Known(w, L1, c.id) && Known(w, L2, c.id));
    assert Mirrors(w, Other(d), c.id);
  }

  lemma NextHereClosing(w: Chains, w': Chains, layer: Layer, msg: Msg, c: Call, d: Layer)
    requires WorldOk(w) && Next(w, w', layer, msg, c) && (c.SendAckedTx? || c.Refund?)
    ensures Mirrors(w', d, c.id) && Backed(w', d, c.id) && !(Known(w', L1, c.id) && Known(w', L2, c.id))
  {
    assert Mirrors(w, d, c.id) && Backed(w, d, c.id) && !(Known(w, L1, c.id) && Known(w, L2, c.id));
    assert Mirrors(w, Other(d), c.id);
    var l := At(w, layer);
    if c.SendAckedTx? && RoleOf(l, l.records[c.id]) == Destination { AckKeepsExecuteTime(w, layer, c); }
    assert Known(w', L1, c.id) == Known(w, L1, c.id) && Known(w', L2, c.id) == Known(w, L2, c.id);
    assert Opened(w', d, c.id) == Opened(w, d, c.id);
  }

  lemma NextLinked(w: Chains, w': Chains, layer: Layer, msg: Msg, c: Call)
    requires WorldOk(w) && Next(w, w', layer, msg, c)
    ensures forall d, id :: Mirrors(w', d, id) && Backed(w', d, id)
    ensures forall id :: !(Known(w', L1, id) && Known(w', L2, id))
  {
    forall d, id ensures Mirrors(w', d, id) && Backed(w', d, id) && !(Known(w', L1, id) && Known(w', L2, id)) {
      if id != c.id { NextElsewhere(w, w', layer, msg, c, d, id); }
      else if c.StartTx? || c.SendTx? { NextHereOpening(w, w', layer, msg, c, d); }
      else { NextHereClosing(w, w', layer, msg, c, d); }
    }
    forall id ensures !(Known(w', L1, id) && Known(w', L2, id)) {
      assert Mirrors(w', L1, id);
    }
  }

  lemma WorldKept(w: Chains, layer: Layer, msg: Msg, c: Call)
    requires WorldOk(w) && Permitted(w, layer, msg, c)
    ensures WorldOk(Step(w, layer, msg, c)) && Evolves(w, Step(w, layer, msg, c))
  {
    var l := At(w, layer);
    var w' := Step(w, layer, msg, c);
    LedgerOkKept(w, layer, msg, c);
    if Apply(l, msg, c).Done? {
      WroteBy(l, msg, c);
      NextEvolves(w, w', layer, msg, c);
      NextLinked(w, w', layer, msg, c);
    } else {
      assert w' == w;
    }
  }
}
