/** The dispatcher: which relay answers an event, told by the chain it comes from and the topic it carries. */
module HandleManager {
  import opened Answers
  import opened Escrow
  import opened Relay
  import opened RelayHandle
  import opened Protocol
  import opened Wrappers

  /** The configured topics of the events of one contract. */
  datatype Topics = Topics(start: string, send: string, ack: string)

  predicate Distinct(t: Topics) {
    t.start != t.send && t.start != t.ack && t.send != t.ack
  }

  predicate Relayed(e: Event) {
    !e.RefundEvent?
  }

  function TopicOf(t: Topics, e: Event): string
    requires Relayed(e)
  {
    match e
    case StartTxEvent(_) => t.start
    case SendTxEvent(_) => t.send
    case SendAckedTxEvent(_) => t.ack
  }

  /** The event a topic is taken for: the first one that has it. */
  function EventOf(t: Topics, topic: string, id: TxId): Option<Event> {
    if topic == t.start then Some(StartTxEvent(id))
    else if topic == t.send then Some(SendTxEvent(id))
    else if topic == t.ack then Some(SendAckedTxEvent(id))
    else None
  }

  /** Every event is taken for itself exactly when the three topics differ. */
  lemma TakenRightExactly(t: Topics)
    ensures Distinct(t) <==> forall e :: Relayed(e) ==> EventOf(t, TopicOf(t, e), e.id) == Some(e)
  {
    if !Distinct(t) {
      var send, ack := SendTxEvent([]), SendAckedTxEvent([]);
      assert Relayed(send) && Relayed(ack);
      assert EventOf(t, TopicOf(t, send), []) != Some(send) || EventOf(t, TopicOf(t, ack), []) != Some(ack);
    }
  }

  /** The record on one chain, as a relay that carries transfers from `source` reads it. */
  function ReadOn(layer: Layer, source: Layer, net: Net, id: TxId): Option<Record> {
    if layer == source then net.readSource(id) else net.readDest(id)
  }

  /** What the relay of an event does: its plan for the record on the chain that emitted it, if that can be read. */
  function AnswerPlan(layer: Layer, e: Event, net: Net): seq<Cmd> {
    match ReadOn(layer, Route(layer, e), net, e.id)
    case None => []
    case Some(r) => DeliverPlan(layer, e, r, net.ledgerSeq)
  }

  /** The first call the relay of an event submits, for the record on the chain that emitted it. */
  function FirstCall(layer: Layer, e: Event, r: Record): Call
    requires Relayed(e)
  {
    match e
    case StartTxEvent(id) => Call.SendTx(id, r.srcBid, r.destBid, Clamp(r.amount), Clamp(r.timeout))
    case SendTxEvent(id) => Call.SendAckedTx(id, 1, if layer == L2 then "success" else "", Clamp(r.executeTimestamp))
    case SendAckedTxEvent(id) =>
      Call.SendAckedTx(id, Code(r.status), Description(layer, Read(id, r)), Clamp(r.executeTimestamp))
  }

  /** The relay has done what was asked of it: its first call was taken, or a start on L2 was given its height. */
  predicate Answered(layer: Layer, e: Event, net: Net)
    requires Relayed(e)
  {
    match ReadOn(layer, Route(layer, e), net, e.id)
    case None => false
    case Some(r) =>
      if layer == L2 && e.StartTxEvent? then net.ledgerSeq.Some? else net.submit(FirstCall(layer, e, r)).Some?
  }

  /** The first call is the first one of the plan, and a plan that begins with none is that of a start on L2. */
  lemma AnsweredFirst(layer: Layer, e: Event, net: Net)
    requires Relayed(e)
    ensures var sent := Calls(Route(layer, e), AnswerPlan(layer, e, net), net);
      if layer == L2 && e.StartTxEvent? then sent == []
      else Answered(layer, e, net) <==> sent != [] && sent[0].accepted
  {
    var d, a := Route(layer, e), Agent(map[], map[]);
    match ReadOn(layer, d, net, e.id) {
      case None =>
      case Some(r) =>
        match e {
          case StartTxEvent(id) =>
            if layer == L1 { StartOnL1(a, id, r, net, 0); } else { StartOnL2(a, id, r, net, 0); }
          case SendTxEvent(id) => SendExecuted(d, a, id, r, net, 0, if d == L1 then "success" else "");
          case SendAckedTxEvent(id) =>
            WordsAre(d, Read(id, r));
            AckExecuted(d, a, id, r, net, 0, Code(r.status), Description(d, Read(id, r)));
        }
    }
  }

  class Manager {
    const topics1: Topics
    const topics2: Topics
    const contract2: Address
    const layer1ToLayer2: Handle
    const layer2ToLayer1: Handle

    ghost predicate Valid()
      reads layer1ToLayer2, layer2ToLayer1
    {
      && layer1ToLayer2 != layer2ToLayer1 && layer1ToLayer2.source == L1 && layer2ToLayer1.source == L2
      && layer1ToLayer2.Valid() && layer2ToLayer1.Valid()
    }

    constructor (topics1: Topics, topics2: Topics, contract2: Address)
      ensures Valid() && fresh(layer1ToLayer2) && fresh(layer2ToLayer1)
      ensures this.topics1 == topics1 && this.topics2 == topics2 && this.contract2 == contract2
    {
      this.topics1, this.topics2, this.contract2 := topics1, topics2, contract2;
      layer1ToLayer2 := new Handle(L1);
      layer2ToLayer1 := new Handle(L2);
    }

    /** The relay of one direction. */
    function RelayOf(d: Layer): Handle {
      if d == L1 then layer1ToLayer2 else layer2ToLayer1
    }

    /** One relay has carried out a plan and the other one has done nothing. */
    twostate predicate OnlyRan(d: Layer, plan: seq<Cmd>, net: Net, now: int)
      reads layer1ToLayer2, layer2ToLayer1
    {
      && RelayOf(d).Tables() == Run(d, old(RelayOf(d).Tables()), plan, net, now)
      && RelayOf(d).outbox == old(RelayOf(d).outbox) + Calls(d, plan, net)
      && RelayOf(Other(d)).Tables() == old(RelayOf(Other(d)).Tables())
      && RelayOf(Other(d)).outbox == old(RelayOf(Other(d)).outbox)
    }

    /**
      An event of the contract on L1 is answered by the relay it is meant for and by nobody else; any other
      topic changes nothing.
    */
    method OnLayer1CrossContractTlog(topic: string, id: TxId, net: Net, now: int) returns (ok: bool)
      requires Valid()
      modifies layer1ToLayer2, layer2ToLayer1
      ensures Valid()
      ensures match EventOf(topics1, topic, id)
              case Some(e) => (ok <==> Answered(L1, e, net)) && OnlyRan(Route(L1, e), AnswerPlan(L1, e, net), net, now)
              case None => !ok && OnlyRan(L1, [], net, now)
    {
      if topic == topics1.start {
        ok := layer1ToLayer2.HandleStartTxEvent(id, net, now);
      } else if topic == topics1.send {
        ok := layer2ToLayer1.HandleSendTxEvent(id, net, now);
      } else if topic == topics1.ack {
        ok := layer1ToLayer2.HandleSendAckdTxEvent(id, net, now);
      } else {
        ok := false;
      }
    }

    /** The same for L2, where events of another contract are turned away first. */
    method OnLayer2SubscribeResponse(contract: Address, topic: string, id: TxId, net: Net, now: int) returns (ok: bool)
      requires Valid()
      modifies layer1ToLayer2, layer2ToLayer1
      ensures Valid()
      ensures match if contract == contract2 then EventOf(topics2, topic, id) else None
              case Some(e) => (ok <==> Answered(L2, e, net)) && OnlyRan(Route(L2, e), AnswerPlan(L2, e, net), net, now)
              case None => !ok && OnlyRan(L1, [], net, now)
    {
      if contract != contract2 { return false; }
      if topic == topics2.start {
        ok := layer2ToLayer1.HandleStartTxEvent(id, net, now);
      } else if topic == topics2.send {
        ok := layer1ToLayer2.HandleSendTxEvent(id, net, now);
      } else if topic == topics2.ack {
        ok := layer2ToLayer1.HandleSendAckdTxEvent(id, net, now);
      } else {
        ok := false;
      }
    }
  }
}
