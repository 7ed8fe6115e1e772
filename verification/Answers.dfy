/**
  What the plans of the relays come to: for every event and every turn of a loop, which call is
  submitted to which chain, and which rows are left, case by case and in the contract's own terms.
*/
module Answers {
  import opened Escrow
  import opened Relay
  import opened Wrappers

  /** A plan submits these calls and leaves these tables. */
  ghost predicate Does(source: Layer, a: Agent, plan: seq<Cmd>, net: Net, now: int, sent: seq<Sent>, after: Agent) {
    Calls(source, plan, net) == sent && Run(source, a, plan, net, now) == after
  }

  /** The result code and the text an ack of this status carries. */
  predicate Words(source: Layer, status: Status, result: nat, text: string) {
    match status
    case INIT => result == 0 && text == if source == L1 then "success" else ""
    case ACK_SUCCESS => result == 1 && text == if source == L1 then "success" else ""
    case ACK_FAIL => result == 2 && text == "send tx failed"
    case ACK_TIMEOUT => result == 3 && text == "send tx failed"
  }

  lemma AckCall(source: Layer, i: Info, result: nat, text: string)
    requires Words(source, i.status, result, text)
    ensures CallOf(source, SubmitAck(i)) == Call.SendAckedTx(i.id, result, text, i.executeTimestamp)
    ensures CallOf(source, SubmitReply(i)) == Call.SendAckedTx(i.id, result, text, i.executeTimestamp)
  {
  }

  lemma WordsAre(source: Layer, i: Info)
    ensures Words(source, i.status, Code(i.status), Description(source, i))
  {
  }

  /** What is read of a record: its parties, status and times, with numbers no larger than a signed 64-bit integer. */
  lemma ReadIs(id: TxId, r: Record)
    ensures var i := Read(id, r);
      && i.id == id && i.srcBid == r.srcBid && i.destBid == r.destBid && i.status == r.status
      && i.amount == (if r.amount < 0x8000_0000_0000_0000 then r.amount else 0x7FFF_FFFF_FFFF_FFFF)
      && i.timeout == (if r.timeout < 0x8000_0000_0000_0000 then r.timeout else 0x7FFF_FFFF_FFFF_FFFF)
      && i.executeTimestamp
         == (if r.executeTimestamp < 0x8000_0000_0000_0000 then r.executeTimestamp else 0x7FFF_FFFF_FFFF_FFFF)
  {
  }

  // ---------- Rows ----------

  /** A row saved replaces the one in the database; in memory one that is there stays, a new one is due in a minute. */
  lemma SaveIs(a: Agent, t: Table, i: Info, now: int)
    ensures var k := Key(t, i.id);
      SaveAt(a, t, i, now)
      == Agent(if k in a.mem then a.mem else a.mem[k := Entry(i, now + 60_000_000)], a.db[k := i])
  {
  }

  lemma ClearIs(a: Agent, t: Table, id: TxId, now: int)
    ensures ClearAt(a, t, id, now) == Agent(a.mem - {Key(t, id)}, a.db - {Key(t, id)})
  {
  }

  // ---------- One submission, and what is done if it is taken ----------

  function SavedRow(c: Cmd, h: Hash): Info
    requires Submits(c)
  {
    match c
    case SubmitTx(i, _) => i.(sendHash := h)
    case SubmitAck(i) => i.(ackHash := h)
    case SubmitReply(i) => i.(replyHash := h)
  }

  function SavedTable(c: Cmd): Table
    requires Submits(c)
  {
    if c.SubmitTx? then SendTable else if c.SubmitAck? then AckTable else ReplyTable
  }

  /** The tables with the row of a submission, if it was taken. */
  function Noted(source: Layer, a: Agent, c: Cmd, net: Net, now: int): Agent
    requires Submits(c)
  {
    match net.submit(CallOf(source, c))
    case None => a
    case Some(h) => SaveAt(a, SavedTable(c), SavedRow(c, h), now)
  }

  function SentFirst(source: Layer, c: Cmd, net: Net): Sent
    requires Submits(c)
  {
    Sent(TargetOf(source, c), CallOf(source, c), net.submit(CallOf(source, c)).Some?)
  }

  lemma DoesNothing(source: Layer, a: Agent, net: Net, now: int)
    ensures Does(source, a, [], net, now, [], a)
  {
  }

  lemma DoesClear(source: Layer, a: Agent, t: Table, id: TxId, net: Net, now: int)
    ensures Does(source, a, Clear(t, id), net, now, [], ClearAt(a, t, id, now))
  {
    RunClear(source, a, t, id, net, now);
  }

  lemma DoesSubmit(source: Layer, a: Agent, c: Cmd, net: Net, now: int)
    requires Submits(c) && (c.SubmitTx? ==> !c.ackOnFail)
    ensures Does(source, a, [c], net, now, [SentFirst(source, c, net)], Noted(source, a, c, net, now))
  {
    RunSubmit(source, a, c, [], net, now);
    assert [c] + [] == [c];
  }

  lemma DoesSubmitClear(source: Layer, a: Agent, c: Cmd, t: Table, net: Net, now: int)
    requires Submits(c) && (c.SubmitTx? ==> !c.ackOnFail)
    ensures Does(source, a, [c] + Clear(t, c.info.id), net, now, [SentFirst(source, c, net)],
                 if net.submit(CallOf(source, c)).Some? then ClearAt(Noted(source, a, c, net, now), t, c.info.id, now)
                 else a)
  {
    RunSubmit(source, a, c, Clear(t, c.info.id), net, now);
    RunClear(source, Noted(source, a, c, net, now), t, c.info.id, net, now);
  }

  lemma DoesResend(source: Layer, a: Agent, c: Cmd, t: Table, net: Net, now: int)
    requires Submits(c) && !c.SubmitTx?
    ensures Does(source, a, [c, Rearm(t, c.info.id)], net, now, [SentFirst(source, c, net)],
                 Local(Noted(source, a, c, net, now), Rearm(t, c.info.id), now))
  {
    assert [c, Rearm(t, c.info.id)] == [c] + [Rearm(t, c.info.id)];
    RunSubmit(source, a, c, [Rearm(t, c.info.id)], net, now);
  }

  // ---------- The loops ----------

  /**
    The loop over the acks: a due success is sent again, a due refusal is sent again unless it has
    taken effect, and then its row goes; either way the next look is a minute later.
  */
  lemma AckLoop(source: Layer, a: Agent, id: TxId, net: Net, now: int, result: nat, text: string)
    requires Key(AckTable, id) in a.mem && a.mem[Key(AckTable, id)].info.id == id
    requires Words(source, a.mem[Key(AckTable, id)].info.status, result, text)
    ensures var k := Key(AckTable, id);
      var e := a.mem[k];
      var plan := AckTimeoutPlan(e, now, net.receipt(e.info.ackHash), net.status(id));
      var call := Call.SendAckedTx(id, result, text, e.info.executeTimestamp);
      if e.ackDeadline >= now then Does(source, a, plan, net, now, [], a)
      else if result != 1 && (net.receipt(e.info.ackHash) || net.status(id) != INIT) then
        Does(source, a, plan, net, now, [], Agent(a.mem - {k}, a.db - {k}))
      else
        Does(source, a, plan, net, now, [Sent(source, call, net.submit(call).Some?)],
             Agent(a.mem[k := Entry(e.info, now + 60_000_000)],
                   match net.submit(call) case None => a.db case Some(h) => a.db[k := e.info.(ackHash := h)]))
  {
    var e := a.mem[Key(AckTable, id)];
    AckCall(source, e.info, result, text);
    DoesNothing(source, a, net, now);
    DoesClear(source, a, AckTable, id, net, now);
    DoesResend(source, a, SubmitAck(e.info), AckTable, net, now);
  }

  /** The loop over the payouts: a due one is sent again unless it has taken effect, and then its row goes. */
  lemma ReplyLoop(source: Layer, a: Agent, id: TxId, net: Net, now: int, result: nat, text: string)
    requires Key(ReplyTable, id) in a.mem && a.mem[Key(ReplyTable, id)].info.id == id
    requires Words(source, a.mem[Key(ReplyTable, id)].info.status, result, text)
    ensures var k := Key(ReplyTable, id);
      var e := a.mem[k];
      var plan := ReplyTimeoutPlan(e, now, net.receipt(e.info.replyHash), net.status(id));
      var call := Call.SendAckedTx(id, result, text, e.info.executeTimestamp);
      if e.ackDeadline >= now then Does(source, a, plan, net, now, [], a)
      else if net.receipt(e.info.replyHash) || net.status(id) != INIT then
        Does(source, a, plan, net, now, [], Agent(a.mem - {k}, a.db - {k}))
      else
        Does(source, a, plan, net, now, [Sent(Other(source), call, net.submit(call).Some?)],
             Agent(a.mem[k := Entry(e.info, now + 60_000_000)],
                   match net.submit(call) case None => a.db case Some(h) => a.db[k := e.info.(replyHash := h)]))
  {
    var e := a.mem[Key(ReplyTable, id)];
    AckCall(source, e.info, result, text);
    DoesNothing(source, a, net, now);
    DoesClear(source, a, ReplyTable, id, net, now);
    DoesResend(source, a, SubmitReply(e.info), ReplyTable, net, now);
  }

  /**
    The loop over the starts when a height is confirmed: a start that is not confirmed waits, one past
    its timeout is refused, every other one is sent, and its row goes if the send was taken.
  */
  lemma ConfirmLoop(source: Layer, a: Agent, e: Entry, confirmSeq: int, net: Net, now: int)
    ensures var i := e.info;
      var plan := ConfirmPlan(e, confirmSeq, now);
      var refusal := Call.SendAckedTx(i.id, 3, "send tx failed", i.executeTimestamp);
      var send := Call.SendTx(i.id, i.srcBid, i.destBid, i.amount, i.timeout);
      if i.confirmSeq > confirmSeq then Does(source, a, plan, net, now, [], a)
      else if i.timeout < now then
        Does(source, a, plan, net, now, [Sent(source, refusal, net.submit(refusal).Some?)],
             match net.submit(refusal)
             case None => a
             case Some(h) => SaveAt(a, AckTable, i.(status := ACK_TIMEOUT, ackHash := h), now))
      else
        Does(source, a, plan, net, now, [Sent(Other(source), send, net.submit(send).Some?)],
             match net.submit(send)
             case None => a
             case Some(h) => ClearAt(SaveAt(a, SendTable, i.(sendHash := h), now), StartTable, i.id, now))
  {
    DoesNothing(source, a, net, now);
    DoesSubmit(source, a, SubmitAck(e.info.(status := ACK_TIMEOUT)), net, now);
    DoesSubmitClear(source, a, SubmitTx(e.info, false), StartTable, net, now);
  }

  /** The loop over the starts that wait: past its timeout a start is refused, and its row goes if that was taken. */
  lemma StartLoop(source: Layer, a: Agent, e: Entry, net: Net, now: int)
    ensures var i := e.info;
      var plan := StartTimeoutPlan(e, now);
      var refusal := Call.SendAckedTx(i.id, 2, "send tx failed", i.executeTimestamp);
      if i.timeout >= now then Does(source, a, plan, net, now, [], a)
      else
        Does(source, a, plan, net, now, [Sent(source, refusal, net.submit(refusal).Some?)],
             match net.submit(refusal)
             case None => a
             case Some(h) =>
               ClearAt(SaveAt(a, AckTable, i.(status := ACK_FAIL, ackHash := h), now), StartTable, i.id, now))
  {
    DoesNothing(source, a, net, now);
    DoesSubmitClear(source, a, SubmitAck(e.info.(status := ACK_FAIL)), StartTable, net, now);
  }

  /**
    A send that was executed, as an event or in the loop: a success ack with the execute time of the
    destination record, and the row of the send goes if the ack was taken.
  */
  lemma SendExecuted(source: Layer, a: Agent, id: TxId, r: Record, net: Net, now: int, text: string)
    requires text == if source == L1 then "success" else ""
    ensures var plan := SendEventPlan(Read(id, r));
      var call := Call.SendAckedTx(id, 1, text, Clamp(r.executeTimestamp));
      Does(source, a, plan, net, now, [Sent(source, call, net.submit(call).Some?)],
           match net.submit(call)
           case None => a
           case Some(h) =>
             ClearAt(SaveAt(a, AckTable, Read(id, r).(status := ACK_SUCCESS, ackHash := h), now), SendTable, id, now))
  {
    DoesSubmitClear(source, a, SubmitAck(Read(id, r).(status := ACK_SUCCESS)), SendTable, net, now);
  }

  /**
    The loop over the sends: before the timeout nothing; past it a success ack if the receipt of the send
    is there and the record can be read, and a timeout ack if there is no receipt.
  */
  lemma SendLoop(source: Layer, a: Agent, e: Entry, record: Option<Record>, net: Net, now: int, text: string)
    requires text == if source == L1 then "success" else ""
    ensures var i := e.info;
      var read := match record case None => None case Some(r) => Some(Read(i.id, r));
      var plan := SendTimeoutPlan(e, now, net.receipt(i.sendHash), read);
      var refusal := Call.SendAckedTx(i.id, 3, "send tx failed", i.executeTimestamp);
      if i.timeout >= now || (net.receipt(i.sendHash) && record.None?) then Does(source, a, plan, net, now, [], a)
      else if net.receipt(i.sendHash) then
        var call := Call.SendAckedTx(i.id, 1, text, Clamp(record.value.executeTimestamp));
        Does(source, a, plan, net, now, [Sent(source, call, net.submit(call).Some?)],
             match net.submit(call)
             case None => a
             case Some(h) =>
               ClearAt(SaveAt(a, AckTable, Read(i.id, record.value).(status := ACK_SUCCESS, ackHash := h), now),
                       SendTable, i.id, now))
      else
        Does(source, a, plan, net, now, [Sent(source, refusal, net.submit(refusal).Some?)],
             match net.submit(refusal)
             case None => a
             case Some(h) =>
               ClearAt(SaveAt(a, AckTable, i.(status := ACK_TIMEOUT, ackHash := h), now), SendTable, i.id, now))
  {
    DoesNothing(source, a, net, now);
    if record.Some? { SendExecuted(source, a, e.info.id, record.value, net, now, text); }
    DoesSubmitClear(source, a, SubmitAck(e.info.(status := ACK_TIMEOUT)), SendTable, net, now);
  }

  // ---------- The events ----------

  /** A start on L1: it is sent at once, and if the node refuses the send, one failure ack goes to L1. */
  lemma StartOnL1(a: Agent, id: TxId, r: Record, net: Net, now: int)
    ensures var plan := StartPlan(L1, Read(id, r), net.ledgerSeq);
      var send := Call.SendTx(id, r.srcBid, r.destBid, Clamp(r.amount), Clamp(r.timeout));
      var refusal := Call.SendAckedTx(id, 2, "send tx failed", Clamp(r.executeTimestamp));
      match net.submit(send)
      case Some(h) =>
        Does(L1, a, plan, net, now, [Sent(L2, send, true)], SaveAt(a, SendTable, Read(id, r).(sendHash := h), now))
      case None =>
        Does(L1, a, plan, net, now, [Sent(L2, send, false), Sent(L1, refusal, net.submit(refusal).Some?)],
             match net.submit(refusal)
             case None => a
             case Some(h) => SaveAt(a, AckTable, Read(id, r).(status := ACK_FAIL, ackHash := h), now))
  {
    var c := SubmitTx(Read(id, r), true);
    RunSubmit(L1, a, c, [], net, now);
    assert [c] + [] == [c];
    if net.submit(CallOf(L1, c)).Some? {
      DoesNothing(L1, Noted(L1, a, c, net, now), net, now);
    } else {
      DoesSubmit(L1, a, SubmitAck(Read(id, r).(status := ACK_FAIL)), net, now);
    }
  }

  /** A start on L2: its row waits for the height of the ledger, if that can be read, to be confirmed. */
  lemma StartOnL2(a: Agent, id: TxId, r: Record, net: Net, now: int)
    ensures Does(L2, a, StartPlan(L2, Read(id, r), net.ledgerSeq), net, now, [],
                 match net.ledgerSeq
                 case None => a
                 case Some(n) => SaveAt(a, StartTable, Read(id, r).(confirmSeq := n), now))
  {
    match net.ledgerSeq {
      case None => DoesNothing(L2, a, net, now);
      case Some(n) =>
        var i := Read(id, r).(confirmSeq := n);
        RunSave(L2, a, StartTable, i, [], net, now);
        assert Save(StartTable, i) + [] == Save(StartTable, i);
        DoesNothing(L2, SaveAt(a, StartTable, i, now), net, now);
    }
  }

  /** A success on the source: the payout goes to the destination, and the row of the ack goes if it was taken. */
  lemma AckExecuted(source: Layer, a: Agent, id: TxId, r: Record, net: Net, now: int, result: nat, text: string)
    requires Words(source, r.status, result, text)
    ensures var plan := AckedEventPlan(Read(id, r));
      var call := Call.SendAckedTx(id, result, text, Clamp(r.executeTimestamp));
      Does(source, a, plan, net, now, [Sent(Other(source), call, net.submit(call).Some?)],
           match net.submit(call)
           case None => a
           case Some(h) => ClearAt(SaveAt(a, ReplyTable, Read(id, r).(replyHash := h), now), AckTable, id, now))
  {
    AckCall(source, Read(id, r), result, text);
    DoesSubmitClear(source, a, SubmitReply(Read(id, r)), AckTable, net, now);
  }
}
