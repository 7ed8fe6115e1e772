/**
  The two relay handlers as one class; `source` says whose transfers an instance relays.  Every
  handler is proved to carry out its plan of module Relay: the same table changes and the same
  calls, in the same order.
*/
module RelayHandle {
  import opened Answers
  import opened Escrow
  import opened Relay
  import opened Sequences
  import opened Wrappers

  /** The loops over a table: the confirmation loop and the four timeout loops. */
  datatype Sweep = ConfirmSweep(confirmSeq: int) | StartSweep | SendSweep | AckSweep | ReplySweep

  function SweptTable(s: Sweep): Table {
    match s
    case ConfirmSweep(_) => StartTable
    case StartSweep => StartTable
    case SendSweep => SendTable
    case AckSweep => AckTable
    case ReplySweep => ReplyTable
  }

  function ReadAt(id: TxId, r: Option<Record>): Option<Info> {
    match r case None => None case Some(rec) => Some(Read(id, rec))
  }

  /** What a sweep does for one id, given the rows as the sweep finds them. */
  function SweepPlan(s: Sweep, a: Agent, id: TxId, net: Net, now: int): seq<Cmd> {
    if Key(SweptTable(s), id) !in a.mem then []
    else
      var e := a.mem[Key(SweptTable(s), id)];
      match s
      case ConfirmSweep(confirmSeq) => ConfirmPlan(e, confirmSeq, now)
      case StartSweep => StartTimeoutPlan(e, now)
      case SendSweep => SendTimeoutPlan(e, now, net.receipt(e.info.sendHash), ReadAt(id, net.readDest(id)))
      case AckSweep => AckTimeoutPlan(e, now, net.receipt(e.info.ackHash), net.status(id))
      case ReplySweep => ReplyTimeoutPlan(e, now, net.receipt(e.info.replyHash), net.status(id))
  }

  lemma SweepPlanShape(s: Sweep, a: Agent, id: TxId, net: Net, now: int)
    requires InStep(a)
    ensures About(SweepPlan(s, a, id, net, now), id) && Paired(SweepPlan(s, a, id, net, now))
  {
  }

  lemma SweepPlanSame(s: Sweep, a: Agent, b: Agent, id: TxId, net: Net, now: int)
    requires SameAt(a, b, id)
    ensures SweepPlan(s, a, id, net, now) == SweepPlan(s, b, id, net, now)
  {
  }

  lemma SameAtTransitive(a: Agent, b: Agent, c: Agent, id: TxId)
    requires SameAt(a, b, id) && SameAt(b, c, id)
    ensures SameAt(a, c, id)
  {
  }

  /** The calls submitted for one id, in order. */
  function SentFor(log: seq<Sent>, id: TxId): seq<Sent> {
    if log == [] then []
    else (if log[0].call.id == id then [log[0]] else []) + SentFor(log[1..], id)
  }

  lemma {:induction false} SentForAppend(a: seq<Sent>, b: seq<Sent>, id: TxId)
    ensures SentFor(a + b, id) == SentFor(a, id) + SentFor(b, id)
  {
    if a == [] {
      assert a + b == b;
    } else {
      assert (a + b)[0] == a[0] && (a + b)[1..] == a[1..] + b;
      SentForAppend(a[1..], b, id);
      Behind(if a[0].call.id == id then [a[0]] else [], SentFor(a[1..], id), SentFor(b, id));
    }
  }

  lemma {:induction false} SentForAll(log: seq<Sent>, owner: TxId, id: TxId)
    requires forall s :: s in log ==> s.call.id == owner
    ensures SentFor(log, id) == if id == owner then log else []
  {
    if log != [] {
      assert log[0] in log;
      SentForAll(log[1..], owner, id);
    }
  }

  /** At one id the tables and the calls are those of running `plan` from `before`. */
  ghost predicate Ran(source: Layer, before: Agent, sentBefore: seq<Sent>, after: Agent, sentAfter: seq<Sent>,
                      plan: seq<Cmd>, id: TxId, net: Net, now: int)
  {
    && SameAt(after, Run(source, before, plan, net, now), id)
    && SentFor(sentAfter, id) == SentFor(sentBefore, id) + Calls(source, plan, net)
  }

  function PlanIf(visited: set<TxId>, s: Sweep, a: Agent, id: TxId, net: Net, now: int): seq<Cmd> {
    if id in visited then SweepPlan(s, a, id, net, now) else []
  }

  /**
    A sweep, as far as the given ids have been visited: at those ids the plan has run, at the others nothing
    changed.
  */
  ghost predicate Swept(s: Sweep, source: Layer, before: Agent, sentBefore: seq<Sent>, after: Agent,
                        sentAfter: seq<Sent>,
                        visited: set<TxId>, net: Net, now: int)
  {
    forall id ::
      Ran(source, before, sentBefore, after, sentAfter, PlanIf(visited, s, before, id, net, now), id, net, now)
  }

  lemma SweptStart(s: Sweep, source: Layer, a: Agent, sent: seq<Sent>, net: Net, now: int)
    ensures Swept(s, source, a, sent, a, sent, {}, net, now)
  {
  }

  lemma RunNothing(source: Layer, a: Agent, net: Net, now: int)
    ensures Run(source, a, [], net, now) == a && Calls(source, [], net) == []
  {
  }

  lemma SentHere(source: Layer, sentBefore: seq<Sent>, sent: seq<Sent>, plan: seq<Cmd>, id: TxId, net: Net)
    requires SentFor(sent, id) == SentFor(sentBefore, id) && About(plan, id)
    ensures SentFor(sent + Calls(source, plan, net), id) == SentFor(sentBefore, id) + Calls(source, plan, net)
  {
    CallsAbout(source, plan, net, id);
    SentForAppend(sent, Calls(source, plan, net), id);
    SentForAll(Calls(source, plan, net), id, id);
  }

  lemma RanHere(source: Layer, before: Agent, sentBefore: seq<Sent>, a: Agent, sent: seq<Sent>,
                plan: seq<Cmd>, id: TxId, net: Net, now: int)
    requires Ran(source, before, sentBefore, a, sent, [], id, net, now)
    requires About(plan, id)
    ensures Ran(source, before, sentBefore, Run(source, a, plan, net, now), sent + Calls(source, plan, net),
                plan, id, net, now)
  {
    RunNothing(source, before, net, now);
    assert SentFor(sent, id) == SentFor(sentBefore, id);
    SentHere(source, sentBefore, sent, plan, id, net);
    RunThere(source, a, before, plan, net, now, id);
  }

  lemma RanElsewhere(source: Layer, before: Agent, sentBefore: seq<Sent>, a: Agent, sent: seq<Sent>,
                     done: seq<Cmd>, other: TxId, plan: seq<Cmd>, id: TxId, net: Net, now: int)
    requires Ran(source, before, sentBefore, a, sent, done, other, net, now)
    requires About(plan, id) && other != id
    ensures Ran(source, before, sentBefore, Run(source, a, plan, net, now), sent + Calls(source, plan, net),
                done, other, net, now)
  {
    RunElsewhere(source, a, plan, net, now, id, other);
    SameAtTransitive(Run(source, a, plan, net, now), a, Run(source, before, done, net, now), other);
    CallsAbout(source, plan, net, id);
    SentForAppend(sent, Calls(source, plan, net), other);
    SentForAll(Calls(source, plan, net), id, other);
  }

  lemma SweptOne(s: Sweep, source: Layer, before: Agent, sentBefore: seq<Sent>, a: Agent, sent: seq<Sent>,
                 visited: set<TxId>, id: TxId, net: Net, now: int)
    requires InStep(before) && InStep(a) && id !in visited
    requires Swept(s, source, before, sentBefore, a, sent, visited, net, now)
    ensures var plan := SweepPlan(s, a, id, net, now);
      Swept(s, source, before, sentBefore, Run(source, a, plan, net, now), sent + Calls(source, plan, net),
            visited + {id}, net, now)
  {
    var plan := SweepPlan(s, a, id, net, now);
    SweepPlanShape(s, a, id, net, now);
    assert Ran(source, before, sentBefore, a, sent, PlanIf(visited, s, before, id, net, now), id, net, now);
    SweepPlanSame(s, a, before, id, net, now);
    var a', sent' := Run(source, a, plan, net, now), sent + Calls(source, plan, net);
    forall other
      ensures Ran(source, before, sentBefore, a', sent', PlanIf(visited + {id}, s, before, other, net, now),
                  other, net, now)
    {
      if other == id {
        RanHere(source, before, sentBefore, a, sent, plan, id, net, now);
      } else {
        var done := PlanIf(visited, s, before, other, net, now);
        assert Ran(source, before, sentBefore, a, sent, done, other, net, now);
        RanElsewhere(source, before, sentBefore, a, sent, done, other, plan, id, net, now);
      }
    }
  }

  /** What one turn of a loop submits, for the row it finds. */
  lemma VisitAnswers(s: Sweep, source: Layer, a: Agent, id: TxId, net: Net, now: int)
    requires Key(SweptTable(s), id) in a.mem && a.mem[Key(SweptTable(s), id)].info.id == id
    ensures var e := a.mem[Key(SweptTable(s), id)];
      var i, text := e.info, if source == L1 then "success" else "";
      var send := Call.SendTx(id, i.srcBid, i.destBid, i.amount, i.timeout);
      var failed := Call.SendAckedTx(id, 2, "send tx failed", i.executeTimestamp);
      var timedOut := Call.SendAckedTx(id, 3, "send tx failed", i.executeTimestamp);
      var again := Call.SendAckedTx(id, Code(i.status), Description(source, i), i.executeTimestamp);
      Calls(source, SweepPlan(s, a, id, net, now), net) == match s
        case ConfirmSweep(confirmSeq) =>
          if i.confirmSeq > confirmSeq then []
          else if i.timeout < now then [Sent(source, timedOut, net.submit(timedOut).Some?)]
          else [Sent(Other(source), send, net.submit(send).Some?)]
        case StartSweep =>
          if i.timeout >= now then [] else [Sent(source, failed, net.submit(failed).Some?)]
        case SendSweep =>
          if i.timeout >= now then []
          else if !net.receipt(i.sendHash) then [Sent(source, timedOut, net.submit(timedOut).Some?)]
          else (match net.readDest(id)
                case None => []
                case Some(r) =>
                  var done := Call.SendAckedTx(id, 1, text, Clamp(r.executeTimestamp));
                  [Sent(source, done, net.submit(done).Some?)])
        case AckSweep =>
          if e.ackDeadline >= now then []
          else if i.status != ACK_SUCCESS && (net.receipt(i.ackHash) || net.status(id) != INIT) then []
          else [Sent(source, again, net.submit(again).Some?)]
        case ReplySweep =>
          if e.ackDeadline >= now || net.receipt(i.replyHash) || net.status(id) != INIT then []
          else [Sent(Other(source), again, net.submit(again).Some?)]
  {
    var e := a.mem[Key(SweptTable(s), id)];
    var result, text := Code(e.info.status), Description(source, e.info);
    WordsAre(source, e.info);
    match s {
      case ConfirmSweep(confirmSeq) => ConfirmLoop(source, a, e, confirmSeq, net, now);
      case StartSweep => StartLoop(source, a, e, net, now);
      case SendSweep => SendLoop(source, a, e, net.readDest(id), net, now, if source == L1 then "success" else "");
      case AckSweep => AckLoop(source, a, id, net, now, result, text);
      case ReplySweep => ReplyLoop(source, a, id, net, now, result, text);
    }
  }

  class Handle {
    const source: Layer
    var mem: map<Key, Entry>
    var db: map<Key, Info>
    var outbox: seq<Sent>

    ghost function Tables(): Agent
      reads this
    {
      Agent(mem, db)
    }

    /** Each table in memory holds the same ids as its rows in the database. */
    ghost predicate Valid()
      reads this
    {
      InStep(Tables())
    }

    constructor (source: Layer)
      ensures Valid() && this.source == source && Tables() == Agent(map[], map[]) && outbox == []
    {
      this.source := source;
      mem, db, outbox := map[], map[], [];
    }

    method Save(t: Table, i: Info, now: int)
      modifies this
      ensures Tables() == SaveAt(old(Tables()), t, i, now) && outbox == old(outbox)
    {
      db := db[Key(t, i.id) := i];
      if Key(t, i.id) !in mem {
        mem := mem[Key(t, i.id) := Entry(i, now + ACK_PERIOD)];
      }
    }

    method Clear(t: Table, id: TxId, now: int)
      modifies this
      ensures Tables() == ClearAt(old(Tables()), t, id, now) && outbox == old(outbox)
    {
      db := db - {Key(t, id)};
      mem := mem - {Key(t, id)};
    }

    method RearmRow(t: Table, id: TxId, now: int)
      modifies this
      ensures Tables() == Local(old(Tables()), Rearm(t, id), now) && outbox == old(outbox)
    {
      if Key(t, id) in mem {
        mem := mem[Key(t, id) := mem[Key(t, id)].(ackDeadline := now + ACK_PERIOD)];
      }
    }

    /** Submit a call and, if the node takes it, save the row it stands for. */
    method Submit(c: Cmd, net: Net, now: int) returns (ok: bool)
      requires Submits(c)
      modifies this
      ensures ok <==> net.submit(CallOf(source, c)).Some?
      ensures outbox == old(outbox) + [Sent(TargetOf(source, c), CallOf(source, c), ok)]
      ensures !ok ==> Tables() == old(Tables())
      ensures ok ==> Tables() == SaveAt(old(Tables()),
                if c.SubmitTx? then SendTable else if c.SubmitAck? then AckTable else ReplyTable,
                Saved(c, net.submit(CallOf(source, c)).value)[0].info, now)
    {
      var answer := net.submit(CallOf(source, c));
      outbox := outbox + [Sent(TargetOf(source, c), CallOf(source, c), answer.Some?)];
      match answer {
        case None => return false;
        case Some(h) =>
          match c {
            case SubmitTx(i, _) => Save(SendTable, i.(sendHash := h), now);
            case SubmitAck(i) => Save(AckTable, i.(ackHash := h), now);
            case SubmitReply(i) => Save(ReplyTable, i.(replyHash := h), now);
          }
          return true;
      }
    }

    /** Submit, and clear a row only if the submission was taken. */
    method SubmitThenClear(c: Cmd, t: Table, net: Net, now: int) returns (ok: bool)
      requires Submits(c) && (c.SubmitTx? ==> !c.ackOnFail)
      modifies this
      ensures Tables() == Run(source, old(Tables()), [c] + Relay.Clear(t, c.info.id), net, now)
      ensures outbox == old(outbox) + Calls(source, [c] + Relay.Clear(t, c.info.id), net)
      ensures ok <==> net.submit(CallOf(source, c)).Some?
    {
      RunSubmit(source, Tables(), c, Relay.Clear(t, c.info.id), net, now);
      ok := Submit(c, net, now);
      RunClear(source, Tables(), t, c.info.id, net, now);
      if ok { Clear(t, c.info.id, now); }
    }

    /** Submit once more; whatever comes of it, look again after another period. */
    method Resend(c: Cmd, t: Table, net: Net, now: int)
      requires Submits(c) && (c.SubmitTx? ==> !c.ackOnFail)
      modifies this
      ensures Tables() == Run(source, old(Tables()), [c, Rearm(t, c.info.id)], net, now)
      ensures outbox == old(outbox) + Calls(source, [c, Rearm(t, c.info.id)], net)
    {
      assert [c, Rearm(t, c.info.id)] == [c] + [Rearm(t, c.info.id)];
      RunSubmit(source, Tables(), c, [Rearm(t, c.info.id)], net, now);
      var ok := Submit(c, net, now);
      RearmRow(t, c.info.id, now);
    }

    method HandleStartTxEvent(id: TxId, net: Net, now: int) returns (ok: bool)
      requires Valid()
      modifies this
      ensures Valid()
      ensures ok <==>
        && net.readSource(id).Some?
        && if source == L1 then net.submit(CallOf(L1, SubmitTx(Read(id, net.readSource(id).value), true))).Some?
           else net.ledgerSeq.Some?
      ensures var plan := match net.readSource(id)
                          case None => []
                          case Some(r) => StartPlan(source, Read(id, r), net.ledgerSeq);
        && Tables() == Run(source, old(Tables()), plan, net, now)
        && outbox == old(outbox) + Calls(source, plan, net)
      ensures match net.readSource(id)
        case None => outbox == old(outbox)
        case Some(r) =>
          var send := Call.SendTx(id, r.srcBid, r.destBid, Clamp(r.amount), Clamp(r.timeout));
          var refusal := Call.SendAckedTx(id, 2, "send tx failed", Clamp(r.executeTimestamp));
          outbox == old(outbox) + if source == L2 then [] else if ok then [Sent(L2, send, true)]
                                  else [Sent(L2, send, false), Sent(L1, refusal, net.submit(refusal).Some?)]
    {
      match net.readSource(id) {
        case None => return false;
        case Some(r) =>
          var info := Read(id, r);
          RunInStep(source, Tables(), StartPlan(source, info, net.ledgerSeq), net, now);
          if source == L1 { StartOnL1(Tables(), id, r, net, now); } else { StartOnL2(Tables(), id, r, net, now); }
          if source == L1 {
            var c := SubmitTx(info, true);
            assert [c] + [] == [c];
            RunSubmit(source, Tables(), c, [], net, now);
            ok := Submit(c, net, now);
            if !ok {
              var nack := SubmitAck(info.(status := ACK_FAIL));
              assert [nack] + [] == [nack];
              RunSubmit(source, Tables(), nack, [], net, now);
              var acked := Submit(nack, net, now);
            }
          } else {
            match net.ledgerSeq {
              case None => return false;
              case Some(n) =>
                var i := info.(confirmSeq := n);
                assert Relay.Save(StartTable, i) + [] == Relay.Save(StartTable, i);
                RunSave(source, Tables(), StartTable, i, [], net, now);
                Save(StartTable, i, now);
                return true;
            }
          }
      }
    }

    method HandleSendTxEvent(id: TxId, net: Net, now: int) returns (ok: bool)
      requires Valid()
      modifies this
      ensures Valid()
      ensures ok <==>
        && net.readDest(id).Some?
        && net.submit(CallOf(source, SubmitAck(Read(id, net.readDest(id).value).(status := ACK_SUCCESS)))).Some?
      ensures var plan := match net.readDest(id) case None => [] case Some(r) => SendEventPlan(Read(id, r));
        && Tables() == Run(source, old(Tables()), plan, net, now)
        && outbox == old(outbox) + Calls(source, plan, net)
      ensures match net.readDest(id)
        case None => outbox == old(outbox)
        case Some(r) =>
          var text := if source == L1 then "success" else "";
          outbox == old(outbox) + [Sent(source, Call.SendAckedTx(id, 1, text, Clamp(r.executeTimestamp)), ok)]
    {
      match net.readDest(id) {
        case None => return false;
        case Some(r) =>
          var info := Read(id, r);
          RunInStep(source, Tables(), SendEventPlan(info), net, now);
          SendExecuted(source, Tables(), id, r, net, now, if source == L1 then "success" else "");
          ok := SubmitThenClear(SubmitAck(info.(status := ACK_SUCCESS)), SendTable, net, now);
      }
    }

    method HandleSendAckdTxEvent(id: TxId, net: Net, now: int) returns (ok: bool)
      requires Valid()
      modifies this
      ensures Valid()
      ensures ok <==>
        && net.readSource(id).Some?
        && net.submit(CallOf(source, SubmitReply(Read(id, net.readSource(id).value)))).Some?
      ensures var plan := match net.readSource(id) case None => [] case Some(r) => AckedEventPlan(Read(id, r));
        && Tables() == Run(source, old(Tables()), plan, net, now)
        && outbox == old(outbox) + Calls(source, plan, net)
      ensures match net.readSource(id)
        case None => outbox == old(outbox)
        case Some(r) =>
          var call := Call.SendAckedTx(id, Code(r.status), Description(source, Read(id, r)), Clamp(r.executeTimestamp));
          outbox == old(outbox) + [Sent(Other(source), call, ok)]
    {
      match net.readSource(id) {
        case None => return false;
        case Some(r) =>
          var info := Read(id, r);
          RunInStep(source, Tables(), AckedEventPlan(info), net, now);
          WordsAre(source, info);
          AckExecuted(source, Tables(), id, r, net, now, Code(r.status), Description(source, info));
          ok := SubmitThenClear(SubmitReply(info), AckTable, net, now);
      }
    }

    /** One turn of a table loop. */
    method Visit(s: Sweep, id: TxId, net: Net, now: int)
      requires Valid()
      modifies this
      ensures Valid()
      ensures Tables() == Run(source, old(Tables()), SweepPlan(s, old(Tables()), id, net, now), net, now)
      ensures outbox == old(outbox) + Calls(source, SweepPlan(s, old(Tables()), id, net, now), net)
      ensures Key(SweptTable(s), id) !in old(mem) ==> outbox == old(outbox)
      ensures Key(SweptTable(s), id) in old(mem) ==>
        var e := old(mem)[Key(SweptTable(s), id)];
        var i, text := e.info, if source == L1 then "success" else "";
        var send := Call.SendTx(id, i.srcBid, i.destBid, i.amount, i.timeout);
        var failed := Call.SendAckedTx(id, 2, "send tx failed", i.executeTimestamp);
        var timedOut := Call.SendAckedTx(id, 3, "send tx failed", i.executeTimestamp);
        var again := Call.SendAckedTx(id, Code(i.status), Description(source, i), i.executeTimestamp);
        outbox == old(outbox) + match s
          case ConfirmSweep(confirmSeq) =>
            if i.confirmSeq > confirmSeq then []
            else if i.timeout < now then [Sent(source, timedOut, net.submit(timedOut).Some?)]
            else [Sent(Other(source), send, net.submit(send).Some?)]
          case StartSweep =>
            if i.timeout >= now then [] else [Sent(source, failed, net.submit(failed).Some?)]
          case SendSweep =>
            if i.timeout >= now then []
            else if !net.receipt(i.sendHash) then [Sent(source, timedOut, net.submit(timedOut).Some?)]
            else (match net.readDest(id)
                  case None => []
                  case Some(r) =>
                    var done := Call.SendAckedTx(id, 1, text, Clamp(r.executeTimestamp));
                    [Sent(source, done, net.submit(done).Some?)])
          case AckSweep =>
            if e.ackDeadline >= now then []
            else if i.status != ACK_SUCCESS && (net.receipt(i.ackHash) || net.status(id) != INIT) then []
            else [Sent(source, again, net.submit(again).Some?)]
          case ReplySweep =>
            if e.ackDeadline >= now || net.receipt(i.replyHash) || net.status(id) != INIT then []
            else [Sent(Other(source), again, net.submit(again).Some?)]
    {
      SweepPlanShape(s, Tables(), id, net, now);
      RunInStep(source, Tables(), SweepPlan(s, Tables(), id, net, now), net, now);
      RunNothing(source, Tables(), net, now);
      if Key(SweptTable(s), id) !in mem { return; }
      var e := mem[Key(SweptTable(s), id)];
      VisitAnswers(s, source, Tables(), id, net, now);
      match s {
        case ConfirmSweep(confirmSeq) => VisitConfirm(e, confirmSeq, net, now);
        case StartSweep =>
          if e.info.timeout < now {
            var ok := SubmitThenClear(SubmitAck(e.info.(status := ACK_FAIL)), StartTable, net, now);
          }
        case SendSweep => VisitSend(e, net, now);
        case AckSweep => VisitAck(e, net, now);
        case ReplySweep => VisitReply(e, net, now);
      }
    }

    method VisitConfirm(e: Entry, confirmSeq: int, net: Net, now: int)
      modifies this
      ensures Tables() == Run(source, old(Tables()), ConfirmPlan(e, confirmSeq, now), net, now)
      ensures outbox == old(outbox) + Calls(source, ConfirmPlan(e, confirmSeq, now), net)
    {
      if e.info.confirmSeq <= confirmSeq {
        if e.info.timeout < now {
          var c := SubmitAck(e.info.(status := ACK_TIMEOUT));
          assert [c] + [] == [c];
          RunSubmit(source, Tables(), c, [], net, now);
          var ok := Submit(c, net, now);
        } else {
          var ok := SubmitThenClear(SubmitTx(e.info, false), StartTable, net, now);
        }
      }
    }

    method VisitSend(e: Entry, net: Net, now: int)
      modifies this
      ensures var read := ReadAt(e.info.id, net.readDest(e.info.id));
        var plan := SendTimeoutPlan(e, now, net.receipt(e.info.sendHash), read);
        && Tables() == Run(source, old(Tables()), plan, net, now)
        && outbox == old(outbox) + Calls(source, plan, net)
    {
      if e.info.timeout < now {
        if net.receipt(e.info.sendHash) {
          match net.readDest(e.info.id) {
            case None =>
            case Some(r) =>
              var ok := SubmitThenClear(SubmitAck(Read(e.info.id, r).(status := ACK_SUCCESS)), SendTable, net, now);
          }
        } else {
          var ok := SubmitThenClear(SubmitAck(e.info.(status := ACK_TIMEOUT)), SendTable, net, now);
        }
      }
    }

    method VisitAck(e: Entry, net: Net, now: int)
      modifies this
      ensures var plan := AckTimeoutPlan(e, now, net.receipt(e.info.ackHash), net.status(e.info.id));
        && Tables() == Run(source, old(Tables()), plan, net, now)
        && outbox == old(outbox) + Calls(source, plan, net)
    {
      if e.ackDeadline < now {
        if e.info.status == ACK_SUCCESS {
          Resend(SubmitAck(e.info), AckTable, net, now);
        } else if net.receipt(e.info.ackHash) {
          RunClear(source, Tables(), AckTable, e.info.id, net, now);
          Clear(AckTable, e.info.id, now);
        } else if net.status(e.info.id) != INIT {
          RunClear(source, Tables(), AckTable, e.info.id, net, now);
          Clear(AckTable, e.info.id, now);
        } else {
          Resend(SubmitAck(e.info), AckTable, net, now);
        }
      }
    }

    method VisitReply(e: Entry, net: Net, now: int)
      modifies this
      ensures var plan := ReplyTimeoutPlan(e, now, net.receipt(e.info.replyHash), net.status(e.info.id));
        && Tables() == Run(source, old(Tables()), plan, net, now)
        && outbox == old(outbox) + Calls(source, plan, net)
    {
      if e.ackDeadline < now {
        if net.receipt(e.info.replyHash) {
          RunClear(source, Tables(), ReplyTable, e.info.id, net, now);
          Clear(ReplyTable, e.info.id, now);
        } else if net.status(e.info.id) != INIT {
          RunClear(source, Tables(), ReplyTable, e.info.id, net, now);
          Clear(ReplyTable, e.info.id, now);
        } else {
          Resend(SubmitReply(e.info), ReplyTable, net, now);
        }
      }
    }

    /**
      A whole loop over a table.  The rows are visited in some order, and the loop clears rows of
      the table it runs over; still every id is treated exactly once, by the rows it had when the
      loop started.
    */
    method RunSweep(s: Sweep, net: Net, now: int)
      requires Valid()
      modifies this
      ensures Valid()
      ensures forall id ::
        && SameAt(Tables(), Run(source, old(Tables()), SweepPlan(s, old(Tables()), id, net, now), net, now), id)
        && SentFor(outbox, id)
           == SentFor(old(outbox), id) + Calls(source, SweepPlan(s, old(Tables()), id, net, now), net)
    {
      var keys := set k | k in mem && k.table == SweptTable(s) :: k.id;
      var left := keys;
      ghost var visited: set<TxId> := {};
      SweptStart(s, source, Tables(), outbox, net, now);
      while left != {}
        invariant Valid() && left <= keys && visited == keys - left
        invariant Swept(s, source, old(Tables()), old(outbox), Tables(), outbox, visited, net, now)
        decreases |left|
      {
        var id :| id in left;
        SweptOne(s, source, old(Tables()), old(outbox), Tables(), outbox, visited, id, net, now);
        Visit(s, id, net, now);
        left := left - {id};
        visited := visited + {id};
      }
      forall id ensures
        && SameAt(Tables(), Run(source, old(Tables()), SweepPlan(s, old(Tables()), id, net, now), net, now), id)
        && SentFor(outbox, id)
           == SentFor(old(outbox), id) + Calls(source, SweepPlan(s, old(Tables()), id, net, now), net)
      {
        if id !in keys {
          assert Key(SweptTable(s), id) !in old(mem);
        }
        var plan := PlanIf(visited, s, old(Tables()), id, net, now);
        assert Ran(source, old(Tables()), old(outbox), Tables(), outbox, plan, id, net, now);
      }
    }
  }
}
