/** A handler that an event or a loop starts in a clean run fits in with the ones under way. */
module CleanStarts {
  import opened Escrow
  import opened Relay
  import opened RelayHandle
  import opened World
  import opened Protocol
  import opened HandOff
  import opened Clean
  import opened Wrappers

  predicate MaySend(job: seq<Cmd>, id: TxId) {
    Marked(TxMark(id), job) || Marked(BegunMark(id), job)
  }

  predicate NacksIn(job: seq<Cmd>, id: TxId) {
    exists c :: c in job && Nacks(c, id)
  }

  /** What a new handler must respect at one id. */
  ghost predicate FitsAt(s: System, d: Layer, job: seq<Cmd>, handled: set<TxId>, id: TxId) {
    && (MaySend(job, id) || Holds(job, id) ==> id !in At(s.past, d).sent)
    && (Marked(BegunMark(id), job) ==>
          && Key(StartTable, id) !in At(s.tables, d).mem
          && !SomeMarked(At(s.jobs, d), TxMark(id)) && !Marked(TxMark(id), job))
    && (Marked(TxMark(id), job) ==> !SomeMarked(At(s.jobs, d), BegunMark(id)))
    && (NacksIn(job, id) ==> !Opened(s.chain, d, id) && Closed(s, d, id) && !MaySend(job, id))
    && (MaySend(job, id) && Nacking(s, d, id) ==> Waiting(s, d, id))
    && (MaySend(job, id) || NacksIn(job, id) ==> id in handled)
  }

  ghost predicate Fits(s: System, d: Layer, job: seq<Cmd>, handled: set<TxId>) {
    && WellShaped(d, job)
    && (forall c :: c in job && (c.DbPut? || c.MapEmplace?) ==> c.table != SendTable)
    && (forall m :: Marked(m, job) ==> !SomeMarked(At(s.jobs, d), m))
    && (forall id :: FitsAt(s, d, job, handled, id))
  }

  ghost predicate StartStep(s: System, s': System, d: Layer, job: seq<Cmd>, handled: set<TxId>) {
    && s'.chain == s.chain && s'.tables == s.tables && s'.pending == s.pending
    && s'.receipts == s.receipts && s'.time == s.time
    && s'.jobs == Put(s.jobs, d, At(s.jobs, d) + multiset{job})
    && s'.past == Put(s.past, d, At(s.past, d).(handled := handled)) && At(s.past, d).handled <= handled
  }

  lemma AddedMembers(jobs: Jobs, job: seq<Cmd>)
    ensures forall j :: j in jobs + multiset{job} <==> j in jobs || j == job
  {
  }

  lemma AddedMarks(jobs: Jobs, job: seq<Cmd>)
    requires forall m :: Unique(jobs, m) && (Marked(m, job) ==> !SomeMarked(jobs, m))
    ensures forall m ::
      && Unique(jobs + multiset{job}, m)
      && (SomeMarked(jobs + multiset{job}, m) <==> SomeMarked(jobs, m) || Marked(m, job))
  {
    forall m
      ensures Unique(jobs + multiset{job}, m)
      ensures SomeMarked(jobs + multiset{job}, m) <==> SomeMarked(jobs, m) || Marked(m, job)
    {
      UniqueAdded(jobs, job, m);
    }
  }

  lemma AddedRest(jobs: Jobs, job: seq<Cmd>, id: TxId)
    ensures SomeHolds(jobs + multiset{job}, id) ==> SomeHolds(jobs, id) || Holds(job, id)
    ensures SomeErases(jobs, id) ==> SomeErases(jobs + multiset{job}, id)
    ensures SomeNacks(jobs + multiset{job}, id) ==> SomeNacks(jobs, id) || NacksIn(job, id)
  {
    AddedMembers(jobs, job);
  }

  lemma StartWaiting(s: System, s': System, d: Layer, job: seq<Cmd>, handled: set<TxId>, id: TxId)
    requires StartStep(s, s', d, job, handled) && CleanDir(s, d) && Fits(s, d, job, handled)
    ensures Waiting(s', d, id) <==> Waiting(s, d, id) || MaySend(job, id)
  {
    AddedMarks(At(s.jobs, d), job);
  }

  lemma StartSentOnce(s: System, s': System, d: Layer, job: seq<Cmd>, handled: set<TxId>, id: TxId)
    requires StartStep(s, s', d, job, handled) && CleanDir(s, d) && Fits(s, d, job, handled)
    ensures SentOnce(s', d, id)
  {
    assert CleanAt(s, d, id) && FitsAt(s, d, job, handled, id);
    AddedMarks(At(s.jobs, d), job);
    AddedRest(At(s.jobs, d), job, id);
  }

  lemma StartAt(s: System, s': System, d: Layer, job: seq<Cmd>, handled: set<TxId>, id: TxId)
    requires StartStep(s, s', d, job, handled) && CleanDir(s, d) && Fits(s, d, job, handled)
    ensures CleanAt(s', d, id)
  {
    assert CleanAt(s, d, id) && FitsAt(s, d, job, handled, id);
    StartSentOnce(s, s', d, job, handled, id);
    StartWaiting(s, s', d, job, handled, id);
    AddedRest(At(s.jobs, d), job, id);
  }

  lemma StartJobs(s: System, s': System, d: Layer, job: seq<Cmd>, handled: set<TxId>)
    requires StartStep(s, s', d, job, handled) && CleanDir(s, d) && Fits(s, d, job, handled)
    ensures CleanJobs(s', d)
  {
    AddedMarks(At(s.jobs, d), job);
    AddedMembers(At(s.jobs, d), job);
  }

  lemma StartClean(s: System, s': System, d: Layer, job: seq<Cmd>, handled: set<TxId>, e: Layer)
    requires StartStep(s, s', d, job, handled) && CleanDir(s, d) && Fits(s, d, job, handled) && CleanDir(s, e)
    ensures CleanDir(s', e)
  {
    if e == d {
      StartJobs(s, s', d, job, handled);
      forall id ensures CleanAt(s', d, id) { StartAt(s, s', d, job, handled, id); }
    } else {
      SameClean(s, s', e);
    }
  }

  /** A relay that nothing has happened to stays clean. */
  lemma SameClean(s: System, s': System, e: Layer)
    requires CleanDir(s, e)
    requires s'.chain == s.chain && s'.tables == s.tables && s'.pending == s.pending
    requires s'.receipts == s.receipts && s'.time == s.time
    requires At(s'.jobs, e) == At(s.jobs, e) && At(s'.past, e) == At(s.past, e)
    ensures CleanDir(s', e)
  {
    forall id ensures CleanAt(s', e, id) { assert CleanAt(s, e, id); }
  }

  // ---------- Events ----------

  /** A handler that neither sends a transfer, nor refuses one, nor touches the start table. */
  predicate Plain(c: Cmd) {
    && !c.SubmitTx?
    && (c.SubmitAck? ==> c.info.status == ACK_SUCCESS)
    && (c.DbPut? || c.MapEmplace? ==> c.table != StartTable && c.table != SendTable)
    && (c.MapErase? ==> c.table != StartTable)
  }

  lemma PlainFits(s: System, d: Layer, job: seq<Cmd>)
    requires Simple(job) && forall c :: c in job ==> Plain(c)
    ensures Fits(s, d, job, At(s.past, d).handled)
  {
    assert forall m :: !Marked(m, job);
  }

  /** A start seen for the first time meets nothing that could already have sent the transfer. */
  lemma FreshStartFits(s: System, d: Layer, i: Info, ledgerSeq: Option<int>)
    requires CleanDir(s, d) && i.id !in At(s.past, d).handled
    ensures Fits(s, d, StartPlan(d, i, ledgerSeq), At(s.past, d).handled + {i.id})
  {
    assert CleanAt(s, d, i.id);
    var job := StartPlan(d, i, ledgerSeq);
    forall m | Marked(m, job) ensures !SomeMarked(At(s.jobs, d), m) {
      assert m == TxMark(i.id) || m == BegunMark(i.id);
    }
    forall id ensures FitsAt(s, d, job, At(s.past, d).handled + {i.id}, id) {
      assert id != i.id ==> !MaySend(job, id);
    }
  }

  /** The ids whose start has been handled once the event has been. */
  function HandledWith(p: Past, event: Event): set<TxId> {
    if event.StartTxEvent? then p.handled + {event.id} else p.handled
  }

  lemma SuccessFits(s: System, d: Layer, c: Cmd, t: Table)
    requires Submits(c) && Plain(c) && t != StartTable
    ensures Fits(s, d, [c] + Clear(t, c.info.id), At(s.past, d).handled)
  {
    PlainFits(s, d, [c] + Clear(t, c.info.id));
  }

  lemma OtherEventFits(s: System, d: Layer, layer: Layer, event: Event, r: Record, ledgerSeq: Option<int>)
    requires !event.StartTxEvent?
    ensures Fits(s, d, DeliverPlan(layer, event, r, ledgerSeq), At(s.past, d).handled)
  {
    match event {
      case SendTxEvent(id) => SuccessFits(s, d, SubmitAck(Read(id, r).(status := ACK_SUCCESS)), SendTable);
      case SendAckedTxEvent(id) => SuccessFits(s, d, SubmitReply(Read(id, r)), AckTable);
      case RefundEvent(_) => PlainFits(s, d, []);
    }
  }

  lemma DeliverFits(s: System, d: Layer, layer: Layer, event: Event, r: Record, ledgerSeq: Option<int>)
    requires CleanDir(s, d) && d == Route(layer, event)
    requires event.StartTxEvent? ==> event.id !in At(s.past, d).handled
    ensures Fits(s, d, DeliverPlan(layer, event, r, ledgerSeq), HandledWith(At(s.past, d), event))
  {
    if event.StartTxEvent? { FreshStartFits(s, d, Read(event.id, r), ledgerSeq); }
    else { OtherEventFits(s, d, layer, event, r, ledgerSeq); }
  }

  lemma DeliverStep(s: System, layer: Layer, event: Event, ledgerSeq: Option<int>)
    requires event.id in At(s.chain, layer).records
    ensures var d := Route(layer, event);
      StartStep(s, DoDeliver(s, layer, event, ledgerSeq), d,
                DeliverPlan(layer, event, At(s.chain, layer).records[event.id], ledgerSeq),
                HandledWith(At(s.past, d), event))
  {
  }

  lemma DeliverClean(s: System, layer: Layer, event: Event, ledgerSeq: Option<int>, e: Layer)
    requires Enabled(s, Deliver(layer, event, ledgerSeq)) && CleanAction(s, Deliver(layer, event, ledgerSeq))
    requires forall d :: CleanDir(s, d)
    ensures CleanDir(DoDeliver(s, layer, event, ledgerSeq), e)
  {
    var d := Route(layer, event);
    var r := At(s.chain, layer).records[event.id];
    DeliverFits(s, d, layer, event, r, ledgerSeq);
    DeliverStep(s, layer, event, ledgerSeq);
    var plan, handled := DeliverPlan(layer, event, r, ledgerSeq), HandledWith(At(s.past, d), event);
    StartClean(s, DoDeliver(s, layer, event, ledgerSeq), d, plan, handled, e);
  }

  // ---------- Loops ----------

  /** Erasing a start row, and sending a transfer from L2, is done under the lock of the start table. */
  lemma ErasesInSection(job: seq<Cmd>, id: TxId)
    ensures MapErase(StartTable, id) in job ==> Marked(SectionMark, job)
    ensures WellShaped(L2, job) && Marked(TxMark(id), job) ==> Marked(SectionMark, job)
  {
    assert CmdMarked(SectionMark, MapErase(StartTable, id));
  }

  /**
    A row of the start table while no handler has the lock: its transfer has not been sent and nobody else is
    about to.
  */
  lemma StartRowFree(s: System, id: TxId)
    requires CleanDir(s, L2) && !SomeMarked(At(s.jobs, L2), SectionMark) && Key(StartTable, id) in At(s.tables, L2).mem
    ensures id !in At(s.past, L2).sent && !Opened(s.chain, L2, id) && id in At(s.past, L2).handled
    ensures !SomeMarked(At(s.jobs, L2), TxMark(id)) && !SomeMarked(At(s.jobs, L2), BegunMark(id))
  {
    assert CleanAt(s, L2, id);
    forall job | job in At(s.jobs, L2) ensures MapErase(StartTable, id) !in job && !Marked(TxMark(id), job) {
      ErasesInSection(job, id);
    }
  }

  /** A row whose timeout has passed. */
  lemma RowOutOfTime(s: System, d: Layer, i: Info)
    requires InfoOk(s.chain, d, i) && i.timeout < s.time.agent
    ensures OutOfTime(s, d, i.id)
  {
  }

  /** What follows a submission that refuses a transfer. */
  predicate RefusalTail(clears: seq<Cmd>, id: TxId) {
    clears == [] || clears == Clear(StartTable, id) || clears == Clear(SendTable, id) || clears == [Rearm(AckTable, id)]
  }

  lemma RefusalShape(d: Layer, c: Cmd, clears: seq<Cmd>)
    requires c.SubmitAck? && RefusalTail(clears, c.info.id) && (clears == Clear(StartTable, c.info.id) ==> d == L2)
    ensures WellShaped(d, [c] + clears)
  {
    hide WellShaped;
    if clears == [] || clears == [Rearm(AckTable, c.info.id)] { ShortShape(d, c, clears); }
    else { ClearShape(d, c, clears); }
  }

  lemma ShortShape(d: Layer, c: Cmd, clears: seq<Cmd>)
    requires c.SubmitAck? && (clears == [] || clears == [Rearm(AckTable, c.info.id)])
    ensures WellShaped(d, [c] + clears)
  {
    if clears == [] {}
  }

  lemma ClearShape(d: Layer, c: Cmd, clears: seq<Cmd>)
    requires c.SubmitAck? && (clears == Clear(StartTable, c.info.id) ==> d == L2)
    requires clears == Clear(SendTable, c.info.id) || clears == Clear(StartTable, c.info.id)
    ensures WellShaped(d, [c] + clears)
  {
    if clears == Clear(SendTable, c.info.id) {}
  }

  lemma RefusalMarks(c: Cmd, clears: seq<Cmd>)
    requires c.SubmitAck? && RefusalTail(clears, c.info.id)
    ensures forall m :: Marked(m, [c] + clears) ==> m == SectionMark && clears == Clear(StartTable, c.info.id)
    ensures forall id :: !MaySend([c] + clears, id) && (NacksIn([c] + clears, id) ==> id == c.info.id)
    ensures forall id :: Holds([c] + clears, id) ==> id == c.info.id && clears == Clear(StartTable, c.info.id)
    ensures forall b :: b in [c] + clears ==> !b.DbPut? && !b.MapEmplace?
  {
  }

  /** A refusal of a transfer that was never opened and cannot be sent any more. */
  lemma RefusalFits(s: System, d: Layer, c: Cmd, clears: seq<Cmd>)
    requires c.SubmitAck? && c.info.status != ACK_SUCCESS && RefusalTail(clears, c.info.id)
    requires !Opened(s.chain, d, c.info.id) && Closed(s, d, c.info.id) && c.info.id in At(s.past, d).handled
    requires clears == Clear(StartTable, c.info.id) ==>
               d == L2 && c.info.id !in At(s.past, d).sent && !SomeMarked(At(s.jobs, d), SectionMark)
    ensures Fits(s, d, [c] + clears, At(s.past, d).handled)
  {
    RefusalShape(d, c, clears);
    RefusalMarks(c, clears);
  }

  lemma ConfirmedFits(s: System, i: Info)
    requires CleanDir(s, L2) && !SomeMarked(At(s.jobs, L2), SectionMark)
    requires Key(StartTable, i.id) in At(s.tables, L2).mem
    ensures Fits(s, L2, [SubmitTx(i, false)] + Clear(StartTable, i.id), At(s.past, L2).handled)
  {
    StartRowFree(s, i.id);
    var job := [SubmitTx(i, false)] + Clear(StartTable, i.id);
    assert MapErase(StartTable, i.id) in job;
    forall m | Marked(m, job) ensures !SomeMarked(At(s.jobs, L2), m) {
      assert m == SectionMark || m == TxMark(i.id);
    }
    forall id ensures FitsAt(s, L2, job, At(s.past, L2).handled, id) {
      if id != i.id { assert !MaySend(job, id) && !Holds(job, id); }
    }
  }

  lemma ConfirmFits(s: System, e: Entry, confirmSeq: int)
    requires CleanDir(s, L2) && !SomeMarked(At(s.jobs, L2), SectionMark)
    requires Key(StartTable, e.info.id) in At(s.tables, L2).mem
    requires InfoOk(s.chain, L2, e.info)
    ensures Fits(s, L2, ConfirmPlan(e, confirmSeq, s.time.agent), At(s.past, L2).handled)
  {
    StartRowFree(s, e.info.id);
    if e.info.confirmSeq > confirmSeq {
      PlainFits(s, L2, []);
    } else if e.info.timeout < s.time.agent {
      RowOutOfTime(s, L2, e.info);
      var c := SubmitAck(e.info.(status := ACK_TIMEOUT));
      assert [c] + [] == [c];
      RefusalFits(s, L2, c, []);
    } else {
      ConfirmedFits(s, e.info);
    }
  }

  lemma StartTimeoutFits(s: System, e: Entry)
    requires CleanDir(s, L2) && !SomeMarked(At(s.jobs, L2), SectionMark)
    requires Key(StartTable, e.info.id) in At(s.tables, L2).mem
    requires InfoOk(s.chain, L2, e.info)
    ensures Fits(s, L2, StartTimeoutPlan(e, s.time.agent), At(s.past, L2).handled)
  {
    StartRowFree(s, e.info.id);
    if e.info.timeout >= s.time.agent {
      PlainFits(s, L2, []);
    } else {
      RowOutOfTime(s, L2, e.info);
      RefusalFits(s, L2, SubmitAck(e.info.(status := ACK_FAIL)), Clear(StartTable, e.info.id));
    }
  }

  lemma SendTimeoutFits(s: System, d: Layer, e: Entry, receipt: bool, read: Option<Info>)
    requires CleanDir(s, d) && SendRow(At(s.past, d), e.info) && (receipt <==> e.info.sendHash in s.receipts)
    requires InfoOk(s.chain, d, e.info)
    ensures Fits(s, d, SendTimeoutPlan(e, s.time.agent, receipt, read), At(s.past, d).handled)
  {
    assert CleanAt(s, d, e.info.id);
    hide CleanJobs, CleanPending, FitsAt;
    if e.info.timeout < s.time.agent && !receipt {
      RowOutOfTime(s, d, e.info);
      RefusalFits(s, d, SubmitAck(e.info.(status := ACK_TIMEOUT)), Clear(SendTable, e.info.id));
    } else {
      PlainFits(s, d, SendTimeoutPlan(e, s.time.agent, receipt, read));
    }
  }

  lemma AckTimeoutFits(s: System, d: Layer, e: Entry, receipt: bool, status: Status)
    requires CleanDir(s, d) && Stamped(s, d, AckTable, e.info)
    ensures Fits(s, d, AckTimeoutPlan(e, s.time.agent, receipt, status), At(s.past, d).handled)
  {
    assert CleanAt(s, d, e.info.id);
    var plan := AckTimeoutPlan(e, s.time.agent, receipt, status);
    if plan == [SubmitAck(e.info), Rearm(AckTable, e.info.id)] && e.info.status != ACK_SUCCESS {
      assert plan == [SubmitAck(e.info)] + [Rearm(AckTable, e.info.id)];
      RefusalFits(s, d, SubmitAck(e.info), [Rearm(AckTable, e.info.id)]);
    } else {
      PlainFits(s, d, plan);
    }
  }

  lemma ReplyTimeoutFits(s: System, d: Layer, e: Entry, receipt: bool, status: Status)
    ensures Fits(s, d, ReplyTimeoutPlan(e, s.time.agent, receipt, status), At(s.past, d).handled)
  {
    PlainFits(s, d, ReplyTimeoutPlan(e, s.time.agent, receipt, status));
  }

  lemma VisitFits(s: System, a: Action)
    requires HandOffInv(s) && a.Visit? && Enabled(s, a) && CleanAction(s, a) && CleanDir(s, a.d)
    ensures Fits(s, a.d, VisitPlan(s, a), At(s.past, a.d).handled)
  {
    assert Ordered(s, a.d) && AgentOk(s, a.d);
    var e := At(s.tables, a.d).mem[Key(SweptTable(a.sweep), a.id)];
    assert e.info.id == a.id && RowOk(s.chain, a.d, SweptTable(a.sweep), e.info);
    assert Stamped(s, a.d, SweptTable(a.sweep), e.info);
    match a.sweep {
      case ConfirmSweep(confirmSeq) => ConfirmFits(s, e, confirmSeq);
      case StartSweep => StartTimeoutFits(s, e);
      case SendSweep => SendTimeoutFits(s, a.d, e, a.receipt, ReadAt(a.id, VisitNet(s, a).readDest(a.id)));
      case AckSweep => AckTimeoutFits(s, a.d, e, a.receipt, a.status);
      case ReplySweep => ReplyTimeoutFits(s, a.d, e, a.receipt, a.status);
    }
  }

  lemma VisitStep(s: System, a: Action)
    requires a.Visit? && Enabled(s, a)
    ensures StartStep(s, Do(s, a), a.d, VisitPlan(s, a), At(s.past, a.d).handled)
  {
    assert At(s.past, a.d).(handled := At(s.past, a.d).handled) == At(s.past, a.d);
  }

  lemma VisitClean(s: System, a: Action, e: Layer)
    requires HandOffInv(s) && a.Visit? && Enabled(s, a) && CleanAction(s, a) && forall d :: CleanDir(s, d)
    ensures CleanDir(Do(s, a), e)
  {
    VisitFits(s, a);
    VisitStep(s, a);
    StartClean(s, Do(s, a), a.d, VisitPlan(s, a), At(s.past, a.d).handled, e);
  }
}
