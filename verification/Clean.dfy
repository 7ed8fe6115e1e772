/**
  The agent is never out of pocket: in runs without a crash, with one clock, truthful receipts,
  submissions that are included exactly when they are accepted, and every StartTxEvent handled
  once, a destination SendTx that executed is never followed by a failed or timed out source.
*/
module Clean {
  import opened Escrow
  import opened Relay
  import opened RelayHandle
  import opened World
  import opened Protocol
  import opened HandOff
  import opened Wrappers

  // ---------- Marks: what a handler under way may still do ----------

  /** It may submit a SendTx; it may put a transfer in the start table; it holds the start table's lock. */
  datatype Mark = TxMark(id: TxId) | BegunMark(id: TxId) | SectionMark

  predicate CmdMarked(m: Mark, c: Cmd) {
    match m
    case TxMark(id) => c.SubmitTx? && c.info.id == id
    case BegunMark(id) => (c.DbPut? || c.MapEmplace?) && c.table == StartTable && c.info.id == id
    case SectionMark => c.MapErase? && c.table == StartTable
  }

  predicate Marked(m: Mark, job: seq<Cmd>) {
    exists c :: c in job && CmdMarked(m, c)
  }

  ghost predicate SomeMarked(jobs: Jobs, m: Mark) {
    exists job :: job in jobs && Marked(m, job)
  }

  /** At most one handler under way has the mark. */
  ghost predicate Unique(jobs: Jobs, m: Mark) {
    && (forall job :: job in jobs && Marked(m, job) ==> jobs[job] == 1)
    && (forall i, j :: i in jobs && j in jobs && Marked(m, i) && Marked(m, j) ==> i == j)
  }

  ghost predicate SomeErases(jobs: Jobs, id: TxId) {
    exists job :: job in jobs && MapErase(StartTable, id) in job
  }

  predicate Nacks(c: Cmd, id: TxId) {
    c.SubmitAck? && c.info.status != ACK_SUCCESS && c.info.id == id
  }

  ghost predicate SomeNacks(jobs: Jobs, id: TxId) {
    exists job, c :: job in jobs && c in job && Nacks(c, id)
  }

  /** A handler that will clear a start row and has not submitted yet. */
  ghost predicate SomeHolds(jobs: Jobs, id: TxId) {
    exists job :: job in jobs && Holds(job, id)
  }

  predicate Holds(job: seq<Cmd>, id: TxId) {
    job != [] && Submits(job[0]) && MapErase(StartTable, id) in job
  }

  /** A job is about one id and only its first command submits. */
  predicate Simple(job: seq<Cmd>) {
    && (forall n :: 0 < n < |job| ==> !Submits(job[n]))
    && (forall b, c :: b in job && c in job ==> IdOf(b) == IdOf(c))
  }

  /** A start is saved and nothing else. */
  predicate SavesStart(d: Layer, job: seq<Cmd>) {
    (exists c :: c in job && (c.DbPut? || c.MapEmplace?) && c.table == StartTable) ==>
      && d == L2 && 0 < |job| <= 2 && job[|job| - 1].MapEmplace? && job[|job| - 1].table == StartTable
      && (|job| == 2 ==> job[0].DbPut?)
  }

  /** A failed send is acked at once from L1 only; a send from L2 clears its start row. */
  predicate SendsRight(d: Layer, job: seq<Cmd>) {
    forall c :: c in job && c.SubmitTx? ==>
      c.ackOnFail == (d == L1) && (d == L2 ==> MapErase(StartTable, c.info.id) in job)
  }

  predicate WellShaped(d: Layer, job: seq<Cmd>) {
    Simple(job) && SavesStart(d, job) && SendsRight(d, job) && (Marked(SectionMark, job) ==> d == L2)
  }

  // ---------- The invariant ----------

  predicate OneClock(t: Times) {
    t.one == t.two == t.agent
  }

  /** The transfer may still be sent: a handler is about to, or it waits in the start table. */
  ghost predicate Waiting(s: System, d: Layer, id: TxId) {
    || SomeMarked(At(s.jobs, d), TxMark(id))
    || SomeMarked(At(s.jobs, d), BegunMark(id))
    || Key(StartTable, id) in At(s.tables, d).mem
  }

  /** A failure ack is about to be sent, or has been. */
  ghost predicate Nacking(s: System, d: Layer, id: TxId) {
    id in At(s.past, d).nacked || SomeNacks(At(s.jobs, d), id)
  }

  predicate OutOfTime(s: System, d: Layer, id: TxId) {
    Known(s.chain, d, id) && Clamp(SourceRecord(s.chain, d, id).timeout) < s.time.agent
  }

  /** No SendTx of the transfer can execute any more. */
  ghost predicate Closed(s: System, d: Layer, id: TxId) {
    OutOfTime(s, d, id) || (id !in At(s.past, d).sent && !Waiting(s, d, id))
  }

  ghost predicate Handled(s: System, d: Layer, id: TxId) {
    Waiting(s, d, id) || id in At(s.past, d).sent || Nacking(s, d, id) ==> id in At(s.past, d).handled
  }

  ghost predicate SentOnce(s: System, d: Layer, id: TxId) {
    && (SomeMarked(At(s.jobs, d), TxMark(id)) || SomeMarked(At(s.jobs, d), BegunMark(id)) ==> id !in At(s.past, d).sent)
    && (Key(StartTable, id) in At(s.tables, d).mem && !SomeErases(At(s.jobs, d), id) ==> id !in At(s.past, d).sent)
    && (SomeMarked(At(s.jobs, d), BegunMark(id)) ==>
          Key(StartTable, id) !in At(s.tables, d).mem && !SomeMarked(At(s.jobs, d), TxMark(id)))
    && (SomeHolds(At(s.jobs, d), id) ==> id !in At(s.past, d).sent)
    && (d == L1 ==> Key(StartTable, id) !in At(s.tables, d).mem)
  }

  ghost predicate OpenedBySent(s: System, d: Layer, id: TxId) {
    Opened(s.chain, d, id) ==> id in At(s.past, d).sent && At(s.past, d).sent[id] in s.receipts
  }

  ghost predicate NackedSafely(s: System, d: Layer, id: TxId) {
    && (Nacking(s, d, id) ==> !Opened(s.chain, d, id) && Closed(s, d, id))
    && (Known(s.chain, d, id) && SourceRecord(s.chain, d, id).status in {ACK_FAIL, ACK_TIMEOUT} ==>
          id in At(s.past, d).nacked)
  }

  ghost predicate CleanAt(s: System, d: Layer, id: TxId) {
    Handled(s, d, id) && SentOnce(s, d, id) && OpenedBySent(s, d, id) && NackedSafely(s, d, id)
  }

  predicate SendRow(p: Past, i: Info) {
    i.id in p.sent && i.sendHash == p.sent[i.id]
  }

  ghost predicate CleanJobs(s: System, d: Layer) {
    && (forall m :: Unique(At(s.jobs, d), m))
    && (forall job :: job in At(s.jobs, d) ==> WellShaped(d, job))
    && (forall job, c :: job in At(s.jobs, d) && c in job && (c.DbPut? || c.MapEmplace?) && c.table == SendTable ==>
          SendRow(At(s.past, d), c.info))
    && (forall k :: k in At(s.tables, d).mem && k.table == SendTable ==>
          SendRow(At(s.past, d), At(s.tables, d).mem[k].info))
  }

  ghost predicate CleanPending(s: System, d: Layer) {
    && (forall h :: h in At(s.pending, Other(d)) && At(s.pending, Other(d))[h].SendTx? ==>
          At(s.pending, Other(d))[h].id in At(s.past, d).sent && At(s.past, d).sent[At(s.pending, Other(d))[h].id] == h)
    && (forall h :: h in At(s.pending, d) && At(s.pending, d)[h].SendAckedTx? && At(s.pending, d)[h].result != 1 ==>
          At(s.pending, d)[h].id in At(s.past, d).nacked)
  }

  ghost predicate CleanDir(s: System, d: Layer) {
    CleanJobs(s, d) && CleanPending(s, d) && forall id :: CleanAt(s, d, id)
  }

  ghost predicate CleanInv(s: System) {
    HandOffInv(s) && OneClock(s.time) && forall d :: CleanDir(s, d)
  }

  // ---------- Clean actions ----------

  /** The conditions on one action of a clean run. */
  ghost predicate CleanAction(s: System, a: Action)
    requires Enabled(s, a)
  {
    match a
    case User(_, _, _) => true
    case Include(_, _, _) => true
    case Drop(_, _) => true
    case Tick(time) => OneClock(time) && s.time.agent <= time.agent
    case Deliver(layer, event, _) => event.StartTxEvent? ==> event.id !in At(s.past, Route(layer, event)).handled
    case Visit(d, sweep, id, receipt, _, _) =>
      // A receipt is shown exactly for a transaction that succeeded, and a loop over the start
      // table waits for the lock another loop over it holds.
      && (sweep.SendSweep? ==> (receipt <==> At(s.tables, d).mem[Key(SendTable, id)].info.sendHash in s.receipts))
      && (sweep.ConfirmSweep? || sweep.StartSweep? ==> !SomeMarked(At(s.jobs, d), SectionMark))
    case Work(_, job, taken, included) => Submits(job[0]) ==> taken == included
    case Crash => false
  }

  // ---------- How marks and shapes move through a step ----------

  lemma RestMarks(job: seq<Cmd>, answer: Option<Hash>, m: Mark)
    requires job != [] && Marked(m, Rest(job, answer))
    ensures Marked(m, job)
  {
    var c :| c in Rest(job, answer) && CmdMarked(m, c);
    assert Submits(job[0]) && answer.Some? ==> c in Saved(job[0], answer.value) || c in job[1..];
    assert c in job;
  }

  /** After an accepted submission nothing is left to submit, and all that was left is still there. */
  lemma RestOfAccepted(d: Layer, job: seq<Cmd>, h: Hash)
    requires job != [] && Submits(job[0]) && WellShaped(d, job)
    ensures var rest := Rest(job, Some(h));
      && WellShaped(d, rest)
      && (forall c :: c in rest ==> IdOf(c) == IdOf(job[0]) && !Submits(c))
      && (forall c :: c in job[1..] ==> c in rest)
      && (forall c :: c in rest ==> c in Saved(job[0], h) || c in job[1..])
  {
    var rest := Rest(job, Some(h));
    var saves := Saved(job[0], h);
    assert rest == saves + job[1..];
    assert job[0] in job;
    forall c | c in job[1..] ensures !Submits(c) && c in rest && c in job {
      var n :| 0 <= n < |job[1..]| && job[1..][n] == c;
      assert job[n + 1] == c && rest[n + 2] == c;
    }
    assert forall c :: c in saves ==> !Submits(c) && c.table != StartTable && IdOf(c) == IdOf(job[0]);
    assert forall n :: 0 <= n < |rest| ==> rest[n] in rest;
  }

  /** After a refused submission nothing is left but the failure ack of a send from L1, or setting the timer again. */
  lemma RestOfRefused(d: Layer, job: seq<Cmd>)
    requires job != [] && Submits(job[0]) && WellShaped(d, job)
    ensures var rest := Rest(job, None);
      && WellShaped(d, rest)
      && (forall c :: c in rest ==> IdOf(c) == IdOf(job[0]))
      && (forall c :: c in rest && Submits(c) ==>
            d == L1 && job[0].SubmitTx? && c == SubmitAck(job[0].info.(status := ACK_FAIL)))
      && (forall c :: c in rest ==> c in job || c == SubmitAck(job[0].info.(status := ACK_FAIL)))
  {
    assert job[0] in job;
    if job[0].SubmitTx? && job[0].ackOnFail {
    } else if job[1..] != [] && job[1..][0].Rearm? {
      forall c | c in job[1..] ensures !Submits(c) && c in job {
        var n :| 0 <= n < |job[1..]| && job[1..][n] == c;
        assert job[n + 1] == c;
      }
      assert forall n :: 0 <= n < |job[1..]| ==> job[1..][n] == job[n + 1];
    }
  }

  lemma RestOfLocal(d: Layer, job: seq<Cmd>)
    requires job != [] && !Submits(job[0]) && WellShaped(d, job)
    ensures WellShaped(d, job[1..])
    ensures forall c :: c in job[1..] ==> c in job && !Submits(c)
  {
    forall c | c in job[1..] ensures c in job && !Submits(c) {
      var n :| 0 <= n < |job[1..]| && job[1..][n] == c;
      assert job[n + 1] == c;
    }
    assert forall n :: 0 <= n < |job[1..]| ==> job[1..][n] == job[n + 1];
  }

  lemma UniqueAfter(jobs: Jobs, job: seq<Cmd>, rest: seq<Cmd>, m: Mark)
    requires job in jobs && Unique(jobs, m) && (Marked(m, rest) ==> Marked(m, job))
    ensures Unique(jobs - multiset{job} + multiset{rest}, m)
    ensures SomeMarked(jobs - multiset{job} + multiset{rest}, m) ==> SomeMarked(jobs, m)
    ensures Marked(m, job) && !Marked(m, rest) ==> !SomeMarked(jobs - multiset{job} + multiset{rest}, m)
  {
    var jobs' := jobs - multiset{job} + multiset{rest};
    assert forall j :: j in jobs' ==> j in jobs || j == rest;
    if Marked(m, job) { assert jobs[job] == 1; }
  }

  lemma UniqueAdded(jobs: Jobs, job: seq<Cmd>, m: Mark)
    requires Unique(jobs, m) && (Marked(m, job) ==> !SomeMarked(jobs, m))
    ensures Unique(jobs + multiset{job}, m)
    ensures SomeMarked(jobs + multiset{job}, m) <==> SomeMarked(jobs, m) || Marked(m, job)
  {
    assert forall j :: j in jobs + multiset{job} <==> j in jobs || j == job;
    if SomeMarked(jobs, m) {
      var j :| j in jobs && Marked(m, j);
      assert j in jobs + multiset{job};
    }
    if Marked(m, job) { assert job in jobs + multiset{job}; }
  }

  // ---------- One handler step: what may and may not appear ----------

  function Swap(jobs: Jobs, job: seq<Cmd>, rest: seq<Cmd>): Jobs {
    jobs - multiset{job} + multiset{rest}
  }

  lemma SwapMembers(jobs: Jobs, job: seq<Cmd>, rest: seq<Cmd>)
    requires job in jobs
    ensures forall j :: j in Swap(jobs, job, rest) ==> j in jobs || j == rest
    ensures forall j :: j in jobs && j != job ==> j in Swap(jobs, job, rest)
    ensures rest in Swap(jobs, job, rest)
  {
  }

  lemma SwapUnique(jobs: Jobs, job: seq<Cmd>, answer: Option<Hash>)
    requires job in jobs && job != [] && forall m :: Unique(jobs, m)
    ensures forall m :: Unique(Swap(jobs, job, Rest(job, answer)), m)
    ensures forall m :: SomeMarked(Swap(jobs, job, Rest(job, answer)), m) ==> SomeMarked(jobs, m)
  {
    var rest := Rest(job, answer);
    forall m
      ensures Unique(Swap(jobs, job, rest), m) && (SomeMarked(Swap(jobs, job, rest), m) ==> SomeMarked(jobs, m))
    {
      if Marked(m, rest) { RestMarks(job, answer, m); }
      UniqueAfter(jobs, job, rest, m);
    }
  }

  lemma SwapShaped(d: Layer, jobs: Jobs, job: seq<Cmd>, answer: Option<Hash>)
    requires job in jobs && job != [] && forall j :: j in jobs ==> WellShaped(d, j)
    ensures forall j :: j in Swap(jobs, job, Rest(job, answer)) ==> WellShaped(d, j)
  {
    if !Submits(job[0]) { RestOfLocal(d, job); }
    else if answer.Some? { RestOfAccepted(d, job, answer.value); }
    else { RestOfRefused(d, job); }
    SwapMembers(jobs, job, Rest(job, answer));
  }

  /** Failure acks only come from failure acks, or from a refused send. */
  lemma SwapNacks(d: Layer, jobs: Jobs, job: seq<Cmd>, answer: Option<Hash>, id: TxId)
    requires job in jobs && job != [] && WellShaped(d, job)
    requires SomeNacks(Swap(jobs, job, Rest(job, answer)), id)
    ensures SomeNacks(jobs, id) || (answer.None? && d == L1 && job[0].SubmitTx? && job[0].info.id == id)
  {
    var rest := Rest(job, answer);
    SwapMembers(jobs, job, rest);
    var j, c :| j in Swap(jobs, job, rest) && c in j && Nacks(c, id);
    if j == rest {
      if !Submits(job[0]) { RestOfLocal(d, job); }
      else if answer.Some? { RestOfAccepted(d, job, answer.value); }
      else { RestOfRefused(d, job); }
    }
  }

  /** A job that holds the start table stays so until it submits. */
  lemma SwapHolds(d: Layer, jobs: Jobs, job: seq<Cmd>, answer: Option<Hash>, id: TxId)
    requires job in jobs && job != [] && WellShaped(d, job)
    requires SomeHolds(Swap(jobs, job, Rest(job, answer)), id)
    ensures SomeHolds(jobs, id)
  {
    var rest := Rest(job, answer);
    SwapMembers(jobs, job, rest);
    var j :| j in Swap(jobs, job, rest) && Holds(j, id);
    if j == rest {
      assert rest[0] in rest;
      if !Submits(job[0]) { RestOfLocal(d, job); }
      else if answer.Some? { RestOfAccepted(d, job, answer.value); }
      else { RestOfRefused(d, job); }
      assert Holds(job, id);
    }
  }

  /** If no job erases a start row any more though one did, it just erased it, or its submission was refused. */
  lemma SwapErases(d: Layer, jobs: Jobs, job: seq<Cmd>, answer: Option<Hash>, id: TxId)
    requires job in jobs && job != [] && WellShaped(d, job)
    requires SomeErases(jobs, id) && !SomeErases(Swap(jobs, job, Rest(job, answer)), id)
    ensures job[0] == MapErase(StartTable, id) || (Submits(job[0]) && answer.None? && Holds(job, id))
  {
    var rest := Rest(job, answer);
    SwapMembers(jobs, job, rest);
    var j :| j in jobs && MapErase(StartTable, id) in j;
    assert j == job;
    if job[0] != MapErase(StartTable, id) {
      assert MapErase(StartTable, id) in job[1..];
      if !Submits(job[0]) { RestOfLocal(d, job); }
      else if answer.Some? { RestOfAccepted(d, job, answer.value); }
    }
  }
}
