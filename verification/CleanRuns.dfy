/** The steps of the handlers in a clean run, submissions and writes, keep the clean invariant. */
module CleanRuns {
  import opened Escrow
  import opened Relay
  import opened RelayHandle
  import opened World
  import opened Protocol
  import opened HandOff
  import opened Clean
  import opened Wrappers

  // ---------- Local commands ----------

  lemma LocalMem(a: Agent, c: Cmd, now: int, id: TxId)
    requires !Submits(c)
    ensures var k := Key(StartTable, id); var a' := Local(a, c, now);
      && (k in a'.mem && k !in a.mem ==> c.MapEmplace? && c.table == StartTable && c.info.id == id)
      && (c == MapErase(StartTable, id) ==> k !in a'.mem)
  {
  }

  /** The step frame of a local command: only the tables and the job list of its relay change. */
  ghost predicate LocalStep(s: System, s': System, d: Layer, job: seq<Cmd>) {
    && job in At(s.jobs, d) && job != [] && !Submits(job[0])
    && s'.chain == s.chain && s'.pending == s.pending && s'.receipts == s.receipts
    && s'.past == s.past && s'.time == s.time
    && At(s'.jobs, d) == Swap(At(s.jobs, d), job, job[1..]) && At(s'.jobs, Other(d)) == At(s.jobs, Other(d))
    && At(s'.tables, d) == Local(At(s.tables, d), job[0], s.time.agent)
    && At(s'.tables, Other(d)) == At(s.tables, Other(d))
  }

  lemma LocalWaiting(s: System, s': System, d: Layer, job: seq<Cmd>, id: TxId)
    requires LocalStep(s, s', d, job) && CleanDir(s, d) && Waiting(s', d, id)
    ensures Waiting(s, d, id)
  {
    SwapUnique(At(s.jobs, d), job, None);
    LocalMem(At(s.tables, d), job[0], s.time.agent, id);
    if Key(StartTable, id) in At(s'.tables, d).mem && Key(StartTable, id) !in At(s.tables, d).mem {
      assert job[0] in job && Marked(BegunMark(id), job);
    }
  }

  lemma LocalNacking(s: System, s': System, d: Layer, job: seq<Cmd>, id: TxId)
    requires LocalStep(s, s', d, job) && CleanDir(s, d) && Nacking(s', d, id)
    ensures Nacking(s, d, id)
  {
    if id !in At(s.past, d).nacked { SwapNacks(d, At(s.jobs, d), job, None, id); }
  }

  lemma LocalSentOnce(s: System, s': System, d: Layer, job: seq<Cmd>, id: TxId)
    requires LocalStep(s, s', d, job) && CleanDir(s, d)
    ensures SentOnce(s', d, id)
  {
    var jobs := At(s.jobs, d);
    assert CleanAt(s, d, id) && WellShaped(d, job) && Rest(job, None) == job[1..];
    SwapUnique(jobs, job, None);
    LocalMem(At(s.tables, d), job[0], s.time.agent, id);
    var k := Key(StartTable, id);
    if SomeHolds(At(s'.jobs, d), id) { SwapHolds(d, jobs, job, None, id); }
    if k in At(s'.tables, d).mem {
      if k !in At(s.tables, d).mem {
        assert job[0] in job && CmdMarked(BegunMark(id), job[0]) && Marked(BegunMark(id), job);
        assert |job| == 1 && !Marked(BegunMark(id), job[1..]);
        UniqueAfter(jobs, job, job[1..], BegunMark(id));
      } else if !SomeErases(At(s'.jobs, d), id) && SomeErases(jobs, id) {
        SwapErases(d, jobs, job, None, id);
      }
    }
  }

  lemma LocalAt(s: System, s': System, d: Layer, job: seq<Cmd>, id: TxId)
    requires LocalStep(s, s', d, job) && CleanDir(s, d)
    ensures CleanAt(s', d, id)
  {
    assert CleanAt(s, d, id);
    LocalSentOnce(s, s', d, job, id);
    if Waiting(s', d, id) { LocalWaiting(s, s', d, job, id); }
    if Nacking(s', d, id) { LocalNacking(s, s', d, job, id); }
  }

  lemma LocalJobs(s: System, s': System, d: Layer, job: seq<Cmd>)
    requires LocalStep(s, s', d, job) && CleanDir(s, d)
    ensures CleanJobs(s', d)
  {
    var jobs := At(s.jobs, d);
    assert Rest(job, None) == job[1..];
    SwapUnique(jobs, job, None);
    SwapShaped(d, jobs, job, None);
    SwapMembers(jobs, job, job[1..]);
    RestOfLocal(d, job);
    LocalRows(At(s.tables, d), job[0], s.time.agent);
    assert job[0] in job;
  }

  lemma LocalClean(s: System, s': System, d: Layer, job: seq<Cmd>, e: Layer)
    requires LocalStep(s, s', d, job) && CleanDir(s, d) && CleanDir(s, e)
    ensures CleanDir(s', e)
  {
    if e == d {
      LocalJobs(s, s', d, job);
      forall id ensures CleanAt(s', d, id) { LocalAt(s, s', d, job, id); }
    } else {
      forall id ensures CleanAt(s', e, id) { assert CleanAt(s, e, id); }
    }
  }

  // ---------- Submissions ----------

  ghost predicate SubmitStep(s: System, s': System, d: Layer, job: seq<Cmd>, answer: Option<Hash>) {
    && job in At(s.jobs, d) && job != [] && Submits(job[0])
    && s'.chain == s.chain && s'.tables == s.tables && s'.receipts == s.receipts && s'.time == s.time
    && At(s'.jobs, d) == Swap(At(s.jobs, d), job, Rest(job, answer)) && At(s'.jobs, Other(d)) == At(s.jobs, Other(d))
    && (answer.Some? ==> answer.value == s.next)
    && At(s'.past, d) == Noted(At(s.past, d), job[0], s.next, answer.Some?)
    && At(s'.past, Other(d)) == At(s.past, Other(d))
    && var t := TargetOf(d, job[0]);
    && At(s'.pending, Other(t)) == At(s.pending, Other(t))
    && At(s'.pending, t) == if answer.Some? then At(s.pending, t)[s.next := CallOf(d, job[0])] else At(s.pending, t)
  }

  lemma SubmitSends(s: System, s': System, d: Layer, job: seq<Cmd>, answer: Option<Hash>, e: Layer, h: Hash)
    requires SubmitStep(s, s', d, job, answer) && CleanPending(s, e) && CleanDir(s, d)
    requires h in At(s'.pending, Other(e)) && At(s'.pending, Other(e))[h].SendTx?
    ensures At(s'.pending, Other(e))[h].id in At(s'.past, e).sent
    ensures At(s'.past, e).sent[At(s'.pending, Other(e))[h].id] == h
  {
    assert CleanAt(s, d, job[0].info.id);
    if job[0].SubmitTx? {
      assert job[0] in job && CmdMarked(TxMark(job[0].info.id), job[0]) && Marked(TxMark(job[0].info.id), job);
      assert job[0].info.id !in At(s.past, d).sent;
    }
  }

  lemma SubmitRefusals(s: System, s': System, d: Layer, job: seq<Cmd>, answer: Option<Hash>, e: Layer, h: Hash)
    requires SubmitStep(s, s', d, job, answer) && CleanPending(s, e) && CmdOk(s.chain, d, job[0])
    requires h in At(s'.pending, e) && At(s'.pending, e)[h].SendAckedTx? && At(s'.pending, e)[h].result != 1
    ensures At(s'.pending, e)[h].id in At(s'.past, e).nacked
  {
    if answer.Some? && h == s.next && TargetOf(d, job[0]) == e {
      assert job[0].SubmitAck? && e == d;
    }
  }

  lemma SubmitPending(s: System, s': System, d: Layer, job: seq<Cmd>, answer: Option<Hash>, e: Layer)
    requires SubmitStep(s, s', d, job, answer) && CleanPending(s, e) && CleanDir(s, d) && HandOffInv(s)
    ensures CleanPending(s', e)
  {
    assert AgentOk(s, d) && JobOk(s.chain, d, job) && CmdOk(s.chain, d, job[0]);
    forall h | h in At(s'.pending, Other(e)) && At(s'.pending, Other(e))[h].SendTx?
      ensures At(s'.pending, Other(e))[h].id in At(s'.past, e).sent
      ensures At(s'.past, e).sent[At(s'.pending, Other(e))[h].id] == h
    {
      SubmitSends(s, s', d, job, answer, e, h);
    }
    forall h | h in At(s'.pending, e) && At(s'.pending, e)[h].SendAckedTx? && At(s'.pending, e)[h].result != 1
      ensures At(s'.pending, e)[h].id in At(s'.past, e).nacked
    {
      SubmitRefusals(s, s', d, job, answer, e, h);
    }
  }

  lemma SubmitWaiting(s: System, s': System, d: Layer, job: seq<Cmd>, answer: Option<Hash>, id: TxId)
    requires SubmitStep(s, s', d, job, answer) && CleanDir(s, d) && Waiting(s', d, id)
    ensures Waiting(s, d, id)
  {
    SwapUnique(At(s.jobs, d), job, answer);
  }

  /** A send that has been submitted, or refused, is no longer about to be. */
  lemma TxGone(s: System, s': System, d: Layer, job: seq<Cmd>, answer: Option<Hash>)
    requires SubmitStep(s, s', d, job, answer) && CleanDir(s, d) && job[0].SubmitTx?
    ensures var id := job[0].info.id;
      && !SomeMarked(At(s'.jobs, d), TxMark(id)) && !SomeMarked(At(s'.jobs, d), BegunMark(id))
      && SomeMarked(At(s.jobs, d), TxMark(id))
  {
    var id := job[0].info.id;
    assert WellShaped(d, job) && CleanAt(s, d, id);
    assert job[0] in job && CmdMarked(TxMark(id), job[0]) && Marked(TxMark(id), job);
    if answer.Some? { RestOfAccepted(d, job, answer.value); } else { RestOfRefused(d, job); }
    var rest := Rest(job, answer);
    assert !Marked(TxMark(id), rest);
    UniqueAfter(At(s.jobs, d), job, rest, TxMark(id));
    SwapUnique(At(s.jobs, d), job, answer);
  }

  lemma SubmitSentOther(s: System, s': System, d: Layer, job: seq<Cmd>, answer: Option<Hash>, id: TxId)
    requires SubmitStep(s, s', d, job, answer) && CleanDir(s, d)
    requires !(job[0].SubmitTx? && job[0].info.id == id && answer.Some?)
    ensures SentOnce(s', d, id)
  {
    var jobs := At(s.jobs, d);
    assert CleanAt(s, d, id) && WellShaped(d, job);
    SwapUnique(jobs, job, answer);
    if SomeHolds(At(s'.jobs, d), id) { SwapHolds(d, jobs, job, answer, id); }
    if Key(StartTable, id) in At(s.tables, d).mem && SomeErases(jobs, id) && !SomeErases(At(s'.jobs, d), id) {
      SwapErases(d, jobs, job, answer, id);
    }
  }

  /** The one job with a mark is gone once it has made its first step into something else. */
  lemma SwapGone(jobs: Jobs, job: seq<Cmd>, rest: seq<Cmd>, m: Mark, j: seq<Cmd>)
    requires job in jobs && Unique(jobs, m) && Marked(m, job) && rest != job
    requires j in Swap(jobs, job, rest) && Marked(m, j)
    ensures j == rest
  {
    assert jobs[job] == 1;
  }

  lemma ErasesMarked(job: seq<Cmd>, id: TxId)
    requires MapErase(StartTable, id) in job
    ensures Marked(SectionMark, job)
  {
    assert CmdMarked(SectionMark, MapErase(StartTable, id));
  }

  /** Once a send has been accepted, no handler holds the start row it came from. */
  lemma HoldsGone(s: System, s': System, d: Layer, job: seq<Cmd>, answer: Option<Hash>, j: seq<Cmd>)
    requires SubmitStep(s, s', d, job, answer) && CleanDir(s, d)
    requires job[0].SubmitTx? && answer.Some? && j in At(s'.jobs, d) && MapErase(StartTable, job[0].info.id) in j
    ensures j == Rest(job, answer) && !Holds(j, job[0].info.id)
  {
    var jobs, id := At(s.jobs, d), job[0].info.id;
    var rest := Rest(job, answer);
    assert WellShaped(d, job) && job[0] in job;
    RestOfAccepted(d, job, answer.value);
    SwapMembers(jobs, job, rest);
    ErasesMarked(j, id);
    SwapShaped(d, jobs, job, answer);
    assert WellShaped(d, j);
    ErasesMarked(job, id);
    assert rest[0] in rest;
    SwapGone(jobs, job, rest, SectionMark, j);
  }

  lemma SubmitSentHere(s: System, s': System, d: Layer, job: seq<Cmd>, answer: Option<Hash>)
    requires SubmitStep(s, s', d, job, answer) && CleanDir(s, d)
    requires job[0].SubmitTx? && answer.Some?
    ensures SentOnce(s', d, job[0].info.id)
  {
    var id := job[0].info.id;
    var rest := Rest(job, answer);
    assert CleanAt(s, d, id) && WellShaped(d, job) && job[0] in job;
    TxGone(s, s', d, job, answer);
    RestOfAccepted(d, job, answer.value);
    SwapMembers(At(s.jobs, d), job, rest);
    if SomeHolds(At(s'.jobs, d), id) {
      var j :| j in At(s'.jobs, d) && Holds(j, id);
      HoldsGone(s, s', d, job, answer, j);
    }
    if d == L2 {
      assert MapErase(StartTable, id) in job[1..] && MapErase(StartTable, id) in rest;
    }
  }

  /** A failure ack newly under way stems from a send from L1 that was refused. */
  lemma SubmitNacking(s: System, s': System, d: Layer, job: seq<Cmd>, answer: Option<Hash>, id: TxId)
    requires SubmitStep(s, s', d, job, answer) && CleanDir(s, d) && Nacking(s', d, id)
    ensures Nacking(s, d, id) || (d == L1 && job[0].SubmitTx? && job[0].info.id == id && answer.None?)
  {
    assert WellShaped(d, job) && job[0] in job;
    if id in At(s'.past, d).nacked && id !in At(s.past, d).nacked {
      assert Nacks(job[0], id);
    } else if id !in At(s'.past, d).nacked {
      SwapNacks(d, At(s.jobs, d), job, answer, id);
    }
  }

  lemma SubmitHandled(s: System, s': System, d: Layer, job: seq<Cmd>, answer: Option<Hash>, id: TxId)
    requires SubmitStep(s, s', d, job, answer) && CleanDir(s, d)
    ensures Handled(s', d, id)
  {
    assert CleanAt(s, d, id) && job[0] in job;
    if Waiting(s', d, id) { SubmitWaiting(s, s', d, job, answer, id); }
    if Nacking(s', d, id) { SubmitNacking(s, s', d, job, answer, id); }
    if job[0].SubmitTx? && job[0].info.id == id { TxGone(s, s', d, job, answer); }
  }

  lemma SubmitOpened(s: System, s': System, d: Layer, job: seq<Cmd>, answer: Option<Hash>, id: TxId)
    requires SubmitStep(s, s', d, job, answer) && CleanDir(s, d)
    ensures OpenedBySent(s', d, id)
  {
    assert CleanAt(s, d, id);
    if job[0].SubmitTx? && job[0].info.id == id { TxGone(s, s', d, job, answer); }
  }

  /** A refused send from L1 leaves nothing that could still send the transfer. */
  lemma RefusedCloses(s: System, s': System, d: Layer, job: seq<Cmd>, answer: Option<Hash>)
    requires SubmitStep(s, s', d, job, answer) && CleanDir(s, d)
    requires d == L1 && job[0].SubmitTx? && answer.None?
    ensures !Opened(s'.chain, d, job[0].info.id) && Closed(s', d, job[0].info.id)
  {
    assert CleanAt(s, d, job[0].info.id);
    TxGone(s, s', d, job, answer);
  }

  lemma SubmitClosed(s: System, s': System, d: Layer, job: seq<Cmd>, answer: Option<Hash>, id: TxId)
    requires SubmitStep(s, s', d, job, answer) && CleanDir(s, d) && Closed(s, d, id)
    ensures Closed(s', d, id)
  {
    if Waiting(s', d, id) { SubmitWaiting(s, s', d, job, answer, id); }
    if job[0].SubmitTx? && job[0].info.id == id { TxGone(s, s', d, job, answer); }
  }

  lemma SubmitNackedSafely(s: System, s': System, d: Layer, job: seq<Cmd>, answer: Option<Hash>, id: TxId)
    requires SubmitStep(s, s', d, job, answer) && CleanDir(s, d)
    ensures NackedSafely(s', d, id)
  {
    assert CleanAt(s, d, id);
    if Nacking(s', d, id) {
      SubmitNacking(s, s', d, job, answer, id);
      if Nacking(s, d, id) { SubmitClosed(s, s', d, job, answer, id); } else { RefusedCloses(s, s', d, job, answer); }
    }
  }

  lemma SubmitAt(s: System, s': System, d: Layer, job: seq<Cmd>, answer: Option<Hash>, id: TxId)
    requires SubmitStep(s, s', d, job, answer) && CleanDir(s, d)
    ensures CleanAt(s', d, id)
  {
    SubmitHandled(s, s', d, job, answer, id);
    SubmitOpened(s, s', d, job, answer, id);
    SubmitNackedSafely(s, s', d, job, answer, id);
    if job[0].SubmitTx? && job[0].info.id == id && answer.Some? { SubmitSentHere(s, s', d, job, answer); }
    else { SubmitSentOther(s, s', d, job, answer, id); }
  }

  /** Rows of the send table keep the hash their send got. */
  lemma SubmitRow(s: System, s': System, d: Layer, job: seq<Cmd>, answer: Option<Hash>, i: Info)
    requires SubmitStep(s, s', d, job, answer) && CleanDir(s, d) && SendRow(At(s.past, d), i)
    ensures SendRow(At(s'.past, d), i)
  {
    if job[0].SubmitTx? { TxGone(s, s', d, job, answer); assert CleanAt(s, d, job[0].info.id); }
  }

  lemma SubmitNewRow(s: System, s': System, d: Layer, job: seq<Cmd>, answer: Option<Hash>, c: Cmd)
    requires SubmitStep(s, s', d, job, answer) && CleanDir(s, d)
    requires c in Rest(job, answer) && (c.DbPut? || c.MapEmplace?) && c.table == SendTable
    ensures SendRow(At(s'.past, d), c.info)
  {
    assert WellShaped(d, job);
    if answer.Some? { RestOfAccepted(d, job, answer.value); } else { RestOfRefused(d, job); }
    if answer.None? || c in job[1..] {
      assert c in job;
      SubmitRow(s, s', d, job, answer, c.info);
    }
  }

  lemma SubmitJobs(s: System, s': System, d: Layer, job: seq<Cmd>, answer: Option<Hash>)
    requires SubmitStep(s, s', d, job, answer) && CleanDir(s, d)
    ensures CleanJobs(s', d)
  {
    var jobs, rest := At(s.jobs, d), Rest(job, answer);
    SwapUnique(jobs, job, answer);
    SwapShaped(d, jobs, job, answer);
    SwapMembers(jobs, job, rest);
    forall j, c | j in At(s'.jobs, d) && c in j && (c.DbPut? || c.MapEmplace?) && c.table == SendTable
      ensures SendRow(At(s'.past, d), c.info)
    {
      if j == rest { SubmitNewRow(s, s', d, job, answer, c); } else { SubmitRow(s, s', d, job, answer, c.info); }
    }
    forall k | k in At(s'.tables, d).mem && k.table == SendTable
      ensures SendRow(At(s'.past, d), At(s'.tables, d).mem[k].info)
    {
      SubmitRow(s, s', d, job, answer, At(s.tables, d).mem[k].info);
    }
  }

  /** The other direction has the same handlers, tables and past. */
  lemma OtherJobs(s: System, s': System, d: Layer, job: seq<Cmd>, answer: Option<Hash>)
    requires SubmitStep(s, s', d, job, answer) && CleanJobs(s, Other(d))
    ensures CleanJobs(s', Other(d))
  {
  }

  lemma OtherAt(s: System, s': System, d: Layer, job: seq<Cmd>, answer: Option<Hash>, id: TxId)
    requires SubmitStep(s, s', d, job, answer) && CleanAt(s, Other(d), id)
    ensures CleanAt(s', Other(d), id)
  {
  }

  lemma SubmitClean(s: System, s': System, d: Layer, job: seq<Cmd>, answer: Option<Hash>, e: Layer)
    requires SubmitStep(s, s', d, job, answer) && CleanDir(s, d) && CleanDir(s, e) && HandOffInv(s)
    ensures CleanDir(s', e)
  {
    hide CleanAt, CleanJobs, CleanPending, HandOffInv, SubmitStep;
    SubmitPending(s, s', d, job, answer, e);
    if e == d {
      SubmitJobs(s, s', d, job, answer);
      forall id ensures CleanAt(s', d, id) { SubmitAt(s, s', d, job, answer, id); }
    } else {
      OtherJobs(s, s', d, job, answer);
      forall id ensures CleanAt(s', e, id) { OtherAt(s, s', d, job, answer, id); }
    }
  }
}
