/**
  Crash-safe hand-off.  Once an id is in any stage table of the database it stays in one, whatever
  is interrupted, until what it stands for has taken effect on its chain.
*/
module HandOff {
  import opened Escrow
  import opened Relay
  import opened RelayHandle
  import opened World
  import opened Protocol
  import opened Wrappers

  ghost predicate InDatabase(s: System, d: Layer, id: TxId) {
    exists t: Table :: Key(t, id) in At(s.tables, d).db
  }

  ghost predicate InLaterTable(a: Agent, t: Table, id: TxId) {
    exists u: Table :: Stage(u) > Stage(t) && Key(u, id) in a.db
  }

  /** The failure ack has taken effect on the source, or the payout on the destination. */
  predicate Settled(w: Chains, d: Layer, id: TxId) {
    Known(w, d, id) &&
    (SourceRecord(w, d, id).status in {ACK_FAIL, ACK_TIMEOUT}
     || (Opened(w, d, id) && DestRecord(w, d, id).status != INIT))
  }

  /** The agent sent a failure ack for a transfer whose success ack got there first. */
  predicate Clash(s: System, d: Layer, id: TxId) {
    Known(s.chain, d, id) && SourceRecord(s.chain, d, id).status == ACK_SUCCESS && id in At(s.past, d).nacked
  }

  predicate Over(s: System, d: Layer, id: TxId) {
    Settled(s.chain, d, id) || Clash(s, d, id)
  }

  /** Taking this row out of the database loses nothing. */
  ghost predicate Spare(s: System, d: Layer, t: Table, id: TxId) {
    InLaterTable(At(s.tables, d), t, id) || Over(s, d, id)
  }

  // ---------- Jobs write the later table before they clear the earlier one ----------

  /** Carrying out the command, if it succeeds, leads to a row in a later table. */
  predicate SavesLater(c: Cmd, t: Table, id: TxId) {
    match c
    case SubmitTx(i, _) => i.id == id && Stage(SendTable) > Stage(t)
    case SubmitAck(i) => i.id == id && Stage(AckTable) > Stage(t)
    case SubmitReply(i) => i.id == id && Stage(ReplyTable) > Stage(t)
    case DbPut(u, i) => i.id == id && Stage(u) > Stage(t)
    case _ => false
  }

  ghost predicate SavedBefore(job: seq<Cmd>, n: nat, t: Table, id: TxId)
    requires n <= |job|
  {
    exists j :: 0 <= j < n && SavesLater(job[j], t, id)
  }

  ghost predicate Careful(s: System, d: Layer, job: seq<Cmd>) {
    && (forall n :: 0 <= n < |job| && job[n].DbDelete? ==>
          SavedBefore(job, n, job[n].table, job[n].id) || Spare(s, d, job[n].table, job[n].id))
    && (forall m, n :: 0 <= m < |job| && 0 <= n < |job| ==> !(job[m].Rearm? && job[n].DbDelete?))
  }

  // ---------- Rows whose hash is queried know their call ----------

  predicate IsAck(c: Call, id: TxId, status: Status) {
    c.SendAckedTx? && c.id == id && c.result == Code(status)
  }

  predicate NackRow(s: System, d: Layer, i: Info) {
    && i.id in At(s.past, d).nacked && i.ackHash < s.next
    && Known(s.chain, d, i.id)
    && (i.ackHash in At(s.pending, d) ==> IsAck(At(s.pending, d)[i.ackHash], i.id, i.status))
    && i.ackHash !in At(s.pending, Other(d))
    && (i.ackHash in s.receipts ==> SourceRecord(s.chain, d, i.id).status == i.status)
  }

  predicate ReplyRow(s: System, d: Layer, i: Info) {
    && i.replyHash < s.next && Opened(s.chain, d, i.id)
    && (i.replyHash in At(s.pending, Other(d)) ==> IsAck(At(s.pending, Other(d))[i.replyHash], i.id, ACK_SUCCESS))
    && i.replyHash !in At(s.pending, d)
    && (i.replyHash in s.receipts ==> DestRecord(s.chain, d, i.id).status == ACK_SUCCESS)
  }

  predicate Stamped(s: System, d: Layer, t: Table, i: Info) {
    && (t == AckTable && i.status != ACK_SUCCESS ==> i.status != INIT && NackRow(s, d, i))
    && (t == ReplyTable ==> ReplyRow(s, d, i))
  }

  predicate CmdStamped(s: System, d: Layer, c: Cmd) {
    c.DbPut? || c.MapEmplace? ==> Stamped(s, d, c.table, c.info)
  }

  ghost predicate Ordered(s: System, d: Layer) {
    && (forall k :: k in At(s.tables, d).mem ==> Stamped(s, d, k.table, At(s.tables, d).mem[k].info))
    && (forall k :: k in At(s.tables, d).db ==> Stamped(s, d, k.table, At(s.tables, d).db[k]))
    && (forall job, c :: job in At(s.jobs, d) && c in job ==> CmdStamped(s, d, c))
    && (forall job :: job in At(s.jobs, d) ==> Careful(s, d, job))
  }

  ghost predicate HashesUsed(s: System) {
    && (forall h :: h in s.pending.one ==> h < s.next && h !in s.receipts && h !in s.pending.two)
    && (forall h :: h in s.pending.two ==> h < s.next && h !in s.receipts && h !in s.pending.one)
    && (forall h :: h in s.receipts ==> h < s.next)
  }

  ghost predicate HandOffInv(s: System) {
    Inv(s) && HashesUsed(s) && forall d :: Ordered(s, d)
  }

  // ---------- How the world moves on ----------

  predicate Took(l: Ledger, c: Call) {
    c.SendAckedTx? ==> c.id in l.records && Code(l.records[c.id].status) == c.result
  }

  /** A new receipt belongs to a call that was pending and has had its effect. */
  ghost predicate Receipted(s: System, s': System, h: Hash) {
    exists d :: h in At(s.pending, d) && Took(At(s'.chain, d), At(s.pending, d)[h])
  }

  ghost predicate Later(s: System, s': System) {
    && Evolves(s.chain, s'.chain) && s.next <= s'.next
    && (forall d :: At(s.past, d).nacked <= At(s'.past, d).nacked)
    && (forall d, h :: h < s.next && h in At(s'.pending, d) ==>
          h in At(s.pending, d) && At(s'.pending, d)[h] == At(s.pending, d)[h])
    && (forall h :: h in s'.receipts && h !in s.receipts ==> Receipted(s, s', h))
  }

  lemma OverStable(s: System, s': System, d: Layer, id: TxId)
    requires Later(s, s') && Over(s, d, id)
    ensures Over(s', d, id)
  {
    KnownStable(s.chain, s'.chain, d, id);
  }

  lemma CodeInjective(a: Status, b: Status)
    requires Code(a) == Code(b)
    ensures a == b
  {
  }

  lemma NackStable(s: System, s': System, d: Layer, i: Info)
    requires Later(s, s') && NackRow(s, d, i) && i.status != INIT
    ensures NackRow(s', d, i)
  {
    KnownStable(s.chain, s'.chain, d, i.id);
    if i.ackHash in s'.receipts && i.ackHash !in s.receipts {
      assert Receipted(s, s', i.ackHash);
      CodeInjective(SourceRecord(s'.chain, d, i.id).status, i.status);
    }
  }

  lemma ReplyStable(s: System, s': System, d: Layer, i: Info)
    requires Later(s, s') && ReplyRow(s, d, i)
    ensures ReplyRow(s', d, i)
  {
    KnownStable(s.chain, s'.chain, d, i.id);
    if i.replyHash in s'.receipts && i.replyHash !in s.receipts {
      assert Receipted(s, s', i.replyHash);
      CodeInjective(DestRecord(s'.chain, d, i.id).status, ACK_SUCCESS);
    }
  }

  lemma StampedStable(s: System, s': System, d: Layer, t: Table, i: Info)
    requires Later(s, s') && Stamped(s, d, t, i)
    ensures Stamped(s', d, t, i)
  {
    if t == AckTable && i.status != ACK_SUCCESS { NackStable(s, s', d, i); }
    if t == ReplyTable { ReplyStable(s, s', d, i); }
  }

  /** No row is taken out of the database unless it is spare. */
  ghost predicate Kept(s: System, s': System, d: Layer) {
    forall k :: k in At(s.tables, d).db && k !in At(s'.tables, d).db ==> Spare(s, d, k.table, k.id)
  }

  /** At most one row leaves the database in one step. */
  ghost predicate OneLeaves(s: System, s': System, d: Layer) {
    forall j, k ::
      (j in At(s.tables, d).db && k in At(s.tables, d).db && j !in At(s'.tables, d).db && k !in At(s'.tables, d).db) ==>
        j == k
  }

  lemma SpareStable(s: System, s': System, d: Layer, t: Table, id: TxId)
    requires Later(s, s') && Kept(s, s', d) && OneLeaves(s, s', d) && Spare(s, d, t, id)
    ensures Spare(s', d, t, id)
  {
    if Over(s, d, id) {
      OverStable(s, s', d, id);
    } else {
      var u: Table :| Stage(u) > Stage(t) && Key(u, id) in At(s.tables, d).db;
      if Key(u, id) !in At(s'.tables, d).db {
        assert Spare(s, d, u, id);
        var v: Table :| Stage(v) > Stage(u) && Key(v, id) in At(s.tables, d).db;
        assert Key(v, id) in At(s'.tables, d).db;
      }
    }
  }

  lemma CarefulStable(s: System, s': System, d: Layer, job: seq<Cmd>)
    requires Later(s, s') && Kept(s, s', d) && OneLeaves(s, s', d) && Careful(s, d, job)
    ensures Careful(s', d, job)
  {
    forall n | 0 <= n < |job| && job[n].DbDelete?
      ensures SavedBefore(job, n, job[n].table, job[n].id) || Spare(s', d, job[n].table, job[n].id)
    {
      if Spare(s, d, job[n].table, job[n].id) { SpareStable(s, s', d, job[n].table, job[n].id); }
    }
  }

  /** The hand-off property of one step: an id in the database is still there, or its transfer is over. */
  lemma StaysOrOver(s: System, s': System, d: Layer, id: TxId)
    requires Later(s, s') && Kept(s, s', d) && OneLeaves(s, s', d)
    requires InDatabase(s, d, id) || Over(s, d, id)
    ensures InDatabase(s', d, id) || Over(s', d, id)
  {
    if Over(s, d, id) {
      OverStable(s, s', d, id);
    } else {
      var t: Table :| Key(t, id) in At(s.tables, d).db;
      if Key(t, id) !in At(s'.tables, d).db {
        SpareStable(s, s', d, t, id);
        if InLaterTable(At(s'.tables, d), t, id) {
          var u: Table :| Stage(u) > Stage(t) && Key(u, id) in At(s'.tables, d).db;
        }
      }
    }
  }

  /**
    What a step must show to keep the order: the world moves on, the database only loses spare rows, what is new
    is in order.
  */
  ghost predicate GoodStep(s: System, s': System) {
    Later(s, s') && HashesUsed(s') && Inv(s') && forall d :: GoodDir(s, s', d)
  }

  ghost predicate GoodDir(s: System, s': System, d: Layer) {
    && Kept(s, s', d) && OneLeaves(s, s', d)
    && (forall k :: k in At(s'.tables, d).mem ==>
          || HadRow(At(s.tables, d), k.table, At(s'.tables, d).mem[k].info)
          || Stamped(s', d, k.table, At(s'.tables, d).mem[k].info))
    && (forall k :: k in At(s'.tables, d).db ==>
          (k in At(s.tables, d).db && At(s.tables, d).db[k] == At(s'.tables, d).db[k])
          || Stamped(s', d, k.table, At(s'.tables, d).db[k]))
    && (forall job :: job in At(s'.jobs, d) ==>
          job in At(s.jobs, d) || (Careful(s', d, job) && forall c :: c in job ==> CmdStamped(s', d, c)))
  }

  ghost predicate HadRow(a: Agent, t: Table, i: Info) {
    exists k :: k in a.mem && k.table == t && a.mem[k].info == i
  }

  lemma MemOrdered(s: System, s': System, d: Layer)
    requires HandOffInv(s) && GoodStep(s, s')
    ensures forall k :: k in At(s'.tables, d).mem ==> Stamped(s', d, k.table, At(s'.tables, d).mem[k].info)
  {
    assert Ordered(s, d) && GoodDir(s, s', d);
    forall k | k in At(s'.tables, d).mem ensures Stamped(s', d, k.table, At(s'.tables, d).mem[k].info) {
      if HadRow(At(s.tables, d), k.table, At(s'.tables, d).mem[k].info) {
        StampedStable(s, s', d, k.table, At(s'.tables, d).mem[k].info);
      }
    }
  }

  lemma DbOrdered(s: System, s': System, d: Layer)
    requires HandOffInv(s) && GoodStep(s, s')
    ensures forall k :: k in At(s'.tables, d).db ==> Stamped(s', d, k.table, At(s'.tables, d).db[k])
  {
    assert Ordered(s, d) && GoodDir(s, s', d);
    forall k | k in At(s'.tables, d).db ensures Stamped(s', d, k.table, At(s'.tables, d).db[k]) {
      if k in At(s.tables, d).db && At(s.tables, d).db[k] == At(s'.tables, d).db[k] {
        StampedStable(s, s', d, k.table, At(s.tables, d).db[k]);
      }
    }
  }

  lemma JobsOrdered(s: System, s': System, d: Layer, job: seq<Cmd>)
    requires HandOffInv(s) && GoodStep(s, s') && job in At(s'.jobs, d)
    ensures Careful(s', d, job) && forall c :: c in job ==> CmdStamped(s', d, c)
  {
    assert Ordered(s, d) && GoodDir(s, s', d);
    if job in At(s.jobs, d) {
      CarefulStable(s, s', d, job);
      forall c | c in job ensures CmdStamped(s', d, c) {
        assert CmdStamped(s, d, c);
        if c.DbPut? || c.MapEmplace? { StampedStable(s, s', d, c.table, c.info); }
      }
    }
  }

  lemma GoodStepKeeps(s: System, s': System)
    requires HandOffInv(s) && GoodStep(s, s')
    ensures HandOffInv(s')
  {
    forall d ensures Ordered(s', d) {
      MemOrdered(s, s', d);
      DbOrdered(s, s', d);
      forall job | job in At(s'.jobs, d) ensures Careful(s', d, job) && forall c :: c in job ==> CmdStamped(s', d, c) {
        JobsOrdered(s, s', d, job);
      }
    }
  }

  // ---------- Every action is a good step ----------

  lemma SameRows(s: System, s': System, e: Layer)
    requires s'.tables == s.tables
    ensures Kept(s, s', e) && OneLeaves(s, s', e)
    ensures forall k :: k in At(s'.tables, e).mem ==> HadRow(At(s.tables, e), k.table, At(s'.tables, e).mem[k].info)
  {
    forall k | k in At(s'.tables, e).mem ensures HadRow(At(s.tables, e), k.table, At(s'.tables, e).mem[k].info) {
      assert k in At(s.tables, e).mem;
    }
  }

  lemma ChainGood(s: System, s': System)
    requires HandOffInv(s) && Later(s, s') && HashesUsed(s') && Inv(s')
    requires s'.tables == s.tables && s'.jobs == s.jobs
    ensures GoodStep(s, s')
  {
    forall d ensures GoodDir(s, s', d) { SameRows(s, s', d); }
  }

  lemma UserGood(s: System, layer: Layer, call: Call, msg: Msg)
    requires HandOffInv(s) && Enabled(s, User(layer, call, msg))
    ensures GoodStep(s, Do(s, User(layer, call, msg)))
  {
    UserKeeps(s, layer, call, msg);
    WorldKept(s.chain, layer, msg, call);
    ChainGood(s, Do(s, User(layer, call, msg)));
  }

  lemma IncludeTook(s: System, layer: Layer, hash: Hash, accepts: bool)
    requires Inv(s) && hash in At(s.pending, layer)
    ensures var s' := DoInclude(s, layer, hash, accepts);
      Evolves(s.chain, s'.chain)
      && (hash in s'.receipts && hash !in s.receipts ==> Took(At(s'.chain, layer), At(s.pending, layer)[hash]))
  {
    var call := At(s.pending, layer)[hash];
    var l := At(s.chain, layer);
    var msg := AgentMsg(l, call, BlockTime(s.time, layer), accepts);
    IncludePermitted(s, layer, hash, accepts);
    WorldKept(s.chain, layer, msg, call);
    if Apply(l, msg, call).Done? { TookBy(l, msg, call); }
  }

  lemma TookBy(l: Ledger, msg: Msg, c: Call)
    requires Apply(l, msg, c).Done?
    ensures Took(After(l, msg, c), c)
  {
    WroteBy(l, msg, c);
  }

  lemma IncludeFrame(s: System, layer: Layer, hash: Hash, accepts: bool)
    requires hash in At(s.pending, layer)
    ensures var s' := DoInclude(s, layer, hash, accepts);
      && s'.tables == s.tables && s'.jobs == s.jobs && s'.next == s.next && s'.past == s.past && s'.time == s.time
      && s'.pending == Put(s.pending, layer, At(s.pending, layer) - {hash})
      && (s'.receipts == s.receipts || s'.receipts == s.receipts + {hash})
  {
  }

  lemma IncludeLater(s: System, s': System, layer: Layer, hash: Hash, accepts: bool)
    requires HandOffInv(s) && hash in At(s.pending, layer) && s' == DoInclude(s, layer, hash, accepts)
    ensures Later(s, s')
  {
    IncludeTook(s, layer, hash, accepts);
    IncludeFrame(s, layer, hash, accepts);
    if hash in s'.receipts && hash !in s.receipts {
      assert Receipted(s, s', hash);
    }
  }

  lemma IncludeHashes(s: System, layer: Layer, hash: Hash, accepts: bool)
    requires HashesUsed(s) && hash in At(s.pending, layer)
    ensures HashesUsed(DoInclude(s, layer, hash, accepts))
  {
    IncludeFrame(s, layer, hash, accepts);
    hide DoInclude;
  }

  lemma IncludeGood(s: System, layer: Layer, hash: Hash, accepts: bool)
    requires HandOffInv(s) && hash in At(s.pending, layer)
    ensures GoodStep(s, DoInclude(s, layer, hash, accepts))
  {
    IncludeKeeps(s, layer, hash, accepts);
    IncludeFrame(s, layer, hash, accepts);
    IncludeLater(s, DoInclude(s, layer, hash, accepts), layer, hash, accepts);
    IncludeHashes(s, layer, hash, accepts);
    hide DoInclude, Later, HashesUsed;
    ChainGood(s, DoInclude(s, layer, hash, accepts));
  }

  lemma DropGood(s: System, layer: Layer, hash: Hash)
    requires HandOffInv(s) && hash in At(s.pending, layer)
    ensures GoodStep(s, Do(s, Drop(layer, hash)))
  {
    DropKeeps(s, layer, hash);
    EvolvesReflexive(s.chain);
    ChainGood(s, Do(s, Drop(layer, hash)));
  }

  lemma TickGood(s: System, time: Times)
    requires HandOffInv(s)
    ensures GoodStep(s, Do(s, Tick(time)))
  {
    StepKeeps(s, Tick(time));
    EvolvesReflexive(s.chain);
    ChainGood(s, Do(s, Tick(time)));
  }

  /** A new handler under way, with everything else as it was. */
  lemma AddJobGood(s: System, s': System, d: Layer, job: seq<Cmd>)
    requires HashesUsed(s) && Inv(s')
    requires s'.chain == s.chain && s'.tables == s.tables && s'.pending == s.pending
    requires s'.receipts == s.receipts && s'.next == s.next
    requires forall e :: At(s'.past, e).nacked == At(s.past, e).nacked
    requires s'.jobs == Put(s.jobs, d, At(s.jobs, d) + multiset{job})
    requires Careful(s, d, job) && forall c :: c in job ==> CmdStamped(s, d, c)
    ensures GoodStep(s, s')
  {
    hide Inv, Evolves;
    EvolvesReflexive(s.chain);
    CarefulStable(s, s', d, job);
    forall c | c in job ensures CmdStamped(s', d, c) {
      assert CmdStamped(s, d, c);
    }
    forall e ensures GoodDir(s, s', e) {
      SameRows(s, s', e);
      assert forall j :: j in At(s'.jobs, e) ==> j in At(s.jobs, e) || (e == d && j == job);
    }
  }

  /** Plans that submit before they clear are careful in any state. */
  lemma SubmitFirstCareful(s: System, d: Layer, c: Cmd, t: Table)
    requires Submits(c) && SavesLater(c, t, c.info.id)
    ensures Careful(s, d, [c] + Clear(t, c.info.id))
  {
    var job := [c] + Clear(t, c.info.id);
    assert SavesLater(job[0], t, c.info.id);
  }

  lemma NoDeleteCareful(s: System, d: Layer, job: seq<Cmd>)
    requires forall c :: c in job ==> !c.DbDelete?
    ensures Careful(s, d, job)
  {
    assert forall n :: 0 <= n < |job| ==> job[n] in job;
  }

  lemma DeliverPlanCareful(s: System, layer: Layer, event: Event, r: Record, ledgerSeq: Option<int>)
    ensures var plan := DeliverPlan(layer, event, r, ledgerSeq);
      Careful(s, Route(layer, event), plan) && forall c :: c in plan ==> CmdStamped(s, Route(layer, event), c)
  {
    var d := Route(layer, event);
    match event {
      case StartTxEvent(id) => NoDeleteCareful(s, d, StartPlan(layer, Read(id, r), ledgerSeq));
      case SendTxEvent(id) => SubmitFirstCareful(s, d, SubmitAck(Read(id, r).(status := ACK_SUCCESS)), SendTable);
      case SendAckedTxEvent(id) => SubmitFirstCareful(s, d, SubmitReply(Read(id, r)), AckTable);
      case RefundEvent(_) =>
    }
  }

  lemma DeliverFrame(s: System, layer: Layer, event: Event, ledgerSeq: Option<int>)
    requires event.id in At(s.chain, layer).records
    ensures var s' := DoDeliver(s, layer, event, ledgerSeq);
      var d := Route(layer, event);
      var plan := DeliverPlan(layer, event, At(s.chain, layer).records[event.id], ledgerSeq);
      && s'.chain == s.chain && s'.tables == s.tables && s'.pending == s.pending
      && s'.receipts == s.receipts && s'.next == s.next
      && (forall e :: At(s'.past, e).nacked == At(s.past, e).nacked && At(s'.past, e).sent == At(s.past, e).sent)
      && s'.jobs == Put(s.jobs, d, At(s.jobs, d) + multiset{plan})
  {
  }

  lemma DeliverGood(s: System, s': System, layer: Layer, event: Event, ledgerSeq: Option<int>)
    requires event.id in At(s.chain, layer).records && s' == DoDeliver(s, layer, event, ledgerSeq)
    requires HandOffInv(s) && Enabled(s, Deliver(layer, event, ledgerSeq))
    ensures GoodStep(s, s')
  {
    DeliverKeeps(s, layer, event, ledgerSeq);
    var plan := DeliverPlan(layer, event, At(s.chain, layer).records[event.id], ledgerSeq);
    DeliverPlanCareful(s, layer, event, At(s.chain, layer).records[event.id], ledgerSeq);
    DeliverFrame(s, layer, event, ledgerSeq);
    AddJobGood(s, s', Route(layer, event), plan);
  }

  /** A row of the ack table is only cleared once its failure ack took effect, or the source had settled otherwise. */
  lemma AckClearSpare(s: System, d: Layer, i: Info, receipt: bool, status: Status)
    requires Stamped(s, d, AckTable, i) && i.status != ACK_SUCCESS && RowOk(s.chain, d, AckTable, i)
    requires receipt ==> i.ackHash in s.receipts
    requires status != INIT ==> status == SourceRecord(s.chain, d, i.id).status
    requires receipt || status != INIT
    ensures Over(s, d, i.id)
  {
  }

  lemma ReplyClearSpare(s: System, d: Layer, i: Info, receipt: bool, status: Status)
    requires Stamped(s, d, ReplyTable, i) && RowOk(s.chain, d, ReplyTable, i)
    requires receipt ==> i.replyHash in s.receipts
    requires status != INIT ==> status == DestRecord(s.chain, d, i.id).status
    requires receipt || status != INIT
    ensures Over(s, d, i.id)
  {
  }

  lemma ClearCareful(s: System, d: Layer, t: Table, id: TxId)
    requires Over(s, d, id)
    ensures Careful(s, d, Clear(t, id))
  {
  }

  lemma StartSweepsCareful(s: System, d: Layer, e: Entry, confirmSeq: int, now: int)
    ensures Careful(s, d, ConfirmPlan(e, confirmSeq, now)) && Careful(s, d, StartTimeoutPlan(e, now))
  {
    NoDeleteCareful(s, d, [SubmitAck(e.info.(status := ACK_TIMEOUT))]);
    SubmitFirstCareful(s, d, SubmitTx(e.info, false), StartTable);
    SubmitFirstCareful(s, d, SubmitAck(e.info.(status := ACK_FAIL)), StartTable);
  }

  lemma SendSweepCareful(s: System, d: Layer, e: Entry, now: int, receipt: bool, read: Option<Info>)
    ensures Careful(s, d, SendTimeoutPlan(e, now, receipt, read))
  {
    SubmitFirstCareful(s, d, SubmitAck(e.info.(status := ACK_TIMEOUT)), SendTable);
    if read.Some? { SubmitFirstCareful(s, d, SubmitAck(read.value.(status := ACK_SUCCESS)), SendTable); }
  }

  lemma AckSweepCareful(s: System, d: Layer, e: Entry, now: int, receipt: bool, status: Status)
    requires Stamped(s, d, AckTable, e.info) && RowOk(s.chain, d, AckTable, e.info)
    requires receipt ==> e.info.ackHash in s.receipts
    requires status != INIT ==> status == SourceRecord(s.chain, d, e.info.id).status
    ensures Careful(s, d, AckTimeoutPlan(e, now, receipt, status))
  {
    NoDeleteCareful(s, d, [SubmitAck(e.info), Rearm(AckTable, e.info.id)]);
    if e.info.status != ACK_SUCCESS && (receipt || status != INIT) {
      AckClearSpare(s, d, e.info, receipt, status);
      ClearCareful(s, d, AckTable, e.info.id);
    }
  }

  lemma ReplySweepCareful(s: System, d: Layer, e: Entry, now: int, receipt: bool, status: Status)
    requires Stamped(s, d, ReplyTable, e.info) && RowOk(s.chain, d, ReplyTable, e.info)
    requires receipt ==> e.info.replyHash in s.receipts
    requires status != INIT ==> status == DestRecord(s.chain, d, e.info.id).status
    ensures Careful(s, d, ReplyTimeoutPlan(e, now, receipt, status))
  {
    NoDeleteCareful(s, d, [SubmitReply(e.info), Rearm(ReplyTable, e.info.id)]);
    if receipt || status != INIT {
      ReplyClearSpare(s, d, e.info, receipt, status);
      ClearCareful(s, d, ReplyTable, e.info.id);
    }
  }

  lemma VisitPlanCareful(s: System, a: Action)
    requires HandOffInv(s) && a.Visit? && Enabled(s, a)
    ensures Careful(s, a.d, VisitPlan(s, a))
  {
    assert Ordered(s, a.d) && AgentOk(s, a.d);
    var e := At(s.tables, a.d).mem[Key(SweptTable(a.sweep), a.id)];
    assert e.info.id == a.id && RowOk(s.chain, a.d, SweptTable(a.sweep), e.info);
    assert Stamped(s, a.d, SweptTable(a.sweep), e.info);
    match a.sweep {
      case ConfirmSweep(confirmSeq) => StartSweepsCareful(s, a.d, e, confirmSeq, s.time.agent);
      case StartSweep => StartSweepsCareful(s, a.d, e, 0, s.time.agent);
      case SendSweep =>
        SendSweepCareful(s, a.d, e, s.time.agent, a.receipt, ReadAt(a.id, VisitNet(s, a).readDest(a.id)));
      case AckSweep => AckSweepCareful(s, a.d, e, s.time.agent, a.receipt, a.status);
      case ReplySweep => ReplySweepCareful(s, a.d, e, s.time.agent, a.receipt, a.status);
    }
  }

  lemma VisitStamped(s: System, a: Action)
    requires a.Visit?
    ensures forall c :: c in VisitPlan(s, a) ==> CmdStamped(s, a.d, c)
  {
  }

  lemma VisitGood(s: System, s': System, a: Action)
    requires HandOffInv(s) && a.Visit? && Enabled(s, a) && s' == Do(s, a)
    ensures GoodStep(s, s')
  {
    VisitKeeps(s, a);
    VisitPlanCareful(s, a);
    VisitStamped(s, a);
    var plan := VisitPlan(s, a);
    AddJobGood(s, s', a.d, plan);
  }

  // ---------- Carrying out a command ----------

  /** What stands in a job ahead of a delete still does once its submission has become the saves of the row. */
  lemma SavedStill(job: seq<Cmd>, hash: Hash, n: nat, t: Table, id: TxId)
    requires 0 < n <= |job| && Submits(job[0]) && SavedBefore(job, n, t, id)
    ensures SavedBefore(Saved(job[0], hash) + job[1..], n + 1, t, id)
  {
    var rest := Saved(job[0], hash) + job[1..];
    var j :| 0 <= j < n && SavesLater(job[j], t, id);
    assert SavesLater(rest[if j == 0 then 0 else j + 1], t, id);
  }

  lemma TakenCareful(s: System, d: Layer, job: seq<Cmd>, hash: Hash)
    requires job != [] && Submits(job[0]) && Careful(s, d, job)
    ensures Careful(s, d, Saved(job[0], hash) + job[1..])
  {
    hide Spare, SavesLater, SavedBefore;
    var rest := Saved(job[0], hash) + job[1..];
    assert forall m :: 2 <= m < |rest| ==> rest[m] == job[m - 1];
    forall n | 0 <= n < |rest| && rest[n].DbDelete?
      ensures SavedBefore(rest, n, rest[n].table, rest[n].id) || Spare(s, d, rest[n].table, rest[n].id)
    {
      assert n >= 2 && rest[n] == job[n - 1];
      if SavedBefore(job, n - 1, rest[n].table, rest[n].id) {
        SavedStill(job, hash, n - 1, rest[n].table, rest[n].id);
      }
    }
  }

  lemma RefusedCareful(s: System, d: Layer, job: seq<Cmd>)
    requires job != [] && Submits(job[0]) && Careful(s, d, job)
    ensures Careful(s, d, Failed(job[0], job[1..]))
  {
    hide Spare, SavesLater, SavedBefore;
    var rest := Failed(job[0], job[1..]);
    if !(job[0].SubmitTx? && job[0].ackOnFail) && rest != [] {
      assert rest == job[1..] && job[1].Rearm?;
      assert forall n :: 0 <= n < |rest| ==> rest[n] == job[n + 1] && !rest[n].DbDelete?;
    }
  }

  lemma SubmitRestCareful(s: System, s': System, d: Layer, job: seq<Cmd>, answer: Option<Hash>)
    requires Later(s, s') && Kept(s, s', d) && OneLeaves(s, s', d)
    requires job != [] && Submits(job[0]) && Careful(s, d, job)
    ensures Careful(s', d, Rest(job, answer))
  {
    CarefulStable(s, s', d, job);
    hide Later, Kept, OneLeaves, Careful;
    if answer.Some? {
      TakenCareful(s', d, job, answer.value);
    } else {
      RefusedCareful(s', d, job);
    }
  }

  lemma LocalRestCareful(s: System, s': System, d: Layer, job: seq<Cmd>)
    requires Later(s, s') && Kept(s, s', d) && OneLeaves(s, s', d)
    requires job != [] && !Submits(job[0]) && Careful(s, d, job)
    requires At(s'.tables, d) == Local(At(s.tables, d), job[0], s.time.agent)
    ensures Careful(s', d, job[1..])
  {
    CarefulStable(s, s', d, job);
    var rest := job[1..];
    forall n | 0 <= n < |rest| && rest[n].DbDelete?
      ensures SavedBefore(rest, n, rest[n].table, rest[n].id) || Spare(s', d, rest[n].table, rest[n].id)
    {
      assert rest[n] == job[n + 1];
      var t, id := rest[n].table, rest[n].id;
      if SavedBefore(job, n + 1, t, id) {
        var j :| 0 <= j < n + 1 && SavesLater(job[j], t, id);
        if j == 0 {
          assert Key(job[0].table, id) in At(s'.tables, d).db;
        } else {
          assert SavesLater(rest[j - 1], t, id);
        }
      }
    }
  }

  lemma NewNackRow(s: System, s': System, d: Layer, job: seq<Cmd>, taken: bool, included: bool)
    requires HashesUsed(s) && job in At(s.jobs, d) && job != [] && job[0].SubmitAck?
    requires s' == DoWork(s, d, job, taken, included)
    requires job[0].info.status != ACK_SUCCESS && Known(s.chain, d, job[0].info.id)
    ensures NackRow(s', d, job[0].info.(ackHash := s.next))
  {
  }

  lemma NewReplyRow(s: System, s': System, d: Layer, job: seq<Cmd>, taken: bool, included: bool)
    requires HashesUsed(s) && job in At(s.jobs, d) && job != [] && job[0].SubmitReply?
    requires s' == DoWork(s, d, job, taken, included)
    requires job[0].info.status == ACK_SUCCESS && Opened(s.chain, d, job[0].info.id)
    ensures ReplyRow(s', d, job[0].info.(replyHash := s.next))
  {
  }

  /** A row saved under the hash just given to its call is stamped. */
  lemma NewRowStamped(s: System, d: Layer, job: seq<Cmd>, taken: bool, included: bool)
    requires HandOffInv(s) && job in At(s.jobs, d) && job != [] && Submits(job[0])
    ensures forall c :: c in Saved(job[0], s.next) ==> CmdStamped(DoWork(s, d, job, taken, included), d, c)
  {
    var s' := DoWork(s, d, job, taken, included);
    assert AgentOk(s, d) && JobOk(s.chain, d, job) && CmdOk(s.chain, d, job[0]);
    assert Backed(s.chain, d, job[0].info.id);
    hide DoWork, NackRow, ReplyRow, CmdStamped;
    match job[0] {
      case SubmitTx(i, _) => SaveStamped(s', d, SendTable, i.(sendHash := s.next));
      case SubmitAck(i) =>
        if i.status != ACK_SUCCESS { NewNackRow(s, s', d, job, taken, included); }
        SaveStamped(s', d, AckTable, i.(ackHash := s.next));
      case SubmitReply(i) =>
        NewReplyRow(s, s', d, job, taken, included);
        SaveStamped(s', d, ReplyTable, i.(replyHash := s.next));
    }
  }

  lemma SaveStamped(s: System, d: Layer, t: Table, i: Info)
    requires Stamped(s, d, t, i)
    ensures forall c :: c in Save(t, i) ==> CmdStamped(s, d, c)
  {
  }

  lemma SubmitLater(s: System, d: Layer, job: seq<Cmd>, taken: bool, included: bool)
    requires HashesUsed(s) && job in At(s.jobs, d) && job != [] && Submits(job[0])
    ensures var s' := DoWork(s, d, job, taken, included); Later(s, s') && s'.tables == s.tables
  {
    EvolvesReflexive(s.chain);
  }

  lemma SubmitHashes(s: System, d: Layer, job: seq<Cmd>, taken: bool, included: bool)
    requires HashesUsed(s) && job in At(s.jobs, d) && job != [] && Submits(job[0])
    ensures HashesUsed(DoWork(s, d, job, taken, included))
  {
  }

  lemma WorkJobs(s: System, d: Layer, job: seq<Cmd>, taken: bool, included: bool, e: Layer, j: seq<Cmd>)
    requires job in At(s.jobs, d) && job != []
    requires j in At(DoWork(s, d, job, taken, included).jobs, e)
    ensures j in At(s.jobs, e) || (e == d && j == Rest(job, if taken then Some(s.next) else None))
  {
  }

  lemma SubmitGood(s: System, d: Layer, job: seq<Cmd>, taken: bool, included: bool)
    requires HandOffInv(s) && job in At(s.jobs, d) && job != [] && Submits(job[0])
    ensures GoodStep(s, DoWork(s, d, job, taken, included))
  {
    var s' := DoWork(s, d, job, taken, included);
    var answer := if taken then Some(s.next) else None;
    var rest := Rest(job, answer);
    WorkKeeps(s, d, job, taken, included);
    SubmitLater(s, d, job, taken, included);
    SubmitHashes(s, d, job, taken, included);
    NewRowStamped(s, d, job, taken, included);
    assert Ordered(s, d);
    SubmitRestCareful(s, s', d, job, answer);
    forall c | c in rest ensures CmdStamped(s', d, c) {
      if c in job {
        assert CmdStamped(s, d, c);
        if c.DbPut? || c.MapEmplace? { StampedStable(s, s', d, c.table, c.info); }
      }
    }
    forall e, j | j in At(s'.jobs, e) ensures j in At(s.jobs, e) || (e == d && j == rest) {
      WorkJobs(s, d, job, taken, included, e, j);
    }
    forall e ensures GoodDir(s, s', e) { SameRows(s, s', e); }
  }

  lemma LocalLater(s: System, d: Layer, job: seq<Cmd>, taken: bool, included: bool)
    requires HandOffInv(s) && job in At(s.jobs, d) && job != [] && !Submits(job[0])
    ensures var s' := DoWork(s, d, job, taken, included);
      Later(s, s') && HashesUsed(s') && forall e :: Kept(s, s', e) && OneLeaves(s, s', e)
  {
    hide Inv, Evolves;
    var s' := DoWork(s, d, job, taken, included);
    EvolvesReflexive(s.chain);
    assert Ordered(s, d) && Careful(s, d, job);
    if job[0].DbDelete? {
      assert !SavedBefore(job, 0, job[0].table, job[0].id);
      assert Spare(s, d, job[0].table, job[0].id);
    }
  }

  /** Local commands put in the tables only what they say. */
  lemma LocalRows(a: Agent, c: Cmd, now: int)
    requires !Submits(c)
    ensures var a' := Local(a, c, now);
      && (forall k :: k in a'.mem ==>
            || (k in a.mem && a'.mem[k].info == a.mem[k].info)
            || (c.MapEmplace? && k == Key(c.table, c.info.id) && a'.mem[k].info == c.info))
      && (forall k :: k in a'.db ==>
            (k in a.db && a'.db[k] == a.db[k]) || (c.DbPut? && k == Key(c.table, c.info.id) && a'.db[k] == c.info))
  {
  }

  lemma LocalGood(s: System, d: Layer, job: seq<Cmd>, taken: bool, included: bool)
    requires HandOffInv(s) && job in At(s.jobs, d) && job != [] && !Submits(job[0])
    ensures GoodStep(s, DoWork(s, d, job, taken, included))
  {
    var s' := DoWork(s, d, job, taken, included);
    WorkKeeps(s, d, job, taken, included);
    LocalLater(s, d, job, taken, included);
    assert Ordered(s, d);
    LocalRestCareful(s, s', d, job);
    forall c | c in job[1..] ensures CmdStamped(s', d, c) {
      assert c in job && CmdStamped(s, d, c);
      if c.DbPut? || c.MapEmplace? { StampedStable(s, s', d, c.table, c.info); }
    }
    forall e, j | j in At(s'.jobs, e) ensures j in At(s.jobs, e) || (e == d && j == job[1..]) {
      WorkJobs(s, d, job, taken, included, e, j);
    }
    LocalRowsAfter(s, d, job, taken, included);
  }

  lemma LocalRowsAfter(s: System, d: Layer, job: seq<Cmd>, taken: bool, included: bool)
    requires HandOffInv(s) && job in At(s.jobs, d) && job != [] && !Submits(job[0])
    ensures var s' := DoWork(s, d, job, taken, included);
      && (forall e, k :: k in At(s'.tables, e).mem ==> Stamped(s', e, k.table, At(s'.tables, e).mem[k].info))
      && (forall e, k :: k in At(s'.tables, e).db ==> Stamped(s', e, k.table, At(s'.tables, e).db[k]))
  {
    hide Inv, Later, Stamped;
    var s' := DoWork(s, d, job, taken, included);
    LocalLater(s, d, job, taken, included);
    assert Ordered(s, d) && CmdStamped(s, d, job[0]);
    LocalRows(At(s.tables, d), job[0], s.time.agent);
    forall e, k | k in At(s'.tables, e).mem ensures Stamped(s', e, k.table, At(s'.tables, e).mem[k].info) {
      assert Ordered(s, e);
      StampedStable(s, s', e, k.table, At(s'.tables, e).mem[k].info);
    }
    forall e, k | k in At(s'.tables, e).db ensures Stamped(s', e, k.table, At(s'.tables, e).db[k]) {
      assert Ordered(s, e);
      StampedStable(s, s', e, k.table, At(s'.tables, e).db[k]);
    }
  }

  lemma CrashGood(s: System)
    requires HandOffInv(s)
    ensures GoodStep(s, DoCrash(s))
  {
    hide Inv, Evolves, Stamped;
    var s' := DoCrash(s);
    CrashKeeps(s);
    EvolvesReflexive(s.chain);
    forall d ensures GoodDir(s, s', d) {
      assert Ordered(s, d);
      forall k | k in At(s'.tables, d).mem ensures Stamped(s', d, k.table, At(s'.tables, d).mem[k].info) {
        StampedStable(s, s', d, k.table, At(s.tables, d).db[k]);
      }
    }
  }

  lemma ActionGood(s: System, a: Action)
    requires HandOffInv(s) && Enabled(s, a)
    ensures GoodStep(s, Do(s, a))
  {
    match a {
      case User(layer, call, msg) => UserGood(s, layer, call, msg);
      case Include(layer, hash, accepts) => IncludeGood(s, layer, hash, accepts);
      case Drop(layer, hash) => DropGood(s, layer, hash);
      case Tick(time) => TickGood(s, time);
      case Deliver(layer, event, ledgerSeq) => DeliverGood(s, Do(s, a), layer, event, ledgerSeq);
      case Visit(_, _, _, _, _, _) => VisitGood(s, Do(s, a), a);
      case Work(d, job, taken, included) =>
        if Submits(job[0]) { SubmitGood(s, d, job, taken, included); } else { LocalGood(s, d, job, taken, included); }
      case Crash => CrashGood(s);
    }
  }

  lemma InitHandOff(owner1: Address, owner2: Address, chainId: nat, timeout1: nat, timeout2: nat, time: Times)
    requires chainId != 0
    ensures HandOffInv(Init(owner1, owner2, chainId, timeout1, timeout2, time))
  {
    InitOk(owner1, owner2, chainId, timeout1, timeout2, time);
  }

  lemma {:induction false} RunOrdered(s: System, run: seq<Action>)
    requires HandOffInv(s) && Possible(s, run)
    ensures HandOffInv(Final(s, run))
    decreases |run|
  {
    if run != [] {
      ActionGood(s, run[0]);
      GoodStepKeeps(s, Do(s, run[0]));
      RunOrdered(Do(s, run[0]), run[1..]);
    }
  }

  /** Every state some run leads to from an empty bridge is one the theorems of this module speak of. */
  lemma ReachableOrdered(s: System)
    requires Reachable(s)
    ensures HandOffInv(s)
  {
    var owner1, owner2, chainId, timeout1, timeout2, time, run :|
      ReachedBy(s, owner1, owner2, chainId, timeout1, timeout2, time, run);
    InitHandOff(owner1, owner2, chainId, timeout1, timeout2, time);
    RunOrdered(Init(owner1, owner2, chainId, timeout1, timeout2, time), run);
  }

  /**
    Crash-safe hand-off over any run: an id that is in the database is still in some stage table
    at the end, or its failure ack or its payout has taken effect, or the agent had sent a failure
    ack that lost against the success ack.
  */
  lemma {:induction false} HandOffRun(s: System, run: seq<Action>, d: Layer, id: TxId)
    requires HandOffInv(s) && Possible(s, run)
    requires InDatabase(s, d, id) || Over(s, d, id)
    ensures InDatabase(Final(s, run), d, id) || Over(Final(s, run), d, id)
    ensures HandOffInv(Final(s, run))
    decreases |run|
  {
    if run != [] {
      ActionGood(s, run[0]);
      GoodStepKeeps(s, Do(s, run[0]));
      assert GoodDir(s, Do(s, run[0]), d);
      StaysOrOver(s, Do(s, run[0]), d, id);
      HandOffRun(Do(s, run[0]), run[1..], d, id);
    }
  }

  // ---------- Exactly when an id is lost ----------

  /** The source has paid the agent and the destination has not paid the receiver. */
  predicate Unpaid(w: Chains, d: Layer, id: TxId) {
    && Known(w, d, id) && SourceRecord(w, d, id).status == ACK_SUCCESS
    && Opened(w, d, id) && DestRecord(w, d, id).status == INIT
  }

  ghost predicate OnlyRow(a: Agent, t: Table, id: TxId) {
    forall u: Table :: Key(u, id) in a.db <==> u == t
  }

  /** The action deletes the last row an id has in the database, while its receiver is unpaid. */
  ghost predicate Drops(s: System, a: Action, d: Layer, id: TxId) {
    && a.Work? && a.d == d && a.job != [] && a.job[0].DbDelete? && a.job[0].id == id
    && OnlyRow(At(s.tables, d), a.job[0].table, id) && Unpaid(s.chain, d, id)
  }

  ghost predicate Minded(s: System, d: Layer, id: TxId) {
    InDatabase(s, d, id) || Settled(s.chain, d, id)
  }

  lemma RowLost(s: System, a: Action, d: Layer, k: Key)
    requires Enabled(s, a) && k in At(s.tables, d).db && k !in At(Do(s, a).tables, d).db
    ensures a.Work? && a.d == d && a.job[0] == DbDelete(k.table, k.id)
  {
  }

  lemma SettledStays(s: System, a: Action, d: Layer, id: TxId)
    requires HandOffInv(s) && Enabled(s, a) && Settled(s.chain, d, id)
    ensures Settled(Do(s, a).chain, d, id)
  {
    ActionGood(s, a);
    KnownStable(s.chain, Do(s, a).chain, d, id);
  }

  lemma LostIsDropped(s: System, a: Action, d: Layer, id: TxId)
    requires HandOffInv(s) && Enabled(s, a) && InDatabase(s, d, id) && !Settled(s.chain, d, id)
    requires !InDatabase(Do(s, a), d, id)
    ensures Drops(s, a, d, id)
  {
    var t: Table :| Key(t, id) in At(s.tables, d).db;
    RowLost(s, a, d, Key(t, id));
    forall u: Table | Key(u, id) in At(s.tables, d).db ensures u == t {
      RowLost(s, a, d, Key(u, id));
    }
    LostUnpaid(s, a, d, id, t);
  }

  lemma LostUnpaid(s: System, a: Action, d: Layer, id: TxId, t: Table)
    requires HandOffInv(s) && Enabled(s, a) && !Settled(s.chain, d, id)
    requires Key(t, id) in At(s.tables, d).db && Key(t, id) !in At(Do(s, a).tables, d).db
    requires forall u: Table :: Key(u, id) in At(s.tables, d).db ==> u == t
    ensures Unpaid(s.chain, d, id)
  {
    hide Do, Enabled, Later, Ordered, HashesUsed;
    ActionGood(s, a);
    assert GoodDir(s, Do(s, a), d) && Spare(s, d, t, id) && Clash(s, d, id) && Backed(s.chain, d, id);
  }

  lemma DropIsLost(s: System, a: Action, d: Layer, id: TxId)
    requires Enabled(s, a) && Drops(s, a, d, id)
    ensures !Minded(Do(s, a), d, id)
  {
    assert Do(s, a).chain == s.chain;
  }

  /**
    One step loses an id whose transfer is not over exactly when it deletes the id's last row while
    the source record is ACK_SUCCESS and the destination record is INIT.
  */
  lemma DropsExactly(s: System, a: Action, d: Layer, id: TxId)
    requires HandOffInv(s) && Enabled(s, a) && Minded(s, d, id)
    ensures !Minded(Do(s, a), d, id) <==> Drops(s, a, d, id)
  {
    if Settled(s.chain, d, id) {
      SettledStays(s, a, d, id);
    } else if !InDatabase(Do(s, a), d, id) {
      LostIsDropped(s, a, d, id);
      assert Do(s, a).chain == s.chain;
    }
    if Drops(s, a, d, id) { DropIsLost(s, a, d, id); }
  }

  /** The id is in the database, or its transfer is over, at the beginning and after every step of a run. */
  ghost predicate MindedThroughout(s: System, run: seq<Action>, d: Layer, id: TxId)
    requires Possible(s, run)
    decreases |run|
  {
    Minded(s, d, id) && (run != [] ==> MindedThroughout(Do(s, run[0]), run[1..], d, id))
  }

  ghost predicate SomeDrop(s: System, run: seq<Action>, d: Layer, id: TxId)
    requires Possible(s, run)
    decreases |run|
  {
    run != [] && (Drops(s, run[0], d, id) || SomeDrop(Do(s, run[0]), run[1..], d, id))
  }

  /**
    And so over whole runs with crashes: the hand-off holds all the way exactly when no step deletes a last row
    like that.
  */
  lemma {:induction false} HandOffExactly(s: System, run: seq<Action>, d: Layer, id: TxId)
    requires HandOffInv(s) && Possible(s, run) && Minded(s, d, id)
    ensures MindedThroughout(s, run, d, id) <==> !SomeDrop(s, run, d, id)
    decreases |run|
  {
    if run != [] {
      DropsExactly(s, run[0], d, id);
      ActionGood(s, run[0]);
      GoodStepKeeps(s, Do(s, run[0]));
      if Minded(Do(s, run[0]), d, id) {
        HandOffExactly(Do(s, run[0]), run[1..], d, id);
      }
    }
  }

  lemma DueRefusalPlanned(s: System, d: Layer, id: TxId)
    requires Inv(s) && Unpaid(s.chain, d, id) && Key(AckTable, id) in At(s.tables, d).mem
    requires var e := At(s.tables, d).mem[Key(AckTable, id)];
      e.info.status != ACK_SUCCESS && e.ackDeadline < s.time.agent
    ensures var a := Visit(d, AckSweep, id, false, ACK_SUCCESS, false);
      Enabled(s, a) && VisitPlan(s, a) == Clear(AckTable, id)
  {
    assert AgentOk(s, d);
  }

  /**
    How it comes about: a refusal row in memory that is due, while the ack that took effect was a
    success.  The loop asks for the status, sees that the source is settled, and clears the row.
  */
  lemma DueRefusalDrops(s: System, d: Layer, id: TxId)
    requires Inv(s) && Unpaid(s.chain, d, id) && OnlyRow(At(s.tables, d), AckTable, id)
    requires Key(AckTable, id) in At(s.tables, d).mem
    requires var e := At(s.tables, d).mem[Key(AckTable, id)];
      e.info.status != ACK_SUCCESS && e.ackDeadline < s.time.agent
    ensures var a := Visit(d, AckSweep, id, false, ACK_SUCCESS, false);
      && Enabled(s, a) && Clear(AckTable, id) in At(Do(s, a).jobs, d)
      && var b := Work(d, Clear(AckTable, id), false, false);
      Enabled(Do(s, a), b) && Drops(Do(s, a), b, d, id)
  {
    var a := Visit(d, AckSweep, id, false, ACK_SUCCESS, false);
    DueRefusalPlanned(s, d, id);
    hide VisitPlan, Unpaid, OnlyRow, Inv;
    assert Do(s, a).chain == s.chain && Do(s, a).tables == s.tables;
  }
}
