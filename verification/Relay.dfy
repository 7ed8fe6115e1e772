/**
  The agent's side of the bridge.  A relay carries the transfers started on one chain to the
  other.  It keeps four stage tables, each in memory and in the database, and answers events,
  confirmations and timeouts by submitting calls and moving an id from table to table.
  What a handler does is a plan: the list of commands it carries out in order.
*/
module Relay {
  import opened Escrow
  import opened Wrappers

  /** Zero stands for a hash that was never set. */
  type Hash = nat

  const NO_HASH: Hash := 0
  const MAX_INT64 := 0x7FFF_FFFF_FFFF_FFFF
  const ACK_PERIOD := 60_000_000

  /** What a number is after a trip through a decimal string and atol. */
  function Clamp(n: nat): nat {
    if n <= MAX_INT64 then n else MAX_INT64
  }

  datatype Table = StartTable | SendTable | AckTable | ReplyTable

  function Stage(t: Table): nat {
    match t
    case StartTable => 0
    case SendTable => 1
    case AckTable => 2
    case ReplyTable => 3
  }

  /** The message a table row holds: what was read of a record, and the hashes of the calls sent for it. */
  datatype Info = Info(
    id: TxId, srcBid: Address, destBid: Address, amount: nat, status: Status,
    createTimestamp: nat, executeTimestamp: nat, timeout: nat, confirmSeq: int,
    sendHash: Hash, ackHash: Hash, replyHash: Hash)

  datatype Key = Key(table: Table, id: TxId)

  /** A row in memory also knows when to look at its ack again. */
  datatype Entry = Entry(info: Info, ackDeadline: int)

  datatype Agent = Agent(mem: map<Key, Entry>, db: map<Key, Info>)

  /** What the agent makes of a record it reads from a contract. */
  function Read(id: TxId, r: Record): Info {
    Info(id, r.srcBid, r.destBid, Clamp(r.amount), r.status, Clamp(r.createTimestamp),
         Clamp(r.executeTimestamp), Clamp(r.timeout), 0, NO_HASH, NO_HASH, NO_HASH)
  }

  // ---------- Commands ----------

  datatype Cmd =
    | SubmitTx(info: Info, ackOnFail: bool)
    | SubmitAck(info: Info)
    | SubmitReply(info: Info)
    | DbPut(table: Table, info: Info)
    | MapEmplace(table: Table, info: Info)
    | DbDelete(table: Table, id: TxId)
    | MapErase(table: Table, id: TxId)
    | Rearm(table: Table, id: TxId)

  predicate Submits(c: Cmd) {
    c.SubmitTx? || c.SubmitAck? || c.SubmitReply?
  }

  function IdOf(c: Cmd): TxId {
    if Submits(c) || c.DbPut? || c.MapEmplace? then c.info.id else c.id
  }

  /** The call a submission carries, and the description sent along with an ack. */
  function Description(source: Layer, i: Info): string {
    if Code(i.status) > 1 then "send tx failed" else if source == L1 then "success" else ""
  }

  function CallOf(source: Layer, c: Cmd): Call
    requires Submits(c)
  {
    if c.SubmitTx? then Call.SendTx(c.info.id, c.info.srcBid, c.info.destBid, c.info.amount, c.info.timeout)
    else Call.SendAckedTx(c.info.id, Code(c.info.status), Description(source, c.info), c.info.executeTimestamp)
  }

  function TargetOf(source: Layer, c: Cmd): Layer
    requires Submits(c)
  {
    if c.SubmitAck? then source else Other(source)
  }

  function Save(t: Table, i: Info): seq<Cmd> {
    [DbPut(t, i), MapEmplace(t, i)]
  }

  function Clear(t: Table, id: TxId): seq<Cmd> {
    [DbDelete(t, id), MapErase(t, id)]
  }

  /** What an accepted submission saves, under the hash it got. */
  function Saved(c: Cmd, h: Hash): seq<Cmd>
    requires Submits(c)
  {
    match c
    case SubmitTx(i, _) => Save(SendTable, i.(sendHash := h))
    case SubmitAck(i) => Save(AckTable, i.(ackHash := h))
    case SubmitReply(i) => Save(ReplyTable, i.(replyHash := h))
  }

  /** What is left to do when a submission fails. */
  function Failed(c: Cmd, rest: seq<Cmd>): seq<Cmd>
    requires Submits(c)
  {
    if c.SubmitTx? && c.ackOnFail then [SubmitAck(c.info.(status := ACK_FAIL))]
    else if rest != [] && rest[0].Rearm? then rest
    else []
  }

  // ---------- Plans ----------

  function StartPlan(source: Layer, i: Info, ledgerSeq: Option<int>): seq<Cmd> {
    if source == L1 then [SubmitTx(i, true)]
    else match ledgerSeq
      case None => []
      case Some(n) => Save(StartTable, i.(confirmSeq := n))
  }

  function SendEventPlan(i: Info): seq<Cmd> {
    [SubmitAck(i.(status := ACK_SUCCESS))] + Clear(SendTable, i.id)
  }

  function AckedEventPlan(i: Info): seq<Cmd> {
    [SubmitReply(i)] + Clear(AckTable, i.id)
  }

  function ConfirmPlan(e: Entry, confirmSeq: int, now: int): seq<Cmd> {
    if e.info.confirmSeq > confirmSeq then []
    else if e.info.timeout < now then [SubmitAck(e.info.(status := ACK_TIMEOUT))]
    else [SubmitTx(e.info, false)] + Clear(StartTable, e.info.id)
  }

  function StartTimeoutPlan(e: Entry, now: int): seq<Cmd> {
    if e.info.timeout >= now then []
    else [SubmitAck(e.info.(status := ACK_FAIL))] + Clear(StartTable, e.info.id)
  }

  function SendTimeoutPlan(e: Entry, now: int, receipt: bool, read: Option<Info>): seq<Cmd> {
    if e.info.timeout >= now then []
    else if receipt then (match read case None => [] case Some(i) => SendEventPlan(i))
    else [SubmitAck(e.info.(status := ACK_TIMEOUT))] + Clear(SendTable, e.info.id)
  }

  function AckTimeoutPlan(e: Entry, now: int, receipt: bool, status: Status): seq<Cmd> {
    if e.ackDeadline >= now then []
    else if e.info.status != ACK_SUCCESS && (receipt || status != INIT) then Clear(AckTable, e.info.id)
    else [SubmitAck(e.info), Rearm(AckTable, e.info.id)]
  }

  function ReplyTimeoutPlan(e: Entry, now: int, receipt: bool, status: Status): seq<Cmd> {
    if e.ackDeadline >= now then []
    else if receipt || status != INIT then Clear(ReplyTable, e.info.id)
    else [SubmitReply(e.info), Rearm(ReplyTable, e.info.id)]
  }

  // ---------- Carrying out commands ----------

  /** emplace keeps a row that is already there; a database write replaces it. */
  function Local(a: Agent, c: Cmd, now: int): Agent
    requires !Submits(c)
  {
    match c
    case DbPut(t, i) => a.(db := a.db[Key(t, i.id) := i])
    case MapEmplace(t, i) =>
      if Key(t, i.id) in a.mem then a else a.(mem := a.mem[Key(t, i.id) := Entry(i, now + ACK_PERIOD)])
    case DbDelete(t, id) => a.(db := a.db - {Key(t, id)})
    case MapErase(t, id) => a.(mem := a.mem - {Key(t, id)})
    case Rearm(t, id) =>
      if Key(t, id) in a.mem then a.(mem := a.mem[Key(t, id) := a.mem[Key(t, id)].(ackDeadline := now + ACK_PERIOD)])
      else a
  }

  /** What is left to do after the first command, when its submission got this answer. */
  function Rest(todo: seq<Cmd>, answer: Option<Hash>): seq<Cmd>
    requires todo != []
  {
    if !Submits(todo[0]) then todo[1..]
    else match answer
      case Some(h) => Saved(todo[0], h) + todo[1..]
      case None => Failed(todo[0], todo[1..])
  }

  function Weight(c: Cmd): nat {
    if c.SubmitTx? then 5 else if Submits(c) then 3 else 1
  }

  function Work(todo: seq<Cmd>): nat {
    if todo == [] then 0 else Weight(todo[0]) + Work(todo[1..])
  }

  lemma {:induction false} WorkAppend(a: seq<Cmd>, b: seq<Cmd>)
    ensures Work(a + b) == Work(a) + Work(b)
  {
    if a == [] {
      assert a + b == b;
    } else {
      assert (a + b)[1..] == a[1..] + b;
      WorkAppend(a[1..], b);
    }
  }

  /** Every step leaves less to do, so every handler ends. */
  lemma RestShrinks(todo: seq<Cmd>, answer: Option<Hash>)
    requires todo != []
    ensures Work(Rest(todo, answer)) < Work(todo)
  {
    if Submits(todo[0]) && answer.Some? {
      var saves := Saved(todo[0], answer.value);
      WorkAppend(saves, todo[1..]);
      assert saves[1..] == [saves[1]];
    }
  }

  /** The answers of the outside world during one handler. */
  datatype Net = Net(
    submit: Call -> Option<Hash>, receipt: Hash -> bool, status: TxId -> Status,
    readSource: TxId -> Option<Record>, readDest: TxId -> Option<Record>, ledgerSeq: Option<int>)

  datatype Sent = Sent(target: Layer, call: Call, accepted: bool)

  function Answer(source: Layer, c: Cmd, net: Net): Option<Hash> {
    if Submits(c) then net.submit(CallOf(source, c)) else None
  }

  /** The tables after a plan has been carried out without interruption. */
  function Run(source: Layer, a: Agent, todo: seq<Cmd>, net: Net, now: int): Agent
    decreases Work(todo)
  {
    if todo == [] then a
    else
      var answer := Answer(source, todo[0], net);
      RestShrinks(todo, answer);
      Run(source, if Submits(todo[0]) then a else Local(a, todo[0], now), Rest(todo, answer), net, now)
  }

  /** The calls a plan submits. */
  function Calls(source: Layer, todo: seq<Cmd>, net: Net): seq<Sent>
    decreases Work(todo)
  {
    if todo == [] then []
    else
      var answer := Answer(source, todo[0], net);
      RestShrinks(todo, answer);
      (if Submits(todo[0]) then [Sent(TargetOf(source, todo[0]), CallOf(source, todo[0]), answer.Some?)] else [])
      + Calls(source, Rest(todo, answer), net)
  }

  // ---------- Plans stay within one id ----------

  predicate About(todo: seq<Cmd>, id: TxId) {
    forall c :: c in todo ==> IdOf(c) == id
  }

  ghost predicate SameAt(a: Agent, b: Agent, id: TxId) {
    forall t: Table ::
      && (Key(t, id) in a.mem <==> Key(t, id) in b.mem)
      && (Key(t, id) in a.mem ==> a.mem[Key(t, id)] == b.mem[Key(t, id)])
      && (Key(t, id) in a.db <==> Key(t, id) in b.db)
      && (Key(t, id) in a.db ==> a.db[Key(t, id)] == b.db[Key(t, id)])
  }

  lemma LocalAt(a: Agent, b: Agent, c: Cmd, now: int, id: TxId)
    requires !Submits(c)
    ensures IdOf(c) != id ==> SameAt(Local(a, c, now), a, id)
    ensures IdOf(c) == id && SameAt(a, b, id) ==> SameAt(Local(a, c, now), Local(b, c, now), id)
  {
  }

  lemma RestAbout(todo: seq<Cmd>, answer: Option<Hash>, id: TxId)
    requires todo != [] && About(todo, id)
    ensures About(Rest(todo, answer), id)
  {
    assert IdOf(todo[0]) == id;
    if Submits(todo[0]) && answer.Some? {
      forall c | c in Rest(todo, answer) ensures IdOf(c) == id {
        assert c in Saved(todo[0], answer.value) || c in todo[1..];
      }
    }
  }

  /** A plan about one id changes nothing at the others. */
  lemma {:induction false} RunElsewhere(source: Layer, a: Agent, todo: seq<Cmd>, net: Net, now: int, id: TxId,
                                        other: TxId)
    requires About(todo, id) && other != id
    ensures SameAt(Run(source, a, todo, net, now), a, other)
    decreases Work(todo)
  {
    if todo != [] {
      var answer := Answer(source, todo[0], net);
      RestShrinks(todo, answer);
      RestAbout(todo, answer, id);
      var next := if Submits(todo[0]) then a else Local(a, todo[0], now);
      if !Submits(todo[0]) { assert IdOf(todo[0]) == id; LocalAt(a, a, todo[0], now, other); }
      RunElsewhere(source, next, Rest(todo, answer), net, now, id, other);
    }
  }

  /** What a plan does at its id depends on nothing but the rows of that id. */
  lemma {:induction false} RunThere(source: Layer, a: Agent, b: Agent, todo: seq<Cmd>, net: Net, now: int, id: TxId)
    requires About(todo, id) && SameAt(a, b, id)
    ensures SameAt(Run(source, a, todo, net, now), Run(source, b, todo, net, now), id)
    decreases Work(todo)
  {
    if todo != [] {
      var answer := Answer(source, todo[0], net);
      RestShrinks(todo, answer);
      RestAbout(todo, answer, id);
      if Submits(todo[0]) {
        RunThere(source, a, b, Rest(todo, answer), net, now, id);
      } else {
        assert IdOf(todo[0]) == id;
        LocalAt(a, b, todo[0], now, id);
        RunThere(source, Local(a, todo[0], now), Local(b, todo[0], now), Rest(todo, answer), net, now, id);
      }
    }
  }

  lemma {:induction false} CallsAbout(source: Layer, todo: seq<Cmd>, net: Net, id: TxId)
    requires About(todo, id)
    ensures forall s :: s in Calls(source, todo, net) ==> s.call.id == id
    decreases Work(todo)
  {
    if todo != [] {
      var answer := Answer(source, todo[0], net);
      RestShrinks(todo, answer);
      RestAbout(todo, answer, id);
      CallsAbout(source, Rest(todo, answer), net, id);
      assert IdOf(todo[0]) == id;
    }
  }

  // ---------- Memory and database hold the same ids ----------

  ghost predicate InStep(a: Agent) {
    && a.mem.Keys == a.db.Keys
    && (forall k :: k in a.mem ==> a.mem[k].info.id == k.id)
    && (forall k :: k in a.db ==> a.db[k].id == k.id)
  }

  /** Writes and deletes come in pairs: the database first, then the map. */
  predicate Paired(todo: seq<Cmd>)
    decreases |todo|
  {
    if todo == [] then true
    else if Submits(todo[0]) || todo[0].Rearm? then Paired(todo[1..])
    else
      && |todo| >= 2
      && ((todo[0].DbPut? && todo[1] == MapEmplace(todo[0].table, todo[0].info))
          || (todo[0].DbDelete? && todo[1] == MapErase(todo[0].table, todo[0].id)))
      && Paired(todo[2..])
  }

  lemma RestPaired(todo: seq<Cmd>, answer: Option<Hash>)
    requires todo != [] && Paired(todo) && Submits(todo[0])
    ensures Paired(Rest(todo, answer))
  {
    if answer.Some? {
      var next := Rest(todo, answer);
      assert next[2..] == todo[1..];
    }
  }

  /** A whole plan leaves memory and database with the same ids. */
  lemma {:induction false} RunInStep(source: Layer, a: Agent, todo: seq<Cmd>, net: Net, now: int)
    requires InStep(a) && Paired(todo)
    ensures InStep(Run(source, a, todo, net, now))
    decreases Work(todo)
  {
    if todo != [] {
      var answer := Answer(source, todo[0], net);
      RestShrinks(todo, answer);
      if Submits(todo[0]) {
        RestPaired(todo, answer);
        RunInStep(source, a, Rest(todo, answer), net, now);
      } else if todo[0].Rearm? {
        assert Rest(todo, answer) == todo[1..];
        RunInStep(source, Local(a, todo[0], now), todo[1..], net, now);
      } else {
        var middle := Local(a, todo[0], now);
        var rest := Rest(todo, answer);
        assert rest == todo[1..] && rest[0] == todo[1];
        RestShrinks(rest, Answer(source, rest[0], net));
        assert Rest(rest, Answer(source, rest[0], net)) == todo[2..];
        PairInStep(a, todo[0], todo[1], now);
        RunInStep(source, Local(middle, todo[1], now), todo[2..], net, now);
      }
    }
  }

  lemma PairInStep(a: Agent, first: Cmd, second: Cmd, now: int)
    requires InStep(a)
    requires (first.DbPut? && second == MapEmplace(first.table, first.info))
          || (first.DbDelete? && second == MapErase(first.table, first.id))
    ensures InStep(Local(Local(a, first, now), second, now))
  {
  }

  // ---------- Whole handlers, one command group at a time ----------

  function SaveAt(a: Agent, t: Table, i: Info, now: int): Agent {
    Local(Local(a, DbPut(t, i), now), MapEmplace(t, i), now)
  }

  function ClearAt(a: Agent, t: Table, id: TxId, now: int): Agent {
    Local(Local(a, DbDelete(t, id), now), MapErase(t, id), now)
  }

  lemma RunPair(source: Layer, a: Agent, first: Cmd, second: Cmd, rest: seq<Cmd>, net: Net, now: int)
    requires !Submits(first) && !Submits(second)
    ensures Run(source, a, [first, second] + rest, net, now)
         == Run(source, Local(Local(a, first, now), second, now), rest, net, now)
    ensures Calls(source, [first, second] + rest, net) == Calls(source, rest, net)
  {
    var todo := [first, second] + rest;
    assert todo[1..] == [second] + rest;
    assert ([second] + rest)[1..] == rest;
  }

  lemma RunSave(source: Layer, a: Agent, t: Table, i: Info, rest: seq<Cmd>, net: Net, now: int)
    ensures Run(source, a, Save(t, i) + rest, net, now) == Run(source, SaveAt(a, t, i, now), rest, net, now)
    ensures Calls(source, Save(t, i) + rest, net) == Calls(source, rest, net)
  {
    RunPair(source, a, DbPut(t, i), MapEmplace(t, i), rest, net, now);
  }

  lemma RunClear(source: Layer, a: Agent, t: Table, id: TxId, net: Net, now: int)
    ensures Run(source, a, Clear(t, id), net, now) == ClearAt(a, t, id, now)
    ensures Calls(source, Clear(t, id), net) == []
  {
    RunPair(source, a, DbDelete(t, id), MapErase(t, id), [], net, now);
    assert Clear(t, id) + [] == Clear(t, id);
  }

  /** An accepted submission saves its row and goes on; a failed one goes on with what is left. */
  lemma RunSubmit(source: Layer, a: Agent, c: Cmd, rest: seq<Cmd>, net: Net, now: int)
    requires Submits(c)
    ensures var answer := net.submit(CallOf(source, c));
      var sent := Sent(TargetOf(source, c), CallOf(source, c), answer.Some?);
      && (answer.Some? ==>
          var t := if c.SubmitTx? then SendTable else if c.SubmitAck? then AckTable else ReplyTable;
          var saved := Saved(c, answer.value)[0].info;
          && Run(source, a, [c] + rest, net, now) == Run(source, SaveAt(a, t, saved, now), rest, net, now)
          && Calls(source, [c] + rest, net) == [sent] + Calls(source, rest, net))
      && (answer.None? ==>
          && Run(source, a, [c] + rest, net, now) == Run(source, a, Failed(c, rest), net, now)
          && Calls(source, [c] + rest, net) == [sent] + Calls(source, Failed(c, rest), net))
  {
    var todo := [c] + rest;
    assert todo[0] == c && todo[1..] == rest;
    var answer := net.submit(CallOf(source, c));
    if answer.Some? {
      var t := if c.SubmitTx? then SendTable else if c.SubmitAck? then AckTable else ReplyTable;
      RunSave(source, a, t, Saved(c, answer.value)[0].info, rest, net, now);
    }
  }
}
