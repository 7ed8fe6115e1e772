/**
  The escrow contracts at both ends of the bridge, as values: the state of one contract, the
  calls it takes, and what each call does to that state or why it reverts.  The two contracts
  differ only in which chain id marks a transfer as started here, and in whether SendTx accepts
  a timeout equal to the block time.
*/
module Escrow {
  import opened Bytes
  import opened Totals

  type TxId = seq<Byte>
  type Address = nat

  const ZERO_ADDRESS: Address := 0
  const ID_LENGTH := 32
  const ERROR_DESC_LIMIT := 2048
  const UINT256_LIMIT: int := 0x1_0000_0000_0000_0000_0000_0000_0000_0000_0000_0000_0000_0000_0000_0000_0000_0000

  datatype Layer = L1 | L2

  function Other(layer: Layer): Layer {
    if layer == L1 then L2 else L1
  }

  datatype Status = INIT | ACK_SUCCESS | ACK_FAIL | ACK_TIMEOUT
  datatype Refunded = NONE | TODO | REFUNDED

  /** The number a status has in a call argument or a query answer. */
  function Code(s: Status): nat {
    match s
    case INIT => 0
    case ACK_SUCCESS => 1
    case ACK_FAIL => 2
    case ACK_TIMEOUT => 3
  }

  datatype Record = Record(
    srcChainId: nat, destChainId: nat, srcBid: Address, destBid: Address, amount: nat,
    status: Status, refunded: Refunded, errorDesc: string,
    createTimestamp: nat, executeTimestamp: nat, timeout: nat)

  datatype Event =
    | StartTxEvent(id: TxId)
    | SendTxEvent(id: TxId)
    | SendAckedTxEvent(id: TxId)
    | RefundEvent(id: TxId)

  /** The role of a record: started on this contract, or opened by the agent for a transfer started on the other one. */
  datatype Role = Source | Destination

  datatype Flow = Deposited | PaidOut | RefundedOut

  /** One transfer of coins into or out of the contract. */
  datatype Move = Move(role: Role, flow: Flow, id: TxId, party: Address, amount: nat)

  /** A record exists for an id exactly when its stored id is not empty, so presence in `records` is that test. */
  datatype Ledger = Ledger(
    layer: Layer, owner: Address, chainId: nat, timeout: nat,
    records: map<TxId, Record>, balance: nat, events: seq<Event>, moves: seq<Move>)

  /** What a transaction carries besides its arguments, and whether the account it would pay accepts coins. */
  datatype Msg = Msg(sender: Address, value: nat, time: nat, payeeAccepts: bool)

  datatype Call =
    | StartTx(id: TxId, src: Address, dest: Address, amount: nat)
    | SendTx(id: TxId, src: Address, dest: Address, amount: nat, timeout: nat)
    | SendAckedTx(id: TxId, result: nat, errorDesc: string, executeTime: nat)
    | Refund(id: TxId)

  datatype Reason =
    | NotPayable | InvalidBid | NotSender | AmountMismatch | Overflow | NotOwner | InvalidId | Expired | Exists
    | Missing | NotInit | BadResult | DescTooLong | BadExecuteTime | NotRefundable | NoFunds | PayeeRefuses

  datatype Outcome = Done(after: Ledger) | Revert(reason: Reason)

  // ---------- Chain ids and roles ----------

  /** The chain id a contract writes as the source of the transfers started on it. */
  function OwnChain(l: Ledger): nat {
    if l.layer == L1 then 0 else l.chainId
  }

  function PeerChain(l: Ledger): nat {
    if l.layer == L1 then l.chainId else 0
  }

  function RoleOf(l: Ledger, r: Record): Role {
    if r.srcChainId == OwnChain(l) then Source else Destination
  }

  /** Who put the escrow in, and who gets it when the transfer succeeds. */
  function Depositor(l: Ledger, r: Record): Address {
    if RoleOf(l, r) == Source then r.srcBid else l.owner
  }

  function Payee(l: Ledger, r: Record): Address {
    if RoleOf(l, r) == Source then l.owner else r.destBid
  }

  // ---------- The four calls ----------

  function Write(l: Ledger, id: TxId, r: Record): Ledger {
    l.(records := l.records[id := r])
  }

  function Emit(l: Ledger, e: Event): Ledger {
    l.(events := l.events + [e])
  }

  function Receive(l: Ledger, m: Move): Ledger {
    l.(balance := l.balance + m.amount, moves := l.moves + [m])
  }

  function Pay(l: Ledger, m: Move, msg: Msg): Outcome {
    if l.balance < m.amount then Revert(NoFunds)
    else if !msg.payeeAccepts then Revert(PayeeRefuses)
    else Done(l.(balance := l.balance - m.amount, moves := l.moves + [m]))
  }

  function ApplyStart(l: Ledger, msg: Msg, c: Call): Outcome
    requires c.StartTx?
  {
    if c.src == ZERO_ADDRESS || c.dest == ZERO_ADDRESS then Revert(InvalidBid)
    else if c.src != msg.sender then Revert(NotSender)
    else if c.amount != msg.value then Revert(AmountMismatch)
    else if msg.time + l.timeout >= UINT256_LIMIT then Revert(Overflow)
    else
      var r := Record(OwnChain(l), PeerChain(l), c.src, c.dest, c.amount, INIT, NONE, "",
                      msg.time, 0, msg.time + l.timeout);
      Done(Emit(Receive(Write(l, c.id, r), Move(Source, Deposited, c.id, c.src, c.amount)), StartTxEvent(c.id)))
  }

  /** L1 accepts a timeout equal to the block time, L2 does not. */
  predicate InTime(layer: Layer, timeout: nat, time: nat) {
    if layer == L1 then timeout >= time else timeout > time
  }

  function ApplySend(l: Ledger, msg: Msg, c: Call): Outcome
    requires c.SendTx?
  {
    if msg.sender != l.owner then Revert(NotOwner)
    else if |c.id| != ID_LENGTH then Revert(InvalidId)
    else if c.src == ZERO_ADDRESS || c.dest == ZERO_ADDRESS then Revert(InvalidBid)
    else if c.amount != msg.value then Revert(AmountMismatch)
    else if !InTime(l.layer, c.timeout, msg.time) then Revert(Expired)
    else if c.id in l.records then Revert(Exists)
    else
      var r := Record(PeerChain(l), OwnChain(l), c.src, c.dest, c.amount, INIT, NONE, "",
                      0, msg.time, c.timeout);
      var move := Move(Destination, Deposited, c.id, msg.sender, c.amount);
      Done(Emit(Receive(Write(l, c.id, r), move), SendTxEvent(c.id)))
  }

  function ApplyAck(l: Ledger, msg: Msg, c: Call): Outcome
    requires c.SendAckedTx?
  {
    if msg.value != 0 then Revert(NotPayable)
    else if msg.sender != l.owner then Revert(NotOwner)
    else if |c.id| != ID_LENGTH then Revert(InvalidId)
    else if c.id !in l.records then Revert(Missing)
    else
      var r := l.records[c.id];
      if r.status != INIT then Revert(NotInit)
      else if c.result != 1 && c.result != 2 && c.result != 3 then Revert(BadResult)
      else if |c.errorDesc| >= ERROR_DESC_LIMIT then Revert(DescTooLong)
      else if c.result == 1 then
        if !(r.createTimestamp < c.executeTime < r.timeout) then Revert(BadExecuteTime)
        else
          var r' := r.(status := ACK_SUCCESS, executeTimestamp := c.executeTime);
          var role := RoleOf(l, r);
          var payee := if role == Source then msg.sender else r.destBid;
          match Pay(l, Move(role, PaidOut, c.id, payee, r.amount), msg)
          case Revert(reason) => Revert(reason)
          case Done(paid) =>
            var written := Write(paid, c.id, r');
            Done(if role == Source then Emit(written, SendAckedTxEvent(c.id)) else written)
      else if c.result == 2 then
        Done(Write(l, c.id, r.(status := ACK_FAIL, refunded := TODO, errorDesc := c.errorDesc)))
      else
        Done(Write(l, c.id, r.(status := ACK_TIMEOUT, refunded := TODO, errorDesc := "timeout")))
  }

  function ApplyRefund(l: Ledger, msg: Msg, c: Call): Outcome
    requires c.Refund?
  {
    if msg.value != 0 then Revert(NotPayable)
    else if |c.id| != ID_LENGTH then Revert(InvalidId)
    else if c.id !in l.records then Revert(Missing)
    else
      var r := l.records[c.id];
      if r.refunded != TODO then Revert(NotRefundable)
      else if r.srcBid != msg.sender then Revert(NotSender)
      else
        match Pay(l, Move(RoleOf(l, r), RefundedOut, c.id, r.srcBid, r.amount), msg)
        case Revert(reason) => Revert(reason)
        case Done(paid) => Done(Emit(Write(paid, c.id, r.(refunded := REFUNDED)), RefundEvent(c.id)))
  }

  function Apply(l: Ledger, msg: Msg, c: Call): Outcome {
    match c
    case StartTx(_, _, _, _) => ApplyStart(l, msg, c)
    case SendTx(_, _, _, _, _) => ApplySend(l, msg, c)
    case SendAckedTx(_, _, _, _) => ApplyAck(l, msg, c)
    case Refund(_) => ApplyRefund(l, msg, c)
  }

  /** A reverted call leaves the state as it was. */
  function After(l: Ledger, msg: Msg, c: Call): Ledger {
    match Apply(l, msg, c)
    case Done(after) => after
    case Revert(_) => l
  }

  // ---------- When a call takes effect, and what it moves ----------

  /** StartTx takes effect exactly when the sender names itself, both accounts exist, and the amount was really sent. */
  lemma StartDoneExactly(l: Ledger, msg: Msg, c: Call)
    requires c.StartTx?
    ensures Apply(l, msg, c).Done? <==>
      && c.src != 0 && c.dest != 0 && c.src == msg.sender && c.amount == msg.value
      && msg.time + l.timeout < 0x1_0000_0000_0000_0000_0000_0000_0000_0000_0000_0000_0000_0000_0000_0000_0000_0000
    ensures Apply(l, msg, c).Done? ==> After(l, msg, c).balance == l.balance + msg.value
  {
  }

  /** SendTx is for the owner, with its amount sent along, in time, and only for an id nobody has used on this chain. */
  lemma SendDoneExactly(l: Ledger, msg: Msg, c: Call)
    requires c.SendTx?
    ensures Apply(l, msg, c).Done? <==>
      && msg.sender == l.owner && |c.id| == 32 && c.id !in l.records
      && c.src != 0 && c.dest != 0 && c.amount == msg.value
      && msg.time <= c.timeout && (l.layer == L2 ==> msg.time != c.timeout)
    ensures Apply(l, msg, c).Done? ==> After(l, msg, c).balance == l.balance + msg.value
  {
  }

  /** SendAckedTx is for the owner and for a record that is INIT; only a success asks for a time and moves coins. */
  lemma AckDoneExactly(l: Ledger, msg: Msg, c: Call)
    requires c.SendAckedTx?
    ensures Apply(l, msg, c).Done? <==>
      && msg.value == 0 && msg.sender == l.owner && |c.id| == 32 && 1 <= c.result <= 3 && |c.errorDesc| < 2048
      && c.id in l.records && l.records[c.id].status == INIT
      && (c.result == 1 ==>
            && l.records[c.id].createTimestamp < c.executeTime < l.records[c.id].timeout
            && l.records[c.id].amount <= l.balance && msg.payeeAccepts)
    ensures Apply(l, msg, c).Done? ==>
      After(l, msg, c).balance == l.balance - if c.result == 1 then l.records[c.id].amount else 0
  {
  }

  /** Refund is for the sender of a transfer whose refund is open, once, and pays back the whole amount. */
  lemma RefundDoneExactly(l: Ledger, msg: Msg, c: Call)
    requires c.Refund?
    ensures Apply(l, msg, c).Done? <==>
      && msg.value == 0 && |c.id| == 32 && c.id in l.records
      && l.records[c.id].refunded == TODO && l.records[c.id].srcBid == msg.sender
      && l.records[c.id].amount <= l.balance && msg.payeeAccepts
    ensures Apply(l, msg, c).Done? ==> After(l, msg, c).balance == l.balance - l.records[c.id].amount
  {
  }

  /** A call that does not take effect moves nothing and changes nothing. */
  lemma RevertedAfter(l: Ledger, msg: Msg, c: Call)
    requires !Apply(l, msg, c).Done?
    ensures After(l, msg, c) == l
  {
  }

  // ---------- What the escrow still owes ----------

  /** The money of a record is still in the contract. */
  predicate Live(r: Record) {
    r.status == INIT || r.refunded == TODO
  }

  function LiveAmount(r: Record): nat {
    if Live(r) then r.amount else 0
  }

  ghost function LiveAmounts(records: map<TxId, Record>): map<TxId, nat> {
    map id | id in records :: LiveAmount(records[id])
  }

  ghost function Locked(l: Ledger): nat {
    Total(LiveAmounts(l.records))
  }

  ghost predicate Solvent(l: Ledger) {
    l.balance >= Locked(l)
  }

  /** A refund is open or done exactly for the transfers that failed or timed out. */
  ghost predicate Coherent(l: Ledger) {
    && l.chainId != 0
    && forall id :: id in l.records ==>
        (l.records[id].refunded == NONE <==> l.records[id].status in {INIT, ACK_SUCCESS})
  }

  lemma LockedWrite(l: Ledger, id: TxId, r: Record)
    ensures Locked(Write(l, id, r))
         == Locked(l) - (if id in l.records then LiveAmount(l.records[id]) else 0) + LiveAmount(r)
  {
    TotalUpdate(LiveAmounts(l.records), id, LiveAmount(r));
    assert LiveAmounts(l.records[id := r]) == LiveAmounts(l.records)[id := LiveAmount(r)];
  }

  lemma LockedCovers(l: Ledger, id: TxId)
    requires id in l.records
    ensures LiveAmount(l.records[id]) <= Locked(l)
  {
    TotalAtLeast(LiveAmounts(l.records), id);
  }

  /** The live amount a call buries: only a StartTx overwrites a record without paying it out. */
  function Buried(l: Ledger, c: Call): nat {
    if c.StartTx? && c.id in l.records then LiveAmount(l.records[c.id]) else 0
  }

  /** What one written record does to the sum that is owed. */
  ghost predicate Balances(l: Ledger, l': Ledger, c: Call) {
    && l'.balance - Locked(l') == l.balance - Locked(l) + Buried(l, c)
    && Coherent(l')
  }

  lemma OpeningBalances(l: Ledger, msg: Msg, c: Call)
    requires Coherent(l) && (c.StartTx? || c.SendTx?) && Apply(l, msg, c).Done?
    ensures Balances(l, After(l, msg, c), c)
  {
    LockedWrite(l, c.id, After(l, msg, c).records[c.id]);
  }

  lemma AckBalances(l: Ledger, msg: Msg, c: Call)
    requires Coherent(l) && c.SendAckedTx? && Apply(l, msg, c).Done?
    ensures Balances(l, After(l, msg, c), c)
  {
    LockedWrite(l, c.id, After(l, msg, c).records[c.id]);
  }

  lemma RefundBalances(l: Ledger, msg: Msg, c: Call)
    requires Coherent(l) && c.Refund? && Apply(l, msg, c).Done?
    ensures Balances(l, After(l, msg, c), c)
  {
    LockedWrite(l, c.id, After(l, msg, c).records[c.id]);
  }

  /** An effective call changes the surplus of the balance over what is owed by exactly what it buries. */
  lemma SurplusAfter(l: Ledger, msg: Msg, c: Call)
    requires Coherent(l) && Apply(l, msg, c).Done?
    ensures Balances(l, After(l, msg, c), c)
  {
    hide *;
    match c {
      case StartTx(_, _, _, _) => OpeningBalances(l, msg, c);
      case SendTx(_, _, _, _, _) => OpeningBalances(l, msg, c);
      case SendAckedTx(_, _, _, _) => AckBalances(l, msg, c);
      case Refund(_) => RefundBalances(l, msg, c);
    }
  }

  /** Solvency survives every call by anyone, also a StartTx whose id collides with a record already there. */
  lemma SolventKept(l: Ledger, msg: Msg, c: Call)
    requires Solvent(l) && Coherent(l)
    ensures Solvent(After(l, msg, c)) && Coherent(After(l, msg, c))
  {
    hide Apply, After, Locked, Coherent, Buried;
    if Apply(l, msg, c).Done? { SurplusAfter(l, msg, c); } else { RevertedAfter(l, msg, c); }
  }

  /** In a solvent escrow no transfer ever lacks funds: a call that gets as far as paying can pay. */
  lemma NeverOutOfFunds(l: Ledger, msg: Msg, c: Call)
    requires Solvent(l) && Coherent(l)
    ensures Apply(l, msg, c) != Revert(NoFunds)
  {
    if c.id in l.records { LockedCovers(l, c.id); }
  }

  /** The balance is exactly what is owed, and stays so exactly when a start does not bury a live amount. */
  lemma ExactBalanceKept(l: Ledger, msg: Msg, c: Call)
    requires l.balance == Locked(l) && Coherent(l)
    requires Apply(l, msg, c).Done?
    ensures After(l, msg, c).balance == Locked(After(l, msg, c))
       <==> !(c.StartTx? && c.id in l.records && LiveAmount(l.records[c.id]) > 0)
  {
    hide Apply, After, Locked, Coherent, LiveAmount;
    SurplusAfter(l, msg, c);
  }

  // ---------- What one call may touch ----------

  /** How many more effective calls a record can see on its chain. */
  function CallsLeft(l: Ledger, id: TxId): nat {
    if id !in l.records then 3
    else if l.records[id].status == INIT then 2
    else if l.records[id].refunded == TODO then 1
    else 0
  }

  /** The parts of a record no later call changes; the outcome is written once. */
  ghost predicate RecordEvolves(r: Record, r': Record) {
    && r'.srcChainId == r.srcChainId && r'.destChainId == r.destChainId
    && r'.srcBid == r.srcBid && r'.destBid == r.destBid && r'.amount == r.amount
    && r'.createTimestamp == r.createTimestamp && r'.timeout == r.timeout
    && (r.status != INIT ==>
          r'.status == r.status && r'.executeTimestamp == r.executeTimestamp && r'.errorDesc == r.errorDesc)
    && (r.refunded == REFUNDED ==> r' == r)
  }

  /** A start is fresh when no record has its id yet; every other call counts as fresh. */
  predicate FreshCall(l: Ledger, c: Call) {
    c.StartTx? ==> c.id !in l.records
  }

  /**
    Every effective call writes one record, uses up one of that record's remaining calls, and
    leaves all the others alone.  So per id and chain SendTx, SendAckedTx and Refund each take
    effect at most once, and an outcome once written stays.
  */
  lemma OneRecordPerCall(l: Ledger, msg: Msg, c: Call)
    requires Coherent(l) && FreshCall(l, c)
    requires Apply(l, msg, c).Done?
    ensures var l' := After(l, msg, c);
      && c.id in l'.records
      && CallsLeft(l', c.id) < CallsLeft(l, c.id)
      && (c.id in l.records ==> RecordEvolves(l.records[c.id], l'.records[c.id]))
      && l'.records == l.records[c.id := l'.records[c.id]]
      && (c.StartTx? || c.SendTx? ==> CallsLeft(l, c.id) == 3)
      && (c.SendAckedTx? ==> CallsLeft(l, c.id) == 2)
      && (c.Refund? ==> CallsLeft(l, c.id) == 1 && CallsLeft(l', c.id) == 0)
  {
  }

  /** What a successful call has checked, and the one record it writes. */
  predicate Wrote(l: Ledger, l': Ledger, msg: Msg, c: Call) {
    && l'.layer == l.layer && l'.owner == l.owner && l'.chainId == l.chainId
    && c.id in l'.records && l'.records == l.records[c.id := l'.records[c.id]]
    && var r' := l'.records[c.id];
    match c
    case StartTx(id, src, dest, amount) =>
      r' == Record(OwnChain(l), PeerChain(l), src, dest, amount, INIT, NONE, "", msg.time, 0, msg.time + l.timeout)
    case SendTx(id, src, dest, amount, timeout) =>
      && id !in l.records && |id| == ID_LENGTH && msg.sender == l.owner && InTime(l.layer, timeout, msg.time)
      && r' == Record(PeerChain(l), OwnChain(l), src, dest, amount, INIT, NONE, "", 0, msg.time, timeout)
    case SendAckedTx(id, result, desc, executeTime) =>
      && id in l.records && l.records[id].status == INIT && msg.sender == l.owner && result in {1, 2, 3}
      && var r := l.records[id];
      && (result == 1 ==> r.createTimestamp < executeTime < r.timeout
                          && r' == r.(status := ACK_SUCCESS, executeTimestamp := executeTime))
      && (result == 2 ==> r' == r.(status := ACK_FAIL, refunded := TODO, errorDesc := desc))
      && (result == 3 ==> r' == r.(status := ACK_TIMEOUT, refunded := TODO, errorDesc := "timeout"))
    case Refund(id) =>
      && id in l.records && l.records[id].refunded == TODO && l.records[id].srcBid == msg.sender
      && r' == l.records[id].(refunded := REFUNDED)
  }

  lemma WroteBy(l: Ledger, msg: Msg, c: Call)
    requires Apply(l, msg, c).Done?
    ensures Wrote(l, After(l, msg, c), msg, c)
  {
    match c {
      case StartTx(_, _, _, _) =>
      case SendTx(_, _, _, _, _) =>
      case SendAckedTx(_, _, _, _) =>
      case Refund(_) =>
    }
  }

  /** The event a call announces, if any. */
  function Announced(l: Ledger, c: Call): seq<Event> {
    match c
    case StartTx(id, _, _, _) => [StartTxEvent(id)]
    case SendTx(id, _, _, _, _) => [SendTxEvent(id)]
    case SendAckedTx(id, result, _, _) =>
      if id in l.records && result == 1 && RoleOf(l, l.records[id]) == Source then [SendAckedTxEvent(id)] else []
    case Refund(id) => [RefundEvent(id)]
  }

  lemma AnnouncedBy(l: Ledger, msg: Msg, c: Call)
    requires Apply(l, msg, c).Done?
    ensures After(l, msg, c).events == l.events + Announced(l, c)
  {
    match c {
      case StartTx(_, _, _, _) =>
      case SendTx(_, _, _, _, _) =>
      case SendAckedTx(_, _, _, _) =>
      case Refund(_) =>
    }
  }

  // ---------- The contract's cash book ----------

  /** The moves of one id, in order. */
  function History(moves: seq<Move>, id: TxId): seq<Move> {
    if moves == [] then []
    else
      var n := |moves| - 1;
      History(moves[..n], id) + if moves[n].id == id then [moves[n]] else []
  }

  /** The moves a record must have caused by now: its deposit, and one payout once it is settled. */
  function Expected(l: Ledger, id: TxId): seq<Move> {
    if id !in l.records then []
    else
      var r := l.records[id];
      var role := RoleOf(l, r);
      [Move(role, Deposited, id, Depositor(l, r), r.amount)]
      + (if r.status == ACK_SUCCESS then [Move(role, PaidOut, id, Payee(l, r), r.amount)] else [])
      + (if r.refunded == REFUNDED then [Move(role, RefundedOut, id, r.srcBid, r.amount)] else [])
  }

  ghost predicate Accounted(l: Ledger) {
    forall id :: History(l.moves, id) == Expected(l, id)
  }

  lemma HistoryAppend(moves: seq<Move>, m: Move, id: TxId)
    ensures History(moves + [m], id) == History(moves, id) + if m.id == id then [m] else []
  {
    assert (moves + [m])[..|moves|] == moves;
  }

  /** The move a successful call makes, if any. */
  function Effect(l: Ledger, c: Call): seq<Move> {
    match c
    case StartTx(id, src, _, amount) => [Move(Source, Deposited, id, src, amount)]
    case SendTx(id, _, _, amount, _) => [Move(Destination, Deposited, id, l.owner, amount)]
    case SendAckedTx(id, result, _, _) =>
      if id in l.records && result == 1 then
        var r := l.records[id];
        [Move(RoleOf(l, r), PaidOut, id, Payee(l, r), r.amount)]
      else []
    case Refund(id) =>
      if id in l.records then
        var r := l.records[id];
        [Move(RoleOf(l, r), RefundedOut, id, r.srcBid, r.amount)]
      else []
  }

  lemma EffectOf(l: Ledger, msg: Msg, c: Call)
    requires Apply(l, msg, c).Done?
    ensures var l' := After(l, msg, c);
      && l'.moves == l.moves + Effect(l, c)
      && l'.layer == l.layer && l'.chainId == l.chainId && l'.owner == l.owner && l'.timeout == l.timeout
      && (Effect(l, c) == [] ==> l'.balance == l.balance)
      && (Effect(l, c) != [] && Effect(l, c)[0].flow == Deposited ==> l'.balance == l.balance + Effect(l, c)[0].amount)
      && (Effect(l, c) != [] && Effect(l, c)[0].flow != Deposited ==> l'.balance + Effect(l, c)[0].amount == l.balance)
  {
    match c {
      case StartTx(_, _, _, _) =>
      case SendTx(_, _, _, _, _) =>
      case SendAckedTx(_, _, _, _) =>
      case Refund(_) =>
    }
  }

  lemma ExpectedAfter(l: Ledger, msg: Msg, c: Call, id: TxId)
    requires Coherent(l) && FreshCall(l, c) && Apply(l, msg, c).Done?
    ensures Expected(After(l, msg, c), id) == Expected(l, id) + if c.id == id then Effect(l, c) else []
  {
    match c {
      case StartTx(_, _, _, _) =>
      case SendTx(_, _, _, _, _) =>
      case SendAckedTx(_, _, _, _) =>
      case Refund(_) =>
    }
  }

  /**
    With fresh ids, the coins that moved for an id are exactly one deposit by the right account
    and at most one payout: to the payee once the status is ACK_SUCCESS, or back to the sender
    once it is refunded.
  */
  lemma AccountedKept(l: Ledger, msg: Msg, c: Call)
    requires Accounted(l) && Coherent(l) && FreshCall(l, c)
    ensures Accounted(After(l, msg, c))
  {
    if Apply(l, msg, c).Done? {
      var l' := After(l, msg, c);
      EffectOf(l, msg, c);
      var effect := Effect(l, c);
      forall id ensures History(l'.moves, id) == Expected(l', id) {
        ExpectedAfter(l, msg, c, id);
        assert History(l.moves, id) == Expected(l, id);
        if effect == [] {
          assert l'.moves == l.moves;
        } else {
          HistoryAppend(l.moves, effect[0], id);
          assert effect == [effect[0]] && effect[0].id == c.id;
        }
      }
    }
  }

  // ---------- Totals per role and flow ----------

  function FlowAmount(l: Ledger, role: Role, flow: Flow, r: Record): nat {
    if RoleOf(l, r) != role then 0
    else match flow
      case Deposited => r.amount
      case PaidOut => if r.status == ACK_SUCCESS then r.amount else 0
      case RefundedOut => if r.refunded == REFUNDED then r.amount else 0
  }

  function LockedAmount(l: Ledger, role: Role, r: Record): nat {
    if RoleOf(l, r) == role then LiveAmount(r) else 0
  }

  ghost function FlowAmounts(l: Ledger, role: Role, flow: Flow): map<TxId, nat> {
    map id | id in l.records :: FlowAmount(l, role, flow, l.records[id])
  }

  ghost function LockedAmounts(l: Ledger, role: Role): map<TxId, nat> {
    map id | id in l.records :: LockedAmount(l, role, l.records[id])
  }

  ghost function LockedIn(l: Ledger, role: Role): nat {
    Total(LockedAmounts(l, role))
  }

  /** The sum of the coins that really moved, by role and flow. */
  function Moved(moves: seq<Move>, role: Role, flow: Flow): nat {
    if moves == [] then 0
    else
      var n := |moves| - 1;
      Moved(moves[..n], role, flow) + if moves[n].role == role && moves[n].flow == flow then moves[n].amount else 0
  }

  ghost predicate Balanced(l: Ledger) {
    && (forall role, flow :: Moved(l.moves, role, flow) == Total(FlowAmounts(l, role, flow)))
    && l.balance == Cash(l.moves)
  }

  lemma MovedAppend(moves: seq<Move>, m: Move, role: Role, flow: Flow)
    ensures Moved(moves + [m], role, flow)
         == Moved(moves, role, flow) + if m.role == role && m.flow == flow then m.amount else 0
  {
    assert (moves + [m])[..|moves|] == moves;
  }

  lemma FlowWrite(l: Ledger, l': Ledger, id: TxId, role: Role, flow: Flow)
    requires id in l'.records && l'.records == l.records[id := l'.records[id]]
    requires l'.layer == l.layer && l'.chainId == l.chainId
    ensures Total(FlowAmounts(l', role, flow))
         == Total(FlowAmounts(l, role, flow))
          - (if id in l.records then FlowAmount(l, role, flow, l.records[id]) else 0)
          + FlowAmount(l, role, flow, l'.records[id])
  {
    var v := FlowAmount(l, role, flow, l'.records[id]);
    hide Total;
    TotalUpdate(FlowAmounts(l, role, flow), id, v);
    assert FlowAmounts(l', role, flow) == FlowAmounts(l, role, flow)[id := v];
  }

  /** The change a call makes to one record's share is the change its move makes to the cash book. */
  lemma FlowOfCall(l: Ledger, msg: Msg, c: Call, role: Role, flow: Flow)
    requires Coherent(l) && FreshCall(l, c) && Apply(l, msg, c).Done?
    ensures var l' := After(l, msg, c);
      c.id in l'.records
      && FlowAmount(l', role, flow, l'.records[c.id])
      == (if c.id in l.records then FlowAmount(l, role, flow, l.records[c.id]) else 0)
       + (if Effect(l, c) != [] && Effect(l, c)[0].role == role && Effect(l, c)[0].flow == flow
          then Effect(l, c)[0].amount else 0)
  {
    match c {
      case StartTx(_, _, _, _) =>
      case SendTx(_, _, _, _, _) =>
      case SendAckedTx(_, _, _, _) =>
      case Refund(_) =>
    }
  }

  lemma MovedEffect(l: Ledger, c: Call, role: Role, flow: Flow)
    ensures Moved(l.moves + Effect(l, c), role, flow)
         == Moved(l.moves, role, flow)
          + if Effect(l, c) != [] && Effect(l, c)[0].role == role && Effect(l, c)[0].flow == flow
            then Effect(l, c)[0].amount else 0
  {
    var effect := Effect(l, c);
    if effect == [] {
      assert l.moves + effect == l.moves;
    } else {
      assert effect == [effect[0]];
      MovedAppend(l.moves, effect[0], role, flow);
    }
  }

  lemma FlowKept(l: Ledger, msg: Msg, c: Call, role: Role, flow: Flow)
    requires Coherent(l) && FreshCall(l, c) && Apply(l, msg, c).Done?
    requires Moved(l.moves, role, flow) == Total(FlowAmounts(l, role, flow))
    ensures var l' := After(l, msg, c);
      Moved(l'.moves, role, flow) == Total(FlowAmounts(l', role, flow))
  {
    OneRecordPerCall(l, msg, c);
    EffectOf(l, msg, c);
    FlowOfCall(l, msg, c, role, flow);
    hide Apply, Effect, FlowAmount, FlowAmounts, Coherent, CallsLeft, RecordEvolves;
    FlowWrite(l, After(l, msg, c), c.id, role, flow);
    MovedEffect(l, c, role, flow);
  }

  /** What the cash book says is in the contract. */
  function Cash(moves: seq<Move>): int {
    Moved(moves, Source, Deposited) + Moved(moves, Destination, Deposited)
    - Moved(moves, Source, PaidOut) - Moved(moves, Destination, PaidOut)
    - Moved(moves, Source, RefundedOut) - Moved(moves, Destination, RefundedOut)
  }

  lemma CashKept(l: Ledger, msg: Msg, c: Call)
    requires l.balance == Cash(l.moves) && Apply(l, msg, c).Done?
    ensures After(l, msg, c).balance == Cash(After(l, msg, c).moves)
  {
    EffectOf(l, msg, c);
    MovedEffect(l, c, Source, Deposited);
    MovedEffect(l, c, Destination, Deposited);
    MovedEffect(l, c, Source, PaidOut);
    MovedEffect(l, c, Destination, PaidOut);
    MovedEffect(l, c, Source, RefundedOut);
    MovedEffect(l, c, Destination, RefundedOut);
  }

  lemma BalancedKept(l: Ledger, msg: Msg, c: Call)
    requires Balanced(l) && Coherent(l) && FreshCall(l, c)
    ensures Balanced(After(l, msg, c))
  {
    if Apply(l, msg, c).Done? {
      forall role, flow {
        FlowKept(l, msg, c, role, flow);
      }
      CashKept(l, msg, c);
    }
  }

  ghost function SettledAmounts(l: Ledger, role: Role): map<TxId, nat> {
    map id | id in l.records ::
      FlowAmount(l, role, PaidOut, l.records[id]) + FlowAmount(l, role, RefundedOut, l.records[id])
  }

  lemma SettledOrLocked(l: Ledger, role: Role, id: TxId)
    requires Coherent(l) && id in l.records
    ensures FlowAmount(l, role, Deposited, l.records[id])
         == FlowAmount(l, role, PaidOut, l.records[id]) + FlowAmount(l, role, RefundedOut, l.records[id])
          + LockedAmount(l, role, l.records[id])
  {
  }

  lemma SettledTotal(l: Ledger, role: Role)
    ensures Total(SettledAmounts(l, role))
         == Total(FlowAmounts(l, role, PaidOut)) + Total(FlowAmounts(l, role, RefundedOut))
  {
    TotalSplit(SettledAmounts(l, role), FlowAmounts(l, role, PaidOut), FlowAmounts(l, role, RefundedOut));
  }

  lemma DepositedTotal(l: Ledger, role: Role)
    requires Coherent(l)
    ensures Total(FlowAmounts(l, role, Deposited)) == Total(SettledAmounts(l, role)) + LockedIn(l, role)
  {
    forall id | id in l.records
      ensures FlowAmounts(l, role, Deposited)[id] == SettledAmounts(l, role)[id] + LockedAmounts(l, role)[id]
    {
      SettledOrLocked(l, role, id);
    }
    TotalSplit(FlowAmounts(l, role, Deposited), SettledAmounts(l, role), LockedAmounts(l, role));
  }

  /** Per role, what came in is what was paid out, what was refunded and what is still locked. */
  lemma RoleConservation(l: Ledger, role: Role)
    requires Balanced(l) && Coherent(l)
    ensures Moved(l.moves, role, Deposited)
         == Moved(l.moves, role, PaidOut) + Moved(l.moves, role, RefundedOut) + LockedIn(l, role)
  {
    SettledTotal(l, role);
    DepositedTotal(l, role);
  }

  // ---------- Ids of started transfers ----------

  /** What the id of a started transfer is the hash of. */
  datatype Preimage = Preimage(src: Address, dest: Address, srcChain: nat, destChain: nat, amount: nat, time: nat)

  function StartPreimage(l: Ledger, src: Address, dest: Address, amount: nat, time: nat): Preimage {
    Preimage(src, dest, OwnChain(l), PeerChain(l), amount, time)
  }

  ghost predicate Injective(sha: Preimage -> TxId) {
    forall a, b :: sha(a) == sha(b) ==> a == b
  }

  /** The records started here are stored under the hash of their own fields. */
  ghost predicate WellKeyed(l: Ledger, sha: Preimage -> TxId) {
    forall id :: id in l.records && RoleOf(l, l.records[id]) == Source ==>
      var r := l.records[id];
      id == sha(StartPreimage(l, r.srcBid, r.destBid, r.amount, r.createTimestamp))
  }

  predicate HashedCall(l: Ledger, msg: Msg, c: Call, sha: Preimage -> TxId) {
    c.StartTx? ==> c.id == sha(StartPreimage(l, c.src, c.dest, c.amount, msg.time))
  }

  lemma WellKeyedKept(l: Ledger, msg: Msg, c: Call, sha: Preimage -> TxId)
    requires WellKeyed(l, sha) && HashedCall(l, msg, c, sha) && l.chainId != 0
    ensures WellKeyed(After(l, msg, c), sha)
  {
  }

  /**
    With a collision-free hash, a start overwrites a transfer started earlier on the same chain
    exactly when sender, receiver, amount and block time are all the same.
  */
  lemma StartCollision(l: Ledger, msg: Msg, c: Call, sha: Preimage -> TxId)
    requires Injective(sha) && WellKeyed(l, sha) && c.StartTx? && HashedCall(l, msg, c, sha)
    ensures c.id in l.records && RoleOf(l, l.records[c.id]) == Source
       <==> exists id :: id in l.records && RoleOf(l, l.records[id]) == Source
              && l.records[id].srcBid == c.src && l.records[id].destBid == c.dest
              && l.records[id].amount == c.amount && l.records[id].createTimestamp == msg.time
  {
  }

  /** Ids of transfers started on the two chains never meet, because the chain ids in the preimage are swapped. */
  lemma StartsDisjoint(l1: Ledger, l2: Ledger, sha: Preimage -> TxId, id: TxId)
    requires Injective(sha) && WellKeyed(l1, sha) && WellKeyed(l2, sha)
    requires l1.layer == L1 && l2.layer == L2 && l1.chainId == l2.chainId != 0
    ensures !(id in l1.records && RoleOf(l1, l1.records[id]) == Source
           && id in l2.records && RoleOf(l2, l2.records[id]) == Source)
  {
    assert forall r1: Record, r2: Record ::
      StartPreimage(l1, r1.srcBid, r1.destBid, r1.amount, r1.createTimestamp)
      != StartPreimage(l2, r2.srcBid, r2.destBid, r2.amount, r2.createTimestamp);
  }

  /**
    Two equal starts in one block: the second buries the first, so the contract holds twice the
    amount while it owes it only once, and the surplus belongs to nobody.
  */
  lemma CollisionBuriesEscrow(l: Ledger, msg: Msg, c: Call)
    requires Coherent(l) && l.balance == Locked(l) && c.StartTx? && c.id !in l.records && c.amount > 0
    requires Apply(l, msg, c).Done?
    ensures var once := After(l, msg, c);
      var twice := After(once, msg, c);
      twice.records == once.records && twice.balance == Locked(twice) + c.amount
  {
    var once := After(l, msg, c);
    LockedWrite(l, c.id, once.records[c.id]);
    var twice := After(once, msg, c);
    LockedWrite(once, c.id, twice.records[c.id]);
  }
}
