/** The two contracts as one class: what differs between them is decided by `layer`. */
module CrossChainBridge {
  import opened Escrow

  datatype Result = Success | Failure(reason: Reason)

  class Contract {
    const layer: Layer
    const chainId: nat
    const sha256: Preimage -> TxId
    var owner: Address
    var timeout: nat
    var crossTxInfo: map<TxId, Record>
    var balance: nat
    var events: seq<Event>
    var moves: seq<Move>

    ghost function State(): Ledger
      reads this
    {
      Ledger(layer, owner, chainId, timeout, crossTxInfo, balance, events, moves)
    }

    /** The promises the escrow keeps whoever calls it, in any order. */
    ghost predicate Valid()
      reads this
    {
      Coherent(State()) && Solvent(State())
    }

    constructor (layer: Layer, chainId: nat, timeout: nat, sender: Address, sha256: Preimage -> TxId)
      requires chainId != 0
      ensures Valid() && State() == Ledger(layer, sender, chainId, timeout, map[], 0, [], [])
      ensures Accounted(State()) && Balanced(State()) && WellKeyed(State(), sha256) && this.sha256 == sha256
    {
      this.layer, this.chainId, this.timeout, this.owner := layer, chainId, timeout, sender;
      this.sha256 := sha256;
      crossTxInfo, balance, events, moves := map[], 0, [], [];
      new;
      assert LiveAmounts(State().records) == map[];
      forall role, flow ensures Moved([], role, flow) == Totals.Total(FlowAmounts(State(), role, flow)) {
        assert FlowAmounts(State(), role, flow) == map[];
      }
    }

    /** The call a StartTx amounts to once its id is known. */
    ghost function Started(src: Address, dest: Address, amount: nat, msg: Msg): Call
      reads this
    {
      Call.StartTx(sha256(StartPreimage(State(), src, dest, amount, msg.time)), src, dest, amount)
    }

    method StartTx(src: Address, dest: Address, amount: nat, msg: Msg) returns (r: Result)
      requires Valid()
      modifies this
      ensures Valid()
      ensures State() == After(old(State()), msg, old(Started(src, dest, amount, msg)))
      ensures r.Success? <==> Apply(old(State()), msg, old(Started(src, dest, amount, msg))).Done?
      ensures r.Failure? ==> Apply(old(State()), msg, old(Started(src, dest, amount, msg))) == Revert(r.reason)
      ensures r.Success? <==>
        && src != 0 && dest != 0 && src == msg.sender && amount == msg.value
        && msg.time + timeout < 0x1_0000_0000_0000_0000_0000_0000_0000_0000_0000_0000_0000_0000_0000_0000_0000_0000
      ensures balance == old(balance) + if r.Success? then msg.value else 0
    {
      ghost var before, call := State(), Started(src, dest, amount, msg);
      SolventKept(before, msg, call);
      StartDoneExactly(before, msg, call);
      if src == ZERO_ADDRESS || dest == ZERO_ADDRESS { return Failure(InvalidBid); }
      if src != msg.sender { return Failure(NotSender); }
      if amount != msg.value { return Failure(AmountMismatch); }
      var srcChain := if layer == L1 then 0 else chainId;
      var destChain := if layer == L1 then chainId else 0;
      var txId := sha256(Preimage(src, dest, srcChain, destChain, amount, msg.time));
      if msg.time + timeout >= UINT256_LIMIT { return Failure(Overflow); }
      var info := Record(srcChain, destChain, src, dest, amount, INIT, NONE, "", msg.time, 0, msg.time + timeout);
      balance := balance + amount;
      moves := moves + [Move(Source, Deposited, txId, src, amount)];
      crossTxInfo := crossTxInfo[txId := info];
      events := events + [StartTxEvent(txId)];
      return Success;
    }

    method SendTx(id: TxId, src: Address, dest: Address, amount: nat, txTimeout: nat, msg: Msg) returns (r: Result)
      requires Valid()
      modifies this
      ensures Valid()
      ensures State() == After(old(State()), msg, Call.SendTx(id, src, dest, amount, txTimeout))
      ensures r.Success? <==> Apply(old(State()), msg, Call.SendTx(id, src, dest, amount, txTimeout)).Done?
      ensures r.Failure? ==> Apply(old(State()), msg, Call.SendTx(id, src, dest, amount, txTimeout)) == Revert(r.reason)
      ensures r.Success? <==>
        && msg.sender == owner && |id| == 32 && id !in old(crossTxInfo)
        && src != 0 && dest != 0 && amount == msg.value
        && msg.time <= txTimeout && (layer == L2 ==> msg.time != txTimeout)
      ensures balance == old(balance) + if r.Success? then msg.value else 0
    {
      SolventKept(State(), msg, Call.SendTx(id, src, dest, amount, txTimeout));
      SendDoneExactly(State(), msg, Call.SendTx(id, src, dest, amount, txTimeout));
      if msg.sender != owner { return Failure(NotOwner); }
      if |id| != ID_LENGTH { return Failure(InvalidId); }
      if src == ZERO_ADDRESS || dest == ZERO_ADDRESS { return Failure(InvalidBid); }
      if amount != msg.value { return Failure(AmountMismatch); }
      if !InTime(layer, txTimeout, msg.time) { return Failure(Expired); }
      if id in crossTxInfo { return Failure(Exists); }
      var srcChain := if layer == L1 then chainId else 0;
      var destChain := if layer == L1 then 0 else chainId;
      var info := Record(srcChain, destChain, src, dest, amount, INIT, NONE, "", 0, msg.time, txTimeout);
      balance := balance + amount;
      moves := moves + [Move(Destination, Deposited, id, msg.sender, amount)];
      crossTxInfo := crossTxInfo[id := info];
      events := events + [SendTxEvent(id)];
      return Success;
    }

    method SendAckedTx(id: TxId, result: nat, errorDesc: string, executeTime: nat, msg: Msg) returns (r: Result)
      requires Valid()
      modifies this
      ensures Valid()
      ensures State() == After(old(State()), msg, Call.SendAckedTx(id, result, errorDesc, executeTime))
      ensures r.Success? <==> Apply(old(State()), msg, Call.SendAckedTx(id, result, errorDesc, executeTime)).Done?
      ensures r.Failure? ==>
        Apply(old(State()), msg, Call.SendAckedTx(id, result, errorDesc, executeTime)) == Revert(r.reason)
      ensures r != Failure(NoFunds)
      ensures r.Success? <==>
        && msg.value == 0 && msg.sender == owner && |id| == 32 && 1 <= result <= 3 && |errorDesc| < 2048
        && id in old(crossTxInfo) && old(crossTxInfo)[id].status == INIT
        && (result == 1 ==>
              old(crossTxInfo)[id].createTimestamp < executeTime < old(crossTxInfo)[id].timeout && msg.payeeAccepts)
      ensures balance == old(balance) - if r.Success? && result == 1 then old(crossTxInfo)[id].amount else 0
    {
      SolventKept(State(), msg, Call.SendAckedTx(id, result, errorDesc, executeTime));
      AckDoneExactly(State(), msg, Call.SendAckedTx(id, result, errorDesc, executeTime));
      NeverOutOfFunds(State(), msg, Call.SendAckedTx(id, result, errorDesc, executeTime));
      if msg.value != 0 { return Failure(NotPayable); }
      if msg.sender != owner { return Failure(NotOwner); }
      if |id| != ID_LENGTH { return Failure(InvalidId); }
      if id !in crossTxInfo { return Failure(Missing); }
      var info := crossTxInfo[id];
      if info.status != INIT { return Failure(NotInit); }
      if result != 1 && result != 2 && result != 3 { return Failure(BadResult); }
      if |errorDesc| >= ERROR_DESC_LIMIT { return Failure(DescTooLong); }
      if result == 1 {
        if !(executeTime < info.timeout && executeTime > info.createTimestamp) { return Failure(BadExecuteTime); }
        var ownChain := if layer == L1 then 0 else chainId;
        if balance < info.amount { return Failure(NoFunds); }
        if !msg.payeeAccepts { return Failure(PayeeRefuses); }
        balance := balance - info.amount;
        if info.srcChainId == ownChain {
          moves := moves + [Move(Source, PaidOut, id, msg.sender, info.amount)];
          events := events + [SendAckedTxEvent(id)];
        } else {
          moves := moves + [Move(Destination, PaidOut, id, info.destBid, info.amount)];
        }
        crossTxInfo := crossTxInfo[id := info.(status := ACK_SUCCESS, executeTimestamp := executeTime)];
      } else if result == 2 {
        crossTxInfo := crossTxInfo[id := info.(status := ACK_FAIL, refunded := TODO, errorDesc := errorDesc)];
      } else {
        crossTxInfo := crossTxInfo[id := info.(status := ACK_TIMEOUT, refunded := TODO, errorDesc := "timeout")];
      }
      return Success;
    }

    method Refund(id: TxId, msg: Msg) returns (r: Result)
      requires Valid()
      modifies this
      ensures Valid()
      ensures State() == After(old(State()), msg, Call.Refund(id))
      ensures r.Success? <==> Apply(old(State()), msg, Call.Refund(id)).Done?
      ensures r.Failure? ==> Apply(old(State()), msg, Call.Refund(id)) == Revert(r.reason)
      ensures r != Failure(NoFunds)
      ensures r.Success? <==>
        && msg.value == 0 && |id| == 32 && id in old(crossTxInfo)
        && old(crossTxInfo)[id].refunded == TODO && old(crossTxInfo)[id].srcBid == msg.sender && msg.payeeAccepts
      ensures balance == old(balance) - if r.Success? then old(crossTxInfo)[id].amount else 0
    {
      SolventKept(State(), msg, Call.Refund(id));
      RefundDoneExactly(State(), msg, Call.Refund(id));
      NeverOutOfFunds(State(), msg, Call.Refund(id));
      if msg.value != 0 { return Failure(NotPayable); }
      if |id| != ID_LENGTH { return Failure(InvalidId); }
      if id !in crossTxInfo { return Failure(Missing); }
      var info := crossTxInfo[id];
      if info.refunded != TODO { return Failure(NotRefundable); }
      if info.srcBid != msg.sender { return Failure(NotSender); }
      if balance < info.amount { return Failure(NoFunds); }
      if !msg.payeeAccepts { return Failure(PayeeRefuses); }
      var ownChain := if layer == L1 then 0 else chainId;
      balance := balance - info.amount;
      var role := if info.srcChainId == ownChain then Source else Destination;
      moves := moves + [Move(role, RefundedOut, id, info.srcBid, info.amount)];
      crossTxInfo := crossTxInfo[id := info.(refunded := REFUNDED)];
      events := events + [RefundEvent(id)];
      return Success;
    }
  }
}
