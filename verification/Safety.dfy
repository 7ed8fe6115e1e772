/**
  What holds in every reachable state of the bridge: atomicity, conservation, no stuck payout, at most four
  calls per transfer.
*/
module Safety {
  import opened Escrow
  import opened Relay
  import opened World
  import opened Protocol
  import opened Totals
  import opened Wrappers

  // ---------- Atomicity ----------

  lemma {:induction false} MoveInHistory(moves: seq<Move>, m: Move)
    requires m in moves
    ensures m in History(moves, m.id)
  {
    var n := |moves| - 1;
    if moves[n] != m {
      assert moves == moves[..n] + [moves[n]];
      MoveInHistory(moves[..n], m);
    }
  }

  /** A payout or a refund that really happened is the one its record calls for. */
  lemma MoveMeans(l: Ledger, m: Move)
    requires Accounted(l) && m in l.moves
    ensures m.id in l.records && m.role == RoleOf(l, l.records[m.id]) && m.amount == l.records[m.id].amount
    ensures m.flow == PaidOut ==> l.records[m.id].status == ACK_SUCCESS && m.party == Payee(l, l.records[m.id])
    ensures m.flow == RefundedOut ==> l.records[m.id].refunded == REFUNDED && m.party == l.records[m.id].srcBid
    ensures m.flow == Deposited ==> m.party == Depositor(l, l.records[m.id])
  {
    MoveInHistory(l.moves, m);
    assert History(l.moves, m.id) == Expected(l, m.id);
  }

  /**
    Whatever happens, if the destination has paid for a transfer, then it paid the receiver named
    at the start, no more than was locked there, and the source has paid the agent and never refunds.
  */
  lemma PaidMeansSucceeded(s: System, d: Layer, paid: Move)
    requires Reachable(s)
    requires paid in At(s.chain, Other(d)).moves && paid.role == Destination && paid.flow == PaidOut
    ensures Known(s.chain, d, paid.id)
    ensures SourceRecord(s.chain, d, paid.id).status == ACK_SUCCESS
    ensures paid.party == SourceRecord(s.chain, d, paid.id).destBid
    ensures paid.amount == Clamp(SourceRecord(s.chain, d, paid.id).amount)
  {
    ReachableOk(s);
    MoveMeans(At(s.chain, Other(d)), paid);
    assert Mirrors(s.chain, d, paid.id);
  }

  /** No transfer is ever both refunded at its source and paid at its destination. */
  lemma Atomicity(s: System, d: Layer, refund: Move, paid: Move)
    requires Reachable(s)
    requires refund in At(s.chain, d).moves && refund.flow == RefundedOut
    requires paid in At(s.chain, Other(d)).moves && paid.flow == PaidOut && paid.role == Destination
    ensures refund.role == Source
    ensures refund.id != paid.id
  {
    ReachableOk(s);
    MoveMeans(At(s.chain, d), refund);
    MoveMeans(At(s.chain, Other(d)), paid);
    assert Mirrors(s.chain, d, paid.id) && Mirrors(s.chain, Other(d), refund.id);
  }

  // ---------- Conservation ----------

  lemma {:induction false} ZeroTotal(m: map<TxId, nat>)
    requires forall k :: k in m ==> m[k] == 0
    ensures Total(m) == 0
    decreases |m|
  {
    if m != map[] {
      var k :| k in m;
      TotalRemove(m, k);
      ZeroTotal(m - {k});
    }
  }

  ghost function Positive(m: map<TxId, nat>): map<TxId, nat> {
    map k | k in m && m[k] > 0 :: m[k]
  }

  lemma PositiveWithout(m: map<TxId, nat>, k: TxId)
    requires k in m
    ensures Positive(m - {k}) == if m[k] > 0 then Positive(m) - {k} else Positive(m)
  {
  }

  lemma {:induction false} TotalPositive(m: map<TxId, nat>)
    ensures Total(Positive(m)) == Total(m)
    decreases |m|
  {
    if m == map[] {
      assert Positive(m) == m;
    } else {
      var k :| k in m;
      TotalRemove(m, k);
      TotalPositive(m - {k});
      PositiveWithout(m, k);
      if m[k] > 0 { TotalRemove(Positive(m), k); }
    }
  }

  /** If every positive share on the one side is covered by the share of the same id on the other, so is the total. */
  lemma TotalCovered(small: map<TxId, nat>, large: map<TxId, nat>)
    requires forall k :: k in small && small[k] > 0 ==> k in large && small[k] <= large[k]
    ensures Total(small) <= Total(large)
  {
    TotalPositive(small);
    TotalMonotone(Positive(small), large);
  }

  function Deposits(s: System, d: Layer): nat { Moved(At(s.chain, d).moves, Source, Deposited) }
  function PaidToAgent(s: System, d: Layer): nat { Moved(At(s.chain, d).moves, Source, PaidOut) }
  function RefundedToSenders(s: System, d: Layer): nat { Moved(At(s.chain, d).moves, Source, RefundedOut) }
  function DepositedByAgent(s: System, d: Layer): nat { Moved(At(s.chain, Other(d)).moves, Destination, Deposited) }
  function PaidToReceivers(s: System, d: Layer): nat { Moved(At(s.chain, Other(d)).moves, Destination, PaidOut) }

  lemma NoDestinationRefunds(s: System, d: Layer)
    requires Inv(s)
    ensures Moved(At(s.chain, Other(d)).moves, Destination, RefundedOut) == 0
  {
    var l := At(s.chain, Other(d));
    hide Moved, Accounted, AgentOk, Backed;
    forall id | id in l.records ensures FlowAmounts(l, Destination, RefundedOut)[id] == 0 {
      assert Mirrors(s.chain, d, id);
    }
    ZeroTotal(FlowAmounts(l, Destination, RefundedOut));
    assert Balanced(l);
  }

  /** Receivers get no more than the agent got on the source. */
  lemma ReceiversCovered(s: System, d: Layer)
    requires Inv(s)
    ensures PaidToReceivers(s, d) <= PaidToAgent(s, d)
  {
    var l, m := At(s.chain, d), At(s.chain, Other(d));
    forall id | id in m.records && FlowAmount(m, Destination, PaidOut, m.records[id]) > 0
      ensures id in l.records
      ensures FlowAmount(m, Destination, PaidOut, m.records[id]) <= FlowAmount(l, Source, PaidOut, l.records[id])
    {
      assert Mirrors(s.chain, d, id);
    }
    TotalCovered(FlowAmounts(m, Destination, PaidOut), FlowAmounts(l, Source, PaidOut));
    assert Balanced(l) && Balanced(m);
  }

  /** The amounts of the transfers that succeeded fit the integers the agent reads them into. */
  ghost predicate AmountsFit(s: System, d: Layer) {
    forall id :: FitsAt(s.chain, d, id)
  }

  predicate FitsAt(w: Chains, d: Layer, id: TxId) {
    Known(w, d, id) && SourceRecord(w, d, id).status == ACK_SUCCESS ==> SourceRecord(w, d, id).amount <= MAX_INT64
  }

  /** What the agent put in on the destination for a transfer it was paid for on the source. */
  function PaidDeposit(w: Chains, d: Layer, id: TxId): nat {
    if Known(w, d, id) && SourceRecord(w, d, id).status == ACK_SUCCESS && Opened(w, d, id)
    then DestRecord(w, d, id).amount
    else 0
  }

  ghost function PaidDeposits(w: Chains, d: Layer): map<TxId, nat> {
    map id | id in At(w, d).records :: PaidDeposit(w, d, id)
  }

  ghost function DepositedForPaid(s: System, d: Layer): nat {
    Total(PaidDeposits(s.chain, d))
  }

  lemma PaidDepositIs(s: System, d: Layer, id: TxId)
    requires Inv(s) && id in At(s.chain, d).records
    ensures var paid := FlowAmount(At(s.chain, d), Source, PaidOut, At(s.chain, d).records[id]);
      PaidDeposit(s.chain, d, id) <= paid && (PaidDeposit(s.chain, d, id) == paid <==> FitsAt(s.chain, d, id))
  {
    assert Backed(s.chain, d, id) && Mirrors(s.chain, d, id);
  }

  /**
    What the agent put in for the transfers it was paid for is no more than it was paid, and the two
    are the same exactly when every one of their amounts fits its integers.
  */
  lemma AgentEvenExactly(s: System, d: Layer)
    requires Inv(s)
    ensures DepositedForPaid(s, d) <= PaidToAgent(s, d)
    ensures DepositedForPaid(s, d) == PaidToAgent(s, d) <==> AmountsFit(s, d)
  {
    BookIsRight(s, d);
    PaidDepositsAre(s, d);
    hide Inv, FlowAmounts, PaidDeposits;
    var put, paid := PaidDeposits(s.chain, d), FlowAmounts(At(s.chain, d), Source, PaidOut);
    TotalMonotone(put, paid);
    TotalSameExactly(put, paid);
  }

  lemma PaidDepositsAre(s: System, d: Layer)
    requires Inv(s)
    ensures var put, paid := PaidDeposits(s.chain, d), FlowAmounts(At(s.chain, d), Source, PaidOut);
      && put.Keys == paid.Keys && (forall id :: id in put ==> put[id] <= paid[id])
      && (put == paid <==> AmountsFit(s, d))
  {
    hide Inv, FlowAmount, PaidDeposit;
    var put, paid := PaidDeposits(s.chain, d), FlowAmounts(At(s.chain, d), Source, PaidOut);
    forall id | id in put ensures put[id] <= paid[id] && (put[id] == paid[id] <==> FitsAt(s.chain, d, id)) {
      PaidDepositIs(s, d, id);
    }
    if forall id :: id in put ==> FitsAt(s.chain, d, id) {
      assert forall id :: FitsAt(s.chain, d, id);
    } else {
      var id :| id in put && !FitsAt(s.chain, d, id);
      assert put[id] != paid[id];
    }
  }

  lemma BookIsRight(s: System, d: Layer)
    requires Inv(s)
    ensures PaidToAgent(s, d) == Total(FlowAmounts(At(s.chain, d), Source, PaidOut))
  {
    assert Balanced(At(s.chain, d));
  }

  /** What it put in for them is part of all it put in. */
  lemma AgentCovered(s: System, d: Layer)
    requires Inv(s)
    ensures DepositedForPaid(s, d) <= DepositedByAgent(s, d)
    ensures AmountsFit(s, d) ==> PaidToAgent(s, d) <= DepositedByAgent(s, d)
  {
    var m := At(s.chain, Other(d));
    var put := PaidDeposits(s.chain, d);
    TotalCovered(put, FlowAmounts(m, Destination, Deposited));
    assert Balanced(m);
    AgentEvenExactly(s, d);
  }

  /**
    Per direction, in every reachable state: the source's deposits are what it paid the agent, what
    it refunded and what it still locks; the agent's deposits on the destination are what receivers
    got and what is still locked; receivers got no more than the agent did; and the agent was paid
    what it had put in for the same transfers, if the amounts of those that succeeded fit 64 bits.
  */
  lemma Conservation(s: System, d: Layer)
    requires Reachable(s)
    ensures Deposits(s, d) == PaidToAgent(s, d) + RefundedToSenders(s, d) + LockedIn(At(s.chain, d), Source)
    ensures DepositedByAgent(s, d) == PaidToReceivers(s, d) + LockedIn(At(s.chain, Other(d)), Destination)
    ensures PaidToReceivers(s, d) <= PaidToAgent(s, d)
    ensures DepositedForPaid(s, d) <= PaidToAgent(s, d) && DepositedForPaid(s, d) <= DepositedByAgent(s, d)
    ensures DepositedForPaid(s, d) == PaidToAgent(s, d) <==> AmountsFit(s, d)
    ensures AmountsFit(s, d) ==> PaidToAgent(s, d) <= DepositedByAgent(s, d)
    ensures At(s.chain, d).balance == Locked(At(s.chain, d))
  {
    ReachableOk(s);
    RoleConservation(At(s.chain, d), Source);
    RoleConservation(At(s.chain, Other(d)), Destination);
    NoDestinationRefunds(s, d);
    ReceiversCovered(s, d);
    AgentEvenExactly(s, d);
    AgentCovered(s, d);
  }

  /** One transfer that succeeded leaves agent and user even exactly when its amount fits the agent's integers. */
  lemma EvenExactly(s: System, d: Layer, id: TxId)
    requires Reachable(s) && Known(s.chain, d, id) && SourceRecord(s.chain, d, id).status == ACK_SUCCESS
    ensures Opened(s.chain, d, id)
    ensures DestRecord(s.chain, d, id).amount == SourceRecord(s.chain, d, id).amount
       <==> SourceRecord(s.chain, d, id).amount <= MAX_INT64
  {
    ReachableOk(s);
    assert Backed(s.chain, d, id) && Mirrors(s.chain, d, id);
  }

  // ---------- The acks get through ----------

  /** The call with which a relay passes a success on to the destination. */
  function PayoutCall(s: System, d: Layer, id: TxId): Call
    requires Known(s.chain, d, id)
  {
    CallOf(d, AckedEventPlan(Read(id, SourceRecord(s.chain, d, id)))[0])
  }

  /**
    Once the source is a success, the relayed payout is accepted at any later time by a receiver
    who takes coins, and the escrow covers it.  The one exception: an execute time and a timeout
    at the edge of the agent's integers, on L1.
  */
  lemma NoStuckPayout(s: System, d: Layer, id: TxId, time: nat)
    requires Reachable(s) && Known(s.chain, d, id) && SourceRecord(s.chain, d, id).status == ACK_SUCCESS
    requires Opened(s.chain, d, id) && DestRecord(s.chain, d, id).status == INIT
    ensures var l := At(s.chain, Other(d));
      var call := PayoutCall(s, d, id);
      Apply(l, AgentMsg(l, call, time, true), call).Done?
      <==> (d == L1 || SourceRecord(s.chain, d, id).timeout <= MAX_INT64
            || SourceRecord(s.chain, d, id).executeTimestamp < MAX_INT64)
  {
    ReachableOk(s);
    var l, call := At(s.chain, Other(d)), PayoutCall(s, d, id);
    assert Backed(s.chain, d, id) && Mirrors(s.chain, d, id);
    AckTurnsOnTime(l, AgentMsg(l, call, time, true), call);
  }

  /** The call with which a relay acks a success to the source. */
  function SuccessCall(s: System, d: Layer, id: TxId): Call
    requires Opened(s.chain, d, id)
  {
    CallOf(d, SendEventPlan(Read(id, DestRecord(s.chain, d, id)))[0])
  }

  /** With the money there and the receiver willing, a success ack turns on its execute time alone. */
  lemma AckTurnsOnTime(l: Ledger, msg: Msg, c: Call)
    requires c.SendAckedTx? && c.result == 1 && |c.errorDesc| < ERROR_DESC_LIMIT && |c.id| == ID_LENGTH
    requires msg.value == 0 && msg.sender == l.owner && msg.payeeAccepts && l.balance == Locked(l)
    requires c.id in l.records && l.records[c.id].status == INIT
    ensures Apply(l, msg, c).Done? <==> l.records[c.id].createTimestamp < c.executeTime < l.records[c.id].timeout
  {
    LockedCovers(l, c.id);
  }

  /**
    The window of the success ack.  From L1 to L2 the execute time is always below the timeout, so
    the ack is accepted exactly when L2's block time was after the creation on L1; from L2 to L1 the
    send may be executed at the timeout itself, and then the ack is refused.
  */
  lemma SuccessAckWindow(s: System, d: Layer, id: TxId, time: nat)
    requires Reachable(s) && Opened(s.chain, d, id) && Known(s.chain, d, id)
    requires SourceRecord(s.chain, d, id).status == INIT
    ensures var l := At(s.chain, d);
      var call := SuccessCall(s, d, id);
      var r, executed := SourceRecord(s.chain, d, id), DestRecord(s.chain, d, id).executeTimestamp;
      Apply(l, AgentMsg(l, call, time, true), call).Done?
      <==> (r.createTimestamp < executed && (d == L2 ==> executed != r.timeout))
  {
    ReachableOk(s);
    var l, call := At(s.chain, d), SuccessCall(s, d, id);
    assert Mirrors(s.chain, d, id);
    AckTurnsOnTime(l, AgentMsg(l, call, time, true), call);
  }

  // ---------- At most four calls ----------

  /** How many more calls can take effect for an id, over both chains. */
  function CallsToGo(w: Chains, d: Layer, id: TxId): nat {
    if !Known(w, d, id) then 4
    else
      var r := SourceRecord(w, d, id);
      (if Opened(w, d, id) then 0 else 1)
      + (if r.status == INIT then 2
         else if r.status == ACK_SUCCESS then (if Opened(w, d, id) && DestRecord(w, d, id).status == INIT then 1 else 0)
         else if r.refunded == TODO then 1 else 0)
  }

  function ToGo(w: Chains, id: TxId): nat {
    if Known(w, L2, id) then CallsToGo(w, L2, id) else CallsToGo(w, L1, id)
  }

  lemma ToGoOfOpening(w: Chains, w': Chains, layer: Layer, msg: Msg, c: Call)
    requires WorldOk(w) && Next(w, w', layer, msg, c) && (c.StartTx? || c.SendTx?)
    ensures ToGo(w', c.id) == ToGo(w, c.id) - 1
  {
    assert Mirrors(w, L1, c.id) && Mirrors(w, L2, c.id) && !(Known(w, L1, c.id) && Known(w, L2, c.id));
    assert Backed(w, L1, c.id) && Backed(w, L2, c.id);
  }

  lemma ToGoOfClosing(w: Chains, w': Chains, layer: Layer, msg: Msg, c: Call)
    requires WorldOk(w) && Next(w, w', layer, msg, c) && (c.SendAckedTx? || c.Refund?)
    ensures ToGo(w', c.id) == ToGo(w, c.id) - 1
  {
    assert Mirrors(w, L1, c.id) && Mirrors(w, L2, c.id) && !(Known(w, L1, c.id) && Known(w, L2, c.id));
    assert Backed(w, L1, c.id) && Backed(w, L2, c.id);
    var l := At(w, layer);
    if c.SendAckedTx? && RoleOf(l, l.records[c.id]) == Destination { AckKeepsExecuteTime(w, layer, c); }
    assert Known(w', L1, c.id) == Known(w, L1, c.id) && Known(w', L2, c.id) == Known(w, L2, c.id);
    assert Opened(w', L1, c.id) == Opened(w, L1, c.id) && Opened(w', L2, c.id) == Opened(w, L2, c.id);
  }

  lemma ToGoElsewhere(w: Chains, w': Chains, layer: Layer, msg: Msg, c: Call, id: TxId)
    requires WorldOk(w) && Next(w, w', layer, msg, c) && id != c.id
    ensures ToGo(w', id) == ToGo(w, id)
  {
    SameElsewhere(w, w', layer, msg, c, L1, id);
    SameElsewhere(w, w', layer, msg, c, L2, id);
  }

  lemma SameElsewhere(w: Chains, w': Chains, layer: Layer, msg: Msg, c: Call, d: Layer, id: TxId)
    requires Next(w, w', layer, msg, c) && id != c.id
    ensures Known(w', d, id) == Known(w, d, id) && Opened(w', d, id) == Opened(w, d, id)
    ensures CallsToGo(w', d, id) == CallsToGo(w, d, id)
  {
  }

  /** The call an action executes on a chain, if it does. */
  datatype Executed = Nothing | Executed(layer: Layer, msg: Msg, call: Call)

  function ExecutedBy(s: System, a: Action): Executed
    requires Enabled(s, a)
  {
    match a
    case User(layer, call, msg) => Executed(layer, msg, call)
    case Include(layer, hash, accepts) =>
      var call := At(s.pending, layer)[hash];
      Executed(layer, AgentMsg(At(s.chain, layer), call, BlockTime(s.time, layer), accepts), call)
    case _ => Nothing
  }

  /** Whether an action executes a call for the id that takes effect. */
  function EffectiveFor(s: System, a: Action, id: TxId): nat
    requires Enabled(s, a)
  {
    var e := ExecutedBy(s, a);
    if e.Executed? && e.call.id == id && Apply(At(s.chain, e.layer), e.msg, e.call).Done? then 1 else 0
  }

  lemma ToGoOfCall(w: Chains, layer: Layer, msg: Msg, c: Call, id: TxId)
    requires WorldOk(w) && Permitted(w, layer, msg, c)
    ensures ToGo(World.Step(w, layer, msg, c), id)
         == ToGo(w, id) - if c.id == id && Apply(At(w, layer), msg, c).Done? then 1 else 0
  {
    var w' := World.Step(w, layer, msg, c);
    if Apply(At(w, layer), msg, c).Done? {
      WroteBy(At(w, layer), msg, c);
      assert Next(w, w', layer, msg, c);
      if c.id != id { ToGoElsewhere(w, w', layer, msg, c, id); }
      else if c.StartTx? || c.SendTx? { ToGoOfOpening(w, w', layer, msg, c); }
      else { ToGoOfClosing(w, w', layer, msg, c); }
    } else {
      assert w' == w;
    }
  }

  lemma ToGoOfAction(s: System, a: Action, id: TxId)
    requires Inv(s) && Enabled(s, a)
    ensures ToGo(Do(s, a).chain, id) == ToGo(s.chain, id) - EffectiveFor(s, a, id)
  {
    match a {
      case User(layer, call, msg) => ToGoOfCall(s.chain, layer, msg, call, id);
      case Include(layer, hash, accepts) =>
        var call := At(s.pending, layer)[hash];
        IncludePermitted(s, layer, hash, accepts);
        ToGoOfCall(s.chain, layer, AgentMsg(At(s.chain, layer), call, BlockTime(s.time, layer), accepts), call, id);
      case _ =>
    }
  }

  /** How many calls for the id take effect in a run. */
  ghost function EffectiveCalls(s: System, run: seq<Action>, id: TxId): nat
    requires Possible(s, run)
    decreases |run|
  {
    if run == [] then 0 else EffectiveFor(s, run[0], id) + EffectiveCalls(Do(s, run[0]), run[1..], id)
  }

  /**
    However often anything is sent again, the calls for one id that take effect in a run are exactly those the
    measure loses.
  */
  lemma {:induction false} CallsCounted(s: System, run: seq<Action>, id: TxId)
    requires Inv(s) && Possible(s, run)
    ensures EffectiveCalls(s, run, id) == ToGo(s.chain, id) - ToGo(Final(s, run).chain, id)
    decreases |run|
  {
    if run != [] {
      StepKeeps(s, run[0]);
      ToGoOfAction(s, run[0], id);
      CallsCounted(Do(s, run[0]), run[1..], id);
    }
  }

  /** From the empty bridge no id ever sees more than four effective calls, on both chains together. */
  lemma AtMostFourCalls(owner1: Address, owner2: Address, chainId: nat, timeout1: nat, timeout2: nat, time: Times,
                        run: seq<Action>, id: TxId)
    requires chainId != 0 && Possible(Init(owner1, owner2, chainId, timeout1, timeout2, time), run)
    ensures EffectiveCalls(Init(owner1, owner2, chainId, timeout1, timeout2, time), run, id) <= 4
  {
    InitOk(owner1, owner2, chainId, timeout1, timeout2, time);
    CallsCounted(Init(owner1, owner2, chainId, timeout1, timeout2, time), run, id);
  }
}
