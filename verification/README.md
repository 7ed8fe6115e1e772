# Verification of the cross-chain bridge

This project models the bridge between two chains and proves what it promises. A transfer is
started on one chain with StartTx, which locks the sender's coins. The agent opens it on the other
chain with SendTx and its own coins, acks it on the first chain with SendAckedTx, which pays the
agent or makes the transfer refundable, and passes a success on to the other chain, which pays the
receiver. Around this core the repository has encodings, a hash and locks of its own, and these are
modelled too.

## How it is built

- `Totals` sums over finite maps. `Escrow` is a contract as a value: its calls, its invariants, its
  cash book. `CrossChainBridge` is the contract as a class, both contracts in one, told apart by
  `layer`; every method is proved to be the call `Escrow` specifies.
- `Relay` says what a handler of the agent does as a plan, a list of commands carried out in order, and
  `Answers` what every plan comes to: which call goes to which chain, and which rows are left.
  `RelayHandle` is the relay as a class, both directions in one, told apart by `source`; every
  method is proved to carry out its plan. `HandleManager` sends each event to its relay.
- `World` links the two contracts. `Protocol` is the step system: contracts, submitted calls, tables
  in memory and in the database, handlers under way, clocks. Handlers interleave at every write.
  Events may be lost, repeated or late; calls may be dropped, or included late or although they were
  reported as refused; the agent may crash between any two writes.
- `Safety` holds the theorems over all runs: atomicity, conservation, no stuck payout, the window of
  the success ack, at most four effective calls. `HandOff` proves exactly when a transfer is
  forgotten, whatever is interrupted, and `Agreement` when memory and database hold the same rows.
- `Clean`, `CleanStarts`, `CleanRuns` and `OutOfPocket` prove that the agent is never out of pocket in
  runs that meet five conditions: no crash, one clock, truthful receipts, submissions taken exactly
  when they are included, every start handled once. The mutex of the start table is respected, too.
  `Hazards` gives, for every condition, what goes wrong without it.
- `Progress` proves that a handler nobody disturbs does in the step system what its plan says, that every
  event and every loop moves a transfer on, and exactly when a transfer can be completed.
- `Witnesses` gives runs from the empty bridge to each state in which something is not kept.
- `Store` is the prefix scan over an ordered store, `Recovery` the way tables are kept in it and read back.
- `Arithmetic`, `Sequences` and `Wrappers` are shared by the rest.
- `Radix` and `Base58`, `KeyText` on top of it; `BlockHash`, `Sm3Standard` and `Sm3`, with
  `Sm3Words` on the operations and `Sm3Example` for the digest the standard gives; `Bits`, `BaseN`,
  `BaseNExamples` and `Hex`; `Decimal`.
- `ReadWriteLock` is the lock as steps of any number of threads, `LockPrograms` threads that use it as
  their programs say, `AddressCache` the cache behind it, and `PublicKeys` the keys it is asked for.
  `LockOrder` and `RelayLocks` are the mutexes of the relays.

## What is false of the code, and exactly when

- Two equal StartTx calls in one block share an id: `Escrow.StartCollision`, `Escrow.CollisionBuriesEscrow`.
- Numbers pass through signed 64-bit integers: `Safety.EvenExactly`, `Safety.AgentEvenExactly` and the
  exception in `Safety.NoStuckPayout`, reached in `Witnesses.UnevenReached` and `Witnesses.RefusedPayoutReached`.
- From L2 to L1 a send executed at the timeout itself cannot be acked as a success:
  `Safety.SuccessAckWindow`, reached in `Witnesses.LateSendReached`.
- The agent can forget a transfer whose receiver is unpaid: `HandOff.DropsExactly` and
  `HandOff.HandOffExactly`, reached in `Witnesses.ForgottenReached`. Clean runs never do: `OutOfPocket.CleanHandOff`.
- Memory can hold a row the database does not have, and the other way round: exactly when a put of the
  row crosses a delete of it, `Agreement.CrossesExactly` and `Agreement.NeverApartExactly`, reached in
  `Witnesses.OverlapReached`. Without a crossing they differ only between the halves of a write:
  `Agreement.AgreeUnlessBetween`.
- The agent can pay for a transfer that is refunded: from every reachable state with its deposit made,
  exactly until the success ack has taken effect, `Hazards.CanLoseExactly`. Clean runs never do:
  `OutOfPocket.NeverOutOfPocket`. The other lemmas of `Hazards` give one cause each, reached in `Witnesses`.
- Base58 decoding accepts letters outside the alphabet: `Base58.RoundTripExactly`, `Base58.DecodersAgree`.
- A private key text is recognised without a look at its first three bytes, and an address loses two
  bytes of its raw data: `KeyText.PrivateTextExactly`, with texts that are wrong in
  `KeyText.WrongPrefixAccepted` and `KeyText.WrongLetterAccepted`, and `KeyText.AddressElement`.
- A public key is accepted with any length, so the address cache, which is keyed by the bytes alone,
  can answer with the address of another type: `PublicKeys.AcceptedExactly`, `AddressCache.RightExactly`,
  `PublicKeys.AnyLengthConfused`. Objects made from refused texts do the same: `PublicKeys.RefusedConfused`.
- WriteLock does not return when a thread inside, the caller or another one, asks for the lock again
  before it has left: `LockPrograms.WriteLockReturns`, reached in `LockPrograms.NestedReadDeadlock`
  for another thread and in `LockPrograms.UpgradeDeadlock` for the caller.

## Parameters instead of a world

The answers of the nodes (is a call taken, is there a receipt, what is a status, what does a record
say, how high is the ledger), block times, the agent's clock, whether an account accepts coins, and the
hash of StartTx and of a public key are parameters, and every theorem is for all of them. A node never
shows a receipt for a transaction that failed, and a status query answers truly or, when it fails, INIT.
The agent's account is the owner of both contracts, and the chain id is not zero.

## Model

| member | source | states |
|---|---|---|
| Escrow.SolventKept | cross_contract/L1CrossChainBridge.sol:71-164 | Whoever calls whatever in whatever order, the balance covers every amount that is INIT or open for refund, also when two StartTx ids collide |
| Escrow.NeverOutOfFunds | cross_contract/L1CrossChainBridge.sol:129-137 | In a solvent contract no payout or refund can fail for lack of money |
| Escrow.ExactBalanceKept | cross_contract/L1CrossChainBridge.sol:71-164 | The balance equals what is owed, and a call keeps the equality exactly when it does not overwrite a live record |
| Escrow.CollisionBuriesEscrow | cross_contract/L1CrossChainBridge.sol:76-90 | Two equal starts in one block leave one record and twice the money: the surplus is the whole amount and is owed to nobody |
| Escrow.StartCollision | cross_contract/L1CrossChainBridge.sol:76-89 | With an injective hash a start hits an earlier start on its chain exactly when sender, receiver, amount and block time are all the same |
| Escrow.StartsDisjoint | cross_contract/L2CrossChainBridge.sol:76 | With an injective hash the same id is never started on both chains |
| Escrow.WellKeyedKept | cross_contract/L1CrossChainBridge.sol:76-89 | Every record started here stays stored under the hash of its own fields |
| Escrow.OneRecordPerCall | cross_contract/L1CrossChainBridge.sol:93-164 | An effective call writes one record and uses up one of its remaining calls, so SendTx, SendAckedTx and Refund take effect at most once per id and a written outcome stays |
| Escrow.AccountedKept | cross_contract/L1CrossChainBridge.sol:71-164 | The coins that moved for an id are always exactly those its record stands for: its deposit and one payout or refund |
| Escrow.BalancedKept | cross_contract/L1CrossChainBridge.sol:71-164 | Per role and kind, the coins that moved add up to the amounts of the records that say so, and the balance is their difference |
| Escrow.RoleConservation | cross_contract/L1CrossChainBridge.sol:71-164 | Per role: deposited = paid out + refunded + still locked |
| Escrow.StartDoneExactly | cross_contract/L1CrossChainBridge.sol:71-90 | StartTx takes effect exactly when both accounts exist, the sender names itself, the amount is the value sent and the timeout fits; then the balance grows by the value sent |
| Escrow.SendDoneExactly | cross_contract/L1CrossChainBridge.sol:93-114 | SendTx takes effect exactly for the owner, with a 32-byte id unused on this chain, both accounts, the value sent and a timeout not yet passed, on L2 not even reached; then the balance grows by the value sent |
| Escrow.AckDoneExactly | cross_contract/L1CrossChainBridge.sol:116-149 | SendAckedTx takes effect exactly for the owner, a known INIT record, a result from 1 to 3 and a short text, and as a success inside the window with the money there; only a success moves coins, its whole amount |
| Escrow.RefundDoneExactly | cross_contract/L1CrossChainBridge.sol:151-164 | Refund takes effect exactly for the sender of a record whose refund is open, and pays back its whole amount |
| CrossChainBridge.Contract.constructor | cross_contract/L1CrossChainBridge.sol:4-8 | The new contract is empty and meets every invariant above |
| CrossChainBridge.Contract.StartTx | cross_contract/L1CrossChainBridge.sol:71-91 | The whole new state and the revert reason are those of the specified call with the hashed id; it succeeds exactly under the requires of the contract and then the balance grows by the value sent; solvency is kept |
| CrossChainBridge.Contract.SendTx | cross_contract/L1CrossChainBridge.sol:93-114 | The same for SendTx, with the strict time check on L2 and the weak one on L1 |
| CrossChainBridge.Contract.SendAckedTx | cross_contract/L1CrossChainBridge.sol:116-149 | The same for SendAckedTx on either contract; it never fails for lack of money |
| CrossChainBridge.Contract.Refund | cross_contract/L1CrossChainBridge.sol:151-164 | The same for Refund; it never fails for lack of money |
| Relay.RunElsewhere | src/glue/layer1_to_layer2_handle.cpp:223-316 | A handler for one id changes no row of another |
| Relay.RunThere | src/glue/layer1_to_layer2_handle.cpp:223-316 | What a handler does for an id depends on nothing but the rows of that id |
| Answers.ReadIs | src/glue/layer1_to_layer2_handle.cpp:178-221 | What is read of a record is its parties, status and times, numbers cut at 2^63 - 1 |
| Answers.SaveIs | src/glue/layer1_to_layer2_handle.cpp:328-375 | A save replaces the row in the database and keeps one that is in memory; a new one in memory is due after sixty seconds |
| Answers.ClearIs | src/glue/layer1_to_layer2_handle.cpp:339-388 | A clear takes the row out of both |
| Answers.AckLoop | src/glue/layer1_to_layer2_handle.cpp:246-283 | A due success, and a due refusal without receipt and with status INIT, is sent to the source again with its code, text and execute time and looked at again a minute later; a refusal that took effect is cleared |
| Answers.ReplyLoop | src/glue/layer1_to_layer2_handle.cpp:286-316 | A due payout is sent to the destination again unless it has taken effect, and is cleared then |
| Answers.ConfirmLoop | src/glue/layer2_to_layer1_handle.cpp:140-162 | A confirmed start is sent and its row cleared if that was taken; past its timeout it is refused with code 3; an unconfirmed one waits |
| Answers.StartLoop | src/glue/layer2_to_layer1_handle.cpp:261-277 | A start past its timeout is refused with code 2, and its row cleared if that was taken |
| Answers.SendLoop | src/glue/layer1_to_layer2_handle.cpp:223-244 | A send past its timeout is acked with code 1 if its receipt is there and with code 3 if not, and its row cleared if that was taken |
| Answers.SendExecuted | src/glue/layer1_to_layer2_handle.cpp:500-523 | The success ack carries code 1, the text of its direction and the execute time of the destination, and the send row is cleared if it was taken |
| Answers.StartOnL1 | src/glue/layer1_to_layer2_handle.cpp:68-90 | One SendTx to L2; only if it is refused, one SendAckedTx with code 2 to L1; each leaves its row if taken |
| Answers.StartOnL2 | src/glue/layer2_to_layer1_handle.cpp:87-110 | No call; a row with the height of the ledger if that could be read |
| Answers.AckExecuted | src/glue/layer1_to_layer2_handle.cpp:98-121 | The payout goes to the destination with the code and execute time of the source, and the ack row is cleared if it was taken |
| RelayHandle.Handle.Save | src/glue/layer1_to_layer2_handle.cpp:328-337 | Database row replaced, row in memory kept if there was one |
| RelayHandle.Handle.Clear | src/glue/layer1_to_layer2_handle.cpp:339-346 | The row is gone from both |
| RelayHandle.Handle.Submit | src/glue/layer1_to_layer2_handle.cpp:123-176 | Returns whether the node took the call, logs it with its target chain, and saves the right table row only then |
| RelayHandle.Handle.HandleStartTxEvent | src/glue/layer1_to_layer2_handle.cpp:68-90 | The table changes, calls and answer of a start: from L1 a SendTx and, if refused, one failure ack; from L2 a row with the confirmation height |
| RelayHandle.Handle.HandleSendTxEvent | src/glue/layer1_to_layer2_handle.cpp:500-523 | A success ack with the destination's record, and the send row cleared only if it was taken |
| RelayHandle.Handle.HandleSendAckdTxEvent | src/glue/layer1_to_layer2_handle.cpp:98-121 | The payout call with the source's record, and the ack row cleared only if it was taken |
| RelayHandle.Handle.VisitConfirm | src/glue/layer2_to_layer1_handle.cpp:140-162 | A confirmed start is sent, or refused if its timeout has passed; an unconfirmed one is left alone |
| RelayHandle.Handle.VisitSend | src/glue/layer2_to_layer1_handle.cpp:279-303 | A send past its timeout is acked as success if its receipt is there and as timeout otherwise |
| RelayHandle.Handle.VisitAck | src/glue/layer2_to_layer1_handle.cpp:305-339 | An ack past its deadline is resent, or cleared if it failed and has taken effect |
| RelayHandle.Handle.VisitReply | src/glue/layer2_to_layer1_handle.cpp:341-368 | A payout past its deadline is cleared if it has taken effect and resent otherwise |
| RelayHandle.Handle.Visit | src/glue/layer2_to_layer1_handle.cpp:261-303 | One turn of any of the five loops carries out the plan of its row, and submits exactly the call the row, the clock and the answers of the nodes ask for |
| RelayHandle.Handle.RunSweep | src/glue/layer2_to_layer1_handle.cpp:261-368 | A loop that changes the table it runs over, in any order, still treats every id once, by the rows it had when the loop began |
| HandleManager.TakenRightExactly | src/glue/handle_manager.cpp:92-109 | Every event is taken for itself exactly when the three topics of a contract differ |
| HandleManager.AnsweredFirst | src/glue/handle_manager.cpp:60-109 | The answer of the dispatcher is whether the first call of the relay was taken; only a start on L2 has none |
| HandleManager.Manager.OnLayer1CrossContractTlog | src/glue/handle_manager.cpp:92-109 | An event of L1 is answered by its relay, from the record on the chain that emitted it, and the other relay does nothing; true is returned exactly when the record can be read and the first call is taken; an unknown topic changes nothing |
| HandleManager.Manager.OnLayer2SubscribeResponse | src/glue/handle_manager.cpp:60-90 | The same for L2, where a start returns true exactly when record and ledger height can be read; events of another contract change nothing |
| World.WorldKept | cross_contract/L1CrossChainBridge.sol:71-164 | No call a relay or a user can make breaks the links between the two contracts: destination records mirror source records and are paid only after them |
| Protocol.StepKeeps | src/glue/layer1_to_layer2_handle.cpp:68-316 | Every action of the whole bridge keeps the invariant: user calls, inclusion, loss, clocks, events late or repeated, loop turns, single writes, crashes |
| Protocol.ReachableOk | src/glue/layer1_to_layer2_handle.cpp:68-316 | It holds in every reachable state |
| Safety.Atomicity | cross_contract/L1CrossChainBridge.sol:116-164 | In no reachable state is a transfer both refunded at its source and paid at its destination |
| Safety.PaidMeansSucceeded | cross_contract/L2CrossChainBridge.sol:129-139 | Whatever the destination paid went to the receiver named at the start, with the amount given there, and the source is ACK_SUCCESS |
| Safety.MoveMeans | cross_contract/L1CrossChainBridge.sol:116-164 | Every payout or refund that happened is the one its record calls for |
| Safety.Conservation | cross_contract/L1CrossChainBridge.sol:71-164 | Per direction in every reachable state: deposits = paid to agent + refunded + locked; agent's deposits = paid to receivers + locked; receivers got at most what the agent was paid; the agent was paid what it put in for the same transfers exactly when the amounts of the succeeded ones fit a signed 64-bit integer |
| Safety.AgentEvenExactly | src/glue/layer1_to_layer2_handle.cpp:202-216 | What the agent put in for the transfers it was paid for is never more than it was paid, and the same exactly when each of their amounts fits a signed 64-bit integer |
| Safety.ReceiversCovered | cross_contract/L2CrossChainBridge.sol:129-139 | Receivers get no more than the agent got on the source |
| Safety.EvenExactly | src/glue/layer1_to_layer2_handle.cpp:202-216 | A succeeded transfer leaves agent and user even exactly when its amount fits a signed 64-bit integer |
| Safety.NoStuckPayout | cross_contract/L2CrossChainBridge.sol:116-139 | With the source paid and the destination INIT, the relayed payout passes every check and is covered, at any time; the one exception, a timeout and execute time at the edge of 64 bits on L1, is exact |
| Safety.SuccessAckWindow | cross_contract/L1CrossChainBridge.sol:126-128 | The success ack is accepted exactly when the execute time is after the creation and, from L2 to L1, not equal to the timeout |
| Safety.CallsCounted | cross_contract/L1CrossChainBridge.sol:71-164 | The calls for one id that take effect in any run are exactly what a decreasing measure loses |
| Safety.AtMostFourCalls | cross_contract/L1CrossChainBridge.sol:71-164 | However often anything is resent, at most four calls for one id take effect on both chains together |
| Progress.Uninterrupted | src/glue/layer1_to_layer2_handle.cpp:68-316 | A handler nobody disturbs does in the step system what its plan says: the same tables, the same calls pending in the same order |
| Progress.AckRowDecides | src/glue/layer1_to_layer2_handle.cpp:246-283 | From a reachable state with a due ack row and an undecided source, the turn of the loop, its steps and the inclusion decide the source as the row says: a success inside its window, or the refusal |
| Progress.ReplyRowPays | src/glue/layer1_to_layer2_handle.cpp:286-316 | With a due payout row and an unpaid receiver they pay the receiver |
| Progress.ConfirmedRowSent | src/glue/layer2_to_layer1_handle.cpp:152-158 | With a confirmed start in time they open the transfer on L1, and its row moves on |
| Progress.ConfirmedRowRefused | src/glue/layer2_to_layer1_handle.cpp:147-151 | With a confirmed start past its timeout they refuse it on L2 |
| Progress.StartRowRefused | src/glue/layer2_to_layer1_handle.cpp:261-277 | With a start that was never confirmed and is past its timeout they refuse it, and its row moves on |
| Progress.SendRowSucceeds | src/glue/layer1_to_layer2_handle.cpp:229-234 | With a send past its timeout whose receipt is there they make the source a success inside the window |
| Progress.SendRowRefused | src/glue/layer1_to_layer2_handle.cpp:235-241 | And without a receipt they refuse it |
| Progress.StartEventOpens | src/glue/layer1_to_layer2_handle.cpp:68-90 | The event of a start on L1 leads to the transfer opened on L2, in time |
| Progress.StartEventRefused | src/glue/layer1_to_layer2_handle.cpp:82-86 | Or, when the node refuses the send, to its refusal on L1 |
| Progress.StartEventSaved | src/glue/layer2_to_layer1_handle.cpp:87-110 | The event of a start on L2 leaves the row of the start with the height to be confirmed |
| Progress.SendEventSucceeds | src/glue/layer1_to_layer2_handle.cpp:500-523 | The event of a send leads to a success on the source, inside the window |
| Progress.AckEventPays | src/glue/layer1_to_layer2_handle.cpp:98-121 | The event of a success leads to the receiver being paid |
| Progress.CompletesExactly | src/glue/layer1_to_layer2_handle.cpp:68-316 | In every reachable state: once its deposit is made, some continuation brings the agent its money and the receiver its own exactly if the transfer is not refused and was executed after its creation, before its timeout and before the timeout the destination has for it |
| HandOff.DropsExactly | src/glue/layer1_to_layer2_handle.cpp:264-276 | One step loses an id whose transfer is not over exactly when it deletes the id's last database row while the source record is ACK_SUCCESS and the destination record is INIT |
| HandOff.ReachableOrdered | src/glue/layer1_to_layer2_handle.cpp:223-316 | Every reachable state has the order the hand-off theorems ask for, so they are about all of them |
| HandOff.HandOffExactly | src/glue/layer1_to_layer2_handle.cpp:250-316 | Over any run with crashes between any two writes: an id once in the database is in a stage table, or its failure ack or payout has taken effect, after every step, exactly when no step deletes a last row like that |
| HandOff.DueRefusalDrops | src/glue/layer1_to_layer2_handle.cpp:271-273 | The loop over the acks does delete such a row: a due refusal in memory, the source succeeded meanwhile, the receiver unpaid |
| HandOff.ActionGood | src/glue/layer1_to_layer2_handle.cpp:223-316 | Every action only takes spare rows out of the database and writes the later row before clearing the earlier one |
| OutOfPocket.NeverOutOfPocket | src/glue/layer1_to_layer2_handle.cpp:68-90 | In runs without crashes, with one clock, truthful receipts, no refused submission included and every start handled once: once the agent's SendTx has executed the source never refuses the transfer |
| OutOfPocket.CleanHandOff | src/glue/layer1_to_layer2_handle.cpp:250-316 | In such runs the hand-off has no exception |
| OutOfPocket.CleanStepKeeps | src/glue/layer2_to_layer1_handle.cpp:140-162 | And through every such action |
| OutOfPocket.InTimeNotNacking | cross_contract/L2CrossChainBridge.sol:97 | A send accepted by its contract is in time, so nobody has given its transfer up |
| Hazards.CanLoseExactly | src/glue/layer1_to_layer2_handle.cpp:68-90 | In every reachable state: once the agent has put its deposit into a transfer, some continuation loses it exactly when the success ack has not yet taken effect on the source; the start event handled again is enough |
| Hazards.MissingReceiptLoses | src/glue/layer1_to_layer2_handle.cpp:229-241 | From any state with an executed send past its timeout, a receipt that is not shown leads to a refused transfer the agent has paid for |
| Hazards.RepeatedStartLoses | src/glue/layer1_to_layer2_handle.cpp:81-86 | So does a start event handled twice |
| Hazards.UnreportedSendLoses | src/glue/layer1_to_layer2_handle.cpp:81-86 | So does a send the node refuses and includes all the same |
| Hazards.CrashLoses | src/glue/layer2_to_layer1_handle.cpp:155-156 | So does a crash between submitting a send from L2 and noting it |
| Hazards.ClockAheadLoses | src/glue/layer1_to_layer2_handle.cpp:223-241 | So does a clock of the agent ahead of the chain's: a truthful timeout refuses a send that then executes in time |
| Witnesses.RepeatedStartReached | src/glue/layer1_to_layer2_handle.cpp:81-86 | For every id a run from the empty bridge with one start event handled twice ends with the agent out of pocket |
| Witnesses.UnreportedSendReached | src/glue/layer1_to_layer2_handle.cpp:81-86 | So does one with a send refused and included |
| Witnesses.MissingReceiptReached | src/glue/layer1_to_layer2_handle.cpp:229-241 | So does one with a receipt that is not shown |
| Witnesses.ClockAheadReached | src/glue/layer1_to_layer2_handle.cpp:223-241 | So does one with an agent's clock that is ahead |
| Witnesses.CrashReached | src/glue/layer2_to_layer1_handle.cpp:155-156 | So does one with a crash between sending and noting |
| Witnesses.LateSendReached | cross_contract/L1CrossChainBridge.sol:97 | A run from the empty bridge ends with a send of L2 executed at its timeout, whose success ack is refused at any time |
| Witnesses.UnevenReached | src/glue/layer1_to_layer2_handle.cpp:202-216 | A run ends with a succeeded transfer of 2^63 for which the agent put in less than it was paid |
| Witnesses.RefusedPayoutReached | cross_contract/L1CrossChainBridge.sol:126-127 | A run ends with the agent paid and a payout that is refused at any time, timeout and execute time being at the edge of 64 bits |
| Witnesses.ForgottenReached | src/glue/layer1_to_layer2_handle.cpp:271-273 | A run ends with an id in no table whose source succeeded and whose receiver is unpaid |
| Witnesses.SuccessRowForgotten | src/glue/layer1_to_layer2_handle.cpp:348-357 | The row deleted there can be that of a success: the write replaced the refusal in the database and emplace kept it in memory |
| Witnesses.OverlapReached | src/glue/layer1_to_layer2_handle.cpp:348-367 | A run ends with nobody writing a row that memory has and the database does not: a clear came between the halves of a save |
| Agreement.CrossesExactly | src/glue/layer1_to_layer2_handle.cpp:328-388 | A step puts a row another handler is about to erase, or deletes one another is about to write to memory, exactly when after it, and not before, the writes under way can finish in an order that leaves the row in only one of memory and database |
| Agreement.NeverApartExactly | src/glue/layer2_to_layer1_handle.cpp:382-460 | In a run from the empty bridge memory and database end up with the same row, at every moment and in every order of finishing the writes under way, exactly when no put of the row crosses a delete of it in the run |
| Agreement.InOrderExactly | src/glue/layer1_to_layer2_handle.cpp:348-367 | The two end up the same in every order exactly when every handler about to write the row to memory finds it in the database and every handler about to erase it does not, and with none of these they agree already |
| Agreement.AgreeUnlessBetween | src/glue/layer2_to_layer1_handle.cpp:382-460 | In every run from the empty bridge in which no put of a row crosses a delete of it, they agree on it exactly when no handler is between the halves of a write that still changes memory |
| Store.PrefixStretch | src/database/rocks_db.cpp:149-151 | In key order the keys with a prefix are one stretch that begins where Seek goes |
| Store.Cursor.Seek | src/database/rocks_db.cpp:149 | The cursor is at the first key not below the target |
| Store.GetAllByIterator | src/database/rocks_db.cpp:138-153 | The scan returns exactly the values of the keys with the prefix |
| Store.InOrder | src/database/rocks_db.cpp:149-151 | Every finite set of keys can be listed in key order, so every store has a cursor |
| Recovery.PrefixFree | src/glue/layer2_to_layer1_handle.cpp:9-14 | None of the seven table prefixes begins another |
| Recovery.DbKeyInjective | src/glue/layer1_to_layer2_handle.cpp:328-388 | Different rows of any tables of either relay have different keys |
| Recovery.IdTextIsHex | src/glue/layer1_to_layer2_handle.cpp:328-388 | The text of an id in a key is the hexadecimal text of its bytes |
| Recovery.CommandOnDisk | src/glue/layer1_to_layer2_handle.cpp:328-388 | Whichever relay writes, both find exactly their own tables in the common store |
| Recovery.ScanFinds | src/glue/layer1_to_layer2_handle.cpp:15-66 | A prefix scan finds exactly the rows of its table |
| Recovery.LoadTable | src/glue/layer1_to_layer2_handle.cpp:17-31 | One table is read back into memory, each row as it is in the store |
| Recovery.Initialize | src/glue/layer2_to_layer1_handle.cpp:16-85 | After a restart memory holds exactly the rows of the store, each due one period later: the restart step of the bridge model |
| Radix.DigitsOfValue | src/utils/crypto.cpp:223-257 | A digit string without leading zeros is the one its value has |
| Radix.MultiplyAdd | src/utils/crypto.cpp:238-245 | Multiplying a digit buffer in place and adding gives the product and the carry that did not fit |
| Base58.EncodeFits | src/utils/crypto.cpp:237 | The buffer of 138 digits per hundred bytes and one never loses a carry |
| Base58.DecodeFits | src/utils/crypto.cpp:263 | Neither does the buffer of the rounded logarithm and two, even when letters outside the alphabet count as 255 |
| Base58.Encode | src/utils/crypto.cpp:223-257 | The long division gives the base-58 digits of the number behind one '1' per leading zero byte |
| Base58.Decode | src/utils/crypto.cpp:259-282 | The long multiplication gives the bytes of the number behind one zero byte per leading '1' |
| Base58.DecodeOld | src/utils/crypto.cpp:284-355 | The decoder over big numbers: the same bytes, or nothing at the first letter outside the alphabet |
| Base58.DecodeEncode | src/utils/crypto.cpp:223-282 | Decode(Encode(x)) = x for every byte string, leading zeros included |
| Base58.EncodeDecode | src/utils/crypto.cpp:223-282 | Encode(Decode(s)) = s for every string over the alphabet |
| Base58.RoundTripExactly | src/utils/crypto.cpp:223-282 | For other strings it never is: the round trip holds exactly over the alphabet |
| Base58.DecodersAgree | src/utils/crypto.cpp:259-355 | The two decoders agree exactly on the strings over the alphabet |
| Base58.DigitOfLetter | src/utils/crypto.cpp:149-159 | The digit table undoes the dictionary |
| Base58.LetterOfDigit | src/utils/crypto.cpp:149-159 | The dictionary undoes the digit table, which names no other digits |
| Base58.LettersRise | src/utils/crypto.cpp:149 | With B and b, and U and u, exchanged, the letters of the dictionary rise with their digits |
| Base58.AlphabetExactly | src/utils/crypto.cpp:149-159 | The letters are exactly the digits and letters without 0, I, O and l; with the order this fixes the whole dictionary |
| Base58.TenIsSmallB | src/utils/crypto.cpp:149 | The byte ten is written as a small b and read back from it |
| KeyText.BeginsWithPri | src/common/private_key.cpp:424-440 | Base58 of any 37 bytes that begin with 24, 158, 153, and also with another third byte from 150 to 158, is fifty letters that begin with pri and not with the address prefix |
| KeyText.PrivateRoundTrip | src/common/private_key.cpp:150-180 | The text of a 32-byte key with any signature type comes apart into the same type, encoding and key |
| KeyText.PrivateTextExactly | src/common/private_key.cpp:150-160 | A text taken for a private key is the text of that key exactly when it is over the alphabet and its first three bytes are right; they are not checked |
| KeyText.WrongPrefixAccepted | src/common/private_key.cpp:150-160 | For every type and key, and eight wrong third bytes, a text that is not the key's is taken for it |
| KeyText.WrongLetterAccepted | src/common/private_key.cpp:150-160 | For every type, the text of a key that ends in a zero byte, with 0 in place of its last letter, is taken for another key of the type |
| KeyText.GetEncPrivateKey | src/common/private_key.cpp:424-440 | The bytes are put together as the specification of the text says |
| KeyText.EncodeAddress | src/common/private_key.cpp:22-28 | Prefix, the two types, and Base58 of the hash |
| KeyText.GetKeyElement | src/common/private_key.cpp:113-184 | Key type, signature type, encoding and raw data as specified, and whether the text is accepted |
| KeyText.AddressRoundTrip | src/common/private_key.cpp:22-32 | DecodeAddress undoes EncodeAddress for every byte string and all types that are not colons |
| KeyText.AddressElement | src/common/private_key.cpp:118-147 | An address is recognised, but its raw data is handed out without its first two bytes |
| BlockHash.PadZerosUnique | src/utils/sm3.cpp:320-345 | The number of zero bytes in the padding is the only one below a block that fills the last block |
| BlockHash.PaddingParts | src/utils/sm3.cpp:343-347 | Padding from the table of 0x80 and zeros, then eight bytes of length, is the padding of section 5.2 of GB/T 32905-2016 and ends on a block |
| BlockHash.CountMore | src/utils/sm3.cpp:292-296 | The two counters hold the number of bytes modulo 2^64 after any further bytes: the carry is found by comparing |
| BlockHash.LengthBytes | src/utils/sm3.cpp:335-340 | The two words made of the counters are the length in bits modulo 2^64 |
| BlockHash.AbsorbAppend | src/utils/sm3.cpp:282-317 | Absorbing whole blocks and then more is absorbing it all at once |
| BlockHash.Context.Update | src/utils/sm3.cpp:282-317 | State and buffer after a further piece are those of the longer message |
| BlockHash.Context.Finish | src/utils/sm3.cpp:330-356 | The digest is the hash of all bytes put in |
| BlockHash.Context.DigestOfParts | src/utils/sm3.cpp:282-356 | However a message is cut into pieces, the digest is the one-shot hash of the whole |
| BlockHash.HmacContext.Of | src/utils/sm3.cpp:405-469 | The HMAC of section 2 of RFC 2104, keys longer than a block hashed first |
| BlockHash.HmacContext.Finish | src/utils/sm3.cpp:440-454 | The outer hash over the outer pad and the inner digest; key and text put in before |
| BlockHash.FillPad | src/utils/sm3.cpp:416-422 | The pad is one byte all over, xored with the key and zeros |
| Sm3.Expand | src/utils/sm3.cpp:119-226 | The 68 and 64 words of the expanded block of section 5.3.2, xors grouped as the code groups them |
| Sm3.Process | src/utils/sm3.cpp:114-276 | Both loops over the registers compute the compression function of section 5.3 |
| Sm3.ProcessBlock | src/utils/sm3.cpp:114-276 | On 32-bit words it is the compression function of the hash |
| Sm3Words.RotlBits | src/utils/sm3.cpp:170-171 | A rotation by n puts the bit n places below, counted around the word, in the place of each bit |
| Sm3Words.WordOfValue | src/utils/sm3.cpp:23-31 | Four bytes make the word of their big-endian number |
| Sm3Words.WordBytesValue | src/utils/sm3.cpp:33-41 | The bytes of a word are the big-endian digits of its number |
| Sm3Example.DigestOfAbc | src/utils/sm3.cpp:65-76 | The digest of abc is the one of appendix A.1 of GB/T 32905-2016, computed word by word and round by round |
| Sm3.Crypto | src/utils/sm3.cpp:65-76 | starts, any updates, finish: the SM3 hash of the whole message |
| Sm3.HmacCrypto | src/utils/sm3.cpp:459-469 | HMAC with SM3 |
| Sm3.HmacLongKey | src/utils/sm3.cpp:459-469 | A key longer than 64 bytes stands for its digest |
| Sm3.HmacPads | src/utils/sm3.cpp:459-469 | With a key of one byte the two pads are that byte and zeros, xored with 0x36 and with 0x5C |
| BaseN.Encode | src/utils/basen.h:198-236 | The loop writes one character per group of bits and as many equal signs as bring the bits to whole bytes |
| BaseN.Decode | src/utils/basen.h:140-196 | The loop writes the whole bytes of the bits carried by the characters, and the rest unless the equal signs account for it |
| BaseN.RoundTrip | src/utils/basen.h:140-236 | decode(encode(x)) = x for every byte string and every sound dictionary of four, five or six bits |
| BaseN.EncodedQuanta | src/utils/basen.h:198-236 | With its equal signs the text stands for whole bytes, as sections 4 and 6 of RFC 4648 ask |
| BaseN.Base16Sound | src/utils/basen.h:58-82 | The base 16 dictionary and its inverse are sound |
| BaseN.Base32Sound | src/utils/basen.h:84-104 | So are those of base 32 |
| BaseN.Base64Sound | src/utils/basen.h:106-138 | And of base 64 |
| BaseNExamples.ReadsEitherCase | src/utils/basen.h:70-82 | Base 16 reads capital letters like small ones and nothing else |
| BaseNExamples.Alphabet16 | src/utils/basen.h:63-68 | The dictionary of base 16 is the digits and small letters |
| BaseNExamples.Alphabet32 | src/utils/basen.h:89-93 | The dictionary of base 32 is table 3 of RFC 4648 |
| BaseNExamples.Alphabet64 | src/utils/basen.h:111-115 | The dictionary of base 64 is table 1 of RFC 4648 |
| BaseNExamples.FoInBase32 | src/utils/basen.h:198-236 | The example fo of section 10 of RFC 4648 in base 32 |
| BaseNExamples.FoInBase64 | src/utils/basen.h:198-236 | And in base 64 |
| Hex.BinToHexString | src/utils/strings.h:757-768 | Two small digits per byte |
| Hex.HexStringToBin | src/utils/strings.h:770-807 | The bytes of the pairs, or nothing for an odd, empty or ill-formed text |
| Hex.HexRoundTrip | src/utils/strings.h:757-807 | Reading the hexadecimal text of any byte string gives it back |
| Hex.HexTextExactly | src/utils/strings.h:757-807 | A text is what its bytes are written as exactly when it is pairs of digits and small letters |
| Hex.Base16IsHex | src/glue/layer1_to_layer2_handle.cpp:403-417 | encode_b16 and BinToHexString agree on every byte string, so the bytes signed and the bytes sent are the same |
| Decimal.AppendWrapped | src/utils/strings.h:105-107 | Multiplying by ten and adding with wrap-around keeps the number modulo the width |
| Decimal.ReadWrapped | src/utils/strings.h:95-114 | Skip white space, read digits, stop: the number read modulo the width of the type |
| Decimal.ReadsBack | src/utils/strings.h:240-253 | Printing a number and reading its digits gives the number |
| Decimal.Examples | src/utils/strings.h:95-114 | The number 102 is printed and read with its usual digits; the widths are 32 and 64 bits |
| Decimal.ToStringInjective | src/utils/strings.h:240-253 | Different numbers are printed differently |
| Decimal.SafeStoui64 | src/utils/strings.h:270-283 | Accepts exactly the canonical decimals below 2^64, each as itself, although the reader wraps around |
| Decimal.SafeStoui | src/utils/strings.h:240-253 | The same below 2^32 |
| ReadWriteLock.Exclusion | src/utils/thread.cpp:153-177 | Any number of threads, any interleaving, nested use included: while one is past WriteLock no other is inside |
| ReadWriteLock.StepKeeps | src/utils/thread.cpp:153-177 | Every atomic action keeps the counter equal to the readers and the mutex with its owner |
| ReadWriteLock.WriterPreferred | src/utils/thread.cpp:167-172 | Once a writer has entered no new reader gets in |
| ReadWriteLock.NoUpgrade | src/utils/thread.cpp:167-172 | A thread that still reads stays in WriteLock for ever |
| LockPrograms.WaitsForReader | src/utils/thread.cpp:158-172 | A writer that cannot go on waits for a reader inside, which can move exactly when its next operation is to unlock |
| LockPrograms.NeverReturns | src/utils/thread.cpp:158-172 | If some reader, the writer included, asks for the lock again before it has given all its read locks back, the writer stays where it is in every run |
| LockPrograms.WriteLockReturns | src/utils/thread.cpp:158-172 | WriteLock can return exactly when every thread counted as a reader, the caller included, gives all its read locks back before it asks for the lock again |
| LockPrograms.WriterComes | src/utils/thread.cpp:158-172 | And then it does: the others have only so many turns left, and without any the writer has one |
| LockPrograms.NestedReadDeadlock | src/utils/thread.cpp:158-172 | A reader that reads again while a writer waits: from the new lock, four steps lead to a state in which neither can move, although the writer holds no read lock |
| LockPrograms.UpgradeDeadlock | src/utils/thread.cpp:158-172 | A reader that asks for the write lock: alone with the new lock, after four steps it can never move again |
| AddressCache.NoRace | src/common/private_key.cpp:233-263 | No thread stores into the address cache while another stores or looks up |
| AddressCache.AnswersRight | src/common/private_key.cpp:235-263 | If keys with the same bytes have one address, every call in every run answers with the address of its key |
| AddressCache.RightExactly | src/common/private_key.cpp:235-263 | The cache answers rightly in every run exactly when keys with the same bytes have one address |
| AddressCache.KindInAddress | src/common/private_key.cpp:243-248 | That is exactly when the bytes of a key determine its signature type |
| PublicKeys.GetEncPublicKey | src/common/private_key.cpp:265-280 | The hexadecimal text of 0xB0, type, encoding and key |
| PublicKeys.GetPublicKeyElement | src/common/private_key.cpp:72-111 | Type and key as the text has them, or refused, with the answer on the length written over; a refused text leaves its type and no key |
| PublicKeys.PublicKey | src/common/private_key.cpp:213-220 | The object made from any text: valid exactly for an accepted one, and otherwise with the type of the text, if it was read, and no bytes |
| PublicKeys.AcceptedExactly | src/common/private_key.cpp:72-111 | A text is accepted exactly when its bytes begin with 0xB0, any type and the supported encoding, whatever their number |
| PublicKeys.PublicRoundTrip | src/common/private_key.cpp:72-111 | Every type and every byte string of any length is read back from its text, and as nothing else |
| PublicKeys.PublicTextBegins | src/common/private_key.cpp:265-280 | The texts of the two types begin with b06566 and b07a66 |
| PublicKeys.AddressRecognised | src/common/private_key.cpp:235-263 | The address of a key begins with did:bid:, its type and f, and is recognised by the reader of addresses |
| PublicKeys.CheckedLengthsAnswered | src/common/private_key.cpp:88-100 | If the answer on the length stood, the cache would answer every accepted key with its address |
| PublicKeys.RefusedConfused | src/common/private_key.cpp:213-263 | But objects made from refused texts are cached under no bytes with their own types: two of them give a wrong answer even with the lengths checked |
| PublicKeys.AnyLengthConfused | src/common/private_key.cpp:88-111 | As it is, two accepted texts with the same 32 bytes and different types are enough for a wrong answer |
| LockOrder.NoDeadlock | src/utils/thread.cpp:126-147 | Threads that take recursive mutexes in one order never all wait |
| LockOrder.RunsFinish | src/utils/thread.cpp:126-147 | A run that cannot go on has taken every action of every thread, and every mutex is free |
| LockOrder.NeverBoth | src/utils/thread.cpp:126-147 | In no interleaving are two threads about to use what one mutex guards |
| LockOrder.OppositeOrdersDeadlock | src/utils/thread.cpp:126-147 | Without the order two threads can wait for each other |
| RelayLocks.JobReturns | src/glue/layer2_to_layer1_handle.cpp:140-460 | Every handler and loop of either relay takes its mutexes in the order start, send, ack, reply and gives them back |
| RelayLocks.RelaysNeverDeadlock | src/glue/layer2_to_layer1_handle.cpp:140-460 | No interleaving of any threads running handlers and loops of both relays deadlocks |
| RelayLocks.RelaysNeverRace | src/glue/layer1_to_layer2_handle.cpp:328-388 | In no interleaving of threads running handlers and loops are two about to use the same table in memory |
| RelayLocks.SendEventLocks | src/glue/layer1_to_layer2_handle.cpp:328-357 | A send event saves its ack row under the mutex of that table and then clears the send row under the mutex of that one |
| RelayLocks.RelaysFinish | src/glue/layer1_to_layer2_handle.cpp:223-388 | Every run of them that cannot go on has done all its work |

## Left out

- HTTP, websocket, JSON and protobuf: a message is read as it was written; rows and events that cannot be parsed do not occur.
- SetOwner, SetTimeout, updatePeriodToLayer2CrossContract, the balance checks and the getters: one branch each, they would only add easy members.
- The loop over the messages of one manager-contract log: each confirmation in it is one confirmation sweep.
- Failed database writes: the relays ignore them, so the model does not follow what a lost row leads to.
- RocksDB itself: a store is a map of strings in byte order, and a cursor sees it as it was when it was made.
- One process crash restarts both relays at once; a crash of one relay alone does not occur.
- Erasing a row of the map a range loop runs over: the loops work on a snapshot of the keys, in any order.
- The tables of a relay are one map keyed by table and id; the fields of a row that no code reads again are not kept.
- Amounts and balances are unbounded; the one overflow that reverts, block time plus timeout in StartTx, is modelled. The transfer of coins and the record write after it are one step.
- A taken submission whose answer names no transaction: a hash that never gets a receipt stands for it.
- sha256 of StartTx is any function, injective where a theorem says so; the hash of a public key is any function to 32 bytes.
- Ed25519, SM2, AES, SHA-256, MD5, CRC and the big numbers of OpenSSL: foreign or easy; Decode_old is modelled over unbounded numbers.
- The floating-point logarithm in Base58 Decode is taken exactly; characters from 128 on, for which the digit table has no entry, are excluded by the type of letters.
- SM3 rotations by 32 and more rotate by the remainder, as the standard means them; pieces of a message are shorter than 2^31 bytes, the length a C int can name. The contexts take the compression as a function, to which Sm3.ProcessBlock proves the code equal.
- The bit operations of the base-n code are arithmetic on bytes without sign; IsSpace is the white space of the C locale.
- The out-parameters of GetKeyElement when it fails.
- The locks of the logger and of the HTTP client, and the time a lock is held: they are never held while another one is taken. The loading of the tables at the start of the agent comes before its threads.
- Fairness: a thread that can go on is not proved to be scheduled; theorems about waiting say what happens when the others have no step left.
- Signature types from 128 on, which do not fit the letters an address is made of.
- GetCrossTxStatus passes the contract address of L2 whatever chain is asked for (src/common/web_client.cpp:296): the model takes it as an oracle for the chain being acked.
