# Linera protocol: a verified model

Linera is a system of many chains ("microchains") kept by a committee of validators. Chains
execute blocks, exchange messages asynchronously, move tokens, and run user applications that
call each other. This project models the parts of that system where correctness spans several
operations, and proves what they promise for every input, every run or every reachable state.

Operations that change state in place are classes and methods, proved against functions on
values; what is promised is then proved about those functions, or about runs of a state machine
built from them.

| files | what they model |
|---|---|
| `Common`, `Sums` | identifiers, messages, machine bounds; sums over maps |
| `Inbox` | the two queues and cursors that reconcile received and executed messages |
| `Outboxes`, `Chain` | queued heights, their counters, channels, and the routing of the messages of a block |
| `Receiving`, `Updates` | selecting certified blocks of a sender and adding their messages to an inbox |
| `Delivery`, `DeliverySafety`, `DeliveryTheorems` | the cross-chain protocol as a state machine over a network that loses, duplicates and reorders requests |
| `Worker` | acknowledgements and delivery notifiers |
| `Refinement` | the code of workers and chains as steps of the protocol |
| `Registry`, `RegistryReplay` | user applications and their dependencies |
| `Ledger`, `Supply` | balances, fees and credits in one block, and the supply of tokens over chains that take messages from a pool |
| `Bookkeeping`, `DeliverySupply` | the ledger of a chain next to its log and its inboxes, and the supply of tokens over every run of the protocol |
| `Sessions`, `SessionSafety` | nested calls of user applications and their sessions |
| `Committee`, `Certificates`, `Communication` | thresholds, certificates, signature aggregation, and communication with a quorum |
| `BlockMessages` | the messages of a block and their identifiers |
| `Amount`, `AmountPrinting` | amounts as text |
| `Codec` | framing of RPC messages |

How the main results fit together:

- An inbox run succeeds exactly when the received and the executed histories can be reconciled
  (`Inbox.RunIsReconciliation`), so the order of the two does not matter (`Inbox.Confluence`).
- The protocol keeps one invariant per link of two chains and a medium
  (`DeliverySafety.RunKeeps`); from it follow delivery, routing and channel guarantees
  (`DeliveryTheorems`). `Refinement` shows that what the imperative code of senders and
  recipients does are steps of that state machine: routing a block, creating a request, handling
  an update entry by entry and sending what it confirms.
- `Ledger.BlockConserves` accounts for every token of one block. `Supply.RunKeepsSupply` lifts
  this to runs of chains that take messages from a pool, and `DeliverySupply.SupplyIsConserved`
  to every state of every run of the delivery protocol, where tokens travel through outboxes and
  inboxes and messages may be executed before they are received. There the ledger is tied to the
  protocol block by block: a ledger block executes the messages that its chain consumed since the
  last block, and sends the credits and withdrawals that the block of the log holds.
- The calls of user applications are an interpreter on values (`Sessions.EvalCall`), which the
  imperative runtime equals; `SessionSafety` proves what every tree of calls keeps.

Three properties hold only under a condition, which is stated exactly:

- A registry stays acyclic exactly if no application is registered with a requirement that leads
  back to it (`RegistryReplay.AcyclicIff`); replacing a description can do that
  (`RegistryReplay.ReplacingCanCloseCycle`).
- A block loses no tokens exactly if the running balance of each account, computed from the
  block alone without any bound, stays below the largest amount at each credit
  (`Ledger.BlockLosesNothingIff`). Because `execute_block` advances incoming credits, the balance
  of a chain holds them twice for a while, and a token can be lost although the final balance
  would fit (`Ledger.DoubleCountLoses`).
- The assertion of `run_user_action` on the stack of applications fails exactly if the resources
  of a transaction can be paid for and its first error is reported by the code of a nested call
  (`SessionSafety.PanicsIff`, with the transaction of `SessionSafety.NestedErrorPanics`): the
  error leaves the callee on the stack and is then ignored. It cannot fail if no called code
  reports an error (`SessionSafety.QuietNeverPanics`); where no sessions are passed on, these are
  exactly the transactions for which it holds (`SessionSafety.PlainPanicsIff`).

## Model

| member | source | states |
|---|---|---|
| Inbox.InboxView.NextBlockHeightToReceive | linera-chain/src/inbox.rs:147-155 | the height after the last block added, or an overflow |
| Inbox.InboxView.RemoveEvent | linera-chain/src/inbox.rs:158-207 | the new state and every error of executing an event, with the queue front discarded in a loop |
| Inbox.InboxView.AddEvent | linera-chain/src/inbox.rs:211-254 | the new state and every error of receiving an event |
| Inbox.AddStep | linera-chain/src/inbox.rs:211-254 | receiving an event succeeds exactly if the longer histories can be reconciled, and moves to their state |
| Inbox.RemoveStep | linera-chain/src/inbox.rs:158-207 | executing an event succeeds exactly if the longer histories can be reconciled, and moves to their state |
| Inbox.RunIsReconciliation | linera-chain/src/inbox.rs:148-254 | an interleaving succeeds exactly if both histories are ordered, matching events are identical and only skippable events are passed over; its state depends on the two histories alone |
| Inbox.Confluence | linera-chain/src/inbox.rs:148-254 | all interleavings of the same histories succeed or fail together and reach the same state |
| Inbox.NothingIsLost | linera-chain/src/inbox.rs:158-254 | after every run a received event was executed once, waits once, or was skippable; an executed event was received or is expected |
| Outboxes.OutboxView.ScheduleMessage | linera-chain/src/outbox.rs:47-57 | schedules a height at most once; fails exactly on overflow |
| Outboxes.OutboxView.MarkMessagesAsReceived | linera-chain/src/outbox.rs:61-74 | removes and returns the front of the queue up to a height |
| Outboxes.ScheduleValid | linera-chain/src/outbox.rs:47-57 | scheduling keeps the queue strictly increasing and adds that height only |
| Outboxes.AcknowledgeValid | linera-chain/src/chain.rs:190-218 | an acknowledgement keeps the queue increasing and removes exactly the heights up to it, also when the outbox is deleted |
| Outboxes.CounterFits | linera-chain/src/chain.rs:678-689 | a counter never exceeds the number of outboxes |
| Chain.ChainView.ProcessRawExecutionResult | linera-chain/src/chain.rs:634-773 | records the messages and routes them: each outbox and each channel ends up as its specification says, with exact counters; errors only for repeated channel names and height overflow |
| Chain.ChainView.ScheduleAt | linera-chain/src/chain.rs:678-689 | scheduling keeps the counters exact |
| Chain.ChainView.DecrementCounters | linera-chain/src/chain.rs:200-211 | every counter of a leaving height is present and positive, and stays exact |
| Chain.ChainView.MarkMessagesAsReceived | linera-chain/src/chain.rs:190-218 | reports a change exactly if a height leaves; only that outbox changes; counters stay exact; an empty outbox is deleted |
| Chain.ChainView.AllMessagesDeliveredUpTo | linera-chain/src/chain.rs:222-233 | true exactly if no outbox holds a height up to the given one, although only the first counter is read |
| Chain.Routed | linera-chain/src/chain.rs:678-771 | the stages of routing compose to the effect stated for each outbox and each channel |
| Receiving.ReceiverView.ReceiveBlock | linera-chain/src/chain.rs:295-390 | adds the events of the messages meant for one inbox, in order; every error case |
| Receiving.EventsUpToMeaning | linera-chain/src/chain.rs:305-371 | the events of a block are messages for this inbox, each with its own index, in increasing order |
| Receiving.EventsForReaches | linera-chain/src/chain.rs:305-371 | a block yields events exactly if it has a message for this inbox |
| Receiving.SelectCertificates | linera-core/src/worker.rs:1343-1406 | accepts exactly confirmed blocks of the sender at increasing heights; selects from the first new block to the last trusted one |
| Updates.RecipientWorker.ProcessCrossChainUpdate | linera-core/src/worker.rs:798-863 | confirms a height exactly if new and trusted blocks were selected, all received, and saved; otherwise nothing changes, and every error has its reason |
| Updates.RecipientWorker.HandleUpdate | linera-core/src/worker.rs:1237-1279 | handles the entries one after the other and returns exactly the confirmations of those that were saved; an error is that of the first entry that fails, and the entries before it stay |
| Updates.FilterCertificates | linera-core/src/worker.rs:1243-1251 | the binary search keeps exactly the certificates at the listed heights |
| Refinement.ProcessExecutionResults | linera-chain/src/chain.rs:598-632 | records and routes all results in order; the stored outboxes and channels are those of the protocol after routing |
| Refinement.BlockIsStep | linera-chain/src/chain.rs:598-773 | a block whose results were routed is a step of the protocol |
| Refinement.CreateCrossChainRequest | linera-core/src/worker.rs:465-488 | carries certificates of the log in increasing order, at exactly the listed heights that the log has |
| Refinement.RequestIsStep | linera-core/src/worker.rs:490-518 | a request for what is listed for one recipient can be sent in the protocol |
| Refinement.ConfirmationIsStep | linera-core/src/worker.rs:1280-1321 | a confirmation that was handled is a step of the protocol |
| Refinement.EntryIsStep | linera-core/src/worker.rs:798-863 | handling an entry of an update is a step of the protocol, which acknowledges the confirmed height |
| Refinement.UpdateIsSteps | linera-core/src/worker.rs:1237-1279 | handling an update is a sequence of steps of the protocol, after which every confirmed height is acknowledged |
| Refinement.UpdateIsConfirmed | linera-core/src/worker.rs:1237-1279 | after these steps the confirmations that the worker returns can be sent in the protocol |
| DeliverySafety.RouteAllKeeps | linera-chain/src/chain.rs:634-773 | executing a block keeps the invariant of every link |
| DeliverySafety.ReceiveSelected | linera-core/src/worker.rs:827-847 | receiving a selection keeps the invariant of a link; it can only fail on events executed ahead of time |
| DeliverySafety.SentIsSafe | linera-core/src/worker.rs:465-518 | a request that is sent makes only promises that already hold |
| DeliverySafety.StepKeeps | linera-core/src/worker.rs:1231-1323 | every step of the protocol keeps the invariant of all links and all requests in the network |
| DeliverySafety.RunKeeps | linera-core/src/worker.rs:1231-1323 | the invariant holds in every state of every run |
| DeliveryTheorems.DequeuedIsDelivered | linera-core/src/worker.rs:1231-1323 | a height leaves an outbox only after the recipient received the block; the events added are those of the received blocks, in order, each exactly once |
| DeliveryTheorems.LeftIsDelivered | linera-chain/src/chain.rs:190-218 | a height that was queued in one state of a run and is not in a later one has been received, and each of its events was added exactly once |
| DeliveryTheorems.DirectMessagesAreTracked | linera-chain/src/chain.rs:648-689 | every block with a direct message is queued for the recipient or received by it |
| DeliveryTheorems.MessagesAreAccounted | linera-chain/src/inbox.rs:158-254 | on every run a message is executed at most once, and once received it was executed, waits, or is skippable |
| DeliveryTheorems.NoRoutingErrors | linera-chain/src/chain.rs:305-390 | on every run a handled update is well formed, and "wrong order", "entirely ignored" and incorrect-order errors cannot occur |
| DeliveryTheorems.ChannelDelivery | linera-chain/src/chain.rs:691-771 | no height above the latest one of a channel is scheduled, and every subscriber has had the latest one scheduled, across unsubscription and deletion |
| Worker.CreateNetworkActions | linera-core/src/worker.rs:490-518 | lists every outbox under its recipient and medium |
| Worker.FirstHeightsDecide | linera-core/src/data_types.rs:202-212 | the first height of each queue decides whether anything up to a height is queued |
| Worker.ChainWorker.RegisterDeliveryNotifier | linera-core/src/worker.rs:408-437 | notifies at once exactly if nothing up to the height is queued |
| Worker.ChainWorker.Notify | linera-core/src/worker.rs:1297-1313 | fires exactly the notifiers up to a height, each once and in order, and keeps the others |
| Worker.ChainWorker.HandleConfirmation | linera-core/src/worker.rs:1280-1321 | a notifier fires only when no outbox holds a height up to its own; none is lost |
| Registry.RegistryView.RegisterApplication | linera-execution/src/applications.rs:165-176 | fails exactly if a required application is unknown |
| Registry.RegistryView.RegisterNewApplication | linera-execution/src/applications.rs:179-209 | succeeds exactly if every required application and the bytecode are known; otherwise names the first that is missing |
| Registry.RegistryView.FindDependencies | linera-execution/src/applications.rs:223-263 | terminates; fails exactly if a reachable application is unknown; otherwise lists each reachable application once, and dependencies first exactly if none lies on a cycle |
| Registry.RegistryView.DescribeApplicationsWithDependencies | linera-execution/src/applications.rs:266-282 | the descriptions of that list, in its order |
| Registry.OrderedIsAcyclic | linera-execution/src/applications.rs:223-263 | a list with dependencies first leaves no cycle |
| RegistryReplay.AcyclicIff | linera-execution/src/applications.rs:165-176 | a registration keeps the registry acyclic exactly if the application would not depend on itself |
| RegistryReplay.ReplacingCanCloseCycle | linera-execution/src/applications.rs:165-176 | in an acyclic registry that two registrations build, registering one application again with another requirement closes a cycle |
| RegistryReplay.RegistrationsKeep | linera-execution/src/applications.rs:165-209 | any sequence of registrations leaves the registry closed, and acyclic if no description changes |
| RegistryReplay.ReplaySucceeds | linera-execution/src/system.rs:901-907 | an ordered list can be registered by any chain, which then knows exactly these in addition |
| RegistryReplay.ListedCanBeReplayed | linera-execution/src/applications.rs:266-282 | what a chain lists, any other chain can replay, with the same descriptions |
| Ledger.SaturatingAdd | linera-base/src/data_types.rs:159-162 | the sum, or the largest amount if the sum exceeds it |
| Ledger.SystemState.SubAssignFees | linera-execution/src/lib.rs:55-59 | charges exactly if the balance covers the fee |
| Ledger.SystemState.ChargeFees | linera-execution/src/lib.rs:121-149 | charges fees one after the other |
| Ledger.SystemState.ApplyMessage | linera-execution/src/system.rs:803-844 | Credit and Withdraw change one account and send the payment, or are ignored |
| Ledger.SystemState.ApplyOperation | linera-execution/src/system.rs:564-634 | Transfer and Claim, with all their checks in order |
| Ledger.SystemState.ApplyBlock | linera-chain/src/chain.rs:483-571 | advances the credit, charges, executes and takes the credit back |
| Ledger.ChargeWorth | linera-execution/src/lib.rs:55-59 | fees are charged exactly if their sum fits in the balance, and take exactly that sum |
| Ledger.MessageConserves | linera-execution/src/system.rs:803-844 | a message moves tokens and creates none; only a saturating addition loses some |
| Ledger.OperationConserves | linera-execution/src/system.rs:564-634 | an operation creates and loses no tokens |
| Ledger.BlockConserves | linera-chain/src/chain.rs:483-571 | balances after, fees, credits sent, burned and lost tokens add up to balances before and credits received |
| Ledger.OnlyOwnersSpend | linera-execution/src/system.rs:564-844 | the balance of an owner decreases only if that owner signed the block or a withdrawal |
| Ledger.AtMostReceived | linera-execution/src/system.rs:803-815 | no account holds more than it had and received |
| Ledger.BlockLosesNothingIff | linera-chain/src/chain.rs:483-571 | nothing is lost exactly if at each credit the running balance of its account, computed from the balances before and the block, stays below the bound |
| Ledger.RunningIs | linera-execution/src/system.rs:803-844 | the same for messages; then every account holds exactly its running balance |
| Ledger.BlocksConserve | linera-chain/src/chain.rs:464-596 | the tokens of a chain are accounted for over all its blocks |
| Ledger.RoomLosesNothing | linera-chain/src/chain.rs:483-571 | room for twice the credit of the chain, and once that of each owner, loses nothing |
| Ledger.DoubleCountLoses | linera-chain/src/chain.rs:483-571 | a credit of half the range to an empty chain loses one token |
| Supply.BlockSendsFirm | linera-execution/src/system.rs:590-602 | every credit is sent to the chain of its account and cannot be skipped |
| Supply.EventKeepsSupply | linera-chain/src/chain.rs:464-596 | an event changes the supply only by what saturation loses |
| Supply.RunKeepsSupply | linera-chain/src/chain.rs:464-596 | in every state of every run, balances, credits in flight, fees and burned tokens add up to the same total, less what saturation lost |
| Supply.RunConservesIff | linera-chain/src/chain.rs:464-596 | the total of a run stays the same exactly if every credit of every block stays below the bound of its account |
| Supply.RoomyRunConserves | linera-chain/src/chain.rs:464-596 | with room for every block, the total never changes |
| Bookkeeping.JournalIsHistory | linera-chain/src/chain.rs:429-458 | on every run, what a chain consumed from each inbox is what its blocks and the next one took, in order |
| Bookkeeping.BooksAreBalanced | linera-chain/src/chain.rs:464-596 | if each block of a ledger executes what was consumed for it, in any order of the origins, and sends what the log holds, its blocks receive and send exactly the tokens of these messages |
| Bookkeeping.EntryIsFirm | linera-execution/src/system.rs:590-602 | a message of the log that carries tokens cannot be skipped |
| DeliverySupply.InboxTokens | linera-chain/src/inbox.rs:158-254 | after every run of an inbox, the tokens received or executed ahead are those executed or waiting |
| DeliverySupply.LinkConserves | linera-chain/src/inbox.rs:158-254 | in every state of every run, what a chain sent to another, and what was executed there ahead, is what was executed there, waits in its inbox, or is in a block not received |
| DeliverySupply.SupplyIsConserved | linera-chain/src/chain.rs:429-596 | in every state of every run, what the chains of a library keep, what is on its way between them and what left them add up to what entered them and what was executed ahead |
| Sessions.Runtime.ForwardSessions | linera-execution/src/runtime.rs:194-214 | gives sessions away one by one, as the function on values that ForwardIs characterises |
| Sessions.Runtime.MakeSessions | linera-execution/src/runtime.rs:216-241 | opens sessions under the next identifiers |
| Sessions.Runtime.TryLoadSession | linera-execution/src/runtime.rs:243-265 | locks a session exactly if it exists, is free and owned by the caller |
| Sessions.Runtime.TrySaveSession | linera-execution/src/runtime.rs:267-287 | saves and unlocks a locked session of its owner |
| Sessions.Runtime.TryCloseSession | linera-execution/src/runtime.rs:289-309 | deletes a locked session of its owner |
| Sessions.Runtime.TryCallApplication | linera-execution/src/runtime.rs:579-630 | the state and the outcome, success or first error at any depth, that the interpreter gives |
| Sessions.Runtime.TryCallSession | linera-execution/src/runtime.rs:632-703 | the same for a call of a session |
| Sessions.UpdateLimits | linera-execution/src/lib.rs:121-149 | pays prices one after the other, up to the first that overflows or exceeds the balance |
| Sessions.RunUserAction | linera-execution/src/execution.rs:164-266 | the outcome of a transaction as a function of the applications, the signer, the code and the prices |
| SessionSafety.ForwardIs | linera-execution/src/runtime.rs:194-214 | forwarding succeeds exactly if all sessions exist, are free and owned, and none is given away twice; then their owners alone change |
| SessionSafety.OpenAllCreates | linera-execution/src/runtime.rs:216-241 | new sessions get identifiers that were never used and belong to the receiver |
| SessionSafety.EvalCallKeeps | linera-execution/src/runtime.rs:579-703 | for every tree of nested calls: stack and locks are restored, locked sessions and sessions of other applications are unchanged, closed ones do not come back, and a dropped signer does not reappear |
| SessionSafety.OwnerCheckPasses | linera-execution/src/runtime.rs:671-684 | the called session is still held at the end of its call, so the owner check passes |
| SessionSafety.CallSucceedsIff | linera-execution/src/runtime.rs:579-703 | a call succeeds exactly if the callee is known, its sessions are available and its code succeeds |
| SessionSafety.PrepareSucceedsIff | linera-execution/src/runtime.rs:194-265 | when the sessions of a call are available |
| SessionSafety.CallServes | linera-execution/src/runtime.rs:579-703 | a call that succeeds records a result signed only if authenticated, closes or saves its session, and gives the caller fresh sessions |
| SessionSafety.PayIff | linera-execution/src/lib.rs:121-149 | resources are paid for exactly if no price overflows and their sum fits in the balance, which loses that sum |
| SessionSafety.PanicsIff | linera-execution/src/execution.rs:220-236 | the assertion on the stack fails exactly if the resources can be paid for and the first error is reported by the code of a nested call |
| SessionSafety.PlainPanicsIff | linera-execution/src/execution.rs:220-236 | without sessions and with known callees, it fails exactly if the resources can be paid for and some called code reports an error |
| SessionSafety.NestedErrorPanics | linera-execution/src/execution.rs:220-236 | an application that calls one that reports an error fails the assertion exactly if its resources can be paid for |
| SessionSafety.QuietNeverPanics | linera-execution/src/execution.rs:220-236 | if no called code reports an error, the assertion holds |
| SessionSafety.FinishedIsSigned | linera-execution/src/execution.rs:227-264 | the results of a finished transaction carry its signer or none, with that of its application last; it paid exactly the sum of its prices |
| Committee.NewCommittee | linera-execution/src/committee.rs:290-310 | folds the votes of the validators into N; the thresholds are N - f and f + 1 for the largest f below a third |
| Committee.Thresholds | linera-execution/src/committee.rs:290-300 | the thresholds are N - f and f + 1 for f = (N - 1) / 3 |
| Committee.NoOverflowIff | linera-execution/src/committee.rs:290-300 | no sum, product or threshold overflows 64 bits exactly if twice the total does not |
| Committee.QuorumsIntersect | linera-execution/src/committee.rs:290-300 | two quorums share at least the validity threshold |
| Certificates.CheckSignatures | linera-chain/src/data_types.rs:879-908 | accepts exactly distinct validators with voting rights that make a quorum, with valid signatures |
| Certificates.CertificatesIntersect | linera-chain/src/data_types.rs:879-908 | two accepted lists share signers of at least the validity threshold |
| Certificates.SearchIndex | linera-chain/src/data_types.rs:829-832 | where a binary search finds or would insert a validator |
| Certificates.SignatureAggregator.AddSignature | linera-chain/src/data_types.rs:825-835 | inserts one signature and keeps the list strictly ordered |
| Certificates.SignatureAggregator.Append | linera-chain/src/data_types.rs:739-765 | takes a signature exactly if it is valid, new and has voting rights; returns a certificate exactly when a quorum is first reached |
| Certificates.SignatureAggregator.AppendAll | linera-chain/src/data_types.rs:721-766 | over every sequence of votes at most one certificate, exactly if the voters make a quorum; it is ordered and accepted |
| Certificates.VotersMeaning | linera-chain/src/data_types.rs:739-765 | the voters counted over all votes are exactly the validators with voting rights that cast a valid one |
| Communication.CommunicateWithQuorum | linera-core/src/updater.rs:91-161 | for every order and prefix of answers: the reported key has a quorum with its values in order; a trusted error or an early stop leaves no key a chance |
| Communication.StopTest | linera-core/src/updater.rs:138-145 | the condition for stopping holds only when a key has a quorum or none can get one |
| Communication.TrustedIsHopeless | linera-core/src/updater.rs:128-136 | an error of the validity threshold leaves no quorum for any key |
| Communication.SampleErrors | linera-core/src/updater.rs:156-160 | at most four errors, those of the highest scores, in order |
| Communication.ReportIsFinal | linera-core/src/updater.rs:148-161 | whatever answers could still come, exactly the reported key has a quorum |
| BlockMessages.ExecuteTransactions | linera-chain/src/chain.rs:508-569 | lists all messages and counts them after each transaction; succeeds exactly if no transaction fails and no index or count exceeds 32 bits |
| BlockMessages.CountsIncrease | linera-chain/src/chain.rs:508-569 | counts never decrease and the last one counts all messages |
| BlockMessages.IdentifiersAreExact | linera-chain/src/data_types.rs:576-603 | an identifier exists exactly for the messages an operation created, and points at them |
| BlockMessages.ClientsAgree | linera-execution/src/lib.rs:621-629 | the first message of an operation has the identifier that its execution uses |
| Amount.ParseBody | linera-base/src/data_types.rs:308-332 | reads up to the first error, as the function on values below |
| Amount.ParseAllIff | linera-base/src/data_types.rs:308-332 | reading succeeds exactly on well-formed decimals with at most the given places that fit, with exactly their value; the error names what is wrong |
| Amount.FromStr | linera-base/src/data_types.rs:305-333 | the same for any text, without surrounding space and a plus sign |
| Amount.SplitIsInverse | linera-base/src/data_types.rs:315-327 | a text is what it is split into, around its first point |
| AmountPrinting.Display | linera-base/src/data_types.rs:257-289 | the sign, the number and the padding that the options ask for |
| AmountPrinting.RoundTrip | linera-base/src/data_types.rs:257-333 | the text of an amount, padded with space, stands for it exactly if at most 18 decimal places were asked for |
| AmountPrinting.PrintAndRead | linera-base/src/data_types.rs:257-333 | printing and reading gives the amount back exactly in these cases |
| Codec.Connection.Encode | linera-rpc/src/codec.rs:24-49 | appends one frame, or leaves the buffer as it is |
| Codec.Connection.Decode | linera-rpc/src/codec.rs:56-81 | takes a complete frame off the buffer; consumes nothing when there is none |
| Codec.Connection.Send | linera-rpc/src/codec.rs:24-49 | appends the stream of the messages up to the first that cannot be encoded |
| Codec.Connection.Receive | linera-rpc/src/codec.rs:56-81 | repeated decoding of chunks is the function on values below |
| Codec.ReceiveStream | linera-rpc/src/codec.rs:24-81 | however a stream is cut into chunks, exactly its messages are decoded, in order |
| Codec.PrefixRoundTrip | linera-rpc/src/codec.rs:27-68 | reading a length prefix inverts writing it |

## Left out

- The chain manager (rounds, locking, owners' votes) is not part of this model.
- Liveness of delivery: a recipient that skips blocks it has sends no new confirmation, so only safety is stated.
- Storage, views, caches and locks are plain sequences, maps and sets; an error discards what was staged.
- Signatures, hashes and serialization are parameters; deserializing is assumed to invert serializing.
- Clocks, timeouts and grace periods: communication may stop after any number of further answers.
- Delivery: a block consumes its incoming messages in separate steps before it is executed, the entries of an update are handled in separate steps, and the trust of a recipient is arbitrary.
- Refinement.CreateCrossChainRequest: certificates are made from the log in place of being read from storage.
- Chain.ChainView.ScheduleAt: counters are unbounded; CounterFits bounds them by the number of outboxes.
- Outboxes.CounterFits: the 32-bit width of counters is not modelled; a counter equals the number of outboxes that queue its height.
- Sessions.Runtime.MakeSessions: 64-bit overflow of a counter of sessions is not modelled.
- SessionSafety.EvalCallKeeps: user code is any finite tree of calls in which the first error aborts the transaction; code that catches errors of its calls is not modelled.
- Supply.EventKeepsSupply: messages are taken from a pool; DeliverySupply.SupplyIsConserved is stated over inboxes and outboxes.
- Supply.RunKeepsSupply: the same pool of messages.
- Supply.RunConservesIff: the same pool of messages.
- Supply.RoomyRunConserves: the same pool of messages.
- DeliverySupply.SupplyIsConserved: the decoding of messages is a parameter, and that each block of a ledger belongs to the block of the log at its height is a hypothesis (`AllBooked`).
- Sessions.RunUserAction: what a transaction used, and so the prices of its resources, is an input.
- Receiving.ReceiverView.ReceiveBlock: messages that open a chain are not executed immediately.
- Registry.RegistryView.FindDependencies: the order of applications that do not depend on each other is not stated.
- Ledger.SystemState.ChargeFees: prices and the limits on reads and writes are inputs; only the charges to the balance are modelled.
- Operations and messages other than Transfer, Claim, Credit and Withdraw appear in the ledger only by their fees.
- Epochs and committee changes, bytecode publishing and user queries.
- RPC transport, clients, wallets, services and the notification of users are not modelled.
