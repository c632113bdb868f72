# fldx in Dafny

fldx pays for LLM round trips through a two-party USDC channel. A contract
escrows a deposit, the node signs a cumulative receipt after every round trip,
the client co-signs it, and either party may settle the channel on the highest
state both have signed. This project models that protocol, the byte encodings
its programs must agree on, and the agent loop whose work is being billed, and
proves what they keep in every run.

Run `dafny verify dfyconfig.toml` to check everything.

## How it is organised

**Vocabulary.** `Base.dfy` (options, integer widths, the sum of a map, the token
ledger), `Bytes.dfy` (big-endian numbers), `Metering.dfy` (decimal strings,
usage, prices).

**The payment channel.**

- `Registry.dfy` and `Channel.dfy` model the two contracts twice: as functions
  on states, and as classes whose methods update their fields as the Solidity
  code does and are proved equal to those functions. A revert restores the
  state. Mappings are total, `uint64` timestamps truncate, and checked
  arithmetic reverts on overflow.
- `ChannelHistory.dfy` reduces every successful channel call to one of five
  transitions of one channel and gives the account, kept for every channel by
  every transition, that the run theorems read off the event log.
- `Node.dfy` and `NodeDebt.dfy` model the node's channel map. Requests are
  asynchronous: a request reads the entry, may wait for the deposit, then waits
  for the backend, and is charged only at the end, with other requests in
  between. A suspended request is a `Task` that remembers what it has read.
- `Protocol.dfy` puts both contracts, a clock, any number of nodes and the set of
  genuine signatures into one `World`. A run is any sequence of enabled actions,
  by anyone and in any order: plain transfers, contract calls, node events,
  signatures by anyone who is not an honest node. `honest` nodes sign only
  through `build_receipt`, in one process.
- `Safety.dfy` has the invariants that tie the contract to what nodes have
  signed, and `Theorems.dfy` what follows for every run from deployment on.
- `NonceCeiling.dfy`, `DepositCap.dfy` and `Acks.dfy` say exactly when three
  things the source relies on fail: totals that only grow, a deposit that caps the
  debt, and an ack that is the client's. `Scenarios.dfy` builds the concrete runs
  that show each failure happens.
- `Timing.dfy` pairs each logged event with the clock and says what the deadlines
  are in clock values. `Calls.dfy` says when each call succeeds, who may change
  what, and what every account is paid. `Billing.dfy` reads a channel's total off
  the receipts of a run.

**Encodings.** `Rlp.dfy`, `Eip1559.dfy`, `Abi.dfy` and `Canonical.dfy` have the
encoders in the form of the source (buffers that are appended to or filled) and
decoders written here as an independent reference (RLP as in the Ethereum Yellow
Paper, Appendix B; transactions as in EIP-1559 "Specification"; calls as in the
Solidity ABI specification, "Formal Specification of the Encoding").

**The work.** `Agent.dfy` has the session history and the agent loop,
`Translate.dfy` the translation to and from the OpenAI wire format. What pairing
does not see, the contents of the messages, is in `Contents.dfy` for the history
and in `Meaning.dfy` for its translation. `ClientLoop.dfy` has the client's loop
running against a node's entry and session, `LoopOnChain.dfy` that loop as a run
of the whole system, `Matching.dfy` the coordinator.

## Assumptions

- Channel ids and digests are taken as injective in the bytes that are hashed;
  that those bytes determine what they encode is proved (`UpdateBytesInjective`,
  `ChannelKeyInjective`). A signature is a value `Genuine(signer, update)` or
  garbage; a genuine one can be presented only after it was made.
- The token is an atomic ledger that reverts on insufficient balance. Allowances
  are not modelled. Neither contract is ever a transaction's sender.
- Domain hashes, function selectors, the provider's answers, what tools return,
  clocks and the result of signature checks on registrations and bids are
  parameters. JSON text is opaque except for a parse and print pair.
- `u128` multiplication wraps, as in a release build; Rust's saturating additions
  and its 32-bit casts are written out.

## Where the code and its documentation part

- The comment on `ChannelState.deposit` speaks of capping `cum_owed` at the
  deposit (`apps/node/src/main.rs:82-86`). A request is admitted below the deposit
  and charged later, so with k requests in flight of cost C each the debt can
  reach deposit - 1 + k*C, and does (`OvershootBound`, `OvershootIsMet`). The
  deposit is a cap exactly when k*C <= 1 (`DepositIsCapIff`), and under the same
  condition every settled total is paid in full (`SettledInFullIff`).
- "At most one round trip's worth of bad debt" (`apps/node/src/main.rs:77-79`)
  holds for a client that acks every receipt (`OneRoundTripDebt`). In general the
  debt is everything since the last receipt whose ack was signed (`DebtOfRun`).
- `last_acked` is described as bilaterally signed. The node verifies neither that
  it signed that state nor that the signer is the channel's client;
  `LastAckClosesIff` says exactly when the recorded ack closes the channel. The
  client address is constant once learned, but it is learned from whoever acks
  first: a client is refused for ever exactly when that was someone else
  (`LockedOutIff`), which happens (`StrangerLocksOut`).
- Totals never decrease on chain, except that the node's counter saturates at
  u64::MAX and `cooperativeClose` accepts an equal nonce. A channel's total can go
  down exactly when it is challenged at that nonce and the node has signed a lower
  total there (`OwedCanDropIff`), which happens (`OwedCanDropAtNonceCeiling`).
- The registry advertises the price listed last for a backend; the node bills the
  price listed first. `BilledAsAdvertisedIff` says when they agree,
  `BilledNotAsAdvertised` has a list for which they do not.
- `strip_leading_zeros_uint` keeps one zero byte where `encode_uint` keeps none, so
  a signature with r or s zero would not read back (`SignedRoundTripIff`).

## Model

| member | source | states |
|---|---|---|
| Theorems.ComposedSafety | contracts/src/JobChannel.sol:147-241 | In any interleaving of requests, receipts, acks and calls, on a channel of an honest node: accepted totals never decrease; after the first accepted state `reclaim` can never succeed; and any settlement pays the node at least every accepted total, capped by the escrow (except a state at nonce u64::MAX) |
| NonceCeiling.OwedCanDropIff | contracts/src/JobChannel.sol:147-165 | From a safe state some continuation lowers the recorded total of an honest node's channel if and only if the channel is challenged at nonce u64::MAX and the node has already signed a lower total at that nonce (the client's key is not one of the honest nodes') |
| NonceCeiling.LaterReceiptsNotLower | apps/node/src/main.rs:836-850 | A receipt issued at any later point of a run never carries less than the node's total now |
| Theorems.OwedDropsOnlyAtNonceCeiling | apps/node/src/main.rs:836-850 | The action in which such a total drops is a cooperative close repeating nonce u64::MAX on a challenged channel |
| NonceCeiling.OwedCanDropAtNonceCeiling | contracts/src/JobChannel.sol:147-165 | That exception exists: from deployment, enabled actions alone lead to a state whose next action lowers the total |
| Safety.FreshNonceIffBelowCeiling | apps/node/src/main.rs:836-850 | A receipt's nonce differs from all the node signed before for the channel if and only if its counter is below u64::MAX |
| Safety.NewReceiptInOrder | apps/node/src/main.rs:836-850 | A new receipt is ordered with every earlier one: a higher nonce never carries a lower total, one nonce below the ceiling carries one total |
| Safety.SafetyStep | contracts/src/JobChannel.sol:147-241 | Every enabled action keeps the joint invariant of contracts, node counters, signatures and accepted states |
| Theorems.HighestStateWins | contracts/src/JobChannel.sol:147-213 | Accepted challenges have strictly growing nonces; a settled channel ends on a state both signed, of the largest nonce ever accepted, and pays exactly it, capped by the escrow; an open channel has accepted nothing, which is why `challengeClose` needs no nonce check |
| Theorems.LaterRun | contracts/src/JobChannel.sol:116-241 | From any safe state on, nonces never decrease, parties and a deadline once set never change, and Closed is for ever, so no id is opened twice |
| Theorems.LifetimeConservation | contracts/src/JobChannel.sol:226-304 | Opening deposit plus top-ups equals what is escrowed while the channel lives and what was paid out after its single ending |
| Theorems.Solvency | contracts/src/JobChannel.sol:116-143 | In every run each contract holds exactly the sum of open deposits, or of stakes, plus what was handed to it outright |
| Protocol.ChainStep | contracts/src/NodeRegistry.sol:101-187 | One action at a time: the chain's invariant is kept, and what each contract holds beyond its debts changes by exactly what the action donates |
| Theorems.PayoutsNeverFail | contracts/src/JobChannel.sol:291-304 | In every reachable state no settlement, reclaim, unregistration or slash fails for lack of funds, and no paid top-up overflows |
| Theorems.OvershootBound | apps/node/src/main.rs:681-793 | With at most k requests of a channel in flight, each costing at most C, cum_owed stays at most escrow - 1 + k*C although check and charge are not atomic, and a cached deposit never exceeds the escrow |
| Theorems.UnpaidBound | apps/node/src/main.rs:836-850 | The part of a settled total that the escrow cannot pay is at most k*C - 1 |
| DepositCap.OvershootIsMet | apps/node/src/main.rs:681-793 | For every deposit, k and C (within u128) some run within those limits ends with exactly deposit - 1 + k*C owed |
| DepositCap.DepositIsCapIff | apps/node/src/main.rs:82-86 | Every run with at most k requests in flight of cost at most C keeps the debt within the escrow if and only if k*C <= 1 |
| DepositCap.UnpaidIsMet | contracts/src/JobChannel.sol:291-304 | The bound on the unpaid part is met by a settled channel |
| DepositCap.SettledInFullIff | contracts/src/JobChannel.sol:291-304 | Every settlement with an honest node in every such run pays the whole total if and only if k*C <= 1 |
| Billing.TotalIsCharged | apps/node/src/main.rs:836-850 | In any run the node's total for a channel is what its receipts were charged, added up, and nothing else moves it |
| Billing.RunMetering | apps/node/src/main.rs:817-850 | In every run the total never exceeds the exact value of all tokens, in all four fields, of the usages its receipts were for and, short of wrapping and of the ceiling, n receipts fall short of it by at most 999 n thousandths |
| NodeDebt.ChargeDebt | apps/node/src/main.rs:836-850 | Charging one running request keeps the debt account of all others still in flight |
| Safety.NodeEventDebt | apps/node/src/main.rs:681-793 | Every node event, at any await point, keeps the debt account of every channel |
| Theorems.LastAckClosesIff | apps/node/src/main.rs:867-905 | The recorded ack closes an open channel, paying the acknowledged total capped by the deposit, if and only if the node signed that state and the signer learned first is the channel's client |
| Acks.AddressIsConstant | apps/node/src/main.rs:80-82 | Once learned, a channel's client address never changes, in any run |
| Acks.LockedOutIff | apps/node/src/main.rs:867-905 | A client's acks are refused for the rest of every run if and only if the signer learned first is someone else; otherwise any well-formed ack of its is accepted now |
| Acks.StrangerLocksOut | apps/node/src/main.rs:938-969 | A run from deployment in which a stranger's ack is recorded on an open channel: it cannot close the channel and the client is locked out |
| Theorems.WindowDiscipline | contracts/src/JobChannel.sol:183-224 | However the run continues, `submitChallenge` is too late exactly when `finalize` is no longer too early, both measured against the first deadline; they never both succeed |
| Theorems.ChallengedCanClose | contracts/src/JobChannel.sol:217-224 | From every reachable challenged channel, waiting for the deadline lets anyone close it |
| Theorems.OpenCanReclaimIff | contracts/src/JobChannel.sol:226-241 | From every reachable open channel its client can wait and get the whole deposit back, if and only if opening time plus timeout fits 64 bits |
| Timing.ReclaimNeverEarly | contracts/src/JobChannel.sol:226-241 | In every run an event that reclaims a channel comes after the one that opened it, and not before the reclaim timeout has passed since, by the clock at both (opened before 2^64) |
| Timing.ReclaimSucceedsIff | contracts/src/JobChannel.sol:226-241 | While a channel is open a call to reclaim it succeeds if and only if its client makes it, the timeout has passed since the opening event, and that moment fits 64 bits |
| Timing.DeadlineIsFirstChallengePlusWindow | contracts/src/JobChannel.sol:169-190 | A challenged channel's deadline is the clock at its first challenge plus the window, however many challenges came after |
| Timing.WindowByTheClock | contracts/src/JobChannel.sol:193-224 | A challenged channel can be finalized by anyone exactly once the window has passed since its first challenge; until then, and no longer, a strictly newer state signed by both is accepted |
| Timing.ChallengeSucceedsIff | contracts/src/JobChannel.sol:169-190 | A challenge succeeds if and only if the channel is open, both parties signed the state, and the window would close within 64 bits |
| Timing.ReachedTime | contracts/src/JobChannel.sol:116-134 | In every run each channel's recorded opening time is the clock at the event that opened it |
| Calls.OpenSucceedsIff | contracts/src/JobChannel.sol:116-134 | Opening succeeds if and only if the id is unused, the node is active and the client can pay |
| Calls.TopUpSucceedsIff | contracts/src/JobChannel.sol:137-143 | In a reachable state a top-up succeeds if and only if the channel is open and the caller can pay |
| Calls.CloseSucceedsIff | contracts/src/JobChannel.sol:147-165 | In a reachable state a cooperative close succeeds if and only if the channel is live, the nonce is no lower than the recorded one, and both parties signed exactly that state |
| Calls.BalancesAreFlows | contracts/src/JobChannel.sol:116-304 | In every run a user's balance changes by exactly what plain transfers and the logged events of both contracts say it paid and was paid: the node its payment, the client its refund, the recipient its slash, and nobody else anything |
| Calls.RegistryCallSucceedsIff | contracts/src/NodeRegistry.sol:91-187 | In a reachable state each registry call succeeds if and only if its guard holds: minimum stake and funds, activity, the escrow's or owner's authority, the amount |
| Calls.Authority | contracts/src/NodeRegistry.sol:91-187 | A stake falls only by its owner's leaving or by a slash of the escrow or the owner, rises only by its owner's registering with at least the minimum, and only the owner moves the two settings |
| Calls.InfoIsLastCalled | contracts/src/NodeRegistry.sol:101-150 | In any run a node's metadata is exactly what that node itself last registered or updated |
| Calls.EventsTellAll | contracts/src/NodeRegistry.sol:56-65 | In every run the registry's events alone tell every node's current URL and backends |
| Theorems.RegistryListIsExact | contracts/src/NodeRegistry.sol:101-222 | In every run the list has no duplicates and holds exactly the active nodes, the 1-based index is its inverse, and an inactive node has no stake |
| RegistrySpec.RemoveFromListInverse | contracts/src/NodeRegistry.sol:211-222 | Swap-and-pop keeps list and index inverse and removes exactly the one node |
| RegistrySpec.AddToListInverse | contracts/src/NodeRegistry.sol:101-129 | Appending keeps list and index inverse and adds exactly the one node |
| RegistrySpec.RegisterKeeps | contracts/src/NodeRegistry.sol:101-129 | Registration activates exactly the sender, keeps the invariant, and moves exactly the stake |
| RegistrySpec.UnregisterKeeps | contracts/src/NodeRegistry.sol:152-168 | Unregistering deactivates exactly the sender and returns exactly its stake |
| RegistrySpec.SlashKeeps | contracts/src/NodeRegistry.sol:170-187 | Slashing activates nobody, keeps the invariant, and moves exactly the slashed amount, also when the registry itself is the recipient |
| RegistrySpec.StakePaymentsSucceed | contracts/src/NodeRegistry.sol:152-187 | With the stake total covered neither unregister nor slash can fail to pay |
| Theorems.StakeConservation | contracts/src/NodeRegistry.sol:101-187 | In every run, what a node staked over all its registrations is what it has at stake now plus what was returned and what was slashed |
| RegistryContract.NodeRegistry.Register | contracts/src/NodeRegistry.sol:101-129 | The new state, balances and event, or the error and no change |
| RegistryContract.NodeRegistry.Update | contracts/src/NodeRegistry.sol:133-150 | Only the active sender's metadata changes, with its event; stake and list stay |
| RegistryContract.NodeRegistry.SetEscrow | contracts/src/NodeRegistry.sol:91-94 | Only the owner changes the escrow, with its event |
| RegistryContract.NodeRegistry.SetMinStake | contracts/src/NodeRegistry.sol:96-99 | Only the owner changes the minimum stake, with its event |
| RegistryContract.NodeRegistry.Unregister | contracts/src/NodeRegistry.sol:152-168 | The new state, balances and event, or the error and no change |
| RegistryContract.NodeRegistry.Slash | contracts/src/NodeRegistry.sol:170-187 | The new state, balances and event, or the error and no change |
| RegistryContract.NodeRegistry.RemoveFromList | contracts/src/NodeRegistry.sol:211-222 | The in-place swap-and-pop does what the specification does, and never indexes past the end |
| ChannelContract.JobChannel.OpenChannel | contracts/src/JobChannel.sol:116-134 | The opened record, the deposit moved and the event, or the error and no change |
| ChannelContract.JobChannel.TopUp | contracts/src/JobChannel.sol:137-143 | The raised deposit, the amount moved and the event, or the error and no change |
| ChannelContract.JobChannel.CooperativeClose | contracts/src/JobChannel.sol:147-165 | The state both signed is settled at once, or the error and no change |
| ChannelContract.JobChannel.ChallengeClose | contracts/src/JobChannel.sol:169-190 | The window opens on the submitted state, or the error and no change |
| ChannelContract.JobChannel.SubmitChallenge | contracts/src/JobChannel.sol:193-214 | A strictly newer state replaces the challenged one, or the error and no change |
| ChannelContract.JobChannel.Finalize | contracts/src/JobChannel.sol:217-224 | The challenged state is settled, or the error and no change |
| ChannelContract.JobChannel.Reclaim | contracts/src/JobChannel.sol:228-241 | The whole deposit goes back to the client, or the error and no change |
| ChannelContract.JobChannel.Settle | contracts/src/JobChannel.sol:291-304 | The node gets the smaller of total and deposit, the client the rest, and the record is emptied and closed |
| ChannelHistory.TransitionKeeps | contracts/src/JobChannel.sol:116-304 | Each of the five transitions keeps the account of its channel: deposits, releases, endings, order of nonces, and what every logged event says about the record |
| ChannelHistory.SettleMoves | contracts/src/JobChannel.sol:291-304 | Settling is a closing transition that neither creates nor destroys tokens, leaves the contract's surplus alone and touches nobody but the two parties |
| ChannelHistory.ChallengeMoves | contracts/src/JobChannel.sol:169-214 | Both ways of challenging are one transition; no value moves |
| ChannelHistory.ReclaimMoves | contracts/src/JobChannel.sol:228-241 | Reclaiming is a closing transition that returns exactly the deposit |
| ChannelHistory.OpenMoves | contracts/src/JobChannel.sol:116-134 | Opening moves exactly the deposit in, for a channel that was absent |
| ChannelHistory.TopUpMoves | contracts/src/JobChannel.sol:137-143 | A top-up moves exactly the amount in, from whoever pays it |
| NodeService.NodeProcess.BeginCheck | apps/node/src/main.rs:737-758 | The entry is read once; a cached deposit decides at once, otherwise the request waits |
| NodeService.NodeProcess.DepositReturned | apps/node/src/main.rs:759-768 | The answer is held until the request resumes; a deposit past u128 ends it |
| NodeService.NodeProcess.ResumeCheck | apps/node/src/main.rs:769-793 | The deposit is cached and compared with the total read before the wait, not with the current one |
| NodeService.NodeProcess.BuildReceipt | apps/node/src/main.rs:797-865 | A refused ack charges nothing; otherwise ack, nonce and total are recorded and the signed update is exactly the entry's |
| NodeService.NodeProcess.VerifyAndRecordAck | apps/node/src/main.rs:867-905 | An ack is recorded only for this channel, with a recoverable signature of the signer learned first; a refused one changes nothing |
| NodeService.NodeProcess.FinishExecute | apps/node/src/main.rs:685-711 | A finished request leaves and is charged once, unless its ack is refused |
| NodeService.NodeProcess.Abandon | apps/node/src/main.rs:685-692 | A request whose backend fails leaves without a charge |
| NodeService.NodeProcess.Ack | apps/node/src/main.rs:938-969 | The standalone endpoint records what a piggy-backed ack would, under the channel the ack names |
| ClientLoop.OneRoundTripDebt | packages/fldx-client/src/loop.ts:36-78 | When every ack is signed, a loop that starts fully acked leaves exactly its last round trip's cost unacknowledged after every receipt (less only at the ceiling of u128) |
| ClientLoop.DebtOfRun | packages/fldx-client/src/loop.ts:66-78 | With a signer that may fail, no ack of the loop is ever refused, and the unacknowledged part is exactly the cost since the last receipt whose ack was signed |
| LoopOnChain.LoopRuns | packages/fldx-client/src/loop.ts:36-114 | Every run of the loop on an open channel is a run of the whole system: there is a reachable state right after each of its receipts |
| LoopOnChain.LoopIsCollectable | apps/node/src/main.rs:76-79 | In each of those states the node can have the channel closed at once and be paid all that is owed but the cost since the last signed ack, as far as the deposit goes |
| LoopOnChain.AllButLastRoundTrip | apps/node/src/main.rs:76-79 | With every ack signed, all but the cost of the last round trip |
| ClientLoop.RunKeepsPairing | packages/fldx-client/src/loop.ts:85-114 | The loop answers exactly the call it was handed, so a run that ends with an answer leaves the session paired and nothing pending |
| ClientLoop.RunAgentLoop | packages/fldx-client/src/loop.ts:36-114 | The in-place loop over a node process and an agent session yields the answer, receipts, entry and history of the loop's specification |
| ClientLoop.SendStep | apps/node/src/main.rs:681-726 | One request end to end: gate, agent step, receipt, in that order, with nothing left in flight on any path |
| Metering.AccumulationIsCappedSum | crates/protocol/src/lib.rs:146-169 | Folding `Usage::add` over any number of calls equals the exact sum capped once at 2^32 - 1, and an optional counter is absent if and only if no call reported it |
| Metering.UsageCounter.Add | crates/protocol/src/lib.rs:149-161 | In place, all four counters are added |
| Metering.TotalTokens | apps/node/src/main.rs:926-933 | The sum of four 32-bit counters cannot overflow 64 bits |
| Metering.EveryFieldCounts | apps/node/src/main.rs:926-933 | Any counter raised by n raises the total by n, and no usage is no tokens |
| Metering.TotalIsReported | apps/node/src/main.rs:926-933 | Below the caps the total of accumulated usages is the exact sum over all fields of all calls |
| AgentLoop.StepTokens | crates/agent/src/lib.rs:103-123 | Below the caps a step is billed for exactly the tokens the provider reported, in all fields of all answers it took |
| ClientLoop.LoopCosts | apps/node/src/main.rs:817-819 | The i-th receipt of a loop costs the tokens reported in the i-th turn at that backend's price |
| Metering.MeteringBound | apps/node/src/main.rs:817-850 | From any total, accrued charges never exceed the exact value, and lose at most 999 thousandths each short of wrapping and of the ceiling |
| AgentLoop.StepUsage | crates/agent/src/lib.rs:103-123 | The usage a step reports is accumulated over exactly the provider answers it took |
| AgentLoop.StepKeepsPairingIff | crates/agent/src/lib.rs:93-211 | From a paired history with a fitting input, a successful step leaves the history paired, with exactly the handed-off call pending, if and only if every answer it took reported complete tool calls and only under stop_reason "tool_use" |
| StepContents.StepCarries | crates/agent/src/lib.rs:93-248 | A step first adds a message with exactly the caller's prompt, or tool result and error flag; then user messages with exactly what each node tool returned, or why it did not run, for the call just before; and a successful outcome is what the last message says: its text, or its one usable call with id, name and input |
| LoopContents.RunCarries | packages/fldx-client/src/loop.ts:85-114 | In the history a loop leaves, the prompt stands verbatim, right after each handed-off call stands exactly what the client's handler of that turn returned for it, every other user message holds node results, and the loop's answer is the text of the last message |
| AgentLoop.VerdictIff | crates/agent/src/lib.rs:130-208 | Each outcome of an answer, by its stop reason and the tools its calls name, both ways |
| History.CollectedAre | crates/agent/src/lib.rs:250-261 | The collected calls are the usable tool_use blocks, all of them, in order, each with its own id, name and input |
| History.JoinAround | crates/agent/src/lib.rs:263-275 | Every part stands in a joined text at its place, with the separator on each side that has a neighbour |
| History.CollectedIds | crates/agent/src/lib.rs:250-261 | Collecting the calls of a message yields the ids of its tool_use blocks in order, and skips none, if and only if every such block has an id and a name |
| AgentLoop.ConversationPaired | crates/agent/src/lib.rs:93-211 | A session driven by a client that answers what it is handed, on a disciplined provider, stays paired for ever |
| AgentLoop.AgentSession.Step | crates/agent/src/lib.rs:93-211 | The in-place loop yields the history and outcome of its specification; its `unreachable!` cannot be reached |
| AgentLoop.JudgeReply | crates/agent/src/lib.rs:130-208 | The branches on stop reason and tool classes give the specified verdict, and a turn run on the node holds no client call |
| AgentLoop.Classify | crates/agent/src/lib.rs:155-163 | Exactly the client calls are counted, and a node or unknown call is reported if and only if not all are client calls |
| AgentLoop.FirstClientCall | crates/agent/src/lib.rs:171-178 | The search behind `expect` finds the first client call whenever there is one |
| AgentLoop.RunTools | crates/agent/src/lib.rs:187-206 | One result block per call, in order, failures and unknown tools as error results |
| Translate.TranslationKeepsPairing | crates/local_llm/src/openai.rs:67-152 | A linked history translates to messages in which every assistant message with calls is followed at once by one tool message per id, in order, before anything else |
| Meaning.HistoryTranslates | crates/local_llm/src/openai.rs:67-152 | For every history, after the system prompt each message is translated in its place: one tool message per result with its id and text (a value as text that parses back), then one message with all the text in order; for an assistant message all its text and one call per block with id, name and input |
| Meaning.CompletionBlocks | crates/local_llm/src/openai.rs:179-207 | A completion's text, unless empty, and then one usable call per call, with its input parsed, or null if it does not parse |
| Meaning.VerdictOnCompletion | crates/local_llm/src/openai.rs:209-216 | The agent loop acts on a translated completion's calls when the server finished with "tool_calls", takes it for an answer exactly on "stop", nothing or "end_turn", and refuses unknown reasons |
| Translate.PairedHistoriesTranslate | crates/local_llm/src/openai.rs:67-152 | A paired history with a pending call translates to a paired one whose last message has exactly that open call |
| Translate.ConversationTranslates | crates/local_llm/src/openai.rs:67-152 | Any session run on a disciplined provider can be replayed to the other provider at any time |
| Translate.MessagesAnthropicToOai | crates/local_llm/src/openai.rs:67-152 | The pushing loops produce the translation, message by message |
| Translate.ResponseOaiToAnthropic | crates/local_llm/src/openai.rs:165-236 | The text block if any, one block per call in order, the mapped stop reason and truncated counts, or which member is missing |
| Translate.ResponseRoundTrip | crates/local_llm/src/openai.rs:165-207 | A response translated in and out is one assistant message with the same text and the same calls, and its arguments mean the same JSON if and only if they were valid JSON |
| Translate.TranslatedIsDisciplinedIff | crates/local_llm/src/openai.rs:209-236 | A translated response is one the agent loop can keep paired if and only if it has no calls or its finish reason is none of absent, "stop", "end_turn" and "pause_turn" |
| Rlp.DecodeEncoding | apps/node/src/eth/rlp.rs:7-48 | For every nested tree the decoder recovers the tree and leaves any suffix untouched |
| Rlp.EncodingOfDecoded | apps/node/src/eth/rlp.rs:7-48 | Conversely, whatever decodes is the encoding of what it decodes to |
| Rlp.DecodeIffEncoding | apps/node/src/eth/rlp.rs:7-48 | So decoding succeeds with a tree and a rest if and only if the bytes are that tree's encoding followed by that rest |
| Rlp.PrefixFree | apps/node/src/eth/rlp.rs:7-48 | No encoding is a proper prefix of another, and equal encodings are of equal trees |
| Rlp.EncodeLength | apps/node/src/eth/rlp.rs:37-48 | The prefix for every 64-bit length, whose first byte always fits a byte |
| Rlp.EncodeBytes | apps/node/src/eth/rlp.rs:7-15 | The encoding of a string item |
| Rlp.EncodeList | apps/node/src/eth/rlp.rs:17-26 | The encoding of a list from its items' encodings, in order |
| Eip1559.EncodeUint | apps/node/src/eth/rlp.rs:28-35 | The item of the shortest big-endian form, empty for zero |
| Eip1559.SigningPayloadInjective | apps/node/src/eth/tx.rs:31-63 | Equal signing payloads are of transactions equal in all eight fields |
| Eip1559.SigningPayloadRoundTrip | apps/node/src/eth/tx.rs:31-63 | A reader of the payload recovers the transaction |
| Eip1559.SignedRoundTripIff | apps/node/src/eth/tx.rs:65-85 | The signed bytes read back as the same transaction and signature if and only if neither r nor s is zero |
| Eip1559.SigningPayload | apps/node/src/eth/tx.rs:31-38 | The bytes signed are the type byte and the RLP list of the nine unsigned items |
| Eip1559.UnsignedParts | apps/node/src/eth/tx.rs:50-63 | The nine items, encoded, in the order of the standard |
| Eip1559.EncodeSigned | apps/node/src/eth/tx.rs:65-80 | The bytes sent are the type byte and the RLP list of all twelve items |
| Eip1559.StripLeadingZerosUint | apps/node/src/eth/tx.rs:82-85 | A 32-byte number without leading zeros, except that zero keeps one byte |
| Canonical.CanonicalChannelUpdateBytes | crates/protocol/src/lib.rs:454-469 | The array filled slot by slot is the contract's six-word `abi.encode` |
| Canonical.ChannelUpdateCanonicalFor | crates/protocol/src/lib.rs:507-521 | From the wire: bytes exactly when id and total parse, and then the contract's bytes for the values they denote |
| Canonical.DecimalSlot | crates/protocol/src/lib.rs:497-502 | A total printed in decimal and parsed back is the contract's word for it |
| Canonical.ChannelUpdateCanonical | apps/dashboard/src/lib/eth.ts:51-74 | From hex strings: it throws exactly on an odd length or on bytes past the buffer, and for a 20-byte contract and a 32-byte id the buffer is the same six words |
| Canonical.BeBytes | apps/dashboard/src/lib/eth.ts:89-107 | Shifting bytes off the low end gives the fixed-width big-endian form |
| Canonical.HexToBytes | apps/dashboard/src/lib/eth.ts:80-87 | On hex digits it agrees with the node's decoder; only an odd length is an error |
| Canonical.HexDecodeIff | crates/protocol/src/lib.rs:472-482 | A string decodes if and only if it is an even number of hex digits, to half as many bytes |
| Canonical.HexDecodeAt | crates/protocol/src/lib.rs:472-482 | Each byte is the value of its two digits |
| Canonical.HexRoundTrip | apps/dashboard/src/lib/eth.ts:41-43 | Printed bytes decode to themselves |
| Canonical.ChannelIdReads | crates/protocol/src/lib.rs:472-482 | Node and dashboard read the same 32 bytes off a printed id, which the node accepts with or without 0x |
| Canonical.ChannelKey | apps/dashboard/src/lib/eth.ts:28-44 | From hex strings: it throws exactly on an odd length or on bytes past the buffer, and for two addresses the bytes hashed are the contract's three words |
| Canonical.UpdateBytesInjective | contracts/src/JobChannel.sol:251-267 | One byte string is one state of one channel of one contract on one chain |
| Canonical.ChannelKeyInjective | contracts/src/JobChannel.sol:105-114 | A channel id's preimage determines client, node and counter |
| Decimal.ParsePrint | crates/protocol/src/lib.rs:497-502 | A printed number parses back to itself if and only if it fits u128 |
| Decimal.ParsesIff | crates/protocol/src/lib.rs:497-502 | A string parses to a number if and only if it is an optional plus sign, any zeros, and the number as printed, and the number fits u128 |
| Abi.RegisterRoundTrip | apps/node/src/eth/abi.rs:62-95 | For every URL length a reader following the head's offset recovers all arguments, and the call's length is 4 mod 32 |
| Abi.EncodeRegister | apps/node/src/eth/abi.rs:62-95 | The extended buffer is selector, head and tail of the values the byte arguments denote |
| Abi.EncodeString | apps/node/src/eth/abi.rs:33-41 | Length word, bytes, and zeros up to a whole word |
| Abi.PricingToArray | apps/node/src/eth/registry.rs:158-174 | It succeeds if and only if every price parses, and each slot is the word of the price listed last for its backend, or zero |
| Abi.BackendBitmap | apps/node/src/eth/registry.rs:176-188 | A backend's bit is set if and only if it is listed |
| Abi.RegisterData | apps/node/src/main.rs:374-397 | From the node's configuration to the registry: call data exists if and only if every price parses, and once read and executed it leaves exactly the listed backends at their last listed prices, under that URL, key, capacity and stake |
| Abi.BilledAsAdvertisedIff | apps/node/src/main.rs:918-924 | The node bills what the registry advertises if and only if the first and the last entry for the backend agree |
| Abi.BilledIsFirst | apps/node/src/main.rs:918-924 | Billed is the price listed first, or nothing if it does not parse |
| Abi.UnlistedIsFree | apps/node/src/main.rs:918-924 | Nothing is billed for a backend that is not listed |
| Abi.BitIsSlot | contracts/src/NodeRegistry.sol:197-203 | A backend's bit and its price slot are the same place |
| Abi.BilledNotAsAdvertised | apps/node/src/main.rs:918-924 | A price list for which the two differ |
| Abi.DepositReadIff | apps/node/src/eth/abi.rs:144-161 | The node reads the record's deposit exactly when it is below 2^128, and fails otherwise |
| Matching.Coordinator.MatchJob | apps/coordinator/src/main.rs:166-234 | Over any registry and bid book a node is returned if and only if one is eligible, by its own registration and its own unexpired bid, and then one no eligible node undercuts, whatever the order of iteration |
| Matching.EligibleIff | apps/coordinator/src/main.rs:175-206 | A node is eligible if and only if it serves the backend and what it asks, by its unexpired bid with that bid's cap or else by the first registered price with its own cap, is within the job's price and covers its tokens |
| Matching.CollectingBidsIsInvisible | apps/coordinator/src/main.rs:166-198 | Dropping expired bids changes no offer and no eligibility, then or later |
| Matching.KeptIsLive | apps/coordinator/src/main.rs:62-76 | The collector keeps exactly the bids that still count in a match |
| Matching.Coordinator.Collect | apps/coordinator/src/main.rs:62-76 | Exactly the nodes heard from within the timeout and the unexpired bids remain |
| Matching.Coordinator.Register | apps/coordinator/src/main.rs:116-137 | Only a signed registration is stored, under its own identity, replacing the previous one; malformed and wrong signatures are told apart |
| Matching.Coordinator.Heartbeat | apps/coordinator/src/main.rs:139-153 | Only a known node's last-seen time moves; unknown and unsigned are told apart |
| Matching.Coordinator.PostBid | apps/coordinator/src/main.rs:236-252 | Only a signed, unexpired bid is stored, replacing the node's bid for that backend |

## Left out

- Timing.ReclaimNeverEarly: for openings at or past 2^64 seconds, where the recorded 64-bit time wraps around, nothing is stated; likewise for challenge deadlines.
- ClientLoop.RunAgentLoop: the loop without a channel, its event callbacks and the request's encryption are not modelled; the session is used by this loop alone.
- LoopOnChain.LoopIsCollectable: nobody else acts between the loop's round trips; the states it speaks of are reachable, not the only ones.
- ClientLoop.OneRoundTripDebt: on a channel that several loops or `/ack` calls use at once the node may hold an older ack; only the single-loop case is stated.
- Theorems.ComposedSafety: a node process is never restarted; after a restart the in-memory counters start again from zero and the theorem does not apply.
- Theorems.OvershootBound: the bounds k and C are hypotheses on the run; the node itself limits neither the number of requests nor the cost of one.
- Theorems.LastAckClosesIff: `last_acked` may move to an older ack, so nothing is stated about the acknowledged total growing.
- AgentLoop.StepKeepsPairingIff: a step that returns an error may leave calls unanswered; nothing is stated after one.
- Translate.MessagesAnthropicToOai: messages whose content is not an array of blocks are translated to nothing, as in the source, so their text is not preserved.
- Translate.ResponseRoundTrip: an empty text does not come back as a text but as none, and token counts are truncated to 32 bits.
- Canonical.HexToBytes: what `parseInt` makes of a pair that is not two hex digits is left open.
- Matching.Coordinator.MatchJob: the price cap is a natural number; its conversion from a floating-point dollar amount is not modelled.
- `encode_update`, `encode_approve`, `encode_is_active`, `encode_channels_call`, `decode_bool`: further uses of the words proved for `encode_register`.
- `tool_anthropic_to_oai`, tool definitions and system prompts: passed through.
- Keccak, ECDSA recovery, X25519, HKDF, XChaCha20 and the EIP-191 wrapping.
- HTTP, JSON-RPC, configuration, model download and server supervision; `check_channel_solvent`'s configuration errors.
- The token's allowances, and tokens that call back or charge fees.
- `ActivityLog`, `StepGuard`, session merging, the signed coordinator messages, and all user interface.
