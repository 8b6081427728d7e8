# Maat: a verified model

Maat locks a user's ETH in `IntentManager` on Arbitrum, pays out once on Solana, and then either confirms the
settlement (the solver gets the escrow and its collateral back) or slashes the solver. A zkVM program decides
which intents are real; an orchestrator drives the settlement over two durable ledgers and two chains.

The project models these parts and proves what they are for:

| files | what they model |
|---|---|
| `ByteStrings`, `Rlp`, `HexPrefix`, `TrieProof`, `Trie`, `TrieTheorems`, `Receipts`, `ZkProgram` | the receipt-inclusion verifier and the host encoder: Recursive Length Prefix (Ethereum Yellow Paper, Appendix B), hex-prefix (Appendix C), the Modified Merkle Patricia Tree (Appendix D), typed receipts (EIP-2718) |
| `IntentManager`, `IntentManagerSafety`, `IntentManagerRuns`, `IntentManagerContract`, `IntentManagerCalls`, `VolumeLimit` | the escrow contract: as a function on states, as a class with storage, when each call succeeds and what it leaves, what every run keeps under re-entrant callees, and what the daily limit bounds |
| `ArbitrumLedger`, `SettledLedger`, `Settlement`, `ProtocolRuns`, `SettlementSafety`, `SettlementTheorems`, `LedgerMoves`, `SettlementProgress`, `SlashLimits`, `Stranded`, `Recovery` | the two ledgers and the crash-safe settlement protocol as a step machine: its safety, under which conditions each durable record moves, how far the promise to spare a delivered payout goes, and from where it can still complete |
| `ConfirmRetry`, `SlashPoller`, `TaskRuns` | the confirmation loop against a millisecond clock and one pass of the slash poller; the whole loop, however interleaved with the world, and every turn of the pass are runs of the protocol |
| `Reservations`, `Routing`, `Dispatch`, `CapitalSafety`, `CapitalLimits` | solver selection, the reservation book, capital over whole runs, and the exact timing under which it is safe |
| `SolverStats` | track records through the terminal-intent cache, and credit tiers |
| `SolanaEscrow` | the Solana program: lamports, slippage, one payout per intent |
| `Base58`, `ProverQueue` | address encoding; the job queue that keeps one main task at a time |
| `Options`, `Sums` | shared helpers |

How to read it. Code that computes is a function with lemmas; code that updates state is a class or a method with
loops, proved against a function whose properties are then lemmas. The contract's callees may issue any further
transactions, nested to any depth. The hash is an arbitrary function to 32-byte digests: each theorem that needs
it to be injective says instead "or two of these very byte strings collide", since no injective one exists.
In `Settlement`, a crash wipes every task at any point, reads of Arbitrum may return any earlier view, the poller and
reconciliation run in any number of overlapping copies, any task may throw anywhere, and other parties may move the contract in
any way `SettlementTheorems.ContractMoves` shows it can move.

Where code and documentation disagree, or the code does what its documentation does not say, the code was followed:

- `CONFIRM_RETRY_MAX_SEC_AFTER_EXPIRY` below 24 h is said to keep retries clear of claimRefund
  (`orchestrator/src/arbitrum_settlement.ts:64-76`). It does only if the largest backoff fits too:
  `ConfirmRetry.RefundRaceExactly` gives the exact condition, and the defaults meet it.
- The verifier reads an embedded list child through its payload, so an embedded branch whose first slot is
  embedded too is walked as that slot. `TrieTheorems.OddTrieFoolsTheWalk` is a well-formed trie on which a key that stores
  nothing is accepted; `TrieTheorems.SoundExactlyWhenAgreeing` says exactly which tries are safe, and tries keyed by byte
  strings, as receipt tries are, all are (`TrieTheorems.TrieSoundness`).
- The daily volume limit is a fixed window, not a sliding one: within 24 hours twice the limit can pass
  (`IntentManagerRuns.VolumeBound`, reached in `IntentManagerRuns.VolumeBoundIsTight`), and
  `VolumeLimit.DayWithinLimitExactly` says exactly when no more than the limit can.
- A payout that actually landed is said to be never punished (`orchestrator/src/arbitrum_settlement.ts:398-402`). One that
  lands between a pass's check and the slash that pass signs is: `SlashLimits.DeliveredCanBeSlashed` is the run, from any
  dispatchable intent, and `SlashLimits.SparedExactly` says exactly when a landed payout is safe.
- Boot reconciliation never sends again what was signed, so a crash between signing and broadcasting strands an intent
  (`Recovery.CrashBeforeBroadcastStrands`); `Recovery.RecoverableExactly` says exactly which crashes leave a way to confirm.
- The reservation hold is there so that capital is not promised twice (`orchestrator/src/solver_routing.ts:101-106`), but boot
  reconciliation closes a mined posting at once and without a hold (`orchestrator/src/arbitrum_settlement.ts:992-994`): with any
  lag in balance reads a run across a restart overcommits (`CapitalLimits.ImmediateBootOvercommits`).
  `CapitalLimits.RestartsExactly` gives the exact condition.
- One more delivery can cost a solver a tier, because it can complete the history that demotion needs:
  `SolverStats.DeliveryCanCostATier` shows it with the shipped thresholds, `SolverStats.DeliveryCostsATierExactly` says when.
- `submit_intent` accepts slippage above 100%; `SolanaEscrow.FloorExactly` says when the floor means what it says.

## Model

| member | source | states |
|---|---|---|
| ByteStrings.BeBytesToU64 | zk/program/src/main.rs:66-71 | the buffer-filling read equals the big-endian value of the bytes modulo 2^64, and the value itself up to 8 bytes |
| ByteStrings.StripLeadingZeros | zk/script/src/bin/prove.rs:178-183 | what remains denotes the same number and starts with no zero byte |
| ByteStrings.StripThenRead | zk/script/src/bin/prove.rs:178-190 | stripping yields the unique minimal encoding and never changes what be_bytes_to_u64 reads |
| Rlp.EncodeInjective | zk/script/src/bin/prove.rs:300-304 | no two items share an encoding |
| Rlp.ListItemsRead | zk/program/src/main.rs:132-140 | the lazy views of an encoded list give its count and exactly the encodings of its members, whatever bytes follow |
| HexPrefix.SplitIntoNibbles | zk/program/src/main.rs:73-80 | the loop produces high and low nibble of every byte in order |
| HexPrefix.PathRoundTrip | zk/program/src/main.rs:84-91 | decoding undoes hex-prefix encoding for odd and even, leaf and extension paths |
| TrieProof.VerifyTrieProof | zk/program/src/main.rs:118-156 | the loop over proof nodes computes the recursive walk whose soundness and completeness are proved |
| TrieProof.WalkBinding | zk/program/src/main.rs:118-156 | two accepted walks for one root and key return one value, whatever nodes were supplied, or two supplied nodes collide |
| TrieProof.RestIsIgnored | zk/program/src/main.rs:124-156 | nodes after the accepting one change nothing |
| Trie.VisitTrieNode | zk/program/src/main.rs:132-153 | on the encoding of any well-formed trie node one visit accepts, descends or panics exactly as the node's structure says |
| TrieTheorems.WalkIsReach | zk/program/src/main.rs:101-156 | for every well-formed trie, odd leaf depths included: exactly the values reached by the walk's own reading of embedded nodes are accepted |
| TrieTheorems.SoundExactlyWhenAgreeing | zk/program/src/main.rs:101-156 | for byte keys a well-formed trie is sound (barring collisions) if every embedded branch the walk would skip through leads, for the skipped leaf's path, to that leaf's value; every other well-formed trie has an accepted proof of a value not stored at the key |
| TrieTheorems.TrieSoundness | zk/program/src/main.rs:118-156 | in a well-formed byte-keyed trie an accepted value is the value slot that lookup of the key reaches, or a presented node collides with a real one |
| TrieTheorems.OddTrieFoolsTheWalk | zk/program/src/main.rs:101-111 | a concrete well-formed trie with an odd leaf depth on which a key that stores nothing is accepted with another key's value |
| TrieTheorems.TrieCompleteness | zk/program/src/main.rs:118-156 | if every node on the key's path is hash-referenced, the honest root-to-terminator node list is accepted and yields the stored value |
| TrieTheorems.LargeTrieExact | zk/program/src/main.rs:118-156 | in a trie whose values have at least 32 bytes acceptance and lookup agree in both directions |
| Receipts.EncodeReceipt | zk/script/src/bin/prove.rs:307-340 | the stream building loops produce type byte and RLP of status, gas, bloom and logs with numbers stripped |
| Receipts.ReceiptReadsBack | zk/script/src/bin/prove.rs:307-340 | a reader finds the type byte and, in order, status, cumulative gas, bloom and logs |
| Receipts.LogRoundTrip | zk/script/src/bin/prove.rs:318-329 | reading an encoded log gives back address, topics and data |
| Receipts.ReceiptRoundTrip | zk/program/src/main.rs:163-170 | for legacy receipts and type bytes below 0xc0 decoding succeeds exactly when the status is 1 and then returns the same logs in order |
| ZkProgram.Binding | zk/program/src/main.rs:172-240 | two accepted inputs with one block hash, transaction index and log index commit identical outputs, or two presented strings collide |
| ZkProgram.HeaderRlpBytes | zk/script/src/bin/prove.rs:278-305 | the header loop encodes the 16 fields in order with the number fields stripped |
| ZkProgram.HeaderFieldsInOrder | zk/script/src/bin/prove.rs:278-305 | the header is these sixteen fields in this order, six of them as minimal numbers |
| ZkProgram.HeaderRoundTrip | zk/script/src/bin/prove.rs:278-305 | the program reads back receipts root, number and timestamp from the host's header |
| ZkProgram.EventRoundTrip | zk/program/src/main.rs:195-222 | the log the contract emits for any event, built from its fields as topics and six words, reads back as that event as long as it has not expired |
| ZkProgram.ReadsExactly | zk/program/src/main.rs:195-225 | reading gives an event exactly when the log carries each of its fields at its offset, from the required emitter, unexpired |
| ZkProgram.AcceptedEventIsReal | zk/program/src/main.rs:172-240 | for an output naming a valid block's hash, that block holds a log of a successful receipt whose bytes are the output's fields one by one, emitted by the expected contract and not yet expired at block time, or strings collide |
| ZkProgram.RealEventIsProvable | zk/script/src/bin/prove.rs:390-400 | whenever a log of a successful receipt carries an unexpired event, in a block with receipts of 32 bytes or more, the honest input proves it with exactly its fields |
| ZkProgram.SingleReceiptBlock | zk/script/src/bin/prove.rs:390-400 | the block of any one encodable receipt, its trie a single leaf, is a valid block, and with a bloom of 32 bytes or more (blooms have 256) its values are as large as RealEventIsProvable asks |
| IntentManagerContract.Contract.SubmitIntent | contracts/evm/src/IntentManager.sol:144-201 | the storage-updating method equals the model's transition and leaves no trace when it reverts |
| IntentManagerContract.Contract.PostCollateral | contracts/evm/src/IntentManager.sol:211-225 | sets solver and collateral under the model's guards, none of them on the status, and changes nothing when it reverts |
| IntentManagerContract.Contract.ConfirmSettlement | contracts/evm/src/IntentManager.sol:233-254 | equals the model's transition with both callees free to re-enter between the effects, and restores everything when either transfer fails |
| IntentManagerContract.Contract.SlashSolver | contracts/evm/src/IntentManager.sol:257-280 | equals the model's transition: closed before the owner's callee runs, collateral credited after it returned |
| IntentManagerContract.Contract.CancelIntent | contracts/evm/src/IntentManager.sol:283-296 | equals the model's transition for an expired intent without a solver, with the owner's callee free to re-enter |
| IntentManagerContract.Contract.ClaimRefund | contracts/evm/src/IntentManager.sol:304-324 | equals the model's transition, paused or not, and restores everything when the refund fails |
| IntentManagerContract.Contract.WithdrawTreasury | contracts/evm/src/IntentManager.sol:329-334 | equals the model's transition, the caller's credit zeroed before the callee runs |
| IntentManagerContract.Contract.Transact | contracts/evm/src/IntentManager.sol:144-377 | every transaction on the object is the model's transition, leaves no trace when it fails, and takes a sound object to a sound one in which no closed intent moved and every status change was on time |
| IntentManagerCalls.RecordedAsAsked | contracts/evm/src/IntentManager.sol:179-200 | after a submission the new record's owner, token, amount, wallet, chain, expiry, slippage and creation time are the call's, nothing else is set, and no other record moves |
| IntentManagerCalls.NativeSubmitExactly | contracts/evm/src/IntentManager.sol:144-177 | a native submission succeeds if and only if not paused, value equal to a positive amount, expiry ahead, and the amount within the window's rest; the window then is as stated |
| IntentManagerCalls.SubmissionHoldsUntilItsExpiry | contracts/evm/src/IntentManager.sol:188-225 | up to the submitted expiry an approved solver's exact collateral is accepted and the owner's cancel refused; from then on the other way round |
| IntentManagerCalls.PostExactly | contracts/evm/src/IntentManager.sol:211-225 | posting succeeds if and only if unpaused, by an approved solver, for an existing unexpired intent without a solver, with 150% of the amount; it sets solver and collateral and nothing else |
| IntentManagerCalls.ConfirmExactly | contracts/evm/src/IntentManager.sol:233-254 | confirming succeeds if and only if by the orchestrator, on a pending intent with a solver who takes both payments; it sets status, proof hash, time, and clears the collateral |
| IntentManagerCalls.SlashExactly | contracts/evm/src/IntentManager.sol:257-280 | slashing succeeds if and only if by the orchestrator, from the expiry on, on a pending intent with a solver; 150% of the amount is credited to the treasury |
| IntentManagerCalls.CancelExactly | contracts/evm/src/IntentManager.sol:283-296 | cancelling succeeds if and only if by the owner, from the expiry on, on a pending intent without a solver |
| IntentManagerCalls.RefundExactly | contracts/evm/src/IntentManager.sol:304-324 | a refund succeeds if and only if by the owner, from 24 h after the expiry on, on a pending intent with a solver, paused or not |
| IntentManagerCalls.WithdrawExactly | contracts/evm/src/IntentManager.sol:329-334 | a withdrawal pays the caller exactly what it is owed and leaves nothing owed |
| IntentManagerCalls.AdministerExactly | contracts/evm/src/IntentManager.sol:350-377 | only the owner pauses, limits and appoints; each call changes its own setting and no other |
| IntentManagerCalls.DeployedAsAsked | contracts/evm/src/IntentManager.sol:130-139 | deployment succeeds if and only if all three roles are given, and gives each to whom it names |
| IntentManagerSafety.LockedRun | contracts/evm/src/IntentManager.sol:350-377 | while the guard is held any run a callee makes changes roles, pause and limit and nothing else |
| IntentManagerSafety.ConfirmEffect | contracts/evm/src/IntentManager.sol:233-254 | whatever the callees do, a confirmation that succeeds pays escrow and collateral to the solver once each and closes the intent |
| IntentManagerSafety.ForfeitEffect | contracts/evm/src/IntentManager.sol:257-324 | slashing and refunding pay the escrow to the owner and credit exactly the collateral to the treasury |
| IntentManagerSafety.StepKeeps | contracts/evm/src/IntentManager.sol:144-346 | every transaction, tick and donation keeps solvency, single disbursement and the sealing of terminal intents |
| IntentManagerSafety.RunKeeps | contracts/evm/src/IntentManager.sol:144-346 | after every run the ETH covers pending native escrows, posted collateral and treasury credits, each token its pending amounts, and every intent's escrow has been paid to exactly one party once it is closed |
| IntentManagerSafety.DeployedSound | contracts/evm/src/IntentManager.sol:130-139 | a deployed contract starts in that invariant |
| IntentManagerRuns.RunLatched | contracts/evm/src/IntentManager.sol:211-324 | over every run a terminal record never changes and a solver once set stays, although posting checks no status |
| IntentManagerRuns.StepEvolves | contracts/evm/src/IntentManager.sol:233-324 | every status change happens on time: other than settlement only from expiry on, refunds only after the grace, expiry exactly without a solver |
| IntentManagerRuns.PostSetsSolver | contracts/evm/src/IntentManager.sol:211-225 | a successful posting found a pending unexpired intent without a solver |
| IntentManagerRuns.ConfirmSettles | contracts/evm/src/IntentManager.sol:233-254 | confirmation ends in Settled and its two payments are the next two of the run |
| IntentManagerRuns.SlashSlashes | contracts/evm/src/IntentManager.sol:257-280 | slashing happens at or after expiry, ends in Slashed, repays the owner and credits the treasury |
| IntentManagerRuns.OwnerIsNeverTrapped | contracts/evm/src/IntentManager.sol:282-324 | in every sound state a willing owner's cancel or refund succeeds when its time has come, paused or not and whatever the treasury does |
| IntentManagerRuns.SolverIsNeverTrapped | contracts/evm/src/IntentManager.sol:233-254 | confirming a pending collateralised intent never fails for lack of funds |
| IntentManagerRuns.VolumeBound | contracts/evm/src/IntentManager.sol:169-177 | with a constant limit the amounts accepted within any 24 hours of any run total at most twice the limit |
| IntentManagerRuns.VolumeBoundIsTight | contracts/evm/src/IntentManager.sol:169-177 | from deployment on: twice the limit is accepted one second apart |
| VolumeLimit.DayWithinLimitExactly | contracts/evm/src/IntentManager.sol:169-177 | between two transactions, paused or not: the next 24 hours under an unchanged limit accept at most the limit if and only if the window has ended, began just now, or is full |
| ArbitrumLedger.SpellingsAgree | orchestrator/src/arbitrum_ledger.ts:62-64 | every spelling of an identifier is one key |
| ArbitrumLedger.MergeExactly | orchestrator/src/arbitrum_ledger.ts:89-94 | each field is the patch's where it has one, also when that is "undefined", and the old entry's elsewhere |
| ArbitrumLedger.Ledger.SetStage | orchestrator/src/arbitrum_ledger.ts:89-94 | the entry becomes the merge of old entry, patch and stage; no other entry moves |
| ArbitrumLedger.Ledger.EntriesAt | orchestrator/src/arbitrum_ledger.ts:102-141 | a listing holds exactly the entries at the wanted stages, each once |
| SettledLedger.Ledger.MarkSettled | orchestrator/src/prover_pipeline.ts:158-162 | settling keeps the recorded signature |
| SettledLedger.SettlingExactly | orchestrator/src/prover_pipeline.ts:158-162 | settling and reconciling never lose or invent a signature; an entry is settled by a pass if and only if it was or its signature landed |
| SettledLedger.Ledger.ReconcileSettlingLedger | orchestrator/src/prover_pipeline.ts:217-253 | a pass settles exactly the landed entries, returns exactly those, moves no other, and has alerted about every signature found absent |
| SettlementSafety.StepKeeps | orchestrator/src/arbitrum_settlement.ts:605-1063 | every step of sequence, payout, poller, reconciliation, child, chain or crash keeps the protocol invariant, and facts only accumulate |
| SettlementTheorems.StageImpliesChainFact | orchestrator/src/arbitrum_settlement.ts:605-1063 | in every reachable state Confirmed means Settled on chain, Slashed means Slashed, and every stage past posting means the chain holds a solver |
| LedgerMoves.StepMovesArb | orchestrator/src/arbitrum_settlement.ts:605-1031 | whichever step changes the Arbitrum ledger: each stage is entered only under its condition on clock, chain and payout (awaiting_expiry_slash only with the delivery time gone), fields it does not own stay, and the transaction it signs is the one it names |
| LedgerMoves.NeverGivenUpEarly | orchestrator/src/arbitrum_settlement.ts:693-708 | over every run no intent awaits its slash while delivery time is left |
| LedgerMoves.StepMovesMoney | orchestrator/src/listener.ts:371-437 | whichever step changes the payout: the record appears from a waiting child's signature and settles only once that landed; only a recorded signature is released, the first, to that child; a child is started only with nothing on record |
| LedgerMoves.PaidOnlyIfSeenOpen | orchestrator/src/arbitrum_settlement.ts:670-676 | over every run a payout is released only if the chain has shown the intent pending with a solver's collateral |
| LedgerMoves.AttemptGoes | orchestrator/src/listener.ts:371-400 | an attempt starts a child exactly with nothing on record, confirms exactly when settled, and does nothing while a signature is in doubt |
| LedgerMoves.ReleaseGoes | orchestrator/src/listener.ts:403-424 | GO releases the recorded signature to a child that still waits, and nothing to one already gone |
| LedgerMoves.ChildClosedGoes | orchestrator/src/listener.ts:427-440 | a zero exit settles the record and goes on to confirm, any other exit goes back to paying with the record as it was |
| LedgerMoves.VerifyGoes | orchestrator/src/arbitrum_settlement.ts:670-676 | the check after posting goes on to pay exactly when it sees its own solver on a pending intent |
| LedgerMoves.PostDoneGoes | orchestrator/src/arbitrum_settlement.ts:647-657 | a successful posting is recorded as posted with its hash and goes on to the check; a failed one is recorded as failed and ends the sequence |
| LedgerMoves.RefuseGoes | orchestrator/src/arbitrum_settlement.ts:593-634 | a refusal records a failure with the expiry and ends the sequence |
| SettlementTheorems.AtMostOnePayout | orchestrator/src/listener.ts:377-424 | over every run at most one payout signature is released for broadcast, it is the recorded one, and the record never changes |
| SettlementTheorems.PaidBeforeConfirmed | orchestrator/src/arbitrum_settlement.ts:670-713 | nothing is paid before a solver is on chain and no confirmation is even signed before the payout landed |
| SettlementTheorems.InFlightPostSurvivesCrash | orchestrator/src/arbitrum_settlement.ts:636-645 | after a crash between signing and receipt the ledger still names the posting and its solver, and boot reconciliation can take it up |
| SettlementTheorems.SlashIsDue | orchestrator/src/arbitrum_settlement.ts:831-842 | over every run a slash is signed only after the recorded expiry and only by a pass whose own check, made after the expiry, found the payout neither settled nor landed |
| SettlementTheorems.DeliveredIsNeverSlashed | orchestrator/src/arbitrum_settlement.ts:793-852 | once the payout landed and no pass is past its check, no run signs another slash |
| SettlementTheorems.RestartSpares | orchestrator/src/arbitrum_settlement.ts:793-852 | in particular nothing signed after a restart slashes a delivered payout |
| SlashLimits.SparedExactly | orchestrator/src/arbitrum_settlement.ts:793-852 | in every sound state with the payout landed: no run signs another slash if and only if no pass is past its own check |
| SlashLimits.DeliveredCanBeSlashed | orchestrator/src/arbitrum_settlement.ts:793-852 | from every dispatchable intent, nobody else touching it, a run lands the payout on a pending intent and then signs a slash that succeeds |
| SettlementTheorems.ContractMoves | contracts/evm/src/IntentManager.sol:144-377 | every event of the contract moves an intent's view as the protocol assumes of other parties |
| SettlementTheorems.ContractAcceptsAsAssumed | contracts/evm/src/IntentManager.sol:211-280 | the orchestrator's three calls succeed only under the assumed checks and with the assumed effect |
| SettlementProgress.SettlementCanComplete | orchestrator/src/arbitrum_settlement.ts:605-755 | from every open intent with nothing recorded that the clock check of the gate lets through (its checks of token, amount and balance taken as passed), some run in which nobody else touches the intent releases exactly one payout and ends confirmed |
| Recovery.RecoverableExactly | orchestrator/src/arbitrum_settlement.ts:605-1063 | after any crash, the intent not settled on chain: some run in which nobody else touches the intent ends confirmed if and only if a condition on ledgers, chain, sent transactions and clock holds, given stage by stage |
| Recovery.BootResolves | orchestrator/src/arbitrum_settlement.ts:970-1031 | what boot writes for every status, stage and receipt: chain before receipt, receipts only about postings, the named hashes, anything else left as it is |
| Recovery.BootAsksAbout | orchestrator/src/arbitrum_settlement.ts:957-968 | the receipt boot reads is that of the transaction its stage is about |
| Recovery.SettledIsNoticed | orchestrator/src/arbitrum_settlement.ts:956-979 | an intent settled on chain whose entry is mid-sequence can always be brought to confirmed |
| Recovery.CrashBeforeBroadcastStrands | orchestrator/src/arbitrum_settlement.ts:955-1031 | a crash between signing and broadcasting a posting, or the only confirmation, leaves no such run |
| Stranded.StuckForever | orchestrator/src/arbitrum_settlement.ts:605-1063 | each of six ways of being stuck lasts through every run without other parties, which never ends confirmed |
| SettlementProgress.PayoutLandsLate | orchestrator/src/listener.ts:427-437 | a payout whose child fails after broadcasting may land after the sequence gave up; such runs are among those the theorems speak of |
| ConfirmRetry.ConfirmSettlementWithRetry | orchestrator/src/arbitrum_settlement.ts:724-771 | the loop ends on every clock at the first attempt with no successor; start times, outcome and ledger are those of the schedule; the intent is re-read before each attempt |
| ConfirmRetry.AttemptsStartInTime | orchestrator/src/arbitrum_settlement.ts:757-770 | every attempt after the first starts less than one largest backoff past the deadline |
| ConfirmRetry.AttemptsAreBounded | orchestrator/src/arbitrum_settlement.ts:735-770 | the number of attempts is bounded by the milliseconds left |
| ConfirmRetry.RefundRaceExactly | orchestrator/src/arbitrum_settlement.ts:58-76 | no retry can start once claimRefund is open if and only if retry maximum plus largest backoff fits in the 24 h grace |
| ConfirmRetry.DefaultsAreSafe | orchestrator/src/arbitrum_settlement.ts:60-69 | the shipped defaults meet that condition |
| ConfirmRetry.LedgerFollowsAttempts | orchestrator/src/arbitrum_settlement.ts:735-755 | the entry always names the last signed confirmation, says confirmed exactly when the run ended so, and never loses solver or posting |
| ConfirmRetry.EndsBecause | orchestrator/src/arbitrum_settlement.ts:735-770 | why the loop ends: a failed read, an intent ended otherwise, settled or landed, or the deadline passed |
| TaskRuns.AttemptIsARun | orchestrator/src/arbitrum_settlement.ts:735-755 | each attempt, whatever it reads and however its transaction ends, is a run of the protocol with exactly the attempt's effect |
| TaskRuns.LoopIsARun | orchestrator/src/arbitrum_settlement.ts:724-771 | any number of attempts, with any steps of the world between them, are one run: it leaves the ledger the loop's contract names, stands at the next attempt exactly when there is one, and touches neither payout record nor release |
| ConfirmRetry.ReadIntentAfterPostCollateral | orchestrator/src/arbitrum_settlement.ts:452-470 | returns the first reading staleness cannot explain, or the last one allowed |
| ConfirmRetry.StalenessHidesNoConflict | orchestrator/src/arbitrum_settlement.ts:441-451 | under the contract's latch a lagging node shows that shape or our solver, never another one |
| SlashPoller.ResumeConfirmIfSolanaLanded | orchestrator/src/arbitrum_settlement.ts:793-829 | averts the slash exactly when the payout is recorded or found landed, records that, and throws exactly when the check, the hashing of the proof or the confirmation does |
| SlashPoller.PollAwaitingSlash | orchestrator/src/arbitrum_settlement.ts:831-852 | a pass visits every awaiting intent once unless a turn throws (its check, the hashing of the proof, or its confirmation), which ends it there; it calls slashSolver for exactly the visited intents that are due with nothing delivered, and moves no entry it did not visit |
| SlashPoller.SlashableExactly | orchestrator/src/arbitrum_settlement.ts:799-842 | a turn slashes if and only if the expiry is reached and the payout is unrecorded, or recorded unsettled and seen not landed |
| SlashPoller.DeliveredIsSpared | orchestrator/src/arbitrum_settlement.ts:793-829 | a visited intent whose payout was delivered is not slashed, its record ends settled, its stage never becomes slashing |
| TaskRuns.SlashTurnIsARun | orchestrator/src/arbitrum_settlement.ts:831-849 | a slashing turn is a run of the protocol with exactly the turn's effect |
| TaskRuns.AvertedTurnIsARun | orchestrator/src/arbitrum_settlement.ts:793-829 | a turn that finds the payout delivered is a run that settles the record and, if both files of the proof can be read, confirms to the end of the loop |
| TaskRuns.TurnIsARun | orchestrator/src/arbitrum_settlement.ts:793-852 | every kind of turn of the pass, due or not, slashing, averted or thrown at any of its calls, is a run that leaves both ledgers as the pass's contract says and the pass over |
| Reservations.ReservationBook.ReservedWei | orchestrator/src/solver_routing.ts:113-126 | returns the sum of the unlapsed reservations and forgets exactly the lapsed |
| Reservations.ReservationBook.HasIntent | orchestrator/src/solver_routing.ts:128-132 | true exactly when some solver holds a reservation for the intent |
| Reservations.ReservationBook.Release | orchestrator/src/solver_routing.ts:108-111 | removes the reservation and says whether it was there |
| Reservations.ReservationBook.HoldFor | orchestrator/src/solver_routing.ts:101-106 | puts a pending reservation on hold and leaves one already on hold alone |
| Reservations.ReservedWeighs | orchestrator/src/solver_routing.ts:84-126 | a reservation adds its wei to its solver's total at every time and to no other total |
| Reservations.HeldWeighs | orchestrator/src/solver_routing.ts:101-126 | on hold it counts up to the named moment and not from then on; a second hold changes nothing |
| Reservations.ReleasedWeighs | orchestrator/src/solver_routing.ts:108-126 | released, pending or on hold, it leaves the totals as before it was made |
| Routing.LedgerReservedWei | orchestrator/src/solver_routing.ts:259-271 | sums what every in-flight entry holds back, legacy entries at their worst case |
| Routing.ChargeExactly | orchestrator/src/solver_routing.ts:259-271 | an entry counts nothing against other solvers, otherwise gas and its recorded collateral, or the largest possible; without a solver it counts against everyone |
| Routing.InFlightExactly | orchestrator/src/solver_routing.ts:257-262 | the entries counted are exactly the postings in flight that memory does not hold |
| Routing.CollateralIsWhatTheContractDemands | orchestrator/src/arbitrum_settlement.ts:354-354 | the collateral posted is one and a half times the amount rounded down, as the contract requires |
| Routing.EligibleExactly | orchestrator/src/solver_routing.ts:273-307 | a candidate survives if and only if every read answered and every gate holds |
| Routing.EligiblePassesSequenceGate | orchestrator/src/arbitrum_settlement.ts:344-361 | with balance and clock unchanged a survivor passes the sequence's own gate |
| Routing.WinnerIsOptimal | orchestrator/src/solver_routing.ts:309-323 | there is a winner exactly when someone is eligible, and no eligible candidate beats it on cap, rate, capital, address |
| Routing.WinnerIgnoresOrder | orchestrator/src/solver_routing.ts:309-319 | permuting evaluations of distinct solvers keeps the winner |
| Dispatch.Decide | orchestrator/src/solver_routing.ts:237-336 | judges all candidates against the book and ledger as found, picks the winner and reserves for it alone |
| Dispatch.WinnerIsBestCandidate | orchestrator/src/solver_routing.ts:273-323 | no winner if and only if no candidate qualifies; otherwise the winner's candidate qualifies and none that qualifies outranks it on credit cap, share of settled intents, balance beyond what is held back, address, each read off the candidate, its tally and the book and ledger |
| Dispatch.WinnerCanAfford | orchestrator/src/solver_routing.ts:285-308 | the winner's read balance covers everything held back from it and this intent, and passes the sequence's gate |
| Dispatch.RoutingIgnoresOrder | orchestrator/src/solver_routing.ts:224-336 | permuting the configured candidates keeps the winner |
| Dispatch.DispatchArbitrumSettlement | orchestrator/src/solver_routing.ts:356-418 | a live intent is left untouched; without a winner the entry fails; otherwise the ledger is what the dispatched sequence left, and the reservation leaves pending exactly once, on hold after success and released after anything else |
| Dispatch.FailedDispatchHoldsNothing | orchestrator/src/solver_routing.ts:378-417 | a dispatch that posted nothing leaves every solver's reserved total, now and later, as it was |
| CapitalSafety.CountedOnce | orchestrator/src/solver_routing.ts:257-271 | no posting is counted by memory and ledger both, and what is held back is the sum over single intents |
| CapitalSafety.HeldBackCovers | orchestrator/src/solver_routing.ts:285-285 | what is held back covers what is owed plus whatever a read lagging by at most the hold cannot show |
| CapitalSafety.SelectionIsAffordable | orchestrator/src/solver_routing.ts:285-335 | after a selection on lagging reads the winner's true balance covers all its unpaid commitments and the new one |
| CapitalSafety.CapitalIsNeverOvercommitted | orchestrator/src/solver_routing.ts:75-133 | over every run in which the hold outlasts the read lag, and which stays in one process life or whose restarts and boot closings wait the lag out, each solver's true balance covers all it promised and has not yet paid |
| CapitalLimits.OneLifeExactly | orchestrator/src/solver_routing.ts:101-106 | within one process life no run overcommits if and only if the hold is at least the read lag |
| CapitalLimits.RestartsExactly | orchestrator/src/arbitrum_settlement.ts:992-994 | across restarts no run overcommits if and only if hold, downtime and the age at which boot closes a mined posting are each at least the lag; each failing run starts from an empty book |
| CapitalLimits.ImmediateBootOvercommits | orchestrator/src/arbitrum_settlement.ts:992-994 | boot closing a mined posting at once, as the source does, lets some run overcommit whenever reads lag at all |
| SolverStats.ReadSolverRecord | orchestrator/src/solver_stats.ts:212-299 | counts every intent once under its verdict whatever its spelling, isolates failed reads, caches exactly the terminal intents it read |
| SolverStats.RecordsAreCounts | orchestrator/src/solver_stats.ts:243-285 | each heading of a record is the number of intents that ended so for that solver, by cache or read, not excluded for it; excluded counts those that are |
| SolverStats.CacheAfterGains | orchestrator/src/solver_stats.ts:225-262 | the cache keeps its entries and gains exactly the intents read as ended, as read |
| SolverStats.CacheCoherence | orchestrator/src/solver_stats.ts:78-89 | after any earlier runs on earlier states over lagging or failing nodes, a run with the cache reports what an empty cache would |
| SolverStats.CountsAreLowerBounds | orchestrator/src/solver_stats.ts:183-188 | with failed or lagging reads every count is at most the true one |
| SolverStats.ExpiredIsNobodys | orchestrator/src/solver_stats.ts:251-251 | no solver is ever charged with an expired intent |
| SolverStats.TierMovesOneStep | orchestrator/src/solver_stats.ts:333-343 | a tier moves at most one step from onboarding, upward only on complete data |
| SolverStats.TierExactly | orchestrator/src/solver_stats.ts:333-343 | one tier up if and only if complete, enough history and share at or above the threshold; one down if and only if not up, enough history and share below the other |
| SolverStats.CapExactly | orchestrator/src/solver_stats.ts:363-366 | the cap is the tier's own percentage of the largest transfer, rounded down |
| SolverStats.DeliveryCostsATierExactly | orchestrator/src/solver_stats.ts:333-343 | more settled intents cost a tier if and only if the solver had too little history to be demoted, now has enough at a rate below the threshold, is not promoted and is not at tier 3 already |
| SolverStats.DeliveryCanCostATier | orchestrator/src/solver_stats.ts:333-343 | with the shipped thresholds one delivery after one success and one slash turns tier 2 into tier 3 |
| SolverStats.IncompleteNeverRaisesTheCap | orchestrator/src/solver_stats.ts:326-366 | on incomplete data the cap never exceeds the onboarding tier's |
| SolanaEscrow.Program.SubmitIntent | contracts/solana/maat/programs/maat/src/lib.rs:18-81 | the field-updating instruction equals the model's transition; a failure leaves no trace |
| SolanaEscrow.Program.ReceiveSettlement | contracts/solana/maat/programs/maat/src/lib.rs:82-193 | equals the model's transition with checked 64-bit lamport moves to destination and owner; a failure leaves no trace |
| SolanaEscrow.Program.CancelIntent | contracts/solana/maat/programs/maat/src/lib.rs:195-237 | equals the model's transition for an expired intent or a paused program; a failure leaves no trace |
| SolanaEscrow.Program.SetCircuitBreaker | contracts/solana/maat/programs/maat/src/lib.rs:239-259 | creates the channel's breaker account at the admin's expense when there is none, sets it, and leaves no trace when it fails |
| SolanaEscrow.SubmitExactly | contracts/solana/maat/programs/maat/src/lib.rs:18-81 | a submission succeeds if and only if unpaused and payable from a wallet; the record says what the submission said, and amount and rent move to it |
| SolanaEscrow.AdminExactly | contracts/solana/maat/programs/maat/src/lib.rs:239-280 | only the admin sets a channel's breaker, of that channel alone, and pauses |
| SolanaEscrow.SlippageFloor | contracts/solana/maat/programs/maat/src/lib.rs:129-137 | up to 100% slippage nothing overflows or is cut off and the minimum is amount minus floor(amount*bps/10000) |
| SolanaEscrow.FloorExactly | contracts/solana/maat/programs/maat/src/lib.rs:129-137 | the minimum is exact for every amount if and only if slippage is at most 10000 |
| SolanaEscrow.CastCutsDeduction | contracts/solana/maat/programs/maat/src/lib.rs:129-133 | a concrete slippage of 200% whose deduction the 64-bit cast cuts to nothing |
| SolanaEscrow.InitializedHolds | contracts/solana/maat/programs/maat/src/lib.rs:10-16 | an initialized program satisfies the invariant |
| SolanaEscrow.RunKeeps | contracts/solana/maat/programs/maat/src/lib.rs:18-280 | over every run total lamports are conserved, each intent's amount leaves its account at most once and in full, settlements respect the floor |
| SolanaEscrow.SettlesExactlyWhenAllowed | contracts/solana/maat/programs/maat/src/lib.rs:82-237 | settling succeeds if and only if unpaused, signed by the orchestrator, on a pending unexpired intent whose channel has a breaker that is not halted, to its own destination and owner, within its slippage; cancelling if and only if by the owner, pending, expired or paused; never both |
| SolanaEscrow.SettledAs | contracts/solana/maat/programs/maat/src/lib.rs:140-193 | lamports of every account after a settlement: amount to the destination, rest to the owner, all out of the intent; time, proof and amount recorded |
| SolanaEscrow.CancelledAs | contracts/solana/maat/programs/maat/src/lib.rs:195-237 | lamports of every account after a cancellation: everything to the owner |
| SolanaEscrow.HaltedSettlesNothing | contracts/solana/maat/programs/maat/src/lib.rs:109-118 | while a channel is halted, or has no breaker, no run that leaves its breaker alone settles an intent of it |
| Base58.Base58CheckEncode | orchestrator/src/listener.ts:169-186 | the two loops produce the base-58 digits after one '1' for each leading zero byte |
| Base58.RoundTrip | orchestrator/src/listener.ts:169-186 | a decoder recovers the exact bytes, leading zeros included |
| Base58.CheckEncodeInjective | orchestrator/src/listener.ts:169-186 | for any checksum function two payloads never share an address |
| Base58.AlphabetIsAscending | orchestrator/src/listener.ts:167-167 | the digits ascend through figures and letters without 0, O, I and l, which determines the alphabet |
| ProverQueue.Queue.Enqueue | orchestrator/src/prover_pipeline.ts:426-434 | a job is queued behind all earlier ones and starts at once only if none runs |
| ProverQueue.Queue.Settle | orchestrator/src/prover_pipeline.ts:435-444 | when a job ends the oldest waiting one starts; none is lost and an idle queue has run them all |

## Left out

- RPC clients, viem, Anchor, child-process plumbing, timers, environment loading: each is a nondeterministic outcome of a step or a parameter.
- The display mirror (`intent_state.ts`), logging, alerts, `redact.ts` and the wording of reasons: never consulted by a decision.
- `rpc_rotation.ts`, `rpc_rotation.rs`, `proveIntent`'s exit-code loop and `evaluateSettleGate`: they keep no state, and nothing modelled here depends on them.
- SP1 proving and verification, keccak's internals and `eth_trie`: the trie is assumed to be the well-formed trie of the block's receipts.
- Deploy and setup scripts, IDL, configuration, the frontend.
- The `rlp` crate is not part of the repository: its lazy views are modelled from its header rules (`data` ignores whether an item is a list, trailing bytes are ignored, counting stops at the first bad item).
- ERC-20 price valuation of collateral, rebasing tokens, event logs and gas: tokens deliver what they report and keep what they hold.
- ZkProgram.AcceptedEventIsReal: turning log_index into a machine index is taken to lose nothing, as on a 64-bit target; on a 32-bit one the event is that of log_index modulo 2^32.
- Intent identifiers in the contract are the hashed tuple itself, taken as injective.
- Durable writes are atomic and succeed, although the source only logs a failed one.
- A collateral_failed stage after a transport error says nothing about the transaction: the source forgets its hash there, so no chain fact is claimed for that stage.
- Overlapping pollers may move a stage backwards, so ledger facts are stated as "stage implies chain fact" only.
- The protocol is stated for one intent; ledgers are keyed by intent, and intents share only the queue, whose order is `ProverQueue`'s.
- A settling child is assumed to exit with 0 only after its payout landed, and checkSolanaSignatureLanded to be right at its instant.
- SettlementProgress.SettlementCanComplete: the gate's checks of token, amount and balance are taken as passed; the clock check is modelled.
- Recovery.RecoverableExactly: an intent already settled on chain is covered by SettledIsNoticed for the stages boot looks at only; a collateral_failed intent is taken to be dispatched again if the gate lets it, as the sequence's own guard allows.
- SettlementTheorems.SlashIsDue: one clock serves the process and the contract, here and in every theorem about runs; their skew is not modelled.
- ConfirmRetry.ConfirmSettlementWithRetry: sleeps are exact and the retry maximum is a number; a NaN would make the deadline never pass.
- ConfirmRetry.RefundRaceExactly: speaks of attempts after the first, because the first has no clock check in the source.
- SlashPoller.PollAwaitingSlash: one pass run alone; passes that overlap with other tasks are the subject of `Settlement`.
- CapitalSafety.CapitalIsNeverOvercommitted: a failed posting never lands and costs nothing, and a solver's account pays for postings only.
- Dispatch.DispatchArbitrumSettlement: the ledger after the dispatched sequence is an input; what the sequence does to it is `Settlement`'s subject.
- Dispatch.Decide: candidates' reads are values; their interleaving with other selections is excluded by the book's mutex, which is not modelled.
- SolverStats.ReadSolverRecord: success rates are exact rationals rather than doubles, and tier percentages are already rounded; a hand-edited cache file is not assumed true by any lemma but CacheCoherence's premises.
- SolanaEscrow.SettlesExactlyWhenAllowed: the Solana runtime's own refusal of a transfer that leaves a fresh account below rent exemption is not among the conditions.
- SolanaEscrow.RunKeeps: signers are wallets, and accounts are distinct from intent and breaker addresses; rent is a parameter of the instruction that creates an account.
- Base58.Base58CheckEncode: the empty payload is modelled as value 0; the checksum is any function to four bytes.
