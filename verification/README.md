# The hedge covenant, verified

A hedge contract fixes a dollar value in bitcoin between a short and a long until a maturity, or until the price
leaves a range. This project models the parts of the repository that decide who is paid what, and proves them
correct in Dafny:

- the **settlement covenant**: the compiler that turns a contract's `Terms` into a script, the stack machine that
  runs it, and the Go formula that must agree with it to the sat;
- the **oracle**: the 24 bytes it signs, the log its publishers append to, and why a dense log needs no clock;
- the **way out**: the pre-signed exit, the 2-of-3 it pays into, and the arbitration that splits what is left;
- the **life of a contract**: one row shared by any number of request handlers and workers, each with a copy as old
  as it likes, any of them stopping between two statements.

`dafny verify dfyconfig.toml` checks all of it.

## How it is put together

| file | models |
|---|---|
| `Prelude`, `Bytes`, `ScriptNum` | Go's integer widths, little-endian byte strings, script numbers (sign-magnitude, minimal) |
| `Script`, `Vm` | the script builder and its byte format; the machine: two stacks, the transaction, the witness |
| `Terms` | `Terms.validate`, `SettlementSplit`, the trigger, price scaling |
| `Covenant`, `CovenantBytes` | the compiler, and the one script the tests pin, byte by byte |
| `CovenantRun`, `CovenantCorrect` | the program run segment by segment, and what it accepts |
| `CovenantIdentity` | reading a script back: which bytes are some contract's script, and which contract's |
| `OracleMessages`, `OracleLog`, `PriceShopping` | the signed message, the log under its lock, what a spender can choose |
| `SettlementFlow` | the transaction the service builds and how it fares with the covenant |
| `Sweep`, `Arbitrations`, `ArbitrationStore` | the exit and its relative lock, the threshold witness, the shortfall, the check before signing, the stored proposal |
| `ContractStore` | the transition table, the compare-and-swap store, the audit trail |
| `Redemptions`, `Lifecycle` | what an early close is made of and how it is signed; the protocol as steps of a world |
| `LiveContracts`, `SecondFundings` | who can always leave a live contract, and who cannot |
| `EarlyCloses`, `Landings` | when a signed close gets through; whether it stays on record where an exit landed |
| `Worker` | the worker that runs the slow steps |

Signatures and hashes are functions the theorems take as parameters, so nothing is assumed of them that a statement
does not say. Numbers on the machine are unbounded; Go's are `Int64`, and every place where Go's arithmetic can wrap
says so with `Wrap64`. A value typed `Int64` is proved to stay in range.

Code that changes state is imperative here too: the script builder, the message buffer, the emulator packet, the
oracle store, the contract repository with its `Contract` objects, the signing loops and the worker's tick are
classes, arrays and loops, each proved against a function that says what it comes to. What concerns many actors at
once is a transition function over a world (`OracleLog.Next`, `Lifecycle.Next`), and its theorems are about every
finite run. `Worker.TickIsARun` and `OracleLog.AppendIsARun` tie the two together: whatever the imperative worker does
to a contract, and whatever an append does to the log, is a run of the protocol, for every outcome: each read and write
may fail, and a write that is reported to have failed may or may not have taken.

## What the proofs found

Where a law that one would expect does not hold, the model keeps the code and proves exactly when it does.

- `scaleToAvailable` multiplies in int64. Past 2^63 the product wraps and the short is always paid less than its
  share (`Arbitrations.ScaleIsFairWithoutOverflow`); contracts up to 3,037,000,499 sats are safe. A 40 bitcoin
  contract, arbitrated at a signed price that owes the short 30 of them, pays it 1332 sats
  (`Arbitrations.OverflowIsReached`).
- `ArbitrationRepo.Put` keeps the first proposal's transaction and takes the last one's signatures. The service's
  signature survives being asked again exactly when the price still gives the same share; otherwise a lone party can
  no longer be paid with the service's help (`ArbitrationStore.ServiceSignatureSurvives`, `OnePartyIsStuck`; with two
  prices of one contract in `SignatureGoesStale`).
- `Settle` looks at the latest price alone, and at the time of the request; the covenant wants its predecessor before
  maturity, and the worker takes the latest pair at its own time. Once two messages past maturity exist, the service
  always submits a pair the covenant refuses (`PriceShopping.MissedMaturityStaysMissed`), and a liquidation whose price
  is back inside by then is refused too, although the pair that liquidated still settles (`LiquidationMissed`). Three
  publications are enough for either (`LateIsMissed`, `DipIsMissed`).
- `RejectRedemption` has no state guard, and `Funding -> Active` is an allowed move. From funding a reject leaves a
  contract that can be exited if and only if the copy it holds names the outpoint and the exit is stored
  (`LiveContracts.RejectOfFundingIsSafeExactly`); `UnguardedRejectActivatesTheUnfunded` reaches the other case. From
  every other state the contract can still be exited, and that is all: the stored close is dropped, signed or not, and
  a worker that has just settled, closed or left can no longer record it, exactly when the rejecting copy is of the
  row's own state (`RejectLosesTheWorkExactly`).
- The compare-and-swap looks at the state only, so a second funding of one contract overwrites the first's outpoint
  and the stored exit spends the wrong one (`LiveContracts.TwoWorkersLoseTheExit`). The comment on `Advance` says the
  opposite. With two workers or more, a funding that comes back is harmless if and only if nobody names another
  outpoint (`SecondFundings.SecondFundingIsHarmfulExactly`). Harmful rejects aside, one worker never gets there, and
  neither do any number of workers whose operator funds a contract once (`LiveContracts.OneWorkerIsCareful`,
  `OneFundingIsCareful`).
- `ProposeRedemption` stores before it moves the row, so a late proposal displaces a close both have signed
  (`EarlyCloses.LateProposalDisplacesTheSigned`, from the first proposal on). Three writes do, each said on the copy the
  request holds; a signed close survives every other step, and then is what is submitted
  (`EarlyCloses.SignedCloseSurvivesExactly`, `SignedCloseIsSubmitted`). Nothing unsafe is ever submitted.
- `ExitRepo.Put` writes the landing columns whoever calls it. A worker that signs the exit again, because it did not
  see that there is one, takes a recorded landing away, and no other step does (`Landings.LandingStaysExactly`). One
  worker never does; two can, and then the contract is exited for ever with nothing to arbitrate
  (`Landings.OneWorkerKeepsTheLanding`, `LateSigningStrandsTheContract`).
- Two users with one key would sign every packet of an early close twice, which the operator refuses to read; two keys
  sign once each (`Redemptions.SignedTwiceExactly`).
- `PriceFrom` refuses prices above 2^62 that the covenant accepts, `NominalUnits` wraps for hedges above
  92,233,720,368 cents, `VerifyArbitration` panics on a transaction without inputs, and funding checks that the exit
  can be paid for but not the arbitration after it (`Arbitrations.LeavingNeedsBothFees`).
- The comment above `SettlementScript` gives the long `max(DUST, payout - short)`. The code gives it `payout - short`,
  and so does the model. The script never checks a message's length; the service does.

## Model

| member | source | states |
|---|---|---|
| `Terms.ValidTerms` | contract/settlement.go:59-95 | the rules are: positive numbers, an ordered range, ordered times, two scripts, a 32-byte key and two dust outputs in the payout |
| `Terms.SplitIsTheShortShare` | contract/arbitration.go:53-70 | the split is the one amount that leaves both sides dust and whose leveraged value the nominal covers, with the rest to the long; it is refused for bad terms and prices only, and never overflows |
| `Terms.ShortFallsAsThePriceRises` | contract/arbitration.go:61-67 | a higher price never pays the short more |
| `Terms.BoundaryIsFlat` | contract/settlement.go:34-41 | every price beyond a boundary pays what the boundary pays |
| `Terms.HedgeAccuracy` | contract/arbitration.go:64-67 | away from floor and cap the short's sats are worth the nominal to within one price step |
| `Terms.NominalRoundTrip` | service/internal/domain/price.go:22-30 | scaling a hedge value comes back exactly when the product fits an int64, and for no other value |
| `ScriptNum.Encode` | contract/settlement.go:358-361 | the machine's number for an integer, decoding to that integer |
| `ScriptNum.MinimalIsCanonical` | contract/settlement.go:358-361 | BIP 62 rule 4: a byte string is an encoding exactly when it is minimal, so every number has one |
| `Script.NextReadsBack` | contract/settlement.go:132-132 | BIP 62 rule 3: each operation's shortest push is read back as that operation, whatever follows it |
| `Script.ParseSerialise` | contract/settlement.go:305-305 | the machine reads the emitted bytes back as the emitted operations |
| `Script.SerialiseInjective` | contract/settlement.go:305-305 | two operation lists with the same bytes are the same list |
| `Script.ScriptBuilder.Script` | contract/settlement.go:305-305 | the loop gives the bytes of everything appended, in order |
| `Covenant.EncodeConstants` | contract/settlement.go:113-130 | ranging over the constants in any order encodes all of them |
| `Covenant.AddFieldExtract` | contract/settlement.go:310-315 | four operations that read one field of a message |
| `Covenant.AddLockScriptCheck` | contract/settlement.go:323-341 | the comparison against one recipient, in either shape the machine pushes |
| `Covenant.SettlementScript` | contract/settlement.go:108-306 | the builder calls emit exactly the compiled program, or the first rule the terms break |
| `CovenantBytes.StandardScriptIsThePinnedOne` | contract/settlement_test.go:505-505 | the standard contract compiles to the pinned 287 bytes |
| `Vm.RunAppend` | contract/settlement.go:132-305 | running p then q is running q after p |
| `CovenantRun.ShapeRun` | contract/settlement.go:134-162 | the shape segment passes exactly for one input holding the payout |
| `CovenantRun.RecipientRun` | contract/settlement.go:164-173 | the recipient segment passes exactly for the committed lock script |
| `CovenantRun.OracleRun` | contract/settlement.go:175-198 | both messages authenticated and left in order, or refused |
| `CovenantRun.PredecessorRun` | contract/settlement.go:200-205 | the predecessor is before maturity |
| `CovenantRun.AdjacencyRun` | contract/settlement.go:207-220 | the sequences are positive and adjacent |
| `CovenantRun.PriceRun` | contract/settlement.go:230-240 | a positive price is clamped, any other refused |
| `CovenantRun.TriggerRun` | contract/settlement.go:242-260 | matured, or on a boundary |
| `CovenantCorrect.ScriptArithmeticIsTheSplit` | contract/settlement.go:278-293 | the machine's clamp and division give the Go formula's split for every valid contract and positive price, although they clamp in the other order |
| `CovenantCorrect.ProgramVerdict` | contract/settlement.go:132-305 | on any four witness items and any transaction the program ends in true or in a refusal: it never underflows, never divides by zero |
| `CovenantCorrect.CompiledCovenantIsCorrect` | contract/settlement.go:108-306 | the compiled bytes accept a spend if and only if the declarative predicate holds: one input with the payout, both recipients, both signatures, adjacency across maturity, start, trigger, exact payouts |
| `CovenantCorrect.AcceptedSpendConserves` | contract/settlement.go:139-148 | the two payouts of an accepted spend are exactly what its one input held, dust at least on each side, so nothing is left for another output |
| `CovenantIdentity.CommitmentReadsBack` | contract/settlement.go:343-356 | a commitment with a version is the lock script taken apart, one with -1 is its digest, and which of the two a script gets is whether it is a witness program |
| `CovenantIdentity.ScriptIdentifiesTheContract` | contract/settlement.go:310-361 | two valid contracts have the same script exactly when every parameter and both commitments agree |
| `CovenantIdentity.CommitmentPinsTheScript` | contract/settlement.go:343-356 | two lock scripts have the same commitment exactly when they are the same, if the hash does not collide on these two |
| `CovenantIdentity.ScriptsReadBack` | contract/settlement.go:108-306 | a client that is shown a valid contract's script reads every parameter and both commitments back out of it |
| `CovenantIdentity.ReadsExactlyTheScripts` | contract/settlement_test.go:502-504 | and nothing else reads: the reader succeeds on some bytes if and only if they are some valid contract's script |
| `CovenantIdentity.ScriptIdentifiesTheTerms` | contract/settlement_test.go:468-500 | if the hash does not collide on the two contracts' lock scripts, changing any term changes the script and nothing else does |
| `OracleMessages.OracleMessage` | contract/oracle.go:38-44 | three writes into a buffer give the 24-byte message |
| `OracleMessages.MessageLayout` | contract/oracle.go:15-28 | 24 bytes, each field read back by an unsigned little-endian read at its offset |
| `OracleMessages.MessageInjective` | contract/oracle.go:33-37 | no two publications share a message |
| `OracleMessages.ReadersAgree` | contract/settlement.go:310-315 | the covenant and Go read the same field exactly when it is below 2^63 |
| `OracleMessages.CovenantReadsTheMessage` | contract/settlement.go:310-315 | the covenant reads back exactly what the oracle wrote, for fields below 2^63 |
| `OracleMessages.PriceReadsExactly` | contract/arbitration.go:77-102 | a price is read exactly from a signed message of 24 bytes whose price field is between 1 and 2^62, and is that field |
| `OracleMessages.PriceFromIsTheCovenantsPrice` | contract/arbitration.go:77-102 | a price Go reads out of a message is the one the covenant reads, signed and positive |
| `OracleMessages.ServiceAndCovenantPayTheSame` | contract/arbitration.go:53-102 | every accepted spend on a message Go can read pays exactly the Go split at that price |
| `SettlementFlow.Packet.AddEmulatorPacket` | arkade/settle.go:116-137 | the extension goes in before a final anchor, in place |
| `SettlementFlow.ExtensionMovesOnlyTheAnchor` | arkade/settle.go:114-115 | the extension is added and nothing is lost, no output index the covenant inspects shifts, and an anchor stays last |
| `SettlementFlow.BuildSettlement` | service/internal/app/settlement.go:53-83 | from a signed pair to the outputs that are submitted |
| `SettlementFlow.SettlementsAreMadeOf` | service/internal/app/settlement.go:53-83 | built for every valid contract and readable price: one input, short, long, packet, empty anchor |
| `SettlementFlow.BuiltSettlementIsAccepted` | arkade/settle.go:72-112 | what the service builds is accepted if and only if the pair entitles it and the predecessor is signed |
| `SettlementFlow.EveryContractCanBeSettled` | contract/settlement.go:288-305 | no valid contract is unspendable: any two messages in a row, the second calling for settlement, give a transaction that is accepted |
| `OracleLog.StepKeepsInv` | service/internal/postgres/oracle.go:32-76 | every step of every publisher keeps the log dense and appends only |
| `OracleLog.LogIsDense` | service/internal/postgres/oracle.go:24-31 | in every run, with failures and crashes, the sequences are 1 to n, every row signs its own fields, at most one publisher is between lock and commit |
| `OracleLog.LogIsAppendOnly` | service/internal/postgres/oracle.go:57-67 | a published row is never changed or lost |
| `OracleLog.RowsAreAsStamped` | service/internal/postgres/oracle.go:24-76 | in every run each row carries the time and price that the publisher which committed it had read last |
| `OracleLog.InsertNeverCollides` | service/internal/postgres/oracle.go:45-63 | the sequence about to be inserted is free |
| `OracleLog.PairsAreAdjacent` | service/internal/oracle/oracle.go:155-169 | a pair exists exactly for sequences 2 to n and is two neighbouring rows |
| `OracleLog.OracleStore.Append` | service/internal/postgres/oracle.go:32-76 | without a fault one more row: the next sequence, this time and this price, whose message reads back as the three and is what was signed; and for every fault the whole new table and what the caller hears |
| `OracleLog.AppendsExactly` | service/internal/postgres/oracle.go:32-76 | that row is written exactly when the price is positive, a sequence is left and nothing failed or the commit took all the same; the caller hears of it exactly when nothing failed |
| `OracleLog.AppendIsARun` | service/internal/postgres/oracle.go:32-76 | an append that finds the lock free is a run of the publishers' protocol by one publisher on that one reading, for every fault, and leaves the lock free |
| `OracleLog.OracleStore.LastSequence` | service/internal/postgres/oracle.go:45-50 | the greatest sequence there is, or zero |
| `OracleLog.OracleStore.LatestPair` | service/internal/oracle/oracle.go:143-149 | the last row and the one before it |
| `PriceShopping.StraddlingPairIsTheFirstMatured` | contract/settlement.go:97-103 | a pair straddles maturity exactly when its second row is the first at or past it |
| `PriceShopping.LogCrossesMaturity` | contract/settlement.go:97-103 | there is such a pair exactly when the log crosses maturity |
| `PriceShopping.AtMostThreeOutcomes` | contract/settlement.go:34-41 | the log leaves at most three splits open |
| `PriceShopping.AcceptedSpendUsesTheLog` | contract/settlement.go:97-103 | an accepted spend whose two messages are rows uses two neighbouring rows and pays the later one's split |
| `PriceShopping.NoPriceShopping` | contract/settlement.go:97-103 | whichever rows' messages a spender picks, from the whole log, any accepted spend pays one of those three splits |
| `PriceShopping.SettlesExactlyAtEntitlingPairs` | service/internal/app/settlement.go:53-87 | settling from a row works exactly when the pair entitles and the price is readable |
| `PriceShopping.MaturityCanBeSettled` | service/internal/app/settlement.go:53-87 | once the log has crossed maturity some pair settles the contract |
| `PriceShopping.GuardRefusesExactly` | service/internal/app/settlement.go:32-39 | the guard refuses exactly a latest price strictly inside the range before maturity |
| `PriceShopping.GuardAgainstCovenant` | service/internal/app/settlement.go:32-61 | a contract let through on the log at the request settles on the latest pair of the log at the work exactly when its predecessor is before maturity, it is not before the start, and a liquidation is still one |
| `PriceShopping.LiquidationMissed` | service/internal/app/settlement.go:32-61 | a liquidation whose price is back inside when the worker comes is refused, although its own pair still settles |
| `PriceShopping.DipIsMissed` | service/internal/app/settlement.go:32-61 | a contract and three publications that are such a case |
| `PriceShopping.MissedMaturityStaysMissed` | service/internal/app/settlement.go:58-61 | after two messages past maturity the guard passes and the latest pair is refused, on every later log |
| `PriceShopping.LateIsMissed` | service/internal/app/settlement.go:58-61 | a contract and three publications that are such a case |
| `Sweep.BuildLeaf` | contract/exit.go:53-64 | the builder loop emits the 2-of-3 leaf |
| `Sweep.Witness` | contract/exit.go:120-144 | the loop's witness is the first threshold signatures in script order, reversed, or an error |
| `Sweep.WitnessSpendsTheSweep` | contract/exit.go:108-119 | for any keys and signatures: a witness exists exactly when there are enough, carries exactly the threshold, and spends the leaf exactly when the chosen ones are valid |
| `Sweep.ValidSignaturesSuffice` | contract/exit.go:116-119 | extra signatures do no harm |
| `Sweep.OneSignatureTooMany` | contract/exit.go:116-119 | more than the threshold in the witness and the leaf refuses |
| `Arbitrations.FairShareIsFair` | contract/arbitration.go:150-165 | the shares add up, each is at least dust, nobody gains, nothing changes when nothing is missing, and the short is within one sat of proportion unless dust binds |
| `Arbitrations.ScaleIsFairWithoutOverflow` | contract/arbitration.go:160-164 | the int64 code computes that share if and only if the product of the two amounts fits 63 bits |
| `Arbitrations.OverflowUnderpaysTheShort` | contract/arbitration.go:160-164 | past that, the short is always paid less than its share |
| `Arbitrations.OverflowExample` | contract/arbitration.go:160-162 | a 40 bitcoin contract that owes the short 30 of them pays it 1332 sats |
| `Arbitrations.OverflowIsReached` | contract/arbitration.go:110-165 | from the terms, a signed price and the call on: that contract's arbitration pays the short those 1332 |
| `Arbitrations.SmallContractsNeverOverflow` | contract/arbitration.go:160-160 | up to 3,037,000,499 sats the product fits |
| `Arbitrations.ArbitratesExactly` | contract/arbitration.go:110-148 | there is an arbitration exactly with a sweep, a valid contract, a readable price, and two dust outputs after the fee |
| `Arbitrations.ArbitrationPaysEverything` | contract/arbitration.go:110-148 | every arbitration spends the sweep alone, pays the two own scripts all that is available after the fee, dust at least on each side, and carries the evidence and a price that splits as it |
| `Arbitrations.VerifyArbitration` | contract/arbitration.go:173-202 | accepts exactly what the evidence gives over one input, panics exactly on a transaction without inputs, and says which rule was broken |
| `Arbitrations.BuiltArbitrationVerifies` | contract/arbitration.go:167-172 | everything the service builds is accepted |
| `Arbitrations.VerifiedArbitrationIsExact` | contract/arbitration.go:167-202 | everything accepted pays the two lock scripts amounts that sum to what is available after the fee, and the fair share when the product fits |
| `Arbitrations.ExitsExactly` | contract/exit.go:166-192 | there is an exit exactly when the fee leaves dust, the sweep is there and the delay can be encoded; one input with the delay's sequence, one output with the rest |
| `Arbitrations.ExitLeavesExactly` | contract/vtxo.go:151-160 | the leaf's CHECKSEQUENCEVERIFY (BIP 112) and the chain (BIP 68) let the exit through exactly from the delay on, in blocks or in seconds |
| `Arbitrations.LeavingNeedsBothFees` | contract/exit.go:167-192 | exit and arbitration can both be built exactly when the payout covers two dust outputs and both fees |
| `Arbitrations.ExitConserves` | contract/arbitration.go:110-165 | the two stakes are the two arbitrated amounts plus the two fees |
| `ArbitrationStore.StoreMixesFirstAndLast` | service/internal/postgres/arbitrations.go:28-41 | after any number of proposals the row holds the first transaction and the last signatures |
| `ArbitrationStore.ServiceSignatureSurvives` | service/internal/app/exit.go:109-149 | the service's stored signature is good for the stored transaction exactly when the last price gives the first one's share |
| `ArbitrationStore.PayOutNeedsTwoGood` | service/internal/domain/arbitration.go:44-45 | the stored signatures spend the sweep exactly when the first two there are, in script order, are good |
| `ArbitrationStore.OnePartyIsStuck` | contract/arbitration.go:15-19 | with a stale service signature no single party can be paid |
| `ArbitrationStore.SignatureGoesStale` | service/internal/app/exit.go:109-149 | one contract, two signed prices: the stored service signature is bad and a lone party is not paid |
| `ContractStore.ComesFrom` | service/internal/domain/state.go:64-84 | the table the other way round: from where each state can be come to |
| `ContractStore.ContractRepo.Create` | service/internal/postgres/contracts.go:32-42 | the row, then its event, in two statements |
| `ContractStore.ContractRepo.Get` | service/internal/postgres/contracts.go:44-53 | a copy of the row as it stands, or nothing |
| `ContractStore.ContractRepo.Write` | service/internal/postgres/contracts.go:140-169 | every column of the copy when the state still matches, a conflict otherwise |
| `ContractStore.ContractRepo.Advance` | service/internal/postgres/contracts.go:99-128 | for any copy, row and fault: the whole new store and log, the error, and the object moved or moved back |
| `ContractStore.AdvancesExactly` | service/internal/postgres/contracts.go:99-128 | a move succeeds exactly when it is allowed, nothing failed and the row was in the copy's state; then the row is the copy in the new state with its event, and otherwise nothing changed but for a commit that took |
| `ContractStore.ContractRepo.Save` | service/internal/postgres/contracts.go:136-138 | the whole copy again without a move or an event |
| `ContractStore.SavesExactly` | service/internal/postgres/contracts.go:136-169 | success exactly when nothing failed and the state matched; the row is the copy then, or when a failed commit took |
| `ContractStore.AuditTrailAgrees` | service/internal/domain/state.go:64-131 | after any calls by anyone with any copies and faults, every contract's moves chain from its proposal through allowed transitions to the state of its row |
| `ContractStore.EndedContractsStay` | service/internal/domain/state.go:103-107 | an ended contract never moves and is never written again, whatever copy is presented |
| `Redemptions.SignTapscript` | contract/redemption.go:276-333 | in place, one signature over this transaction on every input for every leaf that names the key, or an error |
| `Redemptions.SigningSigns` | contract/redemption.go:270-276 | after signing, every leaf that names the key carries its signature, the other party's stay, nobody else's appear |
| `Redemptions.Redemption.Sign` | service/internal/app/redemption.go:210-227 | transaction, checkpoints, flag; on an error the flags are untouched |
| `Redemptions.SplitCheckCannotWrap` | contract/redemption.go:145-155 | two amounts above dust that add up in int64 add up |
| `Redemptions.ProposesExactly` | service/internal/app/redemption.go:26-126 | there is a proposal exactly for a party, a contract with the second leaf, and amounts that add up and clear both dust limits, asked for or the formula's |
| `Redemptions.ProposalsAreAsAsked` | service/internal/app/redemption.go:42-96 | each side gets what was asked for it, without evidence, or the formula's split with the message that was read; signed by its proposer alone |
| `Redemptions.ProposalsAreMadeOf` | contract/redemption.go:47-115 | the two payouts and the anchor, one checkpoint, and on each one input revealing the leaf of both parties and the operator |
| `Redemptions.ProposalsAreSound` | service/internal/app/redemption.go:26-96 | whatever is proposed pays both sides' own scripts what it says, sums to the payout, is the formula's split when priced, spends the contract's outpoint, and has true flags |
| `Redemptions.CountersignsExactly` | service/internal/app/redemption.go:128-205 | a party signs exactly what it has not signed, adds up, clears the dust, and agrees with its own evidence; nothing else about the proposal changes |
| `Redemptions.CountersigningKeepsSound` | service/internal/app/redemption.go:128-158 | and stays so when the other party signs |
| `Redemptions.ProposalsCanBeCountersigned` | service/internal/app/redemption.go:128-158 | every proposal a party makes can be signed by the other, and then carries both signatures |
| `Redemptions.SignedTwiceExactly` | service/internal/arkadeadapter/arkadeadapter.go:216-222 | a packet both sides have signed carries two signatures, by the same key if and only if both sides have the same key |
| `Lifecycle.OpensExactly` | service/internal/app/contracts.go:31-75 | a position opens exactly for positive numbers, two dust outputs, and a price strictly inside its range |
| `Lifecycle.OpeningIsAnOffer` | service/internal/app/contracts.go:53-123 | an opened position is the creator alone on the side they chose, for the payout they asked, at a price strictly inside its own range; its nominal scales back to the hedge, there is no leverage, and range, times, keys and delay are the offer's and the moment's |
| `Lifecycle.StakesAreWorthTheHedge` | service/internal/app/contracts.go:125-172 | the short's stake at the opening price is worth the cents hedged to within one sat, dust aside, and the long puts in the rest |
| `Lifecycle.OffersThatCanBeTaken` | service/internal/app/contracts.go:131-182 | an offer can be taken exactly when its scaled nominal is still positive and the operator accepts the contract it makes |
| `Lifecycle.JoiningAgrees` | service/internal/app/contracts.go:131-192 | the acceptor gets the free side with their own key and script, the creator keeps theirs, each stake is what the covenant would pay back at the opening price, and nothing else of the contract changes but its address |
| `Lifecycle.PresignExit` | service/internal/app/funding.go:127-191 | the loop over both sides gives a package of this outpoint's exit with both signatures verified, or nothing |
| `Lifecycle.PresignsExactly` | service/internal/app/funding.go:127-191 | a package is made exactly when both signatures verify over the one exit, and is those two and no landing |
| `Lifecycle.RequestsMoveExactly` | service/internal/domain/state.go:64-84 | for every request, copy and row: which states it moves a contract from and to, guard and table taken together; leaving needs the exit, arbitrating its landing |
| `Lifecycle.SavesOrStops` | service/internal/app/funding.go:89-104 | a worker goes on with a funding only when the row took it |
| `Lifecycle.StepKeepsFrozen` | service/internal/postgres/contracts.go:99-169 | every step of every actor keeps copies, row, workers and proposals consistent |
| `Lifecycle.NothingAgreedIsLost` | service/internal/app/contracts.go:107-192 | in every run of any number of handlers and workers, no write changes users, terms, keys, stakes or address once a contract has left the offer; the stakes always sum to the payout |
| `Lifecycle.SubmittedClosesAreSafe` | service/internal/app/redemption.go:255-282 | in every such run, what reaches the operator carries on every packet one signature of each party over what is spent and paid and no other, pays the payout, and is the formula's split when priced |
| `Lifecycle.ClosesAreSignedByBoth` | service/internal/app/redemption.go:158-172 | in every run, a contract that is redeeming or redeemed has a proposal that both signed |
| `Lifecycle.FlagsAlwaysMatch` | service/internal/domain/redemption.go:40-58 | every stored or held proposal's packets carry exactly one signature of each side its flags name, and no other |
| `LiveContracts.StepKeepsExit` | service/internal/app/funding.go:89-111 | every step of anybody keeps row, package and all workers' half-finished work in agreement, but for a reject of a funding row without outpoint or exit and a second funding |
| `LiveContracts.LiveContractsCanBeExited` | service/internal/app/funding.go:83-191 | with any number of workers and crashes, and neither of those two, a contract active or beyond records its outpoint for ever and holds the complete, verified exit of exactly that outpoint, with the sequence of its own delay, whatever anybody does from then on |
| `LiveContracts.LiveContractsLeaveOnTime` | contract/exit.go:150-192 | and that exit passes the exit leaf and the chain exactly from the contract's own delay on |
| `LiveContracts.SubmittedClosesSpendTheContract` | service/internal/app/redemption.go:255-282 | in such a run, every early close handed to the operator spends the recorded outpoint through the leaf both signed |
| `LiveContracts.RejectOfFundingIsSafeExactly` | service/internal/app/redemption.go:230-246 | a reject that takes a funding row leaves a contract that can be exited if and only if its copy names the outpoint and the exit is stored |
| `LiveContracts.RejectLosesTheWorkExactly` | service/internal/app/redemption.go:230-246 | a worker done with settling, closing or leaving records it after a reject if and only if the rejecting copy is not of the row's state; either way the contract can be exited, in every continuation |
| `LiveContracts.OneWorkerIsCareful` | service/internal/app/worker.go:70-104 | with one worker, crashing and starting over, no funding comes back while another is claimed |
| `LiveContracts.OneFundingIsCareful` | service/internal/app/funding.go:83-88 | nor with any number of workers when the operator funds the contract once |
| `LiveContracts.FundsOnlyWhatIsUnrecorded` | service/internal/app/funding.go:89-103 | one worker only ever calls Fund for a funding row without an outpoint |
| `LiveContracts.UnguardedRejectActivatesTheUnfunded` | service/internal/app/redemption.go:230-246 | without a guard a contract becomes active with no funding and no exit |
| `LiveContracts.TwoWorkersLoseTheExit` | service/internal/postgres/contracts.go:93-98 | two workers and two fundings can leave a contract active at an outpoint its exit does not spend |
| `SecondFundings.SecondFundingIsHarmfulExactly` | service/internal/postgres/contracts.go:93-98 | wherever a funding comes back to a funding contract with two or more workers: some run without a further funding or careless reject ends live and without its exit if and only if the row or a worker already names an outpoint |
| `EarlyCloses.SignedCloseSurvivesExactly` | service/internal/app/redemption.go:94-158 | a close with both signatures is still stored after a step if and only if the step is not a proposal from an active copy, a signature on an older proposal, or a drop |
| `EarlyCloses.SignedCloseIsSubmitted` | service/internal/app/redemption.go:255-282 | in every run without those three, a worker that has the redeeming contract submits that very close |
| `EarlyCloses.LateProposalDisplacesTheSigned` | service/internal/app/redemption.go:94-104 | from a fresh proposal a contract gets to redeeming with both signatures stored, and an old active copy's proposal then leaves one signature and nothing to submit |
| `Landings.LandingStaysExactly` | service/internal/postgres/exits.go:22-50 | a step loses a recorded landing if and only if it is a signing that did not see the package, and replaces it only when an exit found unlanded lands somewhere else |
| `Landings.OneWorkerKeepsTheLanding` | service/internal/app/exit.go:50-72 | in every run with one worker, a contract that is exited or beyond has its landing on record, and the record never changes |
| `Landings.StrandedForEver` | service/internal/app/exit.go:82-97 | an exited contract without a landing, and without a worker still leaving, stays exited in every run |
| `Landings.LateSigningStrandsTheContract` | service/internal/postgres/exits.go:22-50 | two workers and one funding get there from a fresh proposal |
| `Worker.App.PutExit` | service/internal/postgres/exits.go:26-50 | a stored package takes nothing but where the exit landed; a failed write may have taken |
| `Worker.App.PutPending` | service/internal/postgres/arbitrations.go:22-43 | a stored proposal takes the signatures and the txid alone; a failed write may have taken |
| `Worker.App.RecordFunding` | service/internal/app/funding.go:90-104 | the collateral is asked for only when no outpoint is recorded, and goes on only when it is, for every outcome |
| `Worker.App.PresignExit` | service/internal/app/funding.go:127-191 | a package that is read back is left alone, otherwise what is signed is stored, as far as the write takes |
| `Worker.App.FinishFunding` | service/internal/app/funding.go:89-111 | exactly FundingDone, for every outcome, faults included |
| `Worker.App.FinishRedeeming` | service/internal/app/redemption.go:255-282 | the signed close handed over, dropped and recorded, as far as each took, for every outcome |
| `Worker.App.FinishExiting` | service/internal/app/exit.go:50-72 | exactly ExitingDone, for every outcome, faults included |
| `Worker.App.FinishArbitrating` | service/internal/app/exit.go:248-270 | nothing below two signatures; then paid, recorded and moved on, as far as each took, for every outcome |
| `Worker.App.AdvanceOne` | service/internal/app/worker.go:106-148 | one attempt at one contract, giving up included: its row, exit, close, arbitration and what was submitted for it, and nothing of another, for every outcome |
| `Worker.App.Tick` | service/internal/app/worker.go:86-104 | every outstanding contract is attempted once and nothing else changes, for every outcome of every attempt; nothing at all when the list cannot be read |
| `Worker.TickIsARun` | service/internal/app/worker.go:106-148 | what a tick does to a contract's row, exit, close and submissions, whatever fails in it, is a run of the protocol |
| `Worker.TicksFollowTheTable` | service/internal/app/worker.go:58-68 | a tick moves a contract along an allowed transition, and one past its time always moves when its write takes |
| `Worker.LateTicksGiveBack` | service/internal/app/worker.go:58-68 | past its time a step goes back to where it was begun from, a funding is written off, and nothing that was not done is recorded as done |
| `Worker.SettlesExactly` | service/internal/app/settlement.go:53-97 | settled is recorded exactly when the settlement was made |
| `Worker.RedeemsExactly` | service/internal/app/redemption.go:255-282 | redeemed exactly when the close both signed was handed over and dropped; what was submitted and what is left of it, for every outcome |
| `Worker.LeavesExactly` | service/internal/app/exit.go:50-72 | exited exactly when a landing is on record, the one there was or the one there is now, for every outcome |
| `Worker.PaysExactly` | service/internal/app/exit.go:248-270 | arbitrated exactly when two had signed and it was paid, with the transaction that paid it, for every outcome |
| `Worker.FundsExactly` | service/internal/app/funding.go:89-191 | active exactly when an outpoint is on record and the exit is there or was signed and stored, a complete exit of that outpoint, for every outcome |
| `Worker.StepsEnd` | service/internal/app/worker.go:22-29 | no tick later than one give-up time whose own write takes leaves a step unfinished, or two for a funding recorded in between |

## Left out

- Elliptic curves, hashing, taproot trees and addresses, PSBT encoding: functions given as parameters. A signature is
  an uninterpreted predicate, and where a hash must not collide on two scripts the lemma says so.
- The machine's own rules beyond those the script uses, its compute limits and its clean-stack policy: the emulator's
  code is not part of this model. A witness has four items, a field read past the end of a message faults, and
  CHECKSIGFROMSTACK pushes false for a bad signature, which the VERIFY after it turns into the same refusal.
- `LiveContracts.LiveContractsLeaveOnTime`: that the sequence arklib computes stands for the delay is a hypothesis;
  arklib's code is not part of this model.
- Pushes longer than 75 bytes: no valid contract has one.
- `offchain.BuildTxs` is taken to lay out the outputs it is given in order, followed by the anchor.
- Prices from the future: that timestamps do not run backwards is a hypothesis (`PriceShopping.Clocked`), because a
  publisher reads its clock before it asks for the lock. That nobody else signs with the oracle's key is the hypothesis
  that a spend's two messages are rows' (`PriceShopping.FromTheLog`).
- PostgreSQL: a row read, a compare-and-swap update, an upsert, a transaction that commits or rolls back and a
  statement whose failure may or may not have taken are the whole of it. Under READ COMMITTED an update re-reads the
  row it waited for, which is what makes the compare-and-swap atomic. The CHECK that stakes sum to the payout is not
  modelled; the sum is proved without it.
- A retry by the database driver.
- `Lifecycle.Next`: handlers may use any copy ever stored and any party's name; checks that only refuse more (party
  membership, balances, the settlement guard) are not repeated there. Arbitration's
  own moves are, its stored proposal is in `ArbitrationStore`.
- `Lifecycle.Allows`: the exit package that leaving and arbitrating read is the one stored when they move the row.
- `Lifecycle.Taken`: the operator's acceptance rules are a predicate on the contract, and parsing its keys cannot fail.
- `Lifecycle.Opened`: maturity is given in seconds rather than computed from a duration.
- `Worker.App.Tick`: the order of outstanding contracts, and interference during a tick; `Lifecycle.Next` has the
  interference. Settling, which writes nothing before its last step, succeeds or fails as a whole there.
- `Worker.StepsEnd`: a tick takes no time, so the time an attempt itself lasts comes on top.
- `Redemptions.SignTapscript`: signatures are recorded by key, leaf and transaction, not computed.
- Ids of proposals are fresh (`Lifecycle.IsFresh`): uuids do not collide.
- `SecondFundings.SecondFundingIsHarmfulExactly`: that the exit is lost takes both parties' signatures on the first
  outpoint's exit, which the lemma asks for.
- `contract.VerifyRedemption`, which a wallet would run; the service's own checks are modelled.
- `Publisher`'s price field and ticker, `Contract.Covenant`'s key parsing, `Project`, users, sessions, events, the
  HTTP servers, the frontend, configuration and boot: transport, wiring and display.
- Submitting to arkd, the emulator, the chain and the wallets: outcomes that succeed or fail.
