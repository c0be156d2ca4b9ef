# SSP Solana multisig: what a device signs is what the program executes

This project models three connected parts of the SSP Solana multisig and proves that they
keep one promise: the payment a signing device accepted is the payment the on-chain program
makes, at most once, and only with the consent of enough members.

- **The program.** `Program` gives the five state-changing instructions as steps on stored
  accounts; a step that invokes other programs takes as input everything those programs call
  back, to any depth. `Chain` gives the handlers as they run, on cached
  account copies with an early flush and a write-back at exit, and proves that they amount to
  those steps. `Safety` proves the invariant over every call tree, `Guarantees` reads the
  promises off it for every reachable ledger, `Completion` proves that what started also ran to
  the end and in order, and `Rent` follows the deposits.
- **The message compiler.** `Builder` is the SDK's walk from account-level instructions to
  indexes and a three-count header; `Compilation` proves that the program's execute loop reads
  back what was compiled, and exactly when the program accepts the result.
- **The decoder and its gates.** `Codecs`, `State` and `Reader` are Borsh and the SDK's
  bounds-checked reader; `Bundle` sorts the outer instructions; `Classifier` judges the inner
  ones; `FundFlows` matches them with the payload on display; `Enterprise`, `Proposals` and
  `Consumer` are the three gates. `Money` says what running a message does to balances, and
  `SignedIsExecuted` puts verdicts and runs together; `Settlement` carries the result to the
  events of a committed ledger, and `Submission` there from the outer transaction, read as the
  program's calls. `ExecuteBinding`, `AtaFunding` and `OrderFree` say exactly when three promises
  of the gates hold (with `Replacing` for bundles that differ in one instruction), and
  `ExecuteExamples` shows bundles in which one does not. `HonestSend` and `HonestTokenSend` show
  that the consumer gate lets through what an honest wallet builds, and `HonestCommit` that the
  program then carries it out.

What each operation means is also said without the predicates it is specified by, on the bytes,
keys and numbers a reader of the source sees. `BorshForm` gives the place of every field of an
account and a message. `StepConditions` gives, on any ledger, exactly when each instruction
succeeds, what it leaves, and that an error is the first condition that fails; `Founding` starts from an empty chain and
ends with money moved. `BuilderMeaning` reads the compiled message off the instructions.
`VerdictMeaning`, `BundleMeaning` and `FlowMeaning` do this for inner instructions, outer
instructions and the comparison of flows; `GateMeaning`, `AgreementMeaning` and `StoredMeaning`
put them together into the rules of the three gates, and prove that a gate accepts iff every
rule is kept.

`Bytes`, `Members`, `Pda` and `Ids` hold keys, orderings, address derivation and constants.

How the model is set up:

- SHA-256, the program-address search, rent and the strict UTF-8 test are the functions of
  `Pda.Env`, and every theorem holds for all of them. No hash is assumed injective: the
  theorems that need it (`CanonicalBinding`, and `ActsOnTheCreated` with what rests on it) ask
  for the absence of a collision on their own inputs only.
- A program invoked by CPI is an arbitrary tree of calls back into this program, or a failure
  (`Program.Cpi`). Any error undoes the whole top-level transaction.
- A text address is a key or no key (`Ids.Address`); a text amount is a number or none
  (`Ids.Amount`). Reported mismatches are counted, and a gate accepts when the count is zero.
- A reachable ledger is what any sequence of transactions makes of an empty chain.

Where code and comments differ, the model follows the code.

- The comparison of an enterprise bundle is documented as binding every execute to the shown
  proposal. The code compares only executes that list two accounts, in bundles that create a
  proposal. `ExecuteBinding.ExecutePinnedIff` and `AcceptanceBindsIff` prove that this is
  exactly when an accepted verdict binds an execute; `ExecuteExamples` gives, for every send,
  accepted bundles of both remaining kinds.
- The enterprise allowlist is documented as taking, of the associated-token program, creations
  funded by the fee payer. The code compares the first account and never looks at the data:
  `AtaFunding.TakesMoreIff` is the exact condition under which it takes anything else, and
  `AtaFunding.OnlyTheFunderIsRead` proves that nothing but the funder affects a decode. (The
  consumer gate does check the data.)
- The recipient comparison is documented as a multiset match. The code takes the first fit. For
  native payloads this is the same (`FundFlows.NativeMatchIff`). In general it succeeds in
  every order of its lists iff everyone can be paired and no two lines compete
  (`OrderFree.OrderFreeIff`), and `OrderFree.PairableButRefused` gives a message for which it
  refuses a payload that can be paired.

## Model

| member | source | states |
|---|---|---|
| Bytes.U64Bijection | sdk/src/decoder.ts:114-126 | every u64 has one eight-byte little-endian form and every eight bytes are one |
| Bytes.FlattenInjective | programs/solana-multisig/src/lib.rs:1226-1232 | the bytes fed to the member hash determine the member list |
| Members.Compare | sdk/src/utils.ts:76-87 | the comparator's sign is exactly the byte-lexicographic order, zero only for equal keys |
| Members.SortedPermutationUnique | programs/solana-multisig/src/lib.rs:1218-1222 | a sorted rearrangement is unique, so both libraries' sorts agree |
| Members.FindDuplicate | programs/solana-multisig/src/lib.rs:117-124 | sorting a copy and comparing neighbours finds a duplicate iff there is one, also for account keys (lines 270-278) |
| Codecs.PairSound | programs/solana-multisig/src/lib.rs:934-988 | two fields one after the other round-trip and are canonical if each is |
| Codecs.VecSound | programs/solana-multisig/src/lib.rs:934-988 | so does a length-prefixed vector of anything that does |
| State.MessageSound | programs/solana-multisig/src/lib.rs:934-988 | messages decode from their encoding wherever it stands, and whatever decodes consumed exactly its encoding |
| State.ProposalSound | programs/solana-multisig/src/lib.rs:882-918 | the same for whole proposals |
| State.MultisigSizeExact | programs/solana-multisig/src/lib.rs:1243-1249 | the space formula is the Borsh length of the account |
| State.ProposalSizeExact | programs/solana-multisig/src/lib.rs:1267-1290 | the same for a proposal with the approvals it has |
| Reader.ReadU64LE | sdk/src/decoder.ts:244-253 | the shift loop yields the little-endian value |
| Reader.ByteReader.U32 | sdk/src/decoder.ts:283-288 | reads exactly what a positional decoder reads, or fails at the same point |
| Reader.ByteReader.Bool | sdk/src/decoder.ts:297-301 | only 0 and 1 are booleans |
| Reader.ByteReader.Pubkeys | sdk/src/decoder.ts:350-354 | the counted loop is the vector decoder, for any count |
| Reader.ByteReader.InstructionList | sdk/src/decoder.ts:356-365 | the same for instructions |
| Reader.ByteReader.LookupList | sdk/src/decoder.ts:367-372 | lookups are counted and passed over exactly |
| Reader.ParseTransactionMessage | sdk/src/decoder.ts:342-375 | for every byte string the parse ends with the message the codec decodes, abridged, at the same position, or with none when there is none |
| Pda.SeedsNeverCollide | programs/solana-multisig/src/lib.rs:1008-1046 | seed bytes, with or without bump, determine the family and every field |
| Pda.HashMembers | sdk/src/utils.ts:93-99 | feeding members one at a time hashes their concatenation |
| Pda.AddressIgnoresOrder | sdk/src/utils.ts:113-127 | the multisig address is the same for every order of the members |
| Chain.ValidateMessage | programs/solana-multisig/src/lib.rs:182-345 | the sequence of checks accepts exactly the well-formed messages for that vault |
| Chain.BuildCpi | programs/solana-multisig/src/lib.rs:556-620 | metas and account infos of a CPI, slot by slot, program last, or a bounds error |
| Chain.Runtime.Exit | programs/solana-multisig/src/lib.rs:474-481 | write-back replaces a live account's data, skips a closed one, and fails only when the data outgrew it |
| Chain.Runtime.InitializeMultisig | programs/solana-multisig/src/lib.rs:89-152 | the handler, checks and all, is the initialize step |
| Chain.Runtime.CreateTransaction | programs/solana-multisig/src/lib.rs:164-375 | the handler on cached copies is the create step, and neither write-back can fail |
| Chain.Runtime.ApproveTransaction | programs/solana-multisig/src/lib.rs:378-426 | the handler is the approve step, and the longer approval list always fits |
| Chain.Runtime.BeginExecution | programs/solana-multisig/src/lib.rs:453-521 | checks, flag and early flush leave in storage exactly the cached copy |
| Chain.Runtime.RunCpis | programs/solana-multisig/src/lib.rs:549-628 | the loop, with everything called back, is the direct loop over stored accounts |
| Chain.Runtime.ExecuteTransaction | programs/solana-multisig/src/lib.rs:445-640 | the handler with its exit write-back is the execute step: nothing called back is overwritten |
| Chain.WriteBackIsIdle | programs/solana-multisig/src/lib.rs:474-481 | at exit the stored proposal equals the cached one or is closed |
| Chain.Runtime.CloseTransaction | programs/solana-multisig/src/lib.rs:668-698 | the handler is the close step |
| Chain.Runtime.SubmitTransaction | programs/solana-multisig/src/lib.rs:622-625 | a transaction commits whole or restores everything, and keeps the invariant |
| Safety.ApplyKeeps | programs/solana-multisig/src/lib.rs:445-640 | every call, with every re-entrant tree below it, keeps the invariant and only extends the past |
| Safety.CpisKeep | programs/solana-multisig/src/lib.rs:549-628 | so does the CPI loop from any point on |
| Safety.RunKeeps | programs/solana-multisig/src/lib.rs:164-698 | so does any run of transactions |
| Guarantees.AtMostOnce | programs/solana-multisig/src/lib.rs:449-481 | no proposal starts its CPI loop twice and no CPI of it is made twice, under any re-entrancy |
| Guarantees.IndexesAreFresh | programs/solana-multisig/src/lib.rs:347-352 | no index is issued twice; every issued index is in 1..counter |
| Guarantees.LaterNeverUndoes | programs/solana-multisig/src/lib.rs:656-661 | counters never fall, members never change, executed proposals stay frozen, closed ones never return |
| Guarantees.ThresholdConsent | programs/solana-multisig/src/lib.rs:467-471 | whatever started had at least threshold distinct members' approvals, each given by that member's own call, with 1 <= threshold <= members <= 30 |
| Guarantees.StoredProposals | programs/solana-multisig/src/lib.rs:378-426 | a stored proposal stands under its own index with distinct member votes, and is marked executed iff it started, with those votes |
| Guarantees.OnlyTheCreatedMessageRuns | programs/solana-multisig/src/lib.rs:549-628 | every CPI is an instruction of the created message, with the vault its only and writable signer and never its program |
| Guarantees.ExecuteFailsOnlyInCpi | programs/solana-multisig/src/lib.rs:492-521 | once stored, approved and given its accounts, no check in execute can fail: only a called program can |
| Guarantees.CachedSeedsDeriveSlotZero | programs/solana-multisig/src/lib.rs:529-537 | the cached index and bump derive exactly account_keys[0] |
| Guarantees.StorageFitsExactly | programs/solana-multisig/src/lib.rs:1251-1290 | in every reachable state data plus the votes still to come fill the allocation exactly; multisigs fit exactly |
| Guarantees.CanonicalBinding | programs/solana-multisig/src/lib.rs:126-134 | whoever initialised it, the multisig at the address of (M, t) is sorted M with threshold t, short of a collision on those inputs |
| Guarantees.OnlyThatMessageRuns | programs/solana-multisig/src/lib.rs:354-365 | all CPIs ever made for a proposal come from the one message it was created with |
| Guarantees.StoredIsEncodable | programs/solana-multisig/src/lib.rs:882-988 | whatever a reachable ledger stores has a Borsh form |
| Completion.CpisFinish | programs/solana-multisig/src/lib.rs:549-628 | a loop that ends without error has invoked every instruction, and so has every execution nested in it |
| Completion.StartedIsFinished | programs/solana-multisig/src/lib.rs:445-640 | in a committed ledger every instruction of every started proposal was invoked: all or nothing |
| Completion.InOrder | programs/solana-multisig/src/lib.rs:399-412 | per proposal: created, then approved by different members, then started, then its instructions in order; nothing approved or started after closing |
| Rent.RunConserves | programs/solana-multisig/src/lib.rs:1034-1062 | over any run each key's wallet, deposits in live proposals and sunk multisig rent keep their sum |
| Rent.RefundMatchesDeposit | programs/solana-multisig/src/lib.rs:1128-1150 | a close refunds once, in full, the deposit made at create, to the key that made it |
| Builder.AccountTable.Observe | sdk/src/utils.ts:174-187 | the map holds each key's OR of flags so far, in order of first appearance |
| Builder.FlagsAreOrs | sdk/src/utils.ts:181-184 | a key is signer or writable iff some appearance says so |
| Builder.BuildMessageFromInstructions | sdk/src/utils.ts:165-247 | the built message is the compiled form: four tiers, three counts, indexes by position modulo 256; the splice never happens |
| Builder.VaultFirst | sdk/src/utils.ts:207-215 | the vault heads the writable signers, so the defensive splice is dead code |
| Compilation.KeysUniqueVaultFirst | sdk/src/utils.ts:199-224 | account keys are exactly the mentioned keys, once each, vault first |
| Compilation.SlotFlags | programs/solana-multisig/src/lib.rs:575-587 | the flags the program reads off the header are the ORs of the key's flags |
| Compilation.CompileThenExecute | programs/solana-multisig/src/lib.rs:549-620 | executing the compiled instruction invokes the same program with the same accounts, flags and data |
| Compilation.IndexResolvesIffBelow256 | sdk/src/utils.ts:233-237 | past 256 keys an index leads back to its key iff the key's slot is below 256 |
| Compilation.BuilderMeetsProgram | sdk/src/utils.ts:165-247 | the program accepts a built message iff the vault is sole signer, there are 1 to 16 instructions, at most 128 keys, 64 accounts and 1024 bytes each, and no program is the vault |
| Bundle.ParseBundle | sdk/src/decoder.ts:601-687 | the bundle is that of the instructions in order, or none iff some create does not decode |
| Bundle.BundledParses | sdk/src/decoder.ts:622-684 | each bucket lists exactly its kind's instructions, in order |
| Bundle.InOneBucket | sdk/src/decoder.ts:622-684 | a position is in a bucket iff its instruction is of that kind |
| Bundle.PositionsAscend | sdk/src/decoder.ts:622-684 | a bucket keeps the order of the transaction |
| Bundle.EntriesDescribe | sdk/src/decoder.ts:622-684 | every entry describes the instruction at its position |
| Bundle.BucketSizes | sdk/src/decoder.ts:622-684 | the eight buckets together hold every instruction once |
| Bundle.FlagUnknown | sdk/src/decoder.ts:742-783 | flagged are exactly the positions that are alien, funded by another than the fee payer, or a budget not opted into, repeated or over its cap |
| Classifier.ClassifyTransfer | sdk/src/decoder.ts:455-484 | a transfer adds to recipients or to the fee iff the vault pays it, and nothing if a lookup throws |
| Classifier.ClassifyTokenTransfer | sdk/src/decoder.ts:485-511 | a token transfer adds a recipient iff the vault authorises it and every lookup succeeds |
| Classifier.ClassifyOne | sdk/src/decoder.ts:448-530 | one pass adds what the verdict on that instruction says, also when a lookup throws midway |
| Classifier.ClassifyInnerMessage | sdk/src/decoder.ts:423-533 | the accumulators are the tallies of the verdicts, lookups counted as unknown |
| Classifier.ClassificationLosesNothing | sdk/src/decoder.ts:441-532 | recipients, fees, memos and unknowns add up to instructions plus lookups |
| Classifier.LamportsAccountedFor | sdk/src/decoder.ts:455-484 | native recipients and fees add up to all recognised transfers out of the vault |
| Classifier.ResolveAtaOwner | sdk/src/decoder.ts:536-557 | a token recipient is credited to the owner iff it is one of the owner's two associated accounts |
| FundFlows.MatchRecipients | sdk/src/decoder.ts:1012-1038 | no mismatch iff first-fit matching finds everyone expected and leaves nobody over |
| FundFlows.GreedySound | sdk/src/decoder.ts:1012-1038 | a successful match is a bijection respecting names and amounts |
| FundFlows.TotalsAgree | sdk/src/decoder.ts:1012-1038 | and the totals agree |
| FundFlows.NativeMatchIff | sdk/src/decoder.ts:1012-1038 | for native recipients it succeeds iff the (address, amount) multisets are equal |
| FundFlows.FirstFitIsExact | sdk/src/decoder.ts:1012-1038 | where lines that share a candidate share all candidates, it succeeds iff any complete pairing exists |
| FundFlows.FirstFitCanRefuse | sdk/src/decoder.ts:1012-1038 | elsewhere it may not: an owner expected before one of its own two accounts takes that account's place |
| OrderFree.OrderFreeIff | sdk/src/decoder.ts:1012-1038 | it succeeds in every order of both lists iff a complete pairing exists and lines that share a candidate share all candidates |
| OrderFree.PairableButRefused | sdk/src/decoder.ts:968-1074 | a message whose view meets every other condition and can be paired with the payload, yet is refused |
| FundFlows.CompareFundFlows | sdk/src/decoder.ts:968-1074 | no mismatch iff nothing is unknown, the fee is within its cap and to the expected payer, the recipients pair up and every asset is the expected one |
| FundFlows.ViewMessage | sdk/src/decoder.ts:823-836 | what is shown is the classification of the message, recipients attributed when asked |
| Enterprise.DecodeVaultTransaction | sdk/src/decoder.ts:733-881 | the decode describes the bundle in every field, or is undecodable exactly when something required is missing |
| Enterprise.CompareDecodedToExpected | sdk/src/decoder.ts:1111-1244 | no mismatch iff the decode matches the payload in every respect |
| Enterprise.AgreementBindsEveryInstruction | sdk/src/decoder.ts:1150-1231 | with no mismatch every outer instruction is allowed, every create and approve names the decoded proposal, and so does every execute that lists two accounts beside a create |
| ExecuteBinding.ExecutePinnedIff | sdk/src/decoder.ts:804-810 | an accepted verdict binds an execute to the decoded proposal iff the bundle creates it and the execute lists two accounts |
| ExecuteBinding.AcceptanceBindsIff | sdk/src/decoder.ts:1215-1231 | whatever accounts an execute might list, acceptance forces the proposal it names iff the bundle creates one |
| ExecuteBinding.ApproveOnlyLeavesExecutesFree | sdk/src/decoder.ts:1150-1194 | in any accepted approve-only request the accounts of an execute can be replaced by any others |
| ExecuteExamples.ApproveOnlyMayExecuteAnother | sdk/src/decoder.ts:1519-1610 | for every stored send, a bundle that approves it and executes any other proposal is accepted |
| ExecuteExamples.CreateMayExecuteNothing | sdk/src/decoder.ts:804-810 | for every created send, an execute that lists fewer than two accounts, whichever they are, is accepted |
| AtaFunding.OnlyTheFunderIsRead | sdk/src/decoder.ts:742-755 | putting any other associated-token instruction in the place of one leaves the decode as it was iff its funder is judged the same |
| AtaFunding.TakesMoreIff | sdk/src/decoder.ts:714-755 | the allowlist takes one that is no creation funded by the fee payer iff its first account is that payer but its data no creation's, or the payer is unknown, or no account is listed |
| AtaFunding.AnyDataAccepted | sdk/src/decoder.ts:742-755 | in any bundle the data of such an instruction can be replaced by any other without changing the decode |
| Proposals.AccountRoundTrip | sdk/src/decoder.ts:1318-1341 | an account with any unused tail reads back as the proposal stored in it |
| Proposals.AccountCanonical | sdk/src/decoder.ts:1318-1341 | whatever reads back, the data begins with exactly its encoding |
| Proposals.ReadAccount | sdk/src/decoder.ts:1318-1341 | the field-by-field read is the proposal codec |
| Proposals.DecodeVaultTransactionAccount | sdk/src/decoder.ts:1312-1392 | a report iff the data holds a proposal at its own canonical address, and the report is of that proposal |
| Proposals.CompareProposalToExpected | sdk/src/decoder.ts:1445-1506 | no mismatch iff open, of the multisig insisted on, debiting its own vault, with the flows on display |
| Proposals.VerifyApproveOnly | sdk/src/decoder.ts:1519-1610 | no mismatch iff the bundle and the fetched proposal are accepted together |
| Proposals.ApproveOnlyBinds | sdk/src/decoder.ts:1150-1193 | then every approval names the one multisig and the one proposal, no instruction creates another, and none is unknown |
| Proposals.ApproveOnlySound | sdk/src/decoder.ts:1519-1610 | and that proposal stands at its canonical address, belongs to that multisig, is unexecuted, debits its own vault and moves what is on display |
| Consumer.CheckBudgets | sdk/src/decoder.ts:1738-1772 | no mismatch iff every budget has a value within its cap and no tag repeats |
| Consumer.CheckApproves | sdk/src/decoder.ts:1795-1823 | no mismatch iff all approvals are different members' for the created proposal, one of them the signer's |
| Consumer.CheckAtaCreates | sdk/src/decoder.ts:1904-1949 | no mismatch iff at most one account is created, the recipient's own, at the fee payer's cost |
| Consumer.VerifyConsumerBundle | sdk/src/decoder.ts:1685-1976 | accepted iff the bundle and the view of its message are all they must be; what is returned is that view, its memos, and the proposal and vault it is of |
| Consumer.EveryInstructionAccounted | sdk/src/decoder.ts:1725-1846 | in an accepted bundle every outer instruction is of a permitted kind and names the multisig, proposal, member, funder or token account the gate compares; the rent payer of the create, the executor, the closing payer and the index arguments stay open, as in the code |
| Consumer.NothingTwice | sdk/src/decoder.ts:1725-1846 | and no two do the same: one nonce, account, create, execute, close; approvers and budget tags differ |
| Money.VerdictTrue | sdk/src/decoder.ts:455-526 | when a recognised instruction runs, it moves exactly what the verdict said, out of the vault |
| Money.UnknownTransferFails | sdk/src/decoder.ts:463-497 | in a message the program accepts, a transfer of SOL or tokens that is reported unknown fails on chain, whatever the balances |
| Money.OnlyWhatWasDecoded | sdk/src/decoder.ts:423-533 | with nothing unknown, all flows of a run are the decoded payments, in order, and the decoded fee |
| Money.RunNet | programs/solana-multisig/src/lib.rs:549-628 | over recognised instructions every balance moves by the flows and nothing else, wrapped SOL taking its lamports along |
| SignedIsExecuted.AcceptedIsPaid | sdk/src/decoder.ts:968-1074 | whenever a view was accepted, every successful run pays each expected recipient once, nobody else, and at most the fee cap, all on the vault's authority |
| SignedIsExecuted.EnterpriseCreatePays | sdk/src/decoder.ts:1111-1244 | so an accepted enterprise bundle creates a message that pays the payload on display |
| SignedIsExecuted.WhatYouSignIsWhatExecutes | sdk/src/decoder.ts:1685-1976 | every successful run of the message in an accepted consumer bundle makes exactly the one send asked for, from the expected vault, with fees within the cap |
| SignedIsExecuted.BalancesMoveByTheSend | sdk/src/decoder.ts:1685-1976 | and no balance of any key, of lamports or of tokens, moves except by that send (with its lamports, if it is of wrapped SOL) and that fee |
| SignedIsExecuted.WhatYouApproveIsWhatPays | sdk/src/decoder.ts:1519-1610 | every run of a stored proposal that an approve-only device accepted pays the payload on display, from the proposal's own vault |
| SignedIsExecuted.OnlyTheStoredMessageRuns | programs/solana-multisig/src/lib.rs:549-628 | whatever transactions come later, every CPI made for a stored proposal is an instruction of its stored message |
| Settlement.NothingOrTheWholeMessage | programs/solana-multisig/src/lib.rs:445-640 | in any reachable ledger a proposal has made no CPI, or, with a quorum's consent, exactly its message's instructions, once each and in order |
| Settlement.LoggedIsRun | programs/solana-multisig/src/lib.rs:549-628 | performing the logged CPIs is running the message |
| Settlement.WhatRanIsTheSend | sdk/src/decoder.ts:1685-1976 | what the ledger logs for the created proposal is nothing, or with a quorum the whole message, whose CPIs make the accepted send and nothing else |
| Settlement.WhatRanPaysThePayload | sdk/src/decoder.ts:1111-1244 | for a proposal created by an accepted enterprise bundle it is nothing, or the whole message, paying the payload on display |
| Settlement.WhatRanWasApproved | sdk/src/decoder.ts:1519-1610 | for a stored proposal that an approve-only device accepted it is nothing so far and, after any later transactions, nothing or the whole message the device saw, paying the payload on display |
| Submission.AcceptedCreateCommits | programs/solana-multisig/src/lib.rs:164-375 | the create of an accepted bundle, if it commits, stores the accepted message under the accepted multisig at the address the bundle names, takes its rent from the account listed as payer, advances the index, logs this, and writes nothing else |
| Submission.ActsOnTheCreated | programs/solana-multisig/src/lib.rs:1066-1150 | every approve, execute and close of an accepted bundle that passes its address check acts on the proposal the bundle created, short of an address collision |
| Submission.RunsAsTransaction | programs/solana-multisig/src/lib.rs:622-625 | an outer transaction that succeeds is one transaction of the program's calls |
| Submission.SubmittedIsTheSend | sdk/src/decoder.ts:1685-1976 | once an accepted bundle has been submitted and has committed, its votes, execute and close have acted on the proposal it created, and after any later transactions that proposal has run nothing, or with a quorum the whole accepted message, making the accepted send and nothing else |
| HonestSend.CreateDataReads | sdk/src/decoder.ts:377-389 | create_transaction data made of any encodable message reads back as that message and vault index |
| HonestSend.HonestSendAccepted | sdk/src/decoder.ts:1659-1976 | for any two members, recipient and amount, the bundle around the built message of a native send is accepted, and the program's checks pass |
| HonestSend.HonestSendPays | sdk/src/utils.ts:165-247 | and running that message moves exactly the amount whenever the vault has it |
| HonestCommit.SendCommits | programs/solana-multisig/src/lib.rs:164-698 | on any reachable ledger with the multisig's next index, two members that make a quorum and the rent, the bundle around any accepted message commits; the ledger ends as it began but for one index and the record created, approved twice, started, invoked in order, closed |
| HonestCommit.HonestSendSettles | sdk/src/utils.ts:165-247 | for a native send the same bundle is accepted by the gate and committed by the program, and what was invoked moves exactly the amount whenever the vault has it |
| HonestTokenSend.HonestTokenSendAccepted | sdk/src/decoder.ts:1659-1976 | so is a token send under either token program after a nonce advance, both compute budgets and the creation of the recipient's account |
| Bytes.LeastFirst | sdk/src/decoder.ts:244-253 | the least significant byte comes first |
| Members.FirstDifferenceDecides | sdk/src/utils.ts:76-87 | one key is less than another iff at the first byte in which they differ its byte is the smaller |
| Members.SortAscends | programs/solana-multisig/src/lib.rs:1218-1222 | the canonical list is the same keys, ascending |
| Pda.AddressesDerived | programs/solana-multisig/src/lib.rs:1008-1046 | the seeds of the three addresses, byte by byte, under the program itself |
| BorshForm.ProposalWritten | programs/solana-multisig/src/lib.rs:882-918 | a proposal is written multisig, index, creator, payer, bump, vault index, vault bump, executed flag, counted approvals, message |
| BorshForm.MultisigWritten | programs/solana-multisig/src/lib.rs:857-873 | a multisig is written counted members, threshold, counter, bump |
| BorshForm.MessageWritten | programs/solana-multisig/src/lib.rs:934-988 | a message is written three header bytes, counted keys, counted instructions, counted lookups, each of these field by field |
| BorshForm.ReadFromItsPlaces | sdk/src/decoder.ts:1318-1341 | whatever proposal is read in an account's data, each of its fields stands at its own place there: creator at 48, payer at 80, vault index at 113, executed flag at 115, approvals from 116, then the message |
| BorshForm.ReportedFromItsPlaces | sdk/src/decoder.ts:1343-1392 | each reported field is what stands at its place, and the default fee key is the payer's |
| BorshForm.CreatedFromItsPlaces | sdk/src/decoder.ts:377-389 | in create_transaction data the vault index is byte 8 and the message starts at byte 9 |
| StepConditions.InitializeOkIff | programs/solana-multisig/src/lib.rs:89-152 | on any ledger initialize succeeds iff the address is free, the rent is there, the count is right, the members are at most 30 different ones, 1 <= threshold <= their number, and the hash is that of the sorted members |
| StepConditions.InitializeLeaves | programs/solana-multisig/src/lib.rs:136-142 | and leaves the sorted members, that threshold and counter 0 at that address, the rent paid, nothing else changed |
| StepConditions.InitializeErrors | programs/solana-multisig/src/lib.rs:103-131 | a failing initialize answers the first condition that fails, in the order of the code |
| StepConditions.WellFormedIff | programs/solana-multisig/src/lib.rs:182-345 | the message rules in numbers: 1 to 128 different keys, vault first, one writable signer, 1 to 16 instructions, 64 accounts and 1024 bytes each, indexes in range, program not slot 0, no lookups |
| StepConditions.CreateOkIff | programs/solana-multisig/src/lib.rs:164-375 | create succeeds iff the creator is a member, the message is taken, the index and the space are in range and the rent is there; it then stores exactly that proposal under the next index |
| StepConditions.CreateErrors | programs/solana-multisig/src/lib.rs:164-375 | a failing create answers the first condition that fails |
| StepConditions.ApproveOkIff | programs/solana-multisig/src/lib.rs:378-426 | approve succeeds iff the proposal is found, open, and the member is of the multisig and has not voted; it adds that vote |
| StepConditions.ApproveErrors | programs/solana-multisig/src/lib.rs:378-426 | a failing approve answers the first condition that fails |
| StepConditions.StartOkIff | programs/solana-multisig/src/lib.rs:453-521 | execute starts iff the proposal is found, open, has threshold votes and its keys, at most 256, are the first accounts given |
| StepConditions.StartErrors | programs/solana-multisig/src/lib.rs:453-521 | an execute that may not start answers the first condition that fails |
| StepConditions.CloseOkIff | programs/solana-multisig/src/lib.rs:668-698 | close succeeds iff the proposal is found and the payer is the one recorded, who gets the deposit back |
| StepConditions.CloseErrors | programs/solana-multisig/src/lib.rs:668-698 | a failing close answers the first condition that fails |
| StepConditions.ResolveIff | programs/solana-multisig/src/lib.rs:556-620 | a CPI's program, accounts, data and flags, slot by slot by the header counts |
| StepConditions.ExecuteOkIff | programs/solana-multisig/src/lib.rs:445-640 | an execution succeeds iff it may start, every instruction resolves, every CPI returns and everything called back succeeds, each on the ledger the one before it left |
| StepConditions.SubmitLeaves | programs/solana-multisig/src/lib.rs:622-625 | a transaction leaves what its calls lead to one after the other, or nothing if one fails |
| Founding.PairOffers | programs/solana-multisig/src/lib.rs:89-152 | from an empty chain, any two members found a wallet that both must sign, and it is ready for a send of any message |
| Founding.FoundedPairSends | sdk/src/utils.ts:165-247 | that wallet's first native send is accepted by the gate, commits, and moves exactly the amount |
| BuilderMeaning.BuiltMeans | sdk/src/utils.ts:165-247 | the built message lists every key once, the vault first, in the slots its appearances ask for and otherwise in order of appearance, and every program and account by its slot |
| VerdictMeaning.VerdictMeans | sdk/src/decoder.ts:448-530 | each verdict is given iff the bytes and accounts of the instruction say so: tag, length, offsets of amount and decimals, the vault as source or authority, memos only where allowed |
| VerdictMeaning.TallyMeans | sdk/src/decoder.ts:423-533 | the lists and sums returned for a message are those of its instructions in order: recipients, reimbursed lamports, number of unrecognised positions plus lookups, and memo texts, none where memos are not allowed |
| VerdictMeaning.NoMemoPasses | sdk/src/decoder.ts:513-527 | with memos not allowed and nothing unknown, every instruction is a transfer or TransferChecked of the vault and the memo list is empty |
| VerdictMeaning.MemoIsTold | sdk/src/decoder.ts:513-527 | with memos allowed, a memo without accounts is unknown iff its data is not text, and otherwise its data is the next entry of the memo list |
| VerdictMeaning.OthersAreUnknown | sdk/src/decoder.ts:524-531 | an instruction of any other program counts as unknown |
| VerdictMeaning.DisplaysIff | sdk/src/decoder.ts:823-836 | a view is that of a message iff its recipients, as attributed, its fee and its unknown count are what the bytes of the message say |
| BundleMeaning.KindMeans | sdk/src/decoder.ts:622-684 | the program and the first four or eight bytes of the data tell the kind |
| BundleMeaning.CapsMean | sdk/src/decoder.ts:757-783 | a budget passes iff it is a five-byte limit or a nine-byte price no larger than the cap for its own tag; a cap that is no number lets nothing pass |
| BundleMeaning.AllowedMeans | sdk/src/decoder.ts:742-783 | the enterprise allowlist on bytes and accounts |
| FlowMeaning.FlowsMean | sdk/src/decoder.ts:968-1074 | the comparison accepts iff nothing is unknown, the fee is within its cap and goes where expected, everybody is paired and every asset is the one asked for |
| FlowMeaning.PairedServes | sdk/src/decoder.ts:1011-1038 | whoever is paired is named by address, account or owner and gets the amount of one line, one to one |
| GateMeaning.ConsumerAcceptsIff | sdk/src/decoder.ts:1685-1976 | the consumer gate accepts iff the instructions keep every rule: outside fee payer, nonce first, budgets within the cap of their tag, one create by a member debiting the vault asked for, votes of different members with the signer's among them, at most one execute, close and account creation, and one send |
| GateMeaning.ReportedMeans | sdk/src/decoder.ts:1951-1966 | what it hands back: the multisig, its derived vault, the proposal the create names and the memos of its message |
| AgreementMeaning.DecodesIff | sdk/src/decoder.ts:785-877 | a transaction decodes iff every approval has three accounts and there is one create with a message that has keys, or none but an approval |
| AgreementMeaning.CreateTold | sdk/src/decoder.ts:812-851 | what the decode of a create says of the instruction, of its message, and of the approvals and executes beside it |
| AgreementMeaning.ApprovalTold | sdk/src/decoder.ts:853-874 | what the decode of approvals says of the first one and of all of them |
| AgreementMeaning.MatchesIff | sdk/src/decoder.ts:1111-1244 | no mismatch iff the create, or every approval, names the multisig, the proposal, the vault and the vault index the payload insists on, everything else names the same proposal, and the flows agree |
| StoredMeaning.ReadableIff | sdk/src/decoder.ts:1318-1352 | an account is readable iff its data holds a proposal at the address derived from bytes 8 to 48 |
| StoredMeaning.StoredTold | sdk/src/decoder.ts:1312-1392 | what is reported is what the bytes hold and what the message moves, fees counted for the caller's choice, else the payload's, else the payer |
| StoredMeaning.AcceptedIff | sdk/src/decoder.ts:1519-1610 | the approve-only gate accepts iff the account the approvals name holds an open proposal of the multisig insisted on, debiting its own vault and moving what is on display, and all approvals are of it, the expected approver's among them |

## Left out

- RPC, address lookup tables, sending and confirming transactions, and wallet plumbing in `sdk/src/client.ts`: no property beyond the fetched bytes, which are the parameter `Fetch`.
- Wire parsing of the outer transaction, base58 and base64: a bundle starts as a list of program, keys and data.
- SHA-256, the address search with its bumps, the curve check and the inside of associated-account derivation: functions of `Env`.
- `provision_nonce` and the durable-nonce rules of the runtime, and the view instruction that only derives an address.
- Mismatch texts, logs, the sorted list of program names behind `unknownOuterPrograms` (here a set of positions) and the compute figures echoed by the consumer gate.
- Fractional numbers as caps or vault indexes, and empty strings where the SDK treats them as unset.
- Proposals are stored under their seeds (multisig, index), so a collision of two proposal addresses is outside the model; multisigs are stored under their derived addresses.
- Signatures inside a CPI: a program called back may present any signer, which gives re-entrant calls more power than the runtime does.
- Lamports sent to a proposal's address, before it exists or while it lives, rent exemption changes and fees of the transaction itself; lamports a called program moves are in `Money`, not in the ledger's wallets.
- Rent.RefundMatchesDeposit: the close pays out the deposit. Lamports that others send to a live proposal's account, which the close would sweep to the same payer, have no place in the model.
- Rent.RunConserves: for the same reason, the sum is over wallets, deposits and sunk rent alone.
- What the other programs of an outer transaction do when it is submitted (nonce, compute budget, account creation): `Submission` lets them pass without effect.
- Token-2022 extensions, frozen accounts and token multisignature authorities.
- Members.FindDuplicate: the two runtimes' library sorts are the function `Sort`, whose result is the only sorted rearrangement.
- Chain.BuildCpi: account infos are named by their keys; aliasing of the data behind two infos of one account is not modelled.
