/** Exactly when each instruction succeeds, on any ledger whatever, what it then leaves
    behind, and what each of its errors tells. */
module StepConditions {
  import opened Wrappers
  import opened Bytes
  import opened Members
  import opened State
  import opened Pda
  import opened Program

  // ---- initialize_multisig ----

  // The address the new multisig takes, and its rent.
  function NewAddress(env: Env, memberHash: Key, threshold: Byte): (Key, Byte) {
    env.find([109, 117, 108, 116, 105, 115, 105, 103] + memberHash + [threshold], env.programId)
  }

  function NewRent(env: Env, memberCount: Byte): nat { env.rent(22 + 32 * memberCount) }

  // Room, rent, the announced number of different members, a threshold they can reach, and their hash.
  ghost predicate MayInitialize(env: Env, l: Ledger, members: seq<Key>, memberHash: Key, threshold: Byte,
      memberCount: Byte, payer: Key)
  {
    && NewAddress(env, memberHash, threshold).0 !in l.multisigs
    && NewRent(env, memberCount) <= Balance(l.wallets, payer)
    && |members| == memberCount && 1 <= threshold <= |members| <= 30
    && (forall i, j | 0 <= i < j < |members| :: members[i] != members[j])
    && env.sha256(Flatten(Sort(members))) == memberHash
  }

  // The sorted members, the threshold and a counter at zero, stored at the address; the rent paid.
  ghost predicate HasInitialized(l: Ledger, after: Ledger, members: seq<Key>, threshold: Byte, at: (Key, Byte),
      space: nat, rent: nat, payer: Key)
  {
    && rent <= Balance(l.wallets, payer)
    && after.multisigs == l.multisigs[at.0 := MultisigAccount(Multisig(Sort(members), threshold, 0, at.1), space)]
    && after.proposals == l.proposals
    && after.wallets == l.wallets[payer := Balance(l.wallets, payer) - rent]
    && after.log == l.log + [Initialized(at.0, payer, rent)]
  }

  lemma NewAccount(env: Env, memberHash: Key, threshold: Byte, memberCount: Byte)
    ensures Derive(env, MultisigSeed(memberHash, threshold)) == NewAddress(env, memberHash, threshold)
    ensures ComputeMultisigSpace(memberCount) == 22 + 32 * memberCount
    ensures env.rent(ComputeMultisigSpace(memberCount)) == NewRent(env, memberCount)
  {
    SeedsLaidOut(memberHash, threshold, 0);
  }

  lemma ObjectionIff(members: seq<Key>, hash: Key, memberHash: Key, threshold: Byte, memberCount: Byte)
    ensures Objection(members, hash, memberHash, threshold, memberCount).None?
            <==> && |members| == memberCount && 1 <= threshold <= |members| <= 30
                 && (forall i, j | 0 <= i < j < |members| :: members[i] != members[j])
                 && hash == memberHash
  {}

  lemma AcceptsIff(env: Env, l: Ledger, remaining: seq<Key>, memberHash: Key, threshold: Byte, memberCount: Byte,
      payer: Key)
    ensures InitializeStep(env, l, remaining, memberHash, threshold, memberCount, payer).Ok?
            <==> && Derive(env, MultisigSeed(memberHash, threshold)).0 !in l.multisigs
                 && env.rent(ComputeMultisigSpace(memberCount)) <= Balance(l.wallets, payer)
                 && Objection(remaining, env.sha256(Flatten(Sort(remaining))), memberHash, threshold, memberCount).None?
  {}

  lemma InitializeOkIff(env: Env, l: Ledger, remaining: seq<Key>, memberHash: Key, threshold: Byte, memberCount: Byte,
      payer: Key)
    ensures InitializeStep(env, l, remaining, memberHash, threshold, memberCount, payer).Ok?
            <==> MayInitialize(env, l, remaining, memberHash, threshold, memberCount, payer)
  {
    NewAccount(env, memberHash, threshold, memberCount);
    AcceptsIff(env, l, remaining, memberHash, threshold, memberCount, payer);
    ObjectionIff(remaining, env.sha256(Flatten(Sort(remaining))), memberHash, threshold, memberCount);
  }

  lemma AcceptedLeaves(env: Env, l: Ledger, remaining: seq<Key>, memberHash: Key, threshold: Byte, memberCount: Byte,
      payer: Key)
    requires InitializeStep(env, l, remaining, memberHash, threshold, memberCount, payer).Ok?
    ensures var after := InitializeStep(env, l, remaining, memberHash, threshold, memberCount, payer).value;
            var space := ComputeMultisigSpace(memberCount);
            HasInitialized(l, after, remaining, threshold, Derive(env, MultisigSeed(memberHash, threshold)), space,
                           env.rent(space), payer)
  {
    AcceptsIff(env, l, remaining, memberHash, threshold, memberCount, payer);
    var (address, bump) := Derive(env, MultisigSeed(memberHash, threshold));
    var space := ComputeMultisigSpace(memberCount);
    var account := MultisigAccount(Multisig(Sort(remaining), threshold, 0, bump), space);
    var paid := Debit(l, payer, env.rent(space)).value;
    assert InitializeStep(env, l, remaining, memberHash, threshold, memberCount, payer).value
        == Record(paid.(multisigs := paid.multisigs[address := account]),
                  Initialized(address, payer, env.rent(space)));
  }

  lemma InitializeLeaves(env: Env, l: Ledger, remaining: seq<Key>, memberHash: Key, threshold: Byte, memberCount: Byte,
      payer: Key)
    requires InitializeStep(env, l, remaining, memberHash, threshold, memberCount, payer).Ok?
    ensures var after := InitializeStep(env, l, remaining, memberHash, threshold, memberCount, payer).value;
            HasInitialized(l, after, remaining, threshold, NewAddress(env, memberHash, threshold),
                           22 + 32 * memberCount, NewRent(env, memberCount), payer)
  {
    AcceptedLeaves(env, l, remaining, memberHash, threshold, memberCount, payer);
    NewAccount(env, memberHash, threshold, memberCount);
  }

  // What is wrong with the members given.
  ghost predicate Wrong(members: seq<Key>, hash: Key, memberHash: Key, threshold: Byte, memberCount: Byte, error: Error)
  {
    match error
    case InvalidMemberCount => |members| != memberCount
    case InvalidThreshold => threshold == 0 || threshold > |members|
    case TooManyMembers => |members| > 30
    case DuplicateMembers => exists i, j :: 0 <= i < j < |members| && members[i] == members[j]
    case InvalidPDA => hash != memberHash
    case _ => false
  }

  // The order in which things can go wrong; the first one is answered.
  function InitializeRank(error: Error): nat {
    match error
    case AccountAlreadyInUse => 0
    case InsufficientFunds => 1
    case InvalidMemberCount => 2
    case InvalidThreshold => 3
    case TooManyMembers => 4
    case DuplicateMembers => 5
    case _ => 6
  }

  lemma ObjectionTells(members: seq<Key>, hash: Key, memberHash: Key, threshold: Byte, memberCount: Byte)
    ensures var objection := Objection(members, hash, memberHash, threshold, memberCount);
            objection.Some? ==>
              && Wrong(members, hash, memberHash, threshold, memberCount, objection.value)
              && InitializeRank(objection.value) > 1
              && forall e | InitializeRank(e) < InitializeRank(objection.value) ::
                  !Wrong(members, hash, memberHash, threshold, memberCount, e)
  {}

  lemma RefusalTells(env: Env, l: Ledger, remaining: seq<Key>, memberHash: Key, threshold: Byte, memberCount: Byte,
      payer: Key)
    ensures var (at, rent) := (Derive(env, MultisigSeed(memberHash, threshold)).0,
                               env.rent(ComputeMultisigSpace(memberCount)));
            var r := InitializeStep(env, l, remaining, memberHash, threshold, memberCount, payer);
            var objection := Objection(remaining, env.sha256(Flatten(Sort(remaining))), memberHash, threshold,
                                       memberCount);
            && (at in l.multisigs ==> r == Err(AccountAlreadyInUse))
            && (at !in l.multisigs && Balance(l.wallets, payer) < rent ==> r == Err(InsufficientFunds))
            && (at !in l.multisigs && Balance(l.wallets, payer) >= rent && objection.Some? ==>
                  r == Err(objection.value))
  {}

  // What is wrong with the whole call.
  ghost predicate InitializeWrong(env: Env, l: Ledger, members: seq<Key>, memberHash: Key, threshold: Byte,
      memberCount: Byte, payer: Key, error: Error)
  {
    match error
    case AccountAlreadyInUse => NewAddress(env, memberHash, threshold).0 in l.multisigs
    case InsufficientFunds => Balance(l.wallets, payer) < NewRent(env, memberCount)
    case _ => Wrong(members, env.sha256(Flatten(Sort(members))), memberHash, threshold, memberCount, error)
  }

  // The answer of a call that fails is the first thing wrong with it.
  lemma InitializeErrors(env: Env, l: Ledger, remaining: seq<Key>, memberHash: Key, threshold: Byte,
      memberCount: Byte, payer: Key)
    requires InitializeStep(env, l, remaining, memberHash, threshold, memberCount, payer).Err?
    ensures var error := InitializeStep(env, l, remaining, memberHash, threshold, memberCount, payer).error;
            && InitializeWrong(env, l, remaining, memberHash, threshold, memberCount, payer, error)
            && forall e | InitializeRank(e) < InitializeRank(error) ::
                !InitializeWrong(env, l, remaining, memberHash, threshold, memberCount, payer, e)
  {
    AcceptsIff(env, l, remaining, memberHash, threshold, memberCount, payer);
    RefusalTells(env, l, remaining, memberHash, threshold, memberCount, payer);
    NewAccount(env, memberHash, threshold, memberCount);
    ObjectionTells(remaining, env.sha256(Flatten(Sort(remaining))), memberHash, threshold, memberCount);
  }

  // ---- create_transaction ----

  // What the program demands of an instruction, in numbers.
  ghost predicate TakenInstruction(ix: CompiledInstruction, keyCount: nat) {
    && |ix.accountIndexes| <= 64 && |ix.data| <= 1024
    && ix.programIdIndex != 0 && ix.programIdIndex < keyCount
    && forall j | 0 <= j < |ix.accountIndexes| :: ix.accountIndexes[j] < keyCount
  }

  // And of a message: 1 to 128 different keys, the vault first and the only
  // signer, which is writable; 1 to 16 instructions; no lookup tables.
  ghost predicate TakenMessage(m: TransactionMessage, vault: Key) {
    && 1 <= |m.accountKeys| <= 128 && m.accountKeys[0] == vault
    && (forall i, j | 0 <= i < j < |m.accountKeys| :: m.accountKeys[i] != m.accountKeys[j])
    && m.numSigners == 1 && m.numWritableSigners == 1 && 1 + m.numWritableNonSigners <= |m.accountKeys|
    && 1 <= |m.instructions| <= 16 && |m.addressTableLookups| == 0
    && forall k | 0 <= k < |m.instructions| :: TakenInstruction(m.instructions[k], |m.accountKeys|)
  }

  lemma WellFormedIff(m: TransactionMessage, vault: Key)
    ensures WellFormed(m, vault) <==> TakenMessage(m, vault)
  {
    if WellFormed(m, vault) {
      forall k | 0 <= k < |m.instructions| ensures TakenInstruction(m.instructions[k], |m.accountKeys|) {
        assert SmallInstruction(m.instructions[k]) && InstructionInBounds(m.instructions[k], |m.accountKeys|);
      }
    }
    if TakenMessage(m, vault) {
      forall k | 0 <= k < |m.instructions|
        ensures SmallInstruction(m.instructions[k]) && InstructionInBounds(m.instructions[k], |m.accountKeys|)
      {
        assert TakenInstruction(m.instructions[k], |m.accountKeys|);
      }
    }
  }

  // The index the multisig's next proposal gets.
  function NextIndex(l: Ledger, multisig: Key): nat
    requires multisig in l.multisigs
  {
    l.multisigs[multisig].data.transactionIndex + 1
  }

  // The ledger with the proposal stored, its rent paid, the counter advanced and the event logged.
  ghost predicate HasCreated(env: Env, l: Ledger, after: Ledger, multisig: Key, creator: Key, payer: Key,
      vaultIndex: Byte, m: TransactionMessage)
  {
    && multisig in l.multisigs && NextIndex(l, multisig) < U64_LIMIT
    && var account, id := l.multisigs[multisig], ProposalId(multisig, NextIndex(l, multisig));
    && var space := ComputeProposalSpace(m, |account.data.members|);
    && var tx := VaultTransaction(multisig, id.index, creator, payer, DeriveTransaction(env, multisig, id.index).1,
                                  vaultIndex, DeriveVault(env, multisig, vaultIndex).1, false, [], m);
    && after.multisigs == l.multisigs[multisig := account.(data := account.data.(transactionIndex := id.index))]
    && after.proposals == l.proposals[id := ProposalAccount(tx, space, env.rent(space))]
    && env.rent(space) <= Balance(l.wallets, payer)
    && after.wallets == l.wallets[payer := Balance(l.wallets, payer) - env.rent(space)]
    && after.log == l.log + [Created(id, payer, env.rent(space), m)]
  }

  ghost predicate MayCreate(env: Env, l: Ledger, multisig: Key, creator: Key, payer: Key, vaultIndex: Byte,
      m: TransactionMessage)
  {
    && multisig in l.multisigs && NextIndex(l, multisig) < U64_LIMIT
    && ProposalId(multisig, NextIndex(l, multisig)) !in l.proposals
    && var members := l.multisigs[multisig].data.members;
    && creator in members && ComputeProposalSpace(m, |members|) <= 10240
    && env.rent(ComputeProposalSpace(m, |members|)) <= Balance(l.wallets, payer)
    && TakenMessage(m, DeriveVault(env, multisig, vaultIndex).0)
  }

  lemma CreateOkIff(env: Env, l: Ledger, multisig: Key, creator: Key, payer: Key, vaultIndex: Byte,
      m: TransactionMessage)
    ensures var r := CreateStep(env, l, multisig, creator, payer, vaultIndex, m);
            && (r.Ok? <==> MayCreate(env, l, multisig, creator, payer, vaultIndex, m))
            && (r.Ok? ==> HasCreated(env, l, r.value, multisig, creator, payer, vaultIndex, m))
  {
    WellFormedIff(m, DeriveVault(env, multisig, vaultIndex).0);
  }

  ghost predicate CreateWrong(env: Env, l: Ledger, multisig: Key, creator: Key, payer: Key, vaultIndex: Byte,
      m: TransactionMessage, error: Error)
  {
    if multisig !in l.multisigs then error == AccountNotInitialized else
    var members := l.multisigs[multisig].data.members;
    match error
    case TransactionIndexOverflow => NextIndex(l, multisig) >= U64_LIMIT
    case AccountAlreadyInUse =>
      NextIndex(l, multisig) < U64_LIMIT && ProposalId(multisig, NextIndex(l, multisig)) in l.proposals
    case AllocationTooLarge => ComputeProposalSpace(m, |members|) > 10240
    case InsufficientFunds => Balance(l.wallets, payer) < env.rent(ComputeProposalSpace(m, |members|))
    case UnauthorizedMember => creator !in members
    case InvalidMessage => !TakenMessage(m, DeriveVault(env, multisig, vaultIndex).0)
    case _ => false
  }

  function CreateRank(error: Error): nat {
    match error
    case AccountNotInitialized => 0
    case TransactionIndexOverflow => 1
    case AccountAlreadyInUse => 2
    case AllocationTooLarge => 3
    case InsufficientFunds => 4
    case UnauthorizedMember => 5
    case _ => 6
  }

  lemma CreateErrors(env: Env, l: Ledger, multisig: Key, creator: Key, payer: Key, vaultIndex: Byte,
      m: TransactionMessage)
    requires CreateStep(env, l, multisig, creator, payer, vaultIndex, m).Err?
    ensures var error := CreateStep(env, l, multisig, creator, payer, vaultIndex, m).error;
            && CreateWrong(env, l, multisig, creator, payer, vaultIndex, m, error)
            && forall e | CreateRank(e) < CreateRank(error) ::
                !CreateWrong(env, l, multisig, creator, payer, vaultIndex, m, e)
  {
    WellFormedIff(m, DeriveVault(env, multisig, vaultIndex).0);
  }

  // ---- approve, execute, close ----

  // The proposal is stored and carries its own name.
  predicate Found(l: Ledger, multisig: Key, index: U64) {
    && multisig in l.multisigs && ProposalId(multisig, index) in l.proposals
    && l.proposals[ProposalId(multisig, index)].data.multisig == multisig
    && l.proposals[ProposalId(multisig, index)].data.transactionIndex == index
  }

  function DataOf(l: Ledger, multisig: Key, index: U64): VaultTransaction
    requires Found(l, multisig, index)
  {
    l.proposals[ProposalId(multisig, index)].data
  }

  // What is wrong with a call on a proposal that is not found.
  ghost predicate NotFound(l: Ledger, multisig: Key, index: U64, error: Error) {
    var id := ProposalId(multisig, index);
    match error
    case AccountNotInitialized => multisig !in l.multisigs || id !in l.proposals
    case InvalidTransaction => id in l.proposals && l.proposals[id].data.multisig != multisig
    case InvalidTransactionIndex => id in l.proposals && l.proposals[id].data.transactionIndex != index
    case _ => false
  }

  lemma ApproveOkIff(l: Ledger, multisig: Key, index: U64, member: Key)
    ensures var r := ApproveStep(l, multisig, index, member);
            && (r.Ok? <==>
                  && Found(l, multisig, index)
                  && !DataOf(l, multisig, index).executed && member !in DataOf(l, multisig, index).approvals
                  && member in l.multisigs[multisig].data.members)
            && (r.Ok? ==>
                  var id, a := ProposalId(multisig, index), l.proposals[ProposalId(multisig, index)];
                  var voted := a.(data := a.data.(approvals := a.data.approvals + [member]));
                  r.value == Ledger(l.multisigs, l.proposals[id := voted], l.wallets, l.log + [Approved(id, member)]))
  {}

  ghost predicate ApproveWrong(l: Ledger, multisig: Key, index: U64, member: Key, error: Error) {
    || NotFound(l, multisig, index, error)
    || (Found(l, multisig, index) &&
        match error
        case AlreadyExecuted => DataOf(l, multisig, index).executed
        case UnauthorizedMember => member !in l.multisigs[multisig].data.members
        case AlreadyApproved => member in DataOf(l, multisig, index).approvals
        case _ => false)
  }

  // The order in which approve, execute and close find fault.
  function ProposalRank(error: Error): nat {
    match error
    case AccountNotInitialized => 0
    case UnauthorizedCloser => 1
    case InvalidTransaction => 2
    case InvalidTransactionIndex => 3
    case AlreadyExecuted => 4
    case InsufficientApprovals | UnauthorizedMember => 5
    case InvalidMessage | AlreadyApproved => 6
    case InsufficientRemainingAccounts => 7
    case _ => 8
  }

  lemma ApproveErrors(l: Ledger, multisig: Key, index: U64, member: Key)
    requires ApproveStep(l, multisig, index, member).Err?
    ensures var error := ApproveStep(l, multisig, index, member).error;
            && ApproveWrong(l, multisig, index, member, error)
            && forall e | ProposalRank(e) < ProposalRank(error) :: !ApproveWrong(l, multisig, index, member, e)
  {}

  // Enough votes, and the accounts of the message first among those given.
  ghost predicate MayStart(l: Ledger, multisig: Key, index: U64, remaining: seq<Key>) {
    && Found(l, multisig, index)
    && var tx := DataOf(l, multisig, index);
    && !tx.executed && |tx.approvals| >= l.multisigs[multisig].data.threshold
    && |tx.message.accountKeys| <= 256 && tx.message.accountKeys <= remaining
  }

  // The ledger with the proposal marked executed and its start logged.
  function Started(l: Ledger, multisig: Key, index: U64): Ledger
    requires Found(l, multisig, index)
  {
    var id, a := ProposalId(multisig, index), l.proposals[ProposalId(multisig, index)];
    Ledger(l.multisigs, l.proposals[id := a.(data := a.data.(executed := true))], l.wallets,
           l.log + [Event.Started(id, a.data.approvals)])
  }

  lemma StartOkIff(l: Ledger, multisig: Key, index: U64, remaining: seq<Key>)
    ensures var r := StartStep(l, multisig, index, remaining);
            && (r.Ok? <==> MayStart(l, multisig, index, remaining))
            && (r.Ok? ==> r.value == Started(l, multisig, index))
  {}

  ghost predicate StartWrong(l: Ledger, multisig: Key, index: U64, remaining: seq<Key>, error: Error) {
    || NotFound(l, multisig, index, error)
    || (Found(l, multisig, index) &&
        var tx := DataOf(l, multisig, index);
        match error
        case AlreadyExecuted => tx.executed
        case InsufficientApprovals => |tx.approvals| < l.multisigs[multisig].data.threshold
        case InvalidMessage => |tx.message.accountKeys| > 256
        case InsufficientRemainingAccounts => |remaining| < |tx.message.accountKeys|
        case AccountMismatch => !(tx.message.accountKeys <= remaining)
        case _ => false)
  }

  lemma StartErrors(l: Ledger, multisig: Key, index: U64, remaining: seq<Key>)
    requires StartStep(l, multisig, index, remaining).Err?
    ensures var error := StartStep(l, multisig, index, remaining).error;
            && StartWrong(l, multisig, index, remaining, error)
            && forall e | ProposalRank(e) < ProposalRank(error) :: !StartWrong(l, multisig, index, remaining, e)
  {}

  lemma CloseOkIff(l: Ledger, multisig: Key, index: U64, payer: Key)
    ensures var r := CloseStep(l, multisig, index, payer);
            && (r.Ok? <==> Found(l, multisig, index) && DataOf(l, multisig, index).payer == payer)
            && (r.Ok? ==>
                  var id, a := ProposalId(multisig, index), l.proposals[ProposalId(multisig, index)];
                  r.value == Ledger(l.multisigs, l.proposals - {id},
                                    l.wallets[payer := Balance(l.wallets, payer) + a.lamports],
                                    l.log + [Closed(id, payer, a.lamports)]))
  {}

  ghost predicate CloseWrong(l: Ledger, multisig: Key, index: U64, payer: Key, error: Error) {
    || NotFound(l, multisig, index, error)
    || (error == UnauthorizedCloser && ProposalId(multisig, index) in l.proposals
        && l.proposals[ProposalId(multisig, index)].data.payer != payer)
  }

  lemma CloseErrors(l: Ledger, multisig: Key, index: U64, payer: Key)
    requires CloseStep(l, multisig, index, payer).Err?
    ensures var error := CloseStep(l, multisig, index, payer).error;
            && CloseWrong(l, multisig, index, payer, error)
            && forall e | ProposalRank(e) < ProposalRank(error) :: !CloseWrong(l, multisig, index, payer, e)
  {}

  // ---- the CPI a compiled instruction stands for ----

  // Program and accounts by index; signers are the first slots, and writable are
  // the first of those and the first of the rest, as the header counts them.
  ghost predicate StandsFor(m: TransactionMessage, ix: CompiledInstruction, cpi: Invocation) {
    && ix.programIdIndex < |m.accountKeys| && cpi.program == m.accountKeys[ix.programIdIndex] && cpi.data == ix.data
    && |cpi.metas| == |ix.accountIndexes|
    && forall j | 0 <= j < |cpi.metas| ::
        var i := ix.accountIndexes[j];
        && i < |m.accountKeys| && cpi.metas[j].key == m.accountKeys[i]
        && (cpi.metas[j].isSigner <==> i < m.numSigners)
        && (cpi.metas[j].isWritable
            <==> i < m.numWritableSigners || m.numSigners <= i < m.numSigners + m.numWritableNonSigners)
  }

  lemma ResolveIff(m: TransactionMessage, ix: CompiledInstruction, cpi: Invocation)
    ensures Resolve(m, ix) == Some(cpi) <==> StandsFor(m, ix, cpi)
  {
    if StandsFor(m, ix, cpi) {
      forall j | 0 <= j < |ix.accountIndexes| ensures ix.accountIndexes[j] < |m.accountKeys| {
        assert cpi.metas[j].key == m.accountKeys[ix.accountIndexes[j]];
      }
      assert cpi.metas == Metas(m, ix.accountIndexes);
    }
  }

  // ---- calls in a row, and the loop over CPIs ----

  // Calls made one after the other, each on what the last one left.
  ghost predicate OneAfterOther(env: Env, calls: seq<Call>, states: seq<Ledger>) {
    |states| == |calls| + 1 && forall k | 0 <= k < |calls| :: Apply(env, states[k], calls[k]) == Ok(states[k + 1])
  }

  ghost predicate Leads(env: Env, l: Ledger, calls: seq<Call>, after: Ledger) {
    exists states :: OneAfterOther(env, calls, states) && states[0] == l && states[|calls|] == after
  }

  // The last state of a chain is where its calls end.
  lemma {:induction false} ChainEnds(env: Env, calls: seq<Call>, states: seq<Ledger>)
    requires OneAfterOther(env, calls, states)
    ensures ApplyAll(env, states[0], calls) == Ok(states[|calls|])
    decreases |calls|
  {
    if calls == [] {
    } else {
      var rest := states[1..];
      assert Apply(env, states[0], calls[0]) == Ok(rest[0]);
      forall k | 0 <= k < |calls[1..]| ensures Apply(env, rest[k], calls[1..][k]) == Ok(rest[k + 1]) {
        assert Apply(env, states[k + 1], calls[k + 1]) == Ok(states[k + 2]);
      }
      ChainEnds(env, calls[1..], rest);
    }
  }

  lemma ChainExtends(env: Env, l: Ledger, calls: seq<Call>, rest: seq<Ledger>)
    requires calls != [] && OneAfterOther(env, calls[1..], rest) && Apply(env, l, calls[0]) == Ok(rest[0])
    ensures OneAfterOther(env, calls, [l] + rest)
    ensures ([l] + rest)[0] == l && ([l] + rest)[|calls|] == rest[|calls[1..]|]
  {
    var states := [l] + rest;
    forall k | 0 <= k < |calls| ensures Apply(env, states[k], calls[k]) == Ok(states[k + 1]) {
      if k > 0 { assert Apply(env, rest[k - 1], calls[1..][k - 1]) == Ok(rest[k]); }
    }
  }

  // Calls that succeed leave such a chain.
  lemma {:induction false} ChainOf(env: Env, l: Ledger, calls: seq<Call>) returns (states: seq<Ledger>)
    requires ApplyAll(env, l, calls).Ok?
    ensures OneAfterOther(env, calls, states) && states[0] == l
    ensures states[|calls|] == ApplyAll(env, l, calls).value
    decreases |calls|
  {
    if calls == [] {
      states := [l];
    } else {
      var next := Apply(env, l, calls[0]).value;
      var rest := ChainOf(env, next, calls[1..]);
      ChainExtends(env, l, calls, rest);
      states := [l] + rest;
    }
  }

  // A list of calls succeeds iff each does on what the one before it left.
  lemma CallsOkIff(env: Env, l: Ledger, calls: seq<Call>, after: Ledger)
    ensures ApplyAll(env, l, calls) == Ok(after) <==> Leads(env, l, calls, after)
  {
    if ApplyAll(env, l, calls) == Ok(after) {
      var states := ChainOf(env, l, calls);
    }
    if Leads(env, l, calls, after) {
      var states :| OneAfterOther(env, calls, states) && states[0] == l && states[|calls|] == after;
      ChainEnds(env, calls, states);
    }
  }

  // A transaction leaves what its calls lead to, or, if they lead nowhere, nothing changed.
  lemma SubmitLeaves(env: Env, l: Ledger, tx: seq<Call>, after: Ledger)
    ensures Submit(env, l, tx) == after
            <==> Leads(env, l, tx, after) || (l == after && !exists other :: Leads(env, l, tx, other))
  {
    CallsOkIff(env, l, tx, after);
    match ApplyAll(env, l, tx)
    case Ok(other) => CallsOkIff(env, l, tx, other);
    case Err(_) => forall other ensures !Leads(env, l, tx, other) { CallsOkIff(env, l, tx, other); }
  }

  // The k-th instruction's CPI is logged; it returns, and so does all it calls back.
  ghost predicate Returned(env: Env, before: Ledger, id: ProposalId, m: TransactionMessage, k: nat, cpis: seq<Cpi>,
      cpi: Invocation, after: Ledger)
  {
    && k < |m.instructions| && StandsFor(m, m.instructions[k], cpi)
    && var made := before.(log := before.log + [Invoked(id, k, cpi)]);
    if k < |cpis| then cpis[k].Returns? && Leads(env, made, cpis[k].calls, after) else after == made
  }

  // From the k-th instruction on, one after the other.
  ghost predicate LoopLeads(env: Env, l: Ledger, id: ProposalId, m: TransactionMessage, k: nat, cpis: seq<Cpi>,
      after: Ledger)
    decreases |m.instructions| - k
  {
    if k >= |m.instructions| then l == after
    else exists cpi, next ::
      Returned(env, l, id, m, k, cpis, cpi, next) && LoopLeads(env, next, id, m, k + 1, cpis, after)
  }

  // One pass of the loop.
  lemma PassIff(env: Env, l: Ledger, id: ProposalId, m: TransactionMessage, k: nat, cpis: seq<Cpi>, cpi: Invocation,
      next: Ledger)
    requires k < |m.instructions|
    ensures Returned(env, l, id, m, k, cpis, cpi, next) <==>
              && Resolve(m, m.instructions[k]) == Some(cpi)
              && var made := Record(l, Invoked(id, k, cpi));
              (if k >= |cpis| then next == made
               else cpis[k].Returns? && ApplyAll(env, made, cpis[k].calls) == Ok(next))
  {
    ResolveIff(m, m.instructions[k], cpi);
    if k < |cpis| && cpis[k].Returns? { CallsOkIff(env, Record(l, Invoked(id, k, cpi)), cpis[k].calls, next); }
  }

  // The loop ends well iff every instruction resolves, every CPI returns, and
  // everything they call back succeeds.
  lemma {:induction false} LoopOkIff(env: Env, l: Ledger, id: ProposalId, m: TransactionMessage, k: nat,
      cpis: seq<Cpi>, after: Ledger)
    requires k <= |m.instructions|
    ensures ApplyCpis(env, l, id, m, k, cpis) == Ok(after) <==> LoopLeads(env, l, id, m, k, cpis, after)
    decreases |m.instructions| - k
  {
    if k == |m.instructions| {
    } else {
      forall cpi, next | Returned(env, l, id, m, k, cpis, cpi, next)
        ensures ApplyCpis(env, l, id, m, k, cpis) == ApplyCpis(env, next, id, m, k + 1, cpis)
      {
        PassIff(env, l, id, m, k, cpis, cpi, next);
      }
      forall cpi, next | Returned(env, l, id, m, k, cpis, cpi, next)
        ensures ApplyCpis(env, next, id, m, k + 1, cpis) == Ok(after) <==>
                  LoopLeads(env, next, id, m, k + 1, cpis, after)
      {
        LoopOkIff(env, next, id, m, k + 1, cpis, after);
      }
      if ApplyCpis(env, l, id, m, k, cpis).Ok? { PassMade(env, l, id, m, k, cpis); }
    }
  }

  // A loop that ends well has passed its first instruction.
  lemma PassMade(env: Env, l: Ledger, id: ProposalId, m: TransactionMessage, k: nat, cpis: seq<Cpi>)
    requires k < |m.instructions| && ApplyCpis(env, l, id, m, k, cpis).Ok?
    ensures exists cpi, next :: Returned(env, l, id, m, k, cpis, cpi, next)
  {
    var cpi := Resolve(m, m.instructions[k]).value;
    var made := Record(l, Invoked(id, k, cpi));
    var next := if k >= |cpis| then made else ApplyAll(env, made, cpis[k].calls).value;
    PassIff(env, l, id, m, k, cpis, cpi, next);
  }

  // An execution succeeds iff it may start and its loop ends well, and leaves what the loop leads to.
  lemma ExecuteOkIff(env: Env, l: Ledger, multisig: Key, index: U64, remaining: seq<Key>, cpis: seq<Cpi>, after: Ledger)
    ensures Apply(env, l, Execute(multisig, index, remaining, cpis)) == Ok(after) <==>
              && MayStart(l, multisig, index, remaining)
              && LoopLeads(env, Started(l, multisig, index), ProposalId(multisig, index),
                           DataOf(l, multisig, index).message, 0, cpis, after)
  {
    StartOkIff(l, multisig, index, remaining);
    if MayStart(l, multisig, index, remaining) {
      LoopOkIff(env, Started(l, multisig, index), ProposalId(multisig, index), DataOf(l, multisig, index).message, 0,
                cpis, after);
    }
  }
}
