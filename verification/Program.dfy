/** The five state-changing instructions, as steps on the stored accounts. A step
    that calls other programs takes as input everything those programs call back. */
module Program {
  import opened Wrappers
  import opened Bytes
  import opened Members
  import opened State
  import opened Pda

  const MAX_MEMBERS: nat := 30
  const MAX_TX_ACCOUNT_KEYS: nat := 128
  const MAX_TX_INSTRUCTIONS: nat := 16
  const MAX_INSTRUCTION_ACCOUNTS: nat := 64
  const MAX_INSTRUCTION_DATA_LEN: nat := 1024
  const MAX_COMBINED_ACCOUNTS: nat := 256
  const MAX_PROPOSAL_ACCOUNT_BYTES: nat := 10240

  datatype Error =
    | AccountNotInitialized | AccountAlreadyInUse | AllocationTooLarge | InsufficientFunds | AccountDidNotSerialize
    | InvalidThreshold | TooManyMembers | DuplicateMembers | InvalidPDA | UnauthorizedMember
    | InvalidTransaction | InvalidTransactionIndex | AlreadyApproved | AlreadyExecuted
    | InsufficientApprovals | CpiExecutionFailed | InvalidMessage | TransactionIndexOverflow
    | InsufficientRemainingAccounts | AccountMismatch | UnauthorizedCloser | InvalidMemberCount

  // A proposal account stands at the address of these seeds.
  datatype ProposalId = ProposalId(multisig: Key, index: U64)

  datatype MultisigAccount = MultisigAccount(data: Multisig, space: nat)

  datatype ProposalAccount = ProposalAccount(data: VaultTransaction, space: nat, lamports: nat)

  // One account of a CPI, and the CPI itself.
  datatype Meta = Meta(key: Key, isSigner: bool, isWritable: bool)

  datatype Invocation = Invocation(program: Key, metas: seq<Meta>, data: seq<Byte>)

  // What happened, oldest first. A rolled-back transaction leaves no trace.
  datatype Event =
    | Initialized(address: Key, payer: Key, rent: nat)
    | Created(id: ProposalId, payer: Key, deposit: nat, message: TransactionMessage)
    | Approved(id: ProposalId, member: Key)
    | Started(id: ProposalId, approvals: seq<Key>)
    | Invoked(id: ProposalId, step: nat, cpi: Invocation)
    | Closed(id: ProposalId, payee: Key, refund: nat)

  datatype Ledger = Ledger(
    multisigs: map<Key, MultisigAccount>,
    proposals: map<ProposalId, ProposalAccount>,
    wallets: map<Key, nat>,
    log: seq<Event>)

  // An instruction with its accounts. `cpis[k]` is what the program invoked by
  // the k-th compiled instruction does; it may call back, to any depth.
  datatype Call =
    | Initialize(remaining: seq<Key>, memberHash: Key, threshold: Byte, memberCount: Byte, payer: Key)
    | Create(multisig: Key, creator: Key, payer: Key, vaultIndex: Byte, message: TransactionMessage)
    | Approve(multisig: Key, index: U64, member: Key)
    | Execute(multisig: Key, index: U64, remaining: seq<Key>, cpis: seq<Cpi>)
    | Close(multisig: Key, index: U64, payer: Key)

  datatype Cpi = Fails | Returns(calls: seq<Call>)

  // ---- wallets ----

  function Balance(wallets: map<Key, nat>, k: Key): nat { if k in wallets then wallets[k] else 0 }

  function Debit(l: Ledger, k: Key, amount: nat): Result<Ledger, Error> {
    if Balance(l.wallets, k) < amount then Err(InsufficientFunds)
    else Ok(l.(wallets := l.wallets[k := Balance(l.wallets, k) - amount]))
  }

  function Credit(l: Ledger, k: Key, amount: nat): Ledger {
    l.(wallets := l.wallets[k := Balance(l.wallets, k) + amount])
  }

  function Record(l: Ledger, e: Event): Ledger { l.(log := l.log + [e]) }

  // ---- initialize_multisig ----

  // What the handler objects to in the members it is given, first objection first.
  function Objection(members: seq<Key>, hash: Key, memberHash: Key, threshold: Byte, memberCount: Byte): Option<Error> {
    if |members| != memberCount then Some(InvalidMemberCount)
    else if !(0 < threshold <= |members| % 256) then Some(InvalidThreshold)
    else if |members| > MAX_MEMBERS then Some(TooManyMembers)
    else if !Distinct(members) then Some(DuplicateMembers)
    else if hash != memberHash then Some(InvalidPDA)
    else None
  }

  function InitializeStep(env: Env, l: Ledger, remaining: seq<Key>, memberHash: Key, threshold: Byte, memberCount: Byte,
      payer: Key): Result<Ledger, Error>
  {
    var (address, bump) := Derive(env, MultisigSeed(memberHash, threshold));
    var space := ComputeMultisigSpace(memberCount);
    if address in l.multisigs then Err(AccountAlreadyInUse) else
    var paid :- Debit(l, payer, env.rent(space));
    match Objection(remaining, env.sha256(Flatten(Sort(remaining))), memberHash, threshold, memberCount)
    case Some(error) => Err(error)
    case None =>
      var account := MultisigAccount(Multisig(Sort(remaining), threshold, 0, bump), space);
      Ok(Record(paid.(multisigs := paid.multisigs[address := account]), Initialized(address, payer, env.rent(space))))
  }

  // ---- create_transaction ----

  predicate SmallInstruction(ix: CompiledInstruction) {
    |ix.accountIndexes| <= MAX_INSTRUCTION_ACCOUNTS && |ix.data| <= MAX_INSTRUCTION_DATA_LEN
  }

  // Program and account references stay inside the key list, and the program is not slot 0.
  predicate InstructionInBounds(ix: CompiledInstruction, keyCount: nat) {
    && 1 <= ix.programIdIndex < keyCount
    && forall j | 0 <= j < |ix.accountIndexes| :: ix.accountIndexes[j] < keyCount
  }

  // Everything create_transaction demands of a message.
  predicate WellFormed(m: TransactionMessage, vault: Key) {
    && 0 < |m.accountKeys| <= MAX_TX_ACCOUNT_KEYS
    && 0 < |m.instructions| <= MAX_TX_INSTRUCTIONS
    && m.numSigners == 1
    && m.numWritableSigners == 1
    && m.numWritableNonSigners <= |m.accountKeys| - 1
    && m.accountKeys[0] == vault
    && Distinct(m.accountKeys)
    && m.addressTableLookups == []
    && (forall k | 0 <= k < |m.instructions| :: SmallInstruction(m.instructions[k]))
    && (forall k | 0 <= k < |m.instructions| :: InstructionInBounds(m.instructions[k], |m.accountKeys|))
  }

  function CreateStep(env: Env, l: Ledger, multisig: Key, creator: Key, payer: Key, vaultIndex: Byte,
      message: TransactionMessage): Result<Ledger, Error>
  {
    if multisig !in l.multisigs then Err(AccountNotInitialized) else
    var account := l.multisigs[multisig];
    var ms := account.data;
    if ms.transactionIndex + 1 == U64_LIMIT then Err(TransactionIndexOverflow) else
    var id := ProposalId(multisig, ms.transactionIndex + 1);
    var space := ComputeProposalSpace(message, |ms.members|);
    if id in l.proposals then Err(AccountAlreadyInUse)
    else if space > MAX_PROPOSAL_ACCOUNT_BYTES then Err(AllocationTooLarge) else
    var deposit := env.rent(space);
    var paid :- Debit(l, payer, deposit);
    if creator !in ms.members then Err(UnauthorizedMember) else
    var (vault, vaultBump) := DeriveVault(env, multisig, vaultIndex);
    if !WellFormed(message, vault) then Err(InvalidMessage) else
    var bump := DeriveTransaction(env, multisig, id.index).1;
    var tx := VaultTransaction(multisig, id.index, creator, payer, bump, vaultIndex, vaultBump, false, [], message);
    Ok(Record(
      paid.(multisigs := paid.multisigs[multisig := account.(data := ms.(transactionIndex := id.index))],
            proposals := paid.proposals[id := ProposalAccount(tx, space, deposit)]),
      Created(id, payer, deposit, message)))
  }

  // ---- approve_transaction ----

  // The checks approve, execute and close share.
  function Load(l: Ledger, multisig: Key, index: U64): Result<ProposalAccount, Error> {
    if multisig !in l.multisigs || ProposalId(multisig, index) !in l.proposals then Err(AccountNotInitialized) else
    var account := l.proposals[ProposalId(multisig, index)];
    if account.data.multisig != multisig then Err(InvalidTransaction)
    else if account.data.transactionIndex != index then Err(InvalidTransactionIndex)
    else Ok(account)
  }

  function Store(l: Ledger, id: ProposalId, tx: VaultTransaction): Ledger
    requires id in l.proposals
  {
    l.(proposals := l.proposals[id := l.proposals[id].(data := tx)])
  }

  function ApproveStep(l: Ledger, multisig: Key, index: U64, member: Key): Result<Ledger, Error> {
    var account :- Load(l, multisig, index);
    var tx := account.data;
    if tx.executed then Err(AlreadyExecuted)
    else if member !in l.multisigs[multisig].data.members then Err(UnauthorizedMember)
    else if member in tx.approvals then Err(AlreadyApproved)
    else
      var id := ProposalId(multisig, index);
      Ok(Record(Store(l, id, tx.(approvals := tx.approvals + [member])), Approved(id, member)))
  }

  // ---- execute_transaction ----

  predicate SlotIsSigner(m: TransactionMessage, i: nat) { i < m.numSigners }

  predicate SlotIsWritable(m: TransactionMessage, i: nat) {
    if i < m.numWritableSigners then true
    else if i < m.numSigners then false
    else i < m.numSigners + m.numWritableNonSigners
  }

  function MetaAt(m: TransactionMessage, i: nat): Meta
    requires i < |m.accountKeys|
  {
    Meta(m.accountKeys[i], SlotIsSigner(m, i), SlotIsWritable(m, i))
  }

  function Metas(m: TransactionMessage, indexes: seq<Byte>): (r: seq<Meta>)
    requires forall j | 0 <= j < |indexes| :: indexes[j] < |m.accountKeys|
    ensures |r| == |indexes|
    ensures forall j | 0 <= j < |r| :: r[j] == MetaAt(m, indexes[j])
  {
    if indexes == [] then [] else [MetaAt(m, indexes[0])] + Metas(m, indexes[1..])
  }

  // The CPI a compiled instruction stands for, if its indexes resolve.
  function Resolve(m: TransactionMessage, ix: CompiledInstruction): Option<Invocation> {
    if ix.programIdIndex < |m.accountKeys|
       && forall j | 0 <= j < |ix.accountIndexes| :: ix.accountIndexes[j] < |m.accountKeys|
    then Some(Invocation(m.accountKeys[ix.programIdIndex], Metas(m, ix.accountIndexes), ix.data))
    else None
  }

  // Checks, then the executed flag, then the account list.
  function StartStep(l: Ledger, multisig: Key, index: U64, remaining: seq<Key>): Result<Ledger, Error> {
    var account :- Load(l, multisig, index);
    var tx := account.data;
    if tx.executed then Err(AlreadyExecuted)
    else if |tx.approvals| < l.multisigs[multisig].data.threshold then Err(InsufficientApprovals)
    else if |tx.message.accountKeys| > MAX_COMBINED_ACCOUNTS then Err(InvalidMessage)
    else if |remaining| < |tx.message.accountKeys| then Err(InsufficientRemainingAccounts)
    else if remaining[..|tx.message.accountKeys|] != tx.message.accountKeys then Err(AccountMismatch)
    else
      var id := ProposalId(multisig, index);
      Ok(Record(Store(l, id, tx.(executed := true)), Started(id, tx.approvals)))
  }

  // ---- close_transaction ----

  function CloseStep(l: Ledger, multisig: Key, index: U64, payer: Key): Result<Ledger, Error> {
    if multisig !in l.multisigs || ProposalId(multisig, index) !in l.proposals then Err(AccountNotInitialized) else
    var id := ProposalId(multisig, index);
    if l.proposals[id].data.payer != payer then Err(UnauthorizedCloser) else
    var account :- Load(l, multisig, index);
    Ok(Record(Credit(l.(proposals := l.proposals - {id}), payer, account.lamports),
              Closed(id, payer, account.lamports)))
  }

  // ---- whole calls, whole transactions, whole runs ----

  function Apply(env: Env, l: Ledger, c: Call): Result<Ledger, Error>
    decreases c, 0
  {
    match c
    case Initialize(remaining, memberHash, threshold, memberCount, payer) =>
      InitializeStep(env, l, remaining, memberHash, threshold, memberCount, payer)
    case Create(multisig, creator, payer, vaultIndex, message) =>
      CreateStep(env, l, multisig, creator, payer, vaultIndex, message)
    case Approve(multisig, index, member) => ApproveStep(l, multisig, index, member)
    case Execute(multisig, index, remaining, cpis) =>
      var started :- StartStep(l, multisig, index, remaining);
      var id := ProposalId(multisig, index);
      ApplyCpis(env, started, id, l.proposals[id].data.message, 0, cpis)
    case Close(multisig, index, payer) => CloseStep(l, multisig, index, payer)
  }

  // The loop over compiled instructions, from the k-th on.
  function ApplyCpis(env: Env, l: Ledger, id: ProposalId, m: TransactionMessage, k: nat,
      cpis: seq<Cpi>): Result<Ledger, Error>
    requires k <= |m.instructions|
    decreases cpis, |m.instructions| - k, 1
  {
    if k == |m.instructions| then Ok(l) else
    match Resolve(m, m.instructions[k])
    case None => Err(InvalidMessage)
    case Some(cpi) =>
      var invoked := Record(l, Invoked(id, k, cpi));
      if k >= |cpis| then ApplyCpis(env, invoked, id, m, k + 1, cpis)
      else if cpis[k].Fails? then Err(CpiExecutionFailed)
      else match ApplyAll(env, invoked, cpis[k].calls)
        case Err(_) => Err(CpiExecutionFailed)
        case Ok(after) => ApplyCpis(env, after, id, m, k + 1, cpis)
  }

  function ApplyAll(env: Env, l: Ledger, calls: seq<Call>): Result<Ledger, Error>
    decreases calls, 0
  {
    if calls == [] then Ok(l) else
    var next :- Apply(env, l, calls[0]);
    ApplyAll(env, next, calls[1..])
  }

  // A transaction commits whole or not at all.
  function Submit(env: Env, l: Ledger, tx: seq<Call>): Ledger {
    match ApplyAll(env, l, tx)
    case Ok(after) => after
    case Err(_) => l
  }

  function Run(env: Env, l: Ledger, txs: seq<seq<Call>>): Ledger
    decreases |txs|
  {
    if txs == [] then l else Run(env, Submit(env, l, txs[0]), txs[1..])
  }

  // No account of the program exists yet.
  function Genesis(wallets: map<Key, nat>): Ledger { Ledger(map[], map[], wallets, []) }
}
