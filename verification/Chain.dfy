/** The instruction handlers as they run: each works on cached copies of its accounts,
    which the framework writes back at exit. The steps in Program are what they amount to. */
module Chain {
  import opened Wrappers
  import opened Bytes
  import opened Members
  import opened State
  import opened Pda
  import opened Program
  import opened Safety

  // A handler's result and the storage it left are those of the direct step.
  ghost predicate Outcome(spec: Result<Ledger, Error>, r: Result<(), Error>, after: Ledger) {
    match r
    case Ok(_) => spec == Ok(after)
    case Err(e) => spec == Err(e)
  }

  // create_transaction's structural checks, in the order the handler makes them.
  method ValidateMessage(message: TransactionMessage, expectedVault: Key) returns (ok: bool)
    ensures ok <==> WellFormed(message, expectedVault)
  {
    var keyCount := |message.accountKeys|;
    if keyCount == 0 || keyCount > MAX_TX_ACCOUNT_KEYS { return false; }
    if |message.instructions| == 0 || |message.instructions| > MAX_TX_INSTRUCTIONS { return false; }
    if message.numSigners > keyCount || message.numWritableSigners > message.numSigners { return false; }
    var nonSignerCount := keyCount - message.numSigners;
    if message.numWritableNonSigners > nonSignerCount { return false; }
    if message.numSigners != 1 || message.accountKeys[0] != expectedVault { return false; }
    if message.numWritableSigners < 1 { return false; }
    var duplicate := FindDuplicate(message.accountKeys);
    if duplicate { return false; }
    for k := 0 to |message.instructions|
      invariant forall i | 0 <= i < k :: SmallInstruction(message.instructions[i])
    {
      var ix := message.instructions[k];
      if |ix.accountIndexes| > MAX_INSTRUCTION_ACCOUNTS || |ix.data| > MAX_INSTRUCTION_DATA_LEN {
        assert !SmallInstruction(message.instructions[k]);
        return false;
      }
    }
    if message.addressTableLookups != [] || keyCount > MAX_COMBINED_ACCOUNTS { return false; }
    for k := 0 to |message.instructions|
      invariant forall i | 0 <= i < k :: InstructionInBounds(message.instructions[i], keyCount)
    {
      var ix := message.instructions[k];
      if ix.programIdIndex < 1 || ix.programIdIndex >= keyCount {
        assert !InstructionInBounds(message.instructions[k], keyCount);
        return false;
      }
      for j := 0 to |ix.accountIndexes|
        invariant forall i | 0 <= i < j :: ix.accountIndexes[i] < keyCount
      {
        if ix.accountIndexes[j] >= keyCount {
          assert !InstructionInBounds(message.instructions[k], keyCount);
          return false;
        }
      }
    }
    return true;
  }

  // The metas and account infos of one CPI. Infos are named by their keys.
  method BuildCpi(message: TransactionMessage, compiled: CompiledInstruction, remaining: seq<Key>, multisigKey: Key)
      returns (r: Option<Invocation>, infos: seq<Key>)
    requires message.accountKeys <= remaining
    ensures r == Resolve(message, compiled)
    ensures r.Some? ==>
              && |infos| == |r.value.metas| + 1
              && infos[|r.value.metas|] == r.value.program
              && forall j | 0 <= j < |r.value.metas| :: infos[j] == r.value.metas[j].key
  {
    infos := [];
    var staticCount := |message.accountKeys|;
    if compiled.programIdIndex >= staticCount { return None, []; }
    var programId := message.accountKeys[compiled.programIdIndex];
    var metas: seq<Meta> := [];
    for j := 0 to |compiled.accountIndexes|
      invariant |metas| == |infos| == j
      invariant forall i | 0 <= i < j :: compiled.accountIndexes[i] < staticCount
      invariant forall i | 0 <= i < j ::
                  metas[i] == MetaAt(message, compiled.accountIndexes[i]) && infos[i] == metas[i].key
    {
      var i := compiled.accountIndexes[j];
      if i >= staticCount { return None, []; }
      var pubkey := message.accountKeys[i];
      var isSigner := i < message.numSigners;
      var isWritable :=
        if i < message.numWritableSigners then true
        else if i < message.numSigners then false
        else if i < message.numSigners + message.numWritableNonSigners then true
        else false;
      metas := metas + [Meta(pubkey, isSigner, isWritable)];
      infos := infos + [if pubkey == multisigKey then multisigKey else remaining[i]];
    }
    infos := infos + [if programId == multisigKey then multisigKey else remaining[compiled.programIdIndex]];
    assert metas == Metas(message, compiled.accountIndexes);
    r := Some(Invocation(programId, metas, compiled.data));
  }

  class Runtime {
    const env: Env
    var ledger: Ledger

    constructor (env: Env, wallets: map<Key, nat>)
      ensures this.env == env && ledger == Genesis(wallets) && Inv(env, ledger)
    {
      this.env := env;
      ledger := Genesis(wallets);
    }

    // Serialize a cached proposal over its account, unless the account was closed meanwhile.
    method Exit(id: ProposalId, cached: VaultTransaction) returns (r: Result<(), Error>)
      modifies this`ledger
      ensures id !in old(ledger).proposals ==> r == Ok(()) && ledger == old(ledger)
      ensures id in old(ledger).proposals && ProposalSize(cached) <= old(ledger).proposals[id].space ==>
                r == Ok(()) && ledger == Store(old(ledger), id, cached)
      ensures id in old(ledger).proposals && ProposalSize(cached) > old(ledger).proposals[id].space ==>
                r == Err(AccountDidNotSerialize)
    {
      if id in ledger.proposals {
        if ProposalSize(cached) > ledger.proposals[id].space { return Err(AccountDidNotSerialize); }
        ledger := Store(ledger, id, cached);
      }
      return Ok(());
    }

    method ExitMultisig(key: Key, cached: Multisig) returns (r: Result<(), Error>)
      requires key in ledger.multisigs
      modifies this`ledger
      ensures MultisigSize(cached) <= old(ledger).multisigs[key].space ==>
                && r == Ok(())
                && ledger == old(ledger).(multisigs :=
                     old(ledger).multisigs[key := old(ledger).multisigs[key].(data := cached)])
      ensures MultisigSize(cached) > old(ledger).multisigs[key].space ==> r == Err(AccountDidNotSerialize)
    {
      if MultisigSize(cached) > ledger.multisigs[key].space { return Err(AccountDidNotSerialize); }
      ledger := ledger.(multisigs := ledger.multisigs[key := ledger.multisigs[key].(data := cached)]);
      return Ok(());
    }

    method InitializeMultisig(c: Call) returns (r: Result<(), Error>)
      requires Inv(env, ledger) && c.Initialize?
      modifies this`ledger
      ensures Outcome(Apply(env, old(ledger), c), r, ledger)
    {
      // init: allocate at the derived address, sized by the claimed count
      var (address, bump) := Derive(env, MultisigSeed(c.memberHash, c.threshold));
      var space := ComputeMultisigSpace(c.memberCount);
      if address in ledger.multisigs { return Err(AccountAlreadyInUse); }
      ledger :- Debit(ledger, c.payer, env.rent(space));
      var members := c.remaining;
      if |members| != c.memberCount { return Err(InvalidMemberCount); }
      if !(c.threshold > 0 && c.threshold <= |members| % 256) { return Err(InvalidThreshold); }
      if |members| > MAX_MEMBERS { return Err(TooManyMembers); }
      var duplicate := FindDuplicate(members);
      if duplicate { return Err(DuplicateMembers); }
      var sortedMembers := Sort(members);
      var actualHash := HashMembers(env, sortedMembers);
      if actualHash != c.memberHash { return Err(InvalidPDA); }
      var cached := Multisig(sortedMembers, c.threshold, 0, bump);
      CanonicalMembers(members);
      if MultisigSize(cached) > space { assert false; }
      ledger := Record(ledger.(multisigs := ledger.multisigs[address := MultisigAccount(cached, space)]),
                       Initialized(address, c.payer, env.rent(space)));
      return Ok(());
    }

    method CreateTransaction(c: Call) returns (r: Result<(), Error>)
      requires Inv(env, ledger) && c.Create?
      modifies this`ledger
      ensures Outcome(Apply(env, old(ledger), c), r, ledger)
    {
      if c.multisig !in ledger.multisigs { return Err(AccountNotInitialized); }
      var multisig := ledger.multisigs[c.multisig].data;
      // init: the address takes the next index, whose overflow aborts
      if multisig.transactionIndex + 1 == U64_LIMIT { return Err(TransactionIndexOverflow); }
      var newIndex := multisig.transactionIndex + 1;
      var id := ProposalId(c.multisig, newIndex);
      var space := ComputeProposalSpace(c.message, |multisig.members|);
      if id in ledger.proposals { return Err(AccountAlreadyInUse); }
      if space > MAX_PROPOSAL_ACCOUNT_BYTES { return Err(AllocationTooLarge); }
      ledger :- Debit(ledger, c.payer, env.rent(space));
      if c.creator !in multisig.members { return Err(UnauthorizedMember); }
      var (expectedVault, vaultBump) := DeriveVault(env, c.multisig, c.vaultIndex);
      var valid := ValidateMessage(c.message, expectedVault);
      if !valid { return Err(InvalidMessage); }
      multisig := multisig.(transactionIndex := newIndex);
      var bump := DeriveTransaction(env, c.multisig, newIndex).1;
      var transaction := VaultTransaction(c.multisig, newIndex, c.creator, c.payer, bump, c.vaultIndex, vaultBump,
                                          false, [], c.message);
      assert MultisigOk(env, old(ledger), c.multisig);
      // exit
      var written := ExitMultisig(c.multisig, multisig);
      assert written.Ok?;
      if ProposalSize(transaction) > space { assert false; }
      var account := ProposalAccount(transaction, space, env.rent(space));
      ledger := Record(ledger.(proposals := ledger.proposals[id := account]),
                       Created(id, c.payer, env.rent(space), c.message));
      return Ok(());
    }

    method ApproveTransaction(c: Call) returns (r: Result<(), Error>)
      requires Inv(env, ledger) && c.Approve?
      modifies this`ledger
      ensures Outcome(Apply(env, old(ledger), c), r, ledger)
    {
      var id := ProposalId(c.multisig, c.index);
      if c.multisig !in ledger.multisigs || id !in ledger.proposals { return Err(AccountNotInitialized); }
      var multisig := ledger.multisigs[c.multisig].data;
      var transaction := ledger.proposals[id].data;
      if transaction.multisig != c.multisig { return Err(InvalidTransaction); }
      if transaction.transactionIndex != c.index { return Err(InvalidTransactionIndex); }
      if transaction.executed { return Err(AlreadyExecuted); }
      if c.member !in multisig.members { return Err(UnauthorizedMember); }
      if c.member in transaction.approvals { return Err(AlreadyApproved); }
      ApproveKeeps(env, ledger, c);
      transaction := transaction.(approvals := transaction.approvals + [c.member]);
      FitsAfter(env, Apply(env, ledger, c).value, id);
      r := Exit(id, transaction);
      ledger := Record(ledger, Approved(id, c.member));
    }

    // Up to the CPI loop: validate on a cached copy, mark it executed and flush
    // it at once, so that whoever is called back sees the flag.
    method BeginExecution(c: Call) returns (r: Result<VaultTransaction, Error>)
      requires Inv(env, ledger) && c.Execute?
      modifies this`ledger
      ensures match r
              case Err(e) => StartStep(old(ledger), c.multisig, c.index, c.remaining) == Err(e)
              case Ok(cached) =>
                && StartStep(old(ledger), c.multisig, c.index, c.remaining) == Ok(ledger)
                && ProposalId(c.multisig, c.index) in ledger.proposals
                && cached == ledger.proposals[ProposalId(c.multisig, c.index)].data
                && cached.message.accountKeys <= c.remaining
    {
      var id := ProposalId(c.multisig, c.index);
      if c.multisig !in ledger.multisigs || id !in ledger.proposals { return Err(AccountNotInitialized); }
      var multisig := ledger.multisigs[c.multisig].data;
      var transaction := ledger.proposals[id].data;
      if transaction.multisig != c.multisig { return Err(InvalidTransaction); }
      if transaction.transactionIndex != c.index { return Err(InvalidTransactionIndex); }
      if transaction.executed { return Err(AlreadyExecuted); }
      if |transaction.approvals| < multisig.threshold { return Err(InsufficientApprovals); }
      transaction := transaction.(executed := true);
      FlagFits(env, ledger, id);
      var flushed := Exit(id, transaction);
      assert flushed.Ok?;
      var accountKeys := transaction.message.accountKeys;
      if |accountKeys| > MAX_COMBINED_ACCOUNTS { return Err(InvalidMessage); }
      if |c.remaining| < |accountKeys| { return Err(InsufficientRemainingAccounts); }
      for i := 0 to |accountKeys|
        invariant forall j | 0 <= j < i :: c.remaining[j] == accountKeys[j]
      {
        if c.remaining[i] != accountKeys[i] {
          assert c.remaining[..|accountKeys|][i] != accountKeys[i];
          return Err(AccountMismatch);
        }
      }
      assert c.remaining[..|accountKeys|] == accountKeys;
      ledger := Record(ledger, Started(id, transaction.approvals));
      return Ok(transaction);
    }

    // The CPI loop. What each program calls back runs on the same storage.
    method RunCpis(c: Call, id: ProposalId, message: TransactionMessage, ghost before: Ledger)
        returns (r: Result<(), Error>)
      requires c.Execute? && message.accountKeys <= c.remaining
      requires Looping(env, before, ledger, ledger, id, message, 0)
      modifies this`ledger
      ensures Outcome(ApplyCpis(env, old(ledger), id, message, 0, c.cpis), r, ledger)
      ensures r.Ok? ==> Inv(env, ledger) && Kept(old(ledger), ledger)
      decreases c, 0
    {
      ghost var started := ledger;
      for k := 0 to |message.instructions|
        invariant Looping(env, before, started, ledger, id, message, k)
        invariant ApplyCpis(env, started, id, message, 0, c.cpis) == ApplyCpis(env, ledger, id, message, k, c.cpis)
      {
        var built, infos := BuildCpi(message, message.instructions[k], c.remaining, c.multisig);
        if built.None? { return Err(InvalidMessage); }
        EnterCpi(env, before, started, ledger, id, message, k, built.value);
        ledger := Record(ledger, Invoked(id, k, built.value));
        if k < |c.cpis| {
          ghost var entered := ledger;
          if c.cpis[k].Fails? { return Err(CpiExecutionFailed); }
          var inner := InvokeAll(c.cpis[k].calls);
          if inner.Err? { return Err(CpiExecutionFailed); }
          LeaveCpi(env, before, started, entered, id, message, k + 1, c.cpis[k].calls);
        }
      }
      return Ok(());
    }

    method ExecuteTransaction(c: Call) returns (r: Result<(), Error>)
      requires Inv(env, ledger) && c.Execute?
      modifies this`ledger
      ensures Outcome(Apply(env, old(ledger), c), r, ledger)
      decreases c, 1
    {
      ghost var before := ledger;
      var id := ProposalId(c.multisig, c.index);
      var transaction :- BeginExecution(c);
      ghost var started := ledger;
      LoopBegins(env, before, c);
      var _ :- RunCpis(c, id, transaction.message, before);
      // exit: the cached copy is written over an identical one, or nowhere
      WriteBackIsIdle(env, started, ledger, id);
      r := Exit(id, transaction);
    }

    method CloseTransaction(c: Call) returns (r: Result<(), Error>)
      requires Inv(env, ledger) && c.Close?
      modifies this`ledger
      ensures Outcome(Apply(env, old(ledger), c), r, ledger)
    {
      var id := ProposalId(c.multisig, c.index);
      if c.multisig !in ledger.multisigs || id !in ledger.proposals { return Err(AccountNotInitialized); }
      var transaction := ledger.proposals[id].data;
      if transaction.payer != c.payer { return Err(UnauthorizedCloser); }
      if transaction.multisig != c.multisig { return Err(InvalidTransaction); }
      if transaction.transactionIndex != c.index { return Err(InvalidTransactionIndex); }
      // close: the lamports go to the payer, the account disappears
      var lamports := ledger.proposals[id].lamports;
      ledger := Credit(ledger.(proposals := ledger.proposals - {id}), c.payer, lamports);
      ledger := Record(ledger, Closed(id, c.payer, lamports));
      return Ok(());
    }

    method Invoke(c: Call) returns (r: Result<(), Error>)
      requires Inv(env, ledger)
      modifies this`ledger
      ensures Outcome(Apply(env, old(ledger), c), r, ledger)
      decreases c, 2
    {
      match c
      case Initialize(_, _, _, _, _) => r := InitializeMultisig(c);
      case Create(_, _, _, _, _) => r := CreateTransaction(c);
      case Approve(_, _, _) => r := ApproveTransaction(c);
      case Execute(_, _, _, _) => r := ExecuteTransaction(c);
      case Close(_, _, _) => r := CloseTransaction(c);
    }

    method InvokeAll(calls: seq<Call>) returns (r: Result<(), Error>)
      requires Inv(env, ledger)
      modifies this`ledger
      ensures Outcome(ApplyAll(env, old(ledger), calls), r, ledger)
      decreases calls, 0
    {
      if calls == [] { return Ok(()); }
      var _ :- Invoke(calls[0]);
      ApplyKeeps(env, old(ledger), calls[0]);
      r := InvokeAll(calls[1..]);
    }

    // A top-level transaction: any failure restores every account.
    method SubmitTransaction(tx: seq<Call>)
      requires Inv(env, ledger)
      modifies this`ledger
      ensures ledger == Submit(env, old(ledger), tx) && Inv(env, ledger)
    {
      var saved := ledger;
      var r := InvokeAll(tx);
      if r.Err? {
        ledger := saved;
      } else {
        AllKeep(env, saved, tx);
      }
    }
  }

  // Mid-loop, between `before` the call and now: the flushed proposal is as it
  // was when `started`, or closed.
  ghost predicate Looping(env: Env, before: Ledger, started: Ledger, l: Ledger, id: ProposalId,
      message: TransactionMessage, k: nat) {
    && Inv(env, before) && Inv(env, started) && Inv(env, l)
    && !Settled(before, id) && Settled(started, id)
    && Extends(before, l) && Kept(started, l) && Running(env, l, id, message, k)
  }

  lemma LoopBegins(env: Env, before: Ledger, c: Call)
    requires Inv(env, before) && c.Execute? && StartStep(before, c.multisig, c.index, c.remaining).Ok?
    ensures var id := ProposalId(c.multisig, c.index);
            var started := StartStep(before, c.multisig, c.index, c.remaining).value;
            && id in before.proposals && id in started.proposals
            && started.proposals[id].data == before.proposals[id].data.(executed := true)
            && Looping(env, before, started, started, id, before.proposals[id].data.message, 0)
  {
    StartKeeps(env, before, c.multisig, c.index, c.remaining);
    StartRuns(env, before, c.multisig, c.index, c.remaining);
  }

  lemma EnterCpi(env: Env, before: Ledger, started: Ledger, l: Ledger, id: ProposalId, message: TransactionMessage,
      k: nat, cpi: Invocation)
    requires Looping(env, before, started, l, id, message, k) && k < |message.instructions|
    requires Resolve(message, message.instructions[k]) == Some(cpi)
    ensures Looping(env, before, started, Record(l, Invoked(id, k, cpi)), id, message, k + 1)
  {
    InvokeKeeps(env, before, l, id, message, k, cpi);
    assert Kept(l, Record(l, Invoked(id, k, cpi)));
    KeptTransitive(env, started, l, Record(l, Invoked(id, k, cpi)));
  }

  lemma LeaveCpi(env: Env, before: Ledger, started: Ledger, l: Ledger, id: ProposalId, message: TransactionMessage,
      k: nat, calls: seq<Call>)
    requires Looping(env, before, started, l, id, message, k) && ApplyAll(env, l, calls).Ok?
    ensures Looping(env, before, started, ApplyAll(env, l, calls).value, id, message, k)
  {
    var after := ApplyAll(env, l, calls).value;
    AllKeep(env, l, calls);
    ExtendsTransitive(env, before, l, after);
    KeptTransitive(env, started, l, after);
    RunningStays(env, l, after, id, message, k);
  }

  lemma StoreSame(l: Ledger, id: ProposalId, a: ProposalAccount)
    requires id in l.proposals && l.proposals[id] == a
    ensures Store(l, id, a.data) == l
  {
    assert l.proposals[id := a] == l.proposals;
  }

  // The exit write-back changes nothing: whatever was called back meanwhile
  // either left the proposal alone or closed it.
  lemma WriteBackIsIdle(env: Env, started: Ledger, l: Ledger, id: ProposalId)
    requires Kept(started, l) && Inv(env, l)
    requires id in started.proposals && started.proposals[id].data.executed
    ensures id in l.proposals ==>
              && Store(l, id, started.proposals[id].data) == l
              && ProposalSize(started.proposals[id].data) <= l.proposals[id].space
  {
    assert ProposalKept(started, l, id);
    if id in l.proposals {
      FitsAfter(env, l, id);
      StoreSame(l, id, started.proposals[id]);
    }
  }

  // A proposal in order fits its account.
  lemma FitsAfter(env: Env, l: Ledger, id: ProposalId)
    requires Inv(env, l) && id in l.proposals
    ensures ProposalSize(l.proposals[id].data) <= l.proposals[id].space
  {
    assert ProposalOk(env, l, id);
    var tx, members := l.proposals[id].data, l.multisigs[id.multisig].data.members;
    Pigeonhole(tx.approvals, members);
  }

  // Setting the flag takes no more room.
  lemma FlagFits(env: Env, l: Ledger, id: ProposalId)
    requires Inv(env, l) && id in l.proposals
    ensures ProposalSize(l.proposals[id].data.(executed := true)) <= l.proposals[id].space
  {
    FitsAfter(env, l, id);
  }
}
