/** Accepted bundles whose verdict does not bind an execute: the two cases that
    ExecuteBinding leaves open, at every message, member and amount. */
module ExecuteExamples {
  import opened Wrappers
  import opened Bytes
  import opened State
  import opened Reader
  import opened Pda
  import opened Ids
  import opened Builder
  import opened Compilation
  import opened Classifier
  import opened Bundle
  import opened FundFlows
  import opened Enterprise
  import opened Proposals
  import opened HonestSend
  import opened Replacing

  // The first and an execute after it.
  function WithExecute(program: Key, first: OuterInstruction, keys: seq<Key>, index: U64): seq<OuterInstruction> {
    [first, OuterInstruction(program, keys, IndexData(EXECUTE_TRANSACTION_DISCRIMINATOR, index))]
  }

  lemma WithExecuteBundled(program: Key, feePayer: Option<Key>, first: OuterInstruction, keys: seq<Key>, index: U64)
    requires OwnProgram(program)
    ensures var ixs := WithExecute(program, first, keys, index);
            var start := Extend(program, ParsedBundle(feePayer, [], [], [], [], [], [], [], []), 0, first);
            && KindOf(program, ixs[1]) == Kind.Execute
            && Bundled(program, feePayer, ixs) == start.(executes := start.executes + [AsMultisig(1, ixs[1])])
  {
    var ixs := WithExecute(program, first, keys, index);
    IndexedKind(program, keys, index);
    assert ixs == ixs[..2];
    BundledSnoc(program, feePayer, ixs, 1);
    BundledSnoc(program, feePayer, ixs, 0);
  }

  lemma NothingFlagged(outer: Outer, program: Key, caps: Option<BudgetCaps>)
    requires |outer.instructions| == 2 && KindOf(program, outer.instructions[1]) == Kind.Execute
    requires KindOf(program, outer.instructions[0]) in {Kind.Create, Kind.Approve}
    ensures FlagsUnknown(outer, program, caps, {})
  {
    forall i: nat | i < |outer.instructions| ensures Allowed(outer, program, caps, i) {
      assert i == 0 || i == 1;
    }
  }

  lemma OneColumn(e: MultisigIx, i: nat)
    ensures Column([e], i) == if i < |e.keys| then [e.keys[i]] else []
  {
    assert [e][..0] == [];
  }

  // ---- an approve-only bundle ----

  // Approving one proposal, executing another.
  function ApproveAndExecute(program: Key, multisig: Key, transaction: Key, other: Key, index: U64, member: Key,
      feePayer: Key): Outer {
    Outer(Some(feePayer),
          WithExecute(program,
                      OuterInstruction(program, [multisig, transaction, member],
                                       IndexData(APPROVE_TRANSACTION_DISCRIMINATOR, index)),
                      [multisig, other, feePayer], index))
  }

  lemma ApproveAndExecuteBundled(program: Key, multisig: Key, transaction: Key, other: Key, index: U64, member: Key,
      feePayer: Key)
    requires OwnProgram(program)
    ensures var outer := ApproveAndExecute(program, multisig, transaction, other, index, member, feePayer);
            && KindOf(program, outer.instructions[0]) == Kind.Approve
            && KindOf(program, outer.instructions[1]) == Kind.Execute
            && Bundled(program, outer.feePayer, outer.instructions)
               == ParsedBundle(outer.feePayer, [], [], [], [], [AsMultisig(0, outer.instructions[0])],
                               [AsMultisig(1, outer.instructions[1])], [], [])
  {
    var outer := ApproveAndExecute(program, multisig, transaction, other, index, member, feePayer);
    var first := outer.instructions[0];
    IndexedKind(program, first.keys, index);
    WithExecuteBundled(program, outer.feePayer, first, [multisig, other, feePayer], index);
  }

  lemma ApprovalColumns(e: MultisigIx, multisig: Key, transaction: Key, member: Key)
    requires e.keys == [multisig, transaction, member]
    ensures Column([e], 0) == [multisig] && Column([e], 1) == [transaction] && Column([e], 2) == [member]
  {
    OneColumn(e, 0);
    OneColumn(e, 1);
    OneColumn(e, 2);
  }

  lemma ApproveAndExecuteParsed(program: Key, multisig: Key, transaction: Key, other: Key, index: U64, member: Key,
      feePayer: Key)
      returns (b: ParsedBundle)
    requires OwnProgram(program)
    ensures var outer := ApproveAndExecute(program, multisig, transaction, other, index, member, feePayer);
            && KindOf(program, outer.instructions[0]) == Kind.Approve
            && KindOf(program, outer.instructions[1]) == Kind.Execute
            && b == Bundled(program, outer.feePayer, outer.instructions)
    ensures b.creates == [] && |b.approves| == 1 && b.approves[0].keys == [multisig, transaction, member]
    ensures IndexArgument(b.approves[0].data) == Some(index)
    ensures Column(b.approves, 0) == [multisig] && Column(b.approves, 1) == [transaction]
            && Column(b.approves, 2) == [member]
  {
    var outer := ApproveAndExecute(program, multisig, transaction, other, index, member, feePayer);
    ApproveAndExecuteBundled(program, multisig, transaction, other, index, member, feePayer);
    b := Bundled(program, outer.feePayer, outer.instructions);
    ApprovalColumns(b.approves[0], multisig, transaction, member);
    IndexReads(APPROVE_TRANSACTION_DISCRIMINATOR, index);
  }

  lemma ApproveAndExecuteDescribed(env: Env, opts: DecodeOptions, multisig: Key, transaction: Key, other: Key,
      index: U64, member: Key, feePayer: Key)
    requires OwnProgram(env.programId)
    ensures DescribedBy(env, ApproveAndExecute(env.programId, multisig, transaction, other, index, member, feePayer),
                        opts, ApproveTx(multisig, transaction, Some(index), [member], [transaction], [multisig], {}))
  {
    var outer := ApproveAndExecute(env.programId, multisig, transaction, other, index, member, feePayer);
    var b := ApproveAndExecuteParsed(env.programId, multisig, transaction, other, index, member, feePayer);
    NothingFlagged(outer, env.programId, opts.caps);
  }

  function StoredSend(multisig: Key, index: U64, member: Key, payer: Key, bumps: (Byte, Byte), vaultIndex: Byte,
      m: TransactionMessage): VaultTransaction
  {
    VaultTransaction(multisig, index, member, payer, bumps.0, vaultIndex, bumps.1, false, [], m)
  }

  lemma StoredSendReads(tx: VaultTransaction)
    requires MessageCodec().wf(tx.message) && tx.approvals == []
    ensures AccountProposal(AccountBytes(tx)) == Some(tx)
  {
    ProposalEncodable(tx);
    AccountRoundTrip(tx, []);
    assert AccountBytes(tx) + [] == AccountBytes(tx);
  }

  function SendReport(env: Env, tx: VaultTransaction, at: Key, v: View): OnChain
    requires tx.message.accountKeys != []
  {
    Proposal(at, tx.multisig, tx.transactionIndex, tx.creator, tx.payer, tx.vaultIndex,
             DeriveVault(env, tx.multisig, tx.vaultIndex).0, tx.executed, tx.approvals, tx.message.accountKeys[0], v,
             MemosOf(JudgeAll(env, tx.message.accountKeys, Some(tx.payer), false, tx.message.instructions)))
  }

  lemma SendReported(env: Env, tx: VaultTransaction, at: Key, v: View)
    requires ShowsMessage(env, Abridged(tx.vaultIndex, tx.message), Some(tx.payer), false, Attribution(None, None), v)
    ensures Reports(env, tx, at, ProposalOptions(None, false, Attribution(None, None)), SendReport(env, tx, at, v))
  {}

  lemma SendFitting(env: Env, tx: VaultTransaction, at: Key, v: View, x: Payload)
    requires tx.message.accountKeys != [] && tx.message.accountKeys[0] == DeriveVault(env, tx.multisig, tx.vaultIndex).0
    requires !tx.executed && FlowsAccepted(env, v, x.flows)
    requires x.multisig == Bound(Base58(tx.multisig)) && x.transaction == Some(Base58(at)) && x.vaultIndex.None?
             && x.vault.None?
    ensures Fitting(env, SendReport(env, tx, at, v), x)
  {}

  lemma StoredSendReadable(env: Env, tx: VaultTransaction)
    requires MessageCodec().wf(tx.message) && tx.approvals == [] && tx.message.accountKeys != []
    ensures var at := DeriveTransaction(env, tx.multisig, tx.transactionIndex).0;
            var opts := ProposalOptions(None, false, Attribution(None, None));
            AccountProposal(AccountBytes(tx)) == Some(tx) && Readable(env, AccountBytes(tx), at, opts)
  {
    StoredSendReads(tx);
  }

  // The account of a send, read by the device, fits a payload that accepts its view.
  lemma StoredSendFits(env: Env, tx: VaultTransaction, v: View, x: Payload) returns (r: OnChain)
    requires MessageCodec().wf(tx.message) && tx.approvals == [] && !tx.executed && tx.message.accountKeys != []
    requires tx.message.accountKeys[0] == DeriveVault(env, tx.multisig, tx.vaultIndex).0
    requires ShowsMessage(env, Abridged(tx.vaultIndex, tx.message), Some(tx.payer), false, Attribution(None, None), v)
    requires FlowsAccepted(env, v, x.flows)
    requires x.multisig == Bound(Base58(tx.multisig)) && x.vaultIndex.None? && x.vault.None?
    requires x.transaction == Some(Base58(DeriveTransaction(env, tx.multisig, tx.transactionIndex).0))
    ensures var at := DeriveTransaction(env, tx.multisig, tx.transactionIndex).0;
            var opts := ProposalOptions(None, false, Attribution(None, None));
            && AccountProposal(AccountBytes(tx)) == Some(tx) && Readable(env, AccountBytes(tx), at, opts)
            && Reports(env, tx, at, opts, r) && Fitting(env, r, x)
  {
    var at := DeriveTransaction(env, tx.multisig, tx.transactionIndex).0;
    StoredSendReadable(env, tx);
    SendReported(env, tx, at, v);
    SendFitting(env, tx, at, v, x);
    r := SendReport(env, tx, at, v);
  }

  // What the device is asked about a bundle that approves one proposal and executes the other.
  function AskedAbout(env: Env, multisig: Key, transaction: Key, other: Key, index: U64, member: Key, feePayer: Key,
      x: Payload): ApproveRequest
  {
    var who := Attribution(None, None);
    ApproveRequest(ApproveAndExecute(env.programId, multisig, transaction, other, index, member, feePayer), x,
                   Some(Base58(member)), DecodeOptions(who, None, false), ProposalOptions(None, false, who))
  }

  lemma ApproveAndExecuteAccepted(env: Env, q: ApproveRequest, multisig: Key, transaction: Key, index: U64, member: Key,
      r: OnChain)
    requires Fitting(env, r, q.x) && q.x.transaction == Some(Base58(transaction)) && q.approver == Some(Base58(member))
    requires r.multisig == multisig && r.index == index
    ensures Accepted(env, q, ApproveTx(multisig, transaction, Some(index), [member], [transaction], [multisig], {}), r)
  {}

  lemma StoredTransferShown(env: Env, recipient: Key, amount: U64, b: BuiltMessage, tx: VaultTransaction,
      flows: Expectation) returns (v: View)
    requires var vault := DeriveVault(env, tx.multisig, tx.vaultIndex).0;
             vault != SYSTEM_PROGRAM && Compiles(vault, [Transfer(vault, recipient, amount)], b)
    requires Encodable(b) && tx.message == ToWire(b) && tx.payer != recipient
    requires AsksFor(flows, recipient, amount)
    ensures MessageCodec().wf(tx.message) && tx.message.accountKeys != []
            && tx.message.accountKeys[0] == DeriveVault(env, tx.multisig, tx.vaultIndex).0
    ensures ShowsMessage(env, Abridged(tx.vaultIndex, tx.message), Some(tx.payer), false, Attribution(None, None), v)
            && FlowsAccepted(env, v, flows)
  {
    var vault := DeriveVault(env, tx.multisig, tx.vaultIndex).0;
    TransferEncodes(vault, recipient, amount, b);
    v := TransferShown(env, vault, recipient, amount, b, tx.payer, tx.vaultIndex, false, flows);
  }

  // So does the account of a built transfer, when the payload asks for it.
  lemma StoredTransferFits(env: Env, recipient: Key, amount: U64, b: BuiltMessage, tx: VaultTransaction, x: Payload)
      returns (r: OnChain)
    requires var vault := DeriveVault(env, tx.multisig, tx.vaultIndex).0;
             vault != SYSTEM_PROGRAM && Compiles(vault, [Transfer(vault, recipient, amount)], b)
    requires Encodable(b) && tx.message == ToWire(b) && tx.approvals == [] && !tx.executed && tx.payer != recipient
    requires AsksFor(x.flows, recipient, amount)
    requires x.multisig == Bound(Base58(tx.multisig)) && x.vaultIndex.None? && x.vault.None?
    requires x.transaction == Some(Base58(DeriveTransaction(env, tx.multisig, tx.transactionIndex).0))
    ensures var at := DeriveTransaction(env, tx.multisig, tx.transactionIndex).0;
            var opts := ProposalOptions(None, false, Attribution(None, None));
            && AccountProposal(AccountBytes(tx)) == Some(tx) && Readable(env, AccountBytes(tx), at, opts)
            && Reports(env, tx, at, opts, r) && Fitting(env, r, x)
  {
    var v := StoredTransferShown(env, recipient, amount, b, tx, x.flows);
    r := StoredSendFits(env, tx, v, x);
  }

  // The node serves the account at the proposal's own address.
  ghost predicate ServesSend(env: Env, fetch: Fetch, tx: VaultTransaction) {
    fetch(DeriveTransaction(env, tx.multisig, tx.transactionIndex).0)
    == Some(AccountInfo(env.programId, AccountBytes(tx)))
  }

  // What the device reads at the proposal's address is the account, as reported.
  lemma StoredFetched(env: Env, fetch: Fetch, tx: VaultTransaction, data: seq<Byte>, r: OnChain)
    requires var at := DeriveTransaction(env, tx.multisig, tx.transactionIndex).0;
             var opts := ProposalOptions(None, false, Attribution(None, None));
             && fetch(at) == Some(AccountInfo(env.programId, data)) && AccountProposal(data) == Some(tx)
             && Readable(env, data, at, opts) && Reports(env, tx, at, opts, r)
    ensures FetchedAs(env, fetch, DeriveTransaction(env, tx.multisig, tx.transactionIndex).0,
                      ProposalOptions(None, false, Attribution(None, None)), r)
  {}

  lemma StoredTransferFetched(env: Env, fetch: Fetch, recipient: Key, amount: U64, b: BuiltMessage,
      tx: VaultTransaction, x: Payload) returns (r: OnChain)
    requires var vault := DeriveVault(env, tx.multisig, tx.vaultIndex).0;
             vault != SYSTEM_PROGRAM && Compiles(vault, [Transfer(vault, recipient, amount)], b)
    requires Encodable(b) && tx.message == ToWire(b) && tx.approvals == [] && !tx.executed && tx.payer != recipient
    requires AsksFor(x.flows, recipient, amount) && ServesSend(env, fetch, tx)
    requires x.multisig == Bound(Base58(tx.multisig)) && x.vaultIndex.None? && x.vault.None?
    requires x.transaction == Some(Base58(DeriveTransaction(env, tx.multisig, tx.transactionIndex).0))
    ensures FetchedAs(env, fetch, DeriveTransaction(env, tx.multisig, tx.transactionIndex).0,
                      ProposalOptions(None, false, Attribution(None, None)), r)
    ensures Fitting(env, r, x) && r.multisig == tx.multisig && r.index == tx.transactionIndex
  {
    r := StoredTransferFits(env, recipient, amount, b, tx, x);
    StoredFetched(env, fetch, tx, AccountBytes(tx), r);
  }

  lemma AskedAboutIsDescribed(env: Env, multisig: Key, transaction: Key, other: Key, index: U64, member: Key,
      feePayer: Key, x: Payload)
    requires OwnProgram(env.programId)
    ensures var q := AskedAbout(env, multisig, transaction, other, index, member, feePayer, x);
            && DescribedBy(env, q.outer, q.decodeOptions,
                           ApproveTx(multisig, transaction, Some(index), [member], [transaction], [multisig], {}))
            && KindOf(env.programId, q.outer.instructions[1]) == Kind.Execute
  {
    var q := AskedAbout(env, multisig, transaction, other, index, member, feePayer, x);
    ApproveAndExecuteBundled(env.programId, multisig, transaction, other, index, member, feePayer);
    ApproveAndExecuteDescribed(env, q.decodeOptions, multisig, transaction, other, index, member, feePayer);
  }

  // The approve-only gate takes the bundle, whose second instruction is an execute.
  ghost predicate TakesExecute(env: Env, fetch: Fetch, q: ApproveRequest, d: Decoded, r: OnChain) {
    && AcceptedFor(env, fetch, q, d, r) && DescribedBy(env, q.outer, q.decodeOptions, d)
    && |q.outer.instructions| == 2 && KindOf(env.programId, q.outer.instructions[1]) == Kind.Execute
  }

  // With a fitting account behind the approved proposal, the gate accepts the bundle.
  lemma ApproveAndExecutePasses(env: Env, fetch: Fetch, at: Key, other: Key, member: Key, feePayer: Key, x: Payload,
      r: OnChain) returns (q: ApproveRequest, d: Decoded)
    requires OwnProgram(env.programId) && x.flows.expectedFeePayer.None? && x.transaction == Some(Base58(at))
    requires FetchedAs(env, fetch, at, ProposalOptions(None, false, Attribution(None, None)), r) && Fitting(env, r, x)
    ensures TakesExecute(env, fetch, q, d, r) && d.transaction == at
    ensures q == AskedAbout(env, r.multisig, at, other, r.index, member, feePayer, x)
  {
    q := AskedAbout(env, r.multisig, at, other, r.index, member, feePayer, x);
    d := ApproveTx(r.multisig, at, Some(r.index), [member], [at], [r.multisig], {});
    AskedAboutIsDescribed(env, r.multisig, at, other, r.index, member, feePayer, x);
    ApproveAndExecuteAccepted(env, q, r.multisig, at, r.index, member, r);
  }

  // The approve-only gate accepts, with the stored send it was shown, a bundle
  // that executes any other proposal.
  lemma ApproveOnlyMayExecuteAnother(env: Env, fetch: Fetch, recipient: Key, amount: U64, b: BuiltMessage,
      multisig: Key, index: U64, member: Key, feePayer: Key, bumps: (Byte, Byte), vaultIndex: Byte, other: Key)
      returns (q: ApproveRequest, d: Decoded, r: OnChain)
    requires OwnProgram(env.programId) && feePayer != recipient && other != DeriveTransaction(env, multisig, index).0
    requires var vault := DeriveVault(env, multisig, vaultIndex).0;
             vault != SYSTEM_PROGRAM && Compiles(vault, [Transfer(vault, recipient, amount)], b)
    requires Encodable(b)
    requires ServesSend(env, fetch, StoredSend(multisig, index, member, feePayer, bumps, vaultIndex, ToWire(b)))
    ensures TakesExecute(env, fetch, q, d, r)
    ensures AsksFor(q.x.flows, recipient, amount) && q.x.multisig == Bound(Base58(multisig))
            && q.approver == Some(Base58(member))
    ensures q.outer == ApproveAndExecute(env.programId, multisig, d.transaction, other, index, member, feePayer)
    ensures other != d.transaction
  {
    var at := DeriveTransaction(env, multisig, index).0;
    var flows := Expectation([ExpectedRecipient(Base58(recipient), Number(amount))], None, None, Unset, None);
    var x := Payload(flows, Some(Base58(at)), Bound(Base58(multisig)), None, None);
    var tx := StoredSend(multisig, index, member, feePayer, bumps, vaultIndex, ToWire(b));
    r := StoredTransferFetched(env, fetch, recipient, amount, b, tx, x);
    q, d := ApproveAndExecutePasses(env, fetch, at, other, member, feePayer, x, r);
  }

  // ---- a bundle that creates its proposal ----

  // Creating a proposal, with an execute that lists one account.
  function CreateAndExecute(program: Key, multisig: Key, transaction: Key, creator: Key, feePayer: Key,
      vaultIndex: Byte, message: seq<Byte>, keys: seq<Key>, index: U64): Outer
  {
    Outer(Some(feePayer),
          WithExecute(program,
                      OuterInstruction(program, [multisig, transaction, creator, feePayer, SYSTEM_PROGRAM],
                                       CreateData(vaultIndex, message)),
                      keys, index))
  }

  lemma CreateExtends(program: Key, feePayer: Option<Key>, first: OuterInstruction, vaultIndex: Byte,
      m: TransactionMessage)
    requires KindOf(program, first) == Kind.Create
    requires CreateMessage(first.data) == Some((vaultIndex, m))
    ensures var e := AsCreate(0, first);
            && Extend(program, ParsedBundle(feePayer, [], [], [], [], [], [], [], []), 0, first)
               == ParsedBundle(feePayer, [], [], [], [e], [], [], [], [])
            && e.keys == first.keys && e.inner == Abridged(vaultIndex, m)
    ensures CreateDecodes(program, first)
  {}

  lemma CreateWithExecute(program: Key, feePayer: Option<Key>, first: OuterInstruction, vaultIndex: Byte,
      m: TransactionMessage, keys: seq<Key>, index: U64) returns (b: ParsedBundle)
    requires OwnProgram(program) && |keys| < 2 && KindOf(program, first) == Kind.Create
    requires CreateMessage(first.data) == Some((vaultIndex, m))
    ensures var ixs := WithExecute(program, first, keys, index);
            && KindOf(program, ixs[1]) == Kind.Execute && CreatesDecode(program, ixs)
            && b == Bundled(program, feePayer, ixs)
    ensures |b.creates| == 1 && b.creates[0].keys == first.keys && b.creates[0].inner == Abridged(vaultIndex, m)
    ensures b.approves == [] && Column(b.executes, 1) == []
  {
    var ixs := WithExecute(program, first, keys, index);
    CreateExtends(program, feePayer, first, vaultIndex, m);
    WithExecuteBundled(program, feePayer, first, keys, index);
    OneColumn(AsMultisig(1, ixs[1]), 1);
    b := Bundled(program, feePayer, ixs);
  }

  lemma CreateAndExecuteParsed(program: Key, multisig: Key, transaction: Key, creator: Key, feePayer: Key,
      vaultIndex: Byte, message: seq<Byte>, m: TransactionMessage, keys: seq<Key>, index: U64) returns (b: ParsedBundle)
    requires OwnProgram(program) && |keys| < 2
             && CreateMessage(CreateData(vaultIndex, message)) == Some((vaultIndex, m))
    ensures var outer := CreateAndExecute(program, multisig, transaction, creator, feePayer, vaultIndex, message, keys,
                                          index);
            && KindOf(program, outer.instructions[0]) == Kind.Create
            && KindOf(program, outer.instructions[1]) == Kind.Execute
            && CreatesDecode(program, outer.instructions)
            && b == Bundled(program, outer.feePayer, outer.instructions)
    ensures |b.creates| == 1 && b.creates[0].keys == [multisig, transaction, creator, feePayer, SYSTEM_PROGRAM]
    ensures b.creates[0].inner == Abridged(vaultIndex, m) && b.approves == [] && Column(b.executes, 1) == []
  {
    var outer := CreateAndExecute(program, multisig, transaction, creator, feePayer, vaultIndex, message, keys, index);
    var first := outer.instructions[0];
    CreateKind(program, first.keys, vaultIndex, message);
    b := CreateWithExecute(program, outer.feePayer, first, vaultIndex, m, keys, index);
  }

  lemma CreateDescribed(env: Env, outer: Outer, b: ParsedBundle, opts: DecodeOptions, multisig: Key, transaction: Key,
      creator: Key, feePayer: Key, vaultIndex: Byte, m: TransactionMessage, v: View)
    requires |b.creates| == 1 && b.creates[0].keys == [multisig, transaction, creator, feePayer, SYSTEM_PROGRAM]
    requires b.creates[0].inner == Abridged(vaultIndex, m) && b.approves == [] && Column(b.executes, 1) == []
    requires outer.feePayer == Some(feePayer) && opts.who.Readable()
             && FlagsUnknown(outer, env.programId, opts.caps, {})
    requires ShowsMessage(env, Abridged(vaultIndex, m), Some(feePayer), opts.allowMemo, opts.who, v)
    ensures var memos := MemosOf(JudgeAll(env, m.accountKeys, Some(feePayer), opts.allowMemo, m.instructions));
            Describes(env, outer, b, opts,
                      CreateTx(vaultIndex, multisig, transaction, creator, m.accountKeys[0], v, memos, [], [], [], {}))
  {}

  lemma CreateMatches(env: Env, d: Decoded, x: Payload)
    requires d.CreateTx? && d.unknownOuter == {} && d.approveTargets == [] && d.executeTargets == []
    requires x.multisig == Bound(Base58(d.multisig)) && x.transaction == Some(Base58(d.transaction))
    requires x.vaultIndex == Some(d.vaultIndex) && x.vault == Some(Base58(d.sender))
             && FlowsAccepted(env, d.flows, x.flows)
    ensures Matches(env, d, x, false)
  {}

  // The enterprise gate takes the bundle, whose second instruction is an execute that lists these accounts.
  ghost predicate TakesUnlisted(env: Env, outer: Outer, keys: seq<Key>, opts: DecodeOptions, d: Decoded, x: Payload) {
    && CreatesDecode(env.programId, outer.instructions) && |outer.instructions| == 2
    && KindOf(env.programId, outer.instructions[1]) == Kind.Execute && outer.instructions[1].keys == keys
    && DescribedBy(env, outer, opts, d) && d.CreateTx? && Matches(env, d, x, false)
  }

  // The bytes of the create read back as a message whose view the flows accept.
  ghost predicate ReadsAndShows(env: Env, message: seq<Byte>, m: TransactionMessage, v: View, feePayer: Key,
      vaultIndex: Byte, opts: DecodeOptions, flows: Expectation)
  {
    && CreateMessage(CreateData(vaultIndex, message)) == Some((vaultIndex, m)) && m.accountKeys != []
    && ShowsMessage(env, Abridged(vaultIndex, m), Some(feePayer), opts.allowMemo, opts.who, v)
    && FlowsAccepted(env, v, flows)
  }

  lemma BareReadsAndShows(env: Env, message: seq<Byte>, m: TransactionMessage, v: View, feePayer: Key,
      vaultIndex: Byte, opts: DecodeOptions, flows: Expectation)
    requires CreateMessage(CreateData(vaultIndex, message)) == Some((vaultIndex, m)) && m.accountKeys != []
    requires opts.who == Attribution(None, None) && FlowsAccepted(env, v, flows)
    requires ShowsMessage(env, Abridged(vaultIndex, m), Some(feePayer), opts.allowMemo, Attribution(None, None), v)
    ensures ReadsAndShows(env, message, m, v, feePayer, vaultIndex, opts, flows)
  {}

  lemma TransferReadsAndShows(env: Env, recipient: Key, amount: U64, b: BuiltMessage, vault: Key, feePayer: Key,
      vaultIndex: Byte, opts: DecodeOptions, flows: Expectation) returns (v: View)
    requires vault != SYSTEM_PROGRAM && Compiles(vault, [Transfer(vault, recipient, amount)], b) && Encodable(b)
    requires feePayer != recipient && AsksFor(flows, recipient, amount) && opts.who == Attribution(None, None)
    ensures ReadsAndShows(env, MessageCodec().enc(ToWire(b)), ToWire(b), v, feePayer, vaultIndex, opts, flows)
            && ToWire(b).accountKeys[0] == vault
  {
    TransferCreates(vault, recipient, amount, b, vaultIndex);
    v := TransferShown(env, vault, recipient, amount, b, feePayer, vaultIndex, opts.allowMemo, flows);
    BareReadsAndShows(env, MessageCodec().enc(ToWire(b)), ToWire(b), v, feePayer, vaultIndex, opts, flows);
  }

  // A create of a message whose view is accepted, with an execute that lists
  // fewer than two accounts, is decoded and accepted.
  lemma CreateAndExecuteAccepted(env: Env, message: seq<Byte>, m: TransactionMessage, v: View, multisig: Key,
      transaction: Key, creator: Key, feePayer: Key, vaultIndex: Byte, keys: seq<Key>, index: U64,
      opts: DecodeOptions, x: Payload) returns (d: Decoded)
    requires OwnProgram(env.programId) && |keys| < 2 && opts.who.Readable()
    requires ReadsAndShows(env, message, m, v, feePayer, vaultIndex, opts, x.flows)
    requires x.multisig == Bound(Base58(multisig)) && x.transaction == Some(Base58(transaction))
    requires x.vaultIndex == Some(vaultIndex) && x.vault == Some(Base58(m.accountKeys[0]))
    ensures var outer := CreateAndExecute(env.programId, multisig, transaction, creator, feePayer, vaultIndex, message,
                                          keys, index);
            TakesUnlisted(env, outer, keys, opts, d, x)
  {
    var outer := CreateAndExecute(env.programId, multisig, transaction, creator, feePayer, vaultIndex, message, keys,
                                  index);
    var bundle := CreateAndExecuteParsed(env.programId, multisig, transaction, creator, feePayer, vaultIndex, message,
                                         m, keys, index);
    NothingFlagged(outer, env.programId, opts.caps);
    CreateDescribed(env, outer, bundle, opts, multisig, transaction, creator, feePayer, vaultIndex, m, v);
    var memos := MemosOf(JudgeAll(env, m.accountKeys, Some(feePayer), opts.allowMemo, m.instructions));
    d := CreateTx(vaultIndex, multisig, transaction, creator, m.accountKeys[0], v, memos, [], [], [], {});
    CreateMatches(env, d, x);
  }

  // The enterprise gate accepts a created send whose execute names no proposal,
  // and any multisig or none.
  lemma CreateMayExecuteNothing(env: Env, recipient: Key, amount: U64, b: BuiltMessage, multisig: Key, transaction: Key,
      creator: Key, feePayer: Key, vaultIndex: Byte, keys: seq<Key>, index: U64, opts: DecodeOptions, x: Payload)
      returns (d: Decoded)
    requires OwnProgram(env.programId) && feePayer != recipient && |keys| < 2
    requires var vault := DeriveVault(env, multisig, vaultIndex).0;
             vault != SYSTEM_PROGRAM && Compiles(vault, [Transfer(vault, recipient, amount)], b)
    requires Encodable(b) && AsksFor(x.flows, recipient, amount) && opts.who == Attribution(None, None)
    requires x.multisig == Bound(Base58(multisig)) && x.transaction == Some(Base58(transaction))
    requires x.vaultIndex == Some(vaultIndex) && x.vault == Some(Base58(DeriveVault(env, multisig, vaultIndex).0))
    ensures var outer := CreateAndExecute(env.programId, multisig, transaction, creator, feePayer, vaultIndex,
                                          MessageCodec().enc(ToWire(b)), keys, index);
            TakesUnlisted(env, outer, keys, opts, d, x)
  {
    var vault, m := DeriveVault(env, multisig, vaultIndex).0, ToWire(b);
    var v := TransferReadsAndShows(env, recipient, amount, b, vault, feePayer, vaultIndex, opts, x.flows);
    d := CreateAndExecuteAccepted(env, MessageCodec().enc(m), m, v, multisig, transaction, creator, feePayer,
                                  vaultIndex, keys, index, opts, x);
  }
}
