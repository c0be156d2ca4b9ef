/** The gate is not merely strict: the bundle an honest wallet builds for a native
    send passes it, whatever the members, the recipient and the amount. */
module HonestSend {
  import opened Wrappers
  import opened Bytes
  import opened Codecs
  import opened State
  import opened Reader
  import opened Pda
  import opened Ids
  import opened Program
  import opened Builder
  import opened Compilation
  import opened Guarantees
  import opened Classifier
  import opened Bundle
  import opened FundFlows
  import opened Enterprise
  import opened Consumer
  import opened Money

  // ---- the message ----

  function TransferData(amount: U64): seq<Byte> { [2, 0, 0, 0] + LittleEndian(amount, 8) }

  function Transfer(vault: Key, recipient: Key, amount: U64): Instruction {
    Instruction(SYSTEM_PROGRAM, [Meta(vault, true, true), Meta(recipient, false, true)], TransferData(amount))
  }

  lemma TransferDataReads(amount: U64)
    ensures var d := TransferData(amount);
            |d| == 12 && Value(d[0..4]) == SYSTEM_IX_TAG_TRANSFER && U64At(d, 4) == amount
  {
    var d := TransferData(amount);
    assert d[0..4] == [2, 0, 0, 0] && d[4..12] == LittleEndian(amount, 8);
    U64Bijection(amount, LittleEndian(amount, 8));
    assert [2, 0, 0, 0][1..] == [0, 0, 0] && [0, 0, 0][1..] == [0, 0] && [0, 0][1..] == [0] && [0][1..] == [];
  }

  lemma FewKeys(vault: Key, recipient: Key, amount: U64)
    ensures |FirstKeys(Observations(vault, [Transfer(vault, recipient, amount)]))| <= 4
  {
    var seen := Observations(vault, [Transfer(vault, recipient, amount)]);
    assert [Transfer(vault, recipient, amount)][..0] == [];
    assert seen == Observations(vault, []) + Mentions(Transfer(vault, recipient, amount));
    FirstKeysAtMost(seen);
  }

  lemma {:induction false} FirstKeysAtMost(seen: seq<Meta>)
    ensures |FirstKeys(seen)| <= |seen|
  {
    if seen == [] {
    } else {
      FirstKeysAtMost(seen[..|seen| - 1]);
    }
  }

  // The builder's output for the transfer is a message the program accepts.
  lemma TransferWellFormed(vault: Key, recipient: Key, amount: U64, b: BuiltMessage)
    requires vault != SYSTEM_PROGRAM && Compiles(vault, [Transfer(vault, recipient, amount)], b)
    ensures |b.accountKeys| <= 4 && Encodable(b) && WellFormed(ToWire(b), vault)
  {
    var ixs := [Transfer(vault, recipient, amount)];
    FewKeys(vault, recipient, amount);
    KeysUniqueVaultFirst(vault, ixs, b);
    assert ixs[..0] == [];
    assert forall o | o in Observations(vault, ixs) :: o.isSigner ==> o.key == vault;
    BuilderMeetsProgram(vault, ixs, b);
  }

  lemma TransferEncodes(vault: Key, recipient: Key, amount: U64, b: BuiltMessage)
    requires vault != SYSTEM_PROGRAM && Compiles(vault, [Transfer(vault, recipient, amount)], b)
    ensures Encodable(b) && MessageCodec().wf(ToWire(b)) && ToWire(b).accountKeys != []
            && ToWire(b).accountKeys[0] == vault
  {
    TransferWellFormed(vault, recipient, amount, b);
    WellFormedIsEncodable(ToWire(b), vault);
  }

  // And the decoder judges it to be that very payment.
  lemma TransferJudged(env: Env, vault: Key, recipient: Key, amount: U64, b: BuiltMessage, feePayer: Key,
      allowMemo: bool)
    requires vault != SYSTEM_PROGRAM && feePayer != recipient
             && Compiles(vault, [Transfer(vault, recipient, amount)], b)
    ensures |b.accountKeys| <= 4 && Encodable(b)
    ensures var m := ToWire(b);
            m.accountKeys != [] && |m.instructions| == 1
            && Judge(env, m.accountKeys, Some(feePayer), allowMemo, m.instructions[0])
               == Paid(Native(recipient, amount))
  {
    var ixs := [Transfer(vault, recipient, amount)];
    TransferWellFormed(vault, recipient, amount, b);
    KeysUniqueVaultFirst(vault, ixs, b);
    TransferDataReads(amount);
    assert CompiledTo(b.accountKeys, ixs[0], b.instructions[0]);
    IndexesResolve(vault, ixs, b, 0, 0);
    IndexesResolve(vault, ixs, b, 0, 1);
  }

  // ---- the bundle ----

  // The instruction data around a message in Borsh.
  function CreateData(vaultIndex: Byte, message: seq<Byte>): seq<Byte> {
    CREATE_TRANSACTION_DISCRIMINATOR + ([vaultIndex] + message)
  }

  lemma MessageReadsAt(m: TransactionMessage, buf: seq<Byte>, i: nat)
    requires MessageCodec().wf(m) && Holds(buf, i, MessageCodec().enc(m))
    ensures DecMessage(buf, i) == Some((m, i + |MessageCodec().enc(m)|))
  {
    MessageRoundTrips(m, buf, i);
  }

  lemma CreateDataHolds(vaultIndex: Byte, message: seq<Byte>)
    ensures var data := CreateData(vaultIndex, message);
            |data| >= 9 && data[8] == vaultIndex && Holds(data, 9, message)
  {}

  lemma CreateDataReads(vaultIndex: Byte, m: TransactionMessage)
    requires MessageCodec().wf(m)
    ensures CreateMessage(CreateData(vaultIndex, MessageCodec().enc(m))) == Some((vaultIndex, m))
  {
    var data := CreateData(vaultIndex, MessageCodec().enc(m));
    CreateDataHolds(vaultIndex, MessageCodec().enc(m));
    MessageReadsAt(m, data, 9);
  }

  // The create_transaction data of the transfer reads back as its message, which debits the vault.
  lemma TransferCreates(vault: Key, recipient: Key, amount: U64, b: BuiltMessage, vaultIndex: Byte)
    requires vault != SYSTEM_PROGRAM && Compiles(vault, [Transfer(vault, recipient, amount)], b)
    ensures Encodable(b) && ToWire(b).accountKeys != [] && ToWire(b).accountKeys[0] == vault
    ensures CreateMessage(CreateData(vaultIndex, MessageCodec().enc(ToWire(b)))) == Some((vaultIndex, ToWire(b)))
  {
    TransferEncodes(vault, recipient, amount, b);
    CreateDataReads(vaultIndex, ToWire(b));
  }

  function IndexData(discriminator: seq<Byte>, index: U64): seq<Byte> { discriminator + LittleEndian(index, 8) }

  lemma IndexReads(discriminator: seq<Byte>, index: U64)
    requires |discriminator| == 8
    ensures IndexArgument(IndexData(discriminator, index)) == Some(index)
  {
    var data := IndexData(discriminator, index);
    assert data[8..16] == LittleEndian(index, 8);
    U64Bijection(index, LittleEndian(index, 8));
  }

  // The accounts a send names: the multisig, its proposal, two members, and who pays for it all.
  datatype Parties = Parties(multisig: Key, transaction: Key, index: U64, wallet: Key, key: Key, payer: Key)

  // create, approve (wallet), approve (key), execute with the accounts its message needs, close
  function SendBundle(program: Key, s: Parties, vaultIndex: Byte, message: seq<Byte>,
      remaining: seq<Key>): seq<OuterInstruction>
  {
    [OuterInstruction(program, [s.multisig, s.transaction, s.wallet, s.payer, SYSTEM_PROGRAM],
                      CreateData(vaultIndex, message)),
     OuterInstruction(program, [s.multisig, s.transaction, s.wallet],
                      IndexData(APPROVE_TRANSACTION_DISCRIMINATOR, s.index)),
     OuterInstruction(program, [s.multisig, s.transaction, s.key],
                      IndexData(APPROVE_TRANSACTION_DISCRIMINATOR, s.index)),
     OuterInstruction(program, [s.multisig, s.transaction, s.wallet] + remaining,
                      IndexData(EXECUTE_TRANSACTION_DISCRIMINATOR, s.index)),
     OuterInstruction(program, [s.multisig, s.transaction, s.payer],
                      IndexData(CLOSE_TRANSACTION_DISCRIMINATOR, s.index))]
  }

  predicate OwnProgram(program: Key) {
    program != SYSTEM_PROGRAM && program != COMPUTE_BUDGET_PROGRAM && program != ATA_PROGRAM
  }

  lemma CreateKind(program: Key, keys: seq<Key>, vaultIndex: Byte, message: seq<Byte>)
    requires OwnProgram(program)
    ensures KindOf(program, OuterInstruction(program, keys, CreateData(vaultIndex, message))) == Kind.Create
  {
    assert CreateData(vaultIndex, message)[..8] == CREATE_TRANSACTION_DISCRIMINATOR;
  }

  lemma IndexedKind(program: Key, keys: seq<Key>, index: U64)
    requires OwnProgram(program)
    ensures KindOf(program, OuterInstruction(program, keys, IndexData(APPROVE_TRANSACTION_DISCRIMINATOR, index)))
            == Kind.Approve
    ensures KindOf(program, OuterInstruction(program, keys, IndexData(EXECUTE_TRANSACTION_DISCRIMINATOR, index)))
            == Kind.Execute
    ensures KindOf(program, OuterInstruction(program, keys, IndexData(CLOSE_TRANSACTION_DISCRIMINATOR, index)))
            == Kind.Close
  {
    assert IndexData(APPROVE_TRANSACTION_DISCRIMINATOR, index)[..8] == APPROVE_TRANSACTION_DISCRIMINATOR;
    assert IndexData(EXECUTE_TRANSACTION_DISCRIMINATOR, index)[..8] == EXECUTE_TRANSACTION_DISCRIMINATOR;
    assert IndexData(CLOSE_TRANSACTION_DISCRIMINATOR, index)[..8] == CLOSE_TRANSACTION_DISCRIMINATOR;
    assert CREATE_TRANSACTION_DISCRIMINATOR[0] == 227 && APPROVE_TRANSACTION_DISCRIMINATOR[0] == 224;
    assert EXECUTE_TRANSACTION_DISCRIMINATOR[0] == 231 && CLOSE_TRANSACTION_DISCRIMINATOR[0] == 97;
  }

  lemma SendBundleKinds(program: Key, s: Parties, vaultIndex: Byte, message: seq<Byte>, remaining: seq<Key>)
    requires OwnProgram(program)
    ensures var ixs := SendBundle(program, s, vaultIndex, message, remaining);
            && KindOf(program, ixs[0]) == Kind.Create
            && KindOf(program, ixs[1]) == KindOf(program, ixs[2]) == Kind.Approve
            && KindOf(program, ixs[3]) == Kind.Execute && KindOf(program, ixs[4]) == Kind.Close
  {
    CreateKind(program, [s.multisig, s.transaction, s.wallet, s.payer, SYSTEM_PROGRAM], vaultIndex, message);
    IndexedKind(program, [s.multisig, s.transaction, s.wallet], s.index);
    IndexedKind(program, [s.multisig, s.transaction, s.key], s.index);
    IndexedKind(program, [s.multisig, s.transaction, s.wallet] + remaining, s.index);
    IndexedKind(program, [s.multisig, s.transaction, s.payer], s.index);
  }

  // Five more instructions of these kinds go to these buckets.
  lemma FiveBundled(program: Key, feePayer: Option<Key>, ixs: seq<OuterInstruction>, n: nat, b: ParsedBundle)
    requires |ixs| == n + 5 && b == Bundled(program, feePayer, ixs[..n])
    requires KindOf(program, ixs[n]) == Kind.Create
    requires KindOf(program, ixs[n + 1]) == KindOf(program, ixs[n + 2]) == Kind.Approve
    requires KindOf(program, ixs[n + 3]) == Kind.Execute && KindOf(program, ixs[n + 4]) == Kind.Close
    ensures Bundled(program, feePayer, ixs)
            == b.(creates := b.creates + [AsCreate(n, ixs[n])],
                  approves := b.approves + [AsMultisig(n + 1, ixs[n + 1])] + [AsMultisig(n + 2, ixs[n + 2])],
                  executes := b.executes + [AsMultisig(n + 3, ixs[n + 3])],
                  closes := b.closes + [AsMultisig(n + 4, ixs[n + 4])])
  {
    assert ixs == ixs[..n + 5];
    BundledSnoc(program, feePayer, ixs, n + 4);
    BundledSnoc(program, feePayer, ixs, n + 3);
    BundledSnoc(program, feePayer, ixs, n + 2);
    BundledSnoc(program, feePayer, ixs, n + 1);
    BundledSnoc(program, feePayer, ixs, n);
  }

  // ---- acceptance ----

  lemma OnePaired(env: Env, r: Recipient, e: ExpectedRecipient)
    requires Fits(env, r, e)
    ensures Paired(env, [r], [e])
  {
    assert FirstFit(env, [r], {}, e, 0) == 0;
    assert [e][1..] == [];
    assert Greedy(env, [r], [e], {}) == Some({} + {0});
  }

  // A message of one instruction, judged a payment, shows that payment.
  lemma ShowsOne(env: Env, inner: InnerMessage, feePayer: Option<Key>, allowMemo: bool, who: Attribution, r: Recipient,
      v: View)
    requires inner.accountKeys != [] && |inner.instructions| == 1 && inner.addressTableLookupCount == 0
    requires Judge(env, inner.accountKeys, feePayer, allowMemo, inner.instructions[0]) == Paid(r)
    requires v == View([Displayed(env, r, who)], 0, feePayer, 0)
    ensures ShowsMessage(env, inner, feePayer, allowMemo, who, v)
  {
    assert inner.instructions[..0] == [];
    assert JudgeAll(env, inner.accountKeys, feePayer, allowMemo, inner.instructions) == [Paid(r)];
    OnePaid(r);
  }

  // What asks for this one native payment and sets a readable cap, or none.
  predicate AsksFor(x: Expectation, recipient: Key, amount: U64) {
    && x.recipients == [ExpectedRecipient(Base58(recipient), Number(amount))]
    && x.tokenMint.None? && x.maxFee != Cap(NotANumber)
  }

  lemma PaymentAccepted(env: Env, recipient: Key, amount: U64, feePayer: Key, x: Expectation, v: View)
    requires AsksFor(x, recipient, amount) && v == View([Native(recipient, amount)], 0, Some(feePayer), 0)
    ensures FlowsAccepted(env, v, x)
  {
    OnePaired(env, v.recipients[0], ExpectedRecipient(Base58(recipient), Number(amount)));
  }

  // The view of the transfer's message, and that it is the one asked for.
  lemma TransferShown(env: Env, vault: Key, recipient: Key, amount: U64, b: BuiltMessage, feePayer: Key,
      vaultIndex: Byte, allowMemo: bool, x: Expectation) returns (v: View)
    requires vault != SYSTEM_PROGRAM && feePayer != recipient
             && Compiles(vault, [Transfer(vault, recipient, amount)], b)
    requires AsksFor(x, recipient, amount)
    ensures v == View([Native(recipient, amount)], 0, Some(feePayer), 0) && FlowsAccepted(env, v, x) && Encodable(b)
    ensures ShowsMessage(env, Abridged(vaultIndex, ToWire(b)), Some(feePayer), allowMemo, Attribution(None, None), v)
  {
    TransferJudged(env, vault, recipient, amount, b, feePayer, allowMemo);
    v := View([Native(recipient, amount)], 0, Some(feePayer), 0);
    ShowsOne(env, Abridged(vaultIndex, ToWire(b)), Some(feePayer), allowMemo, Attribution(None, None),
             Native(recipient, amount), v);
    PaymentAccepted(env, recipient, amount, feePayer, x, v);
  }

  // The bucketed bundle is as a send of these parties must be.
  predicate SendParts(b: ParsedBundle, s: Parties, vaultIndex: Byte, m: TransactionMessage) {
    && |b.creates| == 1 && |b.approves| == 2 && |b.executes| == |b.closes| == 1
    && b.creates[0].keys == [s.multisig, s.transaction, s.wallet, s.payer, SYSTEM_PROGRAM]
    && b.creates[0].inner == Abridged(vaultIndex, m)
    && b.approves[0].keys == [s.multisig, s.transaction, s.wallet]
    && b.approves[1].keys == [s.multisig, s.transaction, s.key]
    && Targets(b.executes[0], s.multisig, s.transaction) && Targets(b.closes[0], s.multisig, s.transaction)
  }

  // The gate was asked about these parties: two members, one of them the signer, and another who pays.
  predicate AskedOf(p: Params, s: Parties) {
    && s.wallet != s.key && s.payer != s.wallet && s.payer != s.key
    && p.multisig == Base58(s.multisig) && p.members == [Base58(s.wallet), Base58(s.key)] && p.signer in p.members
    && (p.expectedFeePayer.Some? ==> p.expectedFeePayer.value == Base58(s.payer))
  }

  lemma SendFits(env: Env, p: Params, b: ParsedBundle, s: Parties, vaultIndex: Byte, m: TransactionMessage,
      rs: seq<Recipient>)
    requires AskedOf(p, s) && p.vaultIndex == vaultIndex && SendParts(b, s, vaultIndex, m)
    requires m.accountKeys != [] && m.accountKeys[0] == DeriveVault(env, s.multisig, vaultIndex).0
    requires b.feePayer == Some(s.payer) && b.foreign == [] && NonceFits(b.nonceAdvances)
    requires BudgetsFit(b.computeBudget, p.caps) && AtaCreatesFit(env, p, b.ataCreates, rs, b.feePayer)
    ensures Identified(p) && FeePayerFits(p, b.feePayer) && OuterFits(env, p, b, rs)
  {
    assert p.vaultIndex % 256 == p.vaultIndex;
    assert Base58(b.approves[0].keys[2]) == p.signer || Base58(b.approves[1].keys[2]) == p.signer;
  }

  // Nothing of the multisig program so far.
  predicate Prelude(b: ParsedBundle) {
    b.creates == [] && b.approves == [] && b.executes == [] && b.closes == [] && b.foreign == []
  }

  lemma SendDecodes(program: Key, before: seq<OuterInstruction>, s: Parties, vaultIndex: Byte, message: seq<Byte>,
      remaining: seq<Key>)
    requires OwnProgram(program) && CreateMessage(CreateData(vaultIndex, message)).Some?
             && CreatesDecode(program, before)
    ensures CreatesDecode(program, before + SendBundle(program, s, vaultIndex, message, remaining))
  {
    var send := SendBundle(program, s, vaultIndex, message, remaining);
    SendBundleKinds(program, s, vaultIndex, message, remaining);
    assert CreateDecodes(program, send[0]) && CreateDecodes(program, send[1]) && CreateDecodes(program, send[2]);
    assert CreateDecodes(program, send[3]) && CreateDecodes(program, send[4]);
  }

  // What a bundle parses to that ends in a send.
  lemma SendBundled(program: Key, feePayer: Option<Key>, before: seq<OuterInstruction>, s: Parties, vaultIndex: Byte,
      message: seq<Byte>, remaining: seq<Key>)
    requires OwnProgram(program) && Prelude(Bundled(program, feePayer, before))
    ensures var send := SendBundle(program, s, vaultIndex, message, remaining);
            var n := |before|;
            Bundled(program, feePayer, before + send)
            == Bundled(program, feePayer, before).(
                 creates := [AsCreate(n, send[0])],
                 approves := [AsMultisig(n + 1, send[1]), AsMultisig(n + 2, send[2])],
                 executes := [AsMultisig(n + 3, send[3])], closes := [AsMultisig(n + 4, send[4])])
  {
    var send := SendBundle(program, s, vaultIndex, message, remaining);
    var ixs, n := before + send, |before|;
    assert ixs[..n] == before;
    assert ixs[n] == send[0] && ixs[n + 1] == send[1] && ixs[n + 2] == send[2] && ixs[n + 3] == send[3]
           && ixs[n + 4] == send[4];
    SendBundleKinds(program, s, vaultIndex, message, remaining);
    FiveBundled(program, feePayer, ixs, n, Bundled(program, feePayer, before));
  }

  lemma SendParsed(program: Key, outer: Outer, before: seq<OuterInstruction>, s: Parties, vaultIndex: Byte,
      message: seq<Byte>, remaining: seq<Key>, m: TransactionMessage) returns (b: ParsedBundle)
    requires OwnProgram(program) && CreateMessage(CreateData(vaultIndex, message)) == Some((vaultIndex, m))
    requires CreatesDecode(program, before) && Prelude(Bundled(program, outer.feePayer, before))
    requires outer.instructions == before + SendBundle(program, s, vaultIndex, message, remaining)
    ensures CreatesDecode(program, outer.instructions) && b == Bundled(program, outer.feePayer, outer.instructions)
    ensures var head := Bundled(program, outer.feePayer, before);
            && b.feePayer == head.feePayer && b.foreign == [] && b.nonceAdvances == head.nonceAdvances
            && b.computeBudget == head.computeBudget && b.ataCreates == head.ataCreates
    ensures SendParts(b, s, vaultIndex, m)
  {
    SendDecodes(program, before, s, vaultIndex, message, remaining);
    SendBundled(program, outer.feePayer, before, s, vaultIndex, message, remaining);
    b := Bundled(program, outer.feePayer, outer.instructions);
  }

  lemma AcceptedFromParts(env: Env, outer: Outer, p: Params, b: ParsedBundle, v: View)
    requires CreatesDecode(env.programId, outer.instructions)
             && b == Bundled(env.programId, outer.feePayer, outer.instructions)
    requires Identified(p) && FeePayerFits(p, b.feePayer) && OuterFits(env, p, b, v.recipients)
    requires ShowsMessage(env, b.creates[0].inner, b.feePayer, true, Who(p), v)
    requires FlowsAccepted(env, v, Wanted(p)) && AtaVerified(v.recipients)
    ensures ConsumerAccepts(env, outer, p, v)
  {}

  // A bundle that ends in a send of a message whose view is accepted, after
  // preparations that fit, is accepted.
  lemma SendAccepted(env: Env, p: Params, outer: Outer, before: seq<OuterInstruction>, s: Parties, vaultIndex: Byte,
      message: seq<Byte>, remaining: seq<Key>, m: TransactionMessage, v: View)
    requires OwnProgram(env.programId) && AskedOf(p, s) && p.vaultIndex == vaultIndex
    requires CreateMessage(CreateData(vaultIndex, message)) == Some((vaultIndex, m))
    requires m.accountKeys != [] && m.accountKeys[0] == DeriveVault(env, s.multisig, vaultIndex).0
    requires outer.feePayer == Some(s.payer) && CreatesDecode(env.programId, before)
    requires outer.instructions == before + SendBundle(env.programId, s, vaultIndex, message, remaining)
    requires var head := Bundled(env.programId, outer.feePayer, before);
             && Prelude(head) && head.feePayer == Some(s.payer) && NonceFits(head.nonceAdvances)
             && BudgetsFit(head.computeBudget, p.caps)
             && AtaCreatesFit(env, p, head.ataCreates, v.recipients, Some(s.payer))
    requires ShowsMessage(env, Abridged(vaultIndex, m), Some(s.payer), true, Who(p), v)
    requires FlowsAccepted(env, v, Wanted(p)) && AtaVerified(v.recipients)
    ensures ConsumerAccepts(env, outer, p, v)
  {
    var b := SendParsed(env.programId, outer, before, s, vaultIndex, message, remaining, m);
    SendFits(env, p, b, s, vaultIndex, m, v.recipients);
    AcceptedFromParts(env, outer, p, b, v);
  }

  // The same with nothing before the send.
  lemma BareSendAccepted(env: Env, p: Params, outer: Outer, s: Parties, vaultIndex: Byte, message: seq<Byte>,
      remaining: seq<Key>, m: TransactionMessage, v: View)
    requires OwnProgram(env.programId) && AskedOf(p, s) && p.vaultIndex == vaultIndex
    requires CreateMessage(CreateData(vaultIndex, message)) == Some((vaultIndex, m))
    requires m.accountKeys != [] && m.accountKeys[0] == DeriveVault(env, s.multisig, vaultIndex).0
    requires outer == Outer(Some(s.payer), SendBundle(env.programId, s, vaultIndex, message, remaining))
    requires ShowsMessage(env, Abridged(vaultIndex, m), Some(s.payer), true, Who(p), v)
    requires FlowsAccepted(env, v, Wanted(p)) && AtaVerified(v.recipients)
    ensures ConsumerAccepts(env, outer, p, v)
  {
    assert [] + outer.instructions == outer.instructions;
    SendAccepted(env, p, outer, [], s, vaultIndex, message, remaining, m, v);
  }

  // The whole bundle for a message: its Borsh form in the create, its accounts with the execute.
  function MessageBundle(program: Key, s: Parties, vaultIndex: Byte, m: TransactionMessage): Outer {
    Outer(Some(s.payer), SendBundle(program, s, vaultIndex, MessageCodec().enc(m), m.accountKeys))
  }

  // Whoever the two members are, whatever is sent to whom: the bundle the SDK's
  // builder makes of a native send is accepted, and the program will take it.
  lemma HonestSendAccepted(env: Env, p: Params, recipient: Key, amount: U64, b: BuiltMessage, s: Parties,
      vaultIndex: Byte) returns (v: View)
    requires OwnProgram(env.programId) && AskedOf(p, s) && s.payer != recipient
    requires p.vaultIndex == vaultIndex && p.send == Send(Base58(recipient), Number(amount), None, None)
    requires p.maxFee != Cap(NotANumber)
    requires var vault := DeriveVault(env, s.multisig, vaultIndex).0;
             vault != SYSTEM_PROGRAM && Compiles(vault, [Transfer(vault, recipient, amount)], b)
    requires Encodable(b)
    ensures ConsumerAccepts(env, MessageBundle(env.programId, s, vaultIndex, ToWire(b)), p, v)
    ensures WellFormed(ToWire(b), DeriveVault(env, s.multisig, vaultIndex).0)
  {
    var vault, m := DeriveVault(env, s.multisig, vaultIndex).0, ToWire(b);
    TransferCreates(vault, recipient, amount, b, vaultIndex);
    v := TransferShown(env, vault, recipient, amount, b, s.payer, vaultIndex, true, Wanted(p));
    BareSendAccepted(env, p, MessageBundle(env.programId, s, vaultIndex, m), s, vaultIndex, MessageCodec().enc(m),
                     m.accountKeys, m, v);
    TransferWellFormed(vault, recipient, amount, b);
  }

  // The CPI it comes to.
  lemma TransferResolves(vault: Key, recipient: Key, amount: U64, b: BuiltMessage) returns (cpi: Invocation)
    requires vault != SYSTEM_PROGRAM && Compiles(vault, [Transfer(vault, recipient, amount)], b) && Encodable(b)
    ensures var m := ToWire(b); |m.instructions| == 1 && Resolve(m, m.instructions[0]) == Some(cpi)
    ensures cpi.program == SYSTEM_PROGRAM && cpi.data == TransferData(amount) && |cpi.metas| == 2
    ensures cpi.metas[0] == Meta(vault, true, true) && cpi.metas[1].key == recipient && cpi.metas[1].isWritable
  {
    var ixs := [Transfer(vault, recipient, amount)];
    var seen := Observations(vault, ixs);
    TransferWellFormed(vault, recipient, amount, b);
    CompileThenExecute(vault, ixs, b, 0);
    cpi := Resolve(ToWire(b), ToWire(b).instructions[0]).value;
    MentionsSeen(vault, ixs, 0);
    assert Mentions(ixs[0])[1] == Meta(vault, true, true) && Mentions(ixs[0])[2] == Meta(recipient, false, true);
    FlagsAreOrs(seen, vault);
    FlagsAreOrs(seen, recipient);
  }

  // And executing it moves the amount, provided the vault has it.
  lemma HonestSendPays(foreign: Foreign, purse: Purse, vault: Key, recipient: Key, amount: U64, b: BuiltMessage)
    requires vault != SYSTEM_PROGRAM && Compiles(vault, [Transfer(vault, recipient, amount)], b) && Encodable(b)
    requires Balance(purse.lamports, vault) >= amount
    ensures RunMessage(foreign, purse, ToWire(b), 0)
            == Some((purse.(lamports := Move(purse.lamports, vault, recipient, amount)),
                     [Lamports(vault, recipient, amount)]))
  {
    var cpi := TransferResolves(vault, recipient, amount, b);
    TransferDataReads(amount);
    var moved := (purse.(lamports := Move(purse.lamports, vault, recipient, amount)),
                  [Lamports(vault, recipient, amount)]);
    assert Perform(foreign, purse, cpi) == Some(moved);
    assert RunMessage(foreign, moved.0, ToWire(b), 1) == Some((moved.0, []));
    assert moved.1 + [] == moved.1;
  }
}
