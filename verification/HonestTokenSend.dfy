/** The full consumer bundle: a token send after a nonce advance, both compute budget
    instructions and the creation of the recipient's account is accepted as well. */
module HonestTokenSend {
  import opened Wrappers
  import opened Bytes
  import opened State
  import opened Reader
  import opened Pda
  import opened Ids
  import opened Program
  import opened Builder
  import opened Compilation
  import opened Guarantees
  import opened Classifier
  import opened Bundle
  import opened FundFlows
  import opened Consumer
  import opened HonestSend

  // ---- the message ----

  function TokenTransfer(program: Key, vault: Key, source: Key, mint: Key, dest: Key, amount: U64,
      decimals: Byte): Instruction {
    Instruction(program,
                [Meta(source, false, true), Meta(mint, false, false), Meta(dest, false, true),
                 Meta(vault, true, false)],
                CheckedData(amount, decimals))
  }

  // The builder's output for the transfer is a message the program accepts.
  lemma TokenTransferWellFormed(program: Key, vault: Key, source: Key, mint: Key, dest: Key, amount: U64,
      decimals: Byte, b: BuiltMessage)
    requires vault != program
             && Compiles(vault, [TokenTransfer(program, vault, source, mint, dest, amount, decimals)], b)
    ensures |b.accountKeys| <= 6 && Encodable(b) && WellFormed(ToWire(b), vault)
  {
    var ixs := [TokenTransfer(program, vault, source, mint, dest, amount, decimals)];
    var seen := Observations(vault, ixs);
    assert ixs[..0] == [];
    assert seen == Observations(vault, []) + Mentions(ixs[0]);
    FirstKeysAtMost(seen);
    KeysUniqueVaultFirst(vault, ixs, b);
    assert forall o | o in seen :: o.isSigner ==> o.key == vault;
    BuilderMeetsProgram(vault, ixs, b);
  }

  lemma TokenTransferEncodes(program: Key, vault: Key, source: Key, mint: Key, dest: Key, amount: U64, decimals: Byte,
      b: BuiltMessage)
    requires vault != program
             && Compiles(vault, [TokenTransfer(program, vault, source, mint, dest, amount, decimals)], b)
    ensures Encodable(b) && MessageCodec().wf(ToWire(b)) && ToWire(b).accountKeys != []
            && ToWire(b).accountKeys[0] == vault
  {
    TokenTransferWellFormed(program, vault, source, mint, dest, amount, decimals, b);
    WellFormedIsEncodable(ToWire(b), vault);
  }

  lemma TokenTransferJudged(env: Env, program: Key, vault: Key, source: Key, mint: Key, dest: Key, amount: U64,
      decimals: Byte, b: BuiltMessage, feePayer: Option<Key>, allowMemo: bool)
    requires IsTokenProgram(program) && vault != program
    requires Compiles(vault, [TokenTransfer(program, vault, source, mint, dest, amount, decimals)], b)
    ensures |b.accountKeys| <= 6 && Encodable(b)
    ensures var m := ToWire(b);
            && m.accountKeys != [] && |m.instructions| == 1
            && Judge(env, m.accountKeys, feePayer, allowMemo, m.instructions[0])
               == Paid(Spl(dest, dest, None, amount, mint, decimals, program))
  {
    var ixs := [TokenTransfer(program, vault, source, mint, dest, amount, decimals)];
    TokenTransferWellFormed(program, vault, source, mint, dest, amount, decimals, b);
    KeysUniqueVaultFirst(vault, ixs, b);
    assert CompiledTo(b.accountKeys, ixs[0], b.instructions[0]);
    IndexesResolve(vault, ixs, b, 0, 1);
    IndexesResolve(vault, ixs, b, 0, 2);
    IndexesResolve(vault, ixs, b, 0, 3);
    CheckedJudged(env, ToWire(b).accountKeys, feePayer, allowMemo, ToWire(b).instructions[0], amount, decimals);
  }

  predicate AsksForTokens(p: Params, recipient: Key, amount: U64, mint: Key, decimals: Byte) {
    && p.send == Send(Base58(recipient), Number(amount), Some(Base58(mint)), Some(decimals))
    && p.maxFee != Cap(NotANumber)
  }

  function TokenView(recipient: Key, dest: Key, amount: U64, mint: Key, decimals: Byte, program: Key,
      feePayer: Key): View {
    View([Spl(recipient, dest, Some(true), amount, mint, decimals, program)], 0, Some(feePayer), 0)
  }

  lemma TokenPaymentAccepted(env: Env, recipient: Key, dest: Key, amount: U64, mint: Key, decimals: Byte, program: Key,
      feePayer: Key, p: Params)
    requires AsksForTokens(p, recipient, amount, mint, decimals)
    ensures var v := TokenView(recipient, dest, amount, mint, decimals, program, feePayer);
            FlowsAccepted(env, v, Wanted(p)) && AtaVerified(v.recipients)
  {
    var v := TokenView(recipient, dest, amount, mint, decimals, program, feePayer);
    OnePaired(env, v.recipients[0], ExpectedRecipient(Base58(recipient), Number(amount)));
  }

  // Paid into the recipient's own account, it is displayed as paid to the recipient.
  lemma TokenTransferShown(env: Env, program: Key, vault: Key, source: Key, mint: Key, recipient: Key, amount: U64,
      decimals: Byte, b: BuiltMessage, feePayer: Key, vaultIndex: Byte, p: Params)
    requires IsTokenProgram(program) && vault != program && AsksForTokens(p, recipient, amount, mint, decimals)
    requires Compiles(vault,
                      [TokenTransfer(program, vault, source, mint, DeriveAta(env, recipient, mint, program), amount,
                                     decimals)], b)
    ensures Encodable(b)
    ensures ShowsMessage(env, Abridged(vaultIndex, ToWire(b)), Some(feePayer), true, Who(p),
                         TokenView(recipient, DeriveAta(env, recipient, mint, program), amount, mint, decimals, program,
                                   feePayer))
  {
    var dest := DeriveAta(env, recipient, mint, program);
    var r := Spl(dest, dest, None, amount, mint, decimals, program);
    TokenTransferJudged(env, program, vault, source, mint, dest, amount, decimals, b, Some(feePayer), true);
    var v := TokenView(recipient, dest, amount, mint, decimals, program, feePayer);
    assert Displayed(env, r, Who(p)) == v.recipients[0];
    ShowsOne(env, Abridged(vaultIndex, ToWire(b)), Some(feePayer), true, Who(p), r, v);
  }

  // ---- what comes before the send ----

  function LimitData(limit: nat): seq<Byte> { [2] + LittleEndian(limit, 4) }

  function PriceData(price: U64): seq<Byte> { [3] + LittleEndian(price, 8) }

  lemma BudgetReads(limit: nat, price: U64)
    requires limit < U32_LIMIT
    ensures BudgetTag(LimitData(limit)) == COMPUTE_BUDGET_TAG_SET_UNIT_LIMIT
            && BudgetValue(LimitData(limit)) == Some(limit)
    ensures BudgetTag(PriceData(price)) == COMPUTE_BUDGET_TAG_SET_UNIT_PRICE
            && BudgetValue(PriceData(price)) == Some(price)
  {
    Widths();
    ValueOfLittleEndian(limit, 4);
    U64Bijection(price, LittleEndian(price, 8));
    assert LimitData(limit)[1..5] == LittleEndian(limit, 4) && PriceData(price)[1..9] == LittleEndian(price, 8);
  }

  // nonceAdvance, limit, price, account creation
  function Preparations(nonce: seq<Key>, limit: nat, price: U64, funder: Key, ata: Key, owner: Key, mint: Key,
      tokenProgram: Key): seq<OuterInstruction> {
    [OuterInstruction(SYSTEM_PROGRAM, nonce, [4, 0, 0, 0]),
     OuterInstruction(COMPUTE_BUDGET_PROGRAM, [], LimitData(limit)),
     OuterInstruction(COMPUTE_BUDGET_PROGRAM, [], PriceData(price)),
     OuterInstruction(ATA_PROGRAM, [funder, ata, owner, mint, SYSTEM_PROGRAM, tokenProgram], [1])]
  }

  lemma PreparationKinds(program: Key, nonce: seq<Key>, limit: nat, price: U64, funder: Key, ata: Key, owner: Key,
      mint: Key, tokenProgram: Key)
    ensures var ixs := Preparations(nonce, limit, price, funder, ata, owner, mint, tokenProgram);
            && KindOf(program, ixs[0]) == NonceAdvance
            && KindOf(program, ixs[1]) == KindOf(program, ixs[2]) == ComputeBudget
            && KindOf(program, ixs[3]) == AtaCreate
  {
    assert [4, 0, 0, 0][0..4] == [4, 0, 0, 0] && Value([4, 0, 0, 0]) == 4 by {
      assert [4, 0, 0, 0][1..] == [0, 0, 0] && [0, 0, 0][1..] == [0, 0] && [0, 0][1..] == [0] && [0][1..] == [];
    }
    assert SYSTEM_PROGRAM[0] == 0 && COMPUTE_BUDGET_PROGRAM[0] == 3 && ATA_PROGRAM[0] == 140;
  }

  lemma OneBundled(program: Key, feePayer: Option<Key>, ixs: seq<OuterInstruction>)
    requires |ixs| >= 1 && KindOf(program, ixs[0]) == NonceAdvance
    ensures Bundled(program, feePayer, ixs[..1]) == ParsedBundle(feePayer, [0], [], [], [], [], [], [], [])
  {
    BundledSnoc(program, feePayer, ixs, 0);
  }

  lemma BudgetBundled(program: Key, feePayer: Option<Key>, ixs: seq<OuterInstruction>, n: nat, b: ParsedBundle)
    requires n < |ixs| && KindOf(program, ixs[n]) == ComputeBudget && Bundled(program, feePayer, ixs[..n]) == b
    ensures Bundled(program, feePayer, ixs[..n + 1]) == b.(computeBudget := b.computeBudget + [AsBudget(n, ixs[n])])
  {
    BundledSnoc(program, feePayer, ixs, n);
  }

  lemma AtaBundled(program: Key, feePayer: Option<Key>, ixs: seq<OuterInstruction>, n: nat, b: ParsedBundle)
    requires n < |ixs| && KindOf(program, ixs[n]) == AtaCreate && Bundled(program, feePayer, ixs[..n]) == b
    ensures Bundled(program, feePayer, ixs[..n + 1]) == b.(ataCreates := b.ataCreates + [AsAtaCreate(n, ixs[n])])
  {
    BundledSnoc(program, feePayer, ixs, n);
  }

  lemma FourBundled(program: Key, feePayer: Option<Key>, ixs: seq<OuterInstruction>)
    requires |ixs| == 4 && KindOf(program, ixs[0]) == NonceAdvance
    requires KindOf(program, ixs[1]) == KindOf(program, ixs[2]) == ComputeBudget && KindOf(program, ixs[3]) == AtaCreate
    ensures Bundled(program, feePayer, ixs)
            == ParsedBundle(feePayer, [0], [AsBudget(1, ixs[1]), AsBudget(2, ixs[2])], [AsAtaCreate(3, ixs[3])], [], [],
                            [], [], [])
  {
    var none := ParsedBundle(feePayer, [0], [], [], [], [], [], [], []);
    OneBundled(program, feePayer, ixs);
    BudgetBundled(program, feePayer, ixs, 1, none);
    BudgetBundled(program, feePayer, ixs, 2, none.(computeBudget := [AsBudget(1, ixs[1])]));
    AtaBundled(program, feePayer, ixs, 3, none.(computeBudget := [AsBudget(1, ixs[1]), AsBudget(2, ixs[2])]));
    assert ixs == ixs[..4];
  }

  lemma NoneCreates(program: Key, ixs: seq<OuterInstruction>)
    requires forall i | 0 <= i < |ixs| :: KindOf(program, ixs[i]) != Kind.Create
    ensures CreatesDecode(program, ixs)
  {}

  // What the preparations parse to.
  lemma Prepared(program: Key, nonce: seq<Key>, limit: nat, price: U64, funder: Key, ata: Key, owner: Key, mint: Key,
      tokenProgram: Key)
    requires limit < U32_LIMIT
    ensures var ixs := Preparations(nonce, limit, price, funder, ata, owner, mint, tokenProgram);
            && CreatesDecode(program, ixs)
            && Bundled(program, Some(funder), ixs)
               == ParsedBundle(Some(funder), [0],
                               [ComputeBudgetIx(1, COMPUTE_BUDGET_TAG_SET_UNIT_LIMIT, Some(limit)),
                                ComputeBudgetIx(2, COMPUTE_BUDGET_TAG_SET_UNIT_PRICE, Some(price))],
                               [AtaCreateIx(3, Some(funder), Some(ata), Some(owner), Some(mint), Some(tokenProgram),
                                            true)],
                               [], [], [], [], [])
  {
    PreparationKinds(program, nonce, limit, price, funder, ata, owner, mint, tokenProgram);
    FourBundled(program, Some(funder), Preparations(nonce, limit, price, funder, ata, owner, mint, tokenProgram));
    NoneCreates(program, Preparations(nonce, limit, price, funder, ata, owner, mint, tokenProgram));
    BudgetReads(limit, price);
  }

  lemma BudgetsPrepared(limit: nat, price: nat, caps: BudgetCaps)
    requires WithinCaps(COMPUTE_BUDGET_TAG_SET_UNIT_LIMIT, limit, caps)
             && WithinCaps(COMPUTE_BUDGET_TAG_SET_UNIT_PRICE, price, caps)
    ensures NonceFits([0])
    ensures BudgetsFit([ComputeBudgetIx(1, COMPUTE_BUDGET_TAG_SET_UNIT_LIMIT, Some(limit)),
                        ComputeBudgetIx(2, COMPUTE_BUDGET_TAG_SET_UNIT_PRICE, Some(price))], caps)
  {}

  // The account created is the one the view pays into.
  lemma AtaFits(env: Env, p: Params, recipient: Key, amount: U64, mint: Key, decimals: Byte, program: Key,
      feePayer: Key)
    requires AsksForTokens(p, recipient, amount, mint, decimals)
    ensures var dest := DeriveAta(env, recipient, mint, program);
            AtaCreatesFit(env, p,
                          [AtaCreateIx(3, Some(feePayer), Some(dest), Some(recipient), Some(mint), Some(program),
                                       true)],
                          TokenView(recipient, dest, amount, mint, decimals, program, feePayer).recipients,
                          Some(feePayer))
  {}

  // ---- acceptance ----

  // The create_transaction data of the transfer reads back as its message, which debits the vault.
  lemma TokenTransferCreates(program: Key, vault: Key, source: Key, mint: Key, dest: Key, amount: U64, decimals: Byte,
      b: BuiltMessage, vaultIndex: Byte)
    requires vault != program
             && Compiles(vault, [TokenTransfer(program, vault, source, mint, dest, amount, decimals)], b)
    ensures Encodable(b) && ToWire(b).accountKeys != [] && ToWire(b).accountKeys[0] == vault
    ensures CreateMessage(CreateData(vaultIndex, MessageCodec().enc(ToWire(b)))) == Some((vaultIndex, ToWire(b)))
  {
    TokenTransferEncodes(program, vault, source, mint, dest, amount, decimals, b);
    CreateDataReads(vaultIndex, ToWire(b));
  }

  // A send after a nonce advance, both budgets and the creation of the account it pays into.
  lemma PreparedSendAccepted(env: Env, p: Params, program: Key, mint: Key, recipient: Key, amount: U64, decimals: Byte,
      s: Parties, vaultIndex: Byte, message: seq<Byte>, m: TransactionMessage, nonce: seq<Key>, limit: nat, price: U64,
      outer: Outer, v: View)
    requires OwnProgram(env.programId) && AskedOf(p, s) && p.vaultIndex == vaultIndex
    requires CreateMessage(CreateData(vaultIndex, message)) == Some((vaultIndex, m))
    requires m.accountKeys != [] && m.accountKeys[0] == DeriveVault(env, s.multisig, vaultIndex).0
    requires AsksForTokens(p, recipient, amount, mint, decimals) && limit < U32_LIMIT
    requires WithinCaps(COMPUTE_BUDGET_TAG_SET_UNIT_LIMIT, limit, p.caps)
             && WithinCaps(COMPUTE_BUDGET_TAG_SET_UNIT_PRICE, price, p.caps)
    requires v == TokenView(recipient, DeriveAta(env, recipient, mint, program), amount, mint, decimals, program,
                            s.payer)
    requires ShowsMessage(env, Abridged(vaultIndex, m), Some(s.payer), true, Who(p), v)
    requires FlowsAccepted(env, v, Wanted(p)) && AtaVerified(v.recipients) && outer.feePayer == Some(s.payer)
    requires outer.instructions
             == Preparations(nonce, limit, price, s.payer, DeriveAta(env, recipient, mint, program), recipient, mint,
                             program)
                + SendBundle(env.programId, s, vaultIndex, message, m.accountKeys)
    ensures ConsumerAccepts(env, outer, p, v)
  {
    var dest := DeriveAta(env, recipient, mint, program);
    Prepared(env.programId, nonce, limit, price, s.payer, dest, recipient, mint, program);
    AtaFits(env, p, recipient, amount, mint, decimals, program, s.payer);
    BudgetsPrepared(limit, price, p.caps);
    SendAccepted(env, p, outer, Preparations(nonce, limit, price, s.payer, dest, recipient, mint, program), s,
                 vaultIndex, message, m.accountKeys, m, v);
  }

  // A token send asked for by these parties, compiled, and the whole transaction
  // around it, with budgets within their caps.
  ghost predicate TokenSendAsked(env: Env, p: Params, program: Key, source: Key, mint: Key, recipient: Key, amount: U64,
      decimals: Byte, b: BuiltMessage, s: Parties, vaultIndex: Byte, nonce: seq<Key>, limit: nat, price: U64,
      outer: Outer)
  {
    && OwnProgram(env.programId) && AskedOf(p, s)
    && p.vaultIndex == vaultIndex && AsksForTokens(p, recipient, amount, mint, decimals)
    && limit < U32_LIMIT && WithinCaps(COMPUTE_BUDGET_TAG_SET_UNIT_LIMIT, limit, p.caps)
    && WithinCaps(COMPUTE_BUDGET_TAG_SET_UNIT_PRICE, price, p.caps)
    && IsTokenProgram(program)
    && var vault, dest := DeriveVault(env, s.multisig, vaultIndex).0, DeriveAta(env, recipient, mint, program);
    && vault != program
    && Compiles(vault, [TokenTransfer(program, vault, source, mint, dest, amount, decimals)], b)
    && Encodable(b) && outer.feePayer == Some(s.payer)
    && outer.instructions == Preparations(nonce, limit, price, s.payer, dest, recipient, mint, program)
                             + MessageBundle(env.programId, s, vaultIndex, ToWire(b)).instructions
  }

  lemma TokenBundleAccepted(env: Env, p: Params, program: Key, source: Key, mint: Key, recipient: Key, amount: U64,
      decimals: Byte, b: BuiltMessage, s: Parties, vaultIndex: Byte, nonce: seq<Key>, limit: nat, price: U64,
      outer: Outer)
    requires TokenSendAsked(env, p, program, source, mint, recipient, amount, decimals, b, s, vaultIndex, nonce, limit,
                            price, outer)
    ensures ConsumerAccepts(env, outer, p,
                            TokenView(recipient, DeriveAta(env, recipient, mint, program), amount, mint, decimals,
                                      program, s.payer))
  {
    var vault, dest := DeriveVault(env, s.multisig, vaultIndex).0, DeriveAta(env, recipient, mint, program);
    var m := ToWire(b);
    var v := TokenView(recipient, dest, amount, mint, decimals, program, s.payer);
    TokenTransferCreates(program, vault, source, mint, dest, amount, decimals, b, vaultIndex);
    TokenTransferShown(env, program, vault, source, mint, recipient, amount, decimals, b, s.payer, vaultIndex, p);
    TokenPaymentAccepted(env, recipient, dest, amount, mint, decimals, program, s.payer, p);
    PreparedSendAccepted(env, p, program, mint, recipient, amount, decimals, s, vaultIndex, MessageCodec().enc(m), m,
                         nonce, limit, price, outer, v);
  }

  // Whoever the two members are, whichever of the two token programs, whatever is
  // sent to whom: the whole bundle around the built message is accepted, with
  // budgets within their caps and the recipient's account created by the fee payer.
  lemma HonestTokenSendAccepted(env: Env, p: Params, program: Key, source: Key, mint: Key, recipient: Key, amount: U64,
      decimals: Byte, b: BuiltMessage, s: Parties, vaultIndex: Byte, nonce: seq<Key>, limit: nat, price: U64,
      outer: Outer)
    requires TokenSendAsked(env, p, program, source, mint, recipient, amount, decimals, b, s, vaultIndex, nonce, limit,
                            price, outer)
    ensures ConsumerAccepts(env, outer, p,
                            TokenView(recipient, DeriveAta(env, recipient, mint, program), amount, mint, decimals,
                                      program, s.payer))
    ensures Encodable(b) && WellFormed(ToWire(b), DeriveVault(env, s.multisig, vaultIndex).0)
  {
    TokenBundleAccepted(env, p, program, source, mint, recipient, amount, decimals, b, s, vaultIndex, nonce, limit,
                        price, outer);
    TokenTransferWellFormed(program, DeriveVault(env, s.multisig, vaultIndex).0, source, mint,
                            DeriveAta(env, recipient, mint, program), amount, decimals, b);
  }
}
