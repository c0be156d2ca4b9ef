/** What the device accepted is what moves: the gates' verdicts, set against what
    running the very same message does. */
module SignedIsExecuted {
  import opened Wrappers
  import opened Bytes
  import opened Members
  import opened State
  import opened Reader
  import opened Pda
  import opened Ids
  import opened Program
  import opened Guarantees
  import opened Classifier
  import opened Bundle
  import opened FundFlows
  import opened Enterprise
  import opened Proposals
  import opened Consumer
  import opened Money

  // ---- any accepted payload ----

  // The destination is the named account, or an associated account of the named
  // owner for the token in question.
  predicate Lands(env: Env, f: Flow, key: Key, who: Attribution)
    requires f.Tokens?
  {
    || f.dest == key
    || f.dest == DeriveAta(env, key, f.mint, f.program)
    || (who.Asked() && who.owner.value == Base58(key) && who.mint.value.Base58?
        && (f.dest == DeriveAta(env, key, who.mint.value.key, TOKEN_PROGRAM)
            || f.dest == DeriveAta(env, key, who.mint.value.key, TOKEN_2022_PROGRAM)))
  }

  // The flow gives this expected recipient the expected amount of the expected asset, out of the vault.
  predicate Honours(env: Env, f: Flow, e: ExpectedRecipient, x: Expectation, vault: Key, who: Attribution) {
    && e.address.Base58? && e.amount.Number?
    && if x.tokenMint.None? then f == Lamports(vault, e.address.key, e.amount.n)
       else
         && f.Tokens? && x.tokenMint.value == Base58(f.mint)
         && (x.tokenDecimals.Some? ==> x.tokenDecimals.value == f.decimals)
         && f.amount == e.amount.n && f.authority == vault
         && Lands(env, f, e.address.key, who)
  }

  // A payment to a recipient, displayed, accepted and matched, honours the line it was matched with.
  lemma MatchHonours(env: Env, f: Flow, r: Recipient, e: ExpectedRecipient, x: Expectation, vault: Key,
      who: Attribution)
    requires r.Spl? ==> r.ata == r.address && r.ataVerified.None?
    requires Pays(f, r, vault)
    requires var shown := Displayed(env, r, who); Fits(env, shown, e) && AssetAccepted(shown, x)
    ensures Honours(env, f, e, x, vault, who)
  {}

  lemma {:induction false} RecipientsAsJudged(env: Env, keys: seq<Key>, feePayer: Option<Key>, allowMemo: bool,
      ixs: seq<CompiledInstruction>, i: nat)
    requires keys != []
    requires i < |RecipientsOf(JudgeAll(env, keys, feePayer, allowMemo, ixs))|
    ensures var r := RecipientsOf(JudgeAll(env, keys, feePayer, allowMemo, ixs))[i];
            r.Spl? ==> r.ata == r.address && r.ataVerified.None?
  {
    var head := JudgeAll(env, keys, feePayer, allowMemo, ixs[..|ixs| - 1]);
    var all := JudgeAll(env, keys, feePayer, allowMemo, ixs);
    assert all[..|all| - 1] == head;
    if i == |RecipientsOf(head)| {
    } else {
      RecipientsAsJudged(env, keys, feePayer, allowMemo, ixs[..|ixs| - 1], i);
    }
  }

  predicate WithinCap(fee: nat, cap: FeeCap) {
    match cap
    case Unset => fee == 0
    case Cap(Number(n)) => fee <= n
    case Cap(NotANumber) => false
  }

  // The j-th expected recipient is honoured by payment sigma[j], and there are
  // no other payments; fees are within the cap; nothing moves on another's authority.
  ghost predicate PaysThePayload(env: Env, flows: seq<Flow>, vault: Key, feePayer: Option<Key>, who: Attribution,
      x: Expectation, sigma: seq<nat>)
  {
    var payments := Payments(flows, vault, feePayer);
    && Distinct(sigma) && |sigma| == |payments| == |x.recipients|
    && (forall j | 0 <= j < |sigma| ::
        sigma[j] < |payments| && Honours(env, payments[sigma[j]], x.recipients[j], x, vault, who))
    && WithinCap(FeeTotal(flows, vault, feePayer), x.maxFee)
    && (FeeTotal(flows, vault, feePayer) > 0 && x.expectedFeePayer.Some? && feePayer.Some? ==>
          x.expectedFeePayer.value == Base58(feePayer.value))
    && (forall f | f in flows :: f.Payer() == vault)
  }

  // Every successful run of a message whose view was accepted pays the expected
  // recipients, one payment each and nobody else, and the fee payer no more
  // than the cap; nothing moves on any other authority than the vault's.
  lemma AcceptedIsPaid(env: Env, foreign: Foreign, m: TransactionMessage, vaultIndex: Byte, feePayer: Option<Key>,
      allowMemo: bool, who: Attribution, v: View, x: Expectation, p: Purse) returns (sigma: seq<nat>)
    requires ShowsMessage(env, Abridged(vaultIndex, m), feePayer, allowMemo, who, v) && FlowsAccepted(env, v, x)
    requires RunMessage(foreign, p, m, 0).Some?
    ensures PaysThePayload(env, RunMessage(foreign, p, m, 0).value.1, m.accountKeys[0], feePayer, who, x, sigma)
  {
    var vault, flows := m.accountKeys[0], RunMessage(foreign, p, m, 0).value.1;
    var vs := JudgeAll(env, m.accountKeys, feePayer, allowMemo, m.instructions);
    RunTold(env, foreign, m, feePayer, allowMemo, p, 0);
    assert vs[0..] == vs;
    OnlyWhatWasDecoded(vs, vault, feePayer, flows);
    sigma := GreedySound(env, v.recipients, x.recipients);
    var payments := Payments(flows, vault, feePayer);
    forall j | 0 <= j < |sigma|
      ensures sigma[j] < |payments| && Honours(env, payments[sigma[j]], x.recipients[j], x, vault, who)
    {
      var i := sigma[j];
      RecipientsAsJudged(env, m.accountKeys, feePayer, allowMemo, m.instructions, i);
      assert Pays(payments[i], RecipientsOf(vs)[i], vault);
      assert v.recipients[i] == Displayed(env, RecipientsOf(vs)[i], who);
      MatchHonours(env, payments[i], RecipientsOf(vs)[i], x.recipients[j], x, vault, who);
    }
  }

  // ---- the bundle that creates the proposal ----

  // The message inside the one create_transaction of a bundle, with its vault index.
  function CreatedBy(program: Key, outer: Outer): Option<(Byte, TransactionMessage)> {
    var b := Bundled(program, outer.feePayer, outer.instructions);
    if |b.creates| != 1 then None else CreateMessage(b.creates[0].data)
  }

  lemma InnerIsCreated(program: Key, outer: Outer) returns (vaultIndex: Byte, m: TransactionMessage)
    requires var b := Bundled(program, outer.feePayer, outer.instructions);
             CreatesDecode(program, outer.instructions) && |b.creates| == 1
    ensures CreatedBy(program, outer) == Some((vaultIndex, m))
    ensures Bundled(program, outer.feePayer, outer.instructions).creates[0].inner == Abridged(vaultIndex, m)
  {
    var ixs := outer.instructions;
    BundledParses(program, outer.feePayer, ixs);
    BucketsInOrder(program, ixs, Kind.Create, AsCreate);
    assert CreateDecodes(program, ixs[Positions(program, ixs, Kind.Create)[0]]);
    var created := CreatedBy(program, outer).value;
    vaultIndex, m := created.0, created.1;
  }

  // The enterprise gate: if it accepts a bundle that creates a proposal, every
  // successful run of that proposal's message pays the payload on display.
  lemma EnterpriseCreatePays(env: Env, foreign: Foreign, outer: Outer, opts: DecodeOptions, d: Decoded, x: Payload,
      purse: Purse)
      returns (sigma: seq<nat>)
    requires CreatesDecode(env.programId, outer.instructions)
    requires Describes(env, outer, Bundled(env.programId, outer.feePayer, outer.instructions), opts, d)
    requires d.CreateTx? && Matches(env, d, x, false)
    ensures CreatedBy(env.programId, outer).Some?
    ensures var (vaultIndex, m) := CreatedBy(env.programId, outer).value;
            && vaultIndex == d.vaultIndex && m.accountKeys != [] && m.accountKeys[0] == d.sender
            && (RunMessage(foreign, purse, m, 0).Some? ==>
                  PaysThePayload(env, RunMessage(foreign, purse, m, 0).value.1, d.sender, outer.feePayer,
                                 opts.who, x.flows, sigma))
  {
    var vaultIndex, m := InnerIsCreated(env.programId, outer);
    sigma := [];
    if RunMessage(foreign, purse, m, 0).Some? {
      sigma := AcceptedIsPaid(env, foreign, m, vaultIndex, outer.feePayer, opts.allowMemo, opts.who,
                              d.flows, x.flows, purse);
    }
  }

  // ---- the consumer bundle ----

  // Exactly what was asked for: this much SOL to this address, or this much of
  // this token into the recipient's associated account.
  predicate IsTheSend(env: Env, f: Flow, s: Send, vault: Key) {
    && s.recipient.Base58? && s.amount.Number?
    && match s.tokenMint
       case None => f == Lamports(vault, s.recipient.key, s.amount.n)
       case Some(mint) =>
         && f.Tokens? && mint == Base58(f.mint) && f.authority == vault && f.amount == s.amount.n
         && (s.tokenDecimals.Some? ==> s.tokenDecimals.value == f.decimals)
         && (f.dest == DeriveAta(env, s.recipient.key, f.mint, TOKEN_PROGRAM)
             || f.dest == DeriveAta(env, s.recipient.key, f.mint, TOKEN_2022_PROGRAM))
  }

  // One payment, the one asked for; fees within the cap; nothing on another's authority.
  ghost predicate OnlyTheSend(env: Env, flows: seq<Flow>, vault: Key, feePayer: Option<Key>, p: Params) {
    && |Payments(flows, vault, feePayer)| == 1
    && IsTheSend(env, Payments(flows, vault, feePayer)[0], p.send, vault)
    && WithinCap(FeeTotal(flows, vault, feePayer), p.maxFee)
    && (forall f | f in flows :: f.Payer() == vault)
  }

  ghost predicate AcceptedView(env: Env, inner: InnerMessage, feePayer: Option<Key>, p: Params, v: View) {
    && ShowsMessage(env, inner, feePayer, true, Who(p), v)
    && FlowsAccepted(env, v, Wanted(p)) && AtaVerified(v.recipients)
  }

  // With one expected recipient there is one payment, and it is the one asked for.
  lemma OnePayment(env: Env, foreign: Foreign, m: TransactionMessage, vaultIndex: Byte, feePayer: Option<Key>,
      p: Params, v: View, purse: Purse)
    requires AcceptedView(env, Abridged(vaultIndex, m), feePayer, p, v)
    requires RunMessage(foreign, purse, m, 0).Some?
    ensures OnlyTheSend(env, RunMessage(foreign, purse, m, 0).value.1, m.accountKeys[0], feePayer, p)
  {
    var sigma := AcceptedIsPaid(env, foreign, m, vaultIndex, feePayer, true, Who(p), v, Wanted(p), purse);
    var vault, flows := m.accountKeys[0], RunMessage(foreign, purse, m, 0).value.1;
    var payment := Payments(flows, vault, feePayer)[0];
    assert sigma[0] == 0;
    if p.send.tokenMint.Some? {
      var vs := JudgeAll(env, m.accountKeys, feePayer, true, m.instructions);
      RunTold(env, foreign, m, feePayer, true, purse, 0);
      assert vs[0..] == vs;
      OnlyWhatWasDecoded(vs, vault, feePayer, flows);
      assert Pays(payment, RecipientsOf(vs)[0], vault);
      assert v.recipients[0] == Displayed(env, RecipientsOf(vs)[0], Who(p));
    }
  }

  lemma AcceptedBundle(env: Env, outer: Outer, p: Params, v: View) returns (b: ParsedBundle)
    requires ConsumerAccepts(env, outer, p, v)
    ensures b == Bundled(env.programId, outer.feePayer, outer.instructions) && b.feePayer == outer.feePayer
    ensures CreatesDecode(env.programId, outer.instructions) && |b.creates| == 1 && CreateFits(env, p, b.creates[0])
    ensures AcceptedView(env, b.creates[0].inner, outer.feePayer, p, v)
  {
    b := Bundled(env.programId, outer.feePayer, outer.instructions);
    BundledParses(env.programId, outer.feePayer, outer.instructions);
  }

  lemma CreatedForVault(env: Env, p: Params, c: CreateIx, vaultIndex: Byte, m: TransactionMessage)
    requires CreateFits(env, p, c) && c.inner == Abridged(vaultIndex, m)
    ensures vaultIndex == p.vaultIndex && m.accountKeys != []
            && m.accountKeys[0] == DeriveVault(env, p.multisig.key, vaultIndex).0
  {
    assert p.vaultIndex % 256 == vaultIndex;
  }

  // The message of an accepted bundle, and the vault it debits.
  lemma AcceptedMessage(env: Env, outer: Outer, p: Params, v: View) returns (vaultIndex: Byte, m: TransactionMessage)
    requires ConsumerAccepts(env, outer, p, v)
    ensures p.multisig.Base58? && CreatedBy(env.programId, outer) == Some((vaultIndex, m))
    ensures vaultIndex == p.vaultIndex && m.accountKeys != []
            && m.accountKeys[0] == DeriveVault(env, p.multisig.key, vaultIndex).0
    ensures AcceptedView(env, Abridged(vaultIndex, m), outer.feePayer, p, v)
  {
    var b := AcceptedBundle(env, outer, p, v);
    vaultIndex, m := InnerIsCreated(env.programId, outer);
    CreatedForVault(env, p, b.creates[0], vaultIndex, m);
  }

  // A run of the message, if it succeeds at all, makes the accepted send and nothing else.
  ghost predicate RunsAsAccepted(env: Env, foreign: Foreign, purse: Purse, m: TransactionMessage,
      feePayer: Option<Key>, p: Params)
    requires m.accountKeys != []
  {
    var run := RunMessage(foreign, purse, m, 0);
    run.Some? ==> OnlyTheSend(env, run.value.1, m.accountKeys[0], feePayer, p)
  }

  // What you sign is what executes. If the gate accepts the bundle, every
  // successful run of the message it creates makes exactly one payment, the one
  // asked for, out of the vault of the expected multisig; returns at most the
  // agreed fee to the fee payer; and takes nothing on any other authority.
  lemma WhatYouSignIsWhatExecutes(env: Env, foreign: Foreign, outer: Outer, p: Params, v: View, purse: Purse)
    requires ConsumerAccepts(env, outer, p, v)
    ensures p.multisig.Base58? && CreatedBy(env.programId, outer).Some?
    ensures var (vaultIndex, m) := CreatedBy(env.programId, outer).value;
            && vaultIndex == p.vaultIndex
            && m.accountKeys != [] && m.accountKeys[0] == DeriveVault(env, p.multisig.key, vaultIndex).0
            && RunsAsAccepted(env, foreign, purse, m, outer.feePayer, p)
  {
    var vaultIndex, m := AcceptedMessage(env, outer, p, v);
    if RunMessage(foreign, purse, m, 0).Some? {
      OnePayment(env, foreign, m, vaultIndex, outer.feePayer, p, v, purse);
    }
  }

  // ---- to the lamport ----

  lemma FeeNet(f: Flow, vault: Key, feePayer: Option<Key>, k: Key)
    requires IsFee(f, vault, feePayer)
    ensures LamportNet([f], k) == (if feePayer == Some(k) then f.amount else 0) - (if k == vault then f.amount else 0)
    ensures TokenNet([f], k) == 0
  {}

  // Fees aside, balances move by the payments.
  lemma {:induction false} SplitNet(flows: seq<Flow>, vault: Key, feePayer: Option<Key>, k: Key)
    ensures LamportNet(flows, k) == LamportNet(Payments(flows, vault, feePayer), k)
                                    + (if feePayer == Some(k) then FeeTotal(flows, vault, feePayer) else 0)
                                    - (if k == vault then FeeTotal(flows, vault, feePayer) else 0)
    ensures TokenNet(flows, k) == TokenNet(Payments(flows, vault, feePayer), k)
  {
    if flows == [] {
    } else {
      var rest := flows[1..];
      SplitNet(rest, vault, feePayer, k);
      assert flows == [flows[0]] + rest;
      NetConcat([flows[0]], rest, k);
      if IsFee(flows[0], vault, feePayer) {
        FeeNet(flows[0], vault, feePayer, k);
        assert [] + Payments(rest, vault, feePayer) == Payments(rest, vault, feePayer);
      } else {
        NetConcat([flows[0]], Payments(rest, vault, feePayer), k);
      }
    }
  }

  lemma {:induction false} NoneUnknown(vs: seq<Verdict>, j: nat)
    requires UnknownsOf(vs) == 0 && j < |vs|
    ensures !vs[j].Unknown?
  {
    if j == |vs| - 1 {
    } else {
      NoneUnknown(vs[..|vs| - 1], j);
    }
  }

  lemma KnownIsRecognised(env: Env, m: TransactionMessage, feePayer: Option<Key>, allowMemo: bool, j: nat,
      cpi: Invocation)
    requires m.accountKeys != [] && j < |m.instructions| && Resolve(m, m.instructions[j]) == Some(cpi)
    requires UnknownsOf(JudgeAll(env, m.accountKeys, feePayer, allowMemo, m.instructions)) == 0
    ensures Recognised(cpi)
  {
    NoneUnknown(JudgeAll(env, m.accountKeys, feePayer, allowMemo, m.instructions), j);
    JudgedEach(env, m.accountKeys, feePayer, allowMemo, m.instructions, j);
    if m.instructions[j].accountIndexes == [] { assert |cpi.metas| == 0; }
  }

  // No balance, of lamports or of tokens, of any key in the world, moves except
  // by the one payment and the fee.
  lemma BalancesMoveByTheSend(env: Env, foreign: Foreign, outer: Outer, p: Params, v: View, purse: Purse, k: Key)
    requires ConsumerAccepts(env, outer, p, v) && CreatedBy(env.programId, outer).Some?
    requires RunMessage(foreign, purse, CreatedBy(env.programId, outer).value.1, 0).Some?
    ensures var m := CreatedBy(env.programId, outer).value.1;
            var (after, flows) := RunMessage(foreign, purse, m, 0).value;
            m.accountKeys != [] &&
            var vault := m.accountKeys[0];
            var sent, fee := Payments(flows, vault, outer.feePayer), FeeTotal(flows, vault, outer.feePayer);
            && |sent| == 1 && IsTheSend(env, sent[0], p.send, vault) && WithinCap(fee, p.maxFee)
            && Balance(after.lamports, k) == Balance(purse.lamports, k) + LamportNet(sent, k)
                                             + (if outer.feePayer == Some(k) then fee else 0)
                                             - (if k == vault then fee else 0)
            && Held(after, k) == Held(purse, k) + TokenNet(sent, k)
  {
    var vaultIndex, m := AcceptedMessage(env, outer, p, v);
    OnePayment(env, foreign, m, vaultIndex, outer.feePayer, p, v, purse);
    forall j, cpi | 0 <= j < |m.instructions| && Resolve(m, m.instructions[j]) == Some(cpi) ensures Recognised(cpi) {
      KnownIsRecognised(env, m, outer.feePayer, true, j, cpi);
    }
    RunNet(foreign, purse, m, 0, k);
    SplitNet(RunMessage(foreign, purse, m, 0).value.1, m.accountKeys[0], outer.feePayer, k);
  }

  // ---- on chain ----

  lemma StoredReadsBack(env: Env, l: Ledger, id: ProposalId, unused: seq<Byte>)
    requires Reachable(env, l) && id in l.proposals
    ensures var tx := l.proposals[id].data;
            AccountProposal(AccountBytes(tx) + unused) == Some(tx) && tx.multisig == id.multisig
            && tx.transactionIndex == id.index
  {
    StoredIsEncodable(env, l, id);
    AccountRoundTrip(l.proposals[id].data, unused);
    StoredProposals(env, l, id);
  }

  // The device accepted, and its node served it the proposal's account as stored,
  // with what is left of the allocation.
  ghost predicate AcceptedAsStored(env: Env, fetch: Fetch, q: ApproveRequest, d: Decoded, r: OnChain, l: Ledger,
      id: ProposalId, unused: seq<Byte>)
    requires id in l.proposals
  {
    && AcceptedFor(env, fetch, q, d, r)
    && fetch(d.transaction) == Some(AccountInfo(env.programId, AccountBytes(l.proposals[id].data) + unused))
  }

  // The report is of this proposal, which debits its own vault, and its view is accepted.
  ghost predicate ReportsStored(env: Env, tx: VaultTransaction, id: ProposalId, at: Key, q: ApproveRequest,
      r: OnChain)
  {
    && Reports(env, tx, at, EffectiveOptions(q), r)
    && r.multisig == id.multisig && r.index == id.index && r.sender == r.vault
    && r.vault == DeriveVault(env, id.multisig, r.vaultIndex).0
    && FlowsAccepted(env, r.flows, q.x.flows)
  }

  // An account served as stored: the device sees the stored proposal, and it is the one its multisig issued.
  lemma ApprovedIsStored(env: Env, fetch: Fetch, q: ApproveRequest, d: Decoded, r: OnChain, l: Ledger,
      id: ProposalId, unused: seq<Byte>)
    requires Reachable(env, l) && id in l.proposals && AcceptedAsStored(env, fetch, q, d, r, l, id, unused)
    ensures ReportsStored(env, l.proposals[id].data, id, d.transaction, q, r) && !l.proposals[id].data.executed
  {
    StoredReadsBack(env, l, id, unused);
    AcceptedReports(env, fetch, q, d, r);
  }

  // Whatever run of the message pays the payload, out of the reported vault.
  ghost predicate RunPays(env: Env, foreign: Foreign, purse: Purse, m: TransactionMessage, q: ApproveRequest,
      r: OnChain, sigma: seq<nat>)
  {
    r.Proposal? &&
    var run := RunMessage(foreign, purse, m, 0);
    run.Some? ==> PaysThePayload(env, run.value.1, r.vault, FeeKey(EffectiveOptions(q), r.payer),
                                 q.proposalOptions.who, q.x.flows, sigma)
  }

  // Every run of a proposal's message pays the payload that accepts its report.
  lemma ReportPays(env: Env, foreign: Foreign, tx: VaultTransaction, id: ProposalId, at: Key, q: ApproveRequest,
      r: OnChain, purse: Purse) returns (sigma: seq<nat>)
    requires ReportsStored(env, tx, id, at, q, r)
    ensures RunPays(env, foreign, purse, tx.message, q, r, sigma)
  {
    sigma := [];
    var opts := EffectiveOptions(q);
    if RunMessage(foreign, purse, tx.message, 0).Some? {
      sigma := AcceptedIsPaid(env, foreign, tx.message, tx.vaultIndex, FeeKey(opts, tx.payer), opts.allowMemo,
                              opts.who, r.flows, q.x.flows, purse);
    }
  }

  // The device that approves from the account on chain: if its node serves the
  // account as stored, every run of the stored message, out of the stored
  // proposal's own vault, pays the payload on display.
  lemma WhatYouApproveIsWhatPays(env: Env, foreign: Foreign, fetch: Fetch, q: ApproveRequest, d: Decoded, r: OnChain,
      l: Ledger, id: ProposalId, unused: seq<Byte>, purse: Purse) returns (sigma: seq<nat>)
    requires Reachable(env, l) && id in l.proposals && AcceptedAsStored(env, fetch, q, d, r, l, id, unused)
    ensures ReportsStored(env, l.proposals[id].data, id, d.transaction, q, r) && !l.proposals[id].data.executed
    ensures RunPays(env, foreign, purse, l.proposals[id].data.message, q, r, sigma)
  {
    ApprovedIsStored(env, fetch, q, d, r, l, id, unused);
    sigma := ReportPays(env, foreign, l.proposals[id].data, id, d.transaction, q, r, purse);
  }

  // And whatever transactions come later, of all the CPIs ever made for that
  // proposal each is an instruction of that stored message.
  lemma OnlyTheStoredMessageRuns(env: Env, l: Ledger, txs: seq<seq<Call>>, id: ProposalId, step: nat, cpi: Invocation)
    requires Reachable(env, l) && id in l.proposals && Invoked(id, step, cpi) in Run(env, l, txs).log
    ensures var m := l.proposals[id].data.message;
            step < |m.instructions| && Resolve(m, m.instructions[step]) == Some(cpi)
  {
    var a := l.proposals[id];
    StillCreated(env, l, txs, id);
    OnlyThatMessageRuns(env, Run(env, l, txs), id, a.data.payer, a.lamports, a.data.message, step, cpi);
  }
}
