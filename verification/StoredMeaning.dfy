/** The approve-only gate, rule by rule on the bytes of the stored proposal and on the
    instructions of the transaction that approves it. */
module StoredMeaning {
  import opened Wrappers
  import opened Bytes
  import opened State
  import opened Pda
  import opened Bundle
  import opened FundFlows
  import opened Enterprise
  import opened Proposals
  import opened BorshForm
  import opened VerdictMeaning
  import opened FlowMeaning
  import opened AgreementMeaning

  // ---- what is read from the account ----

  // The account's data is a proposal's, field by field, at the address derived
  // from the multisig and the index in it.
  ghost predicate HoldsProposal(env: Env, data: seq<Byte>, at: Key, tx: VaultTransaction) {
    && AccountProposal(data) == Some(tx) && ProposalAt(data, tx)
    && var seeds: seq<Byte> := [116, 114, 97, 110, 115, 97, 99, 116, 105, 111, 110] + data[8..40] + data[40..48];
    at == env.find(seeds, env.programId).0
  }

  lemma SeedsInPlace(data: seq<Byte>, tx: VaultTransaction)
    requires FixedAt(data, tx)
    ensures [116, 114, 97, 110, 115, 97, 99, 116, 105, 111, 110] + data[8..40] + data[40..48]
            == SeedBytes(TransactionSeed(tx.multisig, tx.transactionIndex))
    ensures [118, 97, 117, 108, 116] + data[8..40] + [data[113]] == SeedBytes(VaultSeed(tx.multisig, tx.vaultIndex))
  {
    SeedsLaidOut(tx.multisig, tx.vaultIndex, tx.transactionIndex);
    U64Bijection(0, data[40..48]);
  }

  lemma ReadableIff(env: Env, data: seq<Byte>, at: Key, opts: ProposalOptions)
    ensures Readable(env, data, at, opts) <==>
              exists tx :: HoldsProposal(env, data, at, tx) && tx.message.accountKeys != [] && opts.who.Readable()
  {
    match AccountProposal(data)
    case None =>
    case Some(tx) =>
      ReadFromItsPlaces(data, tx);
      SeedsInPlace(data, tx);
      assert HoldsProposal(env, data, at, tx) <==> DeriveTransaction(env, tx.multisig, tx.transactionIndex).0 == at;
  }

  // To whom transfers count as fees: the caller's choice, or else the payload's,
  // or else whoever paid for the account.
  function FeesTo(q: ApproveRequest, payer: Key): Option<Key> {
    match (q.proposalOptions.feePayer, q.x.flows.expectedFeePayer)
    case (Some(Base58(k)), _) => Some(k)
    case (None, Some(Base58(k))) => Some(k)
    case (None, None) => Some(payer)
    case _ => None
  }

  // What is reported is what the account holds and what its message moves.
  ghost predicate TellsStored(env: Env, q: ApproveRequest, data: seq<Byte>, at: Key, tx: VaultTransaction, r: OnChain) {
    && HoldsProposal(env, data, at, tx) && r.Proposal? && r.transaction == at
    && r.multisig == data[8..40] && r.index == Value(data[40..48])
    && r.creator == data[48..80] && r.payer == data[80..112]
    && r.vaultIndex == data[113] && r.vault == env.find([118, 97, 117, 108, 116] + data[8..40] + [data[113]],
                                                        env.programId).0
    && (r.executed <==> data[115] == 1) && r.approvals == tx.approvals
    && tx.message.accountKeys != [] && r.sender == tx.message.accountKeys[0]
    && DisplaysMessage(env, tx.message, FeesTo(q, data[80..112]), q.proposalOptions.allowMemo,
                       q.proposalOptions.who, r.flows)
    && r.memos == (if q.proposalOptions.allowMemo then Notes(env, tx.message.accountKeys, tx.message.instructions)
                   else [])
  }

  lemma FeeKeyMeans(q: ApproveRequest, payer: Key)
    ensures FeeKey(EffectiveOptions(q), payer) == FeesTo(q, payer)
  {}

  lemma StoredTold(env: Env, q: ApproveRequest, data: seq<Byte>, at: Key, r: OnChain) returns (tx: VaultTransaction)
    requires Readable(env, data, at, EffectiveOptions(q))
    requires Reports(env, AccountProposal(data).value, at, EffectiveOptions(q), r)
    ensures TellsStored(env, q, data, at, tx, r)
  {
    tx := AccountProposal(data).value;
    var opts := EffectiveOptions(q);
    ReadFromItsPlaces(data, tx);
    SeedsInPlace(data, tx);
    FeeKeyMeans(q, tx.payer);
    NotesTallied(env, tx.message.accountKeys, FeeKey(opts, tx.payer), opts.allowMemo, tx.message.instructions);
    DisplaysMessageIff(env, tx.message, tx.vaultIndex, FeeKey(opts, tx.payer), opts.allowMemo, opts.who, r.flows);
  }

  // ---- when it is accepted ----

  // The stored proposal is open, of the multisig insisted on (which must be said,
  // or waived), debits its own vault, is at the place asked for, and moves what
  // is on display.
  ghost predicate StoredAgrees(env: Env, x: Payload, data: seq<Byte>, at: Key, m: TransactionMessage, flows: View) {
    && |data| >= 116 && data[115] != 1
    && !x.multisig.Missing? && Insists(x.multisig, data[8..40])
    && var vault := env.find([118, 97, 117, 108, 116] + data[8..40] + [data[113]], env.programId).0;
    && m.accountKeys != [] && m.accountKeys[0] == vault && Asks(x.vault, vault)
    && (x.vaultIndex == None || x.vaultIndex == Some(data[113] as int)) && Asks(x.transaction, at)
    && FlowsAgree(env, flows, x.flows)
  }

  // Nothing is created, nothing is unknown, every approval names that multisig
  // and that proposal, the first one its index if any, and the approver expected
  // is among those who approve.
  ghost predicate ApprovesIt(env: Env, q: ApproveRequest, data: seq<Byte>, at: Key, a: nat) {
    var program, ixs := env.programId, q.outer.instructions;
    && ApprovesFirstAt(program, ixs, a) && ApprovalsWhole(program, ixs)
    && AllPass(q.outer, program, q.decodeOptions.caps)
    && |data| >= 116 && AllName(program, ixs, Approve, 0, data[8..40]) && AllName(program, ixs, Approve, 1, at)
    && (|ixs[a].data| >= 16 ==> Value(ixs[a].data[8..16]) == Value(data[40..48]))
    && (q.approver == None
        || (q.approver.value.Base58? && NamedBy(program, ixs, Approve, 2, q.approver.value.key)))
  }

  lemma FittingIff(env: Env, q: ApproveRequest, data: seq<Byte>, at: Key, tx: VaultTransaction, r: OnChain)
    requires TellsStored(env, q, data, at, tx, r)
    ensures Fitting(env, r, Targeted(q.x, at)) <==> StoredAgrees(env, q.x, data, at, tx.message, r.flows)
  {
    FlowsMean(env, r.flows, q.x.flows);
  }

  lemma ApproversIff(env: Env, q: ApproveRequest, d: Decoded)
    requires TellsVotes(env, q.outer, q.decodeOptions, d)
    ensures ApprovesAs(d.approvers, q.approver) <==>
              q.approver == None
              || (q.approver.value.Base58?
                  && NamedBy(env.programId, q.outer.instructions, Approve, 2, q.approver.value.key))
  {
    if q.approver.Some? && q.approver.value.Base58? {
      ListedIffNamed(env.programId, q.outer.instructions, Approve, 2, q.approver.value.key);
    }
  }

  // The approvals and the report agree iff the instructions and the bytes do.
  lemma ApprovalsIff(env: Env, q: ApproveRequest, d: Decoded, r: OnChain, data: seq<Byte>, tx: VaultTransaction, a: nat)
    requires TellsApproval(env, q.outer, q.decodeOptions, d, a)
    requires ApprovalsWhole(env.programId, q.outer.instructions)
    requires TellsStored(env, q, data, d.transaction, tx, r)
    ensures ApprovesIt(env, q, data, d.transaction, a) <==>
              && ApprovesAs(d.approvers, q.approver) && d.multisig == r.multisig
              && (d.index.Some? ==> d.index.value == r.index) && d.unknownOuter == {}
              && AllAre(d.approveTargets, d.transaction) && AllAre(d.approveMultisigs, d.multisig)
  {
    ApproversIff(env, q, d);
    NoneFlagged(q.outer, env.programId, q.decodeOptions.caps, d.unknownOuter);
    AllNameIff(env.programId, q.outer.instructions, Approve, 1, d.transaction);
    AllNameIff(env.programId, q.outer.instructions, Approve, 0, d.multisig);
  }

  // The gate accepts iff the account the first approval names holds a proposal
  // that agrees with the payload, and all the approvals are of it.
  lemma AcceptedIff(env: Env, fetch: Fetch, q: ApproveRequest, d: Decoded, r: OnChain)
    requires Decodes(env, q.outer, q.decodeOptions, d) && d.ApproveTx?
    requires r.Proposal? && FetchedAs(env, fetch, d.transaction, EffectiveOptions(q), r)
    ensures fetch(d.transaction).Some? && fetch(d.transaction).value.owner == env.programId
    ensures var data := fetch(d.transaction).value.data;
            Accepted(env, q, d, r) <==>
              exists a, tx ::
                && TellsStored(env, q, data, d.transaction, tx, r)
                && StoredAgrees(env, q.x, data, d.transaction, tx.message, r.flows)
                && ApprovesIt(env, q, data, d.transaction, a)
  {
    var data := fetch(d.transaction).value.data;
    var a := ApprovalTold(env, q.outer, q.decodeOptions, d);
    var tx := StoredTold(env, q, data, d.transaction, r);
    WholeMeans(env.programId, q.outer.instructions);
    BundledParses(env.programId, q.outer.feePayer, q.outer.instructions);
    FittingIff(env, q, data, d.transaction, tx, r);
    ApprovalsIff(env, q, d, r, data, tx, a);
    forall other | ApprovesIt(env, q, data, d.transaction, other) ensures other == a {
      assert !(a < other) && !(other < a);
    }
    forall other | TellsStored(env, q, data, d.transaction, other, r) ensures other == tx {}
  }
}
