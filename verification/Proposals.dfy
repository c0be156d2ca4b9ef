/** The approve-only gate: the proposal is read from its account on chain and
    compared with the payload on display. */
module Proposals {
  import opened Wrappers
  import opened Bytes
  import opened Codecs
  import opened State
  import opened Reader
  import opened Pda
  import opened Ids
  import opened Classifier
  import opened Bundle
  import opened FundFlows
  import opened Enterprise

  // ---- account data ----

  // The proposal in an account's data; what follows it is ignored.
  function AccountProposal(data: seq<Byte>): Option<VaultTransaction> {
    if |data| < 8 || data[..8] != VAULT_TRANSACTION_ACCOUNT_DISCRIMINATOR then None else
    var (tx, _) :- DecProposal(data, 8);
    Some(tx)
  }

  function AccountBytes(tx: VaultTransaction): seq<Byte> {
    VAULT_TRANSACTION_ACCOUNT_DISCRIMINATOR + ProposalCodec().enc(tx)
  }

  // Whatever follows it in the account, a stored proposal is read back as stored.
  lemma AccountRoundTrip(tx: VaultTransaction, unused: seq<Byte>)
    requires ProposalCodec().wf(tx)
    ensures AccountProposal(AccountBytes(tx) + unused) == Some(tx)
  {
    var data := AccountBytes(tx) + unused;
    assert data[..8] == VAULT_TRANSACTION_ACCOUNT_DISCRIMINATOR;
    assert Holds(data, 8, ProposalCodec().enc(tx));
    ProposalRoundTrips(tx, data, 8);
  }

  // And whatever is read back, the account begins with exactly its encoding.
  lemma AccountCanonical(data: seq<Byte>)
    requires AccountProposal(data).Some?
    ensures var tx := AccountProposal(data).value;
            ProposalCodec().wf(tx) && AccountBytes(tx) <= data
  {
    var (tx, j) := DecProposal(data, 8).value;
    ProposalRoundTrips(tx, data, 8);
    assert data[..j] == data[..8] + data[8..j];
    assert AccountBytes(tx) == data[..j];
  }

  datatype ProposalOptions = ProposalOptions(feePayer: Option<Address>, allowMemo: bool, who: Attribution)

  datatype OnChain =
    | Proposal(transaction: Key, multisig: Key, index: U64, creator: Key, payer: Key, vaultIndex: Byte, vault: Key,
               executed: bool, approvals: seq<Key>, sender: Key, flows: View, memos: seq<seq<Byte>>)
    | Unreadable

  // Transfers to this key count as fees; an address that is no key is paid by nobody.
  function FeeKey(opts: ProposalOptions, payer: Key): Option<Key> {
    match opts.feePayer
    case None => Some(payer)
    case Some(Base58(k)) => Some(k)
    case Some(NotAKey) => None
  }

  // The data holds a proposal with something to pay from, at its own canonical address.
  predicate Readable(env: Env, data: seq<Byte>, at: Key, opts: ProposalOptions) {
    match AccountProposal(data)
    case None => false
    case Some(tx) =>
      && DeriveTransaction(env, tx.multisig, tx.transactionIndex).0 == at
      && tx.message.accountKeys != [] && opts.who.Readable()
  }

  ghost predicate Reports(env: Env, tx: VaultTransaction, at: Key, opts: ProposalOptions, r: OnChain) {
    && tx.message.accountKeys != []
    && r.Proposal? && r.transaction == at
    && (r.multisig, r.index, r.creator, r.payer) == (tx.multisig, tx.transactionIndex, tx.creator, tx.payer)
    && (r.vaultIndex, r.executed, r.approvals) == (tx.vaultIndex, tx.executed, tx.approvals)
    && r.vault == DeriveVault(env, tx.multisig, tx.vaultIndex).0 && r.sender == tx.message.accountKeys[0]
    && ShowsMessage(env, Abridged(tx.vaultIndex, tx.message), FeeKey(opts, tx.payer), opts.allowMemo, opts.who, r.flows)
    && r.memos
       == MemosOf(JudgeAll(env, tx.message.accountKeys, FeeKey(opts, tx.payer), opts.allowMemo,
                           tx.message.instructions))
  }

  // Everything up to the message, read field by field.
  datatype Header = Header(multisig: Key, index: U64, creator: Key, payer: Key, vaultIndex: Byte, executed: bool,
                           approvals: seq<Key>)

  function HeaderOf(tx: VaultTransaction): Header {
    Header(tx.multisig, tx.transactionIndex, tx.creator, tx.payer, tx.vaultIndex, tx.executed, tx.approvals)
  }

  // From the executed flag on.
  method ReadVotes(reader: ByteReader, vaultIndex: Byte) returns (r: Option<(bool, seq<Key>, InnerMessage)>)
    modifies reader
    ensures match DecVotes(reader.buf, old(reader.offset))
            case None => r.None?
            case Some(((executed, (approvals, message)), j)) =>
              r == Some((executed, approvals, Abridged(vaultIndex, message)))
  {
    var executed :- reader.Bool();
    var approvals :- reader.Pubkeys();
    var inner :- ParseTransactionMessage(reader, vaultIndex);
    return Some((executed, approvals, inner));
  }

  method ReadAccount(data: seq<Byte>) returns (r: Option<(Header, InnerMessage)>)
    ensures match AccountProposal(data)
            case None => r.None?
            case Some(tx) => r == Some((HeaderOf(tx), Abridged(tx.vaultIndex, tx.message)))
  {
    var reader := new ByteReader(data);
    var disc :- reader.Take(8);
    if disc != VAULT_TRANSACTION_ACCOUNT_DISCRIMINATOR { return None; }
    var multisig :- reader.Pubkey();
    var transactionIndex :- reader.U64();
    var creator :- reader.Pubkey();
    var payer :- reader.Pubkey();
    var bump :- reader.U8();
    var vaultIndex :- reader.U8();
    var vaultBump :- reader.U8();
    var votes :- ReadVotes(reader, vaultIndex);
    var (executed, approvals, inner) := votes;
    return Some((Header(multisig, transactionIndex, creator, payer, vaultIndex, executed, approvals), inner));
  }

  method DecodeVaultTransactionAccount(env: Env, data: seq<Byte>, at: Key, opts: ProposalOptions) returns (r: OnChain)
    ensures r.Proposal? <==> Readable(env, data, at, opts)
    ensures r.Proposal? ==> Reports(env, AccountProposal(data).value, at, opts, r)
  {
    var parsed := ReadAccount(data);
    if parsed.None? { return Unreadable; }
    var (h, inner) := parsed.value;
    if DeriveTransaction(env, h.multisig, h.index).0 != at { return Unreadable; }
    var view := ViewMessage(env, inner, FeeKey(opts, h.payer), opts.allowMemo, opts.who);
    if view.None? { return Unreadable; }
    return Proposal(at, h.multisig, h.index, h.creator, h.payer, h.vaultIndex,
                    DeriveVault(env, h.multisig, h.vaultIndex).0, h.executed, h.approvals, inner.accountKeys[0],
                    view.value.0, view.value.1);
  }

  // ---- comparison ----

  // Open, of the multisig insisted on, debiting its own vault, with the flows on display.
  predicate Fitting(env: Env, r: OnChain, x: Payload) {
    && r.Proposal? && !r.executed
    && (match x.multisig
        case Missing => false
        case Waived => true
        case Bound(a) => a == Base58(r.multisig))
    && r.sender == r.vault
    && (x.vaultIndex.Some? ==> x.vaultIndex.value == r.vaultIndex)
    && IfSet(x.vault, r.vault)
    && IfSet(x.transaction, r.transaction)
    && FlowsAccepted(env, r.flows, x.flows)
  }

  method CompareProposalToExpected(env: Env, r: OnChain, x: Payload) returns (mismatches: nat)
    ensures mismatches == 0 <==> Fitting(env, r, x)
  {
    if r.Unreadable? { return 1; }
    mismatches := 0;
    if r.executed { mismatches := mismatches + 1; }
    if x.multisig.Missing? {
      mismatches := mismatches + 1;
    } else if x.multisig.Bound? && x.multisig.address != Base58(r.multisig) {
      mismatches := mismatches + 1;
    }
    if r.sender != r.vault { mismatches := mismatches + 1; }
    if x.vaultIndex.Some? && r.vaultIndex != x.vaultIndex.value { mismatches := mismatches + 1; }
    if x.vault.Some? && x.vault.value != Base58(r.vault) { mismatches := mismatches + 1; }
    if x.transaction.Some? && x.transaction.value != Base58(r.transaction) { mismatches := mismatches + 1; }
    var flows := CompareFundFlows(env, r.flows, x.flows);
    mismatches := mismatches + flows;
  }

  // ---- the gate ----

  datatype AccountInfo = AccountInfo(owner: Key, data: seq<Byte>)

  // What the device's own node answers for an address.
  type Fetch = Key -> Option<AccountInfo>

  method FetchAndDecode(env: Env, fetch: Fetch, at: Key, opts: ProposalOptions) returns (r: OnChain)
    ensures r.Proposal? <==>
              fetch(at).Some? && fetch(at).value.owner == env.programId && Readable(env, fetch(at).value.data, at, opts)
    ensures r.Proposal? ==> Reports(env, AccountProposal(fetch(at).value.data).value, at, opts, r)
  {
    var info := fetch(at);
    if info.None? { return Unreadable; }
    if info.value.owner != env.programId { return Unreadable; }
    r := DecodeVaultTransactionAccount(env, info.value.data, at, opts);
  }

  datatype ApproveRequest = ApproveRequest(
    outer: Outer,
    x: Payload,
    approver: Option<Address>,
    decodeOptions: DecodeOptions,
    proposalOptions: ProposalOptions)

  // The caller's own choice of fee payer wins over the payload's.
  function EffectiveOptions(q: ApproveRequest): ProposalOptions {
    if q.proposalOptions.feePayer.Some? then q.proposalOptions
    else q.proposalOptions.(feePayer := q.x.flows.expectedFeePayer)
  }

  // The target to be compared with, by default the bundle's own.
  function Targeted(x: Payload, transaction: Key): Payload {
    if x.transaction.Some? then x else x.(transaction := Some(Base58(transaction)))
  }

  predicate ApprovesAs(approvers: seq<Key>, approver: Option<Address>) {
    approver.Some? ==> approver.value.Base58? && approver.value.key in approvers
  }

  // The bundle approves one proposal of one multisig, and that proposal, as stored, is the one on display.
  predicate Accepted(env: Env, q: ApproveRequest, d: Decoded, r: OnChain) {
    && d.ApproveTx?
    && ApprovesAs(d.approvers, q.approver)
    && Fitting(env, r, Targeted(q.x, d.transaction))
    && d.multisig == r.multisig
    && (d.index.Some? ==> d.index.value == r.index)
    && d.unknownOuter == {}
    && AllAre(d.approveTargets, d.transaction) && AllAre(d.approveMultisigs, d.multisig)
  }

  // Yields the decode and the account it was checked against; accepted iff there is no mismatch.
  method VerifyApproveOnly(env: Env, fetch: Fetch, q: ApproveRequest) returns (mismatches: nat, d: Decoded, r: OnChain)
    ensures mismatches == 0 ==> AcceptedFor(env, fetch, q, d, r)
    ensures !d.Undecodable? ==>
              Describes(env, q.outer, Bundled(env.programId, q.outer.feePayer, q.outer.instructions), q.decodeOptions,
                        d)
    ensures d.ApproveTx? ==> (mismatches == 0 <==> Accepted(env, q, d, r))
    ensures d.ApproveTx? ==> FetchedAs(env, fetch, d.transaction, EffectiveOptions(q), r)
  {
    d := DecodeVaultTransaction(env, q.outer, q.decodeOptions);
    if !d.ApproveTx? { return 1, d, Unreadable; }
    mismatches := 0;
    if q.approver.Some? && (q.approver.value.NotAKey? || q.approver.value.key !in d.approvers) {
      mismatches := mismatches + 1;
    }
    r := FetchAndDecode(env, fetch, d.transaction, EffectiveOptions(q));
    var stored := CompareProposalToExpected(env, r, Targeted(q.x, d.transaction));
    mismatches := mismatches + stored;
    if r.Proposal? {
      if d.multisig != r.multisig { mismatches := mismatches + 1; }
      if d.index.Some? && d.index.value != r.index { mismatches := mismatches + 1; }
    }
    var x := Payload(Expectation([], None, None, Unset, None), Some(Base58(d.transaction)),
                     if q.x.multisig.Bound? then q.x.multisig else Missing, None, None);
    var bundled := CompareDecodedToExpected(env, d, x, stored == 0);
    mismatches := mismatches + bundled;
  }

  ghost predicate FetchedAs(env: Env, fetch: Fetch, at: Key, opts: ProposalOptions, r: OnChain) {
    r.Proposal? ==>
      && fetch(at).Some? && fetch(at).value.owner == env.programId && Readable(env, fetch(at).value.data, at, opts)
      && Reports(env, AccountProposal(fetch(at).value.data).value, at, opts, r)
  }

  ghost predicate AcceptedFor(env: Env, fetch: Fetch, q: ApproveRequest, d: Decoded, r: OnChain) {
    Accepted(env, q, d, r) && FetchedAs(env, fetch, d.transaction, EffectiveOptions(q), r)
  }

  lemma AcceptedReports(env: Env, fetch: Fetch, q: ApproveRequest, d: Decoded, r: OnChain)
    requires AcceptedFor(env, fetch, q, d, r)
    ensures fetch(d.transaction).Some? && fetch(d.transaction).value.owner == env.programId
    ensures Readable(env, fetch(d.transaction).value.data, d.transaction, EffectiveOptions(q))
    ensures Reports(env, AccountProposal(fetch(d.transaction).value.data).value, d.transaction, EffectiveOptions(q), r)
    ensures r.sender == r.vault && FlowsAccepted(env, r.flows, q.x.flows)
  {}

  // Every approval in an accepted bundle names the same multisig and the same
  // proposal, no instruction creates another, and none is unknown.
  lemma ApproveOnlyBinds(env: Env, q: ApproveRequest, d: Decoded, r: OnChain, i: nat)
    requires Accepted(env, q, d, r) && i < |q.outer.instructions|
    requires Describes(env, q.outer, Bundled(env.programId, q.outer.feePayer, q.outer.instructions), q.decodeOptions, d)
    ensures Allowed(q.outer, env.programId, q.decodeOptions.caps, i)
    ensures var ix := q.outer.instructions[i];
            && KindOf(env.programId, ix) != Create
            && (KindOf(env.programId, ix) == Approve ==> |ix.keys| >= 3 && ix.keys[..2] == [d.multisig, d.transaction])
  {
    var x := Payload(q.x.flows, Some(Base58(d.transaction)), Missing, None, None);
    assert Matches(env, d, x, true);
    AgreementBindsEveryInstruction(env, q.outer, q.decodeOptions, d, x, true, i);
  }

  // The proposal is of the multisig the approvals name, at its canonical address,
  // not executed, and debits its own vault.
  ghost predicate StandsFor(env: Env, tx: VaultTransaction, d: Decoded)
    requires d.ApproveTx?
  {
    && !tx.executed && tx.message.accountKeys != []
    && d.multisig == tx.multisig && d.transaction == DeriveTransaction(env, tx.multisig, tx.transactionIndex).0
    && tx.message.accountKeys[0] == DeriveVault(env, tx.multisig, tx.vaultIndex).0
  }

  // And that proposal stands in an account of the program at the canonical
  // address of its own (multisig, index), is of the multisig the approvals
  // name, is not executed, debits its own vault, and moves what is on display.
  lemma ApproveOnlySound(env: Env, fetch: Fetch, q: ApproveRequest, d: Decoded, r: OnChain)
    requires AcceptedFor(env, fetch, q, d, r)
    ensures fetch(d.transaction).Some? && fetch(d.transaction).value.owner == env.programId
    ensures var stored := AccountProposal(fetch(d.transaction).value.data);
            && stored.Some? && AccountBytes(stored.value) <= fetch(d.transaction).value.data
            && StandsFor(env, stored.value, d) && FlowsAccepted(env, r.flows, q.x.flows)
  {
    AcceptedReports(env, fetch, q, d, r);
    AccountCanonical(fetch(d.transaction).value.data);
  }
}
