/** From nothing: a wallet of two members that both must sign is founded on an empty
    chain, and then sends. */
module Founding {
  import opened Wrappers
  import opened Bytes
  import opened Members
  import opened State
  import opened Pda
  import opened Ids
  import opened Program
  import opened Safety
  import opened Builder
  import opened Compilation
  import opened Guarantees
  import opened FundFlows
  import opened Consumer
  import opened Money
  import opened HonestSend
  import opened HonestCommit
  import opened StepConditions

  function PairHash(env: Env, a: Key, b: Key): Key { env.sha256(Flatten(Sort([a, b]))) }

  // The call that founds a wallet of these two, both of whom must sign.
  function FoundPair(env: Env, a: Key, b: Key, payer: Key): Call {
    Initialize([a, b], PairHash(env, a, b), 2, 2, payer)
  }

  function PairAddress(env: Env, a: Key, b: Key): (Key, Byte) { NewAddress(env, PairHash(env, a, b), 2) }

  // The chain once that call has been submitted.
  function Founded(env: Env, wallets: map<Key, nat>, a: Key, b: Key, payer: Key): Ledger {
    Run(env, Genesis(wallets), [[FoundPair(env, a, b, payer)]])
  }

  lemma RunOne(env: Env, l: Ledger, c: Call)
    requires Apply(env, l, c).Ok?
    ensures Run(env, l, [[c]]) == Apply(env, l, c).value
  {
    var after := Apply(env, l, c).value;
    assert [c][1..] == [] && [[c]][1..] == [];
    assert ApplyAll(env, after, []) == Ok(after);
    assert ApplyAll(env, l, [c]) == Ok(after);
    assert Run(env, after, []) == after;
  }

  // It succeeds whenever the payer has the rent, and leaves exactly that wallet.
  lemma PairFounded(env: Env, wallets: map<Key, nat>, a: Key, b: Key, payer: Key)
    requires a != b && NewRent(env, 2) <= Balance(wallets, payer)
    ensures HasInitialized(Genesis(wallets), Founded(env, wallets, a, b, payer), [a, b], 2, PairAddress(env, a, b), 86,
                           NewRent(env, 2), payer)
    ensures Reachable(env, Founded(env, wallets, a, b, payer))
  {
    var hash, genesis := PairHash(env, a, b), Genesis(wallets);
    assert MayInitialize(env, genesis, [a, b], hash, 2, 2, payer);
    InitializeOkIff(env, genesis, [a, b], hash, 2, 2, payer);
    InitializeLeaves(env, genesis, [a, b], hash, 2, 2, payer);
    RunOne(env, genesis, FoundPair(env, a, b, payer));
  }

  // The two members, the wallet's first proposal, and who pays.
  function PairOf(env: Env, a: Key, b: Key, payer: Key): Parties {
    var address := PairAddress(env, a, b).0;
    Parties(address, DeriveTransaction(env, address, 1).0, 1, a, b, payer)
  }

  lemma PairSorted(a: Key, b: Key)
    requires a != b
    ensures |Sort([a, b])| == 2 && a in Sort([a, b]) && b in Sort([a, b])
  {
    CanonicalMembers([a, b]);
    assert a in multiset(Sort([a, b])) && b in multiset(Sort([a, b]));
  }

  // With the rent of one proposal left, it offers what a send of any message needs.
  lemma PairOffers(env: Env, wallets: map<Key, nat>, a: Key, b: Key, payer: Key, m: TransactionMessage)
    requires a != b && NewRent(env, 2) + env.rent(ComputeProposalSpace(m, 2)) <= Balance(wallets, payer)
    ensures Offers(env, Founded(env, wallets, a, b, payer), PairOf(env, a, b, payer), m)
  {
    PairFounded(env, wallets, a, b, payer);
    var s, l := PairOf(env, a, b, payer), Founded(env, wallets, a, b, payer);
    assert l.multisigs[s.multisig].data == Multisig(Sort([a, b]), 2, 0, PairAddress(env, a, b).1);
    PairSorted(a, b);
  }

  // A native send asked for by these parties, compiled.
  ghost predicate Sends(env: Env, p: Params, s: Parties, recipient: Key, amount: U64, b: BuiltMessage) {
    && AskedOf(p, s) && s.payer != recipient && 0 <= p.vaultIndex < 256
    && p.send == Send(Base58(recipient), Number(amount), None, None) && p.maxFee != Cap(NotANumber)
    && var vault := DeriveVault(env, s.multisig, p.vaultIndex).0;
    && vault != SYSTEM_PROGRAM && Compiles(vault, [Transfer(vault, recipient, amount)], b) && Encodable(b)
  }

  // The gate accepts its bundle, which commits from the founded ledger and moves the amount.
  ghost predicate Sent(env: Env, foreign: Foreign, p: Params, l: Ledger, after: Ledger, s: Parties, recipient: Key,
      amount: U64, m: TransactionMessage, replies: nat -> seq<Cpi>, purse: Purse, v: View)
  {
    && 0 <= p.vaultIndex < 256
    && ConsumerAccepts(env, MessageBundle(env.programId, s, p.vaultIndex, m), p, v)
    && HonestCommit.Settles(env, foreign, l, after, s, p.vaultIndex, m, replies, purse, recipient, amount)
  }

  // From an empty chain to money moved: the founding call, the accepted bundle, its commit, and the payment.
  lemma FoundedPairSends(env: Env, foreign: Foreign, p: Params, recipient: Key, amount: U64, b: BuiltMessage,
      wallets: map<Key, nat>, one: Key, other: Key, payer: Key, replies: nat -> seq<Cpi>, purse: Purse)
      returns (v: View, after: Ledger)
    requires OwnProgram(env.programId) && Sends(env, p, PairOf(env, one, other, payer), recipient, amount, b)
    requires NewRent(env, 2) + env.rent(ComputeProposalSpace(ToWire(b), 2)) <= Balance(wallets, payer)
    requires Quietly(replies(3))
    ensures Sent(env, foreign, p, Founded(env, wallets, one, other, payer), after, PairOf(env, one, other, payer),
                 recipient, amount, ToWire(b), replies, purse, v)
  {
    var s, l := PairOf(env, one, other, payer), Founded(env, wallets, one, other, payer);
    PairOffers(env, wallets, one, other, payer, ToWire(b));
    v, after := HonestSendSettles(env, foreign, p, recipient, amount, b, s, p.vaultIndex, l, replies, purse);
  }
}
