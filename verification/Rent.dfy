/** Rent deposits: what a payer fronts comes back to it, and to nobody else. */
module Rent {
  import opened Bytes
  import opened State
  import opened Pda
  import opened Program
  import opened Safety
  import opened Guarantees

  function Share(a: ProposalAccount, k: Key): nat { if a.data.payer == k then a.lamports else 0 }

  // Lamports held by live proposals whose rent k paid.
  ghost function Deposits(ps: map<ProposalId, ProposalAccount>, k: Key): nat
    decreases |ps|
  {
    if ps == map[] then 0 else
    var id :| id in ps;
    Share(ps[id], k) + Deposits(ps - {id}, k)
  }

  // Rent k spent on multisig accounts, which nothing refunds.
  function Sunk(log: seq<Event>, k: Key): nat {
    if log == [] then 0 else
    var e := log[|log| - 1];
    Sunk(log[..|log| - 1], k) + (if e.Initialized? && e.payer == k then e.rent else 0)
  }

  // Everything that is k's: in its wallet, deposited, or sunk.
  ghost function Worth(l: Ledger, k: Key): nat {
    Balance(l.wallets, k) + Deposits(l.proposals, k) + Sunk(l.log, k)
  }

  lemma {:induction false} DepositsWithout(ps: map<ProposalId, ProposalAccount>, k: Key, id: ProposalId)
    requires id in ps
    ensures Deposits(ps, k) == Share(ps[id], k) + Deposits(ps - {id}, k)
    decreases |ps|
  {
    var x :| x in ps && Deposits(ps, k) == Share(ps[x], k) + Deposits(ps - {x}, k);
    if x == id {
    } else {
      DepositsWithout(ps - {x}, k, id);
      DepositsWithout(ps - {id}, k, x);
      assert ps - {x} - {id} == ps - {id} - {x};
    }
  }

  lemma DepositsUpdate(ps: map<ProposalId, ProposalAccount>, k: Key, id: ProposalId, a: ProposalAccount)
    ensures Deposits(ps[id := a], k)
            == Share(a, k) + (if id in ps then Deposits(ps, k) - Share(ps[id], k) else Deposits(ps, k))
  {
    DepositsWithout(ps[id := a], k, id);
    assert ps[id := a] - {id} == ps - {id};
    if id in ps { DepositsWithout(ps, k, id); } else { assert ps - {id} == ps; }
  }

  lemma SunkSnoc(log: seq<Event>, e: Event, k: Key)
    ensures Sunk(log + [e], k) == Sunk(log, k) + (if e.Initialized? && e.payer == k then e.rent else 0)
  {
    assert (log + [e])[..|log|] == log;
  }

  lemma CreateConserves(env: Env, l: Ledger, c: Call, k: Key)
    requires c.Create? && Apply(env, l, c).Ok?
    ensures Worth(Apply(env, l, c).value, k) == Worth(l, k)
  {
    var m := Apply(env, l, c).value;
    var ms := l.multisigs[c.multisig].data;
    var id := ProposalId(c.multisig, ms.transactionIndex + 1);
    var deposit := env.rent(ComputeProposalSpace(c.message, |ms.members|));
    SunkSnoc(l.log, Created(id, c.payer, deposit, c.message), k);
    DepositsUpdate(l.proposals, k, id, m.proposals[id]);
  }

  lemma CloseConserves(env: Env, l: Ledger, c: Call, k: Key)
    requires c.Close? && Apply(env, l, c).Ok?
    ensures Worth(Apply(env, l, c).value, k) == Worth(l, k)
  {
    var id := ProposalId(c.multisig, c.index);
    SunkSnoc(l.log, Closed(id, c.payer, l.proposals[id].lamports), k);
    DepositsWithout(l.proposals, k, id);
  }

  lemma StoreConserves(l: Ledger, id: ProposalId, tx: VaultTransaction, k: Key)
    requires id in l.proposals && tx.payer == l.proposals[id].data.payer
    ensures Worth(Store(l, id, tx), k) == Worth(l, k)
  {
    DepositsUpdate(l.proposals, k, id, l.proposals[id].(data := tx));
  }

  lemma {:induction false} ApplyConserves(env: Env, l: Ledger, c: Call, k: Key)
    requires Apply(env, l, c).Ok?
    ensures Worth(Apply(env, l, c).value, k) == Worth(l, k)
    decreases c, 0
  {
    match c
    case Initialize(_, memberHash, threshold, memberCount, payer) =>
      var address := Derive(env, MultisigSeed(memberHash, threshold)).0;
      SunkSnoc(l.log, Initialized(address, payer, env.rent(ComputeMultisigSpace(memberCount))), k);
    case Create(_, _, _, _, _) => CreateConserves(env, l, c, k);
    case Close(_, _, _) => CloseConserves(env, l, c, k);
    case Approve(multisig, index, member) =>
      var id := ProposalId(multisig, index);
      var tx := l.proposals[id].data;
      StoreConserves(l, id, tx.(approvals := tx.approvals + [member]), k);
    case Execute(multisig, index, remaining, cpis) =>
      var id := ProposalId(multisig, index);
      var tx := l.proposals[id].data;
      StoreConserves(l, id, tx.(executed := true), k);
      SunkSnoc(l.log, Started(id, tx.approvals), k);
      CpisConserve(env, StartStep(l, multisig, index, remaining).value, id, tx.message, 0, cpis, k);
  }

  lemma {:induction false} CpisConserve(env: Env, l: Ledger, id: ProposalId, message: TransactionMessage, i: nat,
      cpis: seq<Cpi>, k: Key)
    requires i <= |message.instructions| && ApplyCpis(env, l, id, message, i, cpis).Ok?
    ensures Worth(ApplyCpis(env, l, id, message, i, cpis).value, k) == Worth(l, k)
    decreases cpis, |message.instructions| - i, 1
  {
    if i == |message.instructions| {
    } else {
      var e := Invoked(id, i, Resolve(message, message.instructions[i]).value);
      var invoked := Record(l, e);
      SunkSnoc(l.log, e, k);
      if i < |cpis| {
        AllConserve(env, invoked, cpis[i].calls, k);
        CpisConserve(env, ApplyAll(env, invoked, cpis[i].calls).value, id, message, i + 1, cpis, k);
      } else {
        CpisConserve(env, invoked, id, message, i + 1, cpis, k);
      }
    }
  }

  lemma {:induction false} AllConserve(env: Env, l: Ledger, calls: seq<Call>, k: Key)
    requires ApplyAll(env, l, calls).Ok?
    ensures Worth(ApplyAll(env, l, calls).value, k) == Worth(l, k)
    decreases calls, 0
  {
    if calls == [] {
    } else {
      ApplyConserves(env, l, calls[0], k);
      AllConserve(env, Apply(env, l, calls[0]).value, calls[1..], k);
    }
  }

  // Over any run, what a key started with is what it has, has on deposit and has sunk.
  lemma {:induction false} RunConserves(env: Env, l: Ledger, txs: seq<seq<Call>>, k: Key)
    ensures Worth(Run(env, l, txs), k) == Worth(l, k)
    decreases |txs|
  {
    if txs == [] {
    } else {
      if ApplyAll(env, l, txs[0]).Ok? { AllConserve(env, l, txs[0], k); }
      RunConserves(env, Submit(env, l, txs[0]), txs[1..], k);
    }
  }

  // A close refunds, in full and once, the very deposit made at create to the very key that made it.
  lemma RefundMatchesDeposit(env: Env, l: Ledger, id: ProposalId, payee: Key, refund: nat, e: Event)
    requires Reachable(env, l) && Closed(id, payee, refund) in l.log
    ensures exists message :: Created(id, payee, refund, message) in l.log
    ensures e in l.log && e.Created? && e.id == id ==> e.payer == payee && e.deposit == refund
    ensures e in l.log && e.Closed? && e.id == id ==> e == Closed(id, payee, refund)
    ensures id !in l.proposals
  {
    ReachableInv(env, l);
    var c := Closed(id, payee, refund);
    assert EventOk(env, l, c);
    var message :| Created(id, payee, refund, message) in l.log;
    if e in l.log && e.Created? && e.id == id { SameEvent(l.log, Created(id, payee, refund, message), e); }
    if e in l.log && e.Closed? && e.id == id { SameEvent(l.log, c, e); }
  }

  // A proposal is created once and closed once.
  lemma SameEvent(log: seq<Event>, a: Event, b: Event)
    requires NoClash(log) && a in log && b in log
    requires (a.Created? && b.Created?) || (a.Closed? && b.Closed?)
    requires a.id == b.id
    ensures a == b
  {
    var i: nat :| i < |log| && log[i] == a;
    var j: nat :| j < |log| && log[j] == b;
    assert Apart(log, i, j) && Apart(log, j, i);
  }
}
