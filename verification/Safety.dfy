/** What every reachable ledger satisfies, whatever the invoked programs call back.
    Each clause is a total predicate, so that proofs instantiate exactly what they name. */
module Safety {
  import opened Wrappers
  import opened Bytes
  import opened Members
  import opened State
  import opened Pda
  import opened Program

  // ---- the invariant ----

  // Strictly sorted members, a threshold among them, at the address they derive.
  ghost predicate AccountOk(env: Env, address: Key, a: MultisigAccount) {
    && Sorted(a.data.members) && Distinct(a.data.members)
    && 1 <= a.data.threshold <= |a.data.members| <= MAX_MEMBERS
    && (address, a.data.bump) == DeriveMultisig(env, a.data.members, a.data.threshold)
    && a.space == ComputeMultisigSpace(|a.data.members|)
  }

  ghost predicate MultisigOk(env: Env, l: Ledger, address: Key) {
    address in l.multisigs ==> AccountOk(env, address, l.multisigs[address])
  }

  // The index has been handed out by its multisig's counter.
  ghost predicate Issued(l: Ledger, id: ProposalId) {
    id.multisig in l.multisigs && 1 <= id.index <= l.multisigs[id.multisig].data.transactionIndex
  }

  // Executed or closed: nothing more may happen under this id but closing.
  ghost predicate Settled(l: Ledger, id: ProposalId) {
    Issued(l, id) && (id in l.proposals ==> l.proposals[id].data.executed)
  }

  // Distinct members of the multisig.
  ghost predicate MemberVotes(l: Ledger, multisig: Key, approvals: seq<Key>) {
    && multisig in l.multisigs
    && Distinct(approvals) && (forall x | x in approvals :: x in l.multisigs[multisig].data.members)
  }

  // Each member voted by a call of its own.
  ghost predicate CastBy(l: Ledger, id: ProposalId, approvals: seq<Key>) {
    forall x | x in approvals :: Approved(id, x) in l.log
  }

  ghost predicate Quorum(l: Ledger, multisig: Key, approvals: seq<Key>) {
    MemberVotes(l, multisig, approvals) && |approvals| >= l.multisigs[multisig].data.threshold
  }

  ghost predicate ProposalOk(env: Env, l: Ledger, id: ProposalId) {
    id in l.proposals ==>
      var a := l.proposals[id];
      var tx := a.data;
      && Issued(l, id)
      && var ms := l.multisigs[id.multisig].data;
      && tx.multisig == id.multisig && tx.transactionIndex == id.index
      && tx.creator in ms.members
      && MemberVotes(l, id.multisig, tx.approvals) && CastBy(l, id, tx.approvals)
      && tx.bump == DeriveTransaction(env, id.multisig, id.index).1
      && (tx.executed ==> Quorum(l, id.multisig, tx.approvals) && Started(id, tx.approvals) in l.log)
      && ValidFor(env, id.multisig, tx)
      && a.space == ComputeProposalSpace(tx.message, |ms.members|)
      && a.lamports == env.rent(a.space)
      && Created(id, tx.payer, a.lamports, tx.message) in l.log
  }

  // The stored message debits the proposal's own vault, whose bump it caches.
  ghost predicate ValidFor(env: Env, multisig: Key, tx: VaultTransaction) {
    var (vault, vaultBump) := DeriveVault(env, multisig, tx.vaultIndex);
    WellFormed(tx.message, vault) && tx.vaultBump == vaultBump
  }

  // The CPI is the step-th instruction of the message this event created.
  ghost predicate CompiledFrom(env: Env, e: Event, id: ProposalId, step: nat, cpi: Invocation) {
    && e.Created? && e.id == id
    && step < |e.message.instructions|
    && Resolve(e.message, e.message.instructions[step]) == Some(cpi)
    && ForSomeVault(env, id.multisig, e.message)
  }

  ghost predicate ForSomeVault(env: Env, multisig: Key, message: TransactionMessage) {
    exists vaultIndex :: WellFormed(message, DeriveVault(env, multisig, vaultIndex).0)
  }

  ghost predicate EventOk(env: Env, l: Ledger, e: Event) {
    e in l.log ==>
      match e
      case Initialized(address, _, _) => address in l.multisigs
      case Created(id, _, _, message) => Issued(l, id)
      case Approved(id, member) =>
        && Issued(l, id) && member in l.multisigs[id.multisig].data.members
        && (id in l.proposals ==> member in l.proposals[id].data.approvals)
      case Started(id, approvals) =>
        && Settled(l, id)
        && (id in l.proposals ==> l.proposals[id].data.approvals == approvals)
        && Quorum(l, id.multisig, approvals) && CastBy(l, id, approvals)
      case Invoked(id, step, cpi) =>
        && Settled(l, id)
        && (exists approvals :: Started(id, approvals) in l.log)
        && (exists c :: c in l.log && CompiledFrom(env, c, id, step, cpi))
      case Closed(id, payee, refund) =>
        && Issued(l, id) && id !in l.proposals
        && (exists message :: Created(id, payee, refund, message) in l.log)
  }

  // How far an event is in the life of its proposal. Closing may fall into the
  // CPI loop, so the two do not order each other.
  function Stage(e: Event): nat {
    match e
    case Initialized(_, _, _) => 0
    case Created(_, _, _, _) => 1
    case Approved(_, _) => 2
    case Started(_, _) => 3
    case Invoked(_, _, _) => 4
    case Closed(_, _, _) => 4
  }

  // Among the events of one proposal: b must not follow a.
  predicate OutOfOrder(a: Event, b: Event) {
    match (a, b)
    case (Approved(_, x), Approved(_, y)) => x == y
    case (Invoked(_, i, _), Invoked(_, j, _)) => j <= i
    case (Invoked(_, _, _), Closed(_, _, _)) => false
    case (Closed(_, _, _), Invoked(_, _, _)) => false
    case _ => Stage(b) <= Stage(a)
  }

  predicate Clash(a: Event, b: Event) {
    if a.Initialized? && b.Initialized? then a.address == b.address
    else !a.Initialized? && !b.Initialized? && a.id == b.id && OutOfOrder(a, b)
  }

  ghost predicate Apart(log: seq<Event>, i: nat, j: nat) {
    i < j < |log| ==> !Clash(log[i], log[j])
  }

  ghost predicate NoClash(log: seq<Event>) { forall i: nat, j: nat :: Apart(log, i, j) }

  ghost predicate Inv(env: Env, l: Ledger) {
    && (forall k :: MultisigOk(env, l, k))
    && (forall id :: ProposalOk(env, l, id))
    && (forall e :: EventOk(env, l, e))
    && NoClash(l.log)
  }

  // ---- how a ledger may evolve ----

  // Only the counter of a multisig moves, and only up.
  ghost predicate MultisigKept(l: Ledger, m: Ledger, k: Key) {
    k in l.multisigs ==>
      && k in m.multisigs
      && var a, b := l.multisigs[k], m.multisigs[k];
      && b == a.(data := a.data.(transactionIndex := b.data.transactionIndex))
      && a.data.transactionIndex <= b.data.transactionIndex
  }

  // A proposal only gathers approvals until it is executed; from then on it is
  // frozen; once closed it stays closed.
  ghost predicate ProposalKept(l: Ledger, m: Ledger, id: ProposalId) {
    && (id in l.proposals && id in m.proposals ==>
          var a, b := l.proposals[id], m.proposals[id];
          && b == a.(data := a.data.(approvals := b.data.approvals, executed := b.data.executed))
          && a.data.approvals <= b.data.approvals
          && (a.data.executed ==> b == a))
    && (Issued(l, id) && id !in l.proposals ==> id !in m.proposals)
  }

  ghost predicate EventKept(l: Ledger, m: Ledger, e: Event) { e in l.log ==> e in m.log }

  ghost predicate Kept(l: Ledger, m: Ledger) {
    && (forall k :: MultisigKept(l, m, k))
    && (forall id :: ProposalKept(l, m, id))
    && (forall e :: EventKept(l, m, e))
    && l.log <= m.log
  }

  // What is newly logged is never a settled proposal being run again.
  ghost predicate Quiet(l: Ledger, m: Ledger, e: Event) {
    e in m.log && e !in l.log && (e.Started? || e.Invoked?) ==> !Settled(l, e.id)
  }

  ghost predicate Extends(l: Ledger, m: Ledger) { Kept(l, m) && forall e :: Quiet(l, m, e) }

  lemma SettledStays(l: Ledger, m: Ledger, id: ProposalId)
    requires Kept(l, m)
    ensures Issued(l, id) ==> Issued(m, id)
    ensures Settled(l, id) ==> Settled(m, id)
  {
    assert MultisigKept(l, m, id.multisig) && ProposalKept(l, m, id);
  }

  lemma KeptTransitive(env: Env, a: Ledger, b: Ledger, c: Ledger)
    requires Kept(a, b) && Kept(b, c)
    requires forall id :: ProposalOk(env, a, id)
    ensures Kept(a, c)
  {
    forall k ensures MultisigKept(a, c, k) {
      assert MultisigKept(a, b, k) && MultisigKept(b, c, k);
    }
    forall id ensures ProposalKept(a, c, id) {
      assert ProposalOk(env, a, id);
      assert ProposalKept(a, b, id) && ProposalKept(b, c, id);
      SettledStays(a, b, id);
    }
    forall e ensures EventKept(a, c, e) {
      assert EventKept(a, b, e) && EventKept(b, c, e);
    }
  }

  lemma ExtendsTransitive(env: Env, a: Ledger, b: Ledger, c: Ledger)
    requires Extends(a, b) && Extends(b, c)
    requires forall id :: ProposalOk(env, a, id)
    ensures Extends(a, c)
  {
    KeptTransitive(env, a, b, c);
    forall e ensures Quiet(a, c, e) {
      assert Quiet(a, b, e) && Quiet(b, c, e);
      if e.Started? || e.Invoked? { SettledStays(a, b, e.id); }
    }
  }

  // ---- what a step must show ----

  lemma QuorumStays(l: Ledger, m: Ledger, multisig: Key, approvals: seq<Key>)
    requires Kept(l, m)
    ensures MemberVotes(l, multisig, approvals) ==> MemberVotes(m, multisig, approvals)
    ensures Quorum(l, multisig, approvals) ==> Quorum(m, multisig, approvals)
  {
    assert MultisigKept(l, m, multisig);
  }

  lemma VotesStay(l: Ledger, m: Ledger, id: ProposalId, approvals: seq<Key>)
    requires Kept(l, m) && CastBy(l, id, approvals)
    ensures CastBy(m, id, approvals)
  {
    forall x | x in approvals ensures Approved(id, x) in m.log { assert EventKept(l, m, Approved(id, x)); }
  }

  lemma OldEventOk(env: Env, l: Ledger, m: Ledger, e: Event)
    requires Kept(l, m) && e in l.log && EventOk(env, l, e)
    ensures EventOk(env, m, e)
  {
    match e
    case Initialized(address, _, _) => assert MultisigKept(l, m, address);
    case Created(id, _, _, _) => SettledStays(l, m, id);
    case Approved(id, member) =>
      SettledStays(l, m, id);
      assert MultisigKept(l, m, id.multisig) && ProposalKept(l, m, id);
    case Started(id, approvals) =>
      SettledStays(l, m, id);
      VotesStay(l, m, id, approvals);
      QuorumStays(l, m, id.multisig, approvals);
      assert ProposalKept(l, m, id);
    case Invoked(id, step, cpi) =>
      SettledStays(l, m, id);
      var c :| c in l.log && CompiledFrom(env, c, id, step, cpi);
      assert EventKept(l, m, c);
      var approvals :| Started(id, approvals) in l.log;
      assert EventKept(l, m, Started(id, approvals));
    case Closed(id, payee, refund) =>
      SettledStays(l, m, id);
      assert ProposalKept(l, m, id);
      var message :| Created(id, payee, refund, message) in l.log;
      assert EventKept(l, m, Created(id, payee, refund, message));
  }

  lemma OldProposalOk(env: Env, l: Ledger, m: Ledger, id: ProposalId)
    requires Kept(l, m) && ProposalOk(env, l, id)
    requires id in l.proposals && id in m.proposals && m.proposals[id] == l.proposals[id]
    ensures ProposalOk(env, m, id)
  {
    var a := l.proposals[id];
    SettledStays(l, m, id);
    QuorumStays(l, m, id.multisig, a.data.approvals);
    VotesStay(l, m, id, a.data.approvals);
    assert MultisigKept(l, m, id.multisig);
    assert EventKept(l, m, Started(id, a.data.approvals));
    assert EventKept(l, m, Created(id, a.data.payer, a.lamports, a.data.message));
  }

  // Nothing logged so far clashes with e.
  ghost predicate Unheard(log: seq<Event>, e: Event) { forall o | o in log :: !Clash(o, e) }

  lemma NoClashSnoc(log: seq<Event>, e: Event)
    requires NoClash(log) && Unheard(log, e)
    ensures NoClash(log + [e])
  {
    forall i: nat, j: nat ensures Apart(log + [e], i, j) {
      assert Apart(log, i, j);
      if i < j == |log| { assert log[i] in log; }
    }
  }

  // A step keeps the invariant if every account it wrote is in order, and what
  // it logged, if anything, is in order and unheard of.
  lemma InvStep(env: Env, l: Ledger, m: Ledger, touched: set<ProposalId>, founded: set<Key>, news: seq<Event>)
    requires Inv(env, l) && Kept(l, m)
    requires m.log == l.log + news && |news| <= 1
    requires forall id | id in m.proposals && id !in touched :: id in l.proposals && m.proposals[id] == l.proposals[id]
    requires forall id | id in touched :: ProposalOk(env, m, id)
    requires forall k | k in m.multisigs && k !in founded :: k in l.multisigs
    requires forall k | k in founded :: MultisigOk(env, m, k)
    requires forall e | e in news :: EventOk(env, m, e) && Unheard(l.log, e)
    ensures Inv(env, m)
  {
    forall k ensures MultisigOk(env, m, k) {
      if k in m.multisigs && k !in founded { assert MultisigOk(env, l, k) && MultisigKept(l, m, k); }
    }
    forall id ensures ProposalOk(env, m, id) {
      if id in m.proposals && id !in touched {
        assert ProposalOk(env, l, id);
        OldProposalOk(env, l, m, id);
      }
    }
    forall e ensures EventOk(env, m, e) {
      if e in l.log {
        assert EventOk(env, l, e);
        OldEventOk(env, l, m, e);
      }
    }
    if news == [] { assert m.log == l.log; } else { NoClashSnoc(l.log, news[0]); assert news == [news[0]]; }
  }

  // ---- the steps ----

  lemma CanonicalMembers(members: seq<Key>)
    requires Distinct(members)
    ensures Distinct(Sort(members)) && |Sort(members)| == |members| && Sort(Sort(members)) == Sort(members)
  {
    SortFixesSorted(Sort(members));
    PermutationKeepsDistinct(members, Sort(members));
    assert |Sort(members)| == |multiset(Sort(members))| == |multiset(members)| == |members|;
  }

  // The account initialize_multisig writes.
  lemma FoundedOk(env: Env, remaining: seq<Key>, threshold: Byte)
    requires Distinct(remaining) && 0 < threshold <= |remaining| <= MAX_MEMBERS
    ensures var (address, bump) := Derive(env, MultisigSeed(env.sha256(Flatten(Sort(remaining))), threshold));
            AccountOk(env, address,
                      MultisigAccount(Multisig(Sort(remaining), threshold, 0, bump), ComputeMultisigSpace(|remaining|)))
  {
    CanonicalMembers(remaining);
  }

  lemma InitializedOk(env: Env, l: Ledger, c: Call)
    requires c.Initialize? && Apply(env, l, c).Ok?
    ensures var m := Apply(env, l, c).value;
            var (address, bump) := Derive(env, MultisigSeed(c.memberHash, c.threshold));
            var space := ComputeMultisigSpace(c.memberCount);
            var a := MultisigAccount(Multisig(Sort(c.remaining), c.threshold, 0, bump), space);
            && AccountOk(env, address, a)
            && address !in l.multisigs && m.multisigs == l.multisigs[address := a]
            && m.proposals == l.proposals && m.log == l.log + [Initialized(address, c.payer, env.rent(space))]
  {
    FoundedOk(env, c.remaining, c.threshold);
  }

  lemma InitializeKeeps(env: Env, l: Ledger, c: Call)
    requires Inv(env, l) && c.Initialize? && Apply(env, l, c).Ok?
    ensures Inv(env, Apply(env, l, c).value) && Extends(l, Apply(env, l, c).value)
  {
    var m := Apply(env, l, c).value;
    var address := Derive(env, MultisigSeed(c.memberHash, c.threshold)).0;
    var e := Initialized(address, c.payer, env.rent(ComputeMultisigSpace(c.memberCount)));
    InitializedOk(env, l, c);
    forall id ensures ProposalKept(l, m, id) { assert ProposalOk(env, l, id); }
    forall o | o in l.log ensures !Clash(o, e) { assert EventOk(env, l, o); }
    InvStep(env, l, m, {}, {address}, [e]);
  }

  // What create_transaction writes, laid out.
  lemma CreateWrites(env: Env, l: Ledger, c: Call) returns (m: Ledger, id: ProposalId, e: Event)
    requires c.Create? && Apply(env, l, c).Ok?
    ensures m == Apply(env, l, c).value && c.multisig in l.multisigs
    ensures var account := l.multisigs[c.multisig];
            var ms := account.data;
            && id == ProposalId(c.multisig, ms.transactionIndex + 1) && id !in l.proposals && id in m.proposals
            && m.multisigs == l.multisigs[c.multisig := account.(data := ms.(transactionIndex := id.index))]
            && m.proposals == l.proposals[id := m.proposals[id]]
            && m.log == l.log + [e] && e == Created(id, c.payer, m.proposals[id].lamports, c.message)
            && var a := m.proposals[id];
            && a.space == ComputeProposalSpace(c.message, |ms.members|) && a.lamports == env.rent(a.space)
            && a.data.multisig == c.multisig && a.data.transactionIndex == id.index
            && a.data.creator in ms.members && a.data.payer == c.payer
            && a.data.bump == DeriveTransaction(env, id.multisig, id.index).1
            && !a.data.executed && a.data.approvals == [] && a.data.message == c.message
            && ValidFor(env, c.multisig, a.data)
  {
    m := Apply(env, l, c).value;
    id := ProposalId(c.multisig, l.multisigs[c.multisig].data.transactionIndex + 1);
    e := Created(id, c.payer, m.proposals[id].lamports, c.message);
  }

  lemma CreateKeeps(env: Env, l: Ledger, c: Call)
    requires Inv(env, l) && c.Create? && Apply(env, l, c).Ok?
    ensures Inv(env, Apply(env, l, c).value) && Extends(l, Apply(env, l, c).value)
  {
    var m, id, e := CreateWrites(env, l, c);
    assert MultisigOk(env, l, c.multisig);
    forall o | o in l.log ensures !Clash(o, e) { assert EventOk(env, l, o); }
    assert e in m.log;
    assert ProposalOk(env, m, id);
    InvStep(env, l, m, {id}, {c.multisig}, [e]);
  }

  lemma ApproveKeeps(env: Env, l: Ledger, c: Call)
    requires Inv(env, l) && c.Approve? && Apply(env, l, c).Ok?
    ensures Inv(env, Apply(env, l, c).value) && Extends(l, Apply(env, l, c).value)
  {
    var m := Apply(env, l, c).value;
    var id := ProposalId(c.multisig, c.index);
    var e := Approved(id, c.member);
    assert ProposalOk(env, l, id);
    forall o | o in l.log ensures !Clash(o, e) { assert EventOk(env, l, o); }
    assert m.log == l.log + [e] && e in m.log;
    assert ProposalOk(env, m, id);
    InvStep(env, l, m, {id}, {}, [e]);
  }

  lemma StartKeeps(env: Env, l: Ledger, multisig: Key, index: U64, remaining: seq<Key>)
    requires Inv(env, l) && StartStep(l, multisig, index, remaining).Ok?
    ensures var m := StartStep(l, multisig, index, remaining).value; Inv(env, m) && Extends(l, m)
  {
    var m := StartStep(l, multisig, index, remaining).value;
    var id := ProposalId(multisig, index);
    var e := Started(id, l.proposals[id].data.approvals);
    assert ProposalOk(env, l, id);
    forall o | o in l.log ensures !Clash(o, e) { assert EventOk(env, l, o); }
    assert m.log == l.log + [e] && e in m.log;
    assert ProposalOk(env, m, id);
    InvStep(env, l, m, {id}, {}, [e]);
  }

  lemma CloseKeeps(env: Env, l: Ledger, c: Call)
    requires Inv(env, l) && c.Close? && Apply(env, l, c).Ok?
    ensures Inv(env, Apply(env, l, c).value) && Extends(l, Apply(env, l, c).value)
  {
    var m := Apply(env, l, c).value;
    var id := ProposalId(c.multisig, c.index);
    var a := l.proposals[id];
    var e := Closed(id, c.payer, a.lamports);
    assert ProposalOk(env, l, id);
    forall o | o in l.log ensures !Clash(o, e) { assert EventOk(env, l, o); }
    assert m.log == l.log + [e];
    assert Created(id, c.payer, a.lamports, a.data.message) in m.log;
    InvStep(env, l, m, {}, {}, [e]);
  }

  // Mid-loop: the proposal is settled, its message is the created one, and
  // only its first k CPIs may have been entered.
  ghost predicate Running(env: Env, l: Ledger, id: ProposalId, message: TransactionMessage, k: nat) {
    && Settled(l, id)
    && (exists approvals :: Started(id, approvals) in l.log)
    && (exists payer, deposit :: Created(id, payer, deposit, message) in l.log)
    && ForSomeVault(env, id.multisig, message)
    && (forall e :: Entered(l, e, id, k))
  }

  ghost predicate Entered(l: Ledger, e: Event, id: ProposalId, k: nat) {
    e in l.log && e.Invoked? && e.id == id ==> e.step < k
  }

  // Entering the k-th CPI of a proposal that had not been settled `before`.
  lemma InvokeKeeps(env: Env, before: Ledger, l: Ledger, id: ProposalId, message: TransactionMessage, k: nat,
      cpi: Invocation)
    requires Inv(env, before) && Inv(env, l) && Extends(before, l) && !Settled(before, id)
    requires Running(env, l, id, message, k) && k < |message.instructions|
    requires Resolve(message, message.instructions[k]) == Some(cpi)
    ensures var m := Record(l, Invoked(id, k, cpi));
            Inv(env, m) && Extends(before, m) && Running(env, m, id, message, k + 1)
  {
    var e := Invoked(id, k, cpi);
    var m := Record(l, e);
    assert Kept(l, m);
    KeptTransitive(env, before, l, m);
    forall o ensures Quiet(before, m, o) { assert Quiet(before, l, o); }
    var payer, deposit :| Created(id, payer, deposit, message) in l.log;
    var c := Created(id, payer, deposit, message);
    assert c in m.log && CompiledFrom(env, c, id, k, cpi);
    forall o | o in l.log ensures !Clash(o, e) { assert Entered(l, o, id, k); }
    assert m.log == l.log + [e];
    InvStep(env, l, m, {}, {}, [e]);
    var next := k + 1;
    forall o ensures Entered(m, o, id, next) { assert Entered(l, o, id, k); }
  }

  // A started proposal is at the head of its loop.
  lemma StartRuns(env: Env, l: Ledger, multisig: Key, index: U64, remaining: seq<Key>)
    requires Inv(env, l) && StartStep(l, multisig, index, remaining).Ok?
    ensures var id := ProposalId(multisig, index);
            !Settled(l, id)
            && Running(env, StartStep(l, multisig, index, remaining).value, id, l.proposals[id].data.message, 0)
  {
    var id := ProposalId(multisig, index);
    var m := StartStep(l, multisig, index, remaining).value;
    assert ProposalOk(env, l, id);
    var a := l.proposals[id];
    assert Created(id, a.data.payer, a.lamports, a.data.message) in m.log;
    forall e ensures Entered(m, e, id, 0) { assert EventOk(env, l, e); }
  }

  // Whatever runs inside a CPI leaves the loop where it was.
  lemma RunningStays(env: Env, l: Ledger, m: Ledger, id: ProposalId, message: TransactionMessage, k: nat)
    requires Running(env, l, id, message, k) && Extends(l, m)
    ensures Running(env, m, id, message, k)
  {
    SettledStays(l, m, id);
    var payer, deposit :| Created(id, payer, deposit, message) in l.log;
    assert EventKept(l, m, Created(id, payer, deposit, message));
    forall e ensures Entered(m, e, id, k) {
      assert Entered(l, e, id, k) && Quiet(l, m, e);
    }
  }

  // ---- every call tree ----

  lemma {:induction false} ApplyKeeps(env: Env, l: Ledger, c: Call)
    requires Inv(env, l) && Apply(env, l, c).Ok?
    ensures Inv(env, Apply(env, l, c).value) && Extends(l, Apply(env, l, c).value)
    decreases c, 0
  {
    match c
    case Initialize(_, _, _, _, _) => InitializeKeeps(env, l, c);
    case Create(_, _, _, _, _) => CreateKeeps(env, l, c);
    case Approve(_, _, _) => ApproveKeeps(env, l, c);
    case Close(_, _, _) => CloseKeeps(env, l, c);
    case Execute(multisig, index, remaining, cpis) =>
      var id := ProposalId(multisig, index);
      StartKeeps(env, l, multisig, index, remaining);
      StartRuns(env, l, multisig, index, remaining);
      var started := StartStep(l, multisig, index, remaining).value;
      CpisKeep(env, l, started, id, l.proposals[id].data.message, 0, cpis);
  }

  lemma {:induction false} CpisKeep(env: Env, before: Ledger, l: Ledger, id: ProposalId, message: TransactionMessage,
      k: nat, cpis: seq<Cpi>)
    requires Inv(env, before) && Inv(env, l) && Extends(before, l) && !Settled(before, id)
    requires k <= |message.instructions| && Running(env, l, id, message, k)
    requires ApplyCpis(env, l, id, message, k, cpis).Ok?
    ensures var m := ApplyCpis(env, l, id, message, k, cpis).value;
            Inv(env, m) && Extends(before, m) && Running(env, m, id, message, |message.instructions|)
    decreases cpis, |message.instructions| - k, 1
  {
    if k == |message.instructions| {
    } else {
      var cpi := Resolve(message, message.instructions[k]).value;
      var invoked := Record(l, Invoked(id, k, cpi));
      InvokeKeeps(env, before, l, id, message, k, cpi);
      if k < |cpis| {
        AllKeep(env, invoked, cpis[k].calls);
        var after := ApplyAll(env, invoked, cpis[k].calls).value;
        ExtendsTransitive(env, before, invoked, after);
        RunningStays(env, invoked, after, id, message, k + 1);
        CpisKeep(env, before, after, id, message, k + 1, cpis);
      } else {
        CpisKeep(env, before, invoked, id, message, k + 1, cpis);
      }
    }
  }

  lemma {:induction false} AllKeep(env: Env, l: Ledger, calls: seq<Call>)
    requires Inv(env, l) && ApplyAll(env, l, calls).Ok?
    ensures Inv(env, ApplyAll(env, l, calls).value) && Extends(l, ApplyAll(env, l, calls).value)
    decreases calls, 0
  {
    if calls == [] {
    } else {
      var next := Apply(env, l, calls[0]).value;
      ApplyKeeps(env, l, calls[0]);
      AllKeep(env, next, calls[1..]);
      ExtendsTransitive(env, l, next, ApplyAll(env, next, calls[1..]).value);
    }
  }

  lemma {:induction false} RunKeeps(env: Env, l: Ledger, txs: seq<seq<Call>>)
    requires Inv(env, l)
    ensures Inv(env, Run(env, l, txs)) && Extends(l, Run(env, l, txs))
    decreases |txs|
  {
    if txs == [] {
    } else {
      var next := Submit(env, l, txs[0]);
      if ApplyAll(env, l, txs[0]).Ok? { AllKeep(env, l, txs[0]); }
      RunKeeps(env, next, txs[1..]);
      ExtendsTransitive(env, l, next, Run(env, next, txs[1..]));
    }
  }
}
