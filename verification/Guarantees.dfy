/** The promises of the program, for every committed run from an empty chain. */
module Guarantees {
  import opened Wrappers
  import opened Bytes
  import opened Codecs
  import opened Members
  import opened State
  import opened Pda
  import opened Program
  import opened Safety

  // The state after any transactions whatsoever, each with any re-entrant behaviour.
  ghost predicate Reachable(env: Env, l: Ledger) {
    exists wallets, txs :: l == Run(env, Genesis(wallets), txs)
  }

  lemma ReachableInv(env: Env, l: Ledger)
    requires Reachable(env, l)
    ensures Inv(env, l)
  {
    var wallets, txs :| l == Run(env, Genesis(wallets), txs);
    RunKeeps(env, Genesis(wallets), txs);
  }

  // A proposal enters its CPI loop at most once, and each of its CPIs is made at most once.
  lemma AtMostOnce(env: Env, l: Ledger, i: nat, j: nat)
    requires Reachable(env, l) && i < j < |l.log|
    ensures l.log[i].Started? && l.log[j].Started? ==> l.log[i].id != l.log[j].id
    ensures l.log[i].Invoked? && l.log[j].Invoked? ==> (l.log[i].id, l.log[i].step) != (l.log[j].id, l.log[j].step)
  {
    ReachableInv(env, l);
    assert Apart(l.log, i, j);
  }

  // No index is issued twice, and every index issued is within the counter.
  lemma IndexesAreFresh(env: Env, l: Ledger, i: nat, j: nat)
    requires Reachable(env, l) && i < j < |l.log| && l.log[i].Created? && l.log[j].Created?
    ensures l.log[i].id != l.log[j].id
    ensures l.log[j].id.multisig in l.multisigs
    ensures 1 <= l.log[j].id.index <= l.multisigs[l.log[j].id.multisig].data.transactionIndex
  {
    ReachableInv(env, l);
    assert Apart(l.log, i, j) && EventOk(env, l, l.log[j]);
  }

  // Later transactions never lower a counter, change a member set, touch an
  // executed proposal other than to close it, or bring a closed one back.
  lemma LaterNeverUndoes(env: Env, l: Ledger, txs: seq<seq<Call>>, k: Key, id: ProposalId)
    requires Reachable(env, l) && k in l.multisigs
    ensures var m := Run(env, l, txs);
            && k in m.multisigs
            && m.multisigs[k].data.members == l.multisigs[k].data.members
            && m.multisigs[k].data.threshold == l.multisigs[k].data.threshold
            && m.multisigs[k].data.transactionIndex >= l.multisigs[k].data.transactionIndex
    ensures var m := Run(env, l, txs);
            && (id in l.proposals && id in m.proposals ==> m.proposals[id].data.message == l.proposals[id].data.message)
            && (id in l.proposals && id in m.proposals && l.proposals[id].data.executed
                ==> m.proposals[id] == l.proposals[id])
            && (Issued(l, id) && id !in l.proposals ==> id !in m.proposals)
  {
    ReachableInv(env, l);
    RunKeeps(env, l, txs);
    assert MultisigKept(l, Run(env, l, txs), k) && ProposalKept(l, Run(env, l, txs), id);
  }

  // Every proposal that ever started had the distinct consent of enough members, each given by a call of its own.
  lemma ThresholdConsent(env: Env, l: Ledger, id: ProposalId, approvals: seq<Key>)
    requires Reachable(env, l) && Started(id, approvals) in l.log
    ensures id.multisig in l.multisigs
    ensures var ms := l.multisigs[id.multisig].data;
            && Distinct(approvals) && (forall x | x in approvals :: x in ms.members)
            && 1 <= ms.threshold <= |approvals| <= |ms.members| <= MAX_MEMBERS
    ensures forall x | x in approvals :: Approved(id, x) in l.log
  {
    ReachableInv(env, l);
    assert EventOk(env, l, Started(id, approvals)) && MultisigOk(env, l, id.multisig);
    Pigeonhole(approvals, l.multisigs[id.multisig].data.members);
  }

  // A stored proposal sits under its own issued index; its votes are distinct
  // members; if executed, it was started with exactly the votes it still holds.
  lemma StoredProposals(env: Env, l: Ledger, id: ProposalId)
    requires Reachable(env, l) && id in l.proposals
    ensures Issued(l, id)
    ensures var tx := l.proposals[id].data;
            var ms := l.multisigs[id.multisig].data;
            && tx.multisig == id.multisig && tx.transactionIndex == id.index
            && Distinct(tx.approvals) && (forall x | x in tx.approvals :: x in ms.members)
            && (tx.executed <==> exists approvals :: Started(id, approvals) in l.log)
            && (tx.executed ==> Started(id, tx.approvals) in l.log && |tx.approvals| >= ms.threshold)
  {
    ReachableInv(env, l);
    assert ProposalOk(env, l, id);
    forall approvals | Started(id, approvals) in l.log ensures l.proposals[id].data.executed {
      assert EventOk(env, l, Started(id, approvals));
    }
  }

  // Each CPI is an instruction of the one message created under that id. The
  // vault, a vault of that multisig, is its only signer and is writable, and
  // is never the program.
  lemma OnlyTheCreatedMessageRuns(env: Env, l: Ledger, id: ProposalId, step: nat, cpi: Invocation)
    requires Reachable(env, l) && Invoked(id, step, cpi) in l.log
    ensures exists c, vaultIndex ::
              && c in l.log && c.Created? && c.id == id
              && step < |c.message.instructions|
              && Resolve(c.message, c.message.instructions[step]) == Some(cpi)
              && OnlyVaultSigns(cpi, DeriveVault(env, id.multisig, vaultIndex).0)
  {
    ReachableInv(env, l);
    assert EventOk(env, l, Invoked(id, step, cpi));
    var c :| c in l.log && CompiledFrom(env, c, id, step, cpi);
    var vaultIndex :| WellFormed(c.message, DeriveVault(env, id.multisig, vaultIndex).0);
    ResolveSignsForVault(c.message, step, cpi, DeriveVault(env, id.multisig, vaultIndex).0);
  }

  ghost predicate OnlyVaultSigns(cpi: Invocation, vault: Key) {
    && cpi.program != vault
    && forall m | m in cpi.metas :: (m.isSigner <==> m.key == vault) && (m.isSigner ==> m.isWritable)
  }

  lemma ResolveSignsForVault(message: TransactionMessage, step: nat, cpi: Invocation, vault: Key)
    requires WellFormed(message, vault) && step < |message.instructions|
    requires Resolve(message, message.instructions[step]) == Some(cpi)
    ensures OnlyVaultSigns(cpi, vault)
  {
    var ix := message.instructions[step];
    assert InstructionInBounds(ix, |message.accountKeys|);
    forall m | m in cpi.metas ensures (m.isSigner <==> m.key == vault) && (m.isSigner ==> m.isWritable) {
      var j :| 0 <= j < |cpi.metas| && cpi.metas[j] == m;
      assert m == MetaAt(message, ix.accountIndexes[j]);
    }
  }

  // Once stored, approved enough and given its accounts, a proposal can fail
  // to execute for one reason only: a program it calls fails.
  lemma ExecuteFailsOnlyInCpi(env: Env, l: Ledger, multisig: Key, index: U64, remaining: seq<Key>, cpis: seq<Cpi>)
    requires Reachable(env, l) && ProposalId(multisig, index) in l.proposals
    requires var tx := l.proposals[ProposalId(multisig, index)].data;
             !tx.executed && tx.message.accountKeys <= remaining
    requires var tx := l.proposals[ProposalId(multisig, index)].data;
             multisig in l.multisigs && |tx.approvals| >= l.multisigs[multisig].data.threshold
    ensures var r := Apply(env, l, Execute(multisig, index, remaining, cpis));
            r.Err? ==> r.error == CpiExecutionFailed && cpis != []
  {
    ReachableInv(env, l);
    var id := ProposalId(multisig, index);
    assert ProposalOk(env, l, id);
    var message := l.proposals[id].data.message;
    CpisFailOnlyInCpi(env, StartStep(l, multisig, index, remaining).value, id, message, message.accountKeys[0], 0,
                      cpis);
  }

  lemma {:induction false} CpisFailOnlyInCpi(env: Env, l: Ledger, id: ProposalId, message: TransactionMessage,
      vault: Key, k: nat, cpis: seq<Cpi>)
    requires WellFormed(message, vault) && k <= |message.instructions|
    ensures var r := ApplyCpis(env, l, id, message, k, cpis); r.Err? ==> r.error == CpiExecutionFailed && cpis != []
    decreases |message.instructions| - k
  {
    if k == |message.instructions| {
    } else {
      assert InstructionInBounds(message.instructions[k], |message.accountKeys|);
      var cpi := Resolve(message, message.instructions[k]).value;
      var invoked := Record(l, Invoked(id, k, cpi));
      if k >= |cpis| {
        CpisFailOnlyInCpi(env, invoked, id, message, vault, k + 1, cpis);
      } else if cpis[k].Returns? && ApplyAll(env, invoked, cpis[k].calls).Ok? {
        CpisFailOnlyInCpi(env, ApplyAll(env, invoked, cpis[k].calls).value, id, message, vault, k + 1, cpis);
      }
    }
  }

  // The seeds cached at create sign for exactly account_keys[0].
  lemma CachedSeedsDeriveSlotZero(env: Env, l: Ledger, id: ProposalId)
    requires Reachable(env, l) && id in l.proposals
    ensures var tx := l.proposals[id].data;
            && tx.message.accountKeys != []
            && DeriveVault(env, id.multisig, tx.vaultIndex) == (tx.message.accountKeys[0], tx.vaultBump)
  {
    ReachableInv(env, l);
    assert ProposalOk(env, l, id);
  }

  lemma MultisigFits(env: Env, l: Ledger, k: Key)
    requires Reachable(env, l) && k in l.multisigs
    ensures DISCRIMINATOR_LENGTH + |MultisigCodec().enc(l.multisigs[k].data)| == l.multisigs[k].space
  {
    ReachableInv(env, l);
    assert MultisigOk(env, l, k);
    MultisigSizeExact(l.multisigs[k].data);
  }

  lemma ProposalFits(env: Env, l: Ledger, id: ProposalId)
    requires Reachable(env, l) && id in l.proposals
    ensures var a := l.proposals[id];
            && id.multisig in l.multisigs
            && var left := |l.multisigs[id.multisig].data.members| - |a.data.approvals|;
            0 <= left && DISCRIMINATOR_LENGTH + |ProposalCodec().enc(a.data)| + 32 * left == a.space
  {
    ReachableInv(env, l);
    assert ProposalOk(env, l, id);
    var tx, members := l.proposals[id].data, l.multisigs[id.multisig].data.members;
    Pigeonhole(tx.approvals, members);
    ProposalSizeExact(tx);
  }

  // An account never outgrows its allocation, whatever votes are still to come.
  lemma StorageFitsExactly(env: Env, l: Ledger, id: ProposalId, k: Key)
    requires Reachable(env, l)
    ensures k in l.multisigs
            ==> DISCRIMINATOR_LENGTH + |MultisigCodec().enc(l.multisigs[k].data)| == l.multisigs[k].space
    ensures id in l.proposals ==>
              var a := l.proposals[id];
              && id.multisig in l.multisigs
              && var left := |l.multisigs[id.multisig].data.members| - |a.data.approvals|;
              && 0 <= left
              && DISCRIMINATOR_LENGTH + |ProposalCodec().enc(a.data)| + 32 * left == a.space
  {
    if k in l.multisigs { MultisigFits(env, l, k); }
    if id in l.proposals { ProposalFits(env, l, id); }
  }

  // Two inputs on which a function does not collide.
  ghost predicate Collides(env: Env, a: Seed, b: Seed) {
    Derive(env, a).0 == Derive(env, b).0 && SeedBytes(a) != SeedBytes(b)
  }

  // Whoever initialised it, the multisig at the address of (M, t) is M with
  // threshold t, short of a hash or address collision on these very inputs.
  lemma CanonicalBinding(env: Env, l: Ledger, members: seq<Key>, threshold: Byte)
    requires Reachable(env, l)
    requires var address := DeriveMultisig(env, members, threshold).0;
             address in l.multisigs
    requires var stored := l.multisigs[DeriveMultisig(env, members, threshold).0].data;
             var x, y := Flatten(Sort(members)), Flatten(stored.members);
             && (env.sha256(x) == env.sha256(y) ==> x == y)
             && !Collides(env, MultisigSeed(env.sha256(x), threshold), MultisigSeed(env.sha256(y), stored.threshold))
    ensures var stored := l.multisigs[DeriveMultisig(env, members, threshold).0].data;
            stored.members == Sort(members) && stored.threshold == threshold && Distinct(members)
  {
    ReachableInv(env, l);
    var address := DeriveMultisig(env, members, threshold).0;
    var stored := l.multisigs[address].data;
    assert MultisigOk(env, l, address);
    SortFixesSorted(stored.members);
    var x, y := Flatten(Sort(members)), Flatten(stored.members);
    SeedsNeverCollide(MultisigSeed(env.sha256(x), threshold), MultisigSeed(env.sha256(y), stored.threshold), 0, 0);
    FlattenInjective(Sort(members), stored.members);
    PermutationKeepsDistinct(Sort(members), members);
  }

  // ---- from creation to execution ----

  lemma CreatedOnce(env: Env, l: Ledger, a: Event, b: Event)
    requires Reachable(env, l) && a in l.log && b in l.log && a.Created? && b.Created? && a.id == b.id
    ensures a == b
  {
    var i :| 0 <= i < |l.log| && l.log[i] == a;
    var j :| 0 <= j < |l.log| && l.log[j] == b;
    if i < j { IndexesAreFresh(env, l, i, j); } else if j < i { IndexesAreFresh(env, l, j, i); }
  }

  // Of all that ever runs under a proposal's id, every CPI is an instruction of
  // the message it was created with.
  lemma OnlyThatMessageRuns(env: Env, l: Ledger, id: ProposalId, payer: Key, deposit: nat, m: TransactionMessage,
      step: nat, cpi: Invocation)
    requires Reachable(env, l) && Created(id, payer, deposit, m) in l.log && Invoked(id, step, cpi) in l.log
    ensures step < |m.instructions| && Resolve(m, m.instructions[step]) == Some(cpi)
  {
    OnlyTheCreatedMessageRuns(env, l, id, step, cpi);
    var c, vaultIndex :|
      && c in l.log && c.Created? && c.id == id && step < |c.message.instructions|
      && Resolve(c.message, c.message.instructions[step]) == Some(cpi)
      && OnlyVaultSigns(cpi, DeriveVault(env, id.multisig, vaultIndex).0);
    CreatedOnce(env, l, c, Created(id, payer, deposit, m));
  }

  lemma WellFormedIsEncodable(m: TransactionMessage, vault: Key)
    requires WellFormed(m, vault)
    ensures MessageCodec().wf(m)
  {
    forall k | 0 <= k < |m.instructions| ensures InstructionCodec().wf(m.instructions[k]) {
      assert SmallInstruction(m.instructions[k]);
    }
    assert Vec(Pubkey()).wf(m.accountKeys);
    assert Vec(InstructionCodec()).wf(m.instructions) && Vec(LookupCodec()).wf(m.addressTableLookups);
    var t := OfMessage(m);
    assert BodyLayout().wf(t.1.1.1);
    assert Pair(Codecs.U8(), BodyLayout()).wf(t.1.1);
    assert Pair(Codecs.U8(), Pair(Codecs.U8(), BodyLayout())).wf(t.1);
    assert MessageLayout().wf(t);
  }

  // Whatever a reachable ledger stores can be written as Borsh.
  lemma StoredIsEncodable(env: Env, l: Ledger, id: ProposalId)
    requires Reachable(env, l) && id in l.proposals
    ensures ProposalCodec().wf(l.proposals[id].data)
  {
    ReachableInv(env, l);
    assert ProposalOk(env, l, id) && MultisigOk(env, l, id.multisig);
    var tx := l.proposals[id].data;
    Pigeonhole(tx.approvals, l.multisigs[id.multisig].data.members);
    WellFormedIsEncodable(tx.message, DeriveVault(env, id.multisig, tx.vaultIndex).0);
    ProposalEncodable(tx);
  }

  lemma {:induction false} RunAppend(env: Env, l: Ledger, a: seq<seq<Call>>, b: seq<seq<Call>>)
    ensures Run(env, Run(env, l, a), b) == Run(env, l, a + b)
    decreases |a|
  {
    if a == [] {
      assert a + b == b;
    } else {
      RunAppend(env, Submit(env, l, a[0]), a[1..], b);
      assert (a + b)[1..] == a[1..] + b;
    }
  }

  lemma StillCreated(env: Env, l: Ledger, txs: seq<seq<Call>>, id: ProposalId)
    requires Reachable(env, l) && id in l.proposals
    ensures Reachable(env, Run(env, l, txs))
    ensures var a := l.proposals[id]; Created(id, a.data.payer, a.lamports, a.data.message) in Run(env, l, txs).log
  {
    ReachableInv(env, l);
    assert ProposalOk(env, l, id);
    RunKeeps(env, l, txs);
    var a := l.proposals[id];
    assert EventKept(l, Run(env, l, txs), Created(id, a.data.payer, a.lamports, a.data.message));
    var wallets, before :| l == Run(env, Genesis(wallets), before);
    RunAppend(env, Genesis(wallets), before, txs);
  }
}
