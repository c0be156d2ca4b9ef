/** An outer transaction as the program executes it: each instruction becomes a call,
    and the address it lists for the proposal must be the one its seeds derive. */
module Submission {
  import opened Wrappers
  import opened Bytes
  import opened State
  import opened Pda
  import opened Ids
  import opened Program
  import opened Safety
  import opened Guarantees
  import opened Bundle
  import opened FundFlows
  import opened Enterprise
  import opened Consumer
  import opened Money
  import opened SignedIsExecuted
  import opened Settlement

  // ---- from instructions to calls ----

  // The proposal that approve, execute and close name: by multisig and index, if
  // the account listed second stands at that address.
  function Named(env: Env, ix: OuterInstruction): Option<ProposalId> {
    if |ix.keys| < 3 then None else
    var index :- IndexArgument(ix.data);
    if DeriveTransaction(env, ix.keys[0], index).0 != ix.keys[1] then None
    else Some(ProposalId(ix.keys[0], index))
  }

  // A create lists the account at the address of its multisig's next index.
  function NextNamed(env: Env, l: Ledger, ix: OuterInstruction): Option<ProposalId> {
    if |ix.keys| < 5 || ix.keys[0] !in l.multisigs || ix.keys[4] != SYSTEM_PROGRAM then None else
    var next := l.multisigs[ix.keys[0]].data.transactionIndex + 1;
    if next == U64_LIMIT || DeriveTransaction(env, ix.keys[0], next).0 != ix.keys[1] then None
    else Some(ProposalId(ix.keys[0], next))
  }

  // The call an instruction makes of the ledger it finds, if its accounts and
  // arguments can be read; `cpis` is what the programs called by an execute do.
  function CallOf(env: Env, l: Ledger, ix: OuterInstruction, cpis: seq<Cpi>): Option<Call> {
    match KindOf(env.programId, ix)
    case Create =>
      var id :- NextNamed(env, l, ix);
      var (vaultIndex, m) :- CreateMessage(ix.data);
      Some(Call.Create(id.multisig, ix.keys[2], ix.keys[3], vaultIndex, m))
    case Approve =>
      var id :- Named(env, ix);
      Some(Call.Approve(id.multisig, id.index, ix.keys[2]))
    case Execute =>
      var id :- Named(env, ix);
      Some(Call.Execute(id.multisig, id.index, ix.keys[3..], cpis))
    case Close =>
      var id :- Named(env, ix);
      Some(Call.Close(id.multisig, id.index, ix.keys[2]))
    case _ => None
  }

  // From the i-th instruction on. Those of other programs leave the ledger alone;
  // `replies[i]` is what the programs called by instruction i do.
  function RunOuter(env: Env, l: Ledger, ixs: seq<OuterInstruction>, replies: nat -> seq<Cpi>,
      i: nat): Option<Ledger>
    requires i <= |ixs|
    decreases |ixs| - i
  {
    if i == |ixs| then Some(l)
    else if ixs[i].programId != env.programId then RunOuter(env, l, ixs, replies, i + 1)
    else
      var c :- CallOf(env, l, ixs[i], replies(i));
      match Apply(env, l, c)
      case Err(_) => None
      case Ok(next) => RunOuter(env, next, ixs, replies, i + 1)
  }

  // It is one transaction of the program's.
  lemma {:induction false} RunsAsTransaction(env: Env, l: Ledger, ixs: seq<OuterInstruction>, replies: nat -> seq<Cpi>,
      i: nat) returns (calls: seq<Call>)
    requires i <= |ixs| && RunOuter(env, l, ixs, replies, i).Some?
    ensures ApplyAll(env, l, calls) == Ok(RunOuter(env, l, ixs, replies, i).value)
    decreases |ixs| - i
  {
    if i == |ixs| {
      calls := [];
    } else if ixs[i].programId != env.programId {
      calls := RunsAsTransaction(env, l, ixs, replies, i + 1);
    } else {
      var c := CallOf(env, l, ixs[i], replies(i)).value;
      var rest := RunsAsTransaction(env, Apply(env, l, c).value, ixs, replies, i + 1);
      calls := [c] + rest;
      assert calls[1..] == rest;
    }
  }

  lemma RunReachable(env: Env, l: Ledger, txs: seq<seq<Call>>)
    requires Reachable(env, l)
    ensures Reachable(env, Run(env, l, txs)) && l.log <= Run(env, l, txs).log
  {
    ReachableInv(env, l);
    RunKeeps(env, l, txs);
    var wallets, before :| l == Run(env, Genesis(wallets), before);
    RunAppend(env, Genesis(wallets), before, txs);
  }

  lemma CommitReachable(env: Env, l: Ledger, calls: seq<Call>)
    requires Reachable(env, l) && ApplyAll(env, l, calls).Ok?
    ensures Reachable(env, ApplyAll(env, l, calls).value) && l.log <= ApplyAll(env, l, calls).value.log
  {
    RunReachable(env, l, [calls]);
    assert [calls][1..] == [];
    assert Run(env, l, [calls]) == Run(env, Submit(env, l, calls), []);
  }

  lemma StepReachable(env: Env, l: Ledger, c: Call)
    requires Reachable(env, l) && Apply(env, l, c).Ok?
    ensures Reachable(env, Apply(env, l, c).value) && l.log <= Apply(env, l, c).value.log
  {
    assert [c][1..] == [];
    assert ApplyAll(env, l, [c]) == ApplyAll(env, Apply(env, l, c).value, []);
    CommitReachable(env, l, [c]);
  }

  lemma StaysReachable(env: Env, l: Ledger, ixs: seq<OuterInstruction>, replies: nat -> seq<Cpi>, i: nat)
    requires Reachable(env, l) && i <= |ixs| && RunOuter(env, l, ixs, replies, i).Some?
    ensures Reachable(env, RunOuter(env, l, ixs, replies, i).value)
    ensures l.log <= RunOuter(env, l, ixs, replies, i).value.log
  {
    var calls := RunsAsTransaction(env, l, ixs, replies, i);
    CommitReachable(env, l, calls);
  }

  // One instruction on.
  lemma Onward(env: Env, l: Ledger, ixs: seq<OuterInstruction>, replies: nat -> seq<Cpi>, i: nat)
      returns (next: Ledger)
    requires i < |ixs| && Reachable(env, l) && RunOuter(env, l, ixs, replies, i).Some?
    ensures Reachable(env, next) && l.log <= next.log
    ensures RunOuter(env, next, ixs, replies, i + 1) == RunOuter(env, l, ixs, replies, i)
  {
    next := l;
    if ixs[i].programId == env.programId {
      var c := CallOf(env, l, ixs[i], replies(i)).value;
      next := Apply(env, l, c).value;
      StepReachable(env, l, c);
    }
  }

  // The ledger the j-th instruction finds.
  lemma {:induction false} Reaches(env: Env, l: Ledger, ixs: seq<OuterInstruction>, replies: nat -> seq<Cpi>, i: nat,
      j: nat) returns (found: Ledger)
    requires i <= j < |ixs| && Reachable(env, l) && RunOuter(env, l, ixs, replies, i).Some?
    ensures Reachable(env, found) && l.log <= found.log
    ensures RunOuter(env, found, ixs, replies, j) == RunOuter(env, l, ixs, replies, i)
    decreases j - i
  {
    if i == j {
      found := l;
    } else {
      var next := Onward(env, l, ixs, replies, i);
      found := Reaches(env, next, ixs, replies, i + 1, j);
    }
  }

  // ---- the accepted bundle ----

  lemma SoleCreate(program: Key, outer: Outer, i: nat)
    requires |Bundled(program, outer.feePayer, outer.instructions).creates| == 1 && i < |outer.instructions|
    requires KindOf(program, outer.instructions[i]) == Kind.Create
    ensures Bundled(program, outer.feePayer, outer.instructions).creates[0]
            == AsCreate(i, outer.instructions[i])
  {
    BundledParses(program, outer.feePayer, outer.instructions);
    var q := Located(program, outer.instructions, Kind.Create, AsCreate, i);
  }

  // What a create writes: the proposal as it is stored, the payer's debit, and the log.
  ghost predicate Creates(env: Env, l: Ledger, after: Ledger, id: ProposalId, creator: Key, payer: Key,
      vaultIndex: Byte, m: TransactionMessage)
  {
    && id.multisig in l.multisigs && id !in l.proposals && id in after.proposals
    && var account, a := l.multisigs[id.multisig], after.proposals[id];
    && id.index == account.data.transactionIndex + 1
    && after.multisigs == l.multisigs[id.multisig := account.(data := account.data.(transactionIndex := id.index))]
    && a.data == VaultTransaction(id.multisig, id.index, creator, payer,
                                  DeriveTransaction(env, id.multisig, id.index).1, vaultIndex,
                                  DeriveVault(env, id.multisig, vaultIndex).1, false, [], m)
    && a.space == ComputeProposalSpace(m, |account.data.members|)
    && a.lamports == env.rent(a.space) <= Balance(l.wallets, payer)
    && after.proposals == l.proposals[id := a]
    && after.wallets == l.wallets[payer := Balance(l.wallets, payer) - a.lamports]
    && after.log == l.log + [Created(id, payer, a.lamports, m)]
  }

  lemma CreateMakes(env: Env, l: Ledger, multisig: Key, creator: Key, payer: Key, vaultIndex: Byte,
      m: TransactionMessage)
    requires CreateStep(env, l, multisig, creator, payer, vaultIndex, m).Ok?
    ensures multisig in l.multisigs && l.multisigs[multisig].data.transactionIndex + 1 < U64_LIMIT
    ensures Creates(env, l, CreateStep(env, l, multisig, creator, payer, vaultIndex, m).value,
                    ProposalId(multisig, l.multisigs[multisig].data.transactionIndex + 1), creator, payer, vaultIndex,
                    m)
  {}

  lemma CreateCalled(env: Env, l: Ledger, ix: OuterInstruction, cpis: seq<Cpi>)
    requires KindOf(env.programId, ix) == Kind.Create && CallOf(env, l, ix, cpis).Some?
    ensures CreateMessage(ix.data).Some? && |ix.keys| >= 5 && NextNamed(env, l, ix).Some?
    ensures CallOf(env, l, ix, cpis).value
            == Call.Create(ix.keys[0], ix.keys[2], ix.keys[3], CreateMessage(ix.data).value.0,
                           CreateMessage(ix.data).value.1)
  {}

  // If the create of an accepted bundle commits, the ledger holds the accepted
  // message under the accepted multisig, at the address every other instruction
  // of the bundle names, with the deposit taken from the account listed to pay.
  lemma AcceptedCreateCommits(env: Env, outer: Outer, p: Params, v: View, l: Ledger, i: nat, cpis: seq<Cpi>)
      returns (id: ProposalId)
    requires ConsumerAccepts(env, outer, p, v) && i < |outer.instructions|
    requires KindOf(env.programId, outer.instructions[i]) == Kind.Create
    requires CallOf(env, l, outer.instructions[i], cpis).Some?
    requires Apply(env, l, CallOf(env, l, outer.instructions[i], cpis).value).Ok?
    ensures p.multisig.Base58? && CreatedBy(env.programId, outer).Some? && |outer.instructions[i].keys| >= 5
    ensures id.multisig == p.multisig.key
    ensures TransactionOf(env.programId, outer) == Some(DeriveTransaction(env, id.multisig, id.index).0)
    ensures var (vaultIndex, m) := CreatedBy(env.programId, outer).value;
            var after := Apply(env, l, CallOf(env, l, outer.instructions[i], cpis).value).value;
            && vaultIndex == p.vaultIndex
            && Creates(env, l, after, id, outer.instructions[i].keys[2], outer.instructions[i].keys[3], vaultIndex, m)
  {
    var vaultIndex, m := AcceptedMessage(env, outer, p, v);
    EveryInstructionAccounted(env, outer, p, v, i);
    var b := AcceptedBundle(env, outer, p, v);
    SoleCreate(env.programId, outer, i);
    var ix := outer.instructions[i];
    CreateCalled(env, l, ix, cpis);
    CreateMakes(env, l, ix.keys[0], ix.keys[2], ix.keys[3], vaultIndex, m);
    id := NextNamed(env, l, ix).value;
  }

  // Every approval, execute and close of an accepted bundle that the program can
  // read acts on the very proposal the bundle created, short of an address collision.
  lemma ActsOnTheCreated(env: Env, outer: Outer, p: Params, v: View, id: ProposalId, j: nat, other: ProposalId)
    requires ConsumerAccepts(env, outer, p, v) && j < |outer.instructions|
    requires TransactionOf(env.programId, outer) == Some(DeriveTransaction(env, id.multisig, id.index).0)
    requires KindOf(env.programId, outer.instructions[j]) in {Kind.Approve, Kind.Execute, Kind.Close}
    requires Named(env, outer.instructions[j]) == Some(other)
    requires !Collides(env, TransactionSeed(id.multisig, id.index), TransactionSeed(other.multisig, other.index))
    ensures other == id
  {
    EveryInstructionAccounted(env, outer, p, v, j);
    SeedsNeverCollide(TransactionSeed(id.multisig, id.index), TransactionSeed(other.multisig, other.index), 0, 0);
  }

  // The j-th instruction acts on a proposal whose address does not collide with this one's.
  ghost predicate ActedOn(env: Env, outer: Outer, id: ProposalId, j: nat, other: ProposalId) {
    && j < |outer.instructions|
    && KindOf(env.programId, outer.instructions[j]) in {Kind.Approve, Kind.Execute, Kind.Close}
    && Named(env, outer.instructions[j]) == Some(other)
    && !Collides(env, TransactionSeed(id.multisig, id.index), TransactionSeed(other.multisig, other.index))
  }

  ghost predicate ActsOn(env: Env, outer: Outer, id: ProposalId, j: nat, other: ProposalId) {
    ActedOn(env, outer, id, j, other) ==> other == id
  }

  lemma CreatePosition(env: Env, outer: Outer, p: Params, v: View) returns (i: nat)
    requires ConsumerAccepts(env, outer, p, v)
    ensures i < |outer.instructions| && KindOf(env.programId, outer.instructions[i]) == Kind.Create
  {
    var b := AcceptedBundle(env, outer, p, v);
    BundledParses(env.programId, outer.feePayer, outer.instructions);
    BucketsInOrder(env.programId, outer.instructions, Kind.Create, AsCreate);
    i := Positions(env.programId, outer.instructions, Kind.Create)[0];
  }

  // One step that creates, and the rest of the bundle after it.
  lemma CreatedThenRest(env: Env, found: Ledger, next: Ledger, ixs: seq<OuterInstruction>, replies: nat -> seq<Cpi>,
      i: nat, e: Event)
    requires i < |ixs| && ixs[i].programId == env.programId && Reachable(env, found)
    requires RunOuter(env, found, ixs, replies, i).Some?
    requires Apply(env, found, CallOf(env, found, ixs[i], replies(i)).value) == Ok(next) && next.log == found.log + [e]
    ensures var after := RunOuter(env, found, ixs, replies, i).value; Reachable(env, after) && e in after.log
  {
    StepReachable(env, found, CallOf(env, found, ixs[i], replies(i)).value);
    StaysReachable(env, next, ixs, replies, i + 1);
    assert next.log[|found.log|] == e;
  }

  // A submitted bundle that commits has created its proposal.
  lemma SubmittedCreates(env: Env, outer: Outer, p: Params, v: View, l: Ledger, replies: nat -> seq<Cpi>)
      returns (id: ProposalId, payer: Key, deposit: nat)
    requires ConsumerAccepts(env, outer, p, v) && Reachable(env, l)
    requires RunOuter(env, l, outer.instructions, replies, 0).Some?
    ensures p.multisig.Base58? && CreatedBy(env.programId, outer).Some? && id.multisig == p.multisig.key
    ensures TransactionOf(env.programId, outer) == Some(DeriveTransaction(env, id.multisig, id.index).0)
    ensures var after := RunOuter(env, l, outer.instructions, replies, 0).value;
            Reachable(env, after) && Created(id, payer, deposit, CreatedBy(env.programId, outer).value.1) in after.log
  {
    var ixs := outer.instructions;
    var i := CreatePosition(env, outer, p, v);
    var found := Reaches(env, l, ixs, replies, 0, i);
    id := AcceptedCreateCommits(env, outer, p, v, found, i, replies(i));
    var next := Apply(env, found, CallOf(env, found, ixs[i], replies(i)).value).value;
    payer, deposit := ixs[i].keys[3], next.proposals[id].lamports;
    CreatedThenRest(env, found, next, ixs, replies, i,
                    Created(id, payer, deposit, CreatedBy(env.programId, outer).value.1));
  }

  // From the signature to the ledger. Once an accepted bundle has been submitted
  // and has committed, its approvals, execute and close have acted on the
  // proposal it created and no other; and whatever transactions come later, that
  // proposal has made no CPI, or, with a quorum's consent, exactly those of the
  // accepted message, which make the accepted send and nothing else.
  lemma SubmittedIsTheSend(env: Env, foreign: Foreign, outer: Outer, p: Params, v: View, l: Ledger,
      replies: nat -> seq<Cpi>, txs: seq<seq<Call>>, purse: Purse) returns (id: ProposalId)
    requires ConsumerAccepts(env, outer, p, v) && Reachable(env, l)
    requires RunOuter(env, l, outer.instructions, replies, 0).Some?
    ensures p.multisig.Base58? && CreatedBy(env.programId, outer).Some? && id.multisig == p.multisig.key
    ensures forall j, other :: ActsOn(env, outer, id, j, other)
    ensures var m := CreatedBy(env.programId, outer).value.1;
            var after := Run(env, RunOuter(env, l, outer.instructions, replies, 0).value, txs);
            var made := MadeFor(after.log, id);
            && NothingOrAll(after, id, m) && m.accountKeys != []
            && (made != [] && PerformAll(foreign, purse, made).Some? ==>
                  OnlyTheSend(env, PerformAll(foreign, purse, made).value.1, m.accountKeys[0], outer.feePayer, p))
  {
    var payer, deposit;
    id, payer, deposit := SubmittedCreates(env, outer, p, v, l, replies);
    var settled := RunOuter(env, l, outer.instructions, replies, 0).value;
    RunReachable(env, settled, txs);
    WhatRanIsTheSend(env, foreign, outer, p, v, Run(env, settled, txs), id, payer, deposit, purse);
    forall j, other ensures ActsOn(env, outer, id, j, other) {
      if ActedOn(env, outer, id, j, other) { ActsOnTheCreated(env, outer, p, v, id, j, other); }
    }
  }
}
