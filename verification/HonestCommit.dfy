/** The honest bundle, submitted, commits: the program takes every step of it, and
    the ledger ends as it began but for one index and the record of one send. */
module HonestCommit {
  import opened Wrappers
  import opened Bytes
  import opened State
  import opened Pda
  import opened Ids
  import opened Program
  import opened Safety
  import opened Builder
  import opened Compilation
  import opened Guarantees
  import opened Bundle
  import opened FundFlows
  import opened Consumer
  import opened Money
  import opened Settlement
  import opened HonestSend
  import opened Submission

  // ---- the instructions are read as the calls they are meant to be ----

  // An instruction on the proposal (multisig, index) names it.
  lemma NamesIt(env: Env, s: Parties, keys: seq<Key>, discriminator: seq<Byte>)
    requires |keys| >= 3 && keys[..2] == [s.multisig, s.transaction] && |discriminator| == 8
    requires s.transaction == DeriveTransaction(env, s.multisig, s.index).0
    ensures Named(env, OuterInstruction(env.programId, keys, IndexData(discriminator, s.index)))
            == Some(ProposalId(s.multisig, s.index))
  {
    IndexReads(discriminator, s.index);
    assert keys[0] == s.multisig && keys[1] == s.transaction;
  }

  // The next proposal of this multisig is the one these parties mean.
  ghost predicate Next(env: Env, l: Ledger, s: Parties) {
    && s.multisig in l.multisigs && s.index == l.multisigs[s.multisig].data.transactionIndex + 1
    && s.transaction == DeriveTransaction(env, s.multisig, s.index).0
  }

  lemma NamesNext(env: Env, l: Ledger, s: Parties, ix: OuterInstruction)
    requires Next(env, l, s) && ix.keys == [s.multisig, s.transaction, s.wallet, s.payer, SYSTEM_PROGRAM]
    ensures NextNamed(env, l, ix) == Some(ProposalId(s.multisig, s.index))
  {}

  lemma CreateRead(env: Env, l: Ledger, s: Parties, vaultIndex: Byte, m: TransactionMessage, ix: OuterInstruction,
      cpis: seq<Cpi>)
    requires Next(env, l, s) && ix.keys == [s.multisig, s.transaction, s.wallet, s.payer, SYSTEM_PROGRAM]
    requires KindOf(env.programId, ix) == Kind.Create && CreateMessage(ix.data) == Some((vaultIndex, m))
    ensures CallOf(env, l, ix, cpis) == Some(Call.Create(s.multisig, s.wallet, s.payer, vaultIndex, m))
  {
    NamesNext(env, l, s, ix);
  }

  lemma VoteRead(env: Env, l: Ledger, s: Parties, keys: seq<Key>, cpis: seq<Cpi>)
    requires OwnProgram(env.programId) && |keys| >= 3 && keys[..2] == [s.multisig, s.transaction]
    requires s.transaction == DeriveTransaction(env, s.multisig, s.index).0
    ensures var approve := IndexData(APPROVE_TRANSACTION_DISCRIMINATOR, s.index);
            CallOf(env, l, OuterInstruction(env.programId, keys, approve), cpis)
            == Some(Call.Approve(s.multisig, s.index, keys[2]))
    ensures var execute := IndexData(EXECUTE_TRANSACTION_DISCRIMINATOR, s.index);
            CallOf(env, l, OuterInstruction(env.programId, keys, execute), cpis)
            == Some(Call.Execute(s.multisig, s.index, keys[3..], cpis))
    ensures var close := IndexData(CLOSE_TRANSACTION_DISCRIMINATOR, s.index);
            CallOf(env, l, OuterInstruction(env.programId, keys, close), cpis)
            == Some(Call.Close(s.multisig, s.index, keys[2]))
  {
    IndexedKind(env.programId, keys, s.index);
    NamesIt(env, s, keys, APPROVE_TRANSACTION_DISCRIMINATOR);
    NamesIt(env, s, keys, EXECUTE_TRANSACTION_DISCRIMINATOR);
    NamesIt(env, s, keys, CLOSE_TRANSACTION_DISCRIMINATOR);
  }

  // ---- the calls succeed ----

  // What the ledger must offer: the two members of the multisig, enough for its
  // threshold, a message it will take, and a payer with the rent.
  ghost predicate Ready(env: Env, l: Ledger, s: Parties, vaultIndex: Byte, m: TransactionMessage) {
    && Next(env, l, s)
    && var ms := l.multisigs[s.multisig].data;
    && s.wallet in ms.members && s.key in ms.members && s.wallet != s.key && ms.threshold <= 2
    && WellFormed(m, DeriveVault(env, s.multisig, vaultIndex).0)
    && ComputeProposalSpace(m, |ms.members|) <= MAX_PROPOSAL_ACCOUNT_BYTES
    && env.rent(ComputeProposalSpace(m, |ms.members|)) <= Balance(l.wallets, s.payer)
  }

  function IdOf(s: Parties): ProposalId { ProposalId(s.multisig, s.index) }

  // The programs called return, and call nothing back.
  ghost predicate Quietly(cpis: seq<Cpi>) { forall k | 0 <= k < |cpis| :: cpis[k] == Returns([]) }

  // The CPIs of a message from the k-th instruction on, as logged, up to one that does not resolve.
  function Invocations(id: ProposalId, m: TransactionMessage, k: nat): seq<Event>
    requires k <= |m.instructions|
    decreases |m.instructions| - k
  {
    if k == |m.instructions| then [] else
    match Resolve(m, m.instructions[k])
    case None => []
    case Some(cpi) => [Invoked(id, k, cpi)] + Invocations(id, m, k + 1)
  }

  lemma {:induction false} QuietLoop(env: Env, l: Ledger, id: ProposalId, m: TransactionMessage, k: nat, cpis: seq<Cpi>)
    requires k <= |m.instructions| && forall j | k <= j < |m.instructions| :: Resolve(m, m.instructions[j]).Some?
    requires Quietly(cpis)
    ensures ApplyCpis(env, l, id, m, k, cpis) == Ok(l.(log := l.log + Invocations(id, m, k)))
    decreases |m.instructions| - k
  {
    if k == |m.instructions| {
      assert l.log + [] == l.log;
    } else {
      var e := Invoked(id, k, Resolve(m, m.instructions[k]).value);
      QuietLoop(env, Record(l, e), id, m, k + 1, cpis);
      assert l.log + [e] + Invocations(id, m, k + 1) == l.log + ([e] + Invocations(id, m, k + 1));
    }
  }

  lemma AllResolve(m: TransactionMessage, vault: Key)
    requires WellFormed(m, vault)
    ensures forall j | 0 <= j < |m.instructions| :: Resolve(m, m.instructions[j]).Some?
  {
    forall j | 0 <= j < |m.instructions| ensures Resolve(m, m.instructions[j]).Some? {
      assert InstructionInBounds(m.instructions[j], |m.accountKeys|);
    }
  }

  // ---- step by step ----

  // The ledger while the proposal is stored as `a` and `news` have been logged.
  function During(l: Ledger, s: Parties, a: ProposalAccount, news: seq<Event>): Ledger
    requires s.multisig in l.multisigs && a.lamports <= Balance(l.wallets, s.payer)
  {
    var account := l.multisigs[s.multisig];
    Ledger(l.multisigs[s.multisig := account.(data := account.data.(transactionIndex := s.index))],
           l.proposals[IdOf(s) := a], l.wallets[s.payer := Balance(l.wallets, s.payer) - a.lamports], l.log + news)
  }

  // The proposal as created.
  function Opened(env: Env, l: Ledger, s: Parties, vaultIndex: Byte, m: TransactionMessage): ProposalAccount
    requires s.multisig in l.multisigs
  {
    var space := ComputeProposalSpace(m, |l.multisigs[s.multisig].data.members|);
    ProposalAccount(VaultTransaction(s.multisig, s.index, s.wallet, s.payer,
                                     DeriveTransaction(env, s.multisig, s.index).1, vaultIndex,
                                     DeriveVault(env, s.multisig, vaultIndex).1, false, [], m),
                    space, env.rent(space))
  }

  lemma CreateTakes(env: Env, l: Ledger, s: Parties, vaultIndex: Byte, m: TransactionMessage)
    requires Ready(env, l, s, vaultIndex, m) && IdOf(s) !in l.proposals
    ensures var a := Opened(env, l, s, vaultIndex, m);
            CreateStep(env, l, s.multisig, s.wallet, s.payer, vaultIndex, m)
            == Ok(During(l, s, a, [Created(IdOf(s), s.payer, a.lamports, m)]))
  {}

  // Stored, unexecuted, and under its own name.
  predicate Open(a: ProposalAccount, s: Parties) {
    a.data.multisig == s.multisig && a.data.transactionIndex == s.index && !a.data.executed
  }

  lemma ApproveTakes(l: Ledger, s: Parties, a: ProposalAccount, news: seq<Event>, member: Key)
    requires s.multisig in l.multisigs && a.lamports <= Balance(l.wallets, s.payer) && Open(a, s)
    requires member in l.multisigs[s.multisig].data.members && member !in a.data.approvals
    ensures ApproveStep(During(l, s, a, news), s.multisig, s.index, member)
            == Ok(During(l, s, a.(data := a.data.(approvals := a.data.approvals + [member])),
                         news + [Approved(IdOf(s), member)]))
  {
    var voted := a.(data := a.data.(approvals := a.data.approvals + [member]));
    assert l.proposals[IdOf(s) := a][IdOf(s) := voted] == l.proposals[IdOf(s) := voted];
    assert l.log + news + [Approved(IdOf(s), member)] == l.log + (news + [Approved(IdOf(s), member)]);
  }

  lemma StartTakes(l: Ledger, s: Parties, a: ProposalAccount, news: seq<Event>)
    requires s.multisig in l.multisigs && a.lamports <= Balance(l.wallets, s.payer) && Open(a, s)
    requires l.multisigs[s.multisig].data.threshold <= |a.data.approvals|
    requires |a.data.message.accountKeys| <= MAX_COMBINED_ACCOUNTS
    ensures StartStep(During(l, s, a, news), s.multisig, s.index, a.data.message.accountKeys)
            == Ok(During(l, s, a.(data := a.data.(executed := true)), news + [Started(IdOf(s), a.data.approvals)]))
  {
    var started := a.(data := a.data.(executed := true));
    var keys := a.data.message.accountKeys;
    assert keys[..|keys|] == keys;
    assert l.proposals[IdOf(s) := a][IdOf(s) := started] == l.proposals[IdOf(s) := started];
    assert l.log + news + [Started(IdOf(s), a.data.approvals)] == l.log + (news + [Started(IdOf(s), a.data.approvals)]);
  }

  lemma ExecuteTakes(env: Env, l: Ledger, s: Parties, a: ProposalAccount, news: seq<Event>, vault: Key, cpis: seq<Cpi>)
    requires s.multisig in l.multisigs && a.lamports <= Balance(l.wallets, s.payer) && Open(a, s)
    requires l.multisigs[s.multisig].data.threshold <= |a.data.approvals|
    requires WellFormed(a.data.message, vault) && Quietly(cpis)
    ensures Apply(env, During(l, s, a, news),
                  Call.Execute(s.multisig, s.index, a.data.message.accountKeys, cpis))
            == Ok(During(l, s, a.(data := a.data.(executed := true)),
                         news + [Started(IdOf(s), a.data.approvals)] + Invocations(IdOf(s), a.data.message, 0)))
  {
    var m := a.data.message;
    AllResolve(m, vault);
    StartTakes(l, s, a, news);
    var so := news + [Started(IdOf(s), a.data.approvals)];
    var started := During(l, s, a.(data := a.data.(executed := true)), so);
    QuietLoop(env, started, IdOf(s), m, 0, cpis);
    assert l.log + so + Invocations(IdOf(s), m, 0) == l.log + (so + Invocations(IdOf(s), m, 0));
  }

  // The ledger at the end: an index used up, the deposit back where it came from, and the record.
  function AtTheEnd(l: Ledger, s: Parties, news: seq<Event>): Ledger
    requires s.multisig in l.multisigs
  {
    var account := l.multisigs[s.multisig];
    Ledger(l.multisigs[s.multisig := account.(data := account.data.(transactionIndex := s.index))],
           l.proposals, l.wallets[s.payer := Balance(l.wallets, s.payer)], l.log + news)
  }

  lemma CloseTakes(l: Ledger, s: Parties, a: ProposalAccount, news: seq<Event>)
    requires s.multisig in l.multisigs && a.lamports <= Balance(l.wallets, s.payer) && IdOf(s) !in l.proposals
    requires a.data.multisig == s.multisig && a.data.transactionIndex == s.index && a.data.payer == s.payer
    ensures CloseStep(During(l, s, a, news), s.multisig, s.index, s.payer)
            == Ok(AtTheEnd(l, s, news + [Closed(IdOf(s), s.payer, a.lamports)]))
  {
    assert l.proposals[IdOf(s) := a] - {IdOf(s)} == l.proposals;
    var b := Balance(l.wallets, s.payer);
    assert l.wallets[s.payer := b - a.lamports][s.payer := b] == l.wallets[s.payer := b];
    var e := Closed(IdOf(s), s.payer, a.lamports);
    assert l.log + news + [e] == l.log + (news + [e]);
  }

  // ---- the whole bundle ----

  lemma Steps(env: Env, l: Ledger, ixs: seq<OuterInstruction>, replies: nat -> seq<Cpi>, i: nat, c: Call, next: Ledger)
    requires i < |ixs| && ixs[i].programId == env.programId
    requires CallOf(env, l, ixs[i], replies(i)) == Some(c) && Apply(env, l, c) == Ok(next)
    ensures RunOuter(env, l, ixs, replies, i) == RunOuter(env, next, ixs, replies, i + 1)
  {}

  // Created, approved by both, started, invoked instruction by instruction, closed.
  function History(id: ProposalId, a: ProposalAccount, wallet: Key, key: Key): seq<Event>
  {
    [Created(id, a.data.payer, a.lamports, a.data.message)] + [Approved(id, wallet)] + [Approved(id, key)]
    + [Started(id, [wallet, key])] + Invocations(id, a.data.message, 0) + [Closed(id, a.data.payer, a.lamports)]
  }

  lemma NextIsNew(env: Env, l: Ledger, s: Parties)
    requires Reachable(env, l) && Next(env, l, s)
    ensures IdOf(s) !in l.proposals
  {
    ReachableInv(env, l);
    assert ProposalOk(env, l, IdOf(s));
  }

  // One vote.
  lemma VoteRuns(env: Env, l: Ledger, s: Parties, a: ProposalAccount, ixs: seq<OuterInstruction>,
      replies: nat -> seq<Cpi>, i: nat, news: seq<Event>, member: Key)
    requires OwnProgram(env.programId) && s.transaction == DeriveTransaction(env, s.multisig, s.index).0
    requires s.multisig in l.multisigs && a.lamports <= Balance(l.wallets, s.payer) && Open(a, s)
    requires member in l.multisigs[s.multisig].data.members && member !in a.data.approvals
    requires i < |ixs| && ixs[i] == OuterInstruction(env.programId, [s.multisig, s.transaction, member],
                                                     IndexData(APPROVE_TRANSACTION_DISCRIMINATOR, s.index))
    ensures RunOuter(env, During(l, s, a, news), ixs, replies, i)
            == RunOuter(env, During(l, s, a.(data := a.data.(approvals := a.data.approvals + [member])),
                                    news + [Approved(IdOf(s), member)]), ixs, replies, i + 1)
  {
    var now := During(l, s, a, news);
    VoteRead(env, now, s, ixs[i].keys, replies(i));
    ApproveTakes(l, s, a, news, member);
    Steps(env, now, ixs, replies, i, Call.Approve(s.multisig, s.index, member),
          During(l, s, a.(data := a.data.(approvals := a.data.approvals + [member])),
                 news + [Approved(IdOf(s), member)]));
  }

  // The execute.
  lemma ExecuteRuns(env: Env, l: Ledger, s: Parties, a: ProposalAccount, ixs: seq<OuterInstruction>,
      replies: nat -> seq<Cpi>, i: nat, news: seq<Event>, vault: Key)
    requires OwnProgram(env.programId) && s.transaction == DeriveTransaction(env, s.multisig, s.index).0
    requires s.multisig in l.multisigs && a.lamports <= Balance(l.wallets, s.payer)
    requires Open(a, s) && l.multisigs[s.multisig].data.threshold <= |a.data.approvals|
    requires i < |ixs| && WellFormed(a.data.message, vault) && Quietly(replies(i))
    requires ixs[i] == OuterInstruction(env.programId,
                                        [s.multisig, s.transaction, s.wallet] + a.data.message.accountKeys,
                                        IndexData(EXECUTE_TRANSACTION_DISCRIMINATOR, s.index))
    ensures RunOuter(env, During(l, s, a, news), ixs, replies, i)
            == RunOuter(env, During(l, s, a.(data := a.data.(executed := true)),
                                    news + [Started(IdOf(s), a.data.approvals)]
                                    + Invocations(IdOf(s), a.data.message, 0)), ixs, replies, i + 1)
  {
    var now, keys := During(l, s, a, news), a.data.message.accountKeys;
    VoteRead(env, now, s, ixs[i].keys, replies(i));
    assert ixs[i].keys[3..] == keys;
    ExecuteTakes(env, l, s, a, news, vault, replies(i));
    Steps(env, now, ixs, replies, i, Call.Execute(s.multisig, s.index, keys, replies(i)),
          During(l, s, a.(data := a.data.(executed := true)),
                 news + [Started(IdOf(s), a.data.approvals)] + Invocations(IdOf(s), a.data.message, 0)));
  }

  // The close.
  lemma CloseRuns(env: Env, l: Ledger, s: Parties, a: ProposalAccount, ixs: seq<OuterInstruction>,
      replies: nat -> seq<Cpi>, i: nat, news: seq<Event>)
    requires OwnProgram(env.programId) && s.transaction == DeriveTransaction(env, s.multisig, s.index).0
    requires s.multisig in l.multisigs && a.lamports <= Balance(l.wallets, s.payer) && IdOf(s) !in l.proposals
    requires a.data.multisig == s.multisig && a.data.transactionIndex == s.index && a.data.payer == s.payer
    requires i < |ixs| && ixs[i] == OuterInstruction(env.programId, [s.multisig, s.transaction, s.payer],
                                                     IndexData(CLOSE_TRANSACTION_DISCRIMINATOR, s.index))
    ensures RunOuter(env, During(l, s, a, news), ixs, replies, i)
            == RunOuter(env, AtTheEnd(l, s, news + [Closed(IdOf(s), s.payer, a.lamports)]), ixs, replies, i + 1)
  {
    var now := During(l, s, a, news);
    VoteRead(env, now, s, ixs[i].keys, replies(i));
    CloseTakes(l, s, a, news);
    Steps(env, now, ixs, replies, i, Call.Close(s.multisig, s.index, s.payer),
          AtTheEnd(l, s, news + [Closed(IdOf(s), s.payer, a.lamports)]));
  }

  // The create.
  lemma CreateRuns(env: Env, l: Ledger, s: Parties, vaultIndex: Byte, m: TransactionMessage,
      ixs: seq<OuterInstruction>, replies: nat -> seq<Cpi>)
    requires Ready(env, l, s, vaultIndex, m) && IdOf(s) !in l.proposals && ixs != []
    requires KindOf(env.programId, ixs[0]) == Kind.Create && CreateMessage(ixs[0].data) == Some((vaultIndex, m))
    requires ixs[0].keys == [s.multisig, s.transaction, s.wallet, s.payer, SYSTEM_PROGRAM]
    ensures var a := Opened(env, l, s, vaultIndex, m);
            RunOuter(env, l, ixs, replies, 0)
            == RunOuter(env, During(l, s, a, [Created(IdOf(s), s.payer, a.lamports, m)]), ixs, replies, 1)
  {
    var a := Opened(env, l, s, vaultIndex, m);
    CreateRead(env, l, s, vaultIndex, m, ixs[0], replies(0));
    CreateTakes(env, l, s, vaultIndex, m);
    Steps(env, l, ixs, replies, 0, Call.Create(s.multisig, s.wallet, s.payer, vaultIndex, m),
          During(l, s, a, [Created(IdOf(s), s.payer, a.lamports, m)]));
  }

  // Both votes.
  lemma BothVote(env: Env, l: Ledger, s: Parties, a: ProposalAccount, ixs: seq<OuterInstruction>,
      replies: nat -> seq<Cpi>, news: seq<Event>)
    requires OwnProgram(env.programId) && s.transaction == DeriveTransaction(env, s.multisig, s.index).0
    requires s.multisig in l.multisigs && a.lamports <= Balance(l.wallets, s.payer)
    requires Open(a, s) && a.data.approvals == [] && s.wallet != s.key
    requires var ms := l.multisigs[s.multisig].data; s.wallet in ms.members && s.key in ms.members
    requires |ixs| == 5
    requires ixs[1] == OuterInstruction(env.programId, [s.multisig, s.transaction, s.wallet],
                                        IndexData(APPROVE_TRANSACTION_DISCRIMINATOR, s.index))
    requires ixs[2] == OuterInstruction(env.programId, [s.multisig, s.transaction, s.key],
                                        IndexData(APPROVE_TRANSACTION_DISCRIMINATOR, s.index))
    ensures var voted := a.(data := a.data.(approvals := [s.wallet, s.key]));
            RunOuter(env, During(l, s, a, news), ixs, replies, 1)
            == RunOuter(env, During(l, s, voted, news + [Approved(IdOf(s), s.wallet)] + [Approved(IdOf(s), s.key)]),
                        ixs, replies, 3)
  {
    VoteRuns(env, l, s, a, ixs, replies, 1, news, s.wallet);
    assert [] + [s.wallet] == [s.wallet] && [s.wallet] + [s.key] == [s.wallet, s.key];
    var a2 := a.(data := a.data.(approvals := [s.wallet]));
    VoteRuns(env, l, s, a2, ixs, replies, 2, news + [Approved(IdOf(s), s.wallet)], s.key);
  }

  // The instructions of a send, for a message with these accounts.
  ghost predicate IsSend(program: Key, s: Parties, remaining: seq<Key>, ixs: seq<OuterInstruction>) {
    && |ixs| == 5 && ixs[0].keys == [s.multisig, s.transaction, s.wallet, s.payer, SYSTEM_PROGRAM]
    && ixs[1] == OuterInstruction(program, [s.multisig, s.transaction, s.wallet],
                                  IndexData(APPROVE_TRANSACTION_DISCRIMINATOR, s.index))
    && ixs[2] == OuterInstruction(program, [s.multisig, s.transaction, s.key],
                                  IndexData(APPROVE_TRANSACTION_DISCRIMINATOR, s.index))
    && ixs[3] == OuterInstruction(program, [s.multisig, s.transaction, s.wallet] + remaining,
                                  IndexData(EXECUTE_TRANSACTION_DISCRIMINATOR, s.index))
    && ixs[4] == OuterInstruction(program, [s.multisig, s.transaction, s.payer],
                                  IndexData(CLOSE_TRANSACTION_DISCRIMINATOR, s.index))
  }

  lemma SendRuns(env: Env, l: Ledger, s: Parties, vaultIndex: Byte, m: TransactionMessage,
      ixs: seq<OuterInstruction>, replies: nat -> seq<Cpi>)
    requires OwnProgram(env.programId) && Ready(env, l, s, vaultIndex, m) && IdOf(s) !in l.proposals
    requires IsSend(env.programId, s, m.accountKeys, ixs) && Quietly(replies(3))
    requires KindOf(env.programId, ixs[0]) == Kind.Create && CreateMessage(ixs[0].data) == Some((vaultIndex, m))
    ensures RunOuter(env, l, ixs, replies, 0)
            == Some(AtTheEnd(l, s, History(IdOf(s), Opened(env, l, s, vaultIndex, m), s.wallet, s.key)))
  {
    var a := Opened(env, l, s, vaultIndex, m);
    CreateRuns(env, l, s, vaultIndex, m, ixs, replies);
    var n1 := [Created(IdOf(s), s.payer, a.lamports, m)];
    BothVote(env, l, s, a, ixs, replies, n1);
    var voted := a.(data := a.data.(approvals := [s.wallet, s.key]));
    var n3 := n1 + [Approved(IdOf(s), s.wallet)] + [Approved(IdOf(s), s.key)];
    ExecuteRuns(env, l, s, voted, ixs, replies, 3, n3, m.accountKeys[0]);
    var n4 := n3 + [Started(IdOf(s), [s.wallet, s.key])] + Invocations(IdOf(s), m, 0);
    CloseRuns(env, l, s, voted.(data := voted.data.(executed := true)), ixs, replies, 4, n4);
  }

  lemma BundleIsSend(program: Key, s: Parties, vaultIndex: Byte, message: seq<Byte>, remaining: seq<Key>)
    requires OwnProgram(program)
    ensures var ixs := SendBundle(program, s, vaultIndex, message, remaining);
            && IsSend(program, s, remaining, ixs) && KindOf(program, ixs[0]) == Kind.Create
            && ixs[0].data == CreateData(vaultIndex, message)
  {
    CreateKind(program, [s.multisig, s.transaction, s.wallet, s.payer, SYSTEM_PROGRAM], vaultIndex, message);
  }

  // Submitted to a ledger that is ready for it, with programs that return, the
  // bundle commits, and its whole record is: created, approved twice, started,
  // invoked, closed.
  lemma SendCommits(env: Env, l: Ledger, s: Parties, vaultIndex: Byte, message: seq<Byte>, m: TransactionMessage,
      replies: nat -> seq<Cpi>)
    requires OwnProgram(env.programId) && Reachable(env, l) && Ready(env, l, s, vaultIndex, m)
    requires CreateMessage(CreateData(vaultIndex, message)) == Some((vaultIndex, m)) && Quietly(replies(3))
    ensures RunOuter(env, l, SendBundle(env.programId, s, vaultIndex, message, m.accountKeys), replies, 0)
            == Some(AtTheEnd(l, s, History(IdOf(s), Opened(env, l, s, vaultIndex, m), s.wallet, s.key)))
  {
    var ixs := SendBundle(env.programId, s, vaultIndex, message, m.accountKeys);
    NextIsNew(env, l, s);
    BundleIsSend(env.programId, s, vaultIndex, message, m.accountKeys);
    SendRuns(env, l, s, vaultIndex, m, ixs, replies);
  }

  // ---- a native send, from the wallet to the recipient ----

  // The message of a transfer fits an account, whatever the number of members.
  lemma TransferFits(vault: Key, recipient: Key, amount: U64, b: BuiltMessage, members: nat)
    requires vault != SYSTEM_PROGRAM && Compiles(vault, [Transfer(vault, recipient, amount)], b)
    requires members <= MAX_MEMBERS
    ensures Encodable(b) && ComputeProposalSpace(ToWire(b), members) <= MAX_PROPOSAL_ACCOUNT_BYTES
  {
    TransferWellFormed(vault, recipient, amount, b);
    assert CompiledTo(b.accountKeys, Transfer(vault, recipient, amount), b.instructions[0]);
    var ixs := ToWire(b).instructions;
    assert |ixs| == 1 && |ixs[0].accountIndexes| == 2 && |ixs[0].data| == 12;
    assert ixs[1..] == [];
    assert InstructionsSpace(ixs) == 1 + 4 + 2 + 4 + 12;
  }

  // What a reachable ledger must offer for a send of this message: its multisig's
  // next index, two members who make a quorum, and a payer with the rent.
  ghost predicate Offers(env: Env, l: Ledger, s: Parties, m: TransactionMessage) {
    && Reachable(env, l) && Next(env, l, s)
    && var ms := l.multisigs[s.multisig].data;
    && s.wallet in ms.members && s.key in ms.members && s.wallet != s.key && ms.threshold <= 2
    && env.rent(ComputeProposalSpace(m, |ms.members|)) <= Balance(l.wallets, s.payer)
  }

  lemma TransferReady(env: Env, l: Ledger, s: Parties, vaultIndex: Byte, recipient: Key, amount: U64, b: BuiltMessage)
    requires var vault := DeriveVault(env, s.multisig, vaultIndex).0;
             vault != SYSTEM_PROGRAM && Compiles(vault, [Transfer(vault, recipient, amount)], b)
    requires Encodable(b) && Offers(env, l, s, ToWire(b))
    ensures Ready(env, l, s, vaultIndex, ToWire(b))
  {
    var vault := DeriveVault(env, s.multisig, vaultIndex).0;
    ReachableInv(env, l);
    assert MultisigOk(env, l, s.multisig);
    TransferWellFormed(vault, recipient, amount, b);
    TransferFits(vault, recipient, amount, b, |l.multisigs[s.multisig].data.members|);
  }

  // What the ledger logs when the bundle has committed performs the message.
  lemma RecordPerforms(env: Env, foreign: Foreign, purse: Purse, l: Ledger, s: Parties, a: ProposalAccount)
    requires s.multisig in l.multisigs && a.data.message.instructions != []
    requires var after := AtTheEnd(l, s, History(IdOf(s), a, s.wallet, s.key)); Reachable(env, after)
    ensures var after := AtTheEnd(l, s, History(IdOf(s), a, s.wallet, s.key));
            PerformAll(foreign, purse, MadeFor(after.log, IdOf(s))) == RunMessage(foreign, purse, a.data.message, 0)
  {
    var history := History(IdOf(s), a, s.wallet, s.key);
    var after, m := AtTheEnd(l, s, history), a.data.message;
    var c, e := Created(IdOf(s), a.data.payer, a.lamports, m), Started(IdOf(s), [s.wallet, s.key]);
    assert history[0] == c && history[3] == e;
    assert after.log[|l.log|] == c && after.log[|l.log| + 3] == e;
    NothingOrTheWholeMessage(env, after, IdOf(s), a.data.payer, a.lamports, m);
    StepIsMade(env, after, IdOf(s), e.approvals, a.data.payer, a.lamports, m, 0);
    var made := MadeFor(after.log, IdOf(s));
    LoggedIsRun(foreign, purse, m, made, 0);
    assert made[0..] == made;
  }

  // The ledger is as it was but for one index, the record of this one send, and nothing else.
  ghost predicate OnlyThisSend(env: Env, l: Ledger, after: Ledger, s: Parties, vaultIndex: Byte,
      m: TransactionMessage)
  {
    s.multisig in l.multisigs
    && after == AtTheEnd(l, s, History(IdOf(s), Opened(env, l, s, vaultIndex, m), s.wallet, s.key))
  }

  // Any message, around which a bundle is built: once committed, what the ledger
  // logs for it performs that message.
  lemma CommitsAndPerforms(env: Env, foreign: Foreign, l: Ledger, s: Parties, vaultIndex: Byte, message: seq<Byte>,
      m: TransactionMessage, replies: nat -> seq<Cpi>, purse: Purse) returns (after: Ledger)
    requires OwnProgram(env.programId) && Reachable(env, l) && Ready(env, l, s, vaultIndex, m)
    requires CreateMessage(CreateData(vaultIndex, message)) == Some((vaultIndex, m)) && Quietly(replies(3))
    ensures RunOuter(env, l, SendBundle(env.programId, s, vaultIndex, message, m.accountKeys), replies, 0)
            == Some(after)
    ensures OnlyThisSend(env, l, after, s, vaultIndex, m)
    ensures PerformAll(foreign, purse, MadeFor(after.log, IdOf(s))) == RunMessage(foreign, purse, m, 0)
  {
    SendCommits(env, l, s, vaultIndex, message, m, replies);
    StaysReachable(env, l, SendBundle(env.programId, s, vaultIndex, message, m.accountKeys), replies, 0);
    after := AtTheEnd(l, s, History(IdOf(s), Opened(env, l, s, vaultIndex, m), s.wallet, s.key));
    RecordPerforms(env, foreign, purse, l, s, Opened(env, l, s, vaultIndex, m));
  }

  // What was invoked for the proposal moves the amount, and only that, if the vault has it.
  ghost predicate MovesTheAmount(foreign: Foreign, purse: Purse, made: seq<Made>, vault: Key, recipient: Key,
      amount: U64)
  {
    Balance(purse.lamports, vault) >= amount ==>
      PerformAll(foreign, purse, made)
      == Some((purse.(lamports := Move(purse.lamports, vault, recipient, amount)),
               [Lamports(vault, recipient, amount)]))
  }

  // The bundle committed, from ledger to ledger, with what it moves.
  ghost predicate Settles(env: Env, foreign: Foreign, l: Ledger, after: Ledger, s: Parties, vaultIndex: Byte,
      m: TransactionMessage, replies: nat -> seq<Cpi>, purse: Purse, recipient: Key, amount: U64)
  {
    && RunOuter(env, l, MessageBundle(env.programId, s, vaultIndex, m).instructions, replies, 0) == Some(after)
    && OnlyThisSend(env, l, after, s, vaultIndex, m)
    && MovesTheAmount(foreign, purse, MadeFor(after.log, IdOf(s)), DeriveVault(env, s.multisig, vaultIndex).0,
                      recipient, amount)
  }

  lemma TransferSettles(env: Env, foreign: Foreign, recipient: Key, amount: U64, b: BuiltMessage, s: Parties,
      vaultIndex: Byte, l: Ledger, replies: nat -> seq<Cpi>, purse: Purse) returns (after: Ledger)
    requires OwnProgram(env.programId)
    requires var vault := DeriveVault(env, s.multisig, vaultIndex).0;
             vault != SYSTEM_PROGRAM && Compiles(vault, [Transfer(vault, recipient, amount)], b)
    requires Encodable(b) && Offers(env, l, s, ToWire(b)) && Quietly(replies(3))
    ensures Settles(env, foreign, l, after, s, vaultIndex, ToWire(b), replies, purse, recipient, amount)
  {
    var m, vault := ToWire(b), DeriveVault(env, s.multisig, vaultIndex).0;
    TransferReady(env, l, s, vaultIndex, recipient, amount, b);
    TransferCreates(vault, recipient, amount, b, vaultIndex);
    after := CommitsAndPerforms(env, foreign, l, s, vaultIndex, MessageCodec().enc(m), m, replies, purse);
    if Balance(purse.lamports, vault) >= amount {
      HonestSendPays(foreign, purse, vault, recipient, amount, b);
    }
  }

  // An honest native send, whole. The gate accepts the bundle the SDK builds;
  // the program commits it on any ledger that offers what it needs, leaving a
  // record of that one send; and what was invoked moves exactly the amount from
  // the vault to the recipient, if the vault has it.
  lemma HonestSendSettles(env: Env, foreign: Foreign, p: Params, recipient: Key, amount: U64, b: BuiltMessage,
      s: Parties, vaultIndex: Byte, l: Ledger, replies: nat -> seq<Cpi>, purse: Purse)
      returns (v: View, after: Ledger)
    requires OwnProgram(env.programId) && AskedOf(p, s) && s.payer != recipient
    requires p.vaultIndex == vaultIndex && p.send == Send(Base58(recipient), Number(amount), None, None)
    requires p.maxFee != Cap(NotANumber)
    requires var vault := DeriveVault(env, s.multisig, vaultIndex).0;
             vault != SYSTEM_PROGRAM && Compiles(vault, [Transfer(vault, recipient, amount)], b)
    requires Encodable(b) && Offers(env, l, s, ToWire(b)) && Quietly(replies(3))
    ensures ConsumerAccepts(env, MessageBundle(env.programId, s, vaultIndex, ToWire(b)), p, v)
    ensures Settles(env, foreign, l, after, s, vaultIndex, ToWire(b), replies, purse, recipient, amount)
  {
    v := HonestSendAccepted(env, p, recipient, amount, b, s, vaultIndex);
    after := TransferSettles(env, foreign, recipient, amount, b, s, vaultIndex, l, replies, purse);
  }
}
