/** The enterprise gates, rule by rule: what the decode of a transaction says of its
    instructions, and when it and the payload, or the stored proposal and the payload, agree. */
module AgreementMeaning {
  import opened Wrappers
  import opened Bytes
  import opened State
  import opened Reader
  import opened Pda
  import opened Ids
  import opened Classifier
  import opened Bundle
  import opened FundFlows
  import opened Enterprise
  import opened VerdictMeaning
  import opened BundleMeaning
  import opened FlowMeaning

  // ---- the columns of a bucket ----

  // Account j of every instruction of the kind that has one, in order.
  function AccountsOf(program: Key, ixs: seq<OuterInstruction>, kind: Kind, j: nat): seq<Key> {
    if ixs == [] then [] else
    var n := |ixs| - 1;
    AccountsOf(program, ixs[..n], kind, j)
    + (if KindOf(program, ixs[n]) == kind && j < |ixs[n].keys| then [ixs[n].keys[j]] else [])
  }

  lemma {:induction false} ColumnMeans(program: Key, ixs: seq<OuterInstruction>, kind: Kind, j: nat)
    ensures Column(Collect(program, ixs, kind, AsMultisig), j) == AccountsOf(program, ixs, kind, j)
  {
    if ixs == [] {
    } else {
      var n := |ixs| - 1;
      ColumnMeans(program, ixs[..n], kind, j);
      var before := Collect(program, ixs[..n], kind, AsMultisig);
      if KindOf(program, ixs[n]) == kind {
        assert (before + [AsMultisig(n, ixs[n])])[..|before|] == before;
      } else {
        assert before + [] == before;
      }
    }
  }

  // Instruction i is of the kind and has this account j.
  ghost predicate NamedAt(program: Key, ixs: seq<OuterInstruction>, kind: Kind, j: nat, k: Key, i: nat) {
    i < |ixs| && KindOf(program, ixs[i]) == kind && j < |ixs[i].keys| && ixs[i].keys[j] == k
  }

  ghost predicate NamedBy(program: Key, ixs: seq<OuterInstruction>, kind: Kind, j: nat, k: Key) {
    exists i: nat :: NamedAt(program, ixs, kind, j, k, i)
  }

  lemma NamedEarlier(program: Key, ixs: seq<OuterInstruction>, n: nat, kind: Kind, j: nat, k: Key, i: nat)
    requires |ixs| == n + 1 && i < n
    ensures NamedAt(program, ixs, kind, j, k, i) <==> NamedAt(program, ixs[..n], kind, j, k, i)
  {
    assert ixs[..n][i] == ixs[i];
  }

  lemma NamedStays(program: Key, ixs: seq<OuterInstruction>, n: nat, kind: Kind, j: nat, k: Key)
    requires |ixs| == n + 1 && NamedBy(program, ixs[..n], kind, j, k)
    ensures NamedBy(program, ixs, kind, j, k)
  {
    var i: nat :| NamedAt(program, ixs[..n], kind, j, k, i);
    NamedEarlier(program, ixs, n, kind, j, k, i);
  }

  // The last one does, or one before it.
  lemma NamedSnoc(program: Key, ixs: seq<OuterInstruction>, n: nat, kind: Kind, j: nat, k: Key)
    requires |ixs| == n + 1 && NamedBy(program, ixs, kind, j, k)
    ensures NamedBy(program, ixs[..n], kind, j, k) || NamedAt(program, ixs, kind, j, k, n)
  {
    var i: nat :| NamedAt(program, ixs, kind, j, k, i);
    if i != n { NamedEarlier(program, ixs, n, kind, j, k, i); }
  }

  lemma {:induction false} ListedIffNamed(program: Key, ixs: seq<OuterInstruction>, kind: Kind, j: nat, k: Key)
    ensures k in AccountsOf(program, ixs, kind, j) <==> NamedBy(program, ixs, kind, j, k)
  {
    if ixs == [] {
    } else {
      var n := |ixs| - 1;
      ListedIffNamed(program, ixs[..n], kind, j, k);
      if NamedBy(program, ixs[..n], kind, j, k) { NamedStays(program, ixs, n, kind, j, k); }
      if NamedBy(program, ixs, kind, j, k) { NamedSnoc(program, ixs, n, kind, j, k); }
      assert NamedAt(program, ixs, kind, j, k, n) ==> NamedBy(program, ixs, kind, j, k);
    }
  }

  // Every instruction of the kind that has an account j has this one there.
  ghost predicate AllName(program: Key, ixs: seq<OuterInstruction>, kind: Kind, j: nat, k: Key) {
    forall i: nat :: i < |ixs| && KindOf(program, ixs[i]) == kind && j < |ixs[i].keys| ==> ixs[i].keys[j] == k
  }

  lemma AllNameIff(program: Key, ixs: seq<OuterInstruction>, kind: Kind, j: nat, k: Key)
    ensures AllAre(AccountsOf(program, ixs, kind, j), k) <==> AllName(program, ixs, kind, j, k)
  {
    var list := AccountsOf(program, ixs, kind, j);
    if AllAre(list, k) {
      forall i: nat | i < |ixs| && KindOf(program, ixs[i]) == kind && j < |ixs[i].keys| ensures ixs[i].keys[j] == k {
        ListedIffNamed(program, ixs, kind, j, ixs[i].keys[j]);
        assert NamedAt(program, ixs, kind, j, ixs[i].keys[j], i);
      }
    }
    if AllName(program, ixs, kind, j, k) {
      forall q | 0 <= q < |list| ensures list[q] == k {
        ListedIffNamed(program, ixs, kind, j, list[q]);
      }
    }
  }

  // ---- when a transaction decodes ----

  ghost predicate Absent(program: Key, ixs: seq<OuterInstruction>, kind: Kind) {
    forall i: nat :: i < |ixs| ==> KindOf(program, ixs[i]) != kind
  }

  lemma AbsentMeans<T(!new)>(program: Key, ixs: seq<OuterInstruction>, kind: Kind, f: (nat, OuterInstruction) -> T)
    ensures Collect(program, ixs, kind, f) == [] <==> Absent(program, ixs, kind)
  {
    BucketsInOrder(program, ixs, kind, f);
    if Collect(program, ixs, kind, f) == [] {
      forall i: nat | i < |ixs| ensures KindOf(program, ixs[i]) != kind { InOneBucket(program, ixs, kind, i); }
    } else {
      var i := PlaceOf(program, ixs, kind, f, 0);
    }
  }

  // Every approval has its three accounts.
  ghost predicate ApprovalsWhole(program: Key, ixs: seq<OuterInstruction>) {
    forall i: nat :: i < |ixs| && KindOf(program, ixs[i]) == Approve ==> |ixs[i].keys| >= 3
  }

  // One create, at position c, carrying this message.
  ghost predicate CreatesAt(program: Key, ixs: seq<OuterInstruction>, c: nat, m: TransactionMessage) {
    && OnlyAt(program, ixs, Create, c) && |ixs[c].keys| >= 3
    && |ixs[c].data| >= 9 && CreateMessage(ixs[c].data) == Some((ixs[c].data[8], m)) && m.accountKeys != []
  }

  // The first approval, where nothing is created.
  ghost predicate ApprovesFirstAt(program: Key, ixs: seq<OuterInstruction>, a: nat) {
    && Absent(program, ixs, Create)
    && a < |ixs| && KindOf(program, ixs[a]) == Approve
    && forall i: nat :: i < a ==> KindOf(program, ixs[i]) != Approve
  }

  lemma WholeMeans(program: Key, ixs: seq<OuterInstruction>)
    ensures LongEnough(Collect(program, ixs, Approve, AsMultisig), 3) <==> ApprovalsWhole(program, ixs)
  {
    var whole := (a: MultisigIx) => |a.keys| >= 3;
    EachMeans(program, ixs, Approve, AsMultisig, whole);
    assert LongEnough(Collect(program, ixs, Approve, AsMultisig), 3)
      <==> EachEntry(Collect(program, ixs, Approve, AsMultisig), whole);
  }

  lemma FirstApproval(program: Key, ixs: seq<OuterInstruction>) returns (a: nat)
    requires Collect(program, ixs, Approve, AsMultisig) != []
    ensures a < |ixs| && KindOf(program, ixs[a]) == Approve
    ensures forall i: nat :: i < a ==> KindOf(program, ixs[i]) != Approve
    ensures Collect(program, ixs, Approve, AsMultisig)[0] == AsMultisig(a, ixs[a])
  {
    a := PlaceOf(program, ixs, Approve, AsMultisig, 0);
    BucketsInOrder(program, ixs, Approve, AsMultisig);
    forall i: nat | i < a ensures KindOf(program, ixs[i]) != Approve {
      if KindOf(program, ixs[i]) == Approve {
        var q := EntryAt(program, ixs, Approve, AsMultisig, i);
        assert false;
      }
    }
  }

  // A transaction decodes iff every create carries a message and every approval
  // its accounts, and there is one create whose message has keys, or none but
  // an approval; and whose accounts to look for, if a create's, are readable.
  ghost predicate CanDecode(program: Key, ixs: seq<OuterInstruction>, opts: DecodeOptions) {
    && ApprovalsWhole(program, ixs)
    && ((opts.who.Readable() && exists c, m :: CreatesAt(program, ixs, c, m))
        || exists a :: ApprovesFirstAt(program, ixs, a))
  }

  lemma CreatedDecodes(env: Env, outer: Outer, opts: DecodeOptions, c: nat, m: TransactionMessage)
    requires CreatesAt(env.programId, outer.instructions, c, m)
    ensures var b := Bundled(env.programId, outer.feePayer, outer.instructions);
            && CreatesDecode(env.programId, outer.instructions)
            && b.creates == [AsCreate(c, outer.instructions[c])]
            && b.creates[0].inner == Abridged(b.creates[0].data[8], m)
            && (Decodable(b, opts) <==> ApprovalsWhole(env.programId, outer.instructions) && opts.who.Readable())
  {
    var program, ixs := env.programId, outer.instructions;
    BundledParses(program, outer.feePayer, ixs);
    OnlyMeans(program, ixs, Create, AsCreate, c);
    WholeMeans(program, ixs);
    forall i | 0 <= i < |ixs| ensures CreateDecodes(program, ixs[i]) {
      if KindOf(program, ixs[i]) == Create { assert i == c; }
    }
  }

  lemma ApprovedDecodes(env: Env, outer: Outer, opts: DecodeOptions, a: nat)
    requires ApprovesFirstAt(env.programId, outer.instructions, a)
    ensures var b := Bundled(env.programId, outer.feePayer, outer.instructions);
            && CreatesDecode(env.programId, outer.instructions)
            && b.creates == [] && b.approves != [] && b.approves[0] == AsMultisig(a, outer.instructions[a])
            && (Decodable(b, opts) <==> ApprovalsWhole(env.programId, outer.instructions))
  {
    var program, ixs := env.programId, outer.instructions;
    BundledParses(program, outer.feePayer, ixs);
    AbsentMeans(program, ixs, Create, AsCreate);
    WholeMeans(program, ixs);
    var q := EntryAt(program, ixs, Approve, AsMultisig, a);
    var first := FirstApproval(program, ixs);
    assert first == a;
  }

  lemma DecodesIff(env: Env, outer: Outer, opts: DecodeOptions)
    ensures var b := Bundled(env.programId, outer.feePayer, outer.instructions);
            CreatesDecode(env.programId, outer.instructions) && Decodable(b, opts)
            <==> CanDecode(env.programId, outer.instructions, opts)
  {
    var program, ixs := env.programId, outer.instructions;
    var b := Bundled(program, outer.feePayer, ixs);
    if CreatesDecode(program, ixs) && Decodable(b, opts) {
      BundledParses(program, outer.feePayer, ixs);
      WholeMeans(program, ixs);
      if b.creates == [] {
        AbsentMeans(program, ixs, Create, AsCreate);
        var a := FirstApproval(program, ixs);
        assert ApprovesFirstAt(program, ixs, a);
      } else {
        var c, m := DecodedCreate(env, outer, opts);
      }
    }
    if c, m :| CreatesAt(program, ixs, c, m) && opts.who.Readable() { CreatedDecodes(env, outer, opts, c, m); }
    if a :| ApprovesFirstAt(program, ixs, a) { ApprovedDecodes(env, outer, opts, a); }
  }

  lemma DecodedCreate(env: Env, outer: Outer, opts: DecodeOptions) returns (c: nat, m: TransactionMessage)
    requires CreatesDecode(env.programId, outer.instructions)
    requires var b := Bundled(env.programId, outer.feePayer, outer.instructions);
             Decodable(b, opts) && b.creates != []
    ensures CreatesAt(env.programId, outer.instructions, c, m)
  {
    var program, ixs := env.programId, outer.instructions;
    BundledParses(program, outer.feePayer, ixs);
    c := PlaceOf(program, ixs, Create, AsCreate, 0);
    OnlyMeans(program, ixs, Create, AsCreate, c);
    assert CreateDecodes(program, ixs[c]);
    m := CreateMessage(ixs[c].data).value.1;
  }

  // ---- what the decode says ----

  // Flagged as unknown are the positions of what may not pass.
  ghost predicate Flags(outer: Outer, program: Key, caps: Option<BudgetCaps>, flagged: set<nat>) {
    forall i: nat :: i in flagged <==> i < |outer.instructions| && !Passes(outer, program, caps, i)
  }

  lemma FlagsMean(outer: Outer, program: Key, caps: Option<BudgetCaps>, flagged: set<nat>)
    ensures FlagsUnknown(outer, program, caps, flagged) <==> Flags(outer, program, caps, flagged)
  {
    forall i: nat | i < |outer.instructions|
      ensures Allowed(outer, program, caps, i) <==> Passes(outer, program, caps, i)
    {
      AllowedMeans(outer, program, caps, i);
    }
  }

  // Who votes and for what, and what is unknown.
  ghost predicate TellsVotes(env: Env, outer: Outer, opts: DecodeOptions, d: Decoded) {
    var program, ixs := env.programId, outer.instructions;
    && !d.Undecodable?
    && d.approvers == AccountsOf(program, ixs, Approve, 2) && d.approveTargets == AccountsOf(program, ixs, Approve, 1)
    && Flags(outer, program, opts.caps, d.unknownOuter)
  }

  // What the message of a create moves, and its memos.
  ghost predicate TellsMessage(env: Env, outer: Outer, opts: DecodeOptions, d: Decoded, m: TransactionMessage) {
    && d.CreateTx? && m.accountKeys != [] && d.sender == m.accountKeys[0]
    && DisplaysMessage(env, m, outer.feePayer, opts.allowMemo, opts.who, d.flows)
    && d.memos == (if opts.allowMemo then Notes(env, m.accountKeys, m.instructions) else [])
  }

  // A decoded create tells: the accounts it names, the vault index and the first
  // key of its message, what the message moves, its memos, and whom else the
  // transaction's approvals and executes name.
  ghost predicate TellsCreate(env: Env, outer: Outer, opts: DecodeOptions, d: Decoded, c: nat, m: TransactionMessage) {
    var program, ixs := env.programId, outer.instructions;
    && CreatesAt(program, ixs, c, m) && d.CreateTx?
    && ixs[c].keys[0] == d.multisig && ixs[c].keys[1] == d.transaction && ixs[c].keys[2] == d.creator
    && d.vaultIndex == ixs[c].data[8] && TellsMessage(env, outer, opts, d, m)
    && d.executeTargets == AccountsOf(program, ixs, Execute, 1) && TellsVotes(env, outer, opts, d)
  }

  // Decoded approvals tell: the accounts and the index the first one names, and what all of them name.
  ghost predicate TellsApproval(env: Env, outer: Outer, opts: DecodeOptions, d: Decoded, a: nat) {
    var program, ixs := env.programId, outer.instructions;
    && ApprovesFirstAt(program, ixs, a) && d.ApproveTx? && |ixs[a].keys| >= 3
    && ixs[a].keys[0] == d.multisig && ixs[a].keys[1] == d.transaction
    && (if |ixs[a].data| >= 16 then d.index.Some? && d.index.value == Value(ixs[a].data[8..16]) else d.index.None?)
    && d.approveMultisigs == AccountsOf(program, ixs, Approve, 0) && TellsVotes(env, outer, opts, d)
  }

  lemma ColumnsMean(env: Env, outer: Outer)
    ensures var b := Bundled(env.programId, outer.feePayer, outer.instructions);
            var program, ixs := env.programId, outer.instructions;
            && Column(b.approves, 0) == AccountsOf(program, ixs, Approve, 0)
            && Column(b.approves, 1) == AccountsOf(program, ixs, Approve, 1)
            && Column(b.approves, 2) == AccountsOf(program, ixs, Approve, 2)
            && Column(b.executes, 1) == AccountsOf(program, ixs, Execute, 1)
  {
    var program, ixs := env.programId, outer.instructions;
    BundledParses(program, outer.feePayer, ixs);
    ColumnMeans(program, ixs, Approve, 0);
    ColumnMeans(program, ixs, Approve, 1);
    ColumnMeans(program, ixs, Approve, 2);
    ColumnMeans(program, ixs, Execute, 1);
  }

  // The decode describes the bundle of the transaction.
  ghost predicate Decodes(env: Env, outer: Outer, opts: DecodeOptions, d: Decoded) {
    && CreatesDecode(env.programId, outer.instructions)
    && Describes(env, outer, Bundled(env.programId, outer.feePayer, outer.instructions), opts, d)
  }

  lemma VotesTold(env: Env, outer: Outer, opts: DecodeOptions, d: Decoded)
    requires Decodes(env, outer, opts, d)
    ensures TellsVotes(env, outer, opts, d)
    ensures d.CreateTx? ==> d.executeTargets == AccountsOf(env.programId, outer.instructions, Execute, 1)
    ensures d.ApproveTx? ==> d.approveMultisigs == AccountsOf(env.programId, outer.instructions, Approve, 0)
  {
    ColumnsMean(env, outer);
    FlagsMean(outer, env.programId, opts.caps, d.unknownOuter);
  }

  lemma MessageTold(env: Env, outer: Outer, opts: DecodeOptions, d: Decoded, c: CreateIx, m: TransactionMessage)
    requires d.CreateTx? && opts.who.Readable() && m.accountKeys != [] && c.inner == Abridged(c.inner.vaultIndex, m)
    requires d.vaultIndex == c.inner.vaultIndex && d.sender == c.inner.accountKeys[0]
    requires ShowsMessage(env, c.inner, outer.feePayer, opts.allowMemo, opts.who, d.flows)
    requires d.memos == MemosOf(JudgeAll(env, c.inner.accountKeys, outer.feePayer, opts.allowMemo,
                                         c.inner.instructions))
    ensures TellsMessage(env, outer, opts, d, m)
  {
    NotesTallied(env, m.accountKeys, outer.feePayer, opts.allowMemo, m.instructions);
    DisplaysMessageIff(env, m, c.inner.vaultIndex, outer.feePayer, opts.allowMemo, opts.who, d.flows);
  }

  lemma FirstThree(keys: seq<Key>, a: Key, b: Key, c: Key)
    requires |keys| >= 3 && keys[..3] == [a, b, c]
    ensures keys[0] == a && keys[1] == b && keys[2] == c
  {
    assert keys[..3][0] == keys[0] && keys[..3][1] == keys[1] && keys[..3][2] == keys[2];
  }

  lemma CreateTold(env: Env, outer: Outer, opts: DecodeOptions, d: Decoded) returns (c: nat, m: TransactionMessage)
    requires Decodes(env, outer, opts, d) && d.CreateTx?
    ensures TellsCreate(env, outer, opts, d, c, m)
  {
    c, m := DecodedCreate(env, outer, opts);
    CreatedDecodes(env, outer, opts, c, m);
    VotesTold(env, outer, opts, d);
    MessageTold(env, outer, opts, d, AsCreate(c, outer.instructions[c]), m);
    FirstThree(outer.instructions[c].keys, d.multisig, d.transaction, d.creator);
  }

  lemma ApprovalTold(env: Env, outer: Outer, opts: DecodeOptions, d: Decoded) returns (a: nat)
    requires Decodes(env, outer, opts, d) && d.ApproveTx?
    ensures TellsApproval(env, outer, opts, d, a)
  {
    VotesTold(env, outer, opts, d);
    BundledParses(env.programId, outer.feePayer, outer.instructions);
    AbsentMeans(env.programId, outer.instructions, Create, AsCreate);
    a := FirstApproval(env.programId, outer.instructions);
    WholeMeans(env.programId, outer.instructions);
    FirstTwo(outer.instructions[a].keys, d.multisig, d.transaction);
  }

  lemma FirstTwo(keys: seq<Key>, a: Key, b: Key)
    requires |keys| >= 3 && keys[..2] == [a, b]
    ensures keys[0] == a && keys[1] == b
  {
    assert keys[..2][0] == keys[0] && keys[..2][1] == keys[1];
  }

  // ---- when the decode and the payload agree ----

  ghost predicate AllPass(outer: Outer, program: Key, caps: Option<BudgetCaps>) {
    forall i: nat :: i < |outer.instructions| ==> Passes(outer, program, caps, i)
  }

  predicate Insists(binding: Binding, k: Key) { binding.Bound? ==> binding.address == Base58(k) }

  predicate Asks(expected: Option<Address>, k: Key) { expected == None || expected == Some(Base58(k)) }

  // The create and its message are what the payload insists on, every approval
  // and every execute with a second account names the proposal it creates, and
  // the flows are those on display.
  ghost predicate CreateAgrees(env: Env, outer: Outer, opts: DecodeOptions, x: Payload, flows: View, c: nat,
      m: TransactionMessage)
  {
    var program, ixs := env.programId, outer.instructions;
    && CreatesAt(program, ixs, c, m) && AllPass(outer, program, opts.caps)
    && Insists(x.multisig, ixs[c].keys[0]) && Asks(x.transaction, ixs[c].keys[1]) && Asks(x.vault, m.accountKeys[0])
    && (x.vaultIndex == None || x.vaultIndex == Some(ixs[c].data[8] as int))
    && AllName(program, ixs, Approve, 1, ixs[c].keys[1]) && AllName(program, ixs, Execute, 1, ixs[c].keys[1])
    && DisplaysMessage(env, m, outer.feePayer, opts.allowMemo, opts.who, flows)
    && FlowsAgree(env, flows, x.flows)
  }

  // All approvals name one multisig and one proposal, which the payload insists
  // on and which was verified on chain.
  ghost predicate ApprovalAgrees(env: Env, outer: Outer, opts: DecodeOptions, x: Payload, verifiedOnChain: bool, a: nat)
  {
    var program, ixs := env.programId, outer.instructions;
    && ApprovesFirstAt(program, ixs, a) && ApprovalsWhole(program, ixs) && AllPass(outer, program, opts.caps)
    && Insists(x.multisig, ixs[a].keys[0]) && x.transaction == Some(Base58(ixs[a].keys[1])) && verifiedOnChain
    && AllName(program, ixs, Approve, 0, ixs[a].keys[0]) && AllName(program, ixs, Approve, 1, ixs[a].keys[1])
  }

  lemma NoneFlagged(outer: Outer, program: Key, caps: Option<BudgetCaps>, flagged: set<nat>)
    requires Flags(outer, program, caps, flagged)
    ensures flagged == {} <==> AllPass(outer, program, caps)
  {
    if flagged == {} {
      forall i: nat | i < |outer.instructions| ensures Passes(outer, program, caps, i) { assert i !in flagged; }
    }
  }

  lemma CreateMatchesIff(env: Env, outer: Outer, opts: DecodeOptions, d: Decoded, x: Payload, verifiedOnChain: bool,
      c: nat, m: TransactionMessage)
    requires TellsCreate(env, outer, opts, d, c, m)
    ensures Matches(env, d, x, verifiedOnChain) <==> CreateAgrees(env, outer, opts, x, d.flows, c, m)
  {
    NoneFlagged(outer, env.programId, opts.caps, d.unknownOuter);
    AllNameIff(env.programId, outer.instructions, Approve, 1, d.transaction);
    AllNameIff(env.programId, outer.instructions, Execute, 1, d.transaction);
    FlowsMean(env, d.flows, x.flows);
  }

  lemma ApprovalMatchesIff(env: Env, outer: Outer, opts: DecodeOptions, d: Decoded, x: Payload, verifiedOnChain: bool,
      a: nat)
    requires TellsApproval(env, outer, opts, d, a) && ApprovalsWhole(env.programId, outer.instructions)
    ensures Matches(env, d, x, verifiedOnChain) <==> ApprovalAgrees(env, outer, opts, x, verifiedOnChain, a)
  {
    NoneFlagged(outer, env.programId, opts.caps, d.unknownOuter);
    AllNameIff(env.programId, outer.instructions, Approve, 0, d.multisig);
    AllNameIff(env.programId, outer.instructions, Approve, 1, d.transaction);
  }

  // The comparison finds no mismatch iff the transaction's own instructions are
  // what the payload insists on.
  lemma MatchesIff(env: Env, outer: Outer, opts: DecodeOptions, d: Decoded, x: Payload, verifiedOnChain: bool)
    requires Decodes(env, outer, opts, d)
    ensures d.CreateTx? ==>
              (Matches(env, d, x, verifiedOnChain)
               <==> exists c, m :: CreateAgrees(env, outer, opts, x, d.flows, c, m))
    ensures d.ApproveTx? ==>
              (Matches(env, d, x, verifiedOnChain)
               <==> exists a :: ApprovalAgrees(env, outer, opts, x, verifiedOnChain, a))
  {
    if d.CreateTx? {
      var c, m := CreateTold(env, outer, opts, d);
      CreateMatchesIff(env, outer, opts, d, x, verifiedOnChain, c, m);
      forall c', m' | CreateAgrees(env, outer, opts, x, d.flows, c', m') ensures c' == c && m' == m {}
    } else {
      var a := ApprovalTold(env, outer, opts, d);
      WholeMeans(env.programId, outer.instructions);
      BundledParses(env.programId, outer.feePayer, outer.instructions);
      ApprovalMatchesIff(env, outer, opts, d, x, verifiedOnChain, a);
      forall a' | ApprovalAgrees(env, outer, opts, x, verifiedOnChain, a') ensures a' == a {
        assert !(a < a') && !(a' < a);
      }
    }
  }
}
