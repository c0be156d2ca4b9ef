/** The enterprise gate: what a bundle is decoded to, and when that agrees with
    the payload on display. */
module Enterprise {
  import opened Wrappers
  import opened Bytes
  import opened Reader
  import opened Pda
  import opened Ids
  import opened Classifier
  import opened Bundle
  import opened FundFlows

  datatype DecodeOptions = DecodeOptions(who: Attribution, caps: Option<BudgetCaps>, allowMemo: bool)

  datatype Decoded =
    | CreateTx(vaultIndex: Byte, multisig: Key, transaction: Key, creator: Key, sender: Key, flows: View,
               memos: seq<seq<Byte>>, approvers: seq<Key>, approveTargets: seq<Key>, executeTargets: seq<Key>,
               unknownOuter: set<nat>)
    | ApproveTx(multisig: Key, transaction: Key, index: Option<U64>,
                approvers: seq<Key>, approveTargets: seq<Key>, approveMultisigs: seq<Key>, unknownOuter: set<nat>)
    | Undecodable

  // Which multisig the caller insists on; some callers may say that they do not.
  datatype Binding = Missing | Waived | Bound(address: Address)

  datatype Payload = Payload(flows: Expectation, transaction: Option<Address>, multisig: Binding,
                             vaultIndex: Option<int>, vault: Option<Address>)

  // ---- decoding ----

  // Account i of each instruction, for those that have it.
  function Column(list: seq<MultisigIx>, i: nat): seq<Key> {
    if list == [] then [] else
    Column(list[..|list| - 1], i) + (if i < |list[|list| - 1].keys| then [list[|list| - 1].keys[i]] else [])
  }

  lemma ColumnSnoc(list: seq<MultisigIx>, q: nat, i: nat)
    requires q < |list|
    ensures Column(list[..q + 1], i) == Column(list[..q], i) + (if i < |list[q].keys| then [list[q].keys[i]] else [])
  {
    assert list[..q + 1][..q] == list[..q];
  }

  // The transaction_index argument, if the data has one.
  function IndexArgument(data: seq<Byte>): Option<U64> { if |data| >= 16 then Some(U64At(data, 8)) else None }

  ghost predicate LongEnough(list: seq<MultisigIx>, n: nat) { forall q | 0 <= q < |list| :: |list[q].keys| >= n }

  // What must be there for the decoder to say anything at all.
  ghost predicate Decodable(b: ParsedBundle, opts: DecodeOptions) {
    && |b.creates| <= 1
    && LongEnough(b.approves, 3)
    && (b.creates != [] ==> |b.creates[0].keys| >= 3 && b.creates[0].inner.accountKeys != [] && opts.who.Readable())
    && (b.creates == [] ==> b.approves != [])
  }

  ghost predicate Describes(env: Env, outer: Outer, b: ParsedBundle, opts: DecodeOptions, d: Decoded) {
    && !d.Undecodable? && Decodable(b, opts)
    && d.approvers == Column(b.approves, 2) && d.approveTargets == Column(b.approves, 1)
    && FlagsUnknown(outer, env.programId, opts.caps, d.unknownOuter)
    && match d
       case CreateTx(vaultIndex, multisig, transaction, creator, sender, flows, memos, _, _, executeTargets, _) =>
         && b.creates != []
         && var c := b.creates[0];
         && c.keys[..3] == [multisig, transaction, creator]
         && vaultIndex == c.inner.vaultIndex && sender == c.inner.accountKeys[0]
         && ShowsMessage(env, c.inner, outer.feePayer, opts.allowMemo, opts.who, flows)
         && memos == MemosOf(JudgeAll(env, c.inner.accountKeys, outer.feePayer, opts.allowMemo, c.inner.instructions))
         && executeTargets == Column(b.executes, 1)
       case ApproveTx(multisig, transaction, index, _, _, approveMultisigs, _) =>
         && b.creates == []
         && b.approves[0].keys[..2] == [multisig, transaction] && index == IndexArgument(b.approves[0].data)
         && approveMultisigs == Column(b.approves, 0)
  }

  method ReadApproves(approves: seq<MultisigIx>) returns (r: Option<(seq<Key>, seq<Key>, seq<Key>)>)
    ensures r.Some? <==> LongEnough(approves, 3)
    ensures r.Some? ==> r.value == (Column(approves, 0), Column(approves, 1), Column(approves, 2))
  {
    var multisigs: seq<Key>, targets: seq<Key>, approvers: seq<Key> := [], [], [];
    for q := 0 to |approves|
      invariant LongEnough(approves[..q], 3)
      invariant multisigs == Column(approves[..q], 0)
      invariant targets == Column(approves[..q], 1)
      invariant approvers == Column(approves[..q], 2)
    {
      var a := approves[q];
      ColumnSnoc(approves, q, 0);
      ColumnSnoc(approves, q, 1);
      ColumnSnoc(approves, q, 2);
      if |a.keys| < 3 { return None; }
      multisigs, targets, approvers := multisigs + [a.keys[0]], targets + [a.keys[1]], approvers + [a.keys[2]];
    }
    assert approves[..|approves|] == approves;
    return Some((multisigs, targets, approvers));
  }

  method ReadExecuteTargets(executes: seq<MultisigIx>) returns (targets: seq<Key>)
    ensures targets == Column(executes, 1)
  {
    targets := [];
    for q := 0 to |executes|
      invariant targets == Column(executes[..q], 1)
    {
      ColumnSnoc(executes, q, 1);
      if |executes[q].keys| >= 2 { targets := targets + [executes[q].keys[1]]; }
    }
    assert executes[..|executes|] == executes;
  }

  method ReadTransactionIndex(data: seq<Byte>) returns (r: Option<U64>)
    ensures r == IndexArgument(data)
  {
    if |data| < 16 { return None; }
    var v := ReadU64LE(data, 8);
    return Some(v);
  }

  method DecodeVaultTransaction(env: Env, outer: Outer, opts: DecodeOptions) returns (d: Decoded)
    ensures var b := Bundled(env.programId, outer.feePayer, outer.instructions);
            if CreatesDecode(env.programId, outer.instructions) && Decodable(b, opts)
            then Describes(env, outer, b, opts, d) else d == Undecodable
  {
    var parsed := ParseBundle(outer, env.programId);
    if parsed.None? { return Undecodable; }
    var bundle := parsed.value;
    BundledParses(env.programId, outer.feePayer, outer.instructions);
    var unknownOuter := FlagUnknown(bundle, opts.caps, outer, env.programId);
    d := Report(env, bundle, opts, unknownOuter, outer);
  }

  method Report(env: Env, bundle: ParsedBundle, opts: DecodeOptions, unknownOuter: set<nat>, ghost outer: Outer)
      returns (d: Decoded)
    requires bundle.feePayer == outer.feePayer && FlagsUnknown(outer, env.programId, opts.caps, unknownOuter)
    ensures if Decodable(bundle, opts) then Describes(env, outer, bundle, opts, d) else d == Undecodable
  {
    if |bundle.creates| > 1 { return Undecodable; }
    var approves := ReadApproves(bundle.approves);
    if approves.None? { return Undecodable; }
    var (multisigs, targets, approvers) := approves.value;
    var executeTargets := ReadExecuteTargets(bundle.executes);
    if |bundle.creates| == 1 {
      var create := bundle.creates[0];
      if |create.keys| < 3 { return Undecodable; }
      if |create.inner.accountKeys| == 0 { return Undecodable; }
      var view := ViewMessage(env, create.inner, bundle.feePayer, opts.allowMemo, opts.who);
      if view.None? { return Undecodable; }
      return CreateTx(create.inner.vaultIndex, create.keys[0], create.keys[1], create.keys[2],
                      create.inner.accountKeys[0], view.value.0, view.value.1, approvers, targets, executeTargets,
                      unknownOuter);
    }
    if |bundle.approves| > 0 {
      var first := bundle.approves[0];
      var index := ReadTransactionIndex(first.data);
      return ApproveTx(first.keys[0], first.keys[1], index, approvers, targets, multisigs, unknownOuter);
    }
    return Undecodable;
  }

  // ---- comparison ----

  predicate IfSet(expected: Option<Address>, k: Key) { expected.Some? ==> expected.value == Base58(k) }

  predicate AllAre(keys: seq<Key>, k: Key) { forall q | 0 <= q < |keys| :: keys[q] == k }

  // When the decode contradicts nothing on display.
  predicate Matches(env: Env, d: Decoded, x: Payload, verifiedOnChain: bool) {
    && !d.Undecodable? && d.unknownOuter == {}
    && (x.multisig.Bound? ==> x.multisig.address == Base58(d.multisig))
    && IfSet(x.transaction, d.transaction)
    && AllAre(d.approveTargets, d.transaction)
    && match d
       case CreateTx(vaultIndex, _, transaction, _, sender, flows, _, _, _, executeTargets, _) =>
         && (x.vaultIndex.Some? ==> x.vaultIndex.value == vaultIndex)
         && IfSet(x.vault, sender)
         && AllAre(executeTargets, transaction)
         && FlowsAccepted(env, flows, x.flows)
       case ApproveTx(multisig, _, _, _, _, approveMultisigs, _) =>
         && AllAre(approveMultisigs, multisig)
         && verifiedOnChain && x.transaction.Some?
  }

  // Mismatches are counted; a target that is wrong twice counts twice.
  method CountOthers(keys: seq<Key>, k: Key) returns (mismatches: nat)
    ensures mismatches == 0 <==> AllAre(keys, k)
  {
    mismatches := 0;
    for q := 0 to |keys|
      invariant mismatches == 0 <==> forall p | 0 <= p < q :: keys[p] == k
    {
      if keys[q] != k { mismatches := mismatches + 1; }
    }
  }

  method CheckApproveTargets(targets: seq<Key>, transaction: Key, expected: Option<Address>) returns (mismatches: nat)
    ensures mismatches == 0
            <==> AllAre(targets, transaction) && forall q | 0 <= q < |targets| :: IfSet(expected, targets[q])
  {
    mismatches := 0;
    for q := 0 to |targets|
      invariant mismatches == 0 <==> forall p | 0 <= p < q :: targets[p] == transaction && IfSet(expected, targets[p])
    {
      if targets[q] != transaction { mismatches := mismatches + 1; }
      if expected.Some? && expected.value != Base58(targets[q]) { mismatches := mismatches + 1; }
    }
  }

  method CompareDecodedToExpected(env: Env, d: Decoded, x: Payload, verifiedOnChain: bool) returns (mismatches: nat)
    ensures mismatches == 0 <==> Matches(env, d, x, verifiedOnChain)
  {
    if d.Undecodable? { return 1; }
    mismatches := 0;
    if |d.unknownOuter| > 0 { mismatches := mismatches + 1; }
    if x.multisig.Bound? && x.multisig.address != Base58(d.multisig) { mismatches := mismatches + 1; }
    if x.transaction.Some? && x.transaction.value != Base58(d.transaction) { mismatches := mismatches + 1; }
    if d.ApproveTx? {
      var targets := CheckApproveTargets(d.approveTargets, d.transaction, x.transaction);
      var multisigs := CountOthers(d.approveMultisigs, d.multisig);
      mismatches := mismatches + targets + multisigs;
      if !verifiedOnChain {
        mismatches := mismatches + 1;
      } else if x.transaction.None? {
        mismatches := mismatches + 1;
      }
      return;
    }
    if x.vaultIndex.Some? && d.vaultIndex != x.vaultIndex.value { mismatches := mismatches + 1; }
    if x.vault.Some? && x.vault.value != Base58(d.sender) { mismatches := mismatches + 1; }
    var approves := CountOthers(d.approveTargets, d.transaction);
    var executes := CountOthers(d.executeTargets, d.transaction);
    var flows := CompareFundFlows(env, d.flows, x.flows);
    mismatches := mismatches + approves + executes + flows;
  }

  // ---- what agreement means for the bytes to be signed ----

  lemma {:induction false} ColumnHas(list: seq<MultisigIx>, i: nat, q: nat)
    requires q < |list| && i < |list[q].keys|
    ensures list[q].keys[i] in Column(list, i)
  {
    if q == |list| - 1 {
    } else {
      ColumnHas(list[..|list| - 1], i, q);
    }
  }

  // An instruction of a kind is an entry of that kind's bucket.
  lemma EntryOf(program: Key, ixs: seq<OuterInstruction>, kind: Kind, i: nat) returns (q: nat)
    requires i < |ixs| && KindOf(program, ixs[i]) == kind
    ensures var list := Collect(program, ixs, kind, AsMultisig);
            q < |list| && list[q] == AsMultisig(i, ixs[i])
  {
    InOneBucket(program, ixs, kind, i);
    BucketsInOrder(program, ixs, kind, AsMultisig);
    q :| q < |Positions(program, ixs, kind)| && Positions(program, ixs, kind)[q] == i;
  }

  // If a decoded bundle agrees with the payload, nothing in it is unknown,
  // every approve and every execute that names a proposal names the decoded one.
  lemma AgreementBindsEveryInstruction(env: Env, outer: Outer, opts: DecodeOptions, d: Decoded, x: Payload,
      verifiedOnChain: bool, i: nat)
    requires Describes(env, outer, Bundled(env.programId, outer.feePayer, outer.instructions), opts, d)
    requires Matches(env, d, x, verifiedOnChain) && i < |outer.instructions|
    ensures Allowed(outer, env.programId, opts.caps, i)
    ensures var ix := outer.instructions[i];
            match KindOf(env.programId, ix)
            case Approve => |ix.keys| >= 3 && ix.keys[1] == d.transaction && (d.ApproveTx? ==> ix.keys[0] == d.multisig)
            case Execute => d.CreateTx? && |ix.keys| >= 2 ==> ix.keys[1] == d.transaction
            case Create => d.CreateTx? && |ix.keys| >= 3 && ix.keys[..3] == [d.multisig, d.transaction, d.creator]
            case _ => true
  {
    var program, ixs := env.programId, outer.instructions;
    var b := Bundled(program, outer.feePayer, ixs);
    BundledParses(program, outer.feePayer, ixs);
    assert i !in d.unknownOuter;
    match KindOf(program, ixs[i])
    case Approve =>
      var q := EntryOf(program, ixs, Approve, i);
      ColumnHas(b.approves, 1, q);
      ColumnHas(b.approves, 0, q);
    case Execute =>
      var q := EntryOf(program, ixs, Execute, i);
      if |ixs[i].keys| >= 2 { ColumnHas(b.executes, 1, q); }
    case Create =>
      InOneBucket(program, ixs, Create, i);
      BucketsInOrder(program, ixs, Create, AsCreate);
      var q :| 0 <= q < |Positions(program, ixs, Create)| && Positions(program, ixs, Create)[q] == i;
      assert b.creates[q] == AsCreate(i, ixs[i]);
    case _ =>
  }
}
