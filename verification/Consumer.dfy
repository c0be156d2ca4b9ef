/** The consumer gate: everything a two-device send bundle must be before a device signs it. */
module Consumer {
  import opened Wrappers
  import opened Bytes
  import opened Members
  import opened Pda
  import opened Ids
  import opened Classifier
  import opened Bundle
  import opened FundFlows

  datatype Send = Send(recipient: Address, amount: Amount, tokenMint: Option<Address>, tokenDecimals: Option<int>)

  datatype Params = Params(
    multisig: Address,
    members: seq<Address>,
    signer: Address,
    vaultIndex: int,
    send: Send,
    maxFee: FeeCap,
    expectedFeePayer: Option<Address>,
    caps: BudgetCaps)

  datatype Verified = Verified(multisig: Key, vault: Key, transaction: Key, flows: View, memos: seq<seq<Byte>>)

  predicate IsMember(p: Params, k: Key) { Base58(k) in p.members }

  // One byte of whatever number was asked for; a number that is no byte fails the vault index check.
  function VaultKey(env: Env, multisig: Key, vaultIndex: int): Key { DeriveVault(env, multisig, vaultIndex % 256).0 }

  // Readable, distinct members with the signer among them.
  predicate Identified(p: Params) {
    && p.multisig.Base58? && p.signer.Base58?
    && (forall q | 0 <= q < |p.members| :: p.members[q].Base58?)
    && p.signer in p.members && Distinct(p.members)
  }

  // ---- what each bucket must look like ----

  predicate FeePayerFits(p: Params, feePayer: Option<Key>) {
    && feePayer.Some? && !IsMember(p, feePayer.value)
    && (p.expectedFeePayer.Some? ==> p.expectedFeePayer.value == Base58(feePayer.value))
  }

  // At most one, and first.
  predicate NonceFits(nonceAdvances: seq<nat>) {
    |nonceAdvances| <= 1 && forall q | 0 <= q < |nonceAdvances| :: nonceAdvances[q] == 0
  }

  predicate Capped(cb: ComputeBudgetIx, caps: BudgetCaps) { cb.value.Some? && WithinCaps(cb.tag, cb.value.value, caps) }

  predicate BudgetsFit(cbs: seq<ComputeBudgetIx>, caps: BudgetCaps) {
    && (forall q | 0 <= q < |cbs| :: Capped(cbs[q], caps))
    && (forall o, q | 0 <= o < q < |cbs| :: cbs[o].tag != cbs[q].tag)
  }

  predicate Targets(ix: MultisigIx, multisig: Key, transaction: Key) {
    |ix.keys| >= 2 && ix.keys[0] == multisig && ix.keys[1] == transaction
  }

  predicate ApproveFits(p: Params, ix: MultisigIx, transaction: Key) {
    p.multisig.Base58? && Targets(ix, p.multisig.key, transaction) && |ix.keys| >= 3 && IsMember(p, ix.keys[2])
  }

  // Every approval is a different member's, and one is the signer's.
  predicate ApprovesFit(p: Params, approves: seq<MultisigIx>, transaction: Key) {
    && (forall q | 0 <= q < |approves| :: ApproveFits(p, approves[q], transaction))
    && (forall o, q | 0 <= o < q < |approves| :: approves[o].keys[2] != approves[q].keys[2])
    && exists q :: 0 <= q < |approves| && Base58(approves[q].keys[2]) == p.signer
  }

  predicate AtMostOne(list: seq<MultisigIx>, multisig: Key, transaction: Key) {
    |list| <= 1 && forall q | 0 <= q < |list| :: Targets(list[q], multisig, transaction)
  }

  predicate CreateFits(env: Env, p: Params, c: CreateIx) {
    && p.multisig.Base58?
    && |c.keys| >= 4 && c.keys[0] == p.multisig.key && IsMember(p, c.keys[2])
    && c.inner.vaultIndex == p.vaultIndex
    && c.inner.accountKeys != [] && c.inner.accountKeys[0] == VaultKey(env, p.multisig.key, p.vaultIndex)
  }

  // The first token recipient with this account.
  function Destination(rs: seq<Recipient>, ata: Option<Key>): (r: Option<Recipient>)
    ensures r.Some? ==> r.value in rs && r.value.Spl? && ata == Some(r.value.ata)
  {
    if rs == [] then None
    else if rs[0].Spl? && ata == Some(rs[0].ata) then Some(rs[0])
    else Destination(rs[1..], ata)
  }

  // The recipient's own account for the expected mint, paid for by the fee payer.
  predicate AtaCreateFits(env: Env, p: Params, ata: AtaCreateIx, rs: seq<Recipient>, feePayer: Option<Key>) {
    && ata.dataOk
    && feePayer.Some? && ata.funder == feePayer
    && var destination := Destination(rs, ata.ata);
    && destination.Some? && ata.owner.Some? && ata.mint.Some? && ata.tokenProgram.Some?
    && p.send.recipient == Base58(ata.owner.value) && p.send.tokenMint == Some(Base58(ata.mint.value))
    && destination.value.tokenProgram == ata.tokenProgram.value
    && ata.ata == Some(DeriveAta(env, ata.owner.value, ata.mint.value, ata.tokenProgram.value))
  }

  predicate AtaCreatesFit(env: Env, p: Params, atas: seq<AtaCreateIx>, rs: seq<Recipient>, feePayer: Option<Key>) {
    |atas| <= 1 && forall q | 0 <= q < |atas| :: AtaCreateFits(env, p, atas[q], rs, feePayer)
  }

  // ---- what the message must show ----

  function Who(p: Params): Attribution {
    if p.send.tokenMint.Some? then Attribution(Some(p.send.recipient), p.send.tokenMint) else Attribution(None, None)
  }

  // One recipient, one amount, one asset.
  function Wanted(p: Params): Expectation {
    Expectation([ExpectedRecipient(p.send.recipient, p.send.amount)],
                p.send.tokenMint, p.send.tokenDecimals, p.maxFee, p.expectedFeePayer)
  }

  predicate AtaVerified(rs: seq<Recipient>) {
    forall q | 0 <= q < |rs| :: rs[q].Spl? ==> rs[q].ataVerified == Some(true)
  }

  // Each bucket is as it must be, given the recipients its message shows.
  predicate OuterFits(env: Env, p: Params, b: ParsedBundle, rs: seq<Recipient>) {
    && p.multisig.Base58? && b.foreign == [] && NonceFits(b.nonceAdvances) && BudgetsFit(b.computeBudget, p.caps)
    && |b.creates| == 1 && CreateFits(env, p, b.creates[0])
    && ApprovesFit(p, b.approves, b.creates[0].keys[1])
    && AtMostOne(b.executes, p.multisig.key, b.creates[0].keys[1])
    && AtMostOne(b.closes, p.multisig.key, b.creates[0].keys[1])
    && AtaCreatesFit(env, p, b.ataCreates, rs, b.feePayer)
  }

  // The bundle, and the view of its one message, are as they must be.
  predicate Accepts(env: Env, p: Params, b: ParsedBundle, v: View) {
    && Identified(p)
    && FeePayerFits(p, b.feePayer)
    && OuterFits(env, p, b, v.recipients)
    && FlowsAccepted(env, v, Wanted(p)) && AtaVerified(v.recipients)
  }

  ghost predicate ShowsBundle(env: Env, p: Params, b: ParsedBundle, v: View) {
    |b.creates| == 1 && ShowsMessage(env, b.creates[0].inner, b.feePayer, true, Who(p), v)
  }

  // What is handed back for display: the proposal, what its message moves and the memos in it.
  ghost predicate ReportsBundle(env: Env, p: Params, b: ParsedBundle, r: Verified) {
    && p.multisig.Base58? && r.multisig == p.multisig.key
    && r.vault == VaultKey(env, p.multisig.key, p.vaultIndex)
    && ShowsBundle(env, p, b, r.flows)
    && var c := b.creates[0];
    && |c.keys| >= 2 && r.transaction == c.keys[1]
    && r.memos == MemosOf(JudgeAll(env, c.inner.accountKeys, b.feePayer, true, c.inner.instructions))
  }

  ghost predicate ConsumerAccepts(env: Env, outer: Outer, p: Params, v: View) {
    && CreatesDecode(env.programId, outer.instructions)
    && var b := Bundled(env.programId, outer.feePayer, outer.instructions);
    && ShowsBundle(env, p, b, v) && Accepts(env, p, b, v)
  }

  // ---- the checks, each counting its mismatches ----

  method CheckIdentity(p: Params) returns (ok: bool)
    ensures ok <==> Identified(p)
  {
    if p.multisig.NotAKey? { return false; }
    for q := 0 to |p.members|
      invariant forall o | 0 <= o < q :: p.members[o].Base58?
    {
      if p.members[q].NotAKey? { return false; }
    }
    if p.signer.NotAKey? { return false; }
    if p.signer !in p.members { return false; }
    ok := AllDistinct(p.members);
  }

  // A set built from the list is as large as the list.
  method AllDistinct<T(==)>(list: seq<T>) returns (ok: bool)
    ensures ok <==> Distinct(list)
  {
    var seen: set<T> := {};
    for q := 0 to |list|
      invariant forall x :: x in seen <==> x in list[..q]
      invariant |seen| <= q && (|seen| == q <==> Distinct(list[..q]))
    {
      assert list[..q + 1] == list[..q] + [list[q]];
      seen := seen + {list[q]};
    }
    assert list[..|list|] == list;
    return |seen| == |list|;
  }

  method CheckFeePayer(p: Params, feePayer: Option<Key>) returns (mismatches: nat)
    ensures mismatches == 0 <==> FeePayerFits(p, feePayer)
  {
    mismatches := 0;
    if feePayer.None? {
      mismatches := 1;
    } else {
      if Base58(feePayer.value) in p.members { mismatches := mismatches + 1; }
      if p.expectedFeePayer.Some? && p.expectedFeePayer.value != Base58(feePayer.value) {
        mismatches := mismatches + 1;
      }
    }
  }

  method CheckNonce(nonceAdvances: seq<nat>) returns (mismatches: nat)
    ensures mismatches == 0 <==> NonceFits(nonceAdvances)
  {
    mismatches := if |nonceAdvances| > 1 then 1 else 0;
    for q := 0 to |nonceAdvances|
      invariant mismatches == 0 <==> |nonceAdvances| <= 1 && forall o | 0 <= o < q :: nonceAdvances[o] == 0
    {
      if nonceAdvances[q] != 0 { mismatches := mismatches + 1; }
    }
  }

  // A limit or a price, if it has a value.
  ghost predicate Tagged(cb: ComputeBudgetIx) {
    cb.value.Some? ==> cb.tag == COMPUTE_BUDGET_TAG_SET_UNIT_LIMIT || cb.tag == COMPUTE_BUDGET_TAG_SET_UNIT_PRICE
  }

  ghost predicate LastOf(cbs: seq<ComputeBudgetIx>, tag: int, last: Option<nat>) {
    last.Some? <==> exists q :: 0 <= q < |cbs| && cbs[q].tag == tag && cbs[q].value.Some?
  }

  method CheckCaps(cb: ComputeBudgetIx, caps: BudgetCaps) returns (mismatches: nat)
    requires Tagged(cb) && cb.value.Some?
    ensures mismatches == 0 <==> Capped(cb, caps)
  {
    mismatches := 0;
    if cb.tag == COMPUTE_BUDGET_TAG_SET_UNIT_LIMIT {
      if caps.maxUnitLimit.Some? && cb.value.value > caps.maxUnitLimit.value { mismatches := 1; }
    } else if caps.maxUnitPrice.AtMost? {
      if caps.maxUnitPrice.amount.NotANumber? {
        mismatches := 1;
      } else if cb.value.value > caps.maxUnitPrice.amount.n {
        mismatches := 1;
      }
    }
  }

  method CheckBudgets(cbs: seq<ComputeBudgetIx>, caps: BudgetCaps) returns (mismatches: nat)
    requires forall q | 0 <= q < |cbs| :: Tagged(cbs[q])
    ensures mismatches == 0 <==> BudgetsFit(cbs, caps)
  {
    mismatches := 0;
    var unitLimit: Option<nat>, unitPrice: Option<nat> := None, None;
    for q := 0 to |cbs|
      invariant mismatches == 0 <==> BudgetsFit(cbs[..q], caps)
      invariant LastOf(cbs[..q], COMPUTE_BUDGET_TAG_SET_UNIT_LIMIT, unitLimit)
      invariant LastOf(cbs[..q], COMPUTE_BUDGET_TAG_SET_UNIT_PRICE, unitPrice)
    {
      var cb := cbs[q];
      BudgetsFitSnoc(cbs, q, caps);
      LastSnoc(cbs, q, COMPUTE_BUDGET_TAG_SET_UNIT_LIMIT, unitLimit);
      LastSnoc(cbs, q, COMPUTE_BUDGET_TAG_SET_UNIT_PRICE, unitPrice);
      if cb.value.None? {
        mismatches := mismatches + 1;
      } else {
        var over := CheckCaps(cb, caps);
        mismatches := mismatches + over;
        if cb.tag == COMPUTE_BUDGET_TAG_SET_UNIT_LIMIT {
          if unitLimit.Some? { mismatches := mismatches + 1; }
          unitLimit := cb.value;
        } else {
          if unitPrice.Some? { mismatches := mismatches + 1; }
          unitPrice := cb.value;
        }
      }
    }
    assert cbs[..|cbs|] == cbs;
  }

  lemma LastSnoc(cbs: seq<ComputeBudgetIx>, q: nat, tag: int, last: Option<nat>)
    requires q < |cbs| && LastOf(cbs[..q], tag, last)
    ensures LastOf(cbs[..q + 1], tag, if cbs[q].tag == tag && cbs[q].value.Some? then cbs[q].value else last)
  {
    assert cbs[..q + 1][q] == cbs[q];
    if last.Some? {
      var o :| 0 <= o < q && cbs[..q][o].tag == tag && cbs[..q][o].value.Some?;
      assert cbs[..q + 1][o] == cbs[..q][o];
    }
  }

  // One more fits iff it is capped and nothing before it had its tag.
  lemma BudgetsFitSnoc(cbs: seq<ComputeBudgetIx>, q: nat, caps: BudgetCaps)
    requires q < |cbs|
    ensures BudgetsFit(cbs[..q + 1], caps) <==>
              && BudgetsFit(cbs[..q], caps) && Capped(cbs[q], caps)
              && !exists o :: 0 <= o < q && cbs[..q][o].tag == cbs[q].tag && cbs[..q][o].value.Some?
  {
    assert cbs[..q + 1] == cbs[..q] + [cbs[q]];
  }

  method CheckApprove(p: Params, a: MultisigIx, transaction: Key) returns (mismatches: nat)
    requires p.multisig.Base58? && |a.keys| >= 3
    ensures mismatches == 0 <==> ApproveFits(p, a, transaction)
  {
    mismatches := 0;
    if a.keys[0] != p.multisig.key { mismatches := mismatches + 1; }
    if a.keys[1] != transaction { mismatches := mismatches + 1; }
    if Base58(a.keys[2]) !in p.members { mismatches := mismatches + 1; }
  }

  // None if an approval lacks its accounts, which fails the whole gate.
  method CheckApproves(p: Params, approves: seq<MultisigIx>, transaction: Key) returns (r: Option<nat>)
    requires Identified(p)
    ensures r == Some(0) <==> ApprovesFit(p, approves, transaction)
  {
    var mismatches := 0;
    var seen: set<Key> := {};
    for q := 0 to |approves|
      invariant forall o | 0 <= o < q :: |approves[o].keys| >= 3
      invariant forall k :: k in seen <==> exists o :: 0 <= o < q && approves[o].keys[2] == k
      invariant mismatches == 0 <==>
                  && (forall o | 0 <= o < q :: ApproveFits(p, approves[o], transaction))
                  && (forall n, o | 0 <= n < o < q :: approves[n].keys[2] != approves[o].keys[2])
    {
      var a := approves[q];
      if |a.keys| < 3 { return None; }
      var wrong := CheckApprove(p, a, transaction);
      mismatches := mismatches + wrong;
      if a.keys[2] in seen { mismatches := mismatches + 1; }
      seen := seen + {a.keys[2]};
    }
    if p.signer.key !in seen { mismatches := mismatches + 1; }
    return Some(mismatches);
  }

  method CheckFollowUps(list: seq<MultisigIx>, multisig: Key, transaction: Key) returns (mismatches: nat)
    ensures mismatches == 0 <==> AtMostOne(list, multisig, transaction)
  {
    mismatches := if |list| > 1 then 1 else 0;
    for q := 0 to |list|
      invariant mismatches == 0 <==> |list| <= 1 && forall o | 0 <= o < q :: Targets(list[o], multisig, transaction)
    {
      if |list[q].keys| < 2 {
        mismatches := mismatches + 1;
      } else {
        if list[q].keys[0] != multisig { mismatches := mismatches + 1; }
        if list[q].keys[1] != transaction { mismatches := mismatches + 1; }
      }
    }
  }

  method FindDestination(rs: seq<Recipient>, ata: Option<Key>) returns (r: Option<Recipient>)
    ensures r == Destination(rs, ata)
  {
    for q := 0 to |rs|
      invariant Destination(rs, ata) == Destination(rs[q..], ata)
    {
      if rs[q].Spl? && ata == Some(rs[q].ata) { return Some(rs[q]); }
      assert rs[q..][1..] == rs[q + 1..];
    }
    return None;
  }

  method CheckAtaCreates(env: Env, p: Params, atas: seq<AtaCreateIx>, rs: seq<Recipient>, feePayer: Option<Key>)
      returns (mismatches: nat)
    ensures mismatches == 0 <==> AtaCreatesFit(env, p, atas, rs, feePayer)
  {
    mismatches := if |atas| > 1 then 1 else 0;
    for q := 0 to |atas|
      invariant mismatches == 0
                <==> |atas| <= 1 && forall o | 0 <= o < q :: AtaCreateFits(env, p, atas[o], rs, feePayer)
    {
      var ata := atas[q];
      var destination := FindDestination(rs, ata.ata);
      if !ata.dataOk { mismatches := mismatches + 1; }
      if feePayer.None? || ata.funder != feePayer { mismatches := mismatches + 1; }
      if destination.None? || ata.owner.None? || ata.mint.None? || Base58(ata.owner.value) != p.send.recipient
        || p.send.tokenMint != Some(Base58(ata.mint.value)) || ata.tokenProgram.None?
        || destination.value.tokenProgram != ata.tokenProgram.value {
        mismatches := mismatches + 1;
      } else if Some(DeriveAta(env, ata.owner.value, ata.mint.value, ata.tokenProgram.value)) != ata.ata {
        mismatches := mismatches + 1;
      }
    }
  }

  method CheckAtaVerified(rs: seq<Recipient>) returns (mismatches: nat)
    ensures mismatches == 0 <==> AtaVerified(rs)
  {
    mismatches := 0;
    for q := 0 to |rs|
      invariant mismatches == 0 <==> forall o | 0 <= o < q :: rs[o].Spl? ==> rs[o].ataVerified == Some(true)
    {
      if rs[q].Spl? && rs[q].ataVerified != Some(true) { mismatches := mismatches + 1; }
    }
  }

  method CheckCreate(env: Env, p: Params, c: CreateIx, vault: Key) returns (mismatches: nat)
    requires Identified(p) && |c.keys| >= 4 && c.inner.accountKeys != []
    requires vault == VaultKey(env, p.multisig.key, p.vaultIndex)
    ensures mismatches == 0 <==> CreateFits(env, p, c)
  {
    mismatches := 0;
    if c.keys[0] != p.multisig.key { mismatches := mismatches + 1; }
    if Base58(c.keys[2]) !in p.members { mismatches := mismatches + 1; }
    if c.inner.vaultIndex != p.vaultIndex { mismatches := mismatches + 1; }
    if c.inner.accountKeys[0] != vault { mismatches := mismatches + 1; }
  }

  // ---- the gate ----

  method VerifyConsumerBundle(env: Env, outer: Outer, p: Params) returns (mismatches: nat, shown: Option<Verified>)
    ensures mismatches == 0 <==> exists v :: ConsumerAccepts(env, outer, p, v)
    ensures mismatches == 0 ==> shown.Some? && ConsumerAccepts(env, outer, p, shown.value.flows)
    ensures shown.Some? ==>
              && CreatesDecode(env.programId, outer.instructions)
              && ReportsBundle(env, p, Bundled(env.programId, outer.feePayer, outer.instructions), shown.value)
  {
    var ok := CheckIdentity(p);
    if !ok { return 1, None; }
    var parsed := ParseBundle(outer, env.programId);
    if parsed.None? { return 1, None; }
    var b := parsed.value;
    BudgetsTagged(env.programId, outer.feePayer, outer.instructions);
    mismatches, shown := CheckBundle(env, p, b);
    forall v | ShowsBundle(env, p, b, v) && shown.Some? ensures v == shown.value.flows {
      ShowsUnique(env, b.creates[0].inner, b.feePayer, true, Who(p), v, shown.value.flows);
    }
    if mismatches == 0 { assert ConsumerAccepts(env, outer, p, shown.value.flows); }
  }

  lemma BudgetsTagged(program: Key, feePayer: Option<Key>, ixs: seq<OuterInstruction>)
    ensures var cbs := Bundled(program, feePayer, ixs).computeBudget; forall q | 0 <= q < |cbs| :: Tagged(cbs[q])
  {
    BundledParses(program, feePayer, ixs);
    BucketsInOrder(program, ixs, ComputeBudget, AsBudget);
  }

  method CheckBundle(env: Env, p: Params, b: ParsedBundle) returns (mismatches: nat, shown: Option<Verified>)
    requires Identified(p) && forall q | 0 <= q < |b.computeBudget| :: Tagged(b.computeBudget[q])
    ensures shown.Some? ==> ReportsBundle(env, p, b, shown.value)
    ensures shown.Some? ==> (mismatches == 0 <==> Accepts(env, p, b, shown.value.flows))
    ensures mismatches == 0 ==> shown.Some?
    ensures shown.None? ==> forall v :: !(ShowsBundle(env, p, b, v) && Accepts(env, p, b, v))
  {
    var vault := VaultKey(env, p.multisig.key, p.vaultIndex);
    var payer := CheckFeePayer(p, b.feePayer);
    var nonce := CheckNonce(b.nonceAdvances);
    var budgets := CheckBudgets(b.computeBudget, p.caps);
    mismatches := payer + |b.foreign| + nonce + budgets;
    if |b.creates| != 1 { return mismatches + 1, None; }
    var create := b.creates[0];
    if |create.keys| < 4 { return mismatches + 1, None; }
    var transaction := create.keys[1];
    var approvals := CheckApproves(p, b.approves, transaction);
    if approvals.None? { return mismatches + 1, None; }
    var executes := CheckFollowUps(b.executes, p.multisig.key, transaction);
    var closes := CheckFollowUps(b.closes, p.multisig.key, transaction);
    mismatches := mismatches + approvals.value + executes + closes;
    if |create.inner.accountKeys| == 0 { return mismatches + 1, None; }
    var created := CheckCreate(env, p, create, vault);
    var view := ViewMessage(env, create.inner, b.feePayer, true, Who(p));
    if view.None? { return mismatches + 1, None; }
    var v := view.value.0;
    var flows := CompareFundFlows(env, v, Wanted(p));
    var verified := CheckAtaVerified(v.recipients);
    var atas := CheckAtaCreates(env, p, b.ataCreates, v.recipients, b.feePayer);
    mismatches := mismatches + created + flows + verified + atas;
    shown := Some(Verified(p.multisig.key, vault, transaction, v, view.value.1));
  }

  // ---- what acceptance means for the bytes to be signed ----

  lemma Located<T(!new)>(program: Key, ixs: seq<OuterInstruction>, kind: Kind, f: (nat, OuterInstruction) -> T,
      i: nat) returns (q: nat)
    requires i < |ixs| && KindOf(program, ixs[i]) == kind
    ensures q < |Positions(program, ixs, kind)| == |Collect(program, ixs, kind, f)|
    ensures Positions(program, ixs, kind)[q] == i && Collect(program, ixs, kind, f)[q] == f(i, ixs[i])
  {
    InOneBucket(program, ixs, kind, i);
    BucketsInOrder(program, ixs, kind, f);
    q :| q < |Positions(program, ixs, kind)| && Positions(program, ixs, kind)[q] == i;
  }

  // The one proposal an accepted bundle is about.
  function TransactionOf(program: Key, outer: Outer): Option<Key> {
    var b := Bundled(program, outer.feePayer, outer.instructions);
    if |b.creates| >= 1 && |b.creates[0].keys| >= 2 then Some(b.creates[0].keys[1]) else None
  }

  // What each instruction of an accepted bundle is.
  predicate Accounted(env: Env, outer: Outer, p: Params, i: nat)
    requires i < |outer.instructions|
  {
    var ix := outer.instructions[i];
    p.multisig.Base58? &&
    match KindOf(env.programId, ix)
    case Alien => false
    case NonceAdvance => i == 0
    case ComputeBudget => Capped(AsBudget(i, ix), p.caps)
    case AtaCreate =>
      && |ix.keys| >= 6 && outer.feePayer == Some(ix.keys[0])
      && p.send.recipient == Base58(ix.keys[2]) && p.send.tokenMint == Some(Base58(ix.keys[3]))
      && ix.keys[1] == DeriveAta(env, ix.keys[2], ix.keys[3], ix.keys[5])
    case Create => |ix.keys| >= 4 && Targets(AsMultisig(i, ix), p.multisig.key, ix.keys[1]) && IsMember(p, ix.keys[2])
                   && TransactionOf(env.programId, outer) == Some(ix.keys[1])
    case Approve => |ix.keys| >= 3 && IsMember(p, ix.keys[2]) && TransactionOf(env.programId, outer) == Some(ix.keys[1])
                    && ix.keys[0] == p.multisig.key
    case _ => |ix.keys| >= 2 && ix.keys[0] == p.multisig.key && TransactionOf(env.programId, outer) == Some(ix.keys[1])
  }

  lemma AtaAccounted(env: Env, p: Params, ata: AtaCreateIx, rs: seq<Recipient>, feePayer: Option<Key>, i: nat,
      ix: OuterInstruction)
    requires AtaCreateFits(env, p, ata, rs, feePayer) && ata == AsAtaCreate(i, ix)
    ensures |ix.keys| >= 6 && feePayer == Some(ix.keys[0])
            && p.send.recipient == Base58(ix.keys[2]) && p.send.tokenMint == Some(Base58(ix.keys[3]))
            && ix.keys[1] == DeriveAta(env, ix.keys[2], ix.keys[3], ix.keys[5])
  {}

  lemma EveryInstructionAccounted(env: Env, outer: Outer, p: Params, v: View, i: nat)
    requires ConsumerAccepts(env, outer, p, v) && i < |outer.instructions|
    ensures Accounted(env, outer, p, i)
  {
    var b := Bundled(env.programId, outer.feePayer, outer.instructions);
    BundledParses(env.programId, outer.feePayer, outer.instructions);
    InstructionAccounted(env, outer, p, b, v.recipients, i);
  }

  lemma InstructionAccounted(env: Env, outer: Outer, p: Params, b: ParsedBundle, rs: seq<Recipient>, i: nat)
    requires i < |outer.instructions| && OuterFits(env, p, b, rs)
    requires TransactionOf(env.programId, outer) == Some(b.creates[0].keys[1])
    requires ParsedAs(env.programId, outer.instructions, b) && b.feePayer == outer.feePayer
    ensures Accounted(env, outer, p, i)
  {
    var program, ixs := env.programId, outer.instructions;
    var kind := KindOf(program, ixs[i]);
    if kind == Alien { var q := Located(program, ixs, Alien, AsIndex, i); }
    else if kind == NonceAdvance { var q := Located(program, ixs, NonceAdvance, AsIndex, i); }
    else if kind == ComputeBudget { var q := Located(program, ixs, ComputeBudget, AsBudget, i); }
    else if kind == AtaCreate {
      var q := Located(program, ixs, AtaCreate, AsAtaCreate, i);
      AtaAccounted(env, p, b.ataCreates[q], rs, b.feePayer, i, ixs[i]);
    }
    else if kind == Create { CreateAccounted(env, outer, p, b, rs, i); }
    else { VoteAccounted(env, outer, p, b, rs, i); }
  }

  lemma CreateAccounted(env: Env, outer: Outer, p: Params, b: ParsedBundle, rs: seq<Recipient>, i: nat)
    requires i < |outer.instructions| && OuterFits(env, p, b, rs)
    requires KindOf(env.programId, outer.instructions[i]) == Create
    requires TransactionOf(env.programId, outer) == Some(b.creates[0].keys[1])
    requires ParsedAs(env.programId, outer.instructions, b)
    ensures Accounted(env, outer, p, i)
  {
    var q := Located(env.programId, outer.instructions, Create, AsCreate, i);
    assert b.creates[q] == AsCreate(i, outer.instructions[i]);
    assert CreateFits(env, p, b.creates[q]);
  }

  lemma VoteAccounted(env: Env, outer: Outer, p: Params, b: ParsedBundle, rs: seq<Recipient>, i: nat)
    requires i < |outer.instructions| && OuterFits(env, p, b, rs)
    requires KindOf(env.programId, outer.instructions[i]) in {Approve, Execute, Close}
    requires TransactionOf(env.programId, outer) == Some(b.creates[0].keys[1])
    requires ParsedAs(env.programId, outer.instructions, b)
    ensures Accounted(env, outer, p, i)
  {
    var kind := KindOf(env.programId, outer.instructions[i]);
    var q := Located(env.programId, outer.instructions, kind, AsMultisig, i);
    var list := Collect(env.programId, outer.instructions, kind, AsMultisig);
    assert list[q] == AsMultisig(i, outer.instructions[i]);
    assert list == (if kind == Approve then b.approves else if kind == Execute then b.executes else b.closes);
    if kind == Approve { assert ApproveFits(p, list[q], b.creates[0].keys[1]); }
  }

  // No two instructions do the same thing twice: apart from approvals by
  // different members and budgets with different tags, each kind occurs once.
  lemma NothingTwice(env: Env, outer: Outer, p: Params, v: View, i: nat, j: nat)
    requires ConsumerAccepts(env, outer, p, v) && i < j < |outer.instructions|
    requires KindOf(env.programId, outer.instructions[i]) == KindOf(env.programId, outer.instructions[j])
    ensures var x, y := outer.instructions[i], outer.instructions[j];
            match KindOf(env.programId, x)
            case Approve => |x.keys| >= 3 && |y.keys| >= 3 && x.keys[2] != y.keys[2]
            case ComputeBudget => BudgetTag(x.data) != BudgetTag(y.data)
            case _ => false
  {
    var program, ixs := env.programId, outer.instructions;
    BundledParses(program, outer.feePayer, ixs);
    match KindOf(program, ixs[i])
    case Alien => var q := Located(program, ixs, Alien, AsIndex, i);
    case NonceAdvance => TwoPlaces(program, ixs, NonceAdvance, AsIndex, i, j);
    case ComputeBudget => TwoPlaces(program, ixs, ComputeBudget, AsBudget, i, j);
    case AtaCreate => TwoPlaces(program, ixs, AtaCreate, AsAtaCreate, i, j);
    case Create => TwoPlaces(program, ixs, Create, AsCreate, i, j);
    case Approve => TwoPlaces(program, ixs, Approve, AsMultisig, i, j);
    case Execute => TwoPlaces(program, ixs, Execute, AsMultisig, i, j);
    case Close => TwoPlaces(program, ixs, Close, AsMultisig, i, j);
  }

  lemma TwoPlaces<T(!new)>(program: Key, ixs: seq<OuterInstruction>, kind: Kind, f: (nat, OuterInstruction) -> T,
      i: nat, j: nat)
    requires i < j < |ixs| && KindOf(program, ixs[i]) == KindOf(program, ixs[j]) == kind
    ensures exists o, q :: 0 <= o < q < |Collect(program, ixs, kind, f)|
                           && Collect(program, ixs, kind, f)[o] == f(i, ixs[i])
                           && Collect(program, ixs, kind, f)[q] == f(j, ixs[j])
  {
    var o := Located(program, ixs, kind, f, i);
    var q := Located(program, ixs, kind, f, j);
    BucketsInOrder(program, ixs, kind, f);
    assert o < q;
  }
}
