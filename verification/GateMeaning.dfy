/** The consumer gate, rule by rule on the instructions of the transaction, and that
    it accepts exactly what keeps them all. */
module GateMeaning {
  import opened Wrappers
  import opened Bytes
  import opened State
  import opened Reader
  import opened Pda
  import opened Ids
  import opened Classifier
  import opened Bundle
  import opened FundFlows
  import opened Consumer
  import opened VerdictMeaning
  import opened BundleMeaning
  import opened FlowMeaning

  // ---- the rules ----

  // The request names keys, and the signer is one of different members.
  predicate AskedClearly(p: Params) {
    && p.multisig.Base58? && (forall q | 0 <= q < |p.members| :: p.members[q].Base58?)
    && (forall i, j | 0 <= i < j < |p.members| :: p.members[i] != p.members[j])
    && exists q :: 0 <= q < |p.members| && p.members[q] == p.signer
  }

  // Somebody pays for the transaction: no member, and the one expected if one is.
  predicate PaidByOutsider(p: Params, feePayer: Option<Key>) {
    && feePayer.Some?
    && (forall q | 0 <= q < |p.members| :: p.members[q] != Base58(feePayer.value))
    && (p.expectedFeePayer == None || p.expectedFeePayer == Some(Base58(feePayer.value)))
  }

  // Nothing but what the gate knows.
  ghost predicate NoStrangers(program: Key, ixs: seq<OuterInstruction>) {
    forall i: nat :: i < |ixs| ==> KindOf(program, ixs[i]) != Alien
  }

  ghost predicate NonceFirst(program: Key, ixs: seq<OuterInstruction>) {
    forall i: nat :: i < |ixs| && KindOf(program, ixs[i]) == NonceAdvance ==> i == 0
  }

  // Every budget within the cap for its own tag, and no tag twice.
  ghost predicate BudgetsKept(program: Key, ixs: seq<OuterInstruction>, caps: BudgetCaps) {
    && (forall i: nat :: i < |ixs| && KindOf(program, ixs[i]) == ComputeBudget ==>
          LimitWithin(ixs[i].data, caps) || PriceWithin(ixs[i].data, caps))
    && forall i: nat, j: nat ::
        i < j < |ixs| && KindOf(program, ixs[i]) == ComputeBudget && KindOf(program, ixs[j]) == ComputeBudget ==>
          !SameTag(ixs[i].data, ixs[j].data)
  }

  // A vote on the proposal, by a member.
  predicate Votes(p: Params, multisig: Key, transaction: Key, keys: seq<Key>) {
    |keys| >= 3 && keys[0] == multisig && keys[1] == transaction && Base58(keys[2]) in p.members
  }

  // Different members vote, and the signer is among them.
  ghost predicate VotesKept(program: Key, ixs: seq<OuterInstruction>, p: Params, multisig: Key, transaction: Key) {
    && (forall i: nat :: i < |ixs| && KindOf(program, ixs[i]) == Approve ==>
          Votes(p, multisig, transaction, ixs[i].keys))
    && (forall i: nat, j: nat ::
          i < j < |ixs| && KindOf(program, ixs[i]) == Approve && KindOf(program, ixs[j]) == Approve ==>
            ixs[i].keys[2] != ixs[j].keys[2])
    && exists i: nat :: i < |ixs| && KindOf(program, ixs[i]) == Approve && |ixs[i].keys| >= 3
                        && Base58(ixs[i].keys[2]) == p.signer
  }

  // At most one of the kind, on this proposal of this multisig.
  ghost predicate OnceOnIt(program: Key, ixs: seq<OuterInstruction>, kind: Kind, multisig: Key, transaction: Key) {
    && AtMostOncePlaced(program, ixs, kind)
    && forall i: nat :: i < |ixs| && KindOf(program, ixs[i]) == kind ==> [multisig, transaction] <= ixs[i].keys
  }

  // Among the recipients shown, the first with this token account holds it under this token program.
  predicate PaidInto(rs: seq<Recipient>, account: Key, token: Key) {
    exists q :: 0 <= q < |rs| && rs[q].Spl? && rs[q].ata == account && rs[q].tokenProgram == token
                && forall o | 0 <= o < q :: rs[o].Spl? ==> rs[o].ata != account
  }

  // The recipient's associated account for the mint asked for, which the message
  // pays into, created at the fee payer's cost.
  predicate OpensAccount(env: Env, p: Params, feePayer: Option<Key>, rs: seq<Recipient>, ix: OuterInstruction) {
    && (ix.data == [] || ix.data == [0] || ix.data == [1])
    && |ix.keys| >= 6 && feePayer == Some(ix.keys[0])
    && p.send.recipient == Base58(ix.keys[2]) && p.send.tokenMint == Some(Base58(ix.keys[3]))
    && var owner: seq<Byte>, mint: seq<Byte>, token: seq<Byte> := ix.keys[2], ix.keys[3], ix.keys[5];
    && ix.keys[1] == env.find(owner + token + mint, ATA_PROGRAM).0
    && PaidInto(rs, ix.keys[1], ix.keys[5])
  }

  ghost predicate AccountOpened(env: Env, ixs: seq<OuterInstruction>, p: Params, feePayer: Option<Key>,
      rs: seq<Recipient>)
  {
    && AtMostOncePlaced(env.programId, ixs, AtaCreate)
    && forall i: nat :: i < |ixs| && KindOf(env.programId, ixs[i]) == AtaCreate ==>
        OpensAccount(env, p, feePayer, rs, ixs[i])
  }

  // A member creates a proposal of the multisig that debits the vault asked for.
  predicate Creates(env: Env, p: Params, multisig: Key, ix: OuterInstruction, m: TransactionMessage) {
    && |ix.keys| >= 4 && ix.keys[0] == multisig && Base58(ix.keys[2]) in p.members
    && |ix.data| >= 9 && CreateMessage(ix.data) == Some((ix.data[8], m)) && ix.data[8] == p.vaultIndex
    && m.accountKeys != []
    && m.accountKeys[0] == env.find([118, 97, 117, 108, 116] + multisig + [ix.data[8]], env.programId).0
  }

  // One recipient, who is to have that amount of that asset, and a fee within its cap.
  predicate OnlyTheSend(env: Env, p: Params, v: View) {
    var e := ExpectedRecipient(p.send.recipient, p.send.amount);
    var x := Expectation([e], p.send.tokenMint, p.send.tokenDecimals, p.maxFee, p.expectedFeePayer);
    && v.unknown == 0 && FeeWithin(v, x)
    && |v.recipients| == 1 && Serves(env, v.recipients[0], e) && InAsset(v.recipients[0], x)
    && (v.recipients[0].Spl? ==> v.recipients[0].ataVerified == Some(true))
  }

  // The view displays the message, its token accounts as the recipient's if tokens are sent.
  ghost predicate DisplaysSend(env: Env, p: Params, feePayer: Option<Key>, m: TransactionMessage, v: View) {
    var who := if p.send.tokenMint == None then Attribution(None, None)
               else Attribution(Some(p.send.recipient), p.send.tokenMint);
    DisplaysMessage(env, m, feePayer, true, who, v)
  }

  // All of them, the create standing at position c.
  ghost predicate RulesKept(env: Env, outer: Outer, p: Params, v: View, c: nat, m: TransactionMessage) {
    var program, ixs := env.programId, outer.instructions;
    && AskedClearly(p) && PaidByOutsider(p, outer.feePayer)
    && NoStrangers(program, ixs) && NonceFirst(program, ixs) && BudgetsKept(program, ixs, p.caps)
    && OnlyAt(program, ixs, Create, c) && Creates(env, p, p.multisig.key, ixs[c], m)
    && VotesKept(program, ixs, p, p.multisig.key, ixs[c].keys[1])
    && OnceOnIt(program, ixs, Execute, p.multisig.key, ixs[c].keys[1])
    && OnceOnIt(program, ixs, Close, p.multisig.key, ixs[c].keys[1])
    && AccountOpened(env, ixs, p, outer.feePayer, v.recipients)
    && DisplaysSend(env, p, outer.feePayer, m, v) && OnlyTheSend(env, p, v)
  }

  // ---- each rule is the gate's ----

  lemma IdentifiedMeans(p: Params)
    ensures Identified(p) <==> AskedClearly(p)
  {}

  lemma FeePayerMeans(p: Params, feePayer: Option<Key>)
    ensures FeePayerFits(p, feePayer) <==> PaidByOutsider(p, feePayer)
  {}

  lemma StrangersMean(program: Key, ixs: seq<OuterInstruction>)
    ensures Positions(program, ixs, Alien) == [] <==> NoStrangers(program, ixs)
  {
    if Positions(program, ixs, Alien) == [] {
      forall i: nat | i < |ixs| ensures KindOf(program, ixs[i]) != Alien { InOneBucket(program, ixs, Alien, i); }
    } else {
      InOneBucket(program, ixs, Alien, Positions(program, ixs, Alien)[0]);
    }
  }

  lemma NonceMeans(program: Key, ixs: seq<OuterInstruction>)
    ensures NonceFits(Positions(program, ixs, NonceAdvance)) <==> NonceFirst(program, ixs)
  {
    EachMeans(program, ixs, NonceAdvance, AsIndex, (i: nat) => i == 0);
    AtMostOneMeans(program, ixs, NonceAdvance, AsIndex);
    var at := Positions(program, ixs, NonceAdvance);
    assert EachEntry(at, (i: nat) => i == 0) <==> forall q | 0 <= q < |at| :: at[q] == 0;
  }

  lemma BudgetsMean(program: Key, ixs: seq<OuterInstruction>, caps: BudgetCaps)
    ensures BudgetsFit(Collect(program, ixs, ComputeBudget, AsBudget), caps) <==> BudgetsKept(program, ixs, caps)
  {
    var cbs := Collect(program, ixs, ComputeBudget, AsBudget);
    var capped, apart := (cb: ComputeBudgetIx) => Capped(cb, caps),
                         (x: ComputeBudgetIx, y: ComputeBudgetIx) => x.tag != y.tag;
    EachMeans(program, ixs, ComputeBudget, AsBudget, capped);
    PairsMean(program, ixs, ComputeBudget, AsBudget, apart);
    assert BudgetsFit(cbs, caps) <==> EachEntry(cbs, capped) && PairEntries(cbs, apart);
    forall i: nat | i < |ixs|
      ensures capped(AsBudget(i, ixs[i])) <==> LimitWithin(ixs[i].data, caps) || PriceWithin(ixs[i].data, caps)
    {
      CapsMean(ixs[i].data, caps);
    }
  }

  lemma VotesMean(program: Key, ixs: seq<OuterInstruction>, p: Params, transaction: Key)
    requires p.multisig.Base58?
    ensures ApprovesFit(p, Collect(program, ixs, Approve, AsMultisig), transaction)
            <==> VotesKept(program, ixs, p, p.multisig.key, transaction)
  {
    var list := Collect(program, ixs, Approve, AsMultisig);
    var fits := (a: MultisigIx) => ApproveFits(p, a, transaction);
    var apart := (x: MultisigIx, y: MultisigIx) => |x.keys| >= 3 && |y.keys| >= 3 ==> x.keys[2] != y.keys[2];
    EachMeans(program, ixs, Approve, AsMultisig, fits);
    PairsMean(program, ixs, Approve, AsMultisig, apart);
    assert ApprovesFit(p, list, transaction) <==>
             EachEntry(list, fits) && PairEntries(list, apart) && SignerIn(list, p.signer);
    SignerMeans(program, ixs, p.signer);
  }

  ghost predicate SignerIn(list: seq<MultisigIx>, signer: Address) {
    exists q :: 0 <= q < |list| && |list[q].keys| >= 3 && Base58(list[q].keys[2]) == signer
  }

  lemma SignerMeans(program: Key, ixs: seq<OuterInstruction>, signer: Address)
    ensures SignerIn(Collect(program, ixs, Approve, AsMultisig), signer) <==>
              exists i: nat :: i < |ixs| && KindOf(program, ixs[i]) == Approve && |ixs[i].keys| >= 3
                               && Base58(ixs[i].keys[2]) == signer
  {
    var list := Collect(program, ixs, Approve, AsMultisig);
    if SignerIn(list, signer) {
      var q :| 0 <= q < |list| && |list[q].keys| >= 3 && Base58(list[q].keys[2]) == signer;
      var i := PlaceOf(program, ixs, Approve, AsMultisig, q);
    }
    if i: nat :| i < |ixs| && KindOf(program, ixs[i]) == Approve && |ixs[i].keys| >= 3
                 && Base58(ixs[i].keys[2]) == signer {
      var q := EntryAt(program, ixs, Approve, AsMultisig, i);
    }
  }

  lemma FollowUpsMean(program: Key, ixs: seq<OuterInstruction>, kind: Kind, multisig: Key, transaction: Key)
    ensures AtMostOne(Collect(program, ixs, kind, AsMultisig), multisig, transaction)
            <==> OnceOnIt(program, ixs, kind, multisig, transaction)
  {
    var list := Collect(program, ixs, kind, AsMultisig);
    var onIt := (a: MultisigIx) => Targets(a, multisig, transaction);
    EachMeans(program, ixs, kind, AsMultisig, onIt);
    AtMostOneMeans(program, ixs, kind, AsMultisig);
    assert AtMostOne(list, multisig, transaction) <==> |list| <= 1 && EachEntry(list, onIt);
  }

  lemma {:induction false} DestinationMeans(rs: seq<Recipient>, account: Key, token: Key)
    ensures var r := Destination(rs, Some(account));
            r.Some? && r.value.tokenProgram == token <==> PaidInto(rs, account, token)
  {
    if rs == [] {
    } else {
      DestinationMeans(rs[1..], account, token);
      if rs[0].Spl? && rs[0].ata == account {
        if rs[0].tokenProgram == token { assert PaidInto(rs, account, token); }
      } else {
        PaidIntoRest(rs, account, token);
      }
    }
  }

  lemma PaidIntoRest(rs: seq<Recipient>, account: Key, token: Key)
    requires rs != [] && !(rs[0].Spl? && rs[0].ata == account)
    ensures PaidInto(rs, account, token) <==> PaidInto(rs[1..], account, token)
  {
    if PaidInto(rs, account, token) {
      var q :| 0 <= q < |rs| && rs[q].Spl? && rs[q].ata == account && rs[q].tokenProgram == token
               && forall o | 0 <= o < q :: rs[o].Spl? ==> rs[o].ata != account;
      assert rs[1..][q - 1] == rs[q];
    }
    if PaidInto(rs[1..], account, token) {
      var q :| 0 <= q < |rs[1..]| && rs[1..][q].Spl? && rs[1..][q].ata == account && rs[1..][q].tokenProgram == token
               && forall o | 0 <= o < q :: rs[1..][o].Spl? ==> rs[1..][o].ata != account;
      forall o | 0 <= o < q + 1 ensures rs[o].Spl? ==> rs[o].ata != account {
        if o > 0 { assert rs[1..][o - 1] == rs[o]; }
      }
      assert rs[q + 1] == rs[1..][q];
    }
  }

  lemma AccountMeans(env: Env, p: Params, feePayer: Option<Key>, rs: seq<Recipient>, i: nat, ix: OuterInstruction)
    ensures AtaCreateFits(env, p, AsAtaCreate(i, ix), rs, feePayer) <==> OpensAccount(env, p, feePayer, rs, ix)
  {
    if |ix.keys| >= 6 { DestinationMeans(rs, ix.keys[1], ix.keys[5]); }
  }

  lemma AccountsMean(env: Env, ixs: seq<OuterInstruction>, p: Params, feePayer: Option<Key>, rs: seq<Recipient>)
    ensures AtaCreatesFit(env, p, Collect(env.programId, ixs, AtaCreate, AsAtaCreate), rs, feePayer)
            <==> AccountOpened(env, ixs, p, feePayer, rs)
  {
    var atas := Collect(env.programId, ixs, AtaCreate, AsAtaCreate);
    var fits := (ata: AtaCreateIx) => AtaCreateFits(env, p, ata, rs, feePayer);
    EachMeans(env.programId, ixs, AtaCreate, AsAtaCreate, fits);
    AtMostOneMeans(env.programId, ixs, AtaCreate, AsAtaCreate);
    assert AtaCreatesFit(env, p, atas, rs, feePayer) <==> |atas| <= 1 && EachEntry(atas, fits);
    forall i: nat | i < |ixs|
      ensures fits(AsAtaCreate(i, ixs[i])) <==> OpensAccount(env, p, feePayer, rs, ixs[i])
    {
      AccountMeans(env, p, feePayer, rs, i, ixs[i]);
    }
  }

  // The accounts a create names, and the vault its message debits, from the message it carries.
  predicate DebitsVault(env: Env, p: Params, c: InnerMessage)
    requires p.multisig.Base58?
  {
    && c.vaultIndex == p.vaultIndex && c.accountKeys != []
    && c.accountKeys[0] == VaultKey(env, p.multisig.key, p.vaultIndex)
  }

  lemma VaultAt(env: Env, multisig: Key, vaultIndex: Byte)
    ensures VaultKey(env, multisig, vaultIndex)
            == env.find([118, 97, 117, 108, 116] + multisig + [vaultIndex], env.programId).0
  {
    AddressesDerived(env, [], 0, multisig, vaultIndex, 0);
  }

  lemma DebitsMeans(env: Env, p: Params, data: seq<Byte>, vaultIndex: Byte, m: TransactionMessage)
    requires p.multisig.Base58? && CreateMessage(data) == Some((vaultIndex, m))
    ensures |data| >= 9 && data[8] == vaultIndex
    ensures DebitsVault(env, p, InnerOf(data)) <==>
              && vaultIndex == p.vaultIndex && m.accountKeys != []
              && m.accountKeys[0]
                 == env.find([118, 97, 117, 108, 116] + p.multisig.key + [vaultIndex], env.programId).0
  {
    VaultAt(env, p.multisig.key, vaultIndex);
  }

  lemma CreateMeans(env: Env, p: Params, i: nat, ix: OuterInstruction)
    requires p.multisig.Base58?
    ensures CreateMessage(ix.data).Some? && CreateFits(env, p, AsCreate(i, ix))
            <==> exists m :: Creates(env, p, p.multisig.key, ix, m)
  {
    match CreateMessage(ix.data)
    case None =>
    case Some((vaultIndex, m)) =>
      DebitsMeans(env, p, ix.data, vaultIndex, m);
      assert Creates(env, p, p.multisig.key, ix, m) <==> CreateFits(env, p, AsCreate(i, ix));
  }

  // What an accepted create decodes to is the message it carries.
  lemma OneDecodes(program: Key, ixs: seq<OuterInstruction>, c: nat)
    requires OnlyAt(program, ixs, Create, c)
    ensures CreatesDecode(program, ixs) <==> CreateMessage(ixs[c].data).Some?
  {
    assert CreateDecodes(program, ixs[c]) <==> CreateMessage(ixs[c].data).Some?;
    if CreateMessage(ixs[c].data).Some? {
      forall i | 0 <= i < |ixs| ensures CreateDecodes(program, ixs[i]) {
        if KindOf(program, ixs[i]) == Create { assert i == c; }
      }
    }
  }

  lemma OnlySendMeans(env: Env, p: Params, v: View)
    ensures FlowsAccepted(env, v, Wanted(p)) && AtaVerified(v.recipients) <==> OnlyTheSend(env, p, v)
    ensures OnlyTheSend(env, p, v) ==> Who(p).Readable()
  {
    FlowsMean(env, v, Wanted(p));
    OnePairedIff(env, v.recipients, ExpectedRecipient(p.send.recipient, p.send.amount));
  }

  lemma DisplayMeans(env: Env, p: Params, feePayer: Option<Key>, vaultIndex: Byte, m: TransactionMessage, v: View)
    requires m.accountKeys != [] && Who(p).Readable()
    ensures DisplaysSend(env, p, feePayer, m, v)
            <==> ShowsMessage(env, Abridged(vaultIndex, m), feePayer, true, Who(p), v)
  {
    DisplaysMessageIff(env, m, vaultIndex, feePayer, true, Who(p), v);
  }

  // The buckets fit iff the instructions keep the rules, the create standing at c.
  lemma OuterMeans(env: Env, outer: Outer, p: Params, rs: seq<Recipient>, c: nat)
    requires p.multisig.Base58? && OnlyAt(env.programId, outer.instructions, Create, c)
    requires |outer.instructions[c].keys| >= 4
    ensures var b := Bundled(env.programId, outer.feePayer, outer.instructions);
            var program, ixs := env.programId, outer.instructions;
            OuterFits(env, p, b, rs) <==>
              && CreateFits(env, p, AsCreate(c, ixs[c]))
              && NoStrangers(program, ixs) && NonceFirst(program, ixs) && BudgetsKept(program, ixs, p.caps)
              && VotesKept(program, ixs, p, p.multisig.key, ixs[c].keys[1])
              && OnceOnIt(program, ixs, Execute, p.multisig.key, ixs[c].keys[1])
              && OnceOnIt(program, ixs, Close, p.multisig.key, ixs[c].keys[1])
              && AccountOpened(env, ixs, p, outer.feePayer, rs)
  {
    var program, ixs := env.programId, outer.instructions;
    BundledParses(program, outer.feePayer, ixs);
    OnlyMeans(program, ixs, Create, AsCreate, c);
    StrangersMean(program, ixs);
    NonceMeans(program, ixs);
    BudgetsMean(program, ixs, p.caps);
    VotesMean(program, ixs, p, ixs[c].keys[1]);
    FollowUpsMean(program, ixs, Execute, p.multisig.key, ixs[c].keys[1]);
    FollowUpsMean(program, ixs, Close, p.multisig.key, ixs[c].keys[1]);
    AccountsMean(env, ixs, p, outer.feePayer, rs);
  }

  lemma KeepingIsAccepted(env: Env, outer: Outer, p: Params, v: View, c: nat, m: TransactionMessage)
    requires RulesKept(env, outer, p, v, c, m)
    ensures ConsumerAccepts(env, outer, p, v)
  {
    var program, ixs := env.programId, outer.instructions;
    IdentifiedMeans(p);
    FeePayerMeans(p, outer.feePayer);
    CreateMeans(env, p, c, ixs[c]);
    OneDecodes(program, ixs, c);
    OnlyMeans(program, ixs, Create, AsCreate, c);
    BundledParses(program, outer.feePayer, ixs);
    OuterMeans(env, outer, p, v.recipients, c);
    OnlySendMeans(env, p, v);
    DisplayMeans(env, p, outer.feePayer, ixs[c].data[8], m, v);
  }

  lemma AcceptedIsKept(env: Env, outer: Outer, p: Params, v: View) returns (c: nat, m: TransactionMessage)
    requires ConsumerAccepts(env, outer, p, v)
    ensures RulesKept(env, outer, p, v, c, m)
  {
    var program, ixs := env.programId, outer.instructions;
    IdentifiedMeans(p);
    FeePayerMeans(p, outer.feePayer);
    BundledParses(program, outer.feePayer, ixs);
    c := PlaceOf(program, ixs, Create, AsCreate, 0);
    OnlyMeans(program, ixs, Create, AsCreate, c);
    OneDecodes(program, ixs, c);
    CreateMeans(env, p, c, ixs[c]);
    m := CreateMessage(ixs[c].data).value.1;
    OuterMeans(env, outer, p, v.recipients, c);
    OnlySendMeans(env, p, v);
    DisplayMeans(env, p, outer.feePayer, ixs[c].data[8], m, v);
  }

  // The gate accepts a transaction, with this view of it, iff its instructions keep every rule.
  lemma ConsumerAcceptsIff(env: Env, outer: Outer, p: Params, v: View)
    ensures ConsumerAccepts(env, outer, p, v) <==> exists c, m :: RulesKept(env, outer, p, v, c, m)
  {
    if ConsumerAccepts(env, outer, p, v) {
      var c, m := AcceptedIsKept(env, outer, p, v);
    }
    if c, m :| RulesKept(env, outer, p, v, c, m) {
      KeepingIsAccepted(env, outer, p, v, c, m);
    }
  }

  // What is handed back: the multisig asked about, its vault, the proposal the
  // create names, and the memos of the message it carries.
  lemma ReportedMeans(env: Env, outer: Outer, p: Params, r: Verified) returns (c: nat, m: TransactionMessage)
    requires CreatesDecode(env.programId, outer.instructions)
             && ReportsBundle(env, p, Bundled(env.programId, outer.feePayer, outer.instructions), r)
    ensures OnlyAt(env.programId, outer.instructions, Create, c)
    ensures var ix := outer.instructions[c];
            && |ix.data| >= 9 && CreateMessage(ix.data) == Some((ix.data[8], m))
            && p.multisig == Base58(r.multisig) && |ix.keys| >= 2 && r.transaction == ix.keys[1]
            && r.memos == Notes(env, m.accountKeys, m.instructions)
    ensures var index: Byte := p.vaultIndex % 256;
            r.vault == env.find([118, 97, 117, 108, 116] + r.multisig + [index], env.programId).0
  {
    var program, ixs := env.programId, outer.instructions;
    BundledParses(program, outer.feePayer, ixs);
    c := PlaceOf(program, ixs, Create, AsCreate, 0);
    OnlyMeans(program, ixs, Create, AsCreate, c);
    OneDecodes(program, ixs, c);
    m := CreateMessage(ixs[c].data).value.1;
    NotesTallied(env, m.accountKeys, outer.feePayer, true, m.instructions);
    VaultAt(env, r.multisig, p.vaultIndex % 256);
  }
}
