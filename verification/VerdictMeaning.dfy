/** What the decoder's verdicts mean in the bytes of an inner message, and what the
    tallies it displays count, with no reference to how it decides. */
module VerdictMeaning {
  import opened Wrappers
  import opened Bytes
  import opened State
  import opened Reader
  import opened Pda
  import opened Ids
  import opened Classifier
  import opened FundFlows

  // ---- instructions by their bytes ----

  predicate Calls(keys: seq<Key>, ix: CompiledInstruction, program: Key) {
    ix.programIdIndex < |keys| && keys[ix.programIdIndex] == program
  }

  // The j-th account of the instruction is this key.
  predicate Lists(keys: seq<Key>, ix: CompiledInstruction, j: nat, k: Key) {
    && j < |ix.accountIndexes| && ix.accountIndexes[j] < |keys| && keys[ix.accountIndexes[j]] == k
  }

  // The j-th account of the instruction is one of the message's keys.
  predicate HasAccount(keys: seq<Key>, ix: CompiledInstruction, j: nat) {
    j < |ix.accountIndexes| && ix.accountIndexes[j] < |keys|
  }

  // A System transfer: a u32 tag of 2 and the lamports; accounts from, to.
  // The first key of the message is the vault, which pays.
  predicate VaultPaysLamports(keys: seq<Key>, ix: CompiledInstruction) {
    && keys != [] && Calls(keys, ix, SYSTEM_PROGRAM)
    && |ix.data| == 12 && ix.data[..4] == [2, 0, 0, 0]
    && Lists(keys, ix, 0, keys[0]) && HasAccount(keys, ix, 1)
  }

  predicate MovesLamports(keys: seq<Key>, ix: CompiledInstruction, to: Key, amount: nat) {
    VaultPaysLamports(keys, ix) && Lists(keys, ix, 1, to) && amount == Value(ix.data[4..12])
  }

  // A TransferChecked of either token program: tag 12, the amount, the decimals;
  // accounts source, mint, destination, authority. The vault is the authority.
  predicate VaultPaysTokens(keys: seq<Key>, ix: CompiledInstruction) {
    && keys != [] && (Calls(keys, ix, TOKEN_PROGRAM) || Calls(keys, ix, TOKEN_2022_PROGRAM))
    && |ix.data| == 10 && ix.data[0] == 12
    && HasAccount(keys, ix, 1) && HasAccount(keys, ix, 2) && Lists(keys, ix, 3, keys[0])
  }

  predicate MovesTokens(keys: seq<Key>, ix: CompiledInstruction, token: Key, mint: Key, to: Key, amount: nat,
      decimals: Byte)
  {
    && VaultPaysTokens(keys, ix) && Calls(keys, ix, token) && Lists(keys, ix, 1, mint) && Lists(keys, ix, 2, to)
    && amount == Value(ix.data[1..9]) && decimals == ix.data[9]
  }

  // A memo by nobody: no accounts, and data that is text.
  predicate IsNote(env: Env, keys: seq<Key>, ix: CompiledInstruction) {
    Calls(keys, ix, MEMO_PROGRAM) && ix.accountIndexes == [] && env.isText(ix.data)
  }

  // Everything the decoder takes an instruction for.
  predicate Recognised(env: Env, keys: seq<Key>, allowMemo: bool, ix: CompiledInstruction) {
    VaultPaysLamports(keys, ix) || VaultPaysTokens(keys, ix) || (allowMemo && IsNote(env, keys, ix))
  }

  // The instruction pays this recipient, who is not the fee payer being reimbursed.
  predicate Pays(keys: seq<Key>, feePayer: Option<Key>, ix: CompiledInstruction, r: Recipient) {
    match r
    case Native(to, amount) => MovesLamports(keys, ix, to, amount) && feePayer != Some(to)
    case Spl(address, ata, ataVerified, amount, mint, decimals, token) =>
      address == ata && ataVerified == None && MovesTokens(keys, ix, token, mint, ata, amount, decimals)
  }

  ghost predicate PaysSomeone(keys: seq<Key>, feePayer: Option<Key>, ix: CompiledInstruction) {
    exists r :: Pays(keys, feePayer, ix, r)
  }

  predicate ReimbursesFee(keys: seq<Key>, feePayer: Option<Key>, ix: CompiledInstruction, amount: nat) {
    feePayer.Some? && MovesLamports(keys, ix, feePayer.value, amount)
  }

  // ---- what each verdict says of its instruction ----

  lemma TransferTag(d: seq<Byte>)
    requires |d| >= 4
    ensures Value(d[0..4]) == 2 <==> d[..4] == [2, 0, 0, 0]
    ensures Value(d[0..4]) == 4 <==> d[..4] == [4, 0, 0, 0]
  {
    FourBytes(d[0..4]);
  }

  lemma ProgramsDiffer()
    ensures SYSTEM_PROGRAM[0] == 0 && TOKEN_PROGRAM[0] == TOKEN_2022_PROGRAM[0] == 6 && MEMO_PROGRAM[0] == 5
    ensures ATA_PROGRAM[0] == 140 && COMPUTE_BUDGET_PROGRAM[0] == 3
  {}

  lemma TransferJudgedSo(env: Env, keys: seq<Key>, feePayer: Option<Key>, allowMemo: bool, ix: CompiledInstruction)
    requires keys != [] && VaultPaysLamports(keys, ix)
    ensures var to, amount := keys[ix.accountIndexes[1]], U64At(ix.data, 4);
            && amount == Value(ix.data[4..12])
            && Judge(env, keys, feePayer, allowMemo, ix)
               == (if feePayer == Some(to) then Fee(amount) else Paid(Native(to, amount)))
  {
    TransferTag(ix.data);
  }

  lemma TokensJudgedSo(env: Env, keys: seq<Key>, feePayer: Option<Key>, allowMemo: bool, ix: CompiledInstruction)
    requires keys != [] && VaultPaysTokens(keys, ix)
    ensures var to, mint, amount := keys[ix.accountIndexes[2]], keys[ix.accountIndexes[1]], U64At(ix.data, 1);
            && amount == Value(ix.data[1..9])
            && Judge(env, keys, feePayer, allowMemo, ix)
               == Paid(Spl(to, to, None, amount, mint, ix.data[9], keys[ix.programIdIndex]))
  {
    ProgramsDiffer();
  }

  lemma RestJudgedSo(env: Env, keys: seq<Key>, feePayer: Option<Key>, allowMemo: bool, ix: CompiledInstruction)
    requires keys != [] && !VaultPaysLamports(keys, ix) && !VaultPaysTokens(keys, ix)
    ensures Judge(env, keys, feePayer, allowMemo, ix)
            == (if allowMemo && IsNote(env, keys, ix) then Note(ix.data) else Unknown)
  {
    ProgramsDiffer();
    if |ix.data| >= 4 { TransferTag(ix.data); }
  }

  // A verdict is given exactly when the bytes of the instruction say so.
  lemma VerdictMeans(env: Env, keys: seq<Key>, feePayer: Option<Key>, allowMemo: bool, ix: CompiledInstruction,
      v: Verdict)
    requires keys != []
    ensures Judge(env, keys, feePayer, allowMemo, ix) == v <==>
              match v
              case Paid(r) => Pays(keys, feePayer, ix, r)
              case Fee(amount) => ReimbursesFee(keys, feePayer, ix, amount)
              case Note(text) => allowMemo && IsNote(env, keys, ix) && text == ix.data
              case Unknown => !Recognised(env, keys, allowMemo, ix)
  {
    ProgramsDiffer();
    if VaultPaysLamports(keys, ix) {
      TransferJudgedSo(env, keys, feePayer, allowMemo, ix);
    } else if VaultPaysTokens(keys, ix) {
      TokensJudgedSo(env, keys, feePayer, allowMemo, ix);
    } else {
      RestJudgedSo(env, keys, feePayer, allowMemo, ix);
    }
  }

  // ---- what the tallies of a message count ----

  // The texts of its memos, in order.
  function Notes(env: Env, keys: seq<Key>, ixs: seq<CompiledInstruction>): seq<seq<Byte>> {
    if ixs == [] then [] else
    var n := |ixs| - 1;
    Notes(env, keys, ixs[..n]) + (if IsNote(env, keys, ixs[n]) then [ixs[n].data] else [])
  }

  // The positions of what nobody recognises.
  function Unrecognised(env: Env, keys: seq<Key>, allowMemo: bool, ixs: seq<CompiledInstruction>): set<nat> {
    set k: nat | k < |ixs| && !Recognised(env, keys, allowMemo, ixs[k])
  }

  // Lamports paid back to the fee payer.
  function Reimbursed(keys: seq<Key>, feePayer: Option<Key>, ixs: seq<CompiledInstruction>): nat {
    if ixs == [] then 0 else
    var n := |ixs| - 1;
    Reimbursed(keys, feePayer, ixs[..n])
    + (if VaultPaysLamports(keys, ixs[n]) && feePayer.Some? && Lists(keys, ixs[n], 1, feePayer.value)
       then Value(ixs[n].data[4..12]) else 0)
  }

  // These recipients are paid, in this order, and nobody else is.
  ghost predicate PaidInOrder(keys: seq<Key>, feePayer: Option<Key>, ixs: seq<CompiledInstruction>, rs: seq<Recipient>)
  {
    if ixs == [] then rs == [] else
    var n, last := |ixs| - 1, |rs| - 1;
    if PaysSomeone(keys, feePayer, ixs[n])
    then rs != [] && Pays(keys, feePayer, ixs[n], rs[last]) && PaidInOrder(keys, feePayer, ixs[..n], rs[..last])
    else PaidInOrder(keys, feePayer, ixs[..n], rs)
  }

  lemma {:induction false} NotesTallied(env: Env, keys: seq<Key>, feePayer: Option<Key>, allowMemo: bool,
      ixs: seq<CompiledInstruction>)
    requires keys != []
    ensures MemosOf(JudgeAll(env, keys, feePayer, allowMemo, ixs)) == if allowMemo then Notes(env, keys, ixs) else []
  {
    if ixs == [] {
    } else {
      var n := |ixs| - 1;
      NotesTallied(env, keys, feePayer, allowMemo, ixs[..n]);
      var v := Judge(env, keys, feePayer, allowMemo, ixs[n]);
      TallySnoc(JudgeAll(env, keys, feePayer, allowMemo, ixs[..n]), v);
      VerdictMeans(env, keys, feePayer, allowMemo, ixs[n], Note(ixs[n].data));
      VerdictMeans(env, keys, feePayer, allowMemo, ixs[n], v);
      OneVerdict(v);
    }
  }

  lemma OneVerdict(v: Verdict)
    ensures MemosOf([v]) == if v.Note? then [v.text] else []
    ensures RecipientsOf([v]) == if v.Paid? then [v.r] else []
    ensures FeesOf([v]) == if v.Fee? then v.amount else 0
    ensures UnknownsOf([v]) == if v.Unknown? then 1 else 0
  {
    assert [v][..0] == [];
  }

  lemma UnrecognisedSnoc(env: Env, keys: seq<Key>, allowMemo: bool, ixs: seq<CompiledInstruction>, n: nat)
    requires |ixs| == n + 1
    ensures |Unrecognised(env, keys, allowMemo, ixs)|
            == |Unrecognised(env, keys, allowMemo, ixs[..n])|
               + (if Recognised(env, keys, allowMemo, ixs[n]) then 0 else 1)
  {
    var before, after := Unrecognised(env, keys, allowMemo, ixs[..n]), Unrecognised(env, keys, allowMemo, ixs);
    forall k: nat ensures k in after <==> k in before || (k == n && !Recognised(env, keys, allowMemo, ixs[n])) {
      if k < n { assert ixs[..n][k] == ixs[k]; }
    }
    assert after == before + (if Recognised(env, keys, allowMemo, ixs[n]) then {} else {n});
  }

  lemma {:induction false} UnknownTallied(env: Env, keys: seq<Key>, feePayer: Option<Key>, allowMemo: bool,
      ixs: seq<CompiledInstruction>)
    requires keys != []
    ensures UnknownsOf(JudgeAll(env, keys, feePayer, allowMemo, ixs)) == |Unrecognised(env, keys, allowMemo, ixs)|
  {
    if ixs == [] {
      assert Unrecognised(env, keys, allowMemo, ixs) == {};
    } else {
      var n := |ixs| - 1;
      UnknownTallied(env, keys, feePayer, allowMemo, ixs[..n]);
      var v := Judge(env, keys, feePayer, allowMemo, ixs[n]);
      TallySnoc(JudgeAll(env, keys, feePayer, allowMemo, ixs[..n]), v);
      VerdictMeans(env, keys, feePayer, allowMemo, ixs[n], Unknown);
      OneVerdict(v);
      UnrecognisedSnoc(env, keys, allowMemo, ixs, n);
    }
  }

  lemma {:induction false} FeesTallied(env: Env, keys: seq<Key>, feePayer: Option<Key>, allowMemo: bool,
      ixs: seq<CompiledInstruction>)
    requires keys != []
    ensures FeesOf(JudgeAll(env, keys, feePayer, allowMemo, ixs)) == Reimbursed(keys, feePayer, ixs)
  {
    if ixs == [] {
    } else {
      var n := |ixs| - 1;
      FeesTallied(env, keys, feePayer, allowMemo, ixs[..n]);
      var v := Judge(env, keys, feePayer, allowMemo, ixs[n]);
      TallySnoc(JudgeAll(env, keys, feePayer, allowMemo, ixs[..n]), v);
      VerdictMeans(env, keys, feePayer, allowMemo, ixs[n], v);
      if VaultPaysLamports(keys, ixs[n]) { TransferJudgedSo(env, keys, feePayer, allowMemo, ixs[n]); }
      OneVerdict(v);
    }
  }

  // What a verdict says of who is paid.
  lemma VerdictPays(env: Env, keys: seq<Key>, feePayer: Option<Key>, allowMemo: bool, ix: CompiledInstruction)
    requires keys != []
    ensures var v := Judge(env, keys, feePayer, allowMemo, ix);
            && (v.Paid? ==> Pays(keys, feePayer, ix, v.r))
            && (!v.Paid? ==> !PaysSomeone(keys, feePayer, ix))
  {
    var v := Judge(env, keys, feePayer, allowMemo, ix);
    VerdictMeans(env, keys, feePayer, allowMemo, ix, v);
    forall r | Pays(keys, feePayer, ix, r) ensures v == Paid(r) {
      VerdictMeans(env, keys, feePayer, allowMemo, ix, Paid(r));
    }
  }

  lemma PaidSnoc(keys: seq<Key>, feePayer: Option<Key>, ixs: seq<CompiledInstruction>, rs: seq<Recipient>,
      paid: seq<Recipient>)
    requires ixs != [] && PaidInOrder(keys, feePayer, ixs[..|ixs| - 1], rs) && |paid| <= 1
    requires paid != [] ==> Pays(keys, feePayer, ixs[|ixs| - 1], paid[0])
    requires paid == [] ==> !PaysSomeone(keys, feePayer, ixs[|ixs| - 1])
    ensures PaidInOrder(keys, feePayer, ixs, rs + paid)
  {
    if paid == [] {
      assert rs + paid == rs;
    } else {
      assert (rs + paid)[..|rs|] == rs;
    }
  }

  lemma {:induction false} PaidTallied(env: Env, keys: seq<Key>, feePayer: Option<Key>, allowMemo: bool,
      ixs: seq<CompiledInstruction>)
    requires keys != []
    ensures PaidInOrder(keys, feePayer, ixs, RecipientsOf(JudgeAll(env, keys, feePayer, allowMemo, ixs)))
  {
    if ixs == [] {
    } else {
      var n := |ixs| - 1;
      PaidTallied(env, keys, feePayer, allowMemo, ixs[..n]);
      var before := JudgeAll(env, keys, feePayer, allowMemo, ixs[..n]);
      var v := Judge(env, keys, feePayer, allowMemo, ixs[n]);
      TallySnoc(before, v);
      OneVerdict(v);
      VerdictPays(env, keys, feePayer, allowMemo, ixs[n]);
      PaidSnoc(keys, feePayer, ixs, RecipientsOf(before), RecipientsOf([v]));
    }
  }

  // What the classifier returns for a message, in terms of its bytes.
  lemma TallyMeans(env: Env, inner: InnerMessage, feePayer: Option<Key>, allowMemo: bool, c: Classification)
    requires inner.accountKeys != []
    requires Tallied(JudgeAll(env, inner.accountKeys, feePayer, allowMemo, inner.instructions), c,
                     inner.addressTableLookupCount)
    ensures var keys, ixs := inner.accountKeys, inner.instructions;
            && PaidInOrder(keys, feePayer, ixs, c.recipients) && c.feeLamports == Reimbursed(keys, feePayer, ixs)
            && c.unknown == |Unrecognised(env, keys, allowMemo, ixs)| + inner.addressTableLookupCount
            && c.memos == (if allowMemo then Notes(env, keys, ixs) else [])
  {
    PaidTallied(env, inner.accountKeys, feePayer, allowMemo, inner.instructions);
    FeesTallied(env, inner.accountKeys, feePayer, allowMemo, inner.instructions);
    UnknownTallied(env, inner.accountKeys, feePayer, allowMemo, inner.instructions);
    NotesTallied(env, inner.accountKeys, feePayer, allowMemo, inner.instructions);
  }

  // ---- what is on display ----

  // A token account is credited to the owner asked about if it is one of the
  // owner's two associated accounts, and otherwise marked as not his.
  predicate ShownAs(env: Env, r: Recipient, who: Attribution, shown: Recipient) {
    if r.Native? || who.owner.None? || who.mint.None? then shown == r
    else
      && who.owner.value.Base58? && who.mint.value.Base58?
      && var owner, mint := who.owner.value.key, who.mint.value.key;
      var his := r.ata in {env.find(owner + TOKEN_PROGRAM + mint, ATA_PROGRAM).0,
                           env.find(owner + TOKEN_2022_PROGRAM + mint, ATA_PROGRAM).0};
      shown == Spl(if his then owner else r.ata, r.ata, Some(his), r.amount, r.mint, r.decimals, r.tokenProgram)
  }

  ghost predicate ShownInOrder(env: Env, rs: seq<Recipient>, who: Attribution, shown: seq<Recipient>) {
    |shown| == |rs| && forall i | 0 <= i < |rs| :: ShownAs(env, rs[i], who, shown[i])
  }

  // The view of a message: whom it pays, as displayed; what it pays back; how
  // much of it, with its lookups, nobody recognises.
  lemma ViewMeans(env: Env, inner: InnerMessage, feePayer: Option<Key>, allowMemo: bool, who: Attribution, v: View)
      returns (rs: seq<Recipient>)
    requires who.Readable() && ShowsMessage(env, inner, feePayer, allowMemo, who, v)
    ensures var keys, ixs := inner.accountKeys, inner.instructions;
            && PaidInOrder(keys, feePayer, ixs, rs) && ShownInOrder(env, rs, who, v.recipients)
            && v.feeLamports == Reimbursed(keys, feePayer, ixs) && v.feePayer == feePayer
            && v.unknown == |Unrecognised(env, keys, allowMemo, ixs)| + inner.addressTableLookupCount
  {
    var vs := JudgeAll(env, inner.accountKeys, feePayer, allowMemo, inner.instructions);
    rs := RecipientsOf(vs);
    TallyMeans(env, inner, feePayer, allowMemo,
               Classification(rs, FeesOf(vs), UnknownsOf(vs) + inner.addressTableLookupCount, MemosOf(vs)));
  }

  // With nothing unknown there are no lookups, and every instruction is one of
  // the vault's own payments, or, where memos are allowed, a memo.
  lemma NothingUnknown(env: Env, inner: InnerMessage, feePayer: Option<Key>, allowMemo: bool, who: Attribution, v: View)
    requires ShowsMessage(env, inner, feePayer, allowMemo, who, v)
    ensures v.unknown == 0 <==>
              && inner.addressTableLookupCount == 0
              && forall k | 0 <= k < |inner.instructions| ::
                  Recognised(env, inner.accountKeys, allowMemo, inner.instructions[k])
  {
    var keys, ixs := inner.accountKeys, inner.instructions;
    UnknownTallied(env, keys, feePayer, allowMemo, ixs);
    var unknown := Unrecognised(env, keys, allowMemo, ixs);
    if unknown == {} {
      forall k | 0 <= k < |ixs| ensures Recognised(env, keys, allowMemo, ixs[k]) { assert k !in unknown; }
    } else {
      var k :| k in unknown;
    }
  }

  // Without memos allowed, nothing unknown leaves payments alone, and an empty memo list.
  lemma NoMemoPasses(env: Env, inner: InnerMessage, feePayer: Option<Key>, c: Classification, k: nat)
    requires inner.accountKeys != [] && k < |inner.instructions| && c.unknown == 0
    requires Tallied(JudgeAll(env, inner.accountKeys, feePayer, false, inner.instructions), c,
                     inner.addressTableLookupCount)
    ensures c.memos == []
    ensures VaultPaysLamports(inner.accountKeys, inner.instructions[k])
            || VaultPaysTokens(inner.accountKeys, inner.instructions[k])
  {
    TallyMeans(env, inner, feePayer, false, c);
    var unknown := Unrecognised(env, inner.accountKeys, false, inner.instructions);
    assert k !in unknown;
  }

  lemma {:induction false} NotesGrow(env: Env, keys: seq<Key>, ixs: seq<CompiledInstruction>, k: nat)
    requires k <= |ixs|
    ensures Notes(env, keys, ixs[..k]) <= Notes(env, keys, ixs)
    decreases |ixs|
  {
    if k == |ixs| {
      assert ixs[..k] == ixs;
    } else {
      var n := |ixs| - 1;
      NotesGrow(env, keys, ixs[..n], k);
      assert ixs[..n][..k] == ixs[..k];
    }
  }

  lemma NoteListed(env: Env, keys: seq<Key>, ixs: seq<CompiledInstruction>, k: nat)
    requires k < |ixs|
    ensures IsNote(env, keys, ixs[k]) ==> Notes(env, keys, ixs[..k]) + [ixs[k].data] <= Notes(env, keys, ixs)
  {
    NotesGrow(env, keys, ixs, k + 1);
    assert ixs[..k + 1][..k] == ixs[..k];
  }

  // With memos allowed, a memo without accounts is unknown iff its data is not
  // text; if it is, the data is the next entry of the memo list.
  lemma MemoIsTold(env: Env, inner: InnerMessage, feePayer: Option<Key>, c: Classification, k: nat)
    requires inner.accountKeys != [] && k < |inner.instructions|
    requires Calls(inner.accountKeys, inner.instructions[k], MEMO_PROGRAM)
             && inner.instructions[k].accountIndexes == []
    requires Tallied(JudgeAll(env, inner.accountKeys, feePayer, true, inner.instructions), c,
                     inner.addressTableLookupCount)
    ensures var keys, ixs, d := inner.accountKeys, inner.instructions, inner.instructions[k].data;
            && c.unknown == |Unrecognised(env, keys, true, ixs)| + inner.addressTableLookupCount
            && (k in Unrecognised(env, keys, true, ixs) <==> !env.isText(d))
            && (env.isText(d) ==> Notes(env, keys, ixs[..k]) + [d] <= c.memos)
  {
    ProgramsDiffer();
    TallyMeans(env, inner, feePayer, true, c);
    NoteListed(env, inner.accountKeys, inner.instructions, k);
  }

  // An instruction of any other program is always unknown.
  lemma OthersAreUnknown(env: Env, inner: InnerMessage, feePayer: Option<Key>, allowMemo: bool, c: Classification,
      k: nat)
    requires inner.accountKeys != [] && k < |inner.instructions|
    requires Tallied(JudgeAll(env, inner.accountKeys, feePayer, allowMemo, inner.instructions), c,
                     inner.addressTableLookupCount)
    requires forall program | program in {SYSTEM_PROGRAM, TOKEN_PROGRAM, TOKEN_2022_PROGRAM, MEMO_PROGRAM} ::
                !Calls(inner.accountKeys, inner.instructions[k], program)
    ensures k in Unrecognised(env, inner.accountKeys, allowMemo, inner.instructions) && c.unknown > 0
  {
    TallyMeans(env, inner, feePayer, allowMemo, c);
    var unknown := Unrecognised(env, inner.accountKeys, allowMemo, inner.instructions);
    assert k in unknown;
  }

  // ---- the view, exactly ----

  lemma PaysOne(keys: seq<Key>, feePayer: Option<Key>, ix: CompiledInstruction, r: Recipient, s: Recipient)
    requires Pays(keys, feePayer, ix, r) && Pays(keys, feePayer, ix, s)
    ensures r == s
  {
    ProgramsDiffer();
  }

  lemma {:induction false} PaidUnique(keys: seq<Key>, feePayer: Option<Key>, ixs: seq<CompiledInstruction>,
      rs: seq<Recipient>, ss: seq<Recipient>)
    requires PaidInOrder(keys, feePayer, ixs, rs) && PaidInOrder(keys, feePayer, ixs, ss)
    ensures rs == ss
  {
    if ixs == [] {
    } else {
      var n := |ixs| - 1;
      if PaysSomeone(keys, feePayer, ixs[n]) {
        PaysOne(keys, feePayer, ixs[n], rs[|rs| - 1], ss[|ss| - 1]);
        PaidUnique(keys, feePayer, ixs[..n], rs[..|rs| - 1], ss[..|ss| - 1]);
        assert rs == rs[..|rs| - 1] + [rs[|rs| - 1]] && ss == ss[..|ss| - 1] + [ss[|ss| - 1]];
      } else {
        PaidUnique(keys, feePayer, ixs[..n], rs, ss);
      }
    }
  }

  // The view displays a message of these keys, instructions and lookups.
  ghost predicate Displays(env: Env, keys: seq<Key>, ixs: seq<CompiledInstruction>, lookups: nat, feePayer: Option<Key>,
      allowMemo: bool, who: Attribution, v: View)
  {
    && v.feePayer == feePayer && v.feeLamports == Reimbursed(keys, feePayer, ixs)
    && v.unknown == |Unrecognised(env, keys, allowMemo, ixs)| + lookups
    && exists rs :: PaidInOrder(keys, feePayer, ixs, rs) && ShownInOrder(env, rs, who, v.recipients)
  }

  lemma DisplaysIff(env: Env, inner: InnerMessage, feePayer: Option<Key>, allowMemo: bool, who: Attribution, v: View)
    requires who.Readable() && inner.accountKeys != []
    ensures ShowsMessage(env, inner, feePayer, allowMemo, who, v)
            <==> Displays(env, inner.accountKeys, inner.instructions, inner.addressTableLookupCount, feePayer,
                          allowMemo, who, v)
  {
    var keys, ixs := inner.accountKeys, inner.instructions;
    if ShowsMessage(env, inner, feePayer, allowMemo, who, v) {
      var rs := ViewMeans(env, inner, feePayer, allowMemo, who, v);
    }
    if Displays(env, keys, ixs, inner.addressTableLookupCount, feePayer, allowMemo, who, v) {
      var rs :| PaidInOrder(keys, feePayer, ixs, rs) && ShownInOrder(env, rs, who, v.recipients);
      PaidTallied(env, keys, feePayer, allowMemo, ixs);
      PaidUnique(keys, feePayer, ixs, rs, RecipientsOf(JudgeAll(env, keys, feePayer, allowMemo, ixs)));
      FeesTallied(env, keys, feePayer, allowMemo, ixs);
      UnknownTallied(env, keys, feePayer, allowMemo, ixs);
      ShownIsDisplayed(env, rs, who, v.recipients);
    }
  }

  // The view displays this whole message, as it was decoded.
  ghost predicate DisplaysMessage(env: Env, m: TransactionMessage, feePayer: Option<Key>, allowMemo: bool,
      who: Attribution, v: View)
  {
    Displays(env, m.accountKeys, m.instructions, |m.addressTableLookups|, feePayer, allowMemo, who, v)
  }

  lemma DisplaysMessageIff(env: Env, m: TransactionMessage, vaultIndex: Byte, feePayer: Option<Key>, allowMemo: bool,
      who: Attribution, v: View)
    requires who.Readable() && m.accountKeys != []
    ensures ShowsMessage(env, Abridged(vaultIndex, m), feePayer, allowMemo, who, v)
            <==> DisplaysMessage(env, m, feePayer, allowMemo, who, v)
  {
    DisplaysIff(env, Abridged(vaultIndex, m), feePayer, allowMemo, who, v);
  }

  lemma ShownIsDisplayed(env: Env, rs: seq<Recipient>, who: Attribution, shown: seq<Recipient>)
    requires who.Readable() && ShownInOrder(env, rs, who, shown)
    ensures forall i | 0 <= i < |rs| :: shown[i] == Displayed(env, rs[i], who)
  {
    forall i | 0 <= i < |rs| ensures shown[i] == Displayed(env, rs[i], who) {
      assert ShownAs(env, rs[i], who, shown[i]);
    }
  }
}
