/** What the decoder makes of each instruction inside a vault message. */
module Classifier {
  import opened Wrappers
  import opened Bytes
  import opened Codecs
  import opened State
  import opened Reader
  import opened Pda
  import opened Ids

  datatype Recipient =
    | Native(address: Key, amount: U64)
    | Spl(address: Key, ata: Key, ataVerified: Option<bool>, amount: U64, mint: Key, decimals: Byte, tokenProgram: Key)

  datatype Classification = Classification(recipients: seq<Recipient>, feeLamports: nat, unknown: nat,
                                           memos: seq<seq<Byte>>)

  // ---- specification: one verdict per instruction ----

  datatype Verdict = Paid(r: Recipient) | Fee(amount: U64) | Note(text: seq<Byte>) | Unknown

  function U64At(d: seq<Byte>, i: nat): U64
    requires i + 8 <= |d|
  {
    DecLong(d, i).value.0
  }

  predicate LooksLikeTransfer(program: Key, d: seq<Byte>, accounts: nat) {
    program == SYSTEM_PROGRAM && |d| == 12 && Value(d[0..4]) == SYSTEM_IX_TAG_TRANSFER && accounts >= 2
  }

  predicate LooksLikeTransferChecked(program: Key, d: seq<Byte>, accounts: nat) {
    IsTokenProgram(program) && |d| == 10 && d[0] == SPL_IX_TAG_TRANSFER_CHECKED && accounts >= 4
  }

  // The first `n` account references resolve.
  predicate Resolves(keys: seq<Key>, indexes: seq<Byte>, n: nat)
    requires n <= |indexes|
  {
    forall j | 0 <= j < n :: indexes[j] < |keys|
  }

  // keys[0] is the vault; only what it pays is recognised.
  function Judge(env: Env, keys: seq<Key>, feePayer: Option<Key>, allowMemo: bool, ix: CompiledInstruction): Verdict
    requires keys != []
  {
    var a, d := ix.accountIndexes, ix.data;
    if ix.programIdIndex >= |keys| then Unknown else
    var program := keys[ix.programIdIndex];
    if LooksLikeTransfer(program, d, |a|) then
      if !Resolves(keys, a, 2) || keys[a[0]] != keys[0] then Unknown
      else if feePayer == Some(keys[a[1]]) then Fee(U64At(d, 4))
      else Paid(Native(keys[a[1]], U64At(d, 4)))
    else if LooksLikeTransferChecked(program, d, |a|) then
      if a[3] >= |keys| || keys[a[3]] != keys[0] || a[2] >= |keys| || a[1] >= |keys| then Unknown
      else Paid(Spl(keys[a[2]], keys[a[2]], None, U64At(d, 1), keys[a[1]], d[9], program))
    else if allowMemo && program == MEMO_PROGRAM && a == [] && env.isText(d) then Note(d)
    else Unknown
  }

  function JudgeAll(env: Env, keys: seq<Key>, feePayer: Option<Key>, allowMemo: bool,
      ixs: seq<CompiledInstruction>): (vs: seq<Verdict>)
    requires keys != []
    ensures |vs| == |ixs|
  {
    if ixs == [] then [] else
    JudgeAll(env, keys, feePayer, allowMemo, ixs[..|ixs| - 1]) + [Judge(env, keys, feePayer, allowMemo, ixs[|ixs| - 1])]
  }

  lemma {:induction false} JudgedEach(env: Env, keys: seq<Key>, feePayer: Option<Key>, allowMemo: bool,
      ixs: seq<CompiledInstruction>, k: nat)
    requires keys != [] && k < |ixs|
    ensures JudgeAll(env, keys, feePayer, allowMemo, ixs)[k] == Judge(env, keys, feePayer, allowMemo, ixs[k])
  {
    if k == |ixs| - 1 {
    } else {
      JudgedEach(env, keys, feePayer, allowMemo, ixs[..|ixs| - 1], k);
    }
  }

  function RecipientsOf(vs: seq<Verdict>): seq<Recipient> {
    if vs == [] then [] else
    RecipientsOf(vs[..|vs| - 1]) + (if vs[|vs| - 1].Paid? then [vs[|vs| - 1].r] else [])
  }

  function MemosOf(vs: seq<Verdict>): seq<seq<Byte>> {
    if vs == [] then [] else
    MemosOf(vs[..|vs| - 1]) + (if vs[|vs| - 1].Note? then [vs[|vs| - 1].text] else [])
  }

  function FeesOf(vs: seq<Verdict>): nat {
    if vs == [] then 0 else FeesOf(vs[..|vs| - 1]) + (if vs[|vs| - 1].Fee? then vs[|vs| - 1].amount else 0)
  }

  function FeeCount(vs: seq<Verdict>): nat {
    if vs == [] then 0 else FeeCount(vs[..|vs| - 1]) + (if vs[|vs| - 1].Fee? then 1 else 0)
  }

  function UnknownsOf(vs: seq<Verdict>): nat {
    if vs == [] then 0 else UnknownsOf(vs[..|vs| - 1]) + (if vs[|vs| - 1].Unknown? then 1 else 0)
  }

  // The tallies grow verdict by verdict.
  lemma TallySnoc(vs: seq<Verdict>, v: Verdict)
    ensures RecipientsOf(vs + [v]) == RecipientsOf(vs) + RecipientsOf([v])
    ensures MemosOf(vs + [v]) == MemosOf(vs) + MemosOf([v])
    ensures FeesOf(vs + [v]) == FeesOf(vs) + FeesOf([v])
    ensures UnknownsOf(vs + [v]) == UnknownsOf(vs) + UnknownsOf([v])
  {
    assert (vs + [v])[..|vs|] == vs && [v][..0] == [];
  }

  lemma JudgeAllSnoc(env: Env, keys: seq<Key>, feePayer: Option<Key>, allowMemo: bool,
      ixs: seq<CompiledInstruction>, k: nat)
    requires keys != [] && k < |ixs|
    ensures JudgeAll(env, keys, feePayer, allowMemo, ixs[..k + 1])
            == JudgeAll(env, keys, feePayer, allowMemo, ixs[..k]) + [Judge(env, keys, feePayer, allowMemo, ixs[k])]
  {
    assert ixs[..k + 1][..k] == ixs[..k];
  }

  // ---- the loop ----

  method Lookup(keys: seq<Key>, index: Byte) returns (r: Option<Key>)
    ensures r == if index < |keys| then Some(keys[index]) else None
  {
    if index >= |keys| { return None; }
    return Some(keys[index]);
  }

  ghost predicate Adds(v: Verdict, thrown: Option<()>, recipients: seq<Recipient>, fee: nat, memos: seq<seq<Byte>>,
      unknown: nat) {
    if thrown.None? then v == Unknown && recipients == [] && fee == 0 && memos == [] && unknown == 0
    else recipients == RecipientsOf([v]) && fee == FeesOf([v]) && memos == MemosOf([v]) && unknown == UnknownsOf([v])
  }

  // A System transfer, of which only the vault's own counts.
  method ClassifyTransfer(env: Env, inner: InnerMessage, cix: CompiledInstruction, feePayer: Option<Key>,
      ghost allowMemo: bool)
      returns (thrown: Option<()>, recipients: seq<Recipient>, fee: nat, unknown: nat)
    requires inner.accountKeys != [] && cix.programIdIndex < |inner.accountKeys|
    requires LooksLikeTransfer(inner.accountKeys[cix.programIdIndex], cix.data, |cix.accountIndexes|)
    ensures Adds(Judge(env, inner.accountKeys, feePayer, allowMemo, cix), thrown, recipients, fee, [], unknown)
  {
    thrown, recipients, fee, unknown := None, [], 0, 0;
    var source :- Lookup(inner.accountKeys, cix.accountIndexes[0]);
    var dest :- Lookup(inner.accountKeys, cix.accountIndexes[1]);
    var amount := ReadU64LE(cix.data, 4);
    if source != inner.accountKeys[0] {
      unknown := 1;
    } else if feePayer == Some(dest) {
      fee := amount;
    } else {
      recipients := [Native(dest, amount)];
    }
    thrown := Some(());
  }

  // A TransferChecked, of which only one authorised by the vault counts.
  method ClassifyTokenTransfer(env: Env, inner: InnerMessage, cix: CompiledInstruction, ghost feePayer: Option<Key>,
      ghost allowMemo: bool)
      returns (thrown: Option<()>, recipients: seq<Recipient>, unknown: nat)
    requires inner.accountKeys != [] && cix.programIdIndex < |inner.accountKeys|
    requires LooksLikeTransferChecked(inner.accountKeys[cix.programIdIndex], cix.data, |cix.accountIndexes|)
    ensures Adds(Judge(env, inner.accountKeys, feePayer, allowMemo, cix), thrown, recipients, 0, [], unknown)
  {
    thrown, recipients, unknown := None, [], 0;
    var a, d := cix.accountIndexes, cix.data;
    var authority :- Lookup(inner.accountKeys, a[3]);
    if authority != inner.accountKeys[0] {
      unknown := 1;
    } else {
      var dest :- Lookup(inner.accountKeys, a[2]);
      var amount := ReadU64LE(d, 1);
      var mint :- Lookup(inner.accountKeys, a[1]);
      recipients := [Spl(dest, dest, None, amount, mint, d[9], inner.accountKeys[cix.programIdIndex])];
    }
    thrown := Some(());
  }

  // What the k-th pass is to add.
  ghost predicate PassAdds(env: Env, inner: InnerMessage, feePayer: Option<Key>, allowMemo: bool, k: nat,
      thrown: Option<()>, recipients: seq<Recipient>, fee: nat, memos: seq<seq<Byte>>, unknown: nat)
  {
    inner.accountKeys != [] && k < |inner.instructions|
    && Adds(Judge(env, inner.accountKeys, feePayer, allowMemo, inner.instructions[k]), thrown, recipients, fee, memos,
            unknown)
  }

  // One pass of the loop body: what it adds to the accumulators. A failed
  // lookup abandons the instruction before anything was added.
  method ClassifyOne(env: Env, inner: InnerMessage, k: nat, feePayer: Option<Key>, allowMemo: bool)
      returns (thrown: Option<()>, recipients: seq<Recipient>, fee: nat, memos: seq<seq<Byte>>, unknown: nat)
    requires inner.accountKeys != [] && k < |inner.instructions|
    ensures PassAdds(env, inner, feePayer, allowMemo, k, thrown, recipients, fee, memos, unknown)
  {
    thrown, recipients, fee, memos, unknown := None, [], 0, [], 0;
    var cix := inner.instructions[k];
    var program :- Lookup(inner.accountKeys, cix.programIdIndex);
    var d, a := cix.data, cix.accountIndexes;
    if program == SYSTEM_PROGRAM && |d| == 12 && Value(d[0..4]) == SYSTEM_IX_TAG_TRANSFER && |a| >= 2 {
      thrown, recipients, fee, unknown := ClassifyTransfer(env, inner, cix, feePayer, allowMemo);
      return;
    } else if IsTokenProgram(program) && |d| == 10 && d[0] == SPL_IX_TAG_TRANSFER_CHECKED && |a| >= 4 {
      thrown, recipients, unknown := ClassifyTokenTransfer(env, inner, cix, feePayer, allowMemo);
      return;
    } else if allowMemo && program == MEMO_PROGRAM && |a| == 0 {
      if env.isText(d) {
        memos := [d];
      } else {
        unknown := 1;
      }
    } else {
      unknown := 1;
    }
    thrown := Some(());
  }

  ghost predicate Tallied(vs: seq<Verdict>, c: Classification, lookups: nat) {
    c == Classification(RecipientsOf(vs), FeesOf(vs), UnknownsOf(vs) + lookups, MemosOf(vs))
  }

  lemma TallyStep(vs: seq<Verdict>, c: Classification, lookups: nat, v: Verdict, thrown: Option<()>,
      recipients: seq<Recipient>, fee: nat, memos: seq<seq<Byte>>, unknown: nat)
    requires Tallied(vs, c, lookups) && Adds(v, thrown, recipients, fee, memos, unknown)
    ensures Tallied(vs + [v],
                    Classification(c.recipients + recipients, c.feeLamports + fee,
                                   c.unknown + unknown + (if thrown.None? then 1 else 0), c.memos + memos), lookups)
  {
    TallySnoc(vs, v);
  }

  // The accumulators after the first k instructions.
  ghost predicate TalliedTo(env: Env, inner: InnerMessage, feePayer: Option<Key>, allowMemo: bool, k: nat,
      c: Classification)
  {
    && inner.accountKeys != [] && k <= |inner.instructions|
    && Tallied(JudgeAll(env, inner.accountKeys, feePayer, allowMemo, inner.instructions[..k]), c,
               inner.addressTableLookupCount)
  }

  lemma TallyNext(env: Env, inner: InnerMessage, feePayer: Option<Key>, allowMemo: bool, k: nat, c: Classification,
      thrown: Option<()>, recipients: seq<Recipient>, fee: nat, memos: seq<seq<Byte>>, unknown: nat)
    requires TalliedTo(env, inner, feePayer, allowMemo, k, c)
    requires PassAdds(env, inner, feePayer, allowMemo, k, thrown, recipients, fee, memos, unknown)
    ensures TalliedTo(env, inner, feePayer, allowMemo, k + 1,
                      Classification(c.recipients + recipients, c.feeLamports + fee,
                                     c.unknown + unknown + (if thrown.None? then 1 else 0), c.memos + memos))
  {
    JudgeAllSnoc(env, inner.accountKeys, feePayer, allowMemo, inner.instructions, k);
    TallyStep(JudgeAll(env, inner.accountKeys, feePayer, allowMemo, inner.instructions[..k]), c,
              inner.addressTableLookupCount,
              Judge(env, inner.accountKeys, feePayer, allowMemo, inner.instructions[k]), thrown, recipients, fee, memos,
              unknown);
  }

  lemma TallyStart(env: Env, inner: InnerMessage, feePayer: Option<Key>, allowMemo: bool)
    requires inner.accountKeys != []
    ensures TalliedTo(env, inner, feePayer, allowMemo, 0, Classification([], 0, inner.addressTableLookupCount, []))
  {
    assert inner.instructions[..0] == [];
  }

  lemma TallyEnd(env: Env, inner: InnerMessage, feePayer: Option<Key>, allowMemo: bool, c: Classification)
    requires TalliedTo(env, inner, feePayer, allowMemo, |inner.instructions|, c)
    ensures Tallied(JudgeAll(env, inner.accountKeys, feePayer, allowMemo, inner.instructions), c,
                    inner.addressTableLookupCount)
  {
    assert inner.instructions[..|inner.instructions|] == inner.instructions;
  }

  method ClassifyInnerMessage(env: Env, inner: InnerMessage, feePayer: Option<Key>, allowMemo: bool)
      returns (r: Option<Classification>)
    ensures r.None? <==> inner.accountKeys == []
    ensures r.Some? ==> Tallied(JudgeAll(env, inner.accountKeys, feePayer, allowMemo, inner.instructions),
                                r.value, inner.addressTableLookupCount)
  {
    if |inner.accountKeys| == 0 { return None; }
    var recipients, feeLamports, memos := [], 0, [];
    var unknown := inner.addressTableLookupCount;
    TallyStart(env, inner, feePayer, allowMemo);
    for k := 0 to |inner.instructions|
      invariant TalliedTo(env, inner, feePayer, allowMemo, k,
                          Classification(recipients, feeLamports, unknown, memos))
    {
      var thrown, rs, fee, ms, u := ClassifyOne(env, inner, k, feePayer, allowMemo);
      TallyNext(env, inner, feePayer, allowMemo, k, Classification(recipients, feeLamports, unknown, memos), thrown, rs,
                fee, ms, u);
      recipients, feeLamports, memos := recipients + rs, feeLamports + fee, memos + ms;
      unknown := unknown + u + (if thrown.None? then 1 else 0);
    }
    TallyEnd(env, inner, feePayer, allowMemo, Classification(recipients, feeLamports, unknown, memos));
    return Some(Classification(recipients, feeLamports, unknown, memos));
  }

  // ---- nothing is lost ----

  // Every instruction, and every lookup, ends up in exactly one tally.
  lemma {:induction false} VerdictsAccountForAll(vs: seq<Verdict>)
    ensures |RecipientsOf(vs)| + FeeCount(vs) + |MemosOf(vs)| + UnknownsOf(vs) == |vs|
  {
    if vs == [] {
    } else {
      VerdictsAccountForAll(vs[..|vs| - 1]);
    }
  }

  lemma ClassificationLosesNothing(env: Env, inner: InnerMessage, feePayer: Option<Key>, allowMemo: bool,
      c: Classification)
    requires inner.accountKeys != []
    requires Tallied(JudgeAll(env, inner.accountKeys, feePayer, allowMemo, inner.instructions), c,
                     inner.addressTableLookupCount)
    ensures var vs := JudgeAll(env, inner.accountKeys, feePayer, allowMemo, inner.instructions);
            |c.recipients| + FeeCount(vs) + |c.memos| + c.unknown
            == |inner.instructions| + inner.addressTableLookupCount
  {
    VerdictsAccountForAll(JudgeAll(env, inner.accountKeys, feePayer, allowMemo, inner.instructions));
  }

  function NativeTotal(rs: seq<Recipient>): nat {
    if rs == [] then 0 else NativeTotal(rs[..|rs| - 1]) + (if rs[|rs| - 1].Native? then rs[|rs| - 1].amount else 0)
  }

  // A System transfer out of the vault, read off the instruction alone.
  predicate VaultTransfer(keys: seq<Key>, ix: CompiledInstruction)
    requires keys != []
  {
    && ix.programIdIndex < |keys|
    && LooksLikeTransfer(keys[ix.programIdIndex], ix.data, |ix.accountIndexes|)
    && Resolves(keys, ix.accountIndexes, 2)
    && keys[ix.accountIndexes[0]] == keys[0]
  }

  function VaultTransferTotal(keys: seq<Key>, ixs: seq<CompiledInstruction>): nat
    requires keys != []
  {
    if ixs == [] then 0 else
    var ix := ixs[|ixs| - 1];
    VaultTransferTotal(keys, ixs[..|ixs| - 1]) + (if VaultTransfer(keys, ix) then U64At(ix.data, 4) else 0)
  }

  lemma NativeTotalSnoc(rs: seq<Recipient>, tail: seq<Recipient>)
    requires |tail| <= 1
    ensures NativeTotal(rs + tail) == NativeTotal(rs) + (if tail != [] && tail[0].Native? then tail[0].amount else 0)
  {
    if tail == [] { assert rs + tail == rs; } else { assert (rs + tail)[..|rs|] == rs; }
  }

  lemma LamportsOfOne(env: Env, keys: seq<Key>, feePayer: Option<Key>, allowMemo: bool, ix: CompiledInstruction)
    requires keys != []
    ensures var v := Judge(env, keys, feePayer, allowMemo, ix);
            (if v.Paid? && v.r.Native? then v.r.amount else 0) + (if v.Fee? then v.amount else 0)
            == (if VaultTransfer(keys, ix) then U64At(ix.data, 4) else 0)
  {}

  // Every lamport of every recognised vault transfer is either a recipient's or a fee.
  lemma {:induction false} LamportsAccountedFor(env: Env, keys: seq<Key>, feePayer: Option<Key>, allowMemo: bool,
      ixs: seq<CompiledInstruction>)
    requires keys != []
    ensures var vs := JudgeAll(env, keys, feePayer, allowMemo, ixs);
            NativeTotal(RecipientsOf(vs)) + FeesOf(vs) == VaultTransferTotal(keys, ixs)
  {
    if ixs == [] {
    } else {
      var head, last := ixs[..|ixs| - 1], ixs[|ixs| - 1];
      LamportsAccountedFor(env, keys, feePayer, allowMemo, head);
      var hs := JudgeAll(env, keys, feePayer, allowMemo, head);
      var v := Judge(env, keys, feePayer, allowMemo, last);
      assert (hs + [v])[..|hs|] == hs;
      LamportsOfOne(env, keys, feePayer, allowMemo, last);
      NativeTotalSnoc(RecipientsOf(hs), if v.Paid? then [v.r] else []);
    }
  }

  // ---- owners of token accounts ----

  // A token recipient credited to `owner` if it is one of the owner's two associated accounts.
  function Attributed(env: Env, r: Recipient, owner: Key, mint: Key): Recipient {
    if !r.Spl? then r
    else if r.ata == DeriveAta(env, owner, mint, TOKEN_PROGRAM)
         || r.ata == DeriveAta(env, owner, mint, TOKEN_2022_PROGRAM)
    then r.(address := owner, ataVerified := Some(true))
    else r.(address := r.ata, ataVerified := Some(false))
  }

  method ResolveAtaOwner(env: Env, recipients: seq<Recipient>, owner: Address, mint: Address)
      returns (r: Option<seq<Recipient>>)
    ensures r.None? <==> owner.NotAKey? || mint.NotAKey?
    ensures r.Some? ==>
              && |r.value| == |recipients|
              && forall i | 0 <= i < |recipients| :: r.value[i] == Attributed(env, recipients[i], owner.key, mint.key)
  {
    if owner.NotAKey? || mint.NotAKey? { return None; }
    var candidates := [DeriveAta(env, owner.key, mint.key, TOKEN_PROGRAM),
                       DeriveAta(env, owner.key, mint.key, TOKEN_2022_PROGRAM)];
    var rs := recipients;
    for i := 0 to |rs|
      invariant |rs| == |recipients|
      invariant forall j | 0 <= j < i :: rs[j] == Attributed(env, recipients[j], owner.key, mint.key)
      invariant forall j | i <= j < |rs| :: rs[j] == recipients[j]
    {
      if rs[i].Spl? {
        if rs[i].ata in candidates {
          rs := rs[i := rs[i].(address := owner.key, ataVerified := Some(true))];
        } else {
          rs := rs[i := rs[i].(address := rs[i].ata, ataVerified := Some(false))];
        }
      }
    }
    return Some(rs);
  }

  // ---- a vault's own TransferChecked ----

  function CheckedData(amount: U64, decimals: Byte): seq<Byte> { [12] + LittleEndian(amount, 8) + [decimals] }

  // It is judged a payment, to the account and of the mint it lists.
  lemma CheckedJudged(env: Env, keys: seq<Key>, feePayer: Option<Key>, allowMemo: bool, ix: CompiledInstruction,
      amount: U64, decimals: Byte)
    requires |keys| > 0 && |ix.accountIndexes| == 4 && ix.data == CheckedData(amount, decimals)
    requires ix.programIdIndex < |keys| && IsTokenProgram(keys[ix.programIdIndex])
    requires ix.accountIndexes[1] < |keys| && ix.accountIndexes[2] < |keys|
    requires ix.accountIndexes[3] < |keys| && keys[ix.accountIndexes[3]] == keys[0]
    ensures var dest := keys[ix.accountIndexes[2]];
            Judge(env, keys, feePayer, allowMemo, ix)
            == Paid(Spl(dest, dest, None, amount, keys[ix.accountIndexes[1]], decimals, keys[ix.programIdIndex]))
  {
    assert ix.data[1..9] == LittleEndian(amount, 8);
    U64Bijection(amount, LittleEndian(amount, 8));
    assert TOKEN_PROGRAM[0] == 6 && TOKEN_2022_PROGRAM[0] == 6 && SYSTEM_PROGRAM[0] == 0;
  }

  lemma OnePaid(r: Recipient)
    ensures RecipientsOf([Paid(r)]) == [r] && FeesOf([Paid(r)]) == 0 && UnknownsOf([Paid(r)]) == 0
  {
    assert [Paid(r)][..0] == [];
  }
}
