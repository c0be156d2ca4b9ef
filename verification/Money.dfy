/** What running a message does to balances: System transfers, TransferChecked and
    Memo as their programs perform them; any other program does as it likes. */
module Money {
  import opened Wrappers
  import opened Bytes
  import opened State
  import opened Pda
  import opened Program
  import opened Ids
  import opened Classifier

  // The owner may let a delegate move up to `delegated` of the balance. An
  // account of the native mint wraps SOL: its lamports back its tokens.
  datatype TokenAccount = TokenAccount(
    program: Key,
    mint: Key,
    authority: Key,
    amount: nat,
    delegate: Option<Key>,
    delegated: nat,
    wrapsSol: bool)

  datatype Purse = Purse(lamports: map<Key, nat>, tokens: map<Key, TokenAccount>, decimals: map<Key, Byte>)

  // One movement of funds, with the key that authorised it.
  datatype Flow =
    | Lamports(source: Key, dest: Key, amount: nat)
    | Tokens(program: Key, source: Key, dest: Key, mint: Key, decimals: Byte, amount: nat, authority: Key,
             wrapped: bool)
  {
    function Payer(): Key { if Lamports? then source else authority }

    // Wrapped SOL takes its lamports along.
    predicate MovesLamports() { Lamports? || wrapped }
  }

  // What a foreign program does with an invocation; None if it fails.
  type Foreign = (Purse, Invocation) -> Option<(Purse, seq<Flow>)>

  function Move(m: map<Key, nat>, source: Key, dest: Key, amount: nat): map<Key, nat>
    requires Balance(m, source) >= amount
  {
    var debited := m[source := Balance(m, source) - amount];
    debited[dest := Balance(debited, dest) + amount]
  }

  // The source must sign and both sides be writable.
  function TransferLamports(p: Purse, cpi: Invocation): Option<(Purse, seq<Flow>)>
    requires LooksLikeTransfer(cpi.program, cpi.data, |cpi.metas|)
  {
    var source, dest, amount := cpi.metas[0], cpi.metas[1], U64At(cpi.data, 4);
    if !source.isSigner || !source.isWritable || !dest.isWritable || Balance(p.lamports, source.key) < amount
    then None else
    Some((p.(lamports := Move(p.lamports, source.key, dest.key, amount)), [Lamports(source.key, dest.key, amount)]))
  }

  // The account less what the authority, its delegate or else its owner, may take.
  function Withdraw(from: TokenAccount, authority: Key, amount: nat): (r: Option<TokenAccount>)
    ensures r.Some? ==> r.value.amount + amount == from.amount
  {
    if from.amount < amount then None
    else if from.delegate == Some(authority) then
      if from.delegated < amount then None
      else Some(from.(amount := from.amount - amount, delegated := from.delegated - amount))
    else if from.authority == authority then Some(from.(amount := from.amount - amount))
    else None
  }

  // Accounts: source, mint, destination, authority.
  function TransferTokens(p: Purse, cpi: Invocation): Option<(Purse, seq<Flow>)>
    requires LooksLikeTransferChecked(cpi.program, cpi.data, |cpi.metas|)
  {
    var source, mint, dest, authority := cpi.metas[0], cpi.metas[1].key, cpi.metas[2], cpi.metas[3];
    var amount, decimals := U64At(cpi.data, 1), cpi.data[9];
    if source.key !in p.tokens || dest.key !in p.tokens || !source.isWritable || !dest.isWritable || !authority.isSigner
    then None else
    var from, to := p.tokens[source.key], p.tokens[dest.key];
    var left := Withdraw(from, authority.key, amount);
    if from.program != cpi.program || from.mint != mint || left.None? then None
    else if to.program != cpi.program || to.mint != mint then None
    else if mint !in p.decimals || p.decimals[mint] != decimals then None else
    var flows := [Tokens(cpi.program, source.key, dest.key, mint, decimals, amount, authority.key, from.wrapsSol)];
    if source.key == dest.key then Some((p, flows))
    else if from.wrapsSol && Balance(p.lamports, source.key) < amount then None else
    var lamports := if from.wrapsSol then Move(p.lamports, source.key, dest.key, amount) else p.lamports;
    var tokens := p.tokens[source.key := left.value][dest.key := to.(amount := to.amount + amount)];
    Some((p.(lamports := lamports, tokens := tokens), flows))
  }

  function Perform(foreign: Foreign, p: Purse, cpi: Invocation): Option<(Purse, seq<Flow>)> {
    if LooksLikeTransfer(cpi.program, cpi.data, |cpi.metas|) then TransferLamports(p, cpi)
    else if LooksLikeTransferChecked(cpi.program, cpi.data, |cpi.metas|) then TransferTokens(p, cpi)
    else if cpi.program == MEMO_PROGRAM && cpi.metas == [] then Some((p, []))
    else foreign(p, cpi)
  }

  // The execute loop, from the k-th instruction on, with everything that moved.
  function RunMessage(foreign: Foreign, p: Purse, m: TransactionMessage, k: nat): Option<(Purse, seq<Flow>)>
    requires k <= |m.instructions|
    decreases |m.instructions| - k
  {
    if k == |m.instructions| then Some((p, [])) else
    var cpi :- Resolve(m, m.instructions[k]);
    var (q, flows) :- Perform(foreign, p, cpi);
    var (r, rest) :- RunMessage(foreign, q, m, k + 1);
    Some((r, flows + rest))
  }

  // ---- verdicts tell the truth ----

  // What a verdict claims about the flows of its instruction.
  ghost predicate Tells(v: Verdict, vault: Key, feePayer: Option<Key>, flows: seq<Flow>) {
    match v
    case Paid(Native(address, amount)) => flows == [Lamports(vault, address, amount)] && feePayer != Some(address)
    case Paid(Spl(_, ata, _, amount, mint, decimals, program)) =>
      |flows| == 1 && flows[0].Tokens?
      && flows[0] == Tokens(program, flows[0].source, ata, mint, decimals, amount, vault, flows[0].wrapped)
    case Fee(amount) => feePayer.Some? && flows == [Lamports(vault, feePayer.value, amount)]
    case Note(_) => flows == []
    case Unknown => true
  }

  // Whenever an instruction the decoder recognised runs, it moves exactly what
  // the decoder said, out of the vault.
  lemma VerdictTrue(env: Env, foreign: Foreign, m: TransactionMessage, feePayer: Option<Key>, allowMemo: bool,
      ix: CompiledInstruction, p: Purse)
    requires m.accountKeys != []
    requires var cpi := Resolve(m, ix); cpi.Some? && Perform(foreign, p, cpi.value).Some?
    ensures Tells(Judge(env, m.accountKeys, feePayer, allowMemo, ix), m.accountKeys[0], feePayer,
                  Perform(foreign, p, Resolve(m, ix).value).value.1)
  {
    var cpi := Resolve(m, ix).value;
    assert |cpi.metas| == |ix.accountIndexes|;
    assert forall j | 0 <= j < |cpi.metas| :: cpi.metas[j].key == m.accountKeys[ix.accountIndexes[j]];
  }

  // Signatures and references in a message the program accepts: only slot 0, the vault, signs.
  lemma OnlySlotZeroSigns(m: TransactionMessage, vault: Key, ix: CompiledInstruction, j: nat)
    requires WellFormed(m, vault) && ix in m.instructions && j < |ix.accountIndexes|
    ensures ix.programIdIndex < |m.accountKeys| && ix.accountIndexes[j] < |m.accountKeys|
    ensures MetaAt(m, ix.accountIndexes[j]).isSigner ==> m.accountKeys[ix.accountIndexes[j]] == vault
  {
    var k :| 0 <= k < |m.instructions| && m.instructions[k] == ix;
    assert InstructionInBounds(m.instructions[k], |m.accountKeys|);
  }

  // A transfer that the decoder reports as unknown fails on chain, whatever the balances.
  lemma UnknownTransferFails(env: Env, foreign: Foreign, m: TransactionMessage, vault: Key, feePayer: Option<Key>,
      allowMemo: bool, ix: CompiledInstruction, cpi: Invocation, p: Purse)
    requires WellFormed(m, vault) && ix in m.instructions && Resolve(m, ix) == Some(cpi)
    requires LooksLikeTransfer(cpi.program, cpi.data, |cpi.metas|)
             || LooksLikeTransferChecked(cpi.program, cpi.data, |cpi.metas|)
    requires Judge(env, m.accountKeys, feePayer, allowMemo, ix).Unknown?
    ensures Perform(foreign, p, cpi).None?
  {
    var signer := if LooksLikeTransfer(cpi.program, cpi.data, |cpi.metas|) then 0 else 3;
    forall j | 0 <= j < |ix.accountIndexes| ensures ix.accountIndexes[j] < |m.accountKeys| {
      OnlySlotZeroSigns(m, vault, ix, j);
    }
    OnlySlotZeroSigns(m, vault, ix, signer);
  }

  // Flows of the instructions from k on, cut where one instruction's end and the next one's begin.
  ghost predicate TellsAll(vs: seq<Verdict>, vault: Key, feePayer: Option<Key>, flows: seq<Flow>)
    decreases |vs|
  {
    if vs == [] then flows == []
    else exists n ::
        0 <= n <= |flows| && Tells(vs[0], vault, feePayer, flows[..n]) && TellsAll(vs[1..], vault, feePayer, flows[n..])
  }

  lemma {:induction false} RunTold(env: Env, foreign: Foreign, m: TransactionMessage, feePayer: Option<Key>,
      allowMemo: bool, p: Purse, k: nat)
    requires m.accountKeys != [] && k <= |m.instructions| && RunMessage(foreign, p, m, k).Some?
    ensures TellsAll(JudgeAll(env, m.accountKeys, feePayer, allowMemo, m.instructions)[k..], m.accountKeys[0], feePayer,
                     RunMessage(foreign, p, m, k).value.1)
    decreases |m.instructions| - k
  {
    var vs := JudgeAll(env, m.accountKeys, feePayer, allowMemo, m.instructions);
    if k == |m.instructions| {
    } else {
      var cpi := Resolve(m, m.instructions[k]).value;
      var (q, flows) := Perform(foreign, p, cpi).value;
      var rest := RunMessage(foreign, q, m, k + 1).value.1;
      VerdictTrue(env, foreign, m, feePayer, allowMemo, m.instructions[k], p);
      JudgedEach(env, m.accountKeys, feePayer, allowMemo, m.instructions, k);
      RunTold(env, foreign, m, feePayer, allowMemo, q, k + 1);
      assert vs[k..][0] == vs[k] && vs[k..][1..] == vs[k + 1..];
      assert (flows + rest)[..|flows|] == flows && (flows + rest)[|flows|..] == rest;
    }
  }

  // ---- payments and fees ----

  predicate IsFee(f: Flow, vault: Key, feePayer: Option<Key>) {
    feePayer.Some? && f.Lamports? && f.source == vault && f.dest == feePayer.value
  }

  function Payments(flows: seq<Flow>, vault: Key, feePayer: Option<Key>): seq<Flow> {
    if flows == [] then [] else
    (if IsFee(flows[0], vault, feePayer) then [] else [flows[0]]) + Payments(flows[1..], vault, feePayer)
  }

  function FeeTotal(flows: seq<Flow>, vault: Key, feePayer: Option<Key>): nat {
    if flows == [] then 0 else
    (if IsFee(flows[0], vault, feePayer) then flows[0].amount else 0) + FeeTotal(flows[1..], vault, feePayer)
  }

  // The flow is the vault paying this recipient.
  ghost predicate Pays(f: Flow, r: Recipient, vault: Key) {
    match r
    case Native(address, amount) => f == Lamports(vault, address, amount)
    case Spl(_, ata, _, amount, mint, decimals, program) =>
      f.Tokens? && f == Tokens(program, f.source, ata, mint, decimals, amount, vault, f.wrapped)
  }

  ghost predicate PaysAll(fs: seq<Flow>, rs: seq<Recipient>, vault: Key) {
    |fs| == |rs| && forall i | 0 <= i < |fs| :: Pays(fs[i], rs[i], vault)
  }

  lemma {:induction false} TallyCons(v: Verdict, vs: seq<Verdict>)
    ensures RecipientsOf([v] + vs) == (if v.Paid? then [v.r] else []) + RecipientsOf(vs)
    ensures FeesOf([v] + vs) == (if v.Fee? then v.amount else 0) + FeesOf(vs)
    ensures UnknownsOf([v] + vs) == (if v.Unknown? then 1 else 0) + UnknownsOf(vs)
  {
    var all := [v] + vs;
    if vs == [] {
      assert all == [v] && [v][..0] == [];
    } else {
      TallyCons(v, vs[..|vs| - 1]);
      assert all[..|all| - 1] == [v] + vs[..|vs| - 1];
    }
  }

  // The flows of the first verdict, split off.
  lemma FirstDecoded(v: Verdict, vault: Key, feePayer: Option<Key>, flows: seq<Flow>, n: nat)
    requires n <= |flows| && Tells(v, vault, feePayer, flows[..n]) && !v.Unknown?
    ensures n <= 1 && (v.Paid? ==> n == 1 && Pays(flows[0], v.r, vault))
    ensures Payments(flows, vault, feePayer)
            == (if v.Paid? then [flows[0]] else []) + Payments(flows[n..], vault, feePayer)
    ensures FeeTotal(flows, vault, feePayer) == (if v.Fee? then v.amount else 0) + FeeTotal(flows[n..], vault, feePayer)
    ensures forall f | f in flows :: f in flows[n..] || f.Payer() == vault
  {
    assert |flows[..n]| == n <= 1;
    if n == 0 {
      assert flows[n..] == flows;
    } else {
      assert flows == [flows[0]] + flows[1..] && flows[..1][0] == flows[0];
    }
  }

  lemma PaidFirst(v: Verdict, vs: seq<Verdict>, vault: Key, first: seq<Flow>, rest: seq<Flow>)
    requires PaysAll(rest, RecipientsOf(vs), vault)
    requires if v.Paid? then |first| == 1 && Pays(first[0], v.r, vault) else first == []
    ensures PaysAll(first + rest, RecipientsOf([v] + vs), vault)
  {
    TallyCons(v, vs);
    var all, rs := first + rest, RecipientsOf([v] + vs);
    forall i | 0 <= i < |all| ensures Pays(all[i], rs[i], vault) {
      if i >= |first| { assert all[i] == rest[i - |first|] && rs[i] == RecipientsOf(vs)[i - |first|]; }
    }
  }

  // With nothing unknown, all that moves is the recipients' payments, in
  // order, and fees of the decoded total, every one authorised by the vault.
  lemma {:induction false} OnlyWhatWasDecoded(vs: seq<Verdict>, vault: Key, feePayer: Option<Key>, flows: seq<Flow>)
    requires TellsAll(vs, vault, feePayer, flows) && UnknownsOf(vs) == 0
    ensures PaysAll(Payments(flows, vault, feePayer), RecipientsOf(vs), vault)
    ensures FeeTotal(flows, vault, feePayer) == FeesOf(vs)
    ensures forall f | f in flows :: f.Payer() == vault
    decreases |vs|
  {
    if vs == [] {
    } else {
      var v, rest := vs[0], vs[1..];
      assert vs == [v] + rest;
      var n :| 0 <= n <= |flows| && Tells(v, vault, feePayer, flows[..n])
               && TellsAll(rest, vault, feePayer, flows[n..]);
      TallyCons(v, rest);
      FirstDecoded(v, vault, feePayer, flows, n);
      OnlyWhatWasDecoded(rest, vault, feePayer, flows[n..]);
      PaidFirst(v, rest, vault, if v.Paid? then [flows[0]] else [], Payments(flows[n..], vault, feePayer));
    }
  }

  // ---- balances ----

  function LamportNet(flows: seq<Flow>, k: Key): int {
    if flows == [] then 0 else
    var f := flows[0];
    (if f.MovesLamports() && f.dest == k then f.amount else 0)
    - (if f.MovesLamports() && f.source == k then f.amount else 0)
    + LamportNet(flows[1..], k)
  }

  function TokenNet(flows: seq<Flow>, k: Key): int {
    if flows == [] then 0 else
    var f := flows[0];
    (if f.Tokens? && f.dest == k then f.amount else 0) - (if f.Tokens? && f.source == k then f.amount else 0)
    + TokenNet(flows[1..], k)
  }

  function Held(p: Purse, k: Key): nat { if k in p.tokens then p.tokens[k].amount else 0 }

  predicate Recognised(cpi: Invocation) {
    || LooksLikeTransfer(cpi.program, cpi.data, |cpi.metas|)
    || LooksLikeTransferChecked(cpi.program, cpi.data, |cpi.metas|)
    || (cpi.program == MEMO_PROGRAM && cpi.metas == [])
  }

  lemma PerformNet(foreign: Foreign, p: Purse, cpi: Invocation, k: Key)
    requires Recognised(cpi) && Perform(foreign, p, cpi).Some?
    ensures var (q, flows) := Perform(foreign, p, cpi).value;
            && Balance(q.lamports, k) == Balance(p.lamports, k) + LamportNet(flows, k)
            && Held(q, k) == Held(p, k) + TokenNet(flows, k)
  {}

  lemma {:induction false} NetConcat(a: seq<Flow>, b: seq<Flow>, k: Key)
    ensures LamportNet(a + b, k) == LamportNet(a, k) + LamportNet(b, k)
    ensures TokenNet(a + b, k) == TokenNet(a, k) + TokenNet(b, k)
  {
    if a == [] {
      assert a + b == b;
    } else {
      NetConcat(a[1..], b, k);
      assert (a + b)[1..] == a[1..] + b;
    }
  }

  // If every instruction is recognised, balances move by the flows and nothing else.
  lemma {:induction false} RunNet(foreign: Foreign, p: Purse, m: TransactionMessage, i: nat, k: Key)
    requires i <= |m.instructions| && RunMessage(foreign, p, m, i).Some?
    requires forall j, cpi | i <= j < |m.instructions| && Resolve(m, m.instructions[j]) == Some(cpi) :: Recognised(cpi)
    ensures var (q, flows) := RunMessage(foreign, p, m, i).value;
            && Balance(q.lamports, k) == Balance(p.lamports, k) + LamportNet(flows, k)
            && Held(q, k) == Held(p, k) + TokenNet(flows, k)
    decreases |m.instructions| - i
  {
    if i == |m.instructions| {
    } else {
      var cpi := Resolve(m, m.instructions[i]).value;
      var (q, flows) := Perform(foreign, p, cpi).value;
      PerformNet(foreign, p, cpi, k);
      RunNet(foreign, q, m, i + 1, k);
      NetConcat(flows, RunMessage(foreign, q, m, i + 1).value.1, k);
    }
  }
}
