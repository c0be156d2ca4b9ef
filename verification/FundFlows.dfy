/** Comparing the decoded fund flows of a message with the payload on display. */
module FundFlows {
  import opened Wrappers
  import opened Bytes
  import opened Members
  import opened Reader
  import opened Pda
  import opened Ids
  import opened Classifier

  datatype ExpectedRecipient = ExpectedRecipient(address: Address, amount: Amount)

  // Unset means zero.
  datatype FeeCap = Unset | Cap(amount: Amount)

  datatype Expectation = Expectation(
    recipients: seq<ExpectedRecipient>,
    tokenMint: Option<Address>,
    tokenDecimals: Option<int>,
    maxFee: FeeCap,
    expectedFeePayer: Option<Address>)

  datatype View = View(recipients: seq<Recipient>, feeLamports: nat, feePayer: Option<Key>, unknown: nat)

  // The string names the recipient: its address, its token account, or the
  // owner whose associated account that is.
  predicate Names(env: Env, r: Recipient, a: Address) {
    a.Base58? &&
    (r.address == a.key || (r.Spl? && (r.ata == a.key || DeriveAta(env, a.key, r.mint, r.tokenProgram) == r.ata)))
  }

  predicate Fits(env: Env, r: Recipient, e: ExpectedRecipient) {
    Names(env, r, e.address) && e.amount == Number(r.amount)
  }

  // ---- greedy matching ----

  // The first unused recipient that fits, or the length of the list.
  function FirstFit(env: Env, rs: seq<Recipient>, used: set<nat>, e: ExpectedRecipient, from: nat): (i: nat)
    requires from <= |rs|
    ensures from <= i <= |rs|
    ensures i < |rs| ==> i !in used && Fits(env, rs[i], e)
    ensures forall j | from <= j < i :: j in used || !Fits(env, rs[j], e)
    decreases |rs| - from
  {
    if from == |rs| || (from !in used && Fits(env, rs[from], e)) then from else FirstFit(env, rs, used, e, from + 1)
  }

  // Each expected recipient in turn takes the first that fits; which are taken at the end.
  function Greedy(env: Env, rs: seq<Recipient>, es: seq<ExpectedRecipient>, used: set<nat>): Option<set<nat>> {
    if es == [] then Some(used) else
    var i := FirstFit(env, rs, used, es[0], 0);
    if i == |rs| then None else Greedy(env, rs, es[1..], used + {i})
  }

  // Everyone expected is found, and nobody else is there.
  predicate Paired(env: Env, rs: seq<Recipient>, es: seq<ExpectedRecipient>) {
    var taken := Greedy(env, rs, es, {});
    taken.Some? && forall i | 0 <= i < |rs| :: i in taken.value
  }

  method FindUnused(env: Env, rs: seq<Recipient>, used: array<bool>, e: ExpectedRecipient, ghost taken: set<nat>)
      returns (i: nat)
    requires used.Length == |rs| && forall j: nat | j < |rs| :: used[j] <==> j in taken
    ensures i == FirstFit(env, rs, taken, e, 0)
  {
    i := 0;
    while i < |rs|
      invariant i <= |rs| && FirstFit(env, rs, taken, e, 0) == FirstFit(env, rs, taken, e, i)
    {
      if !used[i] && Fits(env, rs[i], e) { return; }
      i := i + 1;
    }
  }

  method MatchRecipients(env: Env, rs: seq<Recipient>, es: seq<ExpectedRecipient>) returns (mismatches: nat)
    ensures mismatches == 0 <==> Paired(env, rs, es)
  {
    mismatches := 0;
    var used := new bool[|rs|](_ => false);
    ghost var taken: set<nat> := {};
    for k := 0 to |es|
      invariant forall i: nat | i < |rs| :: used[i] <==> i in taken
      invariant if mismatches == 0 then Greedy(env, rs, es, {}) == Greedy(env, rs, es[k..], taken)
                else Greedy(env, rs, es, {}) == None
    {
      assert es[k..][1..] == es[k + 1..];
      var i := FindUnused(env, rs, used, es[k], taken);
      if i == |rs| {
        mismatches := mismatches + 1;
      } else {
        used[i] := true;
        taken := taken + {i};
      }
    }
    assert es[|es|..] == [];
    ghost var missing := mismatches;
    for i := 0 to |rs|
      invariant mismatches >= missing
      invariant mismatches == missing <==> forall j | 0 <= j < i :: used[j]
    {
      if !used[i] { mismatches := mismatches + 1; }
    }
  }

  // ---- what a greedy match means ----

  // Slot sigma[j] is taken by the j-th expected recipient: a bijection onto the list.
  ghost predicate Assignment(env: Env, rs: seq<Recipient>, es: seq<ExpectedRecipient>, sigma: seq<nat>) {
    && |sigma| == |es| && Distinct(sigma)
    && (forall j | 0 <= j < |sigma| :: sigma[j] < |rs| && Fits(env, rs[sigma[j]], es[j]))
  }

  lemma {:induction false} GreedyAssigns(env: Env, rs: seq<Recipient>, es: seq<ExpectedRecipient>, used: set<nat>)
      returns (sigma: seq<nat>)
    requires Greedy(env, rs, es, used).Some?
    ensures Assignment(env, rs, es, sigma)
    ensures forall j | 0 <= j < |sigma| :: sigma[j] !in used
    ensures forall i :: i in Greedy(env, rs, es, used).value <==> i in used || i in sigma
    decreases |es|
  {
    if es == [] {
      sigma := [];
    } else {
      var i := FirstFit(env, rs, used, es[0], 0);
      var rest := GreedyAssigns(env, rs, es[1..], used + {i});
      sigma := [i] + rest;
    }
  }

  function Range(n: nat): (s: seq<nat>)
    ensures |s| == n && forall i | 0 <= i < n :: s[i] == i
  {
    seq(n, i => i)
  }

  // A successful match is a bijection between expected and decoded recipients
  // that respects names and amounts.
  lemma GreedySound(env: Env, rs: seq<Recipient>, es: seq<ExpectedRecipient>) returns (sigma: seq<nat>)
    requires Paired(env, rs, es)
    ensures Assignment(env, rs, es, sigma)
    ensures |es| == |rs| && forall i: nat | i < |rs| :: i in sigma
  {
    sigma := GreedyAssigns(env, rs, es, {});
    forall x | x in sigma ensures x in Range(|rs|) { assert Range(|rs|)[x] == x; }
    Pigeonhole(sigma, Range(|rs|));
    Pigeonhole(Range(|rs|), sigma);
  }

  // ---- when taking the first fit is as good as any matching ----

  // A pairing of expected lines with all the unused recipients.
  ghost predicate Matching(env: Env, rs: seq<Recipient>, es: seq<ExpectedRecipient>, used: set<nat>, sigma: seq<nat>) {
    && Assignment(env, rs, es, sigma)
    && (forall j | 0 <= j < |sigma| :: sigma[j] !in used)
    && (forall i: nat :: i < |rs| ==> i in used || i in sigma)
  }

  // If two lines could both take recipient i, and the first could take j, so could the second.
  ghost predicate Agreed(env: Env, rs: seq<Recipient>, es: seq<ExpectedRecipient>, a: nat, b: nat, i: nat, j: nat) {
    a < |es| && b < |es| && i < |rs| && j < |rs| ==>
      Fits(env, rs[i], es[a]) && Fits(env, rs[i], es[b]) && Fits(env, rs[j], es[a]) ==> Fits(env, rs[j], es[b])
  }

  // Lines that could take the same recipient could take all the same recipients.
  ghost predicate Unambiguous(env: Env, rs: seq<Recipient>, es: seq<ExpectedRecipient>) {
    forall a: nat, b: nat, i: nat, j: nat :: Agreed(env, rs, es, a, b, i, j)
  }

  lemma UnambiguousTail(env: Env, rs: seq<Recipient>, es: seq<ExpectedRecipient>)
    requires es != [] && Unambiguous(env, rs, es)
    ensures Unambiguous(env, rs, es[1..])
  {
    forall a: nat, b: nat, i: nat, j: nat ensures Agreed(env, rs, es[1..], a, b, i, j) {
      var next, after := a + 1, b + 1;
      assert Agreed(env, rs, es, next, after, i, j);
    }
  }

  predicate Settles(env: Env, rs: seq<Recipient>, es: seq<ExpectedRecipient>, used: set<nat>) {
    var t := Greedy(env, rs, es, used);
    t.Some? && forall i | 0 <= i < |rs| :: i in t.value
  }

  // The tail of the list, with its head in place of the element at j.
  function HeadTo(sigma: seq<nat>, j: nat): (r: seq<nat>)
    requires j < |sigma|
    ensures |r| == |sigma| - 1
    ensures forall n | 0 <= n < |r| :: r[n] == if n + 1 == j then sigma[0] else sigma[n + 1]
  {
    if j == 0 then sigma[1..] else sigma[1..][j - 1 := sigma[0]]
  }

  // It is the list without that element.
  lemma HeadToDropsOne(sigma: seq<nat>, j: nat)
    requires j < |sigma| && Distinct(sigma)
    ensures Distinct(HeadTo(sigma, j))
    ensures forall x :: x in HeadTo(sigma, j) <==> x in sigma && x != sigma[j]
  {
    var r := HeadTo(sigma, j);
    forall x | x in sigma && x != sigma[j] ensures x in r {
      var k :| 0 <= k < |sigma| && sigma[k] == x;
      assert if k == 0 then r[j - 1] == x else r[k - 1] == x;
    }
  }

  // If the first line takes recipient i although a matching gave it another,
  // whoever had i takes that other one instead.
  lemma Exchange(env: Env, rs: seq<Recipient>, es: seq<ExpectedRecipient>, used: set<nat>, sigma: seq<nat>, i: nat)
      returns (rest: seq<nat>)
    requires es != [] && Matching(env, rs, es, used, sigma) && Unambiguous(env, rs, es)
    requires i < |rs| && i !in used && Fits(env, rs[i], es[0])
    ensures Matching(env, rs, es[1..], used + {i}, rest)
  {
    var j :| 0 <= j < |sigma| && sigma[j] == i;
    rest := HeadTo(sigma, j);
    HeadToDropsOne(sigma, j);
    assert Fits(env, rs[sigma[0]], es[0]) && Fits(env, rs[i], es[j]);
    forall n | 0 <= n < |rest| ensures rest[n] < |rs| && rest[n] !in used + {i} && Fits(env, rs[rest[n]], es[1..][n]) {
      assert rest[n] in rest && rest[n] in sigma;
      if n + 1 == j { assert Agreed(env, rs, es, 0, j, i, sigma[0]); }
      else { assert Fits(env, rs[sigma[n + 1]], es[n + 1]); }
    }
  }

  lemma {:induction false} GreedyFinds(env: Env, rs: seq<Recipient>, es: seq<ExpectedRecipient>, used: set<nat>,
      sigma: seq<nat>)
    requires Matching(env, rs, es, used, sigma) && Unambiguous(env, rs, es)
    ensures Settles(env, rs, es, used)
    decreases |es|
  {
    if es == [] {
    } else {
      var i := FirstFit(env, rs, used, es[0], 0);
      assert Fits(env, rs[sigma[0]], es[0]) && sigma[0] !in used;
      var rest := Exchange(env, rs, es, used, sigma, i);
      UnambiguousTail(env, rs, es);
      GreedyFinds(env, rs, es[1..], used + {i}, rest);
    }
  }

  // Without ambiguity, first fit succeeds iff any pairing of everyone expected
  // with everyone decoded exists.
  lemma FirstFitIsExact(env: Env, rs: seq<Recipient>, es: seq<ExpectedRecipient>)
    requires Unambiguous(env, rs, es)
    ensures Paired(env, rs, es) <==> exists sigma :: Matching(env, rs, es, {}, sigma)
  {
    if Paired(env, rs, es) {
      var sigma := GreedySound(env, rs, es);
      assert Matching(env, rs, es, {}, sigma);
    }
    if sigma :| Matching(env, rs, es, {}, sigma) { GreedyFinds(env, rs, es, {}, sigma); }
  }

  // With it, first fit can refuse what could be paired: an owner expected
  // before one of its own two token accounts takes that account's place.
  lemma FirstFitCanRefuse(env: Env, owner: Key, first: Key, second: Key, mint: Key, amount: U64, decimals: Byte)
    requires owner != first && first != second && DeriveAta(env, first, mint, TOKEN_2022_PROGRAM) != second
    ensures var rs := [Spl(owner, first, Some(true), amount, mint, decimals, TOKEN_PROGRAM),
                       Spl(owner, second, Some(true), amount, mint, decimals, TOKEN_2022_PROGRAM)];
            var es := [ExpectedRecipient(Base58(owner), Number(amount)),
                       ExpectedRecipient(Base58(first), Number(amount))];
            Matching(env, rs, es, {}, [1, 0]) && !Paired(env, rs, es)
  {
    var rs := [Spl(owner, first, Some(true), amount, mint, decimals, TOKEN_PROGRAM),
               Spl(owner, second, Some(true), amount, mint, decimals, TOKEN_2022_PROGRAM)];
    var es := [ExpectedRecipient(Base58(owner), Number(amount)), ExpectedRecipient(Base58(first), Number(amount))];
    assert [1, 0][0] == 1 && [1, 0][1] == 0;
    assert Fits(env, rs[0], es[0]) && Fits(env, rs[1], es[0]) && Fits(env, rs[0], es[1]) && !Fits(env, rs[1], es[1]);
    assert FirstFit(env, rs, {}, es[0], 0) == 0;
    assert FirstFit(env, rs, {0}, es[1], 0) == 2;
    assert es[1..] == [es[1]];
    assert Greedy(env, rs, es[1..], {} + {0}) == None;
  }

  function ExpectedTotal(es: seq<ExpectedRecipient>): nat {
    if es == [] then 0 else (if es[0].amount.Number? then es[0].amount.n else 0) + ExpectedTotal(es[1..])
  }

  // What the recipients from `from` on still have unclaimed.
  function Unclaimed(rs: seq<Recipient>, used: set<nat>, from: nat): nat
    requires from <= |rs|
    decreases |rs| - from
  {
    if from == |rs| then 0 else (if from in used then 0 else rs[from].amount) + Unclaimed(rs, used, from + 1)
  }

  lemma {:induction false} UnclaimedTake(rs: seq<Recipient>, used: set<nat>, i: nat, from: nat)
    requires from <= |rs| && i < |rs| && i !in used
    ensures Unclaimed(rs, used, from) == Unclaimed(rs, used + {i}, from) + (if from <= i then rs[i].amount else 0)
    decreases |rs| - from
  {
    if from == |rs| {
    } else {
      UnclaimedTake(rs, used, i, from + 1);
    }
  }

  lemma {:induction false} GreedyClaims(env: Env, rs: seq<Recipient>, es: seq<ExpectedRecipient>, used: set<nat>)
    requires Greedy(env, rs, es, used).Some?
    ensures Unclaimed(rs, used, 0) == ExpectedTotal(es) + Unclaimed(rs, Greedy(env, rs, es, used).value, 0)
    decreases |es|
  {
    if es == [] {
    } else {
      var i := FirstFit(env, rs, used, es[0], 0);
      UnclaimedTake(rs, used, i, 0);
      GreedyClaims(env, rs, es[1..], used + {i});
    }
  }

  lemma {:induction false} NothingUnclaimed(rs: seq<Recipient>, used: set<nat>, from: nat)
    requires from <= |rs| && forall i | 0 <= i < |rs| :: i in used
    ensures Unclaimed(rs, used, from) == 0
    decreases |rs| - from
  {
    if from == |rs| {
    } else {
      NothingUnclaimed(rs, used, from + 1);
    }
  }

  // The decoded amounts and the expected amounts add up to the same.
  lemma TotalsAgree(env: Env, rs: seq<Recipient>, es: seq<ExpectedRecipient>)
    requires Paired(env, rs, es)
    ensures Unclaimed(rs, {}, 0) == ExpectedTotal(es)
  {
    GreedyClaims(env, rs, es, {});
    NothingUnclaimed(rs, Greedy(env, rs, es, {}).value, 0);
  }

  // ---- native payloads: greedy loses nothing ----

  function Line(r: Recipient): ExpectedRecipient { ExpectedRecipient(Base58(r.address), Number(r.amount)) }

  // The lines of the recipients from `from` on that are still unused.
  function Remaining(rs: seq<Recipient>, used: set<nat>, from: nat): multiset<ExpectedRecipient>
    requires from <= |rs|
    decreases |rs| - from
  {
    if from == |rs| then multiset{} else
    (if from in used then multiset{} else multiset{Line(rs[from])}) + Remaining(rs, used, from + 1)
  }

  // Taking recipient i takes one of its line, and leaves every other line as it was.
  lemma {:induction false} RemainingTakeAt(rs: seq<Recipient>, used: set<nat>, i: nat, from: nat, e: ExpectedRecipient)
    requires from <= |rs| && i < |rs| && i !in used
    ensures Remaining(rs, used, from)[e]
            == Remaining(rs, used + {i}, from)[e] + (if from <= i && Line(rs[i]) == e then 1 else 0)
    decreases |rs| - from
  {
    if from == |rs| {
    } else {
      RemainingTakeAt(rs, used, i, from + 1, e);
    }
  }

  lemma RemainingTake(rs: seq<Recipient>, used: set<nat>, i: nat)
    requires i < |rs| && i !in used
    ensures Remaining(rs, used, 0) == Remaining(rs, used + {i}, 0) + multiset{Line(rs[i])}
  {
    var before, after := Remaining(rs, used, 0), Remaining(rs, used + {i}, 0) + multiset{Line(rs[i])};
    forall e ensures before[e] == after[e] { RemainingTakeAt(rs, used, i, 0, e); }
  }

  // A line remains iff an unused recipient has it.
  lemma {:induction false} RemainingHas(rs: seq<Recipient>, used: set<nat>, i: nat, from: nat)
    requires from <= i < |rs| && i !in used
    ensures Line(rs[i]) in Remaining(rs, used, from)
    decreases |rs| - from
  {
    if from == i {
    } else {
      RemainingHas(rs, used, i, from + 1);
    }
  }

  lemma {:induction false} RemainingLacks(rs: seq<Recipient>, used: set<nat>, e: ExpectedRecipient, from: nat)
    requires from <= |rs| && forall j | from <= j < |rs| :: j in used || Line(rs[j]) != e
    ensures e !in Remaining(rs, used, from)
    decreases |rs| - from
  {
    if from == |rs| {
    } else {
      RemainingLacks(rs, used, e, from + 1);
    }
  }

  lemma CancelOne<T>(x: T, a: multiset<T>, b: multiset<T>)
    ensures a + multiset{x} == multiset{x} + b <==> a == b
  {
    if a + multiset{x} == multiset{x} + b {
      assert a == (a + multiset{x}) - multiset{x};
      assert b == (multiset{x} + b) - multiset{x};
    }
  }

  lemma {:induction false} NativeGreedy(env: Env, rs: seq<Recipient>, es: seq<ExpectedRecipient>, used: set<nat>)
    requires forall i | 0 <= i < |rs| :: rs[i].Native?
    ensures Settles(env, rs, es, used) <==> Remaining(rs, used, 0) == multiset(es)
    decreases |es|
  {
    if es == [] {
      if i: nat :| i < |rs| && i !in used { RemainingHas(rs, used, i, 0); } else { NothingRemains(rs, used, 0); }
    } else {
      assert multiset(es) == multiset{es[0]} + multiset(es[1..]) by { assert es == [es[0]] + es[1..]; }
      var i := FirstFit(env, rs, used, es[0], 0);
      if i < |rs| {
        assert Line(rs[i]) == es[0];
        RemainingTake(rs, used, i);
        NativeGreedy(env, rs, es[1..], used + {i});
        CancelOne(es[0], Remaining(rs, used + {i}, 0), multiset(es[1..]));
      } else {
        RemainingLacks(rs, used, es[0], 0);
        assert es[0] in multiset(es);
      }
    }
  }

  lemma {:induction false} NothingRemains(rs: seq<Recipient>, used: set<nat>, from: nat)
    requires from <= |rs| && forall i | 0 <= i < |rs| :: i in used
    ensures Remaining(rs, used, from) == multiset{}
    decreases |rs| - from
  {
    if from == |rs| {
    } else {
      NothingRemains(rs, used, from + 1);
    }
  }

  function Lines(rs: seq<Recipient>): seq<ExpectedRecipient> {
    if rs == [] then [] else [Line(rs[0])] + Lines(rs[1..])
  }

  lemma {:induction false} RemainingIsLines(rs: seq<Recipient>, from: nat)
    requires from <= |rs|
    ensures Remaining(rs, {}, from) == multiset(Lines(rs[from..]))
    decreases |rs| - from
  {
    if from == |rs| {
    } else {
      RemainingIsLines(rs, from + 1);
      assert rs[from..][1..] == rs[from + 1..];
    }
  }

  // When every recipient is native, the greedy loop accepts exactly the
  // payloads with the same (address, amount) lines, each as often.
  lemma NativeMatchIff(env: Env, rs: seq<Recipient>, es: seq<ExpectedRecipient>)
    requires forall r | r in rs :: r.Native?
    ensures Paired(env, rs, es) <==> multiset(Lines(rs)) == multiset(es)
  {
    forall i | 0 <= i < |rs| ensures rs[i].Native? { assert rs[i] in rs; }
    NativeGreedy(env, rs, es, {});
    RemainingIsLines(rs, 0);
    assert rs[0..] == rs;
  }

  // ---- the whole comparison ----

  // A vault-to-fee-payer total within the cap, paid to the expected payer.
  predicate FeeAccepted(v: View, x: Expectation) {
    && (match x.maxFee
        case Unset => v.feeLamports == 0
        case Cap(Number(n)) => v.feeLamports <= n
        case Cap(NotANumber) => false)
    && (v.feeLamports > 0 && x.expectedFeePayer.Some? ==>
          v.feePayer.Some? && x.expectedFeePayer.value == Base58(v.feePayer.value))
  }

  // With a mint, token transfers of exactly that mint and scale; without, native transfers.
  predicate AssetAccepted(r: Recipient, x: Expectation) {
    if r.Spl? then
      && x.tokenMint == Some(Base58(r.mint))
      && (x.tokenDecimals.Some? ==> x.tokenDecimals.value == r.decimals)
    else x.tokenMint.None?
  }

  predicate FlowsAccepted(env: Env, v: View, x: Expectation) {
    && v.unknown == 0
    && FeeAccepted(v, x)
    && Paired(env, v.recipients, x.recipients)
    && (forall i | 0 <= i < |v.recipients| :: AssetAccepted(v.recipients[i], x))
  }

  // Counts the mismatches it reports.
  method CompareFundFlows(env: Env, v: View, x: Expectation) returns (mismatches: nat)
    ensures mismatches == 0 <==> FlowsAccepted(env, v, x)
  {
    mismatches := 0;
    if v.unknown > 0 { mismatches := mismatches + 1; }
    var maxFee := if x.maxFee.Unset? then Number(0) else x.maxFee.amount;
    if maxFee.NotANumber? {
      mismatches := mismatches + 1;
    } else if v.feeLamports > maxFee.n {
      mismatches := mismatches + 1;
    }
    if v.feeLamports > 0 && x.expectedFeePayer.Some? {
      if v.feePayer.None? || x.expectedFeePayer.value != Base58(v.feePayer.value) { mismatches := mismatches + 1; }
    }
    ghost var feeOk := v.unknown == 0 && FeeAccepted(v, x);
    assert mismatches == 0 <==> feeOk;
    var unmatched := MatchRecipients(env, v.recipients, x.recipients);
    mismatches := mismatches + unmatched;
    ghost var before := mismatches;
    for i := 0 to |v.recipients|
      invariant mismatches >= before
      invariant mismatches == before <==> forall j | 0 <= j < i :: AssetAccepted(v.recipients[j], x)
    {
      var r := v.recipients[i];
      if r.Spl? {
        if x.tokenMint.None? {
          mismatches := mismatches + 1;
        } else if x.tokenMint.value != Base58(r.mint) {
          mismatches := mismatches + 1;
        }
        if x.tokenDecimals.Some? && r.decimals != x.tokenDecimals.value { mismatches := mismatches + 1; }
      } else if x.tokenMint.Some? {
        mismatches := mismatches + 1;
      }
    }
  }

  // ---- what a message shows ----

  // Whose associated accounts to look for: an owner and a mint, if both are given.
  datatype Attribution = Attribution(owner: Option<Address>, mint: Option<Address>) {
    predicate Asked() { owner.Some? && mint.Some? }

    predicate Readable() { Asked() ==> owner.value.Base58? && mint.value.Base58? }
  }

  // The recipient as displayed.
  function Displayed(env: Env, r: Recipient, who: Attribution): Recipient {
    if who.Asked() && who.Readable() then Attributed(env, r, who.owner.value.key, who.mint.value.key) else r
  }

  // The view is that of a list of verdicts, its recipients as displayed.
  ghost predicate Shows(env: Env, vs: seq<Verdict>, lookups: nat, feePayer: Option<Key>, who: Attribution, v: View) {
    && |v.recipients| == |RecipientsOf(vs)|
    && (forall i | 0 <= i < |v.recipients| :: v.recipients[i] == Displayed(env, RecipientsOf(vs)[i], who))
    && v.feeLamports == FeesOf(vs) && v.unknown == UnknownsOf(vs) + lookups && v.feePayer == feePayer
  }

  ghost predicate ShowsMessage(env: Env, inner: InnerMessage, feePayer: Option<Key>, allowMemo: bool,
      who: Attribution, v: View) {
    && inner.accountKeys != []
    && Shows(env, JudgeAll(env, inner.accountKeys, feePayer, allowMemo, inner.instructions),
             inner.addressTableLookupCount, feePayer, who, v)
  }

  lemma ShowsUnique(env: Env, inner: InnerMessage, feePayer: Option<Key>, allowMemo: bool, who: Attribution,
      v: View, w: View)
    requires ShowsMessage(env, inner, feePayer, allowMemo, who, v)
             && ShowsMessage(env, inner, feePayer, allowMemo, who, w)
    ensures v == w
  {
    assert v.recipients == w.recipients;
  }

  method ViewMessage(env: Env, inner: InnerMessage, feePayer: Option<Key>, allowMemo: bool, who: Attribution)
      returns (r: Option<(View, seq<seq<Byte>>)>)
    ensures r.Some? <==> inner.accountKeys != [] && who.Readable()
    ensures r.Some? ==>
              && ShowsMessage(env, inner, feePayer, allowMemo, who, r.value.0)
              && r.value.1 == MemosOf(JudgeAll(env, inner.accountKeys, feePayer, allowMemo, inner.instructions))
  {
    var c :- ClassifyInnerMessage(env, inner, feePayer, allowMemo);
    var recipients := c.recipients;
    if who.owner.Some? && who.mint.Some? {
      recipients :- ResolveAtaOwner(env, recipients, who.owner.value, who.mint.value);
    }
    return Some((View(recipients, c.feeLamports, feePayer, c.unknown), c.memos));
  }
}
