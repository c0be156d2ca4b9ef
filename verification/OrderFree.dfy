/** When first-fit matching does not depend on the order of its lists: exactly when
    everyone can be paired at all and no two expected lines compete. */
module OrderFree {
  import opened Wrappers
  import opened Bytes
  import opened Members
  import opened State
  import opened Reader
  import opened Pda
  import opened Ids
  import opened Classifier
  import opened FundFlows

  // ---- orderings ----

  // Each of 0..n-1 once.
  ghost predicate Ordering(pi: seq<nat>, n: nat) { |pi| == n && Distinct(pi) && forall k | 0 <= k < n :: pi[k] < n }

  function Arranged<T>(s: seq<T>, pi: seq<nat>): (r: seq<T>)
    requires forall k | 0 <= k < |pi| :: pi[k] < |s|
    ensures |r| == |pi| && forall k | 0 <= k < |r| :: r[k] == s[pi[k]]
  {
    seq(|pi|, k requires 0 <= k < |pi| => s[pi[k]])
  }

  // An ordering leaves nothing out.
  lemma Onto(pi: seq<nat>, n: nat)
    requires Ordering(pi, n)
    ensures forall x: nat | x < n :: x in pi
  {
    if x: nat :| x < n && x !in pi {
      var longer := pi + [x];
      assert Distinct(longer);
      forall y | y in longer ensures y in Range(n) { assert Range(n)[y] == y; }
      Pigeonhole(longer, Range(n));
    }
  }

  // Where x stands in the list.
  function Place(pi: seq<nat>, x: nat): (k: nat)
    requires x in pi
    ensures k < |pi| && pi[k] == x
  {
    if pi[0] == x then 0 else 1 + Place(pi[1..], x)
  }

  function Inverse(pi: seq<nat>, n: nat): (r: seq<nat>)
    requires Ordering(pi, n)
    ensures Ordering(r, n)
    ensures forall x: nat | x < n :: pi[r[x]] == x && r[pi[x]] == x
  {
    Onto(pi, n);
    var r := seq(n, x requires 0 <= x < n => Place(pi, x));
    assert forall x: nat | x < n :: r[x] < n && pi[r[x]] == x;
    assert forall x: nat | x < n :: r[pi[x]] == x;
    r
  }

  lemma Compose(a: seq<nat>, b: seq<nat>, n: nat)
    requires Ordering(a, n) && Ordering(b, n)
    ensures Ordering(Arranged(a, b), n)
  {}

  // Distinct numbers below n begin some ordering.
  lemma Complete(s: seq<nat>, n: nat) returns (pi: seq<nat>)
    requires Distinct(s) && forall k | 0 <= k < |s| :: s[k] < n
    ensures Ordering(pi, n) && s <= pi
    decreases n - |s|
  {
    forall x | x in s ensures x in Range(n) { assert Range(n)[x] == x; }
    Pigeonhole(s, Range(n));
    if x: nat :| x < n && x !in s {
      if |s| == n { Onto(s, n); assert false; }
      pi := Complete(s + [x], n);
    } else {
      forall x | x in Range(n) ensures x in s {}
      Pigeonhole(Range(n), s);
      pi := s;
    }
  }

  // ---- perfect pairings ----

  // Line l is given recipient sigma[l].
  ghost predicate Perfect(env: Env, rs: seq<Recipient>, es: seq<ExpectedRecipient>, sigma: seq<nat>) {
    && |rs| == |es| && Ordering(sigma, |rs|)
    && forall l | 0 <= l < |es| :: Fits(env, rs[sigma[l]], es[l])
  }

  lemma PerfectIsMatching(env: Env, rs: seq<Recipient>, es: seq<ExpectedRecipient>, sigma: seq<nat>)
    ensures Perfect(env, rs, es, sigma) <==> Matching(env, rs, es, {}, sigma)
  {
    if Perfect(env, rs, es, sigma) { Onto(sigma, |rs|); }
    if Matching(env, rs, es, {}, sigma) {
      forall x | x in sigma ensures x in Range(|rs|) { assert Range(|rs|)[x] == x; }
      Pigeonhole(sigma, Range(|rs|));
      Pigeonhole(Range(|rs|), sigma);
    }
  }

  // A perfect pairing of rearranged lists, read back on the lists themselves.
  lemma Relabel(env: Env, rs: seq<Recipient>, es: seq<ExpectedRecipient>, rho: seq<nat>, pi: seq<nat>, tau: seq<nat>)
      returns (sigma: seq<nat>)
    requires Ordering(rho, |rs|) && Ordering(pi, |es|) && Perfect(env, Arranged(rs, rho), Arranged(es, pi), tau)
    ensures Perfect(env, rs, es, sigma)
    ensures forall k | 0 <= k < |pi| :: sigma[pi[k]] == rho[tau[k]]
  {
    var n, back := |rs|, Inverse(pi, |es|);
    Compose(rho, tau, n);
    Compose(Arranged(rho, tau), back, n);
    sigma := Arranged(Arranged(rho, tau), back);
    forall l | 0 <= l < n ensures Fits(env, rs[sigma[l]], es[l]) {
      assert Fits(env, Arranged(rs, rho)[tau[back[l]]], Arranged(es, pi)[back[l]]);
    }
  }

  // ---- what every order would do ----

  ghost predicate PairedAs(env: Env, rs: seq<Recipient>, es: seq<ExpectedRecipient>, rho: seq<nat>, pi: seq<nat>) {
    Ordering(rho, |rs|) && Ordering(pi, |es|) ==> Paired(env, Arranged(rs, rho), Arranged(es, pi))
  }

  // First fit succeeds whatever order recipients and lines come in.
  ghost predicate AlwaysPaired(env: Env, rs: seq<Recipient>, es: seq<ExpectedRecipient>) {
    forall rho, pi :: PairedAs(env, rs, es, rho, pi)
  }

  lemma TakesNext(env: Env, rs: seq<Recipient>, es: seq<ExpectedRecipient>, used: set<nat>, m: nat)
    requires es != [] && m < |rs| && Fits(env, rs[m], es[0]) && forall x: nat :: x in used <==> x < m
    ensures Greedy(env, rs, es, used) == Greedy(env, rs, es[1..], used + {m})
  {
    var i := FirstFit(env, rs, used, es[0], 0);
    assert i == m;
  }

  lemma OneMoreMatched(env: Env, rs: seq<Recipient>, es: seq<ExpectedRecipient>, used: set<nat>, m: nat, rest: seq<nat>)
    requires es != [] && m < |rs| && m !in used && Fits(env, rs[m], es[0])
             && Matching(env, rs, es[1..], used + {m}, rest)
    ensures Matching(env, rs, es, used, [m] + rest)
  {
    var all := [m] + rest;
    forall j | 0 <= j < |all| ensures all[j] < |rs| && all[j] !in used && Fits(env, rs[all[j]], es[j]) {
      if j > 0 { assert rest[j - 1] !in used + {m} && Fits(env, rs[rest[j - 1]], es[1..][j - 1]); }
    }
    forall i, j | 0 <= i < j < |all| ensures all[i] != all[j] {
      assert rest[j - 1] !in used + {m};
    }
    assert forall x :: x in all <==> x == m || x in rest;
  }

  lemma SettledMatching(env: Env, rs: seq<Recipient>, es: seq<ExpectedRecipient>, used: set<nat>)
    returns (sigma: seq<nat>)
    requires Settles(env, rs, es, used)
    ensures Matching(env, rs, es, used, sigma)
  {
    sigma := GreedyAssigns(env, rs, es, used);
  }

  // The n-th line from here fits the n-th recipient from m.
  ghost predicate Next(env: Env, rs: seq<Recipient>, es: seq<ExpectedRecipient>, m: nat, n: nat) {
    m + n < |rs| && n < |es| && Fits(env, rs[m + n], es[n])
  }

  // If the next lines fit the next recipients one by one, first fit gives them those.
  lemma {:induction false} Diagonal(env: Env, rs: seq<Recipient>, es: seq<ExpectedRecipient>, used: set<nat>, m: nat,
      k: nat)
      returns (sigma: seq<nat>)
    requires Settles(env, rs, es, used) && m <= k
    requires forall x: nat :: x in used <==> x < m
    requires forall n: nat :: n < k - m ==> Next(env, rs, es, m, n)
    ensures Matching(env, rs, es, used, sigma) && |sigma| >= k - m
    ensures forall n | 0 <= n < k - m :: sigma[n] == m + n
    decreases |es|
  {
    if m == k {
      sigma := SettledMatching(env, rs, es, used);
    } else {
      assert Next(env, rs, es, m, 0);
      TakesNext(env, rs, es, used, m);
      var onward := m + 1;
      forall n: nat | n < k - onward ensures Next(env, rs, es[1..], onward, n) {
        assert Next(env, rs, es, m, n + 1);
      }
      var rest := Diagonal(env, rs, es[1..], used + {m}, m + 1, k);
      OneMoreMatched(env, rs, es, used, m, rest);
      sigma := [m] + rest;
    }
  }

  // So any pairs that fit, however few, are part of a perfect pairing.
  lemma Extends(env: Env, rs: seq<Recipient>, es: seq<ExpectedRecipient>, ls: seq<nat>, ts: seq<nat>)
    returns (sigma: seq<nat>)
    requires AlwaysPaired(env, rs, es) && |ls| == |ts| && Distinct(ls) && Distinct(ts)
    requires forall n | 0 <= n < |ls| :: ls[n] < |es| && ts[n] < |rs| && Fits(env, rs[ts[n]], es[ls[n]])
    ensures Perfect(env, rs, es, sigma)
    ensures forall n | 0 <= n < |ls| :: sigma[ls[n]] == ts[n]
  {
    var pi := Complete(ls, |es|);
    var rho := Complete(ts, |rs|);
    assert PairedAs(env, rs, es, rho, pi);
    var rs', es' := Arranged(rs, rho), Arranged(es, pi);
    forall n: nat | n < |ls| ensures Next(env, rs', es', 0, n) {
      assert rho[n] == ts[n] && pi[n] == ls[n];
    }
    var tau := Diagonal(env, rs', es', {}, 0, |ls|);
    PerfectIsMatching(env, rs', es', tau);
    sigma := Relabel(env, rs, es, rho, pi, tau);
    forall n | 0 <= n < |ls| ensures sigma[ls[n]] == ts[n] {
      assert pi[n] == ls[n] && rho[n] == ts[n];
    }
  }

  // Everything below n but c, in order.
  function Without(n: nat, c: nat): (s: seq<nat>)
    requires c < n
    ensures |s| == n - 1 && Distinct(s)
    ensures forall k | 0 <= k < |s| :: s[k] == if k < c then k else k + 1
  {
    seq(n - 1, k => if k < c then k else k + 1)
  }

  // If all lines but c fit what g gives them, c fits what g leaves it.
  lemma LastOneFits(env: Env, rs: seq<Recipient>, es: seq<ExpectedRecipient>, g: seq<nat>, c: nat)
    requires AlwaysPaired(env, rs, es) && |rs| == |es| && Ordering(g, |rs|) && c < |es|
    requires forall l | 0 <= l < |es| && l != c :: Fits(env, rs[g[l]], es[l])
    ensures Fits(env, rs[g[c]], es[c])
  {
    var ls := Without(|es|, c);
    var ts := Arranged(g, ls);
    var sigma := Extends(env, rs, es, ls, ts);
    forall l | 0 <= l < |es| && l != c ensures sigma[l] == g[l] {
      var k := if l < c then l else l - 1;
      assert ls[k] == l;
    }
    Onto(sigma, |rs|);
    assert g[c] in sigma;
    var x :| 0 <= x < |sigma| && sigma[x] == g[c];
    assert x == c;
  }

  // Three, or two of them, may trade places.
  lemma Trades(p: seq<nat>, n: nat, a: nat, b: nat, c: nat)
    requires Ordering(p, n) && a < n && b < n && c < n && a != b && a != c && b != c
    ensures Ordering(p[a := p[c]][b := p[a]][c := p[b]], n) && Ordering(p[b := p[c]][c := p[b]], n)
  {}

  // Two lines that compete would leave some order stranded.
  lemma NoCompetition(env: Env, rs: seq<Recipient>, es: seq<ExpectedRecipient>, a: nat, b: nat, i: nat, j: nat)
    requires AlwaysPaired(env, rs, es)
    ensures Agreed(env, rs, es, a, b, i, j)
  {
    if !Agreed(env, rs, es, a, b, i, j) {
      var p := Extends(env, rs, es, [a], [i]);
      assert p[[a][0]] == [i][0];
      Onto(p, |rs|);
      assert j in p;
      var c :| 0 <= c < |p| && p[c] == j;
      var k := p[b];
      assert Fits(env, rs[k], es[b]);
      Trades(p, |rs|, a, b, c);
      LastOneFits(env, rs, es, p[a := j][b := i][c := k], c);
      LastOneFits(env, rs, es, p[b := j][c := k], b);
      assert false;
    }
  }

  // First fit succeeds in every order exactly when everyone can be paired at
  // all and lines that could take the same recipient could take all the same.
  lemma OrderFreeIff(env: Env, rs: seq<Recipient>, es: seq<ExpectedRecipient>)
    ensures AlwaysPaired(env, rs, es) <==>
              Unambiguous(env, rs, es) && exists sigma :: Matching(env, rs, es, {}, sigma)
  {
    if AlwaysPaired(env, rs, es) {
      var sigma := Extends(env, rs, es, [], []);
      PerfectIsMatching(env, rs, es, sigma);
      forall a: nat, b: nat, i: nat, j: nat ensures Agreed(env, rs, es, a, b, i, j) {
        NoCompetition(env, rs, es, a, b, i, j);
      }
    }
    if Unambiguous(env, rs, es) && exists sigma :: Matching(env, rs, es, {}, sigma) {
      var sigma :| Matching(env, rs, es, {}, sigma);
      PerfectIsMatching(env, rs, es, sigma);
      forall rho, pi ensures PairedAs(env, rs, es, rho, pi) {
        if Ordering(rho, |rs|) && Ordering(pi, |es|) { AnyOrder(env, rs, es, sigma, rho, pi); }
      }
    }
  }

  lemma AnyOrder(env: Env, rs: seq<Recipient>, es: seq<ExpectedRecipient>, sigma: seq<nat>, rho: seq<nat>, pi: seq<nat>)
    requires Unambiguous(env, rs, es) && Perfect(env, rs, es, sigma) && Ordering(rho, |rs|) && Ordering(pi, |es|)
    ensures Paired(env, Arranged(rs, rho), Arranged(es, pi))
  {
    var rs', es' := Arranged(rs, rho), Arranged(es, pi);
    forall a: nat, b: nat, i: nat, j: nat ensures Agreed(env, rs', es', a, b, i, j) {
      if a < |es'| && b < |es'| && i < |rs'| && j < |rs'| {
        assert Agreed(env, rs, es, pi[a], pi[b], rho[i], rho[j]);
      }
    }
    var rhoBack, piBack := Inverse(rho, |rs|), Inverse(pi, |es|);
    assert Arranged(rs', rhoBack) == rs && Arranged(es', piBack) == es;
    var tau := Relabel(env, rs', es', rhoBack, piBack, sigma);
    PerfectIsMatching(env, rs', es', tau);
    FirstFitIsExact(env, rs', es');
  }

  // ---- a message it refuses ----

  // One token under both token programs: to `first` under the one, to `second` under the other.
  function PayBoth(vault: Key, sources: (Key, Key), mint: Key, first: Key, second: Key, amount: U64,
      decimals: Byte): InnerMessage {
    InnerMessage(0, [vault, sources.0, sources.1, mint, first, second, TOKEN_PROGRAM, TOKEN_2022_PROGRAM],
                 [CompiledInstruction(6, [1, 3, 4, 0], CheckedData(amount, decimals)),
                  CompiledInstruction(7, [2, 3, 5, 0], CheckedData(amount, decimals))], 0)
  }

  lemma TwoJudged(env: Env, keys: seq<Key>, feePayer: Option<Key>, allowMemo: bool, ixs: seq<CompiledInstruction>,
      r: Recipient, s: Recipient)
    requires keys != [] && |ixs| == 2
    requires Judge(env, keys, feePayer, allowMemo, ixs[0]) == Paid(r)
             && Judge(env, keys, feePayer, allowMemo, ixs[1]) == Paid(s)
    ensures var vs := JudgeAll(env, keys, feePayer, allowMemo, ixs);
            RecipientsOf(vs) == [r, s] && FeesOf(vs) == 0 && UnknownsOf(vs) == 0
  {
    assert ixs[..1][..0] == [] && ixs[..1][0] == ixs[0];
    assert JudgeAll(env, keys, feePayer, allowMemo, ixs) == [Paid(r), Paid(s)];
    OnePaid(r);
    OnePaid(s);
    TallySnoc([Paid(r)], Paid(s));
    assert [Paid(r)] + [Paid(s)] == [Paid(r), Paid(s)];
  }

  // The message shows two payments to the owner. A payload that asks for them as
  // one to the owner and one to its first account can be paired with it, meets
  // every other condition, and is refused.
  lemma PairableButRefused(env: Env, vault: Key, sources: (Key, Key), owner: Key, mint: Key, amount: U64,
      decimals: Byte, feePayer: Option<Key>, allowMemo: bool) returns (v: View, x: Expectation)
    requires var first, second := DeriveAta(env, owner, mint, TOKEN_PROGRAM),
                                  DeriveAta(env, owner, mint, TOKEN_2022_PROGRAM);
             owner != first && first != second && DeriveAta(env, first, mint, TOKEN_2022_PROGRAM) != second
    ensures var first, second := DeriveAta(env, owner, mint, TOKEN_PROGRAM),
                                 DeriveAta(env, owner, mint, TOKEN_2022_PROGRAM);
            && ShowsMessage(env, PayBoth(vault, sources, mint, first, second, amount, decimals), feePayer, allowMemo,
                            Attribution(Some(Base58(owner)), Some(Base58(mint))), v)
            && x.recipients
               == [ExpectedRecipient(Base58(owner), Number(amount)), ExpectedRecipient(Base58(first), Number(amount))]
    ensures v.unknown == 0 && FeeAccepted(v, x)
            && forall i | 0 <= i < |v.recipients| :: AssetAccepted(v.recipients[i], x)
    ensures Matching(env, v.recipients, x.recipients, {}, [1, 0]) && !FlowsAccepted(env, v, x)
  {
    var first, second := DeriveAta(env, owner, mint, TOKEN_PROGRAM), DeriveAta(env, owner, mint, TOKEN_2022_PROGRAM);
    var inner := PayBoth(vault, sources, mint, first, second, amount, decimals);
    CheckedJudged(env, inner.accountKeys, feePayer, allowMemo, inner.instructions[0], amount, decimals);
    CheckedJudged(env, inner.accountKeys, feePayer, allowMemo, inner.instructions[1], amount, decimals);
    TwoJudged(env, inner.accountKeys, feePayer, allowMemo, inner.instructions,
              Spl(first, first, None, amount, mint, decimals, TOKEN_PROGRAM),
              Spl(second, second, None, amount, mint, decimals, TOKEN_2022_PROGRAM));
    v := View([Spl(owner, first, Some(true), amount, mint, decimals, TOKEN_PROGRAM),
               Spl(owner, second, Some(true), amount, mint, decimals, TOKEN_2022_PROGRAM)], 0, feePayer, 0);
    x := Expectation([ExpectedRecipient(Base58(owner), Number(amount)),
                      ExpectedRecipient(Base58(first), Number(amount))],
                     Some(Base58(mint)), Some(decimals), Unset, None);
    FirstFitCanRefuse(env, owner, first, second, mint, amount, decimals);
  }
}
