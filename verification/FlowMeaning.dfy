/** What agreement of the displayed flows with a payload means, item by item. */
module FlowMeaning {
  import opened Wrappers
  import opened Bytes
  import opened Pda
  import opened Ids
  import opened Classifier
  import opened FundFlows

  // A native recipient goes by its address; a token recipient by the address on
  // display, by its account, or by the owner whose associated account that is.
  predicate GoesBy(env: Env, r: Recipient, k: Key) {
    match r
    case Native(to, _) => k == to
    case Spl(address, ata, _, _, mint, _, token) =>
      k == address || k == ata || env.find(k + token + mint, ATA_PROGRAM).0 == ata
  }

  // This recipient is what the line asks for.
  predicate Serves(env: Env, r: Recipient, e: ExpectedRecipient) {
    e.address.Base58? && GoesBy(env, r, e.address.key) && e.amount.Number? && e.amount.n == r.amount
  }

  // No fee unless a cap is given as a number, and then no more than that; and any
  // fee goes to the payer expected, if one is.
  predicate FeeWithin(v: View, x: Expectation) {
    && (match x.maxFee
        case Unset => v.feeLamports == 0
        case Cap(NotANumber) => false
        case Cap(Number(n)) => v.feeLamports <= n)
    && (v.feeLamports == 0 || x.expectedFeePayer.None?
        || (v.feePayer.Some? && x.expectedFeePayer == Some(Base58(v.feePayer.value))))
  }

  // Lamports if no mint is given; else that mint, with those decimals if given.
  predicate InAsset(r: Recipient, x: Expectation) {
    match x.tokenMint
    case None => r.Native?
    case Some(mint) =>
      r.Spl? && mint == Base58(r.mint) && (x.tokenDecimals.None? || x.tokenDecimals == Some(r.decimals as int))
  }

  // Expected line j is served by recipient at[j]; every recipient serves one line.
  ghost predicate OneToOne(env: Env, rs: seq<Recipient>, es: seq<ExpectedRecipient>, at: seq<nat>) {
    && |at| == |es| == |rs|
    && (forall i, j | 0 <= i < j < |at| :: at[i] != at[j])
    && forall j | 0 <= j < |at| :: at[j] < |rs| && Serves(env, rs[at[j]], es[j])
  }

  lemma ServesMeans(env: Env, r: Recipient, e: ExpectedRecipient)
    ensures Fits(env, r, e) <==> Serves(env, r, e)
  {}

  // Nothing unknown, the fee within its cap, everybody paired, everything in the asset asked for.
  predicate FlowsAgree(env: Env, v: View, x: Expectation) {
    && v.unknown == 0 && FeeWithin(v, x) && Paired(env, v.recipients, x.recipients)
    && forall i | 0 <= i < |v.recipients| :: InAsset(v.recipients[i], x)
  }

  lemma FlowsMean(env: Env, v: View, x: Expectation)
    ensures FlowsAccepted(env, v, x) <==> FlowsAgree(env, v, x)
  {
    forall i | 0 <= i < |v.recipients|
      ensures AssetAccepted(v.recipients[i], x) <==> InAsset(v.recipients[i], x)
    {}
  }

  // Whoever is paired serves, one to one.
  lemma PairedServes(env: Env, rs: seq<Recipient>, es: seq<ExpectedRecipient>) returns (at: seq<nat>)
    requires Paired(env, rs, es)
    ensures OneToOne(env, rs, es, at)
  {
    at := GreedySound(env, rs, es);
    forall j | 0 <= j < |at| ensures at[j] < |rs| && Serves(env, rs[at[j]], es[j]) {
      ServesMeans(env, rs[at[j]], es[j]);
    }
  }

  // Expecting one, it is exact: there is one recipient, and it is that one.
  lemma OnePairedIff(env: Env, rs: seq<Recipient>, e: ExpectedRecipient)
    ensures Paired(env, rs, [e]) <==> |rs| == 1 && Serves(env, rs[0], e)
  {
    if Paired(env, rs, [e]) {
      var at := PairedServes(env, rs, [e]);
      assert at[0] == 0;
    }
    if |rs| == 1 && Serves(env, rs[0], e) {
      ServesMeans(env, rs[0], e);
      assert FirstFit(env, rs, {}, e, 0) == 0;
      assert [e][1..] == [];
      assert Greedy(env, rs, [e], {}) == Some({} + {0});
    }
  }
}
