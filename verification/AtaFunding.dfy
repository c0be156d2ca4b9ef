/** What the enterprise decode reads of an associated-token-account instruction: who
    funds it, and nothing else. */
module AtaFunding {
  import opened Wrappers
  import opened Bytes
  import opened Pda
  import opened Bundle
  import opened Enterprise
  import opened Replacing

  lemma AtaBundle(program: Key, outer: Outer, i: nat, ix: OuterInstruction)
    requires i < |outer.instructions| && KindOf(program, outer.instructions[i]) == KindOf(program, ix) == AtaCreate
    ensures var b := Bundled(program, outer.feePayer, outer.instructions);
            var c := Bundled(program, outer.feePayer, Replaced(outer, i, ix).instructions);
            c.creates == b.creates && c.approves == b.approves && c.executes == b.executes
  {
    var ixs := outer.instructions;
    BundledParses(program, outer.feePayer, ixs);
    BundledParses(program, outer.feePayer, ReplacedAt(ixs, i, ix));
    OtherBucketsSame(program, ixs, i, ix, Kind.Create, AsCreate);
    OtherBucketsSame(program, ixs, i, ix, Kind.Approve, AsMultisig);
    OtherBucketsSame(program, ixs, i, ix, Kind.Execute, AsMultisig);
  }

  lemma AtaFlagged(outer: Outer, program: Key, caps: Option<BudgetCaps>, i: nat, ix: OuterInstruction,
      flagged: set<nat>)
    requires i < |outer.instructions| && KindOf(program, outer.instructions[i]) == KindOf(program, ix) == AtaCreate
    requires FlagsUnknown(outer, program, caps, flagged)
    ensures FlagsUnknown(Replaced(outer, i, ix), program, caps, flagged) <==>
              (FunderAllowed(outer.feePayer, ix) <==> FunderAllowed(outer.feePayer, outer.instructions[i]))
  {
    var other := Replaced(outer, i, ix);
    forall j: nat | j < |outer.instructions| && j != i
      ensures Allowed(other, program, caps, j) <==> Allowed(outer, program, caps, j)
    {
      OthersAllowed(outer, program, caps, i, ix, j);
    }
    assert Allowed(other, program, caps, i) <==> FunderAllowed(outer.feePayer, ix);
    assert i in flagged <==> !Allowed(outer, program, caps, i);
  }

  // In place of an instruction of the associated-token program any other gives
  // the same decode iff its first account is judged the same; whether it
  // creates an account, for whom and of what, is not looked at.
  lemma OnlyTheFunderIsRead(env: Env, outer: Outer, opts: DecodeOptions, d: Decoded, i: nat, ix: OuterInstruction)
    requires i < |outer.instructions| && DescribedBy(env, outer, opts, d)
    requires KindOf(env.programId, outer.instructions[i]) == KindOf(env.programId, ix) == AtaCreate
    ensures DescribedBy(env, Replaced(outer, i, ix), opts, d) <==>
              (FunderAllowed(outer.feePayer, ix) <==> FunderAllowed(outer.feePayer, outer.instructions[i]))
  {
    AtaBundle(env.programId, outer, i, ix);
    AtaFlagged(outer, env.programId, opts.caps, i, ix, d.unknownOuter);
  }

  // A creation, paid for by the fee payer: what the allowlist is documented to take.
  predicate FundedCreate(feePayer: Option<Key>, ix: OuterInstruction) {
    AsAtaCreate(0, ix).dataOk && ix.keys != [] && feePayer == Some(ix.keys[0])
  }

  // It takes more exactly when nothing speaks against the funder and yet the fee
  // payer is unknown, no account is listed, or the data is not that of a creation.
  lemma TakesMoreIff(outer: Outer, program: Key, caps: Option<BudgetCaps>, i: nat)
    requires i < |outer.instructions| && KindOf(program, outer.instructions[i]) == AtaCreate
    ensures var ix := outer.instructions[i];
            Allowed(outer, program, caps, i) && !FundedCreate(outer.feePayer, ix) <==>
              && (outer.feePayer.None? || ix.keys == [] || outer.feePayer == Some(ix.keys[0]))
              && (outer.feePayer.None? || ix.keys == [] || !AsAtaCreate(0, ix).dataOk)
  {}

  // So in an accepted bundle the data of such an instruction may be anything at all.
  lemma AnyDataAccepted(env: Env, outer: Outer, opts: DecodeOptions, d: Decoded, i: nat, data: seq<Byte>)
    requires i < |outer.instructions| && DescribedBy(env, outer, opts, d)
    requires KindOf(env.programId, outer.instructions[i]) == AtaCreate
    ensures DescribedBy(env, Replaced(outer, i, outer.instructions[i].(data := data)), opts, d)
  {
    OnlyTheFunderIsRead(env, outer, opts, d, i, outer.instructions[i].(data := data));
  }
}
