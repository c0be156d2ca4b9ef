/** Which proposal an accepted enterprise bundle lets its execute instructions name:
    exactly when the verdict ties them down, and bundles in which it does not. */
module ExecuteBinding {
  import opened Wrappers
  import opened Bytes
  import opened Pda
  import opened Bundle
  import opened Enterprise
  import opened Proposals
  import opened Replacing

  // ---- the same bundle with other accounts for one instruction ----

  function RekeyedAt(ixs: seq<OuterInstruction>, i: nat, keys: seq<Key>): seq<OuterInstruction>
    requires i < |ixs|
  {
    ReplacedAt(ixs, i, ixs[i].(keys := keys))
  }

  function Rekeyed(outer: Outer, i: nat, keys: seq<Key>): Outer
    requires i < |outer.instructions|
  {
    Replaced(outer, i, outer.instructions[i].(keys := keys))
  }

  function Target(keys: seq<Key>): seq<Key> { if |keys| >= 2 then [keys[1]] else [] }

  function LastTarget(program: Key, ix: OuterInstruction): seq<Key> {
    if KindOf(program, ix) == Kind.Execute then Target(ix.keys) else []
  }

  function ExecuteTargets(program: Key, ixs: seq<OuterInstruction>): seq<Key> {
    if ixs == [] then [] else ExecuteTargets(program, ixs[..|ixs| - 1]) + LastTarget(program, ixs[|ixs| - 1])
  }

  // What the decoder lists as execute targets.
  lemma {:induction false} TargetsListed(program: Key, ixs: seq<OuterInstruction>)
    ensures Column(Collect(program, ixs, Kind.Execute, AsMultisig), 1) == ExecuteTargets(program, ixs)
  {
    if ixs == [] {
    } else {
      var n := |ixs| - 1;
      TargetsListed(program, ixs[..n]);
      var list, head := Collect(program, ixs, Kind.Execute, AsMultisig),
                        Collect(program, ixs[..n], Kind.Execute, AsMultisig);
      if KindOf(program, ixs[n]) == Kind.Execute {
        assert list == head + [AsMultisig(n, ixs[n])] && list[..|list| - 1] == head;
      } else {
        assert list == head;
      }
    }
  }

  lemma Regroup(a: seq<Key>, b: seq<Key>, c: seq<Key>, d: seq<Key>)
    ensures a + b + c + d == a + b + (c + d)
  {}

  // The list of execute targets changes at that instruction's place and nowhere else.
  lemma {:induction false} TargetsAround(program: Key, ixs: seq<OuterInstruction>, i: nat, keys: seq<Key>)
      returns (before: seq<Key>, after: seq<Key>)
    requires i < |ixs| && KindOf(program, ixs[i]) == Kind.Execute
    ensures ExecuteTargets(program, ixs) == before + Target(ixs[i].keys) + after
    ensures ExecuteTargets(program, RekeyedAt(ixs, i, keys)) == before + Target(keys) + after
  {
    var n := |ixs| - 1;
    ReplacedLast(ixs, i, ixs[i].(keys := keys));
    if i == n {
      before, after := ExecuteTargets(program, ixs[..n]), [];
    } else {
      var rest;
      before, rest := TargetsAround(program, ixs[..n], i, keys);
      after := rest + LastTarget(program, ixs[n]);
      Regroup(before, Target(ixs[i].keys), rest, LastTarget(program, ixs[n]));
      Regroup(before, Target(keys), rest, LastTarget(program, ixs[n]));
    }
  }

  lemma AllowedSame(outer: Outer, program: Key, caps: Option<BudgetCaps>, i: nat, keys: seq<Key>, j: nat)
    requires i < |outer.instructions| && j < |outer.instructions|
    requires KindOf(program, outer.instructions[i]) == Kind.Execute
    ensures Allowed(Rekeyed(outer, i, keys), program, caps, j) <==> Allowed(outer, program, caps, j)
  {
    if i != j { OthersAllowed(outer, program, caps, i, outer.instructions[i].(keys := keys), j); }
  }

  // What the two bundles have in common, and their execute targets.
  lemma RekeyedBundle(env: Env, outer: Outer, i: nat, keys: seq<Key>) returns (before: seq<Key>, after: seq<Key>)
    requires i < |outer.instructions| && KindOf(env.programId, outer.instructions[i]) == Kind.Execute
    ensures var b := Bundled(env.programId, outer.feePayer, outer.instructions);
            var c := Bundled(env.programId, outer.feePayer, Rekeyed(outer, i, keys).instructions);
            && c.creates == b.creates && c.approves == b.approves
            && Column(b.executes, 1) == before + Target(outer.instructions[i].keys) + after
            && Column(c.executes, 1) == before + Target(keys) + after
  {
    var program, ixs := env.programId, outer.instructions;
    BundledParses(program, outer.feePayer, ixs);
    BundledParses(program, outer.feePayer, RekeyedAt(ixs, i, keys));
    OtherBucketsSame(program, ixs, i, ixs[i].(keys := keys), Kind.Create, AsCreate);
    OtherBucketsSame(program, ixs, i, ixs[i].(keys := keys), Kind.Approve, AsMultisig);
    TargetsListed(program, ixs);
    TargetsListed(program, RekeyedAt(ixs, i, keys));
    before, after := TargetsAround(program, ixs, i, keys);
  }

  // The decode is the same iff it does not list execute targets, or lists the same ones.
  lemma RekeyedDescribed(env: Env, outer: Outer, opts: DecodeOptions, d: Decoded, i: nat, keys: seq<Key>)
    requires i < |outer.instructions| && KindOf(env.programId, outer.instructions[i]) == Kind.Execute
    requires DescribedBy(env, outer, opts, d)
    ensures DescribedBy(env, Rekeyed(outer, i, keys), opts, d) <==>
              d.ApproveTx? || Target(keys) == Target(outer.instructions[i].keys)
  {
    var before, after := RekeyedBundle(env, outer, i, keys);
    forall j: nat | j < |outer.instructions|
      ensures Allowed(Rekeyed(outer, i, keys), env.programId, opts.caps, j)
              <==> Allowed(outer, env.programId, opts.caps, j)
    {
      AllowedSame(outer, env.programId, opts.caps, i, keys, j);
    }
    MiddleDecides(before, Target(keys), Target(outer.instructions[i].keys), after);
  }

  lemma MiddleDecides(before: seq<Key>, x: seq<Key>, y: seq<Key>, after: seq<Key>)
    ensures before + x + after == before + y + after <==> x == y
  {
    if before + x + after == before + y + after {
      var s := before + x + after;
      assert |x| == |y|;
      assert x == s[|before|..|before| + |x|] && y == s[|before|..|before| + |y|];
    }
  }

  // ---- exactly when the verdict binds an execute ----

  // No other accounts under the i-th instruction, short of the decoded
  // proposal's own, would have given this decode.
  ghost predicate Pinned(env: Env, outer: Outer, opts: DecodeOptions, d: Decoded, i: nat)
    requires i < |outer.instructions|
  {
    forall keys :: DescribedBy(env, Rekeyed(outer, i, keys), opts, d) ==> |keys| >= 2 && keys[1] == d.transaction
  }

  // Of the executes in an accepted bundle, the verdict binds those and only
  // those that list two accounts in a bundle that creates a proposal.
  lemma ExecutePinnedIff(env: Env, outer: Outer, opts: DecodeOptions, d: Decoded, x: Payload, verifiedOnChain: bool,
      i: nat)
    requires i < |outer.instructions| && KindOf(env.programId, outer.instructions[i]) == Kind.Execute
    requires DescribedBy(env, outer, opts, d) && Matches(env, d, x, verifiedOnChain)
    ensures Pinned(env, outer, opts, d, i) <==> d.CreateTx? && |outer.instructions[i].keys| >= 2
  {
    if d.CreateTx? && |outer.instructions[i].keys| >= 2 {
      ListedIsBound(env, outer, opts, d, x, verifiedOnChain, i);
      forall keys | DescribedBy(env, Rekeyed(outer, i, keys), opts, d) ensures |keys| >= 2 && keys[1] == d.transaction {
        RekeyedDescribed(env, outer, opts, d, i, keys);
      }
    } else {
      RekeyedDescribed(env, outer, opts, d, i, []);
      assert DescribedBy(env, Rekeyed(outer, i, []), opts, d);
    }
  }

  // Some key other than k.
  function OtherThan(k: Key): (r: Key)
    ensures r != k
  {
    k[0 := if k[0] == 255 then 0 else k[0] + 1]
  }

  // If these accounts list a target and are accepted, the target is the proposal decoded with them.
  ghost predicate OwnTarget(env: Env, outer: Outer, opts: DecodeOptions, x: Payload, verifiedOnChain: bool, i: nat,
      keys: seq<Key>, e: Decoded)
    requires i < |outer.instructions|
  {
    |keys| >= 2 && DescribedBy(env, Rekeyed(outer, i, keys), opts, e) && Matches(env, e, x, verifiedOnChain) ==>
      keys[1] == e.transaction
  }

  ghost predicate OnlyOwnTarget(env: Env, outer: Outer, opts: DecodeOptions, x: Payload, verifiedOnChain: bool, i: nat)
    requires i < |outer.instructions|
  {
    forall keys, e :: OwnTarget(env, outer, opts, x, verifiedOnChain, i, keys, e)
  }

  lemma StillCreates(env: Env, outer: Outer, opts: DecodeOptions, d: Decoded, e: Decoded, i: nat, keys: seq<Key>)
    requires i < |outer.instructions| && KindOf(env.programId, outer.instructions[i]) == Kind.Execute
    requires DescribedBy(env, outer, opts, d) && DescribedBy(env, Rekeyed(outer, i, keys), opts, e)
    ensures e.CreateTx? <==> d.CreateTx?
  {
    var before, after := RekeyedBundle(env, outer, i, keys);
  }

  lemma ListedIsBound(env: Env, outer: Outer, opts: DecodeOptions, d: Decoded, x: Payload, verifiedOnChain: bool,
      i: nat)
    requires i < |outer.instructions| && KindOf(env.programId, outer.instructions[i]) == Kind.Execute
    requires DescribedBy(env, outer, opts, d) && Matches(env, d, x, verifiedOnChain)
    ensures d.CreateTx? && |outer.instructions[i].keys| >= 2 ==> outer.instructions[i].keys[1] == d.transaction
  {
    AgreementBindsEveryInstruction(env, outer, opts, d, x, verifiedOnChain, i);
  }

  lemma BoundWhereCreated(env: Env, outer: Outer, opts: DecodeOptions, d: Decoded, x: Payload, verifiedOnChain: bool,
      i: nat, keys: seq<Key>, e: Decoded)
    requires i < |outer.instructions| && KindOf(env.programId, outer.instructions[i]) == Kind.Execute
    requires DescribedBy(env, outer, opts, d) && d.CreateTx?
    ensures OwnTarget(env, outer, opts, x, verifiedOnChain, i, keys, e)
  {
    var other := Rekeyed(outer, i, keys);
    if |keys| >= 2 && DescribedBy(env, other, opts, e) && Matches(env, e, x, verifiedOnChain) {
      StillCreates(env, outer, opts, d, e, i, keys);
      ListedIsBound(env, other, opts, e, x, verifiedOnChain, i);
    }
  }

  lemma FreeWhereNot(env: Env, outer: Outer, opts: DecodeOptions, d: Decoded, x: Payload, verifiedOnChain: bool, i: nat)
    requires i < |outer.instructions| && KindOf(env.programId, outer.instructions[i]) == Kind.Execute
    requires DescribedBy(env, outer, opts, d) && Matches(env, d, x, verifiedOnChain) && d.ApproveTx?
    ensures !OwnTarget(env, outer, opts, x, verifiedOnChain, i, [d.multisig, OtherThan(d.transaction)], d)
  {
    RekeyedDescribed(env, outer, opts, d, i, [d.multisig, OtherThan(d.transaction)]);
  }

  // Whatever accounts an execute of an accepted bundle might have listed
  // instead: acceptance forces the proposal it names iff the bundle creates one.
  lemma AcceptanceBindsIff(env: Env, outer: Outer, opts: DecodeOptions, d: Decoded, x: Payload, verifiedOnChain: bool,
      i: nat)
    requires i < |outer.instructions| && KindOf(env.programId, outer.instructions[i]) == Kind.Execute
    requires DescribedBy(env, outer, opts, d) && Matches(env, d, x, verifiedOnChain)
    ensures OnlyOwnTarget(env, outer, opts, x, verifiedOnChain, i) <==> d.CreateTx?
  {
    if d.CreateTx? {
      forall keys, e ensures OwnTarget(env, outer, opts, x, verifiedOnChain, i, keys, e) {
        BoundWhereCreated(env, outer, opts, d, x, verifiedOnChain, i, keys, e);
      }
    } else {
      FreeWhereNot(env, outer, opts, d, x, verifiedOnChain, i);
    }
  }

  // The approve-only gate as a whole: an execute in an accepted bundle may list
  // any accounts at all, and the gate accepts it just the same.
  lemma ApproveOnlyLeavesExecutesFree(env: Env, fetch: Fetch, q: ApproveRequest, d: Decoded, r: OnChain, i: nat,
      keys: seq<Key>)
    requires AcceptedFor(env, fetch, q, d, r) && DescribedBy(env, q.outer, q.decodeOptions, d)
    requires i < |q.outer.instructions| && KindOf(env.programId, q.outer.instructions[i]) == Kind.Execute
    ensures var other := q.(outer := Rekeyed(q.outer, i, keys));
            AcceptedFor(env, fetch, other, d, r) && DescribedBy(env, other.outer, other.decodeOptions, d)
  {
    RekeyedDescribed(env, q.outer, q.decodeOptions, d, i, keys);
  }
}
