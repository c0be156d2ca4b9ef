/** The same bundle with another instruction of the same kind at one place: what
    the other buckets and the other verdicts make of it. */
module Replacing {
  import opened Wrappers
  import opened Bytes
  import opened Pda
  import opened Bundle
  import opened Enterprise

  function ReplacedAt(ixs: seq<OuterInstruction>, i: nat, ix: OuterInstruction): seq<OuterInstruction>
    requires i < |ixs|
  {
    ixs[i := ix]
  }

  function Replaced(outer: Outer, i: nat, ix: OuterInstruction): Outer
    requires i < |outer.instructions|
  {
    outer.(instructions := ReplacedAt(outer.instructions, i, ix))
  }

  // All but the last instruction, and the last one.
  lemma ReplacedLast(ixs: seq<OuterInstruction>, i: nat, ix: OuterInstruction)
    requires i < |ixs|
    ensures var n, other := |ixs| - 1, ReplacedAt(ixs, i, ix);
            && |other| == n + 1
            && other[..n] == (if i < n then ReplacedAt(ixs[..n], i, ix) else ixs[..n])
            && other[n] == (if i < n then ixs[n] else ix)
  {}

  lemma CollectLast<T>(program: Key, ixs: seq<OuterInstruction>, kind: Kind, f: (nat, OuterInstruction) -> T)
    requires ixs != []
    ensures var n := |ixs| - 1;
            Collect(program, ixs, kind, f)
            == Collect(program, ixs[..n], kind, f) + (if KindOf(program, ixs[n]) == kind then [f(n, ixs[n])] else [])
  {}

  // The other buckets do not notice.
  lemma {:induction false} OtherBucketsSame<T>(program: Key, ixs: seq<OuterInstruction>, i: nat, ix: OuterInstruction,
      kind: Kind, f: (nat, OuterInstruction) -> T)
    requires i < |ixs| && KindOf(program, ix) == KindOf(program, ixs[i]) != kind
    ensures Collect(program, ReplacedAt(ixs, i, ix), kind, f) == Collect(program, ixs, kind, f)
  {
    var n := |ixs| - 1;
    ReplacedLast(ixs, i, ix);
    CollectLast(program, ixs, kind, f);
    CollectLast(program, ReplacedAt(ixs, i, ix), kind, f);
    if i == n {
    } else {
      OtherBucketsSame(program, ixs[..n], i, ix, kind, f);
    }
  }

  // Nor does the allowlist, at any other place.
  lemma OthersAllowed(outer: Outer, program: Key, caps: Option<BudgetCaps>, i: nat, ix: OuterInstruction, j: nat)
    requires i < |outer.instructions| && j < |outer.instructions| && i != j
    requires KindOf(program, ix) == KindOf(program, outer.instructions[i]) != ComputeBudget
    ensures Allowed(Replaced(outer, i, ix), program, caps, j) <==> Allowed(outer, program, caps, j)
  {
    var ixs, other := outer.instructions, Replaced(outer, i, ix).instructions;
    assert forall k | 0 <= k < |ixs| :: KindOf(program, other[k]) == KindOf(program, ixs[k]);
    assert forall k | 0 <= k < |ixs| && KindOf(program, ixs[k]) == ComputeBudget :: other[k] == ixs[k];
  }

  ghost predicate DescribedBy(env: Env, outer: Outer, opts: DecodeOptions, d: Decoded) {
    Describes(env, outer, Bundled(env.programId, outer.feePayer, outer.instructions), opts, d)
  }
}
