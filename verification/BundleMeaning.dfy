/** What the buckets of an outer transaction say of its instructions: of which bytes each
    kind is, what the allowlist lets pass, and how a rule on a bucket reads on positions. */
module BundleMeaning {
  import opened Wrappers
  import opened Bytes
  import opened Ids
  import opened Bundle
  import opened VerdictMeaning

  // ---- kinds ----

  predicate OfMultisig(program: Key, ix: OuterInstruction) {
    ix.programId == program
    && ix.programId != SYSTEM_PROGRAM && ix.programId != COMPUTE_BUDGET_PROGRAM && ix.programId != ATA_PROGRAM
  }

  // The first eight bytes of the data, or the first four, tell the instruction.
  lemma KindMeans(program: Key, ix: OuterInstruction)
    ensures KindOf(program, ix) == NonceAdvance <==> ix.programId == SYSTEM_PROGRAM && [4, 0, 0, 0] <= ix.data
    ensures KindOf(program, ix) == ComputeBudget <==> ix.programId == COMPUTE_BUDGET_PROGRAM
    ensures KindOf(program, ix) == AtaCreate <==> ix.programId == ATA_PROGRAM
    ensures KindOf(program, ix) == Create
            <==> OfMultisig(program, ix) && [227, 193, 53, 239, 55, 126, 112, 105] <= ix.data
    ensures KindOf(program, ix) == Approve
            <==> OfMultisig(program, ix) && [224, 39, 88, 181, 36, 59, 155, 122] <= ix.data
    ensures KindOf(program, ix) == Execute
            <==> OfMultisig(program, ix) && [231, 173, 49, 91, 235, 24, 68, 19] <= ix.data
    ensures KindOf(program, ix) == Close
            <==> OfMultisig(program, ix) && [97, 46, 152, 170, 42, 215, 192, 218] <= ix.data
  {
    ProgramsDiffer();
    DiscriminatorMeans(ix.data);
    if |ix.data| >= 4 { TransferTag(ix.data); }
  }

  lemma DiscriminatorMeans(data: seq<Byte>)
    ensures var disc := Discriminator(data);
            && (disc == CREATE_TRANSACTION_DISCRIMINATOR <==> [227, 193, 53, 239, 55, 126, 112, 105] <= data)
            && (disc == APPROVE_TRANSACTION_DISCRIMINATOR <==> [224, 39, 88, 181, 36, 59, 155, 122] <= data)
            && (disc == EXECUTE_TRANSACTION_DISCRIMINATOR <==> [231, 173, 49, 91, 235, 24, 68, 19] <= data)
            && (disc == CLOSE_TRANSACTION_DISCRIMINATOR <==> [97, 46, 152, 170, 42, 215, 192, 218] <= data)
  {}

  // ---- compute budgets ----

  // A u8 tag of 2 and the limit in four bytes, no more than the cap if there is one.
  predicate LimitWithin(data: seq<Byte>, caps: BudgetCaps) {
    |data| == 5 && data[0] == 2 && (caps.maxUnitLimit.Some? ==> Value(data[1..5]) <= caps.maxUnitLimit.value)
  }

  // A u8 tag of 3 and the price in eight bytes, no more than the cap if there is
  // one; a cap that is no number lets nothing pass.
  predicate PriceWithin(data: seq<Byte>, caps: BudgetCaps) {
    |data| == 9 && data[0] == 3 &&
    match caps.maxUnitPrice
    case NoCap => true
    case AtMost(Number(n)) => Value(data[1..9]) <= n
    case AtMost(NotANumber) => false
  }

  lemma CapsMean(data: seq<Byte>, caps: BudgetCaps)
    ensures BudgetValue(data).Some? && WithinCaps(BudgetTag(data), BudgetValue(data).value, caps)
            <==> LimitWithin(data, caps) || PriceWithin(data, caps)
  {}

  // ---- the enterprise allowlist ----

  // The second of two instructions repeats the first one's tag.
  predicate SameTag(earlier: seq<Byte>, later: seq<Byte>) {
    earlier != [] && later != [] && earlier[0] == later[0]
  }

  // Caps given and kept, and no compute budget of the same tag before it.
  predicate BudgetPasses(program: Key, ixs: seq<OuterInstruction>, caps: Option<BudgetCaps>, i: nat)
    requires i < |ixs|
  {
    && caps.Some? && (LimitWithin(ixs[i].data, caps.value) || PriceWithin(ixs[i].data, caps.value))
    && forall j | 0 <= j < i && ixs[j].programId == COMPUTE_BUDGET_PROGRAM :: !SameTag(ixs[j].data, ixs[i].data)
  }

  predicate Passes(outer: Outer, program: Key, caps: Option<BudgetCaps>, i: nat)
    requires i < |outer.instructions|
  {
    var ix := outer.instructions[i];
    if ix.programId == SYSTEM_PROGRAM then [4, 0, 0, 0] <= ix.data
    else if ix.programId == COMPUTE_BUDGET_PROGRAM then BudgetPasses(program, outer.instructions, caps, i)
    else if ix.programId == ATA_PROGRAM then
      outer.feePayer.None? || ix.keys == [] || Some(ix.keys[0]) == outer.feePayer
    else
      ix.programId == program && |ix.data| >= 8 &&
      ix.data[..8] in {[227, 193, 53, 239, 55, 126, 112, 105], [224, 39, 88, 181, 36, 59, 155, 122],
                       [231, 173, 49, 91, 235, 24, 68, 19], [97, 46, 152, 170, 42, 215, 192, 218]}
  }

  lemma BudgetMeans(program: Key, ixs: seq<OuterInstruction>, caps: Option<BudgetCaps>, i: nat)
    requires i < |ixs|
    ensures BudgetAllowed(program, ixs, caps, i) <==> BudgetPasses(program, ixs, caps, i)
  {
    if caps.Some? { CapsMean(ixs[i].data, caps.value); }
    forall j | 0 <= j < i
      ensures KindOf(program, ixs[j]) == ComputeBudget <==> ixs[j].programId == COMPUTE_BUDGET_PROGRAM
    {
      KindMeans(program, ixs[j]);
    }
  }

  lemma AllowedMeans(outer: Outer, program: Key, caps: Option<BudgetCaps>, i: nat)
    requires i < |outer.instructions|
    ensures Allowed(outer, program, caps, i) <==> Passes(outer, program, caps, i)
  {
    KindMeans(program, outer.instructions[i]);
    BudgetMeans(program, outer.instructions, caps, i);
  }

  // ---- a rule on a bucket is a rule on the positions of its kind ----

  lemma PlaceOf<T(!new)>(program: Key, ixs: seq<OuterInstruction>, kind: Kind, f: (nat, OuterInstruction) -> T,
      q: nat) returns (i: nat)
    requires q < |Collect(program, ixs, kind, f)|
    ensures |Collect(program, ixs, kind, f)| == |Positions(program, ixs, kind)| && i == Positions(program, ixs, kind)[q]
    ensures i < |ixs| && KindOf(program, ixs[i]) == kind && Collect(program, ixs, kind, f)[q] == f(i, ixs[i])
  {
    BucketsInOrder(program, ixs, kind, f);
    i := Positions(program, ixs, kind)[q];
  }

  lemma EntryAt<T(!new)>(program: Key, ixs: seq<OuterInstruction>, kind: Kind, f: (nat, OuterInstruction) -> T,
      i: nat) returns (q: nat)
    requires i < |ixs| && KindOf(program, ixs[i]) == kind
    ensures q < |Collect(program, ixs, kind, f)| == |Positions(program, ixs, kind)|
    ensures Positions(program, ixs, kind)[q] == i && Collect(program, ixs, kind, f)[q] == f(i, ixs[i])
  {
    InOneBucket(program, ixs, kind, i);
    BucketsInOrder(program, ixs, kind, f);
    q :| q < |Positions(program, ixs, kind)| && Positions(program, ixs, kind)[q] == i;
  }

  ghost predicate EachEntry<T(!new)>(entries: seq<T>, good: T -> bool) {
    forall q | 0 <= q < |entries| :: good(entries[q])
  }

  ghost predicate EachPlace<T(!new)>(program: Key, ixs: seq<OuterInstruction>, kind: Kind,
      f: (nat, OuterInstruction) -> T, good: T -> bool)
  {
    forall i: nat :: i < |ixs| && KindOf(program, ixs[i]) == kind ==> good(f(i, ixs[i]))
  }

  lemma EachMeans<T(!new)>(program: Key, ixs: seq<OuterInstruction>, kind: Kind, f: (nat, OuterInstruction) -> T,
      good: T -> bool)
    ensures EachEntry(Collect(program, ixs, kind, f), good) <==> EachPlace(program, ixs, kind, f, good)
  {
    var entries := Collect(program, ixs, kind, f);
    if EachEntry(entries, good) {
      forall i: nat | i < |ixs| && KindOf(program, ixs[i]) == kind ensures good(f(i, ixs[i])) {
        var q := EntryAt(program, ixs, kind, f, i);
        assert good(entries[q]);
      }
    }
    if EachPlace(program, ixs, kind, f, good) {
      forall q | 0 <= q < |entries| ensures good(entries[q]) {
        var i := PlaceOf(program, ixs, kind, f, q);
      }
    }
  }

  ghost predicate PairEntries<T(!new)>(entries: seq<T>, good: (T, T) -> bool) {
    forall o, q | 0 <= o < q < |entries| :: good(entries[o], entries[q])
  }

  ghost predicate PairPlaces<T(!new)>(program: Key, ixs: seq<OuterInstruction>, kind: Kind,
      f: (nat, OuterInstruction) -> T, good: (T, T) -> bool)
  {
    forall i: nat, j: nat ::
      i < j < |ixs| && KindOf(program, ixs[i]) == kind && KindOf(program, ixs[j]) == kind ==>
        good(f(i, ixs[i]), f(j, ixs[j]))
  }

  lemma PairsMean<T(!new)>(program: Key, ixs: seq<OuterInstruction>, kind: Kind, f: (nat, OuterInstruction) -> T,
      good: (T, T) -> bool)
    ensures PairEntries(Collect(program, ixs, kind, f), good) <==> PairPlaces(program, ixs, kind, f, good)
  {
    var entries := Collect(program, ixs, kind, f);
    BucketsInOrder(program, ixs, kind, f);
    if PairEntries(entries, good) {
      forall i: nat, j: nat | i < j < |ixs| && KindOf(program, ixs[i]) == kind && KindOf(program, ixs[j]) == kind
        ensures good(f(i, ixs[i]), f(j, ixs[j]))
      {
        var o := EntryAt(program, ixs, kind, f, i);
        var q := EntryAt(program, ixs, kind, f, j);
        assert o < q;
        assert good(entries[o], entries[q]);
      }
    }
    if PairPlaces(program, ixs, kind, f, good) {
      forall o, q | 0 <= o < q < |entries| ensures good(entries[o], entries[q]) {
        var i := PlaceOf(program, ixs, kind, f, o);
        var j := PlaceOf(program, ixs, kind, f, q);
        assert i < j;
      }
    }
  }

  // No two instructions of the kind.
  ghost predicate AtMostOncePlaced(program: Key, ixs: seq<OuterInstruction>, kind: Kind) {
    forall i: nat, j: nat :: i < j < |ixs| && KindOf(program, ixs[i]) == kind ==> KindOf(program, ixs[j]) != kind
  }

  lemma AtMostOneMeans<T(!new)>(program: Key, ixs: seq<OuterInstruction>, kind: Kind, f: (nat, OuterInstruction) -> T)
    ensures |Collect(program, ixs, kind, f)| <= 1 <==> AtMostOncePlaced(program, ixs, kind)
  {
    BucketsInOrder(program, ixs, kind, f);
    var at := Positions(program, ixs, kind);
    if |at| > 1 {
      assert at[0] < at[1] && KindOf(program, ixs[at[0]]) == KindOf(program, ixs[at[1]]) == kind;
    } else {
      forall i: nat, j: nat | i < j < |ixs| && KindOf(program, ixs[i]) == kind ensures KindOf(program, ixs[j]) != kind {
        InOneBucket(program, ixs, kind, i);
        InOneBucket(program, ixs, kind, j);
      }
    }
  }

  // One instruction of the kind, at position c.
  ghost predicate OnlyAt(program: Key, ixs: seq<OuterInstruction>, kind: Kind, c: nat) {
    && c < |ixs| && KindOf(program, ixs[c]) == kind
    && forall i: nat :: i < |ixs| && KindOf(program, ixs[i]) == kind ==> i == c
  }

  lemma OnlyMeans<T(!new)>(program: Key, ixs: seq<OuterInstruction>, kind: Kind, f: (nat, OuterInstruction) -> T,
      c: nat)
    ensures OnlyAt(program, ixs, kind, c)
            <==> c < |ixs| && Positions(program, ixs, kind) == [c] && Collect(program, ixs, kind, f) == [f(c, ixs[c])]
  {
    BucketsInOrder(program, ixs, kind, f);
    var at := Positions(program, ixs, kind);
    if OnlyAt(program, ixs, kind, c) {
      var q := EntryAt(program, ixs, kind, f, c);
      AtMostOneMeans(program, ixs, kind, f);
    }
    if c < |ixs| && at == [c] {
      forall i: nat | i < |ixs| && KindOf(program, ixs[i]) == kind ensures i == c {
        InOneBucket(program, ixs, kind, i);
      }
      assert at[0] == c;
    }
  }
}
