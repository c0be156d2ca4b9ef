/** What the compiled message is, read off the instructions: whose key stands in which
    slot, in which order, and where each index leads. */
module BuilderMeaning {
  import opened Bytes
  import opened Program
  import opened Builder
  import opened Compilation

  // Each program, read-only, followed by its accounts.
  function ListedBy(ixs: seq<Instruction>): seq<Meta> {
    if ixs == [] then [] else [Meta(ixs[0].programId, false, false)] + ixs[0].keys + ListedBy(ixs[1..])
  }

  // Every appearance of a key, the vault's own first.
  function Appearances(vault: Key, ixs: seq<Instruction>): seq<Meta> { [Meta(vault, true, true)] + ListedBy(ixs) }

  predicate Appears(seen: seq<Meta>, k: Key) { exists p :: 0 <= p < |seen| && seen[p].key == k }

  predicate SignsSomewhere(seen: seq<Meta>, k: Key) {
    exists p :: 0 <= p < |seen| && seen[p].key == k && seen[p].isSigner
  }

  predicate WritableSomewhere(seen: seq<Meta>, k: Key) {
    exists p :: 0 <= p < |seen| && seen[p].key == k && seen[p].isWritable
  }

  // The first key appears before the second ever does.
  predicate AppearsBefore(seen: seq<Meta>, a: Key, b: Key) {
    exists p :: 0 <= p < |seen| && seen[p].key == a && forall q | 0 <= q <= p :: seen[q].key != b
  }

  // The header's counts, and each key's slot: signers first, writable ones first
  // among signers and among the rest.
  ghost predicate SlotsFit(seen: seq<Meta>, b: BuiltMessage) {
    && b.numWritableSigners <= b.numSigners && b.numSigners + b.numWritableNonSigners <= |b.accountKeys|
    && forall i | 0 <= i < |b.accountKeys| ::
        && (i < b.numSigners <==> SignsSomewhere(seen, b.accountKeys[i]))
        && (i < b.numWritableSigners || b.numSigners <= i < b.numSigners + b.numWritableNonSigners
            <==> WritableSomewhere(seen, b.accountKeys[i]))
  }

  predicate SameFlags(seen: seq<Meta>, a: Key, b: Key) {
    && (SignsSomewhere(seen, a) <==> SignsSomewhere(seen, b))
    && (WritableSomewhere(seen, a) <==> WritableSomewhere(seen, b))
  }

  // Every key once; among equals in order of first appearance.
  ghost predicate KeysInOrder(seen: seq<Meta>, keys: seq<Key>) {
    && (forall k :: k in keys <==> Appears(seen, k))
    && (forall i, j | 0 <= i < j < |keys| :: keys[i] != keys[j])
    && forall i, j | 0 <= i < j < |keys| && SameFlags(seen, keys[i], keys[j]) ::
        AppearsBefore(seen, keys[i], keys[j])
  }

  // Program and accounts by slot, an account's slot modulo 256.
  ghost predicate Indexed(keys: seq<Key>, ix: Instruction, c: BuiltInstruction) {
    && c.programIdIndex < |keys| && keys[c.programIdIndex] == ix.programId && c.data == ix.data
    && |c.accountIndexes| == |ix.keys|
    && forall j, i | 0 <= j < |ix.keys| && 0 <= i < |keys| && keys[i] == ix.keys[j].key ::
        c.accountIndexes[j] == i % 256
  }

  // ---- the walk sees these appearances ----

  lemma {:induction false} ListedSnoc(ixs: seq<Instruction>, last: Instruction)
    ensures ListedBy(ixs + [last]) == ListedBy(ixs) + Mentions(last)
  {
    if ixs == [] {
      assert [last][1..] == [];
      assert ListedBy([last]) == Mentions(last) + [];
      assert ixs + [last] == [last];
    } else {
      ListedSnoc(ixs[1..], last);
      assert (ixs + [last])[1..] == ixs[1..] + [last];
      Regroup([Meta(ixs[0].programId, false, false)] + ixs[0].keys, ListedBy(ixs[1..]), Mentions(last));
    }
  }

  lemma Regroup(a: seq<Meta>, b: seq<Meta>, c: seq<Meta>)
    ensures a + (b + c) == a + b + c
  {}

  lemma {:induction false} ObservedAre(vault: Key, ixs: seq<Instruction>)
    ensures Observations(vault, ixs) == Appearances(vault, ixs)
  {
    if ixs == [] {
    } else {
      var n := |ixs| - 1;
      ObservedAre(vault, ixs[..n]);
      ListedSnoc(ixs[..n], ixs[n]);
      assert ixs[..n] + [ixs[n]] == ixs;
      Regroup([Meta(vault, true, true)], ListedBy(ixs[..n]), Mentions(ixs[n]));
    }
  }

  lemma FlagsMean(seen: seq<Meta>, k: Key)
    ensures Signs(seen, k) <==> SignsSomewhere(seen, k)
    ensures Writes(seen, k) <==> WritableSomewhere(seen, k)
    ensures k in FirstKeys(seen) <==> Appears(seen, k)
  {
    FlagsAreOrs(seen, k);
    if Appears(seen, k) {
      var p :| 0 <= p < |seen| && seen[p].key == k;
      assert seen[p] in seen;
    }
    if SignsSomewhere(seen, k) {
      var p :| 0 <= p < |seen| && seen[p].key == k && seen[p].isSigner;
      assert seen[p] in seen;
    }
    if WritableSomewhere(seen, k) {
      var p :| 0 <= p < |seen| && seen[p].key == k && seen[p].isWritable;
      assert seen[p] in seen;
    }
  }

  // ---- and keeps their order ----

  lemma BeforeStays(seen: seq<Meta>, o: Meta, a: Key, b: Key)
    requires AppearsBefore(seen, a, b)
    ensures AppearsBefore(seen + [o], a, b)
  {
    var p :| 0 <= p < |seen| && seen[p].key == a && forall q | 0 <= q <= p :: seen[q].key != b;
    assert (seen + [o])[p].key == a;
  }

  lemma NewComesLast(seen: seq<Meta>, o: Meta, a: Key)
    requires a in FirstKeys(seen) && o.key !in FirstKeys(seen)
    ensures AppearsBefore(seen + [o], a, o.key)
  {
    FlagsMean(seen, a);
    FlagsMean(seen, o.key);
    var p :| 0 <= p < |seen| && seen[p].key == a;
    assert (seen + [o])[p].key == a;
  }

  lemma {:induction false} FirstKeysOrdered(seen: seq<Meta>, x: nat, y: nat)
    requires x < y < |FirstKeys(seen)|
    ensures AppearsBefore(seen, FirstKeys(seen)[x], FirstKeys(seen)[y])
  {
    var head, last := seen[..|seen| - 1], seen[|seen| - 1];
    assert seen == head + [last];
    if y < |FirstKeys(head)| {
      FirstKeysOrdered(head, x, y);
      BeforeStays(head, last, FirstKeys(seen)[x], FirstKeys(seen)[y]);
    } else {
      NewComesLast(head, last, FirstKeys(seen)[x]);
    }
  }

  ghost predicate Precedes(order: seq<Key>, a: Key, b: Key) {
    exists x, y :: 0 <= x < y < |order| && order[x] == a && order[y] == b
  }

  lemma {:induction false} TierOrdered(order: seq<Key>, flags: map<Key, Flags>, f: Flags, i: nat, j: nat)
    requires (forall k | k in order :: k in flags) && i < j < |Tier(order, flags, f)|
    ensures Precedes(order, Tier(order, flags, f)[i], Tier(order, flags, f)[j])
  {
    var n := |order| - 1;
    var head := order[..n];
    var tier := Tier(head, flags, f);
    if j < |tier| {
      TierOrdered(head, flags, f, i, j);
      var x, y :| 0 <= x < y < |head| && head[x] == tier[i] && head[y] == tier[j];
      assert order[x] == tier[i] && order[y] == tier[j];
    } else {
      TierMembers(head, flags, f);
      assert tier[i] in head;
      var x :| 0 <= x < |head| && head[x] == tier[i];
      assert order[x] == tier[i] && order[n] == Tier(order, flags, f)[j];
    }
  }

  // ---- the compiled message ----

  // Slots with the same header flags lie in one tier.
  lemma SameTier(vault: Key, ixs: seq<Instruction>, b: BuiltMessage, i: nat, j: nat)
    requires Compiles(vault, ixs, b) && i < j < |b.accountKeys| && SlotTier(b, i) == SlotTier(b, j)
    ensures Precedes(FirstKeys(Observations(vault, ixs)), b.accountKeys[i], b.accountKeys[j])
  {
    var seen := Observations(vault, ixs);
    var order, flags, f := FirstKeys(seen), FlagsOf(seen), SlotTier(b, i);
    var start := if f == WRITABLE_SIGNER then 0
                 else if f == READONLY_SIGNER then b.numWritableSigners
                 else if f == WRITABLE then b.numSigners
                 else b.numSigners + b.numWritableNonSigners;
    assert b.accountKeys[i] == Tier(order, flags, f)[i - start];
    assert b.accountKeys[j] == Tier(order, flags, f)[j - start];
    TierOrdered(order, flags, f, i - start, j - start);
  }

  lemma SlotMeans(vault: Key, ixs: seq<Instruction>, b: BuiltMessage, i: nat)
    requires Compiles(vault, ixs, b) && i < |b.accountKeys|
    ensures var seen, k := Appearances(vault, ixs), b.accountKeys[i];
            SlotTier(b, i) == Flags(SignsSomewhere(seen, k), WritableSomewhere(seen, k))
  {
    ObservedAre(vault, ixs);
    SlotFlags(vault, ixs, b, i);
    FlagsMean(Observations(vault, ixs), b.accountKeys[i]);
  }

  lemma OrderMeans(vault: Key, ixs: seq<Instruction>, b: BuiltMessage, i: nat, j: nat)
    requires Compiles(vault, ixs, b) && i < j < |b.accountKeys|
    requires SameFlags(Appearances(vault, ixs), b.accountKeys[i], b.accountKeys[j])
    ensures AppearsBefore(Appearances(vault, ixs), b.accountKeys[i], b.accountKeys[j])
  {
    ObservedAre(vault, ixs);
    SlotMeans(vault, ixs, b, i);
    SlotMeans(vault, ixs, b, j);
    SameTier(vault, ixs, b, i, j);
    var order := FirstKeys(Observations(vault, ixs));
    var x, y :| 0 <= x < y < |order| && order[x] == b.accountKeys[i] && order[y] == b.accountKeys[j];
    FirstKeysOrdered(Observations(vault, ixs), x, y);
  }

  // What the builder returns: every key once, the vault first, in the slots that
  // the flags of its appearances ask for and otherwise in order of appearance;
  // and every instruction by the slots of its program and accounts.
  lemma BuiltMeans(vault: Key, ixs: seq<Instruction>, b: BuiltMessage)
    requires Compiles(vault, ixs, b)
    ensures var seen := Appearances(vault, ixs);
            && KeysInOrder(seen, b.accountKeys) && SlotsFit(seen, b)
            && b.accountKeys != [] && b.accountKeys[0] == vault
    ensures |b.instructions| == |ixs|
    ensures forall k | 0 <= k < |ixs| :: Indexed(b.accountKeys, ixs[k], b.instructions[k])
  {
    var seen := Appearances(vault, ixs);
    ObservedAre(vault, ixs);
    KeysUniqueVaultFirst(vault, ixs, b);
    TierSizes(vault, ixs, b);
    forall k ensures k in b.accountKeys <==> Appears(seen, k) {
      OrderedPartition(seen);
      FlagsMean(seen, k);
    }
    forall i | 0 <= i < |b.accountKeys|
      ensures SlotTier(b, i) == Flags(SignsSomewhere(seen, b.accountKeys[i]), WritableSomewhere(seen, b.accountKeys[i]))
    {
      SlotMeans(vault, ixs, b, i);
    }
    forall i, j | 0 <= i < j < |b.accountKeys| && SameFlags(seen, b.accountKeys[i], b.accountKeys[j])
      ensures AppearsBefore(seen, b.accountKeys[i], b.accountKeys[j])
    {
      OrderMeans(vault, ixs, b, i, j);
    }
    forall k | 0 <= k < |ixs| ensures Indexed(b.accountKeys, ixs[k], b.instructions[k]) {
      assert CompiledTo(b.accountKeys, ixs[k], b.instructions[k]);
    }
  }
}
