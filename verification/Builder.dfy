/** buildMessageFromInstructions: account-level instructions compiled to indexes into
    one ordered key list, and what the execute loop reads back out of it. */
module Builder {
  import opened Wrappers
  import opened Bytes
  import opened Members
  import opened Program

  datatype Instruction = Instruction(programId: Key, keys: seq<Meta>, data: seq<Byte>)

  // JavaScript numbers, except in accountIndexes, which is a Uint8Array.
  datatype BuiltInstruction = BuiltInstruction(programIdIndex: nat, accountIndexes: seq<Byte>, data: seq<Byte>)

  datatype BuiltMessage = BuiltMessage(
    numSigners: nat,
    numWritableSigners: nat,
    numWritableNonSigners: nat,
    accountKeys: seq<Key>,
    instructions: seq<BuiltInstruction>)

  datatype Flags = Flags(isSigner: bool, isWritable: bool)

  // ---- what the instructions say about each key ----

  // Every appearance of every key: the forced vault first, then each program
  // followed by its accounts.
  function Observations(vault: Key, ixs: seq<Instruction>): seq<Meta> {
    if ixs == [] then [Meta(vault, true, true)]
    else Observations(vault, ixs[..|ixs| - 1]) + Mentions(ixs[|ixs| - 1])
  }

  function Mentions(ix: Instruction): seq<Meta> { [Meta(ix.programId, false, false)] + ix.keys }

  predicate Signs(seen: seq<Meta>, k: Key) {
    seen != [] && ((seen[|seen| - 1].key == k && seen[|seen| - 1].isSigner) || Signs(seen[..|seen| - 1], k))
  }

  predicate Writes(seen: seq<Meta>, k: Key) {
    seen != [] && ((seen[|seen| - 1].key == k && seen[|seen| - 1].isWritable) || Writes(seen[..|seen| - 1], k))
  }

  // The keys in order of first appearance.
  function FirstKeys(seen: seq<Meta>): seq<Key> {
    if seen == [] then [] else
    var ks := FirstKeys(seen[..|seen| - 1]);
    var k := seen[|seen| - 1].key;
    if k in ks then ks else ks + [k]
  }

  function FlagsOf(seen: seq<Meta>): map<Key, Flags> {
    map k | k in FirstKeys(seen) :: Flags(Signs(seen, k), Writes(seen, k))
  }

  // Signs and Writes are the OR over all appearances.
  lemma {:induction false} FlagsAreOrs(seen: seq<Meta>, k: Key)
    ensures Signs(seen, k) <==> exists o :: o in seen && o.key == k && o.isSigner
    ensures Writes(seen, k) <==> exists o :: o in seen && o.key == k && o.isWritable
    ensures k in FirstKeys(seen) <==> exists o :: o in seen && o.key == k
  {
    if seen == [] {
    } else {
      var head, last := seen[..|seen| - 1], seen[|seen| - 1];
      FlagsAreOrs(head, k);
      assert seen == head + [last];
      assert last in seen && forall o | o in head :: o in seen;
    }
  }

  lemma {:induction false} FirstKeysDistinct(seen: seq<Meta>)
    ensures Distinct(FirstKeys(seen))
    ensures seen != [] ==> FirstKeys(seen) != [] && FirstKeys(seen)[0] == seen[0].key
  {
    if seen == [] {
    } else {
      FirstKeysDistinct(seen[..|seen| - 1]);
    }
  }

  // One more appearance.
  lemma FlagsSnoc(seen: seq<Meta>, o: Meta)
    ensures var ks, fs := FirstKeys(seen), FlagsOf(seen);
            && FirstKeys(seen + [o]) == (if o.key in ks then ks else ks + [o.key])
            && FlagsOf(seen + [o]) == (if o.key in fs
                 then fs[o.key := Flags(fs[o.key].isSigner || o.isSigner, fs[o.key].isWritable || o.isWritable)]
                 else fs[o.key := Flags(o.isSigner, o.isWritable)])
  {
    assert (seen + [o])[..|seen|] == seen;
    FlagsAreOrs(seen, o.key);
  }

  // ---- the four tiers ----

  function Tier(order: seq<Key>, flags: map<Key, Flags>, f: Flags): seq<Key>
    requires forall k | k in order :: k in flags
  {
    if order == [] then [] else
    Tier(order[..|order| - 1], flags, f) + (if flags[order[|order| - 1]] == f then [order[|order| - 1]] else [])
  }

  lemma {:induction false} TierMembers(order: seq<Key>, flags: map<Key, Flags>, f: Flags)
    requires forall k | k in order :: k in flags
    ensures forall k :: k in Tier(order, flags, f) <==> k in order && flags[k] == f
    ensures Distinct(order) ==> Distinct(Tier(order, flags, f))
  {
    if order == [] {
    } else {
      var head, last := order[..|order| - 1], order[|order| - 1];
      TierMembers(head, flags, f);
      assert order == head + [last] && forall k :: k in order <==> k in head || k == last;
      if Distinct(order) { assert last !in head; }
    }
  }

  lemma {:induction false} TierHead(order: seq<Key>, flags: map<Key, Flags>, f: Flags)
    requires (forall k | k in order :: k in flags) && order != [] && flags[order[0]] == f
    ensures Tier(order, flags, f) != [] && Tier(order, flags, f)[0] == order[0]
  {
    if |order| == 1 {
    } else {
      TierHead(order[..|order| - 1], flags, f);
    }
  }

  const WRITABLE_SIGNER := Flags(true, true)
  const READONLY_SIGNER := Flags(true, false)
  const WRITABLE := Flags(false, true)
  const READONLY := Flags(false, false)

  function Ordered(order: seq<Key>, flags: map<Key, Flags>): seq<Key>
    requires forall k | k in order :: k in flags
  {
    Tier(order, flags, WRITABLE_SIGNER) + Tier(order, flags, READONLY_SIGNER)
    + Tier(order, flags, WRITABLE) + Tier(order, flags, READONLY)
  }

  // ---- the specification ----

  function AccountKeys(seen: seq<Meta>): seq<Key> { Ordered(FirstKeys(seen), FlagsOf(seen)) }

  ghost predicate CompiledTo(keys: seq<Key>, ix: Instruction, c: BuiltInstruction) {
    && c.programIdIndex < |keys| && keys[c.programIdIndex] == ix.programId
    && |c.accountIndexes| == |ix.keys|
    && (forall j, i | 0 <= j < |ix.keys| && 0 <= i < |keys| && keys[i] == ix.keys[j].key ::
        c.accountIndexes[j] == i % 256)
    && c.data == ix.data
  }

  ghost predicate Compiles(vault: Key, ixs: seq<Instruction>, b: BuiltMessage) {
    var seen := Observations(vault, ixs);
    var order, flags := FirstKeys(seen), FlagsOf(seen);
    && b.accountKeys == AccountKeys(seen)
    && b.numWritableSigners == |Tier(order, flags, WRITABLE_SIGNER)|
    && b.numSigners == b.numWritableSigners + |Tier(order, flags, READONLY_SIGNER)|
    && b.numWritableNonSigners == |Tier(order, flags, WRITABLE)|
    && |b.instructions| == |ixs|
    && forall k | 0 <= k < |ixs| :: CompiledTo(b.accountKeys, ixs[k], b.instructions[k])
  }

  // ---- the walk ----

  // A JavaScript Map: entries by key, and the order they were inserted in.
  class AccountTable {
    var order: seq<Key>
    var flags: map<Key, Flags>

    ghost predicate Holds(seen: seq<Meta>)
      reads this
    {
      order == FirstKeys(seen) && flags == FlagsOf(seen)
    }

    constructor ()
      ensures Holds([])
    {
      order := [];
      flags := map[];
    }

    method Observe(pubkey: Key, isSigner: bool, isWritable: bool, ghost seen: seq<Meta>)
      requires Holds(seen)
      modifies this
      ensures Holds(seen + [Meta(pubkey, isSigner, isWritable)])
    {
      FlagsSnoc(seen, Meta(pubkey, isSigner, isWritable));
      if pubkey in flags {
        var cur := flags[pubkey];
        flags := flags[pubkey := Flags(cur.isSigner || isSigner, cur.isWritable || isWritable)];
      } else {
        order := order + [pubkey];
        flags := flags[pubkey := Flags(isSigner, isWritable)];
      }
    }

    method ObserveAll(keys: seq<Meta>, ghost seen: seq<Meta>)
      requires Holds(seen)
      modifies this
      ensures Holds(seen + keys)
    {
      assert seen + keys[..0] == seen;
      for j := 0 to |keys|
        invariant Holds(seen + keys[..j])
      {
        var k := keys[j];
        Observe(k.key, k.isSigner, k.isWritable, seen + keys[..j]);
        assert seen + keys[..j] + [k] == seen + keys[..j + 1];
      }
      assert keys[..|keys|] == keys;
    }
  }

  method AccountIndex(accountKeys: seq<Key>, pubkey: Key) returns (r: Option<nat>)
    ensures r.Some? <==> pubkey in accountKeys
    ensures r.Some? ==> r.value < |accountKeys| && accountKeys[r.value] == pubkey
  {
    for i := 0 to |accountKeys|
      invariant pubkey !in accountKeys[..i]
    {
      if accountKeys[i] == pubkey { return Some(i); }
    }
    return None;
  }

  // Compile one instruction; a key that is missing from the list throws.
  method CompileInstruction(accountKeys: seq<Key>, ix: Instruction) returns (r: Option<BuiltInstruction>)
    requires Distinct(accountKeys)
    ensures r.Some? <==> forall m | m in Mentions(ix) :: m.key in accountKeys
    ensures r.Some? ==> CompiledTo(accountKeys, ix, r.value)
  {
    assert Mentions(ix)[0] in Mentions(ix) && forall m | m in ix.keys :: m in Mentions(ix);
    var programIdIndex :- AccountIndex(accountKeys, ix.programId);
    var indexes: seq<Byte> := [];
    for j := 0 to |ix.keys|
      invariant |indexes| == j
      invariant forall i | 0 <= i < j :: ix.keys[i].key in accountKeys
      invariant forall p, i | 0 <= p < j && 0 <= i < |accountKeys| && accountKeys[i] == ix.keys[p].key ::
                  indexes[p] == i % 256
    {
      assert ix.keys[j] in ix.keys;
      var i :- AccountIndex(accountKeys, ix.keys[j].key);
      indexes := indexes + [i % 256];
    }
    r := Some(BuiltInstruction(programIdIndex, indexes, ix.data));
  }

  method ObserveInstructions(vault: Key, instructions: seq<Instruction>) returns (table: AccountTable)
    ensures fresh(table) && table.Holds(Observations(vault, instructions))
  {
    table := new AccountTable();
    table.Observe(vault, true, true, []);
    ghost var seen := Observations(vault, []);
    for n := 0 to |instructions|
      invariant fresh(table)
      invariant seen == Observations(vault, instructions[..n]) && table.Holds(seen)
    {
      var ix := instructions[n];
      assert instructions[..n + 1][..n] == instructions[..n];
      table.Observe(ix.programId, false, false, seen);
      seen := seen + [Meta(ix.programId, false, false)];
      table.ObserveAll(ix.keys, seen);
      seen := seen + ix.keys;
    }
    assert instructions[..|instructions|] == instructions;
  }

  method CompileAll(vault: Key, accountKeys: seq<Key>, instructions: seq<Instruction>)
      returns (compiled: seq<BuiltInstruction>)
    requires accountKeys == AccountKeys(Observations(vault, instructions))
    ensures |compiled| == |instructions|
    ensures forall k | 0 <= k < |instructions| :: CompiledTo(accountKeys, instructions[k], compiled[k])
  {
    OrderedPartition(Observations(vault, instructions));
    compiled := [];
    for n := 0 to |instructions|
      invariant |compiled| == n
      invariant forall k | 0 <= k < n :: CompiledTo(accountKeys, instructions[k], compiled[k])
    {
      MentionsSeen(vault, instructions, n);
      var c := CompileInstruction(accountKeys, instructions[n]);
      assert c.Some?;
      compiled := compiled + [c.value];
    }
  }

  method BuildMessageFromInstructions(vault: Key, instructions: seq<Instruction>) returns (b: BuiltMessage)
    ensures Compiles(vault, instructions, b)
  {
    var table := ObserveInstructions(vault, instructions);
    var writableSigners := Tier(table.order, table.flags, WRITABLE_SIGNER);
    var readonlySigners := Tier(table.order, table.flags, READONLY_SIGNER);
    var writableNonSigners := Tier(table.order, table.flags, WRITABLE);
    var readonlyNonSigners := Tier(table.order, table.flags, READONLY);
    var vaultIndex := AccountIndex(writableSigners, vault);
    VaultFirst(vault, instructions);
    if vaultIndex.Some? && vaultIndex.value > 0 {
      // the defensive splice to the front: never needed
      assert false;
    }
    var accountKeys := writableSigners + readonlySigners + writableNonSigners + readonlyNonSigners;
    var compiled := CompileAll(vault, accountKeys, instructions);
    b := BuiltMessage(|writableSigners| + |readonlySigners|, |writableSigners|, |writableNonSigners|, accountKeys,
                      compiled);
  }

  // ---- what the key list is ----

  lemma {:induction false} ObservationsHead(vault: Key, ixs: seq<Instruction>)
    ensures Observations(vault, ixs) != [] && Observations(vault, ixs)[0] == Meta(vault, true, true)
  {
    if ixs == [] {
    } else {
      ObservationsHead(vault, ixs[..|ixs| - 1]);
    }
  }

  lemma {:induction false} MentionsSeen(vault: Key, ixs: seq<Instruction>, n: nat)
    requires n < |ixs|
    ensures forall m | m in Mentions(ixs[n]) ::
              m in Observations(vault, ixs) && m.key in FirstKeys(Observations(vault, ixs))
  {
    var head := ixs[..|ixs| - 1];
    if n == |ixs| - 1 {
    } else {
      MentionsSeen(vault, head, n);
    }
    forall m | m in Mentions(ixs[n])
      ensures m in Observations(vault, ixs) && m.key in FirstKeys(Observations(vault, ixs))
    {
      FlagsAreOrs(Observations(vault, ixs), m.key);
    }
  }

  // The vault's forced observation puts it at the front of the first tier.
  lemma VaultFirst(vault: Key, ixs: seq<Instruction>)
    ensures var seen := Observations(vault, ixs);
            var tier := Tier(FirstKeys(seen), FlagsOf(seen), WRITABLE_SIGNER);
            tier != [] && tier[0] == vault && Distinct(tier)
  {
    var seen := Observations(vault, ixs);
    TierMembers(FirstKeys(seen), FlagsOf(seen), WRITABLE_SIGNER);
    ObservationsHead(vault, ixs);
    FirstKeysDistinct(seen);
    FlagsAreOrs(seen, vault);
    assert seen[0] in seen;
    TierHead(FirstKeys(seen), FlagsOf(seen), WRITABLE_SIGNER);
  }

  // The tiers together list every key once.
  lemma OrderedPartition(seen: seq<Meta>)
    ensures Distinct(AccountKeys(seen))
    ensures forall k :: k in AccountKeys(seen) <==> k in FirstKeys(seen)
  {
    var order, flags := FirstKeys(seen), FlagsOf(seen);
    FirstKeysDistinct(seen);
    TierMembers(order, flags, WRITABLE_SIGNER);
    TierMembers(order, flags, READONLY_SIGNER);
    TierMembers(order, flags, WRITABLE);
    TierMembers(order, flags, READONLY);
    var a, b := Tier(order, flags, WRITABLE_SIGNER), Tier(order, flags, READONLY_SIGNER);
    var c, d := Tier(order, flags, WRITABLE), Tier(order, flags, READONLY);
    DistinctConcat(a, b);
    DistinctConcat(a + b, c);
    DistinctConcat(a + b + c, d);
  }

  lemma DistinctConcat(a: seq<Key>, b: seq<Key>)
    requires Distinct(a) && Distinct(b) && forall k | k in a :: k !in b
    ensures Distinct(a + b)
  {
    var ab := a + b;
    forall i, j | 0 <= i < j < |ab| ensures ab[i] != ab[j] {
      if i < |a| <= j {
        assert ab[i] in a && ab[j] == b[j - |a|];
      }
    }
  }
}
