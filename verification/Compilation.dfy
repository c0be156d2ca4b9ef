/** The builder as a compiler, the program's execute loop as its interpreter. */
module Compilation {
  import opened Bytes
  import opened Members
  import opened State
  import opened Program
  import opened Builder

  lemma KeyMentioned(seen: seq<Meta>, k: Key)
    ensures k in AccountKeys(seen) <==> exists o :: o in seen && o.key == k
  {
    OrderedPartition(seen);
    FlagsAreOrs(seen, k);
  }

  lemma KeysCounted(seen: seq<Meta>)
    ensures |AccountKeys(seen)| == |FirstKeys(seen)|
  {
    OrderedPartition(seen);
    FirstKeysDistinct(seen);
    Pigeonhole(AccountKeys(seen), FirstKeys(seen));
    Pigeonhole(FirstKeys(seen), AccountKeys(seen));
  }

  lemma VaultAtFront(vault: Key, ixs: seq<Instruction>)
    ensures var keys := AccountKeys(Observations(vault, ixs));
            Distinct(keys) && keys != [] && keys[0] == vault
  {
    VaultFirst(vault, ixs);
    OrderedPartition(Observations(vault, ixs));
  }

  lemma KeysUniqueVaultFirst(vault: Key, ixs: seq<Instruction>, b: BuiltMessage)
    requires Compiles(vault, ixs, b)
    ensures Distinct(b.accountKeys) && b.accountKeys != [] && b.accountKeys[0] == vault
    ensures forall k :: k in b.accountKeys <==> exists o :: o in Observations(vault, ixs) && o.key == k
    ensures |b.accountKeys| == |FirstKeys(Observations(vault, ixs))|
  {
    var seen := Observations(vault, ixs);
    VaultAtFront(vault, ixs);
    KeysCounted(seen);
    forall k ensures k in b.accountKeys <==> exists o :: o in seen && o.key == k { KeyMentioned(seen, k); }
  }

  // The tier a slot lies in, which the header counts mark off.
  function SlotTier(b: BuiltMessage, i: nat): Flags {
    Flags(i < b.numSigners,
          if i < b.numWritableSigners then true
          else if i < b.numSigners then false
          else i < b.numSigners + b.numWritableNonSigners)
  }

  // A slot's header flags are the OR of its key's flags over all appearances.
  lemma SlotFlags(vault: Key, ixs: seq<Instruction>, b: BuiltMessage, i: nat)
    requires Compiles(vault, ixs, b) && i < |b.accountKeys|
    ensures var seen := Observations(vault, ixs);
            SlotTier(b, i) == Flags(Signs(seen, b.accountKeys[i]), Writes(seen, b.accountKeys[i]))
  {
    var seen := Observations(vault, ixs);
    var order, flags := FirstKeys(seen), FlagsOf(seen);
    var f := SlotTier(b, i);
    TierMembers(order, flags, f);
    assert b.accountKeys[i] in Tier(order, flags, f) by {
      var start := if f == WRITABLE_SIGNER then 0
                   else if f == READONLY_SIGNER then b.numWritableSigners
                   else if f == WRITABLE then b.numSigners
                   else b.numSigners + b.numWritableNonSigners;
      assert b.accountKeys[i] == Tier(order, flags, f)[i - start];
    }
  }

  lemma SlotOf(vault: Key, ixs: seq<Instruction>, b: BuiltMessage, k: nat, m: Meta) returns (i: nat)
    requires Compiles(vault, ixs, b) && k < |ixs| && m in Mentions(ixs[k])
    ensures i < |b.accountKeys| && b.accountKeys[i] == m.key
  {
    MentionsSeen(vault, ixs, k);
    OrderedPartition(Observations(vault, ixs));
    i :| i < |b.accountKeys| && b.accountKeys[i] == m.key;
  }

  lemma AccountSlot(vault: Key, ixs: seq<Instruction>, b: BuiltMessage, k: nat, j: nat) returns (i: nat)
    requires Compiles(vault, ixs, b) && k < |ixs| && j < |ixs[k].keys|
    ensures i < |b.accountKeys| && b.accountKeys[i] == ixs[k].keys[j].key
  {
    assert Mentions(ixs[k])[j + 1] == ixs[k].keys[j];
    i := SlotOf(vault, ixs, b, k, ixs[k].keys[j]);
  }

  lemma IndexOf(vault: Key, ixs: seq<Instruction>, b: BuiltMessage, k: nat, j: nat, i: nat)
    requires Compiles(vault, ixs, b) && k < |ixs| && j < |ixs[k].keys|
    requires i < |b.accountKeys| && b.accountKeys[i] == ixs[k].keys[j].key
    ensures j < |b.instructions[k].accountIndexes| && b.instructions[k].accountIndexes[j] == i % 256
  {
    assert CompiledTo(b.accountKeys, ixs[k], b.instructions[k]);
  }

  // Up to 256 distinct keys, every index leads back to what it was compiled from.
  lemma IndexesResolve(vault: Key, ixs: seq<Instruction>, b: BuiltMessage, k: nat, j: nat)
    requires Compiles(vault, ixs, b) && |b.accountKeys| <= 256
    requires k < |ixs| && j < |ixs[k].keys|
    ensures j < |b.instructions[k].accountIndexes|
    ensures var i := b.instructions[k].accountIndexes[j];
            i < |b.accountKeys| && b.accountKeys[i] == ixs[k].keys[j].key
  {
    var i := AccountSlot(vault, ixs, b, k, j);
    IndexOf(vault, ixs, b, k, j, i);
    assert i % 256 == i;
  }

  // Past 256 keys one byte is not enough: an account index leads back to its
  // key exactly when the key's slot is below 256.
  lemma IndexResolvesIffBelow256(vault: Key, ixs: seq<Instruction>, b: BuiltMessage, k: nat, j: nat, i: nat)
    requires Compiles(vault, ixs, b)
    requires k < |ixs| && j < |ixs[k].keys| && i < |b.accountKeys| && b.accountKeys[i] == ixs[k].keys[j].key
    ensures var c := b.instructions[k].accountIndexes[j];
            c < |b.accountKeys| && (b.accountKeys[c] == ixs[k].keys[j].key <==> i < 256)
  {
    KeysUniqueVaultFirst(vault, ixs, b);
    assert CompiledTo(b.accountKeys, ixs[k], b.instructions[k]);
    var c := i % 256;
    if i < 256 { assert c == i; } else { assert c < i && b.accountKeys[c] != b.accountKeys[i]; }
  }

  // ---- as stored on chain ----

  // Every number fits the u8 it is stored in.
  predicate Encodable(b: BuiltMessage) {
    && b.numSigners < 256 && b.numWritableSigners < 256 && b.numWritableNonSigners < 256
    && forall k | 0 <= k < |b.instructions| :: b.instructions[k].programIdIndex < 256
  }

  function ToWire(b: BuiltMessage): TransactionMessage
    requires Encodable(b)
  {
    TransactionMessage(b.numSigners, b.numWritableSigners, b.numWritableNonSigners, b.accountKeys,
                       WireInstructions(b.instructions), [])
  }

  function WireInstructions(cs: seq<BuiltInstruction>): (r: seq<CompiledInstruction>)
    requires forall k | 0 <= k < |cs| :: cs[k].programIdIndex < 256
    ensures |r| == |cs|
    ensures forall k | 0 <= k < |cs| ::
              r[k] == CompiledInstruction(cs[k].programIdIndex, cs[k].accountIndexes, cs[k].data)
  {
    if cs == [] then [] else
    [CompiledInstruction(cs[0].programIdIndex, cs[0].accountIndexes, cs[0].data)] + WireInstructions(cs[1..])
  }

  // Compiling and then executing preserves meaning: the CPI is to the same
  // program, with the same accounts and data, each account flagged with the OR
  // of its flags wherever it appeared.
  lemma CompileThenExecute(vault: Key, ixs: seq<Instruction>, b: BuiltMessage, k: nat)
    requires Compiles(vault, ixs, b) && Encodable(b) && |b.accountKeys| <= 256 && k < |ixs|
    ensures var seen := Observations(vault, ixs);
            match Resolve(ToWire(b), ToWire(b).instructions[k])
            case None => false
            case Some(cpi) =>
              && cpi.program == ixs[k].programId && cpi.data == ixs[k].data
              && |cpi.metas| == |ixs[k].keys|
              && forall j | 0 <= j < |cpi.metas| ::
                   var key := ixs[k].keys[j].key;
                   cpi.metas[j] == Meta(key, Signs(seen, key), Writes(seen, key))
  {
    var seen := Observations(vault, ixs);
    var m := ToWire(b);
    assert CompiledTo(b.accountKeys, ixs[k], b.instructions[k]);
    var ix := m.instructions[k];
    forall j | 0 <= j < |ix.accountIndexes| ensures ix.accountIndexes[j] < |m.accountKeys| {
      IndexesResolve(vault, ixs, b, k, j);
    }
    var cpi := Resolve(m, ix).value;
    forall j | 0 <= j < |cpi.metas|
      ensures cpi.metas[j]
              == Meta(ixs[k].keys[j].key, Signs(seen, ixs[k].keys[j].key), Writes(seen, ixs[k].keys[j].key))
    {
      IndexesResolve(vault, ixs, b, k, j);
      SlotFlags(vault, ixs, b, ix.accountIndexes[j]);
    }
  }

  // The limits create_transaction imposes, read off the instructions.
  predicate WithinLimits(vault: Key, ixs: seq<Instruction>) {
    && 1 <= |ixs| <= MAX_TX_INSTRUCTIONS
    && |FirstKeys(Observations(vault, ixs))| <= MAX_TX_ACCOUNT_KEYS
    && (forall k | 0 <= k < |ixs| :: Modest(vault, ixs[k]))
    && (forall o | o in Observations(vault, ixs) :: o.isSigner ==> o.key == vault)
  }

  // The vault is alone in the signer tiers iff no other key is marked a signer.
  lemma SoleSigner(vault: Key, ixs: seq<Instruction>, b: BuiltMessage)
    requires Compiles(vault, ixs, b)
    ensures b.numWritableSigners >= 1
    ensures b.numSigners == 1 <==> forall o | o in Observations(vault, ixs) :: o.isSigner ==> o.key == vault
  {
    var seen := Observations(vault, ixs);
    KeysUniqueVaultFirst(vault, ixs, b);
    VaultFirst(vault, ixs);
    if b.numSigners == 1 {
      forall o | o in seen && o.isSigner ensures o.key == vault {
        FlagsAreOrs(seen, o.key);
        assert o.key in b.accountKeys;
        var i :| 0 <= i < |b.accountKeys| && b.accountKeys[i] == o.key;
        SlotFlags(vault, ixs, b, i);
      }
    } else if forall o | o in seen :: o.isSigner ==> o.key == vault {
      SlotFlags(vault, ixs, b, 1);
      FlagsAreOrs(seen, b.accountKeys[1]);
      assert false;
    }
  }

  // What the program asks of one instruction, before and after compilation.
  predicate Modest(vault: Key, ix: Instruction) {
    ix.programId != vault && |ix.keys| <= MAX_INSTRUCTION_ACCOUNTS && |ix.data| <= MAX_INSTRUCTION_DATA_LEN
  }

  lemma CompiledModest(vault: Key, ixs: seq<Instruction>, b: BuiltMessage, k: nat)
    requires Compiles(vault, ixs, b) && Encodable(b) && |b.accountKeys| <= 256 && k < |ixs|
    ensures var c := ToWire(b).instructions[k];
            SmallInstruction(c) && InstructionInBounds(c, |b.accountKeys|) <==> Modest(vault, ixs[k])
  {
    KeysUniqueVaultFirst(vault, ixs, b);
    assert CompiledTo(b.accountKeys, ixs[k], b.instructions[k]);
    var c := ToWire(b).instructions[k];
    forall j | 0 <= j < |c.accountIndexes| ensures c.accountIndexes[j] < |b.accountKeys| {
      IndexesResolve(vault, ixs, b, k, j);
    }
  }

  // Up to 256 keys every index fits its byte.
  lemma ProgramIndexesFit(vault: Key, ixs: seq<Instruction>, b: BuiltMessage)
    requires Compiles(vault, ixs, b) && |b.accountKeys| <= 256
    ensures forall k | 0 <= k < |b.instructions| :: b.instructions[k].programIdIndex < 256
  {
    forall k | 0 <= k < |b.instructions| ensures b.instructions[k].programIdIndex < 256 {
      assert CompiledTo(b.accountKeys, ixs[k], b.instructions[k]);
    }
  }

  // The header counts do not exceed the keys they count.
  lemma TierSizes(vault: Key, ixs: seq<Instruction>, b: BuiltMessage)
    requires Compiles(vault, ixs, b)
    ensures b.numWritableSigners <= b.numSigners && b.numSigners + b.numWritableNonSigners <= |b.accountKeys|
  {}

  lemma EncodableWhenSmall(vault: Key, ixs: seq<Instruction>, b: BuiltMessage)
    requires Compiles(vault, ixs, b) && |b.accountKeys| <= MAX_TX_ACCOUNT_KEYS
    ensures Encodable(b)
  {
    TierSizes(vault, ixs, b);
    ProgramIndexesFit(vault, ixs, b);
  }

  // The program's checks on each instruction are met iff each was modest before compilation.
  lemma AllModest(vault: Key, ixs: seq<Instruction>, b: BuiltMessage)
    requires Compiles(vault, ixs, b) && Encodable(b) && |b.accountKeys| <= 256
    ensures var cs := ToWire(b).instructions;
            && |cs| == |ixs|
            && ((&& (forall k | 0 <= k < |cs| :: SmallInstruction(cs[k]))
                 && (forall k | 0 <= k < |cs| :: InstructionInBounds(cs[k], |b.accountKeys|)))
                <==> forall k | 0 <= k < |ixs| :: Modest(vault, ixs[k]))
  {
    var cs := ToWire(b).instructions;
    forall k | 0 <= k < |ixs|
      ensures SmallInstruction(cs[k]) && InstructionInBounds(cs[k], |b.accountKeys|) <==> Modest(vault, ixs[k])
    {
      CompiledModest(vault, ixs, b, k);
    }
  }

  // The builder's output is accepted by create_transaction exactly when the
  // instructions are within its limits.
  lemma BuilderMeetsProgram(vault: Key, ixs: seq<Instruction>, b: BuiltMessage)
    requires Compiles(vault, ixs, b)
    ensures Encodable(b) && WellFormed(ToWire(b), vault) <==> WithinLimits(vault, ixs)
  {
    KeysUniqueVaultFirst(vault, ixs, b);
    SoleSigner(vault, ixs, b);
    if |b.accountKeys| <= MAX_TX_ACCOUNT_KEYS {
      EncodableWhenSmall(vault, ixs, b);
      TierSizes(vault, ixs, b);
      AllModest(vault, ixs, b);
    }
  }
}
