/** Where every field stands in the bytes: the Borsh form of each account and message,
    written out, with no reference to how the codecs are put together. */
module BorshForm {
  import opened Wrappers
  import opened Bytes
  import opened Codecs
  import opened State
  import opened Pda
  import opened Ids
  import opened Bundle
  import opened Proposals

  // ---- the forms, written out ----

  // A u32 length, little-endian, before what it counts.
  function Prefixed(n: nat, s: seq<Byte>): seq<Byte> { LittleEndian(n, 4) + s }

  function InstructionBytes(ix: CompiledInstruction): seq<Byte> {
    [ix.programIdIndex] + Prefixed(|ix.accountIndexes|, ix.accountIndexes) + Prefixed(|ix.data|, ix.data)
  }

  function InstructionsBytes(ixs: seq<CompiledInstruction>): seq<Byte> {
    if ixs == [] then [] else InstructionBytes(ixs[0]) + InstructionsBytes(ixs[1..])
  }

  function LookupBytes(l: AddressTableLookup): seq<Byte> {
    l.accountKey + Prefixed(|l.writableIndexes|, l.writableIndexes)
    + Prefixed(|l.readonlyIndexes|, l.readonlyIndexes)
  }

  function LookupsBytes(ls: seq<AddressTableLookup>): seq<Byte> {
    if ls == [] then [] else LookupBytes(ls[0]) + LookupsBytes(ls[1..])
  }

  function MessageBytes(m: TransactionMessage): seq<Byte> {
    [m.numSigners, m.numWritableSigners, m.numWritableNonSigners]
    + Prefixed(|m.accountKeys|, Flatten(m.accountKeys))
    + Prefixed(|m.instructions|, InstructionsBytes(m.instructions))
    + Prefixed(|m.addressTableLookups|, LookupsBytes(m.addressTableLookups))
  }

  // The fixed part of a proposal, then its approvals, then its message.
  function ProposalBytes(tx: VaultTransaction): seq<Byte> {
    tx.multisig + LittleEndian(tx.transactionIndex, 8) + tx.creator + tx.payer
    + [tx.bump, tx.vaultIndex, tx.vaultBump, if tx.executed then 1 else 0]
    + Prefixed(|tx.approvals|, Flatten(tx.approvals)) + MessageBytes(tx.message)
  }

  function MultisigBytes(m: Multisig): seq<Byte> {
    Prefixed(|m.members|, Flatten(m.members)) + [m.threshold] + LittleEndian(m.transactionIndex, 8) + [m.bump]
  }

  // ---- the codecs write these forms ----

  lemma {:induction false} KeysWritten(ks: seq<Key>)
    ensures EncMany(Pubkey(), ks) == Flatten(ks)
  {
    if ks == [] {
    } else {
      KeysWritten(ks[1..]);
    }
  }

  lemma InstructionWritten(ix: CompiledInstruction)
    ensures InstructionCodec().enc(ix) == InstructionBytes(ix)
  {
    assert EncInstruction(ix) == [ix.programIdIndex] + (EncBlob(ix.accountIndexes) + EncBlob(ix.data));
  }

  lemma {:induction false} InstructionsWritten(ixs: seq<CompiledInstruction>)
    ensures EncMany(InstructionCodec(), ixs) == InstructionsBytes(ixs)
  {
    if ixs == [] {
    } else {
      InstructionWritten(ixs[0]);
      InstructionsWritten(ixs[1..]);
    }
  }

  lemma LookupWritten(l: AddressTableLookup)
    ensures LookupCodec().enc(l) == LookupBytes(l)
  {
    assert EncLookup(l) == l.accountKey + (EncBlob(l.writableIndexes) + EncBlob(l.readonlyIndexes));
  }

  lemma {:induction false} LookupsWritten(ls: seq<AddressTableLookup>)
    ensures EncMany(LookupCodec(), ls) == LookupsBytes(ls)
  {
    if ls == [] {
    } else {
      LookupWritten(ls[0]);
      LookupsWritten(ls[1..]);
    }
  }

  lemma VecWritten<T>(c: Codec<T>, xs: seq<T>)
    ensures Vec(c).enc(xs) == Prefixed(|xs|, EncMany(c, xs))
  {}

  lemma PairWritten<A, B>(a: Codec<A>, b: Codec<B>, p: (A, B))
    ensures Pair(a, b).enc(p) == a.enc(p.0) + b.enc(p.1)
  {}

  lemma BodyWritten(t: Body)
    ensures BodyLayout().enc(t)
            == Prefixed(|t.0|, Flatten(t.0))
               + (Prefixed(|t.1.0|, InstructionsBytes(t.1.0)) + Prefixed(|t.1.1|, LookupsBytes(t.1.1)))
  {
    KeysWritten(t.0);
    InstructionsWritten(t.1.0);
    LookupsWritten(t.1.1);
    VecWritten(Pubkey(), t.0);
    VecWritten(InstructionCodec(), t.1.0);
    VecWritten(LookupCodec(), t.1.1);
    PairWritten(Vec(InstructionCodec()), Vec(LookupCodec()), t.1);
    PairWritten(Vec(Pubkey()), Pair(Vec(InstructionCodec()), Vec(LookupCodec())), t);
  }

  lemma Front(a: Byte, b: Byte, c: Byte, s: seq<Byte>)
    ensures [a] + ([b] + ([c] + s)) == [a, b, c] + s
  {}

  lemma HeaderWritten(t: MessageFields)
    ensures MessageLayout().enc(t) == [t.0, t.1.0, t.1.1.0] + BodyLayout().enc(t.1.1.1)
  {
    PairWritten(U8(), BodyLayout(), t.1.1);
    PairWritten(U8(), Pair(U8(), BodyLayout()), t.1);
    PairWritten(U8(), Pair(U8(), Pair(U8(), BodyLayout())), t);
    Front(t.0, t.1.0, t.1.1.0, BodyLayout().enc(t.1.1.1));
  }

  lemma Left(a: seq<Byte>, b: seq<Byte>, c: seq<Byte>, d: seq<Byte>)
    ensures a + (b + (c + d)) == a + b + c + d
  {}

  lemma MessageEncoded(m: TransactionMessage, t: MessageFields)
    requires t == (m.numSigners, (m.numWritableSigners, (m.numWritableNonSigners,
                    (m.accountKeys, (m.instructions, m.addressTableLookups)))))
    ensures MessageCodec().enc(m) == MessageLayout().enc(t)
  {
    assert OfMessage(m) == t;
  }

  lemma MessageWritten(m: TransactionMessage)
    ensures MessageCodec().enc(m) == MessageBytes(m)
  {
    var body := (m.accountKeys, (m.instructions, m.addressTableLookups));
    var t := (m.numSigners, (m.numWritableSigners, (m.numWritableNonSigners, body)));
    MessageEncoded(m, t);
    HeaderWritten(t);
    BodyWritten(body);
    Left([m.numSigners, m.numWritableSigners, m.numWritableNonSigners],
         Prefixed(|m.accountKeys|, Flatten(m.accountKeys)),
         Prefixed(|m.instructions|, InstructionsBytes(m.instructions)),
         Prefixed(|m.addressTableLookups|, LookupsBytes(m.addressTableLookups)));
  }

  lemma VotesWritten(t: Votes)
    ensures VotesLayout().enc(t)
            == [if t.0 then 1 else 0] + (Prefixed(|t.1.0|, Flatten(t.1.0)) + MessageBytes(t.1.1))
  {
    KeysWritten(t.1.0);
    VecWritten(Pubkey(), t.1.0);
    MessageWritten(t.1.1);
    PairWritten(Vec(Pubkey()), MessageCodec(), t.1);
    PairWritten(Bool(), Pair(Vec(Pubkey()), MessageCodec()), t);
  }

  lemma BumpsWritten(t: (Byte, (Byte, (Byte, Votes))))
    ensures BumpsLayout().enc(t) == [t.0, t.1.0, t.1.1.0] + VotesLayout().enc(t.1.1.1)
  {
    PairWritten(U8(), VotesLayout(), t.1.1);
    PairWritten(U8(), Pair(U8(), VotesLayout()), t.1);
    PairWritten(U8(), Pair(U8(), Pair(U8(), VotesLayout())), t);
    Front(t.0, t.1.0, t.1.1.0, VotesLayout().enc(t.1.1.1));
  }

  lemma KeysFirstWritten(t: ProposalFields)
    ensures ProposalLayout().enc(t)
            == t.0 + LittleEndian(t.1.0, 8) + t.1.1.0 + t.1.1.1.0 + BumpsLayout().enc(t.1.1.1.1)
  {
    PairWritten(Pubkey(), BumpsLayout(), t.1.1.1);
    PairWritten(Pubkey(), Pair(Pubkey(), BumpsLayout()), t.1.1);
    PairWritten(Long(), Pair(Pubkey(), Pair(Pubkey(), BumpsLayout())), t.1);
    PairWritten(Pubkey(), Pair(Long(), Pair(Pubkey(), Pair(Pubkey(), BumpsLayout()))), t);
    Left(t.0, LittleEndian(t.1.0, 8), t.1.1.0, t.1.1.1.0 + BumpsLayout().enc(t.1.1.1.1));
  }

  // The flag after the bumps, and what follows.
  lemma FlagFourth(head: seq<Byte>, a: Byte, b: Byte, c: Byte, flag: Byte, s: seq<Byte>, t: seq<Byte>)
    ensures head + ([a, b, c] + ([flag] + (s + t))) == head + [a, b, c, flag] + s + t
  {
    assert [a, b, c] + ([flag] + (s + t)) == [a, b, c, flag] + s + t;
    Left(head, [a, b, c, flag], s, t);
  }

  lemma ProposalEncoded(tx: VaultTransaction, t: ProposalFields)
    requires t == (tx.multisig, (tx.transactionIndex, (tx.creator, (tx.payer, (tx.bump, (tx.vaultIndex,
                    (tx.vaultBump, (tx.executed, (tx.approvals, tx.message)))))))))
    ensures ProposalCodec().enc(tx) == ProposalLayout().enc(t)
  {
    assert OfProposal(tx) == t;
  }

  lemma FieldsJoined(head: seq<Byte>, t: (Byte, (Byte, (Byte, Votes))))
    ensures head + BumpsLayout().enc(t)
            == head + [t.0, t.1.0, t.1.1.0, if t.1.1.1.0 then 1 else 0]
               + Prefixed(|t.1.1.1.1.0|, Flatten(t.1.1.1.1.0)) + MessageBytes(t.1.1.1.1.1)
  {
    BumpsWritten(t);
    VotesWritten(t.1.1.1);
    FlagFourth(head, t.0, t.1.0, t.1.1.0, if t.1.1.1.0 then 1 else 0,
               Prefixed(|t.1.1.1.1.0|, Flatten(t.1.1.1.1.0)), MessageBytes(t.1.1.1.1.1));
  }

  // The fields of a proposal, in the order in which they are written.
  lemma ProposalWritten(tx: VaultTransaction)
    ensures ProposalCodec().enc(tx) == ProposalBytes(tx)
  {
    var bumps := (tx.bump, (tx.vaultIndex, (tx.vaultBump, (tx.executed, (tx.approvals, tx.message)))));
    var t := (tx.multisig, (tx.transactionIndex, (tx.creator, (tx.payer, bumps))));
    ProposalEncoded(tx, t);
    KeysFirstWritten(t);
    FieldsJoined(tx.multisig + LittleEndian(tx.transactionIndex, 8) + tx.creator + tx.payer, bumps);
  }

  lemma MultisigFieldsWritten(t: MultisigFields)
    ensures MultisigLayout().enc(t) == Vec(Pubkey()).enc(t.0) + ([t.1.0] + (LittleEndian(t.1.1.0, 8) + [t.1.1.1]))
  {
    PairWritten(Long(), U8(), t.1.1);
    PairWritten(U8(), Pair(Long(), U8()), t.1);
    PairWritten(Vec(Pubkey()), Pair(U8(), Pair(Long(), U8())), t);
  }

  lemma MultisigEncoded(m: Multisig, t: MultisigFields)
    requires t == (m.members, (m.threshold, (m.transactionIndex, m.bump)))
    ensures MultisigCodec().enc(m) == MultisigLayout().enc(t)
  {
    assert OfMultisig(m) == t;
  }

  lemma MultisigWritten(m: Multisig)
    ensures MultisigCodec().enc(m) == MultisigBytes(m)
  {
    var t := (m.members, (m.threshold, (m.transactionIndex, m.bump)));
    MultisigEncoded(m, t);
    MultisigFieldsWritten(t);
    KeysWritten(m.members);
    VecWritten(Pubkey(), m.members);
    Left(Prefixed(|m.members|, Flatten(m.members)), [m.threshold], LittleEndian(m.transactionIndex, 8), [m.bump]);
  }

  // ---- where each field stands ----

  // Key after key from position i on, each of 32 bytes.
  ghost predicate KeysInOrder(data: seq<Byte>, i: nat, ks: seq<Key>)
    decreases |ks|
  {
    ks != [] ==> i + 32 <= |data| && data[i..i + 32] == ks[0] && KeysInOrder(data, i + 32, ks[1..])
  }

  // A counted list of keys at position i.
  ghost predicate KeysAt(data: seq<Byte>, i: nat, ks: seq<Key>) {
    i + 4 <= |data| && Value(data[i..i + 4]) == |ks| && KeysInOrder(data, i + 4, ks)
  }

  lemma CountReads(n: nat)
    requires n < U32_LIMIT
    ensures Counts(LittleEndian(n, 4), n)
  {
    Widths();
    ValueOfLittleEndian(n, 4);
  }

  lemma {:induction false} FlatInOrder(data: seq<Byte>, i: nat, ks: seq<Key>)
    requires Holds(data, i, Flatten(ks))
    ensures KeysInOrder(data, i, ks)
    decreases |ks|
  {
    if ks == [] {
    } else {
      HoldsConcat(data, i, ks[0], Flatten(ks[1..]));
      FlatInOrder(data, i + 32, ks[1..]);
    }
  }

  // These four bytes are the count n.
  predicate Counts(count: seq<Byte>, n: nat) { |count| == 4 && Value(count) == n }

  lemma KeysStand(data: seq<Byte>, i: nat, count: seq<Byte>, ks: seq<Key>)
    requires Counts(count, |ks|) && Holds(data, i, count + Flatten(ks))
    ensures KeysAt(data, i, ks)
  {
    HoldsConcat(data, i, count, Flatten(ks));
    FlatInOrder(data, i + 4, ks);
  }

  // A message at position i: three header bytes, the keys, and after them the
  // counted instructions and the counted lookups.
  ghost predicate MessageAt(data: seq<Byte>, i: nat, m: TransactionMessage) {
    && i + 3 <= |data|
    && data[i] == m.numSigners && data[i + 1] == m.numWritableSigners && data[i + 2] == m.numWritableNonSigners
    && KeysAt(data, i + 3, m.accountKeys)
    && var j := i + 7 + |Flatten(m.accountKeys)|;
    && Holds(data, j, LittleEndian(|m.instructions|, 4) + InstructionsBytes(m.instructions))
    && var k := j + 4 + |InstructionsBytes(m.instructions)|;
    Holds(data, k, LittleEndian(|m.addressTableLookups|, 4) + LookupsBytes(m.addressTableLookups))
  }

  lemma BytesStand(data: seq<Byte>, i: nat, s: seq<Byte>)
    requires Holds(data, i, s)
    ensures forall k | 0 <= k < |s| :: data[i + k] == s[k]
  {
    forall k | 0 <= k < |s| ensures data[i + k] == s[k] { assert data[i..i + |s|][k] == data[i + k]; }
  }

  lemma FourPartsHold(data: seq<Byte>, i: nat, a: seq<Byte>, b: seq<Byte>, c: seq<Byte>, d: seq<Byte>)
    requires Holds(data, i, a + b + c + d)
    ensures Holds(data, i, a) && Holds(data, i + |a|, b)
    ensures Holds(data, i + |a| + |b|, c) && Holds(data, i + |a| + |b| + |c|, d)
  {
    HoldsConcat(data, i, a + b + c, d);
    HoldsConcat(data, i, a + b, c);
    HoldsConcat(data, i, a, b);
  }

  lemma MessageStands(data: seq<Byte>, i: nat, m: TransactionMessage)
    requires Counts(LittleEndian(|m.accountKeys|, 4), |m.accountKeys|) && Holds(data, i, MessageBytes(m))
    ensures MessageAt(data, i, m)
  {
    var header := [m.numSigners, m.numWritableSigners, m.numWritableNonSigners];
    FourPartsHold(data, i, header, Prefixed(|m.accountKeys|, Flatten(m.accountKeys)),
                  Prefixed(|m.instructions|, InstructionsBytes(m.instructions)),
                  Prefixed(|m.addressTableLookups|, LookupsBytes(m.addressTableLookups)));
    BytesStand(data, i, header);
    assert data[i + 0] == header[0] && data[i + 1] == header[1] && data[i + 2] == header[2];
    KeysStand(data, i + 3, LittleEndian(|m.accountKeys|, 4), m.accountKeys);
  }

  // The fixed part of a proposal account, byte by byte.
  ghost predicate FixedAt(data: seq<Byte>, tx: VaultTransaction) {
    && |data| >= 116
    && data[..8] == [168, 250, 162, 100, 81, 14, 162, 207]
    && data[8..40] == tx.multisig && Value(data[40..48]) == tx.transactionIndex
    && data[48..80] == tx.creator && data[80..112] == tx.payer
    && data[112] == tx.bump && data[113] == tx.vaultIndex && data[114] == tx.vaultBump
    && data[115] == (if tx.executed then 1 else 0)
  }

  // And what follows it.
  ghost predicate ProposalAt(data: seq<Byte>, tx: VaultTransaction) {
    && FixedAt(data, tx) && KeysAt(data, 116, tx.approvals)
    && MessageAt(data, 120 + |Flatten(tx.approvals)|, tx.message)
  }

  lemma FixedStand(data: seq<Byte>, disc: seq<Byte>, multisig: Key, index: U64, creator: Key, payer: Key,
      four: seq<Byte>)
    requires |disc| == 8 && |four| == 4
    requires disc + (multisig + LittleEndian(index, 8) + creator + payer + four) <= data
    ensures |data| >= 116 && data[..8] == disc && data[8..40] == multisig && Value(data[40..48]) == index
    ensures data[48..80] == creator && data[80..112] == payer && data[112..116] == four
  {
    var head := disc + (multisig + LittleEndian(index, 8) + creator + payer + four);
    assert data[..116] == head;
    assert data[..8] == head[..8] == disc && data[8..40] == head[8..40] == multisig;
    assert data[40..48] == head[40..48] == LittleEndian(index, 8);
    assert data[48..80] == head[48..80] == creator && data[80..112] == head[80..112] == payer;
    assert data[112..116] == head[112..116] == four;
    U64Bijection(index, LittleEndian(index, 8));
  }

  lemma PrefixHolds(data: seq<Byte>, s: seq<Byte>, t: seq<Byte>)
    requires s + t <= data
    ensures s <= data && Holds(data, |s|, t)
  {
    assert data[..|s + t|] == s + t;
    assert data[..|s|] == (s + t)[..|s|] && data[|s|..|s| + |t|] == (s + t)[|s|..];
  }

  lemma Reassociate(a: seq<Byte>, b: seq<Byte>, c: seq<Byte>, d: seq<Byte>)
    ensures a + (b + c + d) == a + b + c + d
  {}

  // The account's bytes in three parts.
  lemma AccountParts(tx: VaultTransaction)
    ensures AccountBytes(tx)
            == FixedBytes(tx) + Prefixed(|tx.approvals|, Flatten(tx.approvals)) + MessageBytes(tx.message)
  {
    ProposalWritten(tx);
    Reassociate(VAULT_TRANSACTION_ACCOUNT_DISCRIMINATOR,
                tx.multisig + LittleEndian(tx.transactionIndex, 8) + tx.creator + tx.payer
                + [tx.bump, tx.vaultIndex, tx.vaultBump, if tx.executed then 1 else 0],
                Prefixed(|tx.approvals|, Flatten(tx.approvals)), MessageBytes(tx.message));
  }

  lemma ThreePartsHold(data: seq<Byte>, head: seq<Byte>, middle: seq<Byte>, tail: seq<Byte>)
    requires head + middle + tail <= data
    ensures head <= data && Holds(data, |head|, middle) && Holds(data, |head| + |middle|, tail)
  {
    PrefixHolds(data, head + middle, tail);
    PrefixHolds(data, head, middle);
  }

  lemma VotesStand(data: seq<Byte>, head: seq<Byte>, count: seq<Byte>, approvals: seq<Key>, tail: seq<Byte>)
    requires |head| == 116 && Counts(count, |approvals|) && head + (count + Flatten(approvals)) + tail <= data
    ensures head <= data && KeysAt(data, 116, approvals) && Holds(data, 120 + |Flatten(approvals)|, tail)
  {
    ThreePartsHold(data, head, count + Flatten(approvals), tail);
    KeysStand(data, 116, count, approvals);
    assert |head| + |count + Flatten(approvals)| == 120 + |Flatten(approvals)|;
  }

  function FixedBytes(tx: VaultTransaction): (s: seq<Byte>)
    ensures |s| == 116
  {
    VAULT_TRANSACTION_ACCOUNT_DISCRIMINATOR
    + (tx.multisig + LittleEndian(tx.transactionIndex, 8) + tx.creator + tx.payer
       + [tx.bump, tx.vaultIndex, tx.vaultBump, if tx.executed then 1 else 0])
  }

  lemma FixedPartStands(data: seq<Byte>, tx: VaultTransaction)
    requires FixedBytes(tx) <= data
    ensures FixedAt(data, tx)
  {
    var four := [tx.bump, tx.vaultIndex, tx.vaultBump, if tx.executed then 1 else 0];
    FixedStand(data, VAULT_TRANSACTION_ACCOUNT_DISCRIMINATOR, tx.multisig, tx.transactionIndex, tx.creator, tx.payer,
               four);
    BytesStand(data, 112, four);
    assert data[112 + 0] == four[0] && data[112 + 1] == four[1] && data[112 + 2] == four[2] && data[112 + 3] == four[3];
  }

  lemma AfterFixed(data: seq<Byte>, tx: VaultTransaction)
    requires AccountBytes(tx) <= data && Counts(LittleEndian(|tx.approvals|, 4), |tx.approvals|)
    ensures FixedBytes(tx) <= data && KeysAt(data, 116, tx.approvals)
    ensures Holds(data, 120 + |Flatten(tx.approvals)|, MessageBytes(tx.message))
  {
    AccountParts(tx);
    VotesStand(data, FixedBytes(tx), LittleEndian(|tx.approvals|, 4), tx.approvals, MessageBytes(tx.message));
  }

  lemma ProposalStands(data: seq<Byte>, tx: VaultTransaction)
    requires AccountBytes(tx) <= data && Counts(LittleEndian(|tx.approvals|, 4), |tx.approvals|)
    requires Counts(LittleEndian(|tx.message.accountKeys|, 4), |tx.message.accountKeys|)
    ensures ProposalAt(data, tx)
  {
    AfterFixed(data, tx);
    FixedPartStands(data, tx);
    MessageStands(data, 120 + |Flatten(tx.approvals)|, tx.message);
  }

  lemma EncodableCounts(tx: VaultTransaction)
    requires ProposalCodec().wf(tx)
    ensures |tx.approvals| < U32_LIMIT && |tx.message.accountKeys| < U32_LIMIT
  {
    var t := OfProposal(tx);
    assert ProposalLayout().wf(t);
    assert BumpsLayout().wf(t.1.1.1.1) && VotesLayout().wf(t.1.1.1.1.1.1.1);
    assert Vec(Pubkey()).wf(tx.approvals) && MessageCodec().wf(tx.message);
    var u := OfMessage(tx.message);
    assert MessageLayout().wf(u) && BodyLayout().wf(u.1.1.1) && Vec(Pubkey()).wf(tx.message.accountKeys);
  }

  // Whatever proposal the decoder reads in an account's data, each of its fields
  // stands at its place in that data.
  lemma ReadFromItsPlaces(data: seq<Byte>, tx: VaultTransaction)
    requires AccountProposal(data) == Some(tx)
    ensures ProposalAt(data, tx)
  {
    AccountCanonical(data);
    EncodableCounts(tx);
    CountReads(|tx.approvals|);
    CountReads(|tx.message.accountKeys|);
    ProposalStands(data, tx);
  }

  // What the decoder reports of an account is what stands in its data.
  lemma ReportedFromItsPlaces(env: Env, data: seq<Byte>, at: Key, opts: ProposalOptions, r: OnChain)
    requires Readable(env, data, at, opts) && Reports(env, AccountProposal(data).value, at, opts, r)
    ensures |data| >= 120 && r.Proposal?
    ensures r.multisig == data[8..40] && r.index == Value(data[40..48])
    ensures r.creator == data[48..80] && r.payer == data[80..112]
    ensures r.vaultIndex == data[113] && (r.executed <==> data[115] == 1) && KeysAt(data, 116, r.approvals)
    ensures r.transaction == at && at == DeriveTransaction(env, data[8..40], Value(data[40..48])).0
    ensures r.vault == DeriveVault(env, data[8..40], data[113]).0
    ensures var i := 127 + |Flatten(r.approvals)|; i + 32 <= |data| && r.sender == data[i..i + 32]
    ensures r.flows.feePayer == (match opts.feePayer
                                 case None => Some(data[80..112])
                                 case Some(Base58(k)) => Some(k)
                                 case Some(NotAKey) => None)
  {
    ReadFromItsPlaces(data, AccountProposal(data).value);
  }

  lemma CountStands(m: TransactionMessage)
    requires MessageCodec().wf(m)
    ensures Counts(LittleEndian(|m.accountKeys|, 4), |m.accountKeys|)
  {
    var u := OfMessage(m);
    assert MessageLayout().wf(u) && BodyLayout().wf(u.1.1.1) && Vec(Pubkey()).wf(m.accountKeys);
    CountReads(|m.accountKeys|);
  }

  // Of a create_transaction instruction: the vault index stands at byte 8, the message from byte 9 on.
  lemma CreatedFromItsPlaces(data: seq<Byte>, vaultIndex: Byte, m: TransactionMessage)
    requires CreateMessage(data) == Some((vaultIndex, m))
    ensures |data| >= 9 && data[8] == vaultIndex && MessageAt(data, 9, m)
  {
    MessageIsCanonical(data, 9);
    MessageWritten(m);
    CountStands(m);
    MessageStands(data, 9, m);
  }
}
