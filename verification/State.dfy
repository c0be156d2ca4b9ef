/** The account structs of the program, their Borsh codecs and their sizes. */
module State {
  import opened Wrappers
  import opened Bytes
  import opened Codecs

  datatype CompiledInstruction = CompiledInstruction(
    programIdIndex: Byte,
    accountIndexes: seq<Byte>,
    data: seq<Byte>)

  datatype AddressTableLookup = AddressTableLookup(
    accountKey: Key,
    writableIndexes: seq<Byte>,
    readonlyIndexes: seq<Byte>)

  datatype TransactionMessage = TransactionMessage(
    numSigners: Byte,
    numWritableSigners: Byte,
    numWritableNonSigners: Byte,
    accountKeys: seq<Key>,
    instructions: seq<CompiledInstruction>,
    addressTableLookups: seq<AddressTableLookup>)

  datatype Multisig = Multisig(
    members: seq<Key>,
    threshold: Byte,
    transactionIndex: U64,
    bump: Byte)

  datatype VaultTransaction = VaultTransaction(
    multisig: Key,
    transactionIndex: U64,
    creator: Key,
    payer: Key,
    bump: Byte,
    vaultIndex: Byte,
    vaultBump: Byte,
    executed: bool,
    approvals: seq<Key>,
    message: TransactionMessage)

  // ---- codecs: fields in declaration order ----

  type Body = (seq<Key>, (seq<CompiledInstruction>, seq<AddressTableLookup>))
  type Votes = (bool, (seq<Key>, TransactionMessage))
  type MessageFields = (Byte, (Byte, (Byte, Body)))
  type MultisigFields = (seq<Key>, (Byte, (U64, Byte)))
  type ProposalFields = (Key, (U64, (Key, (Key, (Byte, (Byte, (Byte, Votes)))))))

  function ToMessage(t: MessageFields): TransactionMessage {
    TransactionMessage(t.0, t.1.0, t.1.1.0, t.1.1.1.0, t.1.1.1.1.0, t.1.1.1.1.1)
  }

  function OfMessage(m: TransactionMessage): MessageFields {
    (m.numSigners, (m.numWritableSigners, (m.numWritableNonSigners,
      (m.accountKeys, (m.instructions, m.addressTableLookups)))))
  }

  function ToMultisig(t: MultisigFields): Multisig { Multisig(t.0, t.1.0, t.1.1.0, t.1.1.1) }

  function OfMultisig(m: Multisig): MultisigFields { (m.members, (m.threshold, (m.transactionIndex, m.bump))) }

  function ToProposal(t: ProposalFields): VaultTransaction {
    VaultTransaction(t.0, t.1.0, t.1.1.0, t.1.1.1.0, t.1.1.1.1.0, t.1.1.1.1.1.0,
      t.1.1.1.1.1.1.0, t.1.1.1.1.1.1.1.0, t.1.1.1.1.1.1.1.1.0, t.1.1.1.1.1.1.1.1.1)
  }

  function OfProposal(v: VaultTransaction): ProposalFields {
    (v.multisig, (v.transactionIndex, (v.creator, (v.payer, (v.bump, (v.vaultIndex,
      (v.vaultBump, (v.executed, (v.approvals, v.message)))))))))
  }

  function TwoBlobs(): Codec<(seq<Byte>, seq<Byte>)> { Pair(Blob(), Blob()) }

  function EncInstruction(x: CompiledInstruction): seq<Byte> {
    [x.programIdIndex] + TwoBlobs().enc((x.accountIndexes, x.data))
  }

  function DecInstruction(buf: seq<Byte>, i: nat): Option<(CompiledInstruction, nat)> {
    var (first, j) :- DecByte(buf, i);
    var (blobs, k) :- TwoBlobs().dec(buf, j);
    Some((CompiledInstruction(first, blobs.0, blobs.1), k))
  }

  function InstructionCodec(): Codec<CompiledInstruction> {
    Codec((x: CompiledInstruction) => |x.accountIndexes| < U32_LIMIT && |x.data| < U32_LIMIT, EncInstruction,
          DecInstruction)
  }

  function EncLookup(x: AddressTableLookup): seq<Byte> {
    x.accountKey + TwoBlobs().enc((x.writableIndexes, x.readonlyIndexes))
  }

  function DecLookup(buf: seq<Byte>, i: nat): Option<(AddressTableLookup, nat)> {
    var (first, j) :- DecKey(buf, i);
    var (blobs, k) :- TwoBlobs().dec(buf, j);
    Some((AddressTableLookup(first, blobs.0, blobs.1), k))
  }

  function LookupCodec(): Codec<AddressTableLookup> {
    Codec((x: AddressTableLookup) => |x.writableIndexes| < U32_LIMIT && |x.readonlyIndexes| < U32_LIMIT, EncLookup,
          DecLookup)
  }

  function BodyLayout(): Codec<Body> {
    Pair(Vec(Pubkey()), Pair(Vec(InstructionCodec()), Vec(LookupCodec())))
  }

  function MessageLayout(): Codec<MessageFields> { Pair(U8(), Pair(U8(), Pair(U8(), BodyLayout()))) }

  function DecBody(buf: seq<Byte>, i: nat): Option<(Body, nat)> {
    var (accountKeys, i1) :- DecVec(Pubkey(), buf, i);
    var (instructions, i2) :- DecVec(InstructionCodec(), buf, i1);
    var (lookups, i3) :- DecVec(LookupCodec(), buf, i2);
    Some(((accountKeys, (instructions, lookups)), i3))
  }

  function DecMessage(buf: seq<Byte>, i: nat): Option<(TransactionMessage, nat)> {
    var (numSigners, i1) :- DecByte(buf, i);
    var (numWritableSigners, i2) :- DecByte(buf, i1);
    var (numWritableNonSigners, i3) :- DecByte(buf, i2);
    var (body, i4) :- DecBody(buf, i3);
    Some((ToMessage((numSigners, (numWritableSigners, (numWritableNonSigners, body)))), i4))
  }

  function MessageCodec(): Codec<TransactionMessage> {
    Codec((m: TransactionMessage) => MessageLayout().wf(OfMessage(m)),
          (m: TransactionMessage) => MessageLayout().enc(OfMessage(m)),
          DecMessage)
  }

  function MultisigLayout(): Codec<MultisigFields> { Pair(Vec(Pubkey()), Pair(U8(), Pair(Long(), U8()))) }

  function MultisigCodec(): Codec<Multisig> { Mapped(MultisigLayout(), ToMultisig, OfMultisig) }

  function VotesLayout(): Codec<Votes> {
    Pair(Bool(), Pair(Vec(Pubkey()), MessageCodec()))
  }

  function BumpsLayout(): Codec<(Byte, (Byte, (Byte, Votes)))> {
    Pair(U8(), Pair(U8(), Pair(U8(), VotesLayout())))
  }

  function ProposalLayout(): Codec<ProposalFields> {
    Pair(Pubkey(), Pair(Long(), Pair(Pubkey(), Pair(Pubkey(), BumpsLayout()))))
  }

  function DecVotes(buf: seq<Byte>, i: nat): Option<(Votes, nat)> {
    var (executed, i1) :- DecBool(buf, i);
    var (approvals, i2) :- DecVec(Pubkey(), buf, i1);
    var (message, i3) :- DecMessage(buf, i2);
    Some(((executed, (approvals, message)), i3))
  }

  function DecBumps(buf: seq<Byte>, i: nat): Option<((Byte, (Byte, (Byte, Votes))), nat)> {
    var (bump, i1) :- DecByte(buf, i);
    var (vaultIndex, i2) :- DecByte(buf, i1);
    var (vaultBump, i3) :- DecByte(buf, i2);
    var (votes, i4) :- DecVotes(buf, i3);
    Some(((bump, (vaultIndex, (vaultBump, votes))), i4))
  }

  function DecProposal(buf: seq<Byte>, i: nat): Option<(VaultTransaction, nat)> {
    var (multisig, i1) :- DecKey(buf, i);
    var (transactionIndex, i2) :- DecLong(buf, i1);
    var (creator, i3) :- DecKey(buf, i2);
    var (payer, i4) :- DecKey(buf, i3);
    var (rest, i5) :- DecBumps(buf, i4);
    Some((ToProposal((multisig, (transactionIndex, (creator, (payer, rest))))), i5))
  }

  function ProposalCodec(): Codec<VaultTransaction> {
    Codec((v: VaultTransaction) => ProposalLayout().wf(OfProposal(v)),
          (v: VaultTransaction) => ProposalLayout().enc(OfProposal(v)),
          DecProposal)
  }

  lemma TwoBlobsSound()
    ensures Sound(TwoBlobs())
  {
    BlobSound();
    PairSound(Blob(), Blob());
  }

  lemma InstructionRoundTrips(x: CompiledInstruction, buf: seq<Byte>, i: nat)
    ensures RoundTrips(InstructionCodec(), x, buf, i)
  {
    var blobs := (x.accountIndexes, x.data);
    HoldsConcat(buf, i, [x.programIdIndex], TwoBlobs().enc(blobs));
    assert RoundTrips(TwoBlobs(), blobs, buf, i + 1) by { TwoBlobsSound(); }
  }

  lemma InstructionCanonical(buf: seq<Byte>, i: nat)
    ensures Canonical(InstructionCodec(), buf, i)
  {
    match DecInstruction(buf, i)
    case None =>
    case Some((x, k)) =>
      assert Holds(buf, i, [x.programIdIndex]);
      assert Canonical(TwoBlobs(), buf, i + 1) by { TwoBlobsSound(); }
      HoldsConcat(buf, i, [x.programIdIndex], TwoBlobs().enc((x.accountIndexes, x.data)));
  }

  lemma InstructionSound()
    ensures Sound(InstructionCodec())
  {
    forall x, buf, i: nat ensures RoundTrips(InstructionCodec(), x, buf, i) { InstructionRoundTrips(x, buf, i); }
    forall buf, i: nat ensures Canonical(InstructionCodec(), buf, i) { InstructionCanonical(buf, i); }
  }

  lemma LookupRoundTrips(x: AddressTableLookup, buf: seq<Byte>, i: nat)
    ensures RoundTrips(LookupCodec(), x, buf, i)
  {
    var blobs := (x.writableIndexes, x.readonlyIndexes);
    HoldsConcat(buf, i, x.accountKey, TwoBlobs().enc(blobs));
    assert RoundTrips(TwoBlobs(), blobs, buf, i + 32) by { TwoBlobsSound(); }
  }

  lemma LookupCanonical(buf: seq<Byte>, i: nat)
    ensures Canonical(LookupCodec(), buf, i)
  {
    match DecLookup(buf, i)
    case None =>
    case Some((x, k)) =>
      assert Holds(buf, i, x.accountKey);
      assert Canonical(TwoBlobs(), buf, i + 32) by { TwoBlobsSound(); }
      HoldsConcat(buf, i, x.accountKey, TwoBlobs().enc((x.writableIndexes, x.readonlyIndexes)));
  }

  lemma LookupSound()
    ensures Sound(LookupCodec())
  {
    forall x, buf, i: nat ensures RoundTrips(LookupCodec(), x, buf, i) { LookupRoundTrips(x, buf, i); }
    forall buf, i: nat ensures Canonical(LookupCodec(), buf, i) { LookupCanonical(buf, i); }
  }

  lemma DecBodyByLayout(buf: seq<Byte>, i: nat)
    ensures DecBody(buf, i) == BodyLayout().dec(buf, i)
  {}

  lemma DecMessageByLayout(buf: seq<Byte>, i: nat)
    ensures DecMessage(buf, i) == Mapped(MessageLayout(), ToMessage, OfMessage).dec(buf, i)
  {
    if i + 3 <= |buf| { DecBodyByLayout(buf, i + 3); }
  }

  lemma DecVotesByLayout(buf: seq<Byte>, i: nat)
    ensures DecVotes(buf, i) == VotesLayout().dec(buf, i)
  {}

  lemma DecBumpsByLayout(buf: seq<Byte>, i: nat)
    ensures DecBumps(buf, i) == BumpsLayout().dec(buf, i)
  {
    if i + 3 <= |buf| { DecVotesByLayout(buf, i + 3); }
  }

  lemma DecProposalByLayout(buf: seq<Byte>, i: nat)
    ensures DecProposal(buf, i) == Mapped(ProposalLayout(), ToProposal, OfProposal).dec(buf, i)
  {
    if i + 104 <= |buf| { DecBumpsByLayout(buf, i + 104); }
  }

  // A decoder may be replaced by one that agrees with it everywhere.
  lemma SameDecoder<T(!new)>(c: Codec<T>, d: Codec<T>)
    requires Sound(c)
    requires forall x :: d.wf(x) == c.wf(x) && d.enc(x) == c.enc(x)
    requires forall buf, i: nat :: d.dec(buf, i) == c.dec(buf, i)
    ensures Sound(d)
  {
    forall x, buf, i: nat ensures RoundTrips(d, x, buf, i) { assert RoundTrips(c, x, buf, i); }
    forall buf, i: nat ensures Canonical(d, buf, i) { assert Canonical(c, buf, i); }
  }

  lemma MessageLayoutSound()
    ensures Sound(MessageLayout())
  {
    U8Sound(); PubkeySound(); InstructionSound(); LookupSound();
    VecSound(Pubkey()); VecSound(InstructionCodec()); VecSound(LookupCodec());
    PairSound(Vec(InstructionCodec()), Vec(LookupCodec()));
    PairSound(Vec(Pubkey()), Pair(Vec(InstructionCodec()), Vec(LookupCodec())));
    PairSound(U8(), BodyLayout());
    PairSound(U8(), Pair(U8(), BodyLayout()));
    PairSound(U8(), Pair(U8(), Pair(U8(), BodyLayout())));
  }

  // Messages round-trip, and every accepted byte string is the one encoding of its message.
  lemma MessageSound()
    ensures Sound(MessageCodec())
  {
    MessageLayoutSound();
    var c := Mapped(MessageLayout(), ToMessage, OfMessage);
    MappedSound(MessageLayout(), ToMessage, OfMessage);
    forall buf, i: nat ensures DecMessage(buf, i) == c.dec(buf, i) { DecMessageByLayout(buf, i); }
    SameDecoder(c, MessageCodec());
  }

  lemma MessageRoundTrips(m: TransactionMessage, buf: seq<Byte>, i: nat)
    ensures RoundTrips(MessageCodec(), m, buf, i)
  {
    MessageSound();
  }

  lemma MessageIsCanonical(buf: seq<Byte>, i: nat)
    ensures Canonical(MessageCodec(), buf, i)
  {
    MessageSound();
  }

  lemma BumpsSound()
    ensures Sound(BumpsLayout())
  {
    U8Sound(); PubkeySound(); BoolSound(); MessageSound();
    VecSound(Pubkey());
    PairSound(Vec(Pubkey()), MessageCodec());
    PairSound(Bool(), Pair(Vec(Pubkey()), MessageCodec()));
    PairSound(U8(), VotesLayout());
    PairSound(U8(), Pair(U8(), VotesLayout()));
    PairSound(U8(), Pair(U8(), Pair(U8(), VotesLayout())));
  }

  lemma ProposalLayoutSound()
    ensures Sound(ProposalLayout())
  {
    PubkeySound(); LongSound(); BumpsSound();
    PairSound(Pubkey(), BumpsLayout());
    PairSound(Pubkey(), Pair(Pubkey(), BumpsLayout()));
    PairSound(Long(), Pair(Pubkey(), Pair(Pubkey(), BumpsLayout())));
    PairSound(Pubkey(), Pair(Long(), Pair(Pubkey(), Pair(Pubkey(), BumpsLayout()))));
  }

  // The same for whole proposals.
  lemma ProposalSound()
    ensures Sound(ProposalCodec())
  {
    ProposalLayoutSound();
    var c := Mapped(ProposalLayout(), ToProposal, OfProposal);
    MappedSound(ProposalLayout(), ToProposal, OfProposal);
    forall buf, i: nat ensures DecProposal(buf, i) == c.dec(buf, i) { DecProposalByLayout(buf, i); }
    SameDecoder(c, ProposalCodec());
  }

  lemma ProposalRoundTrips(tx: VaultTransaction, buf: seq<Byte>, i: nat)
    ensures RoundTrips(ProposalCodec(), tx, buf, i) && Canonical(ProposalCodec(), buf, i)
  {
    ProposalSound();
  }

  // Only lengths can keep a proposal from being encoded.
  lemma ProposalEncodable(tx: VaultTransaction)
    requires MessageCodec().wf(tx.message) && |tx.approvals| < U32_LIMIT
    ensures ProposalCodec().wf(tx)
  {
    assert Vec(Pubkey()).wf(tx.approvals);
    assert VotesLayout().wf((tx.executed, (tx.approvals, tx.message)));
    var t := OfProposal(tx);
    assert Pair(U8(), VotesLayout()).wf(t.1.1.1.1.1.1);
    assert BumpsLayout().wf(t.1.1.1.1);
    assert Pair(Pubkey(), BumpsLayout()).wf(t.1.1.1);
    assert Pair(Pubkey(), Pair(Pubkey(), BumpsLayout())).wf(t.1.1);
    assert ProposalLayout().wf(t);
  }

  // ---- sizes ----

  const DISCRIMINATOR_LENGTH: nat := 8

  function ComputeMultisigSpace(memberCount: nat): nat {
    8 + 4 + memberCount * 32 + 1 + 8 + 1
  }

  function InstructionsSpace(ixs: seq<CompiledInstruction>): nat {
    if ixs == [] then 0
    else 1 + 4 + |ixs[0].accountIndexes| + 4 + |ixs[0].data| + InstructionsSpace(ixs[1..])
  }

  function LookupsSpace(ls: seq<AddressTableLookup>): nat {
    if ls == [] then 0
    else 32 + 4 + |ls[0].writableIndexes| + 4 + |ls[0].readonlyIndexes| + LookupsSpace(ls[1..])
  }

  function ComputeProposalSpace(message: TransactionMessage, memberCount: nat): nat {
    8 + 32 + 8 + 32 + 32 + 1 + 1 + 1 + 1
    + 4 + memberCount * 32
    + 1 + 1 + 1
    + 4 + |message.accountKeys| * 32
    + 4 + InstructionsSpace(message.instructions)
    + 4 + LookupsSpace(message.addressTableLookups)
  }

  // Bytes an account's contents occupy, in closed form; see the two lemmas below.
  function MultisigSize(m: Multisig): nat { ComputeMultisigSpace(|m.members|) }

  function ProposalSize(v: VaultTransaction): nat { ComputeProposalSpace(v.message, |v.approvals|) }

  lemma {:induction false} KeysEncoding(ks: seq<Key>)
    ensures |EncMany(Pubkey(), ks)| == 32 * |ks|
  {
    if ks == [] {
    } else {
      KeysEncoding(ks[1..]);
    }
  }

  lemma {:induction false} InstructionsEncoding(ixs: seq<CompiledInstruction>)
    ensures |EncMany(InstructionCodec(), ixs)| == InstructionsSpace(ixs)
  {
    if ixs == [] {
    } else {
      InstructionsEncoding(ixs[1..]);
    }
  }

  lemma {:induction false} LookupsEncoding(ls: seq<AddressTableLookup>)
    ensures |EncMany(LookupCodec(), ls)| == LookupsSpace(ls)
  {
    if ls == [] {
    } else {
      LookupsEncoding(ls[1..]);
    }
  }

  lemma MessageEncoding(m: TransactionMessage)
    ensures |MessageCodec().enc(m)| ==
            3 + (4 + |m.accountKeys| * 32) + (4 + InstructionsSpace(m.instructions))
            + (4 + LookupsSpace(m.addressTableLookups))
  {
    KeysEncoding(m.accountKeys);
    InstructionsEncoding(m.instructions);
    LookupsEncoding(m.addressTableLookups);
    var t := OfMessage(m);
    assert MessageCodec().enc(m) == MessageLayout().enc(t);
    PairLength(Vec(InstructionCodec()), Vec(LookupCodec()), t.1.1.1.1);
    PairLength(Vec(Pubkey()), Pair(Vec(InstructionCodec()), Vec(LookupCodec())), t.1.1.1);
    PairLength(U8(), BodyLayout(), t.1.1);
    PairLength(U8(), Pair(U8(), BodyLayout()), t.1);
    PairLength(U8(), Pair(U8(), Pair(U8(), BodyLayout())), t);
  }

  lemma MultisigSizeExact(m: Multisig)
    ensures DISCRIMINATOR_LENGTH + |MultisigCodec().enc(m)| == MultisigSize(m)
  {
    KeysEncoding(m.members);
    var t := OfMultisig(m);
    assert MultisigCodec().enc(m) == MultisigLayout().enc(t);
    PairLength(Long(), U8(), t.1.1);
    PairLength(U8(), Pair(Long(), U8()), t.1);
    PairLength(Vec(Pubkey()), Pair(U8(), Pair(Long(), U8())), t);
  }

  lemma BumpsEncoding(t: (Byte, (Byte, (Byte, Votes))))
    ensures |BumpsLayout().enc(t)| == 4 + (4 + 32 * |t.1.1.1.1.0|) + |MessageCodec().enc(t.1.1.1.1.1)|
  {
    KeysEncoding(t.1.1.1.1.0);
    PairLength(Vec(Pubkey()), MessageCodec(), t.1.1.1.1);
    PairLength(Bool(), Pair(Vec(Pubkey()), MessageCodec()), t.1.1.1);
    PairLength(U8(), VotesLayout(), t.1.1);
    PairLength(U8(), Pair(U8(), VotesLayout()), t.1);
    PairLength(U8(), Pair(U8(), Pair(U8(), VotesLayout())), t);
  }

  lemma LayoutEncoding(t: ProposalFields)
    ensures |ProposalLayout().enc(t)| == 32 + 8 + 32 + 32 + |BumpsLayout().enc(t.1.1.1.1)|
  {
    PairLength(Pubkey(), BumpsLayout(), t.1.1.1);
    PairLength(Pubkey(), Pair(Pubkey(), BumpsLayout()), t.1.1);
    PairLength(Long(), Pair(Pubkey(), Pair(Pubkey(), BumpsLayout())), t.1);
    PairLength(Pubkey(), Pair(Long(), Pair(Pubkey(), Pair(Pubkey(), BumpsLayout()))), t);
  }

  lemma ProposalSizeExact(v: VaultTransaction)
    ensures DISCRIMINATOR_LENGTH + |ProposalCodec().enc(v)| == ProposalSize(v)
  {
    var t := OfProposal(v);
    assert ProposalCodec().enc(v) == ProposalLayout().enc(t);
    LayoutEncoding(t);
    BumpsEncoding(t.1.1.1.1);
    MessageEncoding(v.message);
  }
}
