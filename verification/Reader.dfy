/** The SDK's sequential Borsh reader and its message parser. */
module Reader {
  import opened Wrappers
  import opened Bytes
  import opened Codecs
  import opened State

  // What the parser keeps of a message: the header bytes and the lookup
  // contents are read and dropped.
  datatype InnerMessage = InnerMessage(
    vaultIndex: Byte,
    accountKeys: seq<Key>,
    instructions: seq<CompiledInstruction>,
    addressTableLookupCount: nat)

  function Abridged(vaultIndex: Byte, m: TransactionMessage): InnerMessage {
    InnerMessage(vaultIndex, m.accountKeys, m.instructions, |m.addressTableLookups|)
  }

  // A read that ended at `at` agrees with a positional decoder.
  ghost predicate Agrees<T>(spec: Option<(T, nat)>, r: Option<T>, at: nat) {
    match spec
    case None => r.None?
    case Some((x, j)) => r == Some(x) && at == j
  }

  function Prepend<T>(done: seq<T>, rest: Option<(seq<T>, nat)>): Option<(seq<T>, nat)> {
    match rest
    case None => None
    case Some((xs, j)) => Some((done + xs, j))
  }

  lemma PrependNothing<T>(r: Option<(seq<T>, nat)>)
    ensures Prepend([], r) == r
  {
    match r
    case None =>
    case Some((xs, j)) => assert [] + xs == xs;
  }

  // One more element of a vector read.
  lemma ReadOneMore<T>(c: Codec<T>, left: nat, buf: seq<Byte>, from: nat, done: seq<T>, x: Option<T>, at: nat)
    requires Agrees(c.dec(buf, from), x, at)
    ensures match x
            case None => Prepend(done, DecMany(c, left + 1, buf, from)) == None
            case Some(e) =>
              Prepend(done, DecMany(c, left + 1, buf, from)) == Prepend(done + [e], DecMany(c, left, buf, at))
  {
    if x.Some? {
      match DecMany(c, left, buf, at)
      case None =>
      case Some((xs, j)) => assert done + ([x.value] + xs) == done + [x.value] + xs;
    }
  }

  class ByteReader {
    const buf: seq<Byte>
    var offset: nat

    constructor (buf: seq<Byte>)
      ensures this.buf == buf && offset == 0
    {
      this.buf := buf;
      offset := 0;
    }

    method U8() returns (r: Option<Byte>)
      modifies this
      ensures Agrees(DecByte(buf, old(offset)), r, offset)
    {
      if offset + 1 > |buf| { return None; }
      r := Some(buf[offset]);
      offset := offset + 1;
    }

    method U32() returns (r: Option<nat>)
      modifies this
      ensures Agrees(DecInt(4, buf, old(offset)), r, offset)
    {
      if offset + 4 > |buf| { return None; }
      r := Some(Value(buf[offset..offset + 4]));
      offset := offset + 4;
    }

    method U64() returns (r: Option<Bytes.U64>)
      modifies this
      ensures Agrees(DecLong(buf, old(offset)), r, offset)
    {
      if offset + 8 > |buf| { return None; }
      var v := ReadU64LE(buf, offset);
      r := Some(v);
      offset := offset + 8;
    }

    method Bool() returns (r: Option<bool>)
      modifies this
      ensures Agrees(DecBool(buf, old(offset)), r, offset)
    {
      var v :- U8();
      if v > 1 { return None; }
      r := Some(v == 1);
    }

    method Take(n: nat) returns (r: Option<seq<Byte>>)
      modifies this
      ensures Agrees(DecBytes(n, buf, old(offset)), r, offset)
    {
      if offset + n > |buf| { return None; }
      r := Some(buf[offset..offset + n]);
      offset := offset + n;
    }

    method Pubkey() returns (r: Option<Key>)
      modifies this
      ensures Agrees(DecKey(buf, old(offset)), r, offset)
    {
      var raw :- Take(32);
      r := Some(raw);
    }

    // A u32 length and that many bytes.
    method Prefixed() returns (r: Option<seq<Byte>>)
      modifies this
      ensures Agrees(DecBlob(buf, old(offset)), r, offset)
    {
      var n :- U32();
      r := Take(n);
    }

    method Instruction() returns (r: Option<CompiledInstruction>)
      modifies this
      ensures Agrees(DecInstruction(buf, old(offset)), r, offset)
    {
      var programIdIndex :- U8();
      var accountIndexes :- Prefixed();
      var data :- Prefixed();
      r := Some(CompiledInstruction(programIdIndex, accountIndexes, data));
    }

    method Lookup() returns (r: Option<AddressTableLookup>)
      modifies this
      ensures Agrees(DecLookup(buf, old(offset)), r, offset)
    {
      var accountKey :- Pubkey();
      var writable :- Prefixed();
      var readonly :- Prefixed();
      r := Some(AddressTableLookup(accountKey, writable, readonly));
    }

    method Pubkeys() returns (r: Option<seq<Key>>)
      modifies this
      ensures Agrees(DecVec(Codecs.Pubkey(), buf, old(offset)), r, offset)
    {
      var count :- U32();
      ghost var start := offset;
      var keys := [];
      PrependNothing(DecMany(Codecs.Pubkey(), count, buf, start));
      for i := 0 to count
        invariant DecMany(Codecs.Pubkey(), count, buf, start)
                  == Prepend(keys, DecMany(Codecs.Pubkey(), count - i, buf, offset))
      {
        ghost var from := offset;
        var k := Pubkey();
        ReadOneMore(Codecs.Pubkey(), count - i - 1, buf, from, keys, k, offset);
        if k.None? { return None; }
        keys := keys + [k.value];
      }
      r := Some(keys);
      assert keys + [] == keys;
    }

    method Instructions() returns (r: Option<seq<CompiledInstruction>>)
      modifies this
      ensures Agrees(DecVec(InstructionCodec(), buf, old(offset)), r, offset)
    {
      var count :- U32();
      r := InstructionList(count, InstructionCodec());
    }

    method InstructionList(count: nat, ghost c: Codec<CompiledInstruction>)
        returns (r: Option<seq<CompiledInstruction>>)
      requires forall i: nat :: ReadsInstruction(c, buf, i)
      modifies this
      ensures Agrees(DecMany(c, count, buf, old(offset)), r, offset)
    {
      ghost var start := offset;
      var ixs := [];
      PrependNothing(DecMany(c, count, buf, start));
      for i := 0 to count
        invariant DecMany(c, count, buf, start) == Prepend(ixs, DecMany(c, count - i, buf, offset))
      {
        ghost var from := offset;
        var ix := Instruction();
        assert ReadsInstruction(c, buf, from);
        ReadOneMore(c, count - i - 1, buf, from, ixs, ix, offset);
        if ix.None? { return None; }
        ixs := ixs + [ix.value];
      }
      r := Some(ixs);
      assert ixs + [] == ixs;
    }

    // Lookups are counted, then read past.
    method Lookups() returns (r: Option<nat>)
      modifies this
      ensures Counts(DecVec(LookupCodec(), buf, old(offset)), r, offset)
    {
      var count :- U32();
      r := LookupList(count, LookupCodec());
    }

    method LookupList(count: nat, ghost c: Codec<AddressTableLookup>) returns (r: Option<nat>)
      requires forall i: nat :: ReadsLookup(c, buf, i)
      modifies this
      ensures Counts(DecMany(c, count, buf, old(offset)), r, offset)
    {
      ghost var start := offset;
      ghost var ls: seq<AddressTableLookup> := [];
      PrependNothing(DecMany(c, count, buf, start));
      for i := 0 to count
        invariant |ls| == i
        invariant DecMany(c, count, buf, start) == Prepend(ls, DecMany(c, count - i, buf, offset))
      {
        ghost var from := offset;
        var l := Lookup();
        assert ReadsLookup(c, buf, from);
        ReadOneMore(c, count - i - 1, buf, from, ls, l, offset);
        if l.None? { return None; }
        ls := ls + [l.value];
      }
      r := Some(count);
      assert ls + [] == ls;
    }
  }

  // A codec that reads what the reader's own method reads.
  ghost predicate ReadsInstruction(c: Codec<CompiledInstruction>, buf: seq<Byte>, i: nat) {
    c.dec(buf, i) == DecInstruction(buf, i)
  }

  ghost predicate ReadsLookup(c: Codec<AddressTableLookup>, buf: seq<Byte>, i: nat) {
    c.dec(buf, i) == DecLookup(buf, i)
  }

  ghost predicate Counts<T>(spec: Option<(seq<T>, nat)>, r: Option<nat>, at: nat) {
    match spec
    case None => r.None?
    case Some((xs, j)) => r == Some(|xs|) && at == j
  }

  method ReadU64LE(buf: seq<Byte>, offset: nat) returns (value: U64)
    requires offset + 8 <= |buf|
    ensures value == Value(buf[offset..offset + 8])
  {
    var acc: nat := 0;
    var i := 8;
    while i > 0
      invariant 0 <= i <= 8
      invariant acc == Value(buf[offset + i..offset + 8])
    {
      i := i - 1;
      acc := acc * 256 + buf[offset + i];
      assert buf[offset + i..offset + 8][1..] == buf[offset + i + 1..offset + 8];
    }
    U64Bijection(0, buf[offset..offset + 8]);
    value := acc;
  }

  // Whatever bytes arrive, the parse stops: with the message the bytes encode, or with none.
  method ParseTransactionMessage(reader: ByteReader, vaultIndex: Byte) returns (r: Option<InnerMessage>)
    modifies reader
    ensures match MessageCodec().dec(reader.buf, old(reader.offset))
            case None => r.None?
            case Some((m, j)) => r == Some(Abridged(vaultIndex, m)) && reader.offset == j
  {
    var numSigners :- reader.U8();
    var numWritableSigners :- reader.U8();
    var numWritableNonSigners :- reader.U8();
    var accountKeys :- reader.Pubkeys();
    var instructions :- reader.Instructions();
    var lookupCount :- reader.Lookups();
    r := Some(InnerMessage(vaultIndex, accountKeys, instructions, lookupCount));
  }
}
