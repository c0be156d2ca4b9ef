/** Borsh as an algebra of codecs: each pairs an encoder with a positional decoder,
    and each combinator keeps the two in step. */
module Codecs {
  import opened Wrappers
  import opened Bytes

  // `dec(buf, i)` reads one value at position i and returns it with the position after it.
  datatype Codec<!T> = Codec(
    wf: T -> bool,
    enc: T -> seq<Byte>,
    dec: (seq<Byte>, nat) -> Option<(T, nat)>)

  // The bytes of s stand at position i of buf.
  predicate Holds(buf: seq<Byte>, i: nat, s: seq<Byte>) {
    i + |s| <= |buf| && buf[i..i + |s|] == s
  }

  // What is encoded is decoded, whatever surrounds it.
  ghost predicate RoundTrips<T>(c: Codec<T>, x: T, buf: seq<Byte>, i: nat) {
    c.wf(x) && Holds(buf, i, c.enc(x)) ==> c.dec(buf, i) == Some((x, i + |c.enc(x)|))
  }

  // What is decoded is well formed, and its encoding is exactly the bytes consumed.
  ghost predicate Canonical<T>(c: Codec<T>, buf: seq<Byte>, i: nat) {
    match c.dec(buf, i)
    case None => true
    case Some((x, j)) => c.wf(x) && j == i + |c.enc(x)| && Holds(buf, i, c.enc(x))
  }

  ghost predicate Sound<T(!new)>(c: Codec<T>) {
    && (forall x, buf, i: nat :: RoundTrips(c, x, buf, i))
    && (forall buf, i: nat :: Canonical(c, buf, i))
  }

  lemma HoldsConcat(buf: seq<Byte>, i: nat, s: seq<Byte>, t: seq<Byte>)
    ensures Holds(buf, i, s + t) <==> Holds(buf, i, s) && Holds(buf, i + |s|, t)
  {
    if i + |s| + |t| <= |buf| {
      var whole := buf[i..i + |s + t|];
      assert whole[..|s|] == buf[i..i + |s|] && whole[|s|..] == buf[i + |s|..i + |s| + |t|];
      assert (s + t)[..|s|] == s && (s + t)[|s|..] == t;
      assert whole == whole[..|s|] + whole[|s|..];
    }
  }

  // ---- integers, booleans and raw bytes ----

  function DecByte(buf: seq<Byte>, i: nat): Option<(Byte, nat)> {
    if i < |buf| then Some((buf[i], i + 1)) else None
  }

  function DecInt(width: nat, buf: seq<Byte>, i: nat): Option<(nat, nat)> {
    if i + width <= |buf| then Some((Value(buf[i..i + width]), i + width)) else None
  }

  function DecBytes(n: nat, buf: seq<Byte>, i: nat): Option<(seq<Byte>, nat)> {
    if i + n <= |buf| then Some((buf[i..i + n], i + n)) else None
  }

  function DecBool(buf: seq<Byte>, i: nat): Option<(bool, nat)> {
    var (b, j) :- DecByte(buf, i);
    if b > 1 then None else Some((b == 1, j))
  }

  function DecKey(buf: seq<Byte>, i: nat): Option<(Key, nat)> {
    if i + 32 <= |buf| then Some((buf[i..i + 32], i + 32)) else None
  }

  function DecBlob(buf: seq<Byte>, i: nat): Option<(seq<Byte>, nat)> {
    var (n, j) :- DecInt(4, buf, i);
    DecBytes(n, buf, j)
  }

  function U8(): Codec<Byte> { Codec(x => true, x => [x], DecByte) }

  function DecLong(buf: seq<Byte>, i: nat): Option<(U64, nat)> {
    var (n, j) :- DecInt(8, buf, i);
    U64Bijection(0, buf[i..j]);
    Some((n, j))
  }

  function Long(): Codec<U64> { Codec(x => true, x => LittleEndian(x, 8), DecLong) }

  function Bool(): Codec<bool> { Codec(x => true, x => [if x then 1 else 0], DecBool) }

  function Pubkey(): Codec<Key> { Codec(x => true, x => x, DecKey) }

  // Vec<u8>: a u32 length, then the bytes.
  function EncBlob(x: seq<Byte>): seq<Byte> { LittleEndian(|x|, 4) + x }

  function Blob(): Codec<seq<Byte>> {
    Codec(x => |x| < U32_LIMIT, EncBlob, DecBlob)
  }

  lemma U8Sound()
    ensures Sound(U8())
  {
    forall buf, i: nat ensures Canonical(U8(), buf, i) {
      if i < |buf| { assert buf[i..i + 1] == [buf[i]]; }
    }
  }

  lemma LongSound()
    ensures Sound(Long())
  {
    forall x: U64, buf, i: nat ensures RoundTrips(Long(), x, buf, i) {
      U64Bijection(x, LittleEndian(x, 8));
    }
    forall buf, i: nat ensures Canonical(Long(), buf, i) {
      if i + 8 <= |buf| { U64Bijection(0, buf[i..i + 8]); }
    }
  }

  lemma BoolSound()
    ensures Sound(Bool())
  {
    forall buf, i: nat ensures Canonical(Bool(), buf, i) {
      if i < |buf| { assert buf[i..i + 1] == [buf[i]]; }
    }
  }

  lemma PubkeySound()
    ensures Sound(Pubkey())
  {}

  // A u32 length prefix, read back.
  lemma LengthPrefix(n: nat, buf: seq<Byte>, i: nat)
    ensures n < U32_LIMIT && Holds(buf, i, LittleEndian(n, 4)) ==> DecInt(4, buf, i) == Some((n, i + 4))
    ensures DecInt(4, buf, i).Some? ==>
              && DecInt(4, buf, i).value.0 < U32_LIMIT
              && DecInt(4, buf, i).value.1 == i + 4
              && Holds(buf, i, LittleEndian(DecInt(4, buf, i).value.0, 4))
  {
    Widths();
    if n < U32_LIMIT { ValueOfLittleEndian(n, 4); }
    if i + 4 <= |buf| { LittleEndianOfValue(buf[i..i + 4]); }
  }

  lemma BlobSound()
    ensures Sound(Blob())
  {
    forall x, buf, i: nat ensures RoundTrips(Blob(), x, buf, i) {
      HoldsConcat(buf, i, LittleEndian(|x|, 4), x);
      LengthPrefix(|x|, buf, i);
    }
    forall buf, i: nat ensures Canonical(Blob(), buf, i) {
      LengthPrefix(0, buf, i);
      match DecBlob(buf, i)
      case None =>
      case Some((x, j)) => HoldsConcat(buf, i, LittleEndian(|x|, 4), x);
    }
  }

  // ---- one value after another ----

  function DecPair<A, B>(a: Codec<A>, b: Codec<B>, buf: seq<Byte>, i: nat): Option<((A, B), nat)> {
    var (x, j) :- a.dec(buf, i);
    var (y, k) :- b.dec(buf, j);
    Some(((x, y), k))
  }

  function Pair<A, B>(a: Codec<A>, b: Codec<B>): Codec<(A, B)> {
    Codec((p: (A, B)) => a.wf(p.0) && b.wf(p.1),
          (p: (A, B)) => a.enc(p.0) + b.enc(p.1),
          (buf, i) => DecPair(a, b, buf, i))
  }

  lemma PairLength<A, B>(a: Codec<A>, b: Codec<B>, p: (A, B))
    ensures |Pair(a, b).enc(p)| == |a.enc(p.0)| + |b.enc(p.1)|
  {}

  lemma PairSound<A(!new), B(!new)>(a: Codec<A>, b: Codec<B>)
    requires Sound(a) && Sound(b)
    ensures Sound(Pair(a, b))
  {
    forall p: (A, B), buf, i: nat ensures RoundTrips(Pair(a, b), p, buf, i) {
      HoldsConcat(buf, i, a.enc(p.0), b.enc(p.1));
      assert RoundTrips(a, p.0, buf, i);
      assert RoundTrips(b, p.1, buf, i + |a.enc(p.0)|);
    }
    forall buf, i: nat ensures Canonical(Pair(a, b), buf, i) {
      match DecPair(a, b, buf, i)
      case None =>
      case Some(((x, y), k)) =>
        assert Canonical(a, buf, i);
        assert Canonical(b, buf, i + |a.enc(x)|);
        HoldsConcat(buf, i, a.enc(x), b.enc(y));
    }
  }

  // ---- the same bytes under another name ----

  function DecMap<A, B>(a: Codec<A>, f: A -> B, buf: seq<Byte>, i: nat): Option<(B, nat)> {
    var (x, j) :- a.dec(buf, i);
    Some((f(x), j))
  }

  function Mapped<A, B>(a: Codec<A>, f: A -> B, g: B -> A): Codec<B> {
    Codec((y: B) => a.wf(g(y)), (y: B) => a.enc(g(y)), (buf, i) => DecMap(a, f, buf, i))
  }

  lemma MappedSound<A(!new), B(!new)>(a: Codec<A>, f: A -> B, g: B -> A)
    requires Sound(a)
    requires forall x :: g(f(x)) == x
    requires forall y :: f(g(y)) == y
    ensures Sound(Mapped(a, f, g))
  {
    forall y, buf, i: nat ensures RoundTrips(Mapped(a, f, g), y, buf, i) {
      assert RoundTrips(a, g(y), buf, i);
    }
    forall buf, i: nat ensures Canonical(Mapped(a, f, g), buf, i) {
      assert Canonical(a, buf, i);
      match a.dec(buf, i)
      case None =>
      case Some((x, j)) => assert g(f(x)) == x;
    }
  }

  // ---- Vec<T> ----

  function EncMany<T>(c: Codec<T>, xs: seq<T>): seq<Byte> {
    if xs == [] then [] else c.enc(xs[0]) + EncMany(c, xs[1..])
  }

  function DecMany<T>(c: Codec<T>, n: nat, buf: seq<Byte>, i: nat): Option<(seq<T>, nat)> {
    if n == 0 then Some(([], i)) else
    var (x, j) :- c.dec(buf, i);
    var (xs, k) :- DecMany(c, n - 1, buf, j);
    Some(([x] + xs, k))
  }

  function DecVec<T>(c: Codec<T>, buf: seq<Byte>, i: nat): Option<(seq<T>, nat)> {
    var (n, j) :- DecInt(4, buf, i);
    DecMany(c, n, buf, j)
  }

  function Vec<T>(c: Codec<T>): Codec<seq<T>> {
    Codec((xs: seq<T>) => |xs| < U32_LIMIT && (forall k | 0 <= k < |xs| :: c.wf(xs[k])),
          (xs: seq<T>) => LittleEndian(|xs|, 4) + EncMany(c, xs),
          (buf, i) => DecVec(c, buf, i))
  }

  lemma {:induction false} ManyRoundTrips<T(!new)>(c: Codec<T>, xs: seq<T>, buf: seq<Byte>, i: nat)
    requires Sound(c) && (forall k | 0 <= k < |xs| :: c.wf(xs[k])) && Holds(buf, i, EncMany(c, xs))
    ensures DecMany(c, |xs|, buf, i) == Some((xs, i + |EncMany(c, xs)|))
  {
    if xs == [] {
    } else {
      HoldsConcat(buf, i, c.enc(xs[0]), EncMany(c, xs[1..]));
      assert RoundTrips(c, xs[0], buf, i);
      ManyRoundTrips(c, xs[1..], buf, i + |c.enc(xs[0])|);
      assert xs == [xs[0]] + xs[1..];
    }
  }

  lemma {:induction false} ManyCanonical<T(!new)>(c: Codec<T>, n: nat, buf: seq<Byte>, i: nat)
    requires Sound(c) && i <= |buf| && DecMany(c, n, buf, i).Some?
    ensures var (xs, j) := DecMany(c, n, buf, i).value;
            && |xs| == n && (forall k | 0 <= k < n :: c.wf(xs[k]))
            && j == i + |EncMany(c, xs)| && Holds(buf, i, EncMany(c, xs))
  {
    if n == 0 {
    } else {
      assert Canonical(c, buf, i);
      var (x, j) := c.dec(buf, i).value;
      ManyCanonical(c, n - 1, buf, j);
      var xs := DecMany(c, n - 1, buf, j).value.0;
      assert ([x] + xs)[1..] == xs;
      HoldsConcat(buf, i, c.enc(x), EncMany(c, xs));
    }
  }

  lemma VecDecodes<T(!new)>(c: Codec<T>, xs: seq<T>, buf: seq<Byte>, i: nat)
    requires Sound(c) && |xs| < U32_LIMIT && (forall k | 0 <= k < |xs| :: c.wf(xs[k]))
    requires Holds(buf, i, LittleEndian(|xs|, 4)) && Holds(buf, i + 4, EncMany(c, xs))
    ensures DecVec(c, buf, i) == Some((xs, i + 4 + |EncMany(c, xs)|))
  {
    LengthPrefix(|xs|, buf, i);
    ManyRoundTrips(c, xs, buf, i + 4);
  }

  lemma VecRoundTrips<T(!new)>(c: Codec<T>, xs: seq<T>, buf: seq<Byte>, i: nat)
    requires Sound(c)
    ensures RoundTrips(Vec(c), xs, buf, i)
  {
    HoldsConcat(buf, i, LittleEndian(|xs|, 4), EncMany(c, xs));
    if Vec(c).wf(xs) && Holds(buf, i, Vec(c).enc(xs)) { VecDecodes(c, xs, buf, i); }
  }

  lemma VecCanonical<T(!new)>(c: Codec<T>, buf: seq<Byte>, i: nat)
    requires Sound(c)
    ensures Canonical(Vec(c), buf, i)
  {
    LengthPrefix(0, buf, i);
    match DecVec(c, buf, i)
    case None =>
    case Some((xs, j)) =>
      ManyCanonical(c, DecInt(4, buf, i).value.0, buf, i + 4);
      HoldsConcat(buf, i, LittleEndian(|xs|, 4), EncMany(c, xs));
  }

  lemma VecSound<T(!new)>(c: Codec<T>)
    requires Sound(c)
    ensures Sound(Vec(c))
  {
    forall xs, buf, i: nat ensures RoundTrips(Vec(c), xs, buf, i) { VecRoundTrips(c, xs, buf, i); }
    forall buf, i: nat ensures Canonical(Vec(c), buf, i) { VecCanonical(c, buf, i); }
  }
}
