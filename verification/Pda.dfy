/** Program-derived addresses: seeds, derivations, and the functions the model
    takes as given. */
module Pda {
  import opened Bytes
  import opened Members

  // SHA-256, the address search, rent and the strict UTF-8 test are foreign code: any functions will do.
  // `find` sees the seeds laid end to end, which is all the runtime hashes.
  datatype Env = Env(
    programId: Key,
    sha256: seq<Byte> -> Key,
    find: (seq<Byte>, Key) -> (Key, Byte),
    rent: nat -> nat,
    isText: seq<Byte> -> bool)

  const MULTISIG_SEED: seq<Byte> := [109, 117, 108, 116, 105, 115, 105, 103]
  const VAULT_SEED: seq<Byte> := [118, 97, 117, 108, 116]
  const TRANSACTION_SEED: seq<Byte> := [116, 114, 97, 110, 115, 97, 99, 116, 105, 111, 110]

  datatype Seed =
    | MultisigSeed(memberHash: Key, threshold: Byte)
    | VaultSeed(multisig: Key, vaultIndex: Byte)
    | TransactionSeed(multisig: Key, index: U64)

  function SeedBytes(s: Seed): seq<Byte> {
    match s
    case MultisigSeed(hash, threshold) => MULTISIG_SEED + hash + [threshold]
    case VaultSeed(multisig, vaultIndex) => VAULT_SEED + multisig + [vaultIndex]
    case TransactionSeed(multisig, index) => TRANSACTION_SEED + multisig + LittleEndian(index, 8)
  }

  // The seeds as the program lists them: the word "multisig", "vault" or
  // "transaction", a key, and a byte or a little-endian index.
  lemma SeedsLaidOut(k: Key, b: Byte, index: U64)
    ensures SeedBytes(MultisigSeed(k, b)) == [109, 117, 108, 116, 105, 115, 105, 103] + k + [b]
    ensures SeedBytes(VaultSeed(k, b)) == [118, 97, 117, 108, 116] + k + [b]
    ensures SeedBytes(TransactionSeed(k, index))
            == [116, 114, 97, 110, 115, 97, 99, 116, 105, 111, 110] + k + LittleEndian(index, 8)
  {}

  // No two seeds, of one family or of two, are the same bytes: an address
  // clash can only be a clash of the hash. With the bump appended, as when
  // signing, that is still so.
  lemma SeedsNeverCollide(a: Seed, b: Seed, aBump: Byte, bBump: Byte)
    ensures SeedBytes(a) == SeedBytes(b) ==> a == b
    ensures SeedBytes(a) + [aBump] == SeedBytes(b) + [bBump] ==> a == b && aBump == bBump
  {
    var x, y := SeedBytes(a), SeedBytes(b);
    if x + [aBump] == y + [bBump] {
      assert |x| == |y|;
      assert x == (x + [aBump])[..|x|] && y == (y + [bBump])[..|y|];
      assert aBump == (x + [aBump])[|x|] && bBump == (y + [bBump])[|x|];
    }
    if x == y {
      match (a, b)
      case (MultisigSeed(h, t), MultisigSeed(g, u)) =>
        assert x[8..40] == h && y[8..40] == g && x[40] == t && y[40] == u;
      case (VaultSeed(m, i), VaultSeed(n, j)) =>
        assert x[5..37] == m && y[5..37] == n && x[37] == i && y[37] == j;
      case (TransactionSeed(m, i), TransactionSeed(n, j)) =>
        assert x[11..43] == m && y[11..43] == n && x[43..] == LittleEndian(i, 8) && y[43..] == LittleEndian(j, 8);
        U64Bijection(i, LittleEndian(i, 8));
        U64Bijection(j, LittleEndian(j, 8));
      case _ => assert false;
    }
  }

  function Derive(env: Env, s: Seed): (Key, Byte) { env.find(SeedBytes(s), env.programId) }

  function DeriveVault(env: Env, multisig: Key, vaultIndex: Byte): (Key, Byte) {
    Derive(env, VaultSeed(multisig, vaultIndex))
  }

  function DeriveTransaction(env: Env, multisig: Key, index: U64): (Key, Byte) {
    Derive(env, TransactionSeed(multisig, index))
  }

  function DeriveMultisig(env: Env, members: seq<Key>, threshold: Byte): (Key, Byte) {
    Derive(env, MultisigSeed(env.sha256(Flatten(Sort(members))), threshold))
  }

  // The addresses, from those seeds, under this program: a wallet's from the hash
  // of its sorted members and its threshold, its vaults' and its proposals' from its own.
  lemma AddressesDerived(env: Env, members: seq<Key>, threshold: Byte, multisig: Key, vaultIndex: Byte, index: U64)
    ensures DeriveMultisig(env, members, threshold)
            == env.find([109, 117, 108, 116, 105, 115, 105, 103] + env.sha256(Flatten(Sort(members))) + [threshold],
                        env.programId)
    ensures DeriveVault(env, multisig, vaultIndex)
            == env.find([118, 97, 117, 108, 116] + multisig + [vaultIndex], env.programId)
    ensures DeriveTransaction(env, multisig, index)
            == env.find([116, 114, 97, 110, 115, 97, 99, 116, 105, 111, 110] + multisig + LittleEndian(index, 8),
                        env.programId)
  {
    SeedsLaidOut(env.sha256(Flatten(Sort(members))), threshold, 0);
    SeedsLaidOut(multisig, vaultIndex, index);
  }

  lemma {:induction false} FlattenSnoc(keys: seq<Key>, k: Key)
    ensures Flatten(keys + [k]) == Flatten(keys) + k
  {
    if keys == [] {
    } else {
      assert (keys + [k])[1..] == keys[1..] + [k];
      FlattenSnoc(keys[1..], k);
    }
  }

  // The program and the SDK both feed the hash one member at a time.
  method HashMembers(env: Env, members: seq<Key>) returns (h: Key)
    ensures h == env.sha256(Flatten(members))
  {
    var data: seq<Byte> := [];
    for i := 0 to |members|
      invariant data == Flatten(members[..i])
    {
      assert members[..i + 1] == members[..i] + [members[i]];
      FlattenSnoc(members[..i], members[i]);
      data := data + members[i];
    }
    assert members[..|members|] == members;
    h := env.sha256(data);
  }

  // The address depends on which members there are, not on their order.
  lemma AddressIgnoresOrder(env: Env, a: seq<Key>, b: seq<Key>, threshold: Byte)
    requires multiset(a) == multiset(b)
    ensures DeriveMultisig(env, a, threshold) == DeriveMultisig(env, b, threshold)
  {
    SortIgnoresOrder(a, b);
  }
}
