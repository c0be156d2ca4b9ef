/** Ordering of public keys, canonical member lists and duplicate detection. */
module Members {
  import opened Bytes

  // Byte-lexicographic order, the order Rust derives on [u8; 32].
  predicate Less(a: seq<Byte>, b: seq<Byte>)
    requires |a| == |b|
  {
    a != [] && (a[0] < b[0] || (a[0] == b[0] && Less(a[1..], b[1..])))
  }

  // The first byte in which they differ decides, and the smaller byte comes first.
  lemma {:induction false} FirstDifferenceDecides(a: seq<Byte>, b: seq<Byte>)
    requires |a| == |b|
    ensures Less(a, b) <==> exists i :: 0 <= i < |a| && a[..i] == b[..i] && a[i] < b[i]
  {
    if a == [] {
    } else {
      FirstDifferenceDecides(a[1..], b[1..]);
      if Less(a, b) {
        if a[0] == b[0] {
          var i :| 0 <= i < |a[1..]| && a[1..][..i] == b[1..][..i] && a[1..][i] < b[1..][i];
          assert a[..i + 1] == [a[0]] + a[1..][..i] && b[..i + 1] == [b[0]] + b[1..][..i];
          assert a[i + 1] < b[i + 1];
        } else {
          assert a[..0] == b[..0];
        }
      }
      if i :| 0 <= i < |a| && a[..i] == b[..i] && a[i] < b[i] {
        if i > 0 {
          assert a[0] == a[..i][0] == b[..i][0] == b[0];
          assert a[1..][..i - 1] == a[..i][1..] && b[1..][..i - 1] == b[..i][1..];
          assert a[1..][i - 1] < b[1..][i - 1];
        }
      }
    }
  }

  predicate AtMost(a: Key, b: Key) { a == b || Less(a, b) }

  lemma {:induction false} LessTotal(a: seq<Byte>, b: seq<Byte>)
    requires |a| == |b|
    ensures a == b || Less(a, b) || Less(b, a)
  {
    if a == [] || a[0] != b[0] {
    } else {
      LessTotal(a[1..], b[1..]);
      assert a == [a[0]] + a[1..] && b == [b[0]] + b[1..];
    }
  }

  lemma {:induction false} LessTransitive(a: seq<Byte>, b: seq<Byte>, c: seq<Byte>)
    requires |a| == |b| == |c| && Less(a, b) && Less(b, c)
    ensures Less(a, c)
  {
    if a[0] == b[0] == c[0] {
      LessTransitive(a[1..], b[1..], c[1..]);
    }
  }

  lemma {:induction false} LessAsymmetric(a: seq<Byte>, b: seq<Byte>)
    requires |a| == |b| && Less(a, b)
    ensures !Less(b, a) && a != b
  {
    if a[0] != b[0] {
    } else {
      LessAsymmetric(a[1..], b[1..]);
    }
  }

  // The SDK's sort comparator: the first differing byte decides.
  method Compare(a: Key, b: Key) returns (d: int)
    ensures d < 0 <==> Less(a, b)
    ensures d == 0 <==> a == b
    ensures d > 0 <==> Less(b, a)
  {
    LessTotal(a, b);
    for i := 0 to 32
      invariant a[..i] == b[..i]
      invariant Less(a, b) == Less(a[i..], b[i..])
      invariant Less(b, a) == Less(b[i..], a[i..])
    {
      if a[i] != b[i] {
        var x: int, y: int := a[i], b[i];
        return x - y;
      }
      assert a[i..][1..] == a[i + 1..] && b[i..][1..] == b[i + 1..];
    }
    assert a == a[..32] && b == b[..32];
    return 0;
  }

  ghost predicate Sorted(keys: seq<Key>) {
    forall i, j | 0 <= i < j < |keys| :: AtMost(keys[i], keys[j])
  }

  predicate Distinct<T(==)>(s: seq<T>) {
    forall i, j | 0 <= i < j < |s| :: s[i] != s[j]
  }

  // Both runtimes' library sort, on a copy.
  function Sort(keys: seq<Key>): (r: seq<Key>)
    ensures Sorted(r) && multiset(r) == multiset(keys)
  {
    if keys == [] then [] else
    assert keys == [keys[0]] + keys[1..];
    Insert(keys[0], Sort(keys[1..]))
  }

  function Insert(k: Key, keys: seq<Key>): (r: seq<Key>)
    requires Sorted(keys)
    ensures Sorted(r) && multiset(r) == multiset{k} + multiset(keys)
  {
    if keys == [] then [k]
    else if AtMost(k, keys[0]) then
      InsertFront(k, keys);
      [k] + keys
    else
      LessTotal(k, keys[0]);
      assert keys == [keys[0]] + keys[1..];
      var tail := Insert(k, keys[1..]);
      InsertBelow(keys[0], k, keys[1..], tail);
      [keys[0]] + tail
  }

  // The sorted list is the same keys in ascending order of their first difference.
  lemma SortAscends(keys: seq<Key>, i: nat, j: nat)
    requires i < j < |Sort(keys)|
    ensures multiset(Sort(keys)) == multiset(keys)
    ensures var a, b := Sort(keys)[i], Sort(keys)[j];
            a == b || exists d :: 0 <= d < 32 && a[..d] == b[..d] && a[d] < b[d]
  {
    var a, b := Sort(keys)[i], Sort(keys)[j];
    assert AtMost(a, b);
    FirstDifferenceDecides(a, b);
  }

  lemma InsertFront(k: Key, keys: seq<Key>)
    requires Sorted(keys) && keys != [] && AtMost(k, keys[0])
    ensures Sorted([k] + keys)
  {
    forall j | 0 <= j < |keys| ensures AtMost(k, keys[j]) {
      if j > 0 && k != keys[0] && keys[0] != keys[j] {
        assert AtMost(keys[0], keys[j]);
        LessTransitive(k, keys[0], keys[j]);
      }
    }
  }

  lemma InsertBelow(head: Key, k: Key, rest: seq<Key>, tail: seq<Key>)
    requires Sorted(tail) && AtMost(head, k)
    requires forall j | 0 <= j < |rest| :: AtMost(head, rest[j])
    requires multiset(tail) == multiset{k} + multiset(rest)
    ensures Sorted([head] + tail)
  {
    forall j | 0 <= j < |tail| ensures AtMost(head, tail[j]) {
      assert tail[j] in multiset(tail);
    }
  }

  lemma SameFront(a: seq<Key>, b: seq<Key>)
    requires Sorted(a) && Sorted(b) && multiset(a) == multiset(b) && a != []
    ensures b != [] && a[0] == b[0]
  {
    assert a[0] in multiset(b) && b != [] by { assert a[0] in multiset(a); }
    assert b[0] in multiset(a) by { assert b[0] in multiset(b); }
    assert AtMost(a[0], b[0]) && AtMost(b[0], a[0]);
    if a[0] != b[0] { LessAsymmetric(a[0], b[0]); }
  }

  // Sorting has one possible outcome, so every correct sort agrees with Sort.
  lemma {:induction false} SortedPermutationUnique(a: seq<Key>, b: seq<Key>)
    requires Sorted(a) && Sorted(b) && multiset(a) == multiset(b)
    ensures a == b
  {
    if a == [] {
      assert |b| == |multiset(b)| == |multiset(a)| == 0;
    } else {
      SameFront(a, b);
      assert a == [a[0]] + a[1..] && b == [b[0]] + b[1..];
      assert multiset(a[1..]) == multiset(a) - multiset{a[0]} == multiset(b[1..]);
      SortedPermutationUnique(a[1..], b[1..]);
    }
  }

  // The canonical list depends only on which keys were given, not on their order.
  lemma SortIgnoresOrder(a: seq<Key>, b: seq<Key>)
    requires multiset(a) == multiset(b)
    ensures Sort(a) == Sort(b)
  {
    SortedPermutationUnique(Sort(a), Sort(b));
  }

  lemma SortFixesSorted(a: seq<Key>)
    requires Sorted(a)
    ensures Sort(a) == a
  {
    SortedPermutationUnique(Sort(a), a);
  }

  // Distinctness is a property of the multiset alone.
  lemma {:induction false} DistinctByCount<T>(s: seq<T>)
    ensures Distinct(s) <==> forall x :: x in s ==> multiset(s)[x] == 1
  {
    if s == [] {
    } else {
      DistinctByCount(s[1..]);
      assert s == [s[0]] + s[1..];
      assert multiset(s) == multiset{s[0]} + multiset(s[1..]);
      if Distinct(s) {
        assert s[0] !in s[1..];
        assert Distinct(s[1..]);
      }
      if forall x :: x in s ==> multiset(s)[x] == 1 {
        assert s[0] !in s[1..] by { assert multiset(s)[s[0]] == 1; }
        forall x | x in s[1..] ensures multiset(s[1..])[x] == 1 { assert x in s; }
        assert Distinct(s);
      }
    }
  }

  lemma PermutationKeepsDistinct<T>(a: seq<T>, b: seq<T>)
    requires multiset(a) == multiset(b) && Distinct(a)
    ensures Distinct(b)
  {
    DistinctByCount(a);
    DistinctByCount(b);
    forall x | x in b ensures multiset(b)[x] == 1 {
      assert x in multiset(a);
    }
  }

  // Sort a copy, then compare neighbours: how the program looks for repeated
  // members and repeated account keys.
  method FindDuplicate(keys: seq<Key>) returns (found: bool)
    ensures found <==> !Distinct(keys)
  {
    var sorted := Sort(keys);
    if |sorted| > 0 {
      for i := 0 to |sorted| - 1
        invariant forall k | 0 <= k < i :: sorted[k] != sorted[k + 1]
      {
        if sorted[i] == sorted[i + 1] {
          assert !Distinct(sorted);
          if Distinct(keys) { PermutationKeepsDistinct(keys, sorted); }
          return true;
        }
      }
    }
    StrictlySortedDistinct(sorted);
    PermutationKeepsDistinct(sorted, keys);
    return false;
  }

  lemma StrictlySortedDistinct(s: seq<Key>)
    requires Sorted(s)
    requires forall k | 0 <= k < |s| - 1 :: s[k] != s[k + 1]
    ensures Distinct(s)
  {
    forall i, j | 0 <= i < j < |s| ensures s[i] != s[j] {
      assert AtMost(s[i], s[i + 1]) && s[i] != s[i + 1];
      if j > i + 1 {
        assert AtMost(s[i + 1], s[j]);
        if s[i] == s[j] { LessAsymmetric(s[i], s[i + 1]); }
      }
    }
  }

  // Distinct elements drawn from a list cannot outnumber it.
  lemma {:induction false} Pigeonhole<T>(a: seq<T>, b: seq<T>)
    requires Distinct(a) && forall x | x in a :: x in b
    ensures |a| <= |b|
  {
    if a == [] {
    } else {
      assert a[0] in b;
      var i :| 0 <= i < |b| && b[i] == a[0];
      var rest := b[..i] + b[i + 1..];
      forall x | x in a[1..] ensures x in rest {
        var j :| 1 <= j < |a| && a[j] == x;
        assert x in b && x != b[i];
        var k :| 0 <= k < |b| && b[k] == x;
        assert if k < i then rest[k] == x else rest[k - 1] == x;
      }
      Pigeonhole(a[1..], rest);
    }
  }
}
