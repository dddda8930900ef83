/**
 * The list updates the pages apply to what the server returned: `filter` by an id
 * (delete, cancel, remove from cart), `filter` by an equal field (category selection)
 * and `map` that rewrites the entries with a given id (cart latch, user update).
 */
module Lists {

  /** `a` is `b` with some elements left out, the rest in their original order. */
  predicate IsSubsequence<T(==)>(a: seq<T>, b: seq<T>)
    decreases |b|
  {
    a == [] || (b != [] && ((a[0] == b[0] && IsSubsequence(a[1..], b[1..])) || IsSubsequence(a, b[1..])))
  }

  /** `s.filter(x => key(x) !== k)` */
  function RemoveKey<T(==,!new), K(==)>(s: seq<T>, key: T -> K, k: K): (r: seq<T>)
    ensures |r| <= |s|
    ensures forall x :: x in r <==> x in s && key(x) != k
  {
    if s == [] then []
    else (if key(s[0]) != k then [s[0]] else []) + RemoveKey(s[1..], key, k)
  }

  /** `s.filter(x => key(x) === k)` */
  function KeepKey<T(==,!new), K(==)>(s: seq<T>, key: T -> K, k: K): (r: seq<T>)
    ensures |r| <= |s|
    ensures forall x :: x in r <==> x in s && key(x) == k
  {
    if s == [] then []
    else (if key(s[0]) == k then [s[0]] else []) + KeepKey(s[1..], key, k)
  }

  /** `s.map(x => key(x) === k ? f(x) : x)` */
  function MapKey<T, K(==)>(s: seq<T>, key: T -> K, k: K, f: T -> T): (r: seq<T>)
    ensures |r| == |s|
    ensures forall i :: 0 <= i < |s| ==> r[i] == if key(s[i]) == k then f(s[i]) else s[i]
  {
    if s == [] then []
    else [if key(s[0]) == k then f(s[0]) else s[0]] + MapKey(s[1..], key, k, f)
  }

  /** Removing by id keeps the remaining elements in their original order. */
  lemma {:induction false} RemoveKeyIsSubsequence<T(!new), K>(s: seq<T>, key: T -> K, k: K)
    ensures IsSubsequence(RemoveKey(s, key, k), s)
  {
    if s != [] {
      RemoveKeyIsSubsequence(s[1..], key, k);
      var r := RemoveKey(s, key, k);
      if key(s[0]) != k {
        assert r[0] == s[0] && r[1..] == RemoveKey(s[1..], key, k);
      } else {
        assert r == RemoveKey(s[1..], key, k);
      }
    }
  }

  /** Selecting by a field keeps the selected elements in their original order. */
  lemma {:induction false} KeepKeyIsSubsequence<T(!new), K>(s: seq<T>, key: T -> K, k: K)
    ensures IsSubsequence(KeepKey(s, key, k), s)
  {
    if s != [] {
      KeepKeyIsSubsequence(s[1..], key, k);
      var r := KeepKey(s, key, k);
      if key(s[0]) == k {
        assert r[0] == s[0] && r[1..] == KeepKey(s[1..], key, k);
      } else {
        assert r == KeepKey(s[1..], key, k);
      }
    }
  }

  /** Filtering a concatenation filters each part. */
  lemma {:induction false} RemoveKeyAppend<T(!new), K>(a: seq<T>, b: seq<T>, key: T -> K, k: K)
    ensures RemoveKey(a + b, key, k) == RemoveKey(a, key, k) + RemoveKey(b, key, k)
  {
    if a != [] {
      RemoveKeyAppend(a[1..], b, key, k);
      var head := if key(a[0]) != k then [a[0]] else [];
      assert (a + b)[0] == a[0] && (a + b)[1..] == a[1..] + b;
      calc {
        RemoveKey(a + b, key, k);
        head + RemoveKey(a[1..] + b, key, k);
        head + (RemoveKey(a[1..], key, k) + RemoveKey(b, key, k));
        (head + RemoveKey(a[1..], key, k)) + RemoveKey(b, key, k);
      }
    } else {
      assert a + b == b;
    }
  }

  /** Removing by id changes nothing exactly when no element carries that id. */
  lemma {:induction false} RemoveKeyUnchanged<T(!new), K>(s: seq<T>, key: T -> K, k: K)
    ensures RemoveKey(s, key, k) == s <==> forall i :: 0 <= i < |s| ==> key(s[i]) != k
  {
    if s != [] {
      RemoveKeyUnchanged(s[1..], key, k);
      if key(s[0]) == k {
        assert |RemoveKey(s, key, k)| < |s|;
      } else {
        assert forall i :: 1 <= i < |s| ==> s[i] == s[1..][i - 1];
      }
    }
  }

  /** Rewriting the entries with id `k` and then removing id `k` is the same as removing it. */
  lemma {:induction false} RemoveAfterMap<T(!new), K>(s: seq<T>, key: T -> K, k: K, f: T -> T)
    requires forall x :: key(x) == k ==> key(f(x)) == k
    ensures RemoveKey(MapKey(s, key, k, f), key, k) == RemoveKey(s, key, k)
  {
    if s != [] {
      RemoveAfterMap(s[1..], key, k, f);
      assert MapKey(s, key, k, f)[1..] == MapKey(s[1..], key, k, f);
    }
  }
}
