/**
 * The list operations the components apply to their state arrays: `Array.prototype.filter`
 * with a predicate, and the `filter(x => x.id !== id)` removal by key that every list in
 * the application uses.
 */
module Seqs {

  /** `s.filter(keep)`: the elements of `s` that satisfy `keep`, in their original order. */
  function Filter<T(!new)>(s: seq<T>, keep: T -> bool): (r: seq<T>)
    ensures |r| <= |s|
    ensures forall x :: x in r <==> x in s && keep(x)
  {
    if s == [] then []
    else if keep(s[0]) then [s[0]] + Filter(s[1..], keep)
    else Filter(s[1..], keep)
  }

  /** Filtering distributes over concatenation: what survives keeps its relative order. */
  lemma {:induction false} FilterAppend<T(!new)>(a: seq<T>, b: seq<T>, keep: T -> bool)
    ensures Filter(a + b, keep) == Filter(a, keep) + Filter(b, keep)
  {
    if a == [] {
      assert a + b == b;
    } else {
      assert (a + b)[0] == a[0];
      assert (a + b)[1..] == a[1..] + b;
      FilterAppend(a[1..], b, keep);
    }
  }

  /** No two elements of `s` share a key. */
  predicate DistinctBy<T(!new), K(==)>(s: seq<T>, key: T -> K) {
    forall i, j :: 0 <= i < j < |s| ==> key(s[i]) != key(s[j])
  }

  /** Some element of `s` has key `k`. */
  predicate HasKey<T(!new), K(==)>(s: seq<T>, key: T -> K, k: K) {
    exists i :: 0 <= i < |s| && key(s[i]) == k
  }

  /** `s.filter(x => key(x) !== k)`: every element whose key is `k` is dropped. */
  function WithoutKey<T(!new), K(==)>(s: seq<T>, key: T -> K, k: K): (r: seq<T>)
    ensures |r| <= |s|
    ensures forall x :: x in r <==> x in s && key(x) != k
  {
    if s == [] then []
    else if key(s[0]) == k then WithoutKey(s[1..], key, k)
    else [s[0]] + WithoutKey(s[1..], key, k)
  }

  /** Removal by key distributes over concatenation, so the survivors keep their order. */
  lemma {:induction false} WithoutKeyAppend<T(!new), K>(a: seq<T>, b: seq<T>, key: T -> K, k: K)
    ensures WithoutKey(a + b, key, k) == WithoutKey(a, key, k) + WithoutKey(b, key, k)
  {
    if a == [] {
      assert a + b == b;
    } else {
      assert (a + b)[0] == a[0];
      assert (a + b)[1..] == a[1..] + b;
      WithoutKeyAppend(a[1..], b, key, k);
    }
  }

  /** Removing a key nobody has changes nothing. */
  lemma {:induction false} WithoutAbsentKey<T(!new), K>(s: seq<T>, key: T -> K, k: K)
    requires !HasKey(s, key, k)
    ensures WithoutKey(s, key, k) == s
  {
    if s != [] {
      assert key(s[0]) != k;
      assert !HasKey(s[1..], key, k) by {
        forall i | 0 <= i < |s[1..]| ensures key(s[1..][i]) != k {
          assert s[1..][i] == s[i + 1];
        }
      }
      WithoutAbsentKey(s[1..], key, k);
    }
  }

  /** Removal by key keeps the remaining keys distinct. */
  lemma {:induction false} WithoutKeyDistinct<T(!new), K>(s: seq<T>, key: T -> K, k: K)
    requires DistinctBy(s, key)
    ensures DistinctBy(WithoutKey(s, key, k), key)
  {
    if s != [] {
      var rest := s[1..];
      assert DistinctBy(rest, key) by {
        forall i, j | 0 <= i < j < |rest| ensures key(rest[i]) != key(rest[j]) {
          assert rest[i] == s[i + 1] && rest[j] == s[j + 1];
        }
      }
      WithoutKeyDistinct(rest, key, k);
      if key(s[0]) != k {
        var tail := WithoutKey(rest, key, k);
        var r := [s[0]] + tail;
        forall i, j | 0 <= i < j < |r| ensures key(r[i]) != key(r[j]) {
          if i == 0 {
            assert r[j] == tail[j - 1];
            assert r[j] in rest;
            var m :| 0 <= m < |rest| && rest[m] == r[j];
            assert rest[m] == s[m + 1];
          } else {
            assert r[i] == tail[i - 1] && r[j] == tail[j - 1];
          }
        }
      }
    }
  }

  /** With distinct keys, removal by key drops at most one element. */
  lemma {:induction false} WithoutKeyDropsAtMostOne<T(!new), K>(s: seq<T>, key: T -> K, k: K)
    requires DistinctBy(s, key)
    ensures |WithoutKey(s, key, k)| >= |s| - 1
  {
    if s != [] {
      var rest := s[1..];
      assert DistinctBy(rest, key) by {
        forall i, j | 0 <= i < j < |rest| ensures key(rest[i]) != key(rest[j]) {
          assert rest[i] == s[i + 1] && rest[j] == s[j + 1];
        }
      }
      if key(s[0]) == k {
        assert !HasKey(rest, key, k) by {
          forall i | 0 <= i < |rest| ensures key(rest[i]) != k {
            assert rest[i] == s[i + 1];
          }
        }
        WithoutAbsentKey(rest, key, k);
      } else {
        WithoutKeyDropsAtMostOne(rest, key, k);
      }
    }
  }

  /** `s.map(x => key(x) === k ? f(x) : x)`: every element with key `k` is rewritten by `f`, the rest stay as they are. */
  function UpdateWhere<T, K(==)>(s: seq<T>, key: T -> K, k: K, f: T -> T): (r: seq<T>)
    ensures |r| == |s|
    ensures forall i :: 0 <= i < |s| && key(s[i]) == k ==> r[i] == f(s[i])
    ensures forall i :: 0 <= i < |s| && key(s[i]) != k ==> r[i] == s[i]
  {
    seq(|s|, i requires 0 <= i < |s| => if key(s[i]) == k then f(s[i]) else s[i])
  }

  /** An update that leaves keys alone keeps the keys distinct. */
  lemma UpdateWhereDistinct<T(!new), K>(s: seq<T>, key: T -> K, k: K, f: T -> T)
    requires DistinctBy(s, key)
    requires forall x :: key(f(x)) == key(x)
    ensures DistinctBy(UpdateWhere(s, key, k, f), key)
  {
    var r := UpdateWhere(s, key, k, f);
    forall i | 0 <= i < |s| ensures key(r[i]) == key(s[i]) {
      if key(s[i]) == k {
        assert key(f(s[i])) == key(s[i]);
      }
    }
  }

  /** Appending an element whose key nobody has keeps the keys distinct. */
  lemma AppendFreshDistinct<T(!new), K>(s: seq<T>, key: T -> K, x: T)
    requires DistinctBy(s, key) && !HasKey(s, key, key(x))
    ensures DistinctBy(s + [x], key)
  {
    var r := s + [x];
    forall i, j | 0 <= i < j < |r| ensures key(r[i]) != key(r[j]) {
      if j == |s| {
        assert r[i] == s[i];
      } else {
        assert r[i] == s[i] && r[j] == s[j];
      }
    }
  }
}
