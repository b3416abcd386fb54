/** Python's stable `sorted(xs, key=k)` and what a chain of such sorts
    computes. `sorted(xs, key=k, reverse=True)` keeps equal-keyed elements in
    their original order too, so it is SortBy with the negated key.

    Sorting first by k1, then by k2, then by k3 leaves the sequence ordered
    lexicographically by (k3, k2, k1): LexLe([k3, k2, k1], a, b). */
module Sorting {

  /** Places x before the first element whose key is not smaller than x's. */
  function Insert<T>(x: T, s: seq<T>, key: T -> real): (r: seq<T>)
    ensures multiset(r) == multiset(s) + multiset{x}
    ensures |r| == |s| + 1
  {
    if s == [] || key(x) <= key(s[0]) then [x] + s
    else
      assert s == [s[0]] + s[1..];
      [s[0]] + Insert(x, s[1..], key)
  }

  /** Stable sort by a key: an element that comes first in s comes first in
      the result among the elements with its key. */
  function SortBy<T>(s: seq<T>, key: T -> real): (r: seq<T>)
    ensures multiset(r) == multiset(s)
    ensures |r| == |s|
  {
    if s == [] then []
    else
      assert s == [s[0]] + s[1..];
      Insert(s[0], SortBy(s[1..], key), key)
  }

  /** Lexicographic comparison by a list of keys, the most significant first. */
  predicate LexLe<T>(keys: seq<T -> real>, a: T, b: T)
  {
    if keys == [] then true
    else keys[0](a) < keys[0](b) || (keys[0](a) == keys[0](b) && LexLe(keys[1..], a, b))
  }

  ghost predicate SortedLex<T>(s: seq<T>, keys: seq<T -> real>)
  {
    forall i, j :: 0 <= i < j < |s| ==> LexLe(keys, s[i], s[j])
  }

  lemma {:induction false} LexLeReflexive<T>(keys: seq<T -> real>, a: T)
    ensures LexLe(keys, a, a)
  {
    if keys != [] {
      LexLeReflexive(keys[1..], a);
    }
  }

  lemma {:induction false} InsertSorted<T>(x: T, s: seq<T>, key: T -> real, keys: seq<T -> real>)
    requires SortedLex(s, [key] + keys)
    requires forall y :: y in s ==> LexLe(keys, x, y)
    ensures SortedLex(Insert(x, s, key), [key] + keys)
  {
    var ks := [key] + keys;
    assert ks[0] == key && ks[1..] == keys;
    if s == [] || key(x) <= key(s[0]) {
      var r := [x] + s;
      forall i, j | 0 <= i < j < |r| ensures LexLe(ks, r[i], r[j]) {
        if i == 0 {
          assert r[j] == s[j - 1] && r[j] in s;
          if j > 1 {
            assert LexLe(ks, s[0], s[j - 1]);
          }
        } else {
          assert LexLe(ks, s[i - 1], s[j - 1]);
        }
      }
    } else {
      var t := Insert(x, s[1..], key);
      assert SortedLex(s[1..], ks) by {
        forall i, j | 0 <= i < j < |s[1..]| ensures LexLe(ks, s[1..][i], s[1..][j]) {
          assert LexLe(ks, s[i + 1], s[j + 1]);
        }
      }
      forall y | y in s[1..] ensures LexLe(keys, x, y) {
        assert y in s;
      }
      InsertSorted(x, s[1..], key, keys);
      var r := [s[0]] + t;
      forall i, j | 0 <= i < j < |r| ensures LexLe(ks, r[i], r[j]) {
        if i == 0 {
          assert r[j] == t[j - 1];
          assert r[j] in multiset(s[1..]) + multiset{x};
          if r[j] != x {
            assert r[j] in s[1..];
            var k :| 0 <= k < |s[1..]| && s[1..][k] == r[j];
            assert LexLe(ks, s[0], s[k + 1]);
          }
        } else {
          assert LexLe(ks, t[i - 1], t[j - 1]);
        }
      }
    }
  }

  /** A stable sort by `key` of a sequence already ordered by `keys` leaves it
      ordered by `key` first and `keys` among equal keys. */
  lemma {:induction false} SortByRefines<T>(s: seq<T>, key: T -> real, keys: seq<T -> real>)
    requires SortedLex(s, keys)
    ensures SortedLex(SortBy(s, key), [key] + keys)
  {
    if s != [] {
      assert SortedLex(s[1..], keys) by {
        forall i, j | 0 <= i < j < |s[1..]| ensures LexLe(keys, s[1..][i], s[1..][j]) {
          assert LexLe(keys, s[i + 1], s[j + 1]);
        }
      }
      SortByRefines(s[1..], key, keys);
      var t := SortBy(s[1..], key);
      forall y | y in t ensures LexLe(keys, s[0], y) {
        assert y in multiset(s[1..]);
        var k :| 0 <= k < |s[1..]| && s[1..][k] == y;
        assert LexLe(keys, s[0], s[k + 1]);
      }
      InsertSorted(s[0], t, key, keys);
    }
  }

  /** Three chained stable sorts, by k1, then k2, then k3, order the
      sequence lexicographically by (k3, k2, k1). */
  lemma ThreeSorts<T>(s: seq<T>, k1: T -> real, k2: T -> real, k3: T -> real)
    ensures SortedLex(SortBy(SortBy(SortBy(s, k1), k2), k3), [k3, k2, k1])
  {
    var s1 := SortBy(s, k1);
    var s2 := SortBy(s1, k2);
    AnySorted(s);
    SortByRefines(s, k1, []);
    assert [k1] + [] == [k1];
    SortByRefines(s1, k2, [k1]);
    assert [k2] + [k1] == [k2, k1];
    SortByRefines(s2, k3, [k2, k1]);
    assert [k3] + [k2, k1] == [k3, k2, k1];
  }

  /** Every sequence is ordered by the empty key list. */
  lemma AnySorted<T>(s: seq<T>)
    ensures SortedLex(s, [])
  {
  }

  /** The head of a sequence ordered by `keys` is minimal under `keys`. */
  lemma HeadIsMinimal<T>(s: seq<T>, keys: seq<T -> real>)
    requires SortedLex(s, keys)
    requires |s| > 0
    ensures forall x :: x in s ==> LexLe(keys, s[0], x)
  {
    forall x | x in s ensures LexLe(keys, s[0], x) {
      var k :| 0 <= k < |s| && s[k] == x;
      if k == 0 {
        LexLeReflexive(keys, x);
      }
    }
  }
}
