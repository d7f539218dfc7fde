/** Python's `sorted`: the stable sort of a sequence by a string key, and the ascending
    listing of a set of strings. */
module Sorting {
  import opened Text

  /** No element's key is smaller than that of an element before it. */
  ghost predicate SortedBy<T>(s: seq<T>, key: T -> string) {
    forall i, j :: 0 <= i < j < |s| ==> !Less(key(s[j]), key(s[i]))
  }

  /** Each element is smaller than every later one (so no element repeats). */
  ghost predicate StrictlyAscending(s: seq<string>) {
    forall i, j :: 0 <= i < j < |s| ==> Less(s[i], s[j])
  }

  /** The elements of `s` whose key is `k`, in their order in `s`. */
  function WithKey<T>(s: seq<T>, key: T -> string, k: string): seq<T> {
    if s == [] then []
    else (if key(s[0]) == k then [s[0]] else []) + WithKey(s[1..], key, k)
  }

  /** Places `x` after every element of `s` whose key is not larger than its own. */
  function Insert<T>(x: T, s: seq<T>, key: T -> string): seq<T> {
    if s == [] then [x]
    else if Less(key(x), key(s[0])) then [x] + s
    else [s[0]] + Insert(x, s[1..], key)
  }

  /** `sorted(s, key=key)`: an insertion sort, stable like Python's. */
  function SortBy<T>(s: seq<T>, key: T -> string): seq<T> {
    if s == [] then [] else Insert(s[|s| - 1], SortBy(s[..|s| - 1], key), key)
  }

  lemma {:induction false} WithKeyAppend<T>(a: seq<T>, b: seq<T>, key: T -> string, k: string)
    ensures WithKey(a + b, key, k) == WithKey(a, key, k) + WithKey(b, key, k)
  {
    if a == [] {
      assert a + b == b;
    } else {
      var head := if key(a[0]) == k then [a[0]] else [];
      assert (a + b)[0] == a[0] && (a + b)[1..] == a[1..] + b;
      calc {
        WithKey(a + b, key, k);
        head + WithKey(a[1..] + b, key, k);
        { WithKeyAppend(a[1..], b, key, k); }
        head + (WithKey(a[1..], key, k) + WithKey(b, key, k));
        (head + WithKey(a[1..], key, k)) + WithKey(b, key, k);
      }
    }
  }

  lemma {:induction false} InsertElements<T>(x: T, s: seq<T>, key: T -> string)
    ensures multiset(Insert(x, s, key)) == multiset(s) + multiset{x}
  {
    if s != [] && !Less(key(x), key(s[0])) {
      InsertElements(x, s[1..], key);
      assert s == [s[0]] + s[1..];
    }
  }

  lemma {:induction false} InsertSorted<T>(x: T, s: seq<T>, key: T -> string)
    requires SortedBy(s, key)
    ensures SortedBy(Insert(x, s, key), key)
  {
    var r := Insert(x, s, key);
    if s == [] {
    } else if Less(key(x), key(s[0])) {
      forall i, j | 0 <= i < j < |r| ensures !Less(key(r[j]), key(r[i])) {
        if i == 0 {
          LessAsymmetric(key(x), key(s[0]));
          if j > 1 && Less(key(r[j]), key(x)) {
            LessTransitive(key(r[j]), key(x), key(s[0]));
          }
        }
      }
    } else {
      InsertSorted(x, s[1..], key);
      InsertElements(x, s[1..], key);
      var t := Insert(x, s[1..], key);
      assert s == [s[0]] + s[1..];
      forall i, j | 0 <= i < j < |r| ensures !Less(key(r[j]), key(r[i])) {
        if i == 0 {
          assert r[j] in multiset(t);
          if r[j] == x {
            LessTrichotomy(key(x), key(s[0]));
          } else {
            assert r[j] in s[1..];
          }
        }
      }
    }
  }

  lemma {:induction false} InsertStable<T>(x: T, s: seq<T>, key: T -> string, k: string)
    requires SortedBy(s, key)
    ensures WithKey(Insert(x, s, key), key, k) == WithKey(s, key, k) + (if key(x) == k then [x] else [])
  {
    var mine := if key(x) == k then [x] else [];
    if s == [] {
      assert WithKey([x], key, k) == mine + WithKey([], key, k);
    } else if Less(key(x), key(s[0])) {
      assert ([x] + s)[0] == x && ([x] + s)[1..] == s;
      assert WithKey([x] + s, key, k) == mine + WithKey(s, key, k);
      if key(x) == k {
        NoneWithSmallerKey(s, key, k);
      }
    } else {
      var t := Insert(x, s[1..], key);
      var head := if key(s[0]) == k then [s[0]] else [];
      InsertStable(x, s[1..], key, k);
      assert ([s[0]] + t)[0] == s[0] && ([s[0]] + t)[1..] == t;
      assert WithKey([s[0]] + t, key, k) == head + WithKey(t, key, k);
      assert WithKey(s, key, k) == head + WithKey(s[1..], key, k);
    }
  }

  /** In a sorted sequence whose first key exceeds `k`, no element has key `k`. */
  lemma {:induction false} NoneWithSmallerKey<T>(s: seq<T>, key: T -> string, k: string)
    requires SortedBy(s, key) && s != [] && Less(k, key(s[0]))
    ensures WithKey(s, key, k) == []
  {
    LessAsymmetric(k, key(s[0]));
    if |s| > 1 {
      LessTrichotomy(key(s[0]), key(s[1]));
      if Less(key(s[0]), key(s[1])) {
        LessTransitive(k, key(s[0]), key(s[1]));
      }
      NoneWithSmallerKey(s[1..], key, k);
    }
  }

  /** `sorted(s, key=key)` is ordered by key. */
  lemma {:induction false} SortBySorted<T>(s: seq<T>, key: T -> string)
    ensures SortedBy(SortBy(s, key), key)
  {
    if s != [] {
      var n := |s| - 1;
      SortBySorted(s[..n], key);
      InsertSorted(s[n], SortBy(s[..n], key), key);
    }
  }

  /** `sorted(s, key=key)` holds the same elements as `s`, each as often. */
  lemma {:induction false} SortByPermutes<T>(s: seq<T>, key: T -> string)
    ensures multiset(SortBy(s, key)) == multiset(s)
  {
    if s != [] {
      var n := |s| - 1;
      SortByPermutes(s[..n], key);
      InsertElements(s[n], SortBy(s[..n], key), key);
      assert s == s[..n] + [s[n]];
    }
  }

  /** `sorted(s, key=key)` keeps the input order among elements with equal keys. */
  lemma {:induction false} SortByStable<T>(s: seq<T>, key: T -> string)
    ensures forall k :: WithKey(SortBy(s, key), key, k) == WithKey(s, key, k)
  {
    if s != [] {
      var n := |s| - 1;
      SortByStable(s[..n], key);
      SortBySorted(s[..n], key);
      assert s == s[..n] + [s[n]];
      forall k ensures WithKey(SortBy(s, key), key, k) == WithKey(s, key, k) {
        InsertStable(s[n], SortBy(s[..n], key), key, k);
        WithKeyAppend(s[..n], [s[n]], key, k);
      }
    }
  }

  /** `m` is the smallest string of `s`. */
  predicate IsLeast(m: string, s: set<string>) {
    m in s && forall y :: y in s ==> !Less(y, m)
  }

  lemma {:induction false} LeastExists(s: set<string>)
    requires s != {}
    ensures exists m :: IsLeast(m, s)
    decreases |s|
  {
    var x :| x in s;
    if s - {x} == {} {
      assert s == {x};
      LessIrreflexive(x);
      assert IsLeast(x, s);
    } else {
      LeastExists(s - {x});
      var m :| IsLeast(m, s - {x});
      if Less(x, m) {
        forall y | y in s ensures !Less(y, x) {
          if y == x {
            LessIrreflexive(x);
          } else if Less(y, x) {
            LessTransitive(y, x, m);
          }
        }
        assert IsLeast(x, s);
      } else {
        assert IsLeast(m, s);
      }
    }
  }

  lemma LeastUnique(s: set<string>)
    ensures forall m, m' :: IsLeast(m, s) && IsLeast(m', s) ==> m == m'
  {
    forall m, m' | IsLeast(m, s) && IsLeast(m', s) ensures m == m' {
      LessTrichotomy(m, m');
    }
  }

  /** `sorted(s)` for a set of strings. */
  function SortedSet(s: set<string>): (r: seq<string>)
    ensures |r| == |s|
    ensures forall x :: x in r <==> x in s
    ensures StrictlyAscending(r)
    decreases |s|
  {
    if s == {} then []
    else
      LeastExists(s);
      LeastUnique(s);
      var m :| IsLeast(m, s);
      var rest := SortedSet(s - {m});
      assert forall y :: y in rest ==> Less(m, y) by {
        forall y | y in rest ensures Less(m, y) {
          LessTrichotomy(m, y);
        }
      }
      [m] + rest
  }
}
