/** `OrderBy(x => x.songName)`: a stable sort of keyed items by their key
    string. Keys are compared ordinally, character by character. */
module Ordering {

  /** Ordinal string order: a proper prefix comes first, otherwise the first
      differing character decides. */
  predicate StrLe(a: string, b: string)
  {
    if a == [] then true
    else if b == [] then false
    else if a[0] != b[0] then a[0] < b[0]
    else StrLe(a[1..], b[1..])
  }

  lemma {:induction false} StrLeTotal(a: string, b: string)
    ensures StrLe(a, b) || StrLe(b, a)
  {
    if a != [] && b != [] && a[0] == b[0] {
      StrLeTotal(a[1..], b[1..]);
    }
  }

  lemma {:induction false} StrLeTransitive(a: string, b: string, c: string)
    requires StrLe(a, b) && StrLe(b, c)
    ensures StrLe(a, c)
  {
    if a != [] && b != [] && c != [] && a[0] == b[0] && b[0] == c[0] {
      StrLeTransitive(a[1..], b[1..], c[1..]);
    }
  }

  lemma {:induction false} StrLeAntisymmetric(a: string, b: string)
    requires StrLe(a, b) && StrLe(b, a)
    ensures a == b
  {
    if a != [] && b != [] {
      StrLeAntisymmetric(a[1..], b[1..]);
      assert a == [a[0]] + a[1..] && b == [b[0]] + b[1..];
    }
  }

  /** Keys in non-decreasing order. */
  ghost predicate Sorted<T>(s: seq<(string, T)>)
  {
    forall i, j :: 0 <= i < j < |s| ==> StrLe(s[i].0, s[j].0)
  }

  /** The items of `s` whose key is `k`, in order. */
  function WithKey<T>(s: seq<(string, T)>, k: string): seq<(string, T)>
  {
    if s == [] then []
    else WithKey(s[..|s| - 1], k) + (if s[|s| - 1].0 == k then [s[|s| - 1]] else [])
  }

  /** Puts `x` after every item whose key is not greater than its own. */
  function Insert<T>(x: (string, T), s: seq<(string, T)>): seq<(string, T)>
  {
    if s == [] then [x]
    else if StrLe(s[0].0, x.0) then [s[0]] + Insert(x, s[1..])
    else [x] + s
  }

  /** Stable insertion sort by key. */
  function SortByKey<T>(s: seq<(string, T)>): seq<(string, T)>
  {
    if s == [] then [] else Insert(s[|s| - 1], SortByKey(s[..|s| - 1]))
  }

  lemma {:induction false} StrLeReflexive(a: string)
    ensures StrLe(a, a)
  {
    if a != [] {
      StrLeReflexive(a[1..]);
    }
  }

  lemma {:induction false} InsertMultiset<T>(x: (string, T), s: seq<(string, T)>)
    ensures multiset(Insert(x, s)) == multiset(s) + multiset{x}
  {
    if s != [] && StrLe(s[0].0, x.0) {
      InsertMultiset(x, s[1..]);
      assert s == [s[0]] + s[1..];
    }
  }

  /** A key below `x`'s and every key of `s` is below every key of `Insert(x, s)`. */
  lemma {:induction false} InsertLowerBound<T>(b: string, x: (string, T), s: seq<(string, T)>)
    requires StrLe(b, x.0)
    requires forall i :: 0 <= i < |s| ==> StrLe(b, s[i].0)
    ensures forall i :: 0 <= i < |Insert(x, s)| ==> StrLe(b, Insert(x, s)[i].0)
  {
    if s != [] && StrLe(s[0].0, x.0) {
      InsertLowerBound(b, x, s[1..]);
    }
  }

  lemma {:induction false} InsertSorted<T>(x: (string, T), s: seq<(string, T)>)
    requires Sorted(s)
    ensures Sorted(Insert(x, s))
  {
    if s != [] && StrLe(s[0].0, x.0) {
      InsertSorted(x, s[1..]);
      InsertLowerBound(s[0].0, x, s[1..]);
    } else if s != [] {
      StrLeTotal(s[0].0, x.0);
      forall j | 0 <= j < |s| ensures StrLe(x.0, s[j].0) {
        if j > 0 {
          StrLeTransitive(x.0, s[0].0, s[j].0);
        }
      }
    }
  }

  /** The result is sorted and holds exactly the input's items. */
  lemma {:induction false} SortByKeySortsAndPermutes<T>(s: seq<(string, T)>)
    ensures Sorted(SortByKey(s))
    ensures multiset(SortByKey(s)) == multiset(s)
  {
    if s != [] {
      var n := |s| - 1;
      SortByKeySortsAndPermutes(s[..n]);
      InsertMultiset(s[n], SortByKey(s[..n]));
      InsertSorted(s[n], SortByKey(s[..n]));
      assert s == s[..n] + [s[n]];
    }
  }

  lemma {:induction false} WithKeyAppend<T>(a: seq<(string, T)>, b: seq<(string, T)>, k: string)
    ensures WithKey(a + b, k) == WithKey(a, k) + WithKey(b, k)
  {
    if b != [] {
      var n := |b| - 1;
      assert (a + b)[..|a + b| - 1] == a + b[..n];
      WithKeyAppend(a, b[..n], k);
    } else {
      assert a + b == a;
    }
  }

  lemma {:induction false} WithKeyAbsent<T>(s: seq<(string, T)>, k: string)
    requires forall i :: 0 <= i < |s| ==> s[i].0 != k
    ensures WithKey(s, k) == []
  {
    if s != [] {
      WithKeyAbsent(s[..|s| - 1], k);
    }
  }

  lemma {:induction false} InsertWithKey<T>(x: (string, T), s: seq<(string, T)>, k: string)
    requires Sorted(s)
    ensures WithKey(Insert(x, s), k) == WithKey(s, k) + (if x.0 == k then [x] else [])
  {
    if s == [] {
      assert WithKey([x], k) == WithKey([], k) + (if x.0 == k then [x] else []);
    } else if StrLe(s[0].0, x.0) {
      InsertWithKey(x, s[1..], k);
      WithKeyAppend([s[0]], Insert(x, s[1..]), k);
      WithKeyAppend([s[0]], s[1..], k);
      assert s == [s[0]] + s[1..];
    } else {
      WithKeyAppend([x], s, k);
      assert WithKey([x], k) == WithKey([], k) + (if x.0 == k then [x] else []);
      if x.0 == k {
        forall i | 0 <= i < |s| ensures s[i].0 != k {
          StrLeReflexive(s[0].0);
          assert StrLe(s[0].0, s[i].0);
        }
        WithKeyAbsent(s, k);
      }
    }
  }

  /** Stability: items with equal keys keep their input order. */
  lemma {:induction false} SortByKeyStable<T>(s: seq<(string, T)>, k: string)
    ensures WithKey(SortByKey(s), k) == WithKey(s, k)
  {
    if s != [] {
      var n := |s| - 1;
      SortByKeyStable(s[..n], k);
      SortByKeySortsAndPermutes(s[..n]);
      InsertWithKey(s[n], SortByKey(s[..n]), k);
    }
  }
}
