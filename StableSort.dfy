/** A stable sort in descending order of a lexicographic key.

    Three places in the system sort a list with a stable library sort and
    then use its order or its first element: Python's `list.sort(key=...,
    reverse=True)` (finance ranking, welfare ranking) and JavaScript's
    `Array.prototype.sort` with a numeric comparator (the savings market
    table, the chat number picker). Keys are sequences of reals compared
    lexicographically, as Python compares tuples; an ascending sort on `d`
    is the descending sort on `[-d]`. */
module StableSort {

  /** `a > b` in the lexicographic order (a proper prefix is smaller). */
  predicate Gt(a: seq<real>, b: seq<real>)
    decreases |a|
  {
    |a| > 0 && (|b| == 0 || a[0] > b[0] || (a[0] == b[0] && Gt(a[1..], b[1..])))
  }

  lemma {:induction false} GtIrreflexive(a: seq<real>)
    ensures !Gt(a, a)
    decreases |a|
  {
    if |a| > 0 { GtIrreflexive(a[1..]); }
  }

  lemma {:induction false} GtAsymmetric(a: seq<real>, b: seq<real>)
    requires Gt(a, b)
    ensures !Gt(b, a)
    decreases |a|
  {
    if |b| > 0 && a[0] == b[0] { GtAsymmetric(a[1..], b[1..]); }
  }

  lemma {:induction false} GtTransitive(a: seq<real>, b: seq<real>, c: seq<real>)
    requires Gt(a, b) && Gt(b, c)
    ensures Gt(a, c)
    decreases |a|
  {
    if |c| > 0 && a[0] == b[0] && b[0] == c[0] { GtTransitive(a[1..], b[1..], c[1..]); }
  }

  lemma {:induction false} GtTotal(a: seq<real>, b: seq<real>)
    requires a != b
    ensures Gt(a, b) || Gt(b, a)
    decreases |a|
  {
    if |a| > 0 && |b| > 0 && a[0] == b[0] {
      assert a == [a[0]] + a[1..] && b == [b[0]] + b[1..];
      GtTotal(a[1..], b[1..]);
    }
  }

  lemma NotGtIff(a: seq<real>, b: seq<real>)
    ensures !Gt(a, b) <==> (Gt(b, a) || a == b)
  {
    if a == b {
      GtIrreflexive(a);
    } else {
      GtTotal(a, b);
      if Gt(a, b) { GtAsymmetric(a, b); }
    }
  }

  lemma NotGtTransitive(a: seq<real>, b: seq<real>, c: seq<real>)
    requires !Gt(a, b) && !Gt(b, c)
    ensures !Gt(a, c)
  {
    NotGtIff(a, b);
    NotGtIff(b, c);
    NotGtIff(a, c);
    if Gt(b, a) && Gt(c, b) { GtTransitive(c, b, a); }
  }

  /** On one-element keys the order is the order of the reals. */
  lemma GtSingleton(a: real, b: real)
    ensures Gt([a], [b]) <==> a > b
  {
    assert [a][1..] == [] && [b][1..] == [];
  }

  /** Non-increasing order: no later element has a greater key. */
  ghost predicate SortedDesc<T>(s: seq<T>, key: T -> seq<real>) {
    forall i, j :: 0 <= i < j < |s| ==> !Gt(key(s[j]), key(s[i]))
  }

  /** The elements of `s` whose key is exactly `k`, in their order in `s`. */
  function WithKey<T>(s: seq<T>, key: T -> seq<real>, k: seq<real>): seq<T>
  {
    if s == [] then []
    else if key(s[0]) == k then [s[0]] + WithKey(s[1..], key, k)
    else WithKey(s[1..], key, k)
  }

  /** Inserts `x` in front of the first element whose key is not greater
      than its own: `x` stays ahead of every element with an equal key. */
  function Insert<T>(x: T, s: seq<T>, key: T -> seq<real>): (r: seq<T>)
    ensures |r| == |s| + 1
    ensures multiset(r) == multiset(s) + multiset{x}
  {
    if s == [] then [x]
    else if Gt(key(s[0]), key(x)) then
      assert s == [s[0]] + s[1..];
      [s[0]] + Insert(x, s[1..], key)
    else [x] + s
  }

  /** A stable descending sort: an insertion sort that inserts each element
      ahead of the equal keys that came after it. */
  function SortDesc<T>(s: seq<T>, key: T -> seq<real>): (r: seq<T>)
    ensures |r| == |s|
    ensures multiset(r) == multiset(s)
  {
    if s == [] then []
    else
      assert s == [s[0]] + s[1..];
      Insert(s[0], SortDesc(s[1..], key), key)
  }

  lemma {:induction false} InsertSorted<T>(x: T, s: seq<T>, key: T -> seq<real>)
    requires SortedDesc(s, key)
    ensures SortedDesc(Insert(x, s, key), key)
    decreases |s|
  {
    if s != [] && Gt(key(s[0]), key(x)) {
      var t := Insert(x, s[1..], key);
      assert SortedDesc(s[1..], key) by {
        forall i, j | 0 <= i < j < |s[1..]| ensures !Gt(key(s[1..][j]), key(s[1..][i])) {
          assert s[1..][j] == s[j + 1] && s[1..][i] == s[i + 1];
        }
      }
      InsertSorted(x, s[1..], key);
      var r := [s[0]] + t;
      forall j | 1 <= j < |r| ensures !Gt(key(r[j]), key(r[0])) {
        assert r[j] in multiset(t);
        assert r[j] in multiset(s[1..]) + multiset{x};
        if r[j] == x {
          GtAsymmetric(key(s[0]), key(x));
        } else {
          assert r[j] in s[1..];
          var k :| 0 <= k < |s[1..]| && s[1..][k] == r[j];
          assert !Gt(key(s[k + 1]), key(s[0]));
        }
      }
      forall i, j | 0 <= i < j < |r| ensures !Gt(key(r[j]), key(r[i])) {
        if i > 0 { assert r[i] == t[i - 1] && r[j] == t[j - 1]; }
      }
    } else if s != [] {
      var r := [x] + s;
      forall i, j | 0 <= i < j < |r| ensures !Gt(key(r[j]), key(r[i])) {
        if i == 0 && j > 1 {
          NotGtTransitive(key(s[j - 1]), key(s[0]), key(x));
        } else if i > 0 {
          assert r[i] == s[i - 1] && r[j] == s[j - 1];
        }
      }
    }
  }

  /** The result is in non-increasing key order. */
  lemma {:induction false} SortDescSorted<T>(s: seq<T>, key: T -> seq<real>)
    ensures SortedDesc(SortDesc(s, key), key)
    decreases |s|
  {
    if s != [] {
      SortDescSorted(s[1..], key);
      InsertSorted(s[0], SortDesc(s[1..], key), key);
    }
  }

  lemma {:induction false} WithKeyInsert<T>(x: T, s: seq<T>, key: T -> seq<real>, k: seq<real>)
    ensures WithKey(Insert(x, s, key), key, k)
         == (if key(x) == k then [x] else []) + WithKey(s, key, k)
    decreases |s|
  {
    if s != [] {
      if Gt(key(s[0]), key(x)) {
        var t := Insert(x, s[1..], key);
        WithKeyInsert(x, s[1..], key, k);
        assert ([s[0]] + t)[0] == s[0] && ([s[0]] + t)[1..] == t;
        if key(x) == k {
          GtIrreflexive(k);
          assert key(s[0]) != k;
        }
      } else {
        assert ([x] + s)[0] == x && ([x] + s)[1..] == s;
      }
    }
  }

  /** Stability: for every key, the elements carrying it keep their
      relative order. */
  lemma {:induction false} SortDescStable<T>(s: seq<T>, key: T -> seq<real>, k: seq<real>)
    ensures WithKey(SortDesc(s, key), key, k) == WithKey(s, key, k)
    decreases |s|
  {
    if s != [] {
      WithKeyInsert(s[0], SortDesc(s[1..], key), key, k);
      SortDescStable(s[1..], key, k);
    }
  }

  /** The index of the first element whose key is not exceeded by any
      other element's key. */
  function FirstMaxIndex<T>(s: seq<T>, key: T -> seq<real>): (i: nat)
    requires |s| > 0
    ensures i < |s|
    decreases |s|
  {
    if |s| == 1 then 0
    else
      var j := FirstMaxIndex(s[1..], key) + 1;
      if Gt(key(s[j]), key(s[0])) then j else 0
  }

  lemma {:induction false} FirstMaxIndexIsFirstMax<T>(s: seq<T>, key: T -> seq<real>)
    requires |s| > 0
    ensures forall j :: 0 <= j < |s| ==> !Gt(key(s[j]), key(s[FirstMaxIndex(s, key)]))
    ensures forall j :: 0 <= j < FirstMaxIndex(s, key) ==> Gt(key(s[FirstMaxIndex(s, key)]), key(s[j]))
    decreases |s|
  {
    if |s| > 1 {
      var t := s[1..];
      FirstMaxIndexIsFirstMax(t, key);
      var j := FirstMaxIndex(t, key) + 1;
      assert s[j] == t[j - 1];
      if Gt(key(s[j]), key(s[0])) {
        forall m | 0 <= m < |s| ensures !Gt(key(s[m]), key(s[j])) {
          if m == 0 { GtAsymmetric(key(s[j]), key(s[0])); } else { assert s[m] == t[m - 1]; }
        }
        forall m | 0 <= m < j ensures Gt(key(s[j]), key(s[m])) {
          if m > 0 { assert s[m] == t[m - 1]; }
        }
      } else {
        forall m | 0 <= m < |s| ensures !Gt(key(s[m]), key(s[0])) {
          if m > 0 {
            assert s[m] == t[m - 1];
            if Gt(key(s[m]), key(s[0])) {
              GtTotal(key(s[m]), key(s[j]));
              if key(s[m]) == key(s[j]) {
              } else if Gt(key(s[m]), key(s[j])) {
              } else {
                GtTransitive(key(s[j]), key(s[m]), key(s[0]));
              }
            }
          } else {
            GtIrreflexive(key(s[0]));
          }
        }
      }
    } else {
      GtIrreflexive(key(s[0]));
    }
  }

  /** The head of the sorted list is the first element of maximal key. */
  lemma {:induction false} SortDescHead<T>(s: seq<T>, key: T -> seq<real>)
    requires |s| > 0
    ensures SortDesc(s, key)[0] == s[FirstMaxIndex(s, key)]
    decreases |s|
  {
    if |s| > 1 {
      SortDescHead(s[1..], key);
    }
  }
}
