/**
 * Python's ordering of `str` values (code point by code point, a proper prefix
 * first) and `sorted` on lists of strings, as `serialize_to_dict` uses them.
 */
module Ordering {

  /** `a <= b` on Python strings. */
  predicate Below(a: string, b: string) {
    |a| == 0 || (|b| != 0 && (a[0] < b[0] || (a[0] == b[0] && Below(a[1..], b[1..]))))
  }

  lemma {:induction false} BelowReflexive(a: string)
    ensures Below(a, a)
  {
    if |a| != 0 { BelowReflexive(a[1..]); }
  }

  lemma {:induction false} BelowAntisymmetric(a: string, b: string)
    requires Below(a, b) && Below(b, a)
    ensures a == b
  {
    if |a| != 0 {
      BelowAntisymmetric(a[1..], b[1..]);
      assert a == [a[0]] + a[1..] && b == [b[0]] + b[1..];
    }
  }

  lemma {:induction false} BelowTransitive(a: string, b: string, c: string)
    requires Below(a, b) && Below(b, c)
    ensures Below(a, c)
  {
    if |a| != 0 && a[0] == b[0] && b[0] == c[0] {
      BelowTransitive(a[1..], b[1..], c[1..]);
    }
  }

  lemma {:induction false} BelowTotal(a: string, b: string)
    ensures Below(a, b) || Below(b, a)
  {
    if |a| != 0 && |b| != 0 && a[0] == b[0] {
      BelowTotal(a[1..], b[1..]);
    }
  }

  predicate Sorted(s: seq<string>) {
    forall i, j | 0 <= i < j < |s| :: Below(s[i], s[j])
  }

  /** Strictly increasing: sorted and without repetition. */
  predicate Increasing(s: seq<string>) {
    forall i, j | 0 <= i < j < |s| :: Below(s[i], s[j]) && s[i] != s[j]
  }

  function Insert(x: string, s: seq<string>): (r: seq<string>)
    requires Sorted(s)
    ensures Sorted(r)
    ensures multiset(r) == multiset(s) + multiset{x}
  {
    if s == [] then [x]
    else if Below(x, s[0]) then
      InsertFront(x, s);
      [x] + s
    else
      var rest := Insert(x, s[1..]);
      InsertLater(x, s, rest);
      [s[0]] + rest
  }

  lemma InsertFront(x: string, s: seq<string>)
    requires Sorted(s) && s != [] && Below(x, s[0])
    ensures Sorted([x] + s)
  {
    forall i, j | 0 <= i < j < |s| + 1 ensures Below(([x] + s)[i], ([x] + s)[j]) {
      if i == 0 {
        if j > 1 { BelowTransitive(x, s[0], s[j - 1]); }
      } else {
        assert ([x] + s)[i] == s[i - 1];
      }
    }
  }

  lemma InsertLater(x: string, s: seq<string>, rest: seq<string>)
    requires Sorted(s) && s != [] && !Below(x, s[0])
    requires Sorted(rest) && multiset(rest) == multiset(s[1..]) + multiset{x}
    ensures Sorted([s[0]] + rest)
    ensures multiset([s[0]] + rest) == multiset(s) + multiset{x}
  {
    BelowTotal(x, s[0]);
    assert s == [s[0]] + s[1..];
    forall y | y in rest ensures Below(s[0], y) {
      assert y in multiset(rest);
      if y != x {
        assert y in multiset(s[1..]);
        var k :| 0 <= k < |s[1..]| && s[1..][k] == y;
        assert s[k + 1] == y;
      }
    }
    forall i, j | 0 <= i < j < |rest| + 1 ensures Below(([s[0]] + rest)[i], ([s[0]] + rest)[j]) {
      assert ([s[0]] + rest)[j] == rest[j - 1];
      assert rest[j - 1] in rest;
      if i > 0 { assert ([s[0]] + rest)[i] == rest[i - 1]; }
    }
  }

  /** `sorted(s)` */
  function Sort(s: seq<string>): (r: seq<string>)
    ensures Sorted(r)
    ensures multiset(r) == multiset(s)
  {
    if s == [] then []
    else
      assert s == s[..|s| - 1] + [s[|s| - 1]];
      Insert(s[|s| - 1], Sort(s[..|s| - 1]))
  }

  /** Two sorted arrangements of the same strings are the same list. */
  lemma {:induction false} SortedUnique(a: seq<string>, b: seq<string>)
    requires Sorted(a) && Sorted(b)
    requires multiset(a) == multiset(b)
    ensures a == b
  {
    assert |b| == |a| by { assert |multiset(a)| == |multiset(b)|; }
    if a != [] {
      SameHead(a, b);
      assert a == [a[0]] + a[1..] && b == [b[0]] + b[1..];
      assert multiset(a[1..]) == multiset(b[1..]) by {
        assert multiset(a[1..]) == multiset(a) - multiset{a[0]};
        assert multiset(b[1..]) == multiset(b) - multiset{b[0]};
      }
      SortedTail(a);
      SortedTail(b);
      SortedUnique(a[1..], b[1..]);
    }
  }

  lemma SameHead(a: seq<string>, b: seq<string>)
    requires Sorted(a) && Sorted(b) && multiset(a) == multiset(b)
    requires a != [] && |a| == |b|
    ensures a[0] == b[0]
  {
    assert a[0] in multiset(b) && b[0] in multiset(a);
    var i :| 0 <= i < |b| && b[i] == a[0];
    var j :| 0 <= j < |a| && a[j] == b[0];
    if a[0] != b[0] {
      assert Below(b[0], b[i]) && Below(a[0], a[j]);
      BelowAntisymmetric(a[0], b[0]);
    }
  }

  lemma SortedTail(s: seq<string>)
    requires Sorted(s) && s != []
    ensures Sorted(s[1..])
  {
    forall i, j | 0 <= i < j < |s[1..]| ensures Below(s[1..][i], s[1..][j]) {
      assert s[1..][i] == s[i + 1] && s[1..][j] == s[j + 1];
    }
  }

  /** Sorting a list that is already sorted leaves it as it is. */
  lemma SortSorted(s: seq<string>)
    requires Sorted(s)
    ensures Sort(s) == s
  {
    SortedUnique(Sort(s), s);
  }

  /** Sorting distinct strings gives a strictly increasing list. */
  lemma SortDistinct(s: seq<string>)
    requires forall i, j | 0 <= i < j < |s| :: s[i] != s[j]
    ensures Increasing(Sort(s))
  {
    var r := Sort(s);
    forall x ensures multiset(r)[x] <= 1 {
      DistinctCount(s, x);
    }
    SingleCountDistinct(r);
  }

  lemma {:induction false} DistinctCount(s: seq<string>, x: string)
    requires forall i, j | 0 <= i < j < |s| :: s[i] != s[j]
    ensures multiset(s)[x] <= 1
  {
    if s != [] {
      var n := |s| - 1;
      assert s == s[..n] + [s[n]];
      DistinctCount(s[..n], x);
      if s[n] == x {
        assert x !in s[..n];
      }
    }
  }

  lemma {:induction false} SingleCountDistinct(s: seq<string>)
    requires forall x :: multiset(s)[x] <= 1
    ensures forall i, j | 0 <= i < j < |s| :: s[i] != s[j]
  {
    if s != [] {
      var n := |s| - 1;
      assert s == s[..n] + [s[n]];
      assert multiset(s) == multiset(s[..n]) + multiset{s[n]};
      forall x ensures multiset(s[..n])[x] <= 1 {
        assert multiset(s)[x] == multiset(s[..n])[x] + multiset{s[n]}[x];
      }
      SingleCountDistinct(s[..n]);
      assert multiset(s)[s[n]] == multiset(s[..n])[s[n]] + 1;
      assert s[n] !in multiset(s[..n]);
      forall i, j | 0 <= i < j < |s| ensures s[i] != s[j] {
        if j == n {
          assert s[i] in s[..n];
        } else {
          assert s[i] == s[..n][i] && s[j] == s[..n][j];
        }
      }
    }
  }
}
