/** Python's ordering of strings (code point by code point, a proper prefix
    first) and `sorted()` on a list of strings. */
module StringOrder {

  /** `a <= b` on Python strings. */
  predicate Below(a: string, b: string) {
    a == [] || (b != [] && (a[0] < b[0] || (a[0] == b[0] && Below(a[1..], b[1..]))))
  }

  lemma BelowReflexive(a: string)
    ensures Below(a, a)
  {
  }

  lemma BelowTotal(a: string, b: string)
    ensures Below(a, b) || Below(b, a)
  {
  }

  lemma BelowAntisymmetric(a: string, b: string)
    requires Below(a, b) && Below(b, a)
    ensures a == b
  {
    if a != [] && b != [] {
      BelowAntisymmetric(a[1..], b[1..]);
      assert a == [a[0]] + a[1..] && b == [b[0]] + b[1..];
    }
  }

  lemma BelowTransitive(a: string, b: string, c: string)
    requires Below(a, b) && Below(b, c)
    ensures Below(a, c)
  {
    if a != [] && b != [] && c != [] && a[0] == b[0] == c[0] {
      BelowTransitive(a[1..], b[1..], c[1..]);
    }
  }

  predicate IsSorted(s: seq<string>) {
    forall i, j :: 0 <= i < j < |s| ==> Below(s[i], s[j])
  }

  predicate Distinct<T(==)>(s: seq<T>) {
    forall i, j :: 0 <= i < j < |s| ==> s[i] != s[j]
  }

  function Insert(x: string, s: seq<string>): (r: seq<string>)
    requires IsSorted(s)
    ensures IsSorted(r) && multiset(r) == multiset(s) + multiset{x}
  {
    if s == [] then [x]
    else if Below(x, s[0]) then
      assert forall j :: 0 <= j < |s| ==> Below(x, s[j]) by {
        forall j | 0 <= j < |s| ensures Below(x, s[j]) {
          if j > 0 { BelowTransitive(x, s[0], s[j]); }
        }
      }
      SortedCons(x, s);
      [x] + s
    else
      BelowTotal(x, s[0]);
      var rest := Insert(x, s[1..]);
      assert s == [s[0]] + s[1..];
      assert forall j :: 0 <= j < |rest| ==> Below(s[0], rest[j]) by {
        forall j | 0 <= j < |rest| ensures Below(s[0], rest[j]) {
          assert rest[j] in multiset(rest);
        }
      }
      SortedCons(s[0], rest);
      [s[0]] + rest
  }

  /** A sorted sequence stays sorted under a new head below all its elements. */
  lemma SortedCons(x: string, s: seq<string>)
    requires IsSorted(s) && forall j :: 0 <= j < |s| ==> Below(x, s[j])
    ensures IsSorted([x] + s)
  {
    var r := [x] + s;
    forall i, j | 0 <= i < j < |r| ensures Below(r[i], r[j]) {
      assert r[j] == s[j - 1];
      if i > 0 { assert r[i] == s[i - 1]; }
    }
  }

  /** Python's `sorted()` on a list of strings (an insertion sort: equal
      strings are identical, so stability is invisible). */
  function Sort(s: seq<string>): (r: seq<string>)
    ensures IsSorted(r) && multiset(r) == multiset(s)
  {
    if s == [] then []
    else
      assert s == [s[0]] + s[1..];
      Insert(s[0], Sort(s[1..]))
  }

  /** Two sorted arrangements of one multiset start with the same element. */
  lemma SortedHeadsEqual(a: seq<string>, b: seq<string>)
    requires IsSorted(a) && IsSorted(b) && multiset(a) == multiset(b) && a != []
    ensures b != [] && a[0] == b[0]
  {
    assert b != [] by { assert a[0] in multiset(b); }
    assert a[0] in multiset(b) && b[0] in multiset(a);
    var i :| 0 <= i < |a| && a[i] == b[0];
    var j :| 0 <= j < |b| && b[j] == a[0];
    assert Below(a[0], b[0]) by {
      if i > 0 { assert Below(a[0], a[i]); } else { BelowReflexive(a[0]); }
    }
    assert Below(b[0], a[0]) by {
      if j > 0 { assert Below(b[0], b[j]); } else { BelowReflexive(b[0]); }
    }
    BelowAntisymmetric(a[0], b[0]);
  }

  lemma {:induction false} SortedUnique(a: seq<string>, b: seq<string>)
    requires IsSorted(a) && IsSorted(b) && multiset(a) == multiset(b)
    ensures a == b
  {
    if a == [] {
      assert |b| == |multiset(b)| == 0;
    } else {
      SortedHeadsEqual(a, b);
      assert a == [a[0]] + a[1..] && b == [b[0]] + b[1..];
      assert multiset(a[1..]) == multiset(a) - multiset{a[0]};
      assert multiset(b[1..]) == multiset(b) - multiset{b[0]};
      SortedUnique(a[1..], b[1..]);
    }
  }

  /** A sequence is duplicate-free exactly when every element occurs once. */
  lemma {:induction false} DistinctCounts<T>(s: seq<T>)
    ensures Distinct(s) <==> forall x :: multiset(s)[x] <= 1
  {
    if s != [] {
      var t := s[1..];
      assert s == [s[0]] + t;
      DistinctCounts(t);
      if Distinct(s) {
        assert s[0] !in t;
        assert Distinct(t) by {
          forall i, j | 0 <= i < j < |t| ensures t[i] != t[j] {
            assert s[i + 1] != s[j + 1];
          }
        }
      } else {
        var i, j :| 0 <= i < j < |s| && s[i] == s[j];
        assert multiset(s) == multiset{s[0]} + multiset(t);
        if i == 0 {
          assert s[0] in t by { assert t[j - 1] == s[j]; }
          assert multiset(s)[s[0]] == multiset(t)[s[0]] + 1;
          assert multiset(s)[s[0]] > 1;
        } else {
          assert !Distinct(t) by { assert t[i - 1] == t[j - 1]; }
          var x :| multiset(t)[x] > 1;
          assert multiset(s)[x] > 1;
        }
      }
    }
  }

  /** Two duplicate-free sequences with the same elements hold the same multiset. */
  lemma SameElementsSameMultiset<T>(a: seq<T>, b: seq<T>)
    requires Distinct(a) && Distinct(b)
    requires forall x :: x in a <==> x in b
    ensures multiset(a) == multiset(b)
  {
    DistinctCounts(a);
    DistinctCounts(b);
    forall x ensures multiset(a)[x] == multiset(b)[x] {
      assert x in a <==> x in multiset(a);
      assert x in b <==> x in multiset(b);
      if x in a {
        assert multiset(a)[x] == 1 && multiset(b)[x] == 1;
      } else {
        assert multiset(a)[x] == 0 && multiset(b)[x] == 0;
      }
    }
  }

  /** The elements of a set, in some order, each once. */
  ghost function Enumerate<T(!new)>(s: set<T>): (r: seq<T>)
    ensures |r| == |s| && Distinct(r)
    ensures forall x :: x in r <==> x in s
  {
    if s == {} then []
    else
      var x :| x in s;
      var rest := Enumerate(s - {x});
      assert forall i :: 0 <= i < |rest| ==> rest[i] != x by {
        forall i | 0 <= i < |rest| ensures rest[i] != x {
          assert rest[i] in rest;
        }
      }
      [x] + rest
  }

  /** A set of strings has an ascending, duplicate-free listing. */
  lemma SortedListingExists(s: set<string>)
    ensures exists r :: IsSorted(r) && Distinct(r) && |r| == |s| && forall x :: x in r <==> x in s
  {
    var e := Enumerate(s);
    var r := Sort(e);
    assert forall x :: x in r <==> x in multiset(r);
    DistinctCounts(e);
    DistinctCounts(r);
    assert |r| == |multiset(r)| == |multiset(e)| == |e|;
  }

  /** `sorted(s)` for a set of strings: ascending, each element once (the
      only such listing, by `SortedUnique`). */
  ghost function SortedElements(s: set<string>): (r: seq<string>)
    ensures IsSorted(r) && Distinct(r) && |r| == |s|
    ensures forall x :: x in r <==> x in s
  {
    SortedListingExists(s);
    var r :| IsSorted(r) && Distinct(r) && |r| == |s| && forall x :: x in r <==> x in s;
    r
  }

  /** Sorting any duplicate-free listing of a set gives `SortedElements`. */
  lemma SortListing(keys: seq<string>, s: set<string>)
    requires Distinct(keys) && forall x :: x in keys <==> x in s
    ensures Sort(keys) == SortedElements(s)
  {
    var e := SortedElements(s);
    SameElementsSameMultiset(keys, e);
    SortedUnique(Sort(keys), e);
  }
}
