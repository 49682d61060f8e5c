/** Sorting by a comparator, and why a strict total comparator makes the result independent of input order. */
module Ordering {

  ghost predicate Strict<T(!new)>(before: (T, T) -> bool) {
    && (forall x :: !before(x, x))
    && (forall x, y, z :: before(x, y) && before(y, z) ==> before(x, z))
  }

  /** The comparator tells any two positions apart. */
  ghost predicate Decides<T>(before: (T, T) -> bool, s: seq<T>) {
    forall i, j :: 0 <= i < j < |s| ==> before(s[i], s[j]) || before(s[j], s[i])
  }

  ghost predicate Sorted<T>(before: (T, T) -> bool, s: seq<T>) {
    forall i, j :: 0 <= i < j < |s| ==> before(s[i], s[j])
  }

  function Insert<T>(before: (T, T) -> bool, x: T, s: seq<T>): seq<T> {
    if s == [] || before(x, s[0]) then [x] + s else [s[0]] + Insert(before, x, s[1..])
  }

  function Sort<T>(before: (T, T) -> bool, s: seq<T>): seq<T> {
    if s == [] then [] else Insert(before, s[0], Sort(before, s[1..]))
  }

  lemma {:induction false} InsertPermutes<T>(before: (T, T) -> bool, x: T, s: seq<T>)
    ensures multiset(Insert(before, x, s)) == multiset(s) + multiset{x}
    decreases |s|
  {
    if s != [] && !before(x, s[0]) {
      InsertPermutes(before, x, s[1..]);
      assert s == [s[0]] + s[1..];
    }
  }

  lemma {:induction false} SortPermutes<T>(before: (T, T) -> bool, s: seq<T>)
    ensures multiset(Sort(before, s)) == multiset(s) && |Sort(before, s)| == |s|
    decreases |s|
  {
    if s != [] {
      SortPermutes(before, s[1..]);
      InsertPermutes(before, s[0], Sort(before, s[1..]));
      assert s == [s[0]] + s[1..];
    }
    assert |multiset(Sort(before, s))| == |multiset(s)|;
  }

  lemma {:induction false} InsertSorts<T(!new)>(before: (T, T) -> bool, x: T, s: seq<T>)
    requires Strict(before) && Sorted(before, s)
    requires forall y :: y in s ==> before(x, y) || before(y, x)
    ensures Sorted(before, Insert(before, x, s))
    decreases |s|
  {
    if s == [] {
    } else if before(x, s[0]) {
      assert forall j :: 0 <= j < |s| ==> before(x, s[j]);
    } else {
      var rest := Insert(before, x, s[1..]);
      InsertSorts(before, x, s[1..]);
      InsertPermutes(before, x, s[1..]);
      assert s[0] in s;
      forall j | 0 <= j < |rest| ensures before(s[0], rest[j]) {
        assert rest[j] in multiset(rest);
      }
    }
  }

  lemma {:induction false} SortSorts<T(!new)>(before: (T, T) -> bool, s: seq<T>)
    requires Strict(before) && Decides(before, s)
    ensures Sorted(before, Sort(before, s))
    decreases |s|
  {
    if s != [] {
      SortSorts(before, s[1..]);
      SortPermutes(before, s[1..]);
      forall y | y in Sort(before, s[1..]) ensures before(s[0], y) || before(y, s[0]) {
        assert y in multiset(s[1..]);
      }
      InsertSorts(before, s[0], Sort(before, s[1..]));
    }
  }

  /** Two sorted arrangements of the same elements are the same sequence. */
  lemma {:induction false} SortedUnique<T(!new)>(before: (T, T) -> bool, s: seq<T>, t: seq<T>)
    requires Strict(before) && Sorted(before, s) && Sorted(before, t) && multiset(s) == multiset(t)
    ensures s == t
    decreases |s|
  {
    assert |s| == |multiset(s)| == |multiset(t)| == |t|;
    if s != [] {
      SameFirst(before, s, t);
      SortedRest(before, s);
      SortedRest(before, t);
      SameRests(s, t);
      SortedUnique(before, s[1..], t[1..]);
      assert s == [s[0]] + s[1..] && t == [t[0]] + t[1..];
    }
  }

  lemma SortedRest<T>(before: (T, T) -> bool, s: seq<T>)
    requires Sorted(before, s) && s != []
    ensures Sorted(before, s[1..])
  {
  }

  lemma SameRests<T>(s: seq<T>, t: seq<T>)
    requires multiset(s) == multiset(t) && s != [] && t != [] && s[0] == t[0]
    ensures multiset(s[1..]) == multiset(t[1..])
  {
    SameRest(s, t, 0);
    assert t[..0] + t[1..] == t[1..];
  }

  lemma SameFirst<T(!new)>(before: (T, T) -> bool, s: seq<T>, t: seq<T>)
    requires Strict(before) && Sorted(before, s) && Sorted(before, t) && multiset(s) == multiset(t) && s != [] && t != []
    ensures s[0] == t[0]
  {
    assert s[0] in multiset(t) && t[0] in multiset(s);
    var i, j := Find(t, s[0]), Find(s, t[0]);
    FirstIsLeast(before, t, i);
    FirstIsLeast(before, s, j);
  }

  lemma FirstIsLeast<T>(before: (T, T) -> bool, s: seq<T>, i: nat)
    requires Sorted(before, s) && i < |s|
    ensures s[i] == s[0] || before(s[0], s[i])
  {
  }

  lemma {:induction false} DecidesPermutation<T(!new)>(before: (T, T) -> bool, s: seq<T>, t: seq<T>)
    requires Strict(before) && Decides(before, s) && multiset(s) == multiset(t)
    ensures Decides(before, t)
  {
    forall i, j | 0 <= i < j < |t| ensures before(t[i], t[j]) || before(t[j], t[i]) {
      var a, b := Find(s, t[i]), Find(s, t[j]) by {
        assert t[i] in multiset(s) && t[j] in multiset(s);
      }
      if t[i] == t[j] {
        TwoPlaces(t, i, j);
        var c := FindOther(s, a);
      }
    }
  }

  ghost function Find<T>(s: seq<T>, x: T): (i: nat)
    requires x in s
    ensures i < |s| && s[i] == x
  {
    var i: nat :| i < |s| && s[i] == x;
    i
  }

  lemma TwoPlaces<T>(t: seq<T>, i: nat, j: nat)
    requires i < j < |t| && t[i] == t[j]
    ensures multiset(t)[t[i]] >= 2
  {
    assert t == t[..i] + [t[i]] + t[i + 1..j] + [t[j]] + t[j + 1..];
  }

  lemma FindOther<T>(s: seq<T>, a: nat) returns (c: nat)
    requires a < |s| && multiset(s)[s[a]] >= 2
    ensures c < |s| && c != a && s[c] == s[a]
  {
    assert s == s[..a] + [s[a]] + s[a + 1..];
    if s[a] in multiset(s[..a]) {
      c := Find(s[..a], s[a]);
    } else {
      assert s[a] in multiset(s[a + 1..]);
      c := Find(s[a + 1..], s[a]) + a + 1;
    }
  }

  /** Sorting forgets the order of its input. */
  lemma {:induction false} SortIgnoresOrder<T(!new)>(before: (T, T) -> bool, s: seq<T>, t: seq<T>)
    requires Strict(before) && Decides(before, s) && multiset(s) == multiset(t)
    ensures Sort(before, s) == Sort(before, t)
  {
    DecidesPermutation(before, s, t);
    SortSorts(before, s);
    SortSorts(before, t);
    SortPermutes(before, s);
    SortPermutes(before, t);
    SortedUnique(before, Sort(before, s), Sort(before, t));
  }

  // ---------------------------------------------------------------------------------------------
  // Mapping

  function Map<T, U>(f: T -> U, s: seq<T>): seq<U> {
    if s == [] then [] else [f(s[0])] + Map(f, s[1..])
  }

  lemma {:induction false} MapAt<T, U>(f: T -> U, s: seq<T>, i: nat)
    requires i < |s|
    ensures |Map(f, s)| == |s| && Map(f, s)[i] == f(s[i])
    decreases |s|
  {
    if |s| > 1 {
      MapAt(f, s[1..], if i == 0 then 0 else i - 1);
    }
  }

  lemma {:induction false} MapFacts<T, U>(f: T -> U, s: seq<T>)
    ensures |Map(f, s)| == |s| && (forall i :: 0 <= i < |s| ==> Map(f, s)[i] == f(s[i]))
  {
    if s != [] {
      MapAt(f, s, 0);
    }
    forall i | 0 <= i < |s| ensures Map(f, s)[i] == f(s[i]) {
      MapAt(f, s, i);
    }
  }

  lemma {:induction false} MapJoin<T, U>(f: T -> U, s: seq<T>, t: seq<T>)
    ensures Map(f, s + t) == Map(f, s) + Map(f, t)
    decreases |s|
  {
    if s == [] {
      assert s + t == t;
    } else {
      assert (s + t)[1..] == s[1..] + t;
      MapJoin(f, s[1..], t);
    }
  }

  lemma {:induction false} MapAppend<T, U>(f: T -> U, s: seq<T>, x: T)
    ensures Map(f, s + [x]) == Map(f, s) + [f(x)]
    ensures multiset(Map(f, s + [x])) == multiset(Map(f, s)) + multiset{f(x)}
  {
    MapJoin(f, s, [x]);
  }

  lemma CutMultiset<T>(t: seq<T>, i: nat)
    requires i < |t|
    ensures multiset(t) == multiset(t[..i] + t[i + 1..]) + multiset{t[i]}
  {
    assert t == t[..i] + [t[i]] + t[i + 1..];
  }

  lemma {:induction false} MapCut<T, U>(f: T -> U, t: seq<T>, i: nat)
    requires i < |t|
    ensures multiset(Map(f, t)) == multiset(Map(f, t[..i] + t[i + 1..])) + multiset{f(t[i])}
  {
    var before, after := t[..i], t[i + 1..];
    var rest := [t[i]] + after;
    assert t == before + rest && rest[1..] == after;
    MapJoin(f, before, after);
    MapJoin(f, before, rest);
    assert Map(f, rest) == [f(t[i])] + Map(f, after);
  }

  lemma {:induction false} MapHead<T, U>(f: T -> U, s: seq<T>)
    requires s != []
    ensures multiset(Map(f, s)) == multiset(Map(f, s[1..])) + multiset{f(s[0])}
  {
  }

  lemma SameRest<T>(s: seq<T>, t: seq<T>, i: nat)
    requires multiset(s) == multiset(t) && s != [] && i < |t| && t[i] == s[0]
    ensures multiset(s[1..]) == multiset(t[..i] + t[i + 1..])
  {
    CutMultiset(s, 0);
    CutMultiset(t, i);
    assert s[..0] + s[1..] == s[1..];
    CancelCommon(multiset(s[1..]), multiset(t[..i] + t[i + 1..]), multiset{s[0]});
  }

  lemma CancelCommon<T>(a: multiset<T>, b: multiset<T>, c: multiset<T>)
    requires a + c == b + c
    ensures a == b
  {
    assert a == (a + c) - c && b == (b + c) - c;
  }

  /** Mapping a rearrangement gives a rearrangement. */
  lemma {:induction false} MapPermutes<T, U>(f: T -> U, s: seq<T>, t: seq<T>)
    requires multiset(s) == multiset(t)
    ensures multiset(Map(f, s)) == multiset(Map(f, t))
    decreases |s|
  {
    if s == [] {
      assert |multiset(t)| == |t|;
    } else {
      assert s[0] in multiset(t);
      var i := Find(t, s[0]);
      SameRest(s, t, i);
      var cut := t[..i] + t[i + 1..];
      MapPermutes(f, s[1..], cut);
      MapHead(f, s);
      MapCut(f, t, i);
    }
  }
}
