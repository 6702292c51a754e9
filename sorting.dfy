/**
 * Python's ordering of `str` values and `list.sort()` on a list of names.
 * Python compares strings code point by code point, and a proper prefix
 * comes first.
 */
module Sorting {

  /** `a <= b` on Python strings. */
  predicate LexLeq(a: string, b: string)
    decreases |a|
  {
    a == [] || (b != [] && (a[0] < b[0] || (a[0] == b[0] && LexLeq(a[1..], b[1..]))))
  }

  lemma {:induction false} LexLeqReflexive(a: string)
    ensures LexLeq(a, a)
    decreases |a|
  {
    if a != [] {
      LexLeqReflexive(a[1..]);
    }
  }

  lemma {:induction false} LexLeqTotal(a: string, b: string)
    ensures LexLeq(a, b) || LexLeq(b, a)
    decreases |a|
  {
    if a != [] && b != [] && a[0] == b[0] {
      LexLeqTotal(a[1..], b[1..]);
    }
  }

  lemma {:induction false} LexLeqAntisymmetric(a: string, b: string)
    requires LexLeq(a, b) && LexLeq(b, a)
    ensures a == b
    decreases |a|
  {
    if a != [] {
      LexLeqAntisymmetric(a[1..], b[1..]);
      assert a == [a[0]] + a[1..];
      assert b == [b[0]] + b[1..];
    }
  }

  lemma {:induction false} LexLeqTransitive(a: string, b: string, c: string)
    requires LexLeq(a, b) && LexLeq(b, c)
    ensures LexLeq(a, c)
    decreases |a|
  {
    if a != [] && a[0] == b[0] && b[0] == c[0] {
      LexLeqTransitive(a[1..], b[1..], c[1..]);
    }
  }

  predicate Sorted(s: seq<string>) {
    forall i, j :: 0 <= i < j < |s| ==> LexLeq(s[i], s[j])
  }

  /** Inserts `x` before the first element it does not exceed. */
  function Insert(x: string, s: seq<string>): seq<string>
    decreases |s|
  {
    if s == [] then [x]
    else if LexLeq(x, s[0]) then [x] + s
    else [s[0]] + Insert(x, s[1..])
  }

  /** Inserting into a sorted list gives a sorted list with one more copy of `x`. */
  lemma {:induction false} InsertSpec(x: string, s: seq<string>)
    requires Sorted(s)
    ensures Sorted(Insert(x, s))
    ensures multiset(Insert(x, s)) == multiset(s) + multiset{x}
    ensures |Insert(x, s)| == |s| + 1
    decreases |s|
  {
    if s != [] {
      if LexLeq(x, s[0]) {
        InsertFront(x, s);
        assert s == [s[0]] + s[1..];
      } else {
        assert s == [s[0]] + s[1..];
        SortedTail(s);
        InsertSpec(x, s[1..]);
        LexLeqTotal(x, s[0]);
        InsertBehind(s[0], Insert(x, s[1..]), x, s[1..]);
      }
    }
  }

  lemma InsertFront(x: string, s: seq<string>)
    requires Sorted(s) && s != [] && LexLeq(x, s[0])
    ensures Sorted([x] + s)
  {
    forall j | 0 < j < |s| ensures LexLeq(x, s[j]) {
      LexLeqTransitive(x, s[0], s[j]);
    }
  }

  lemma InsertBehind(y: string, rest: seq<string>, x: string, t: seq<string>)
    requires Sorted(rest) && Sorted([y] + t) && LexLeq(y, x)
    requires multiset(rest) == multiset(t) + multiset{x}
    ensures Sorted([y] + rest)
  {
    forall j | 0 <= j < |rest| ensures LexLeq(y, rest[j]) {
      assert rest[j] in multiset(rest);
      if rest[j] != x {
        assert rest[j] in multiset(t);
        var k :| 0 <= k < |t| && t[k] == rest[j];
        assert ([y] + t)[0] == y && ([y] + t)[k + 1] == t[k];
      }
    }
  }

  /** The list `list.sort()` leaves: each name inserted in turn into the sorted earlier names. */
  function SortedNames(s: seq<string>): seq<string>
    decreases |s|
  {
    if s == [] then []
    else Insert(s[|s| - 1], SortedNames(s[..|s| - 1]))
  }

  /** What `list.sort()` promises: the result is sorted and a permutation of the input. */
  lemma {:induction false} SortedNamesSpec(s: seq<string>)
    ensures Sorted(SortedNames(s))
    ensures multiset(SortedNames(s)) == multiset(s)
    ensures |SortedNames(s)| == |s|
    decreases |s|
  {
    if s != [] {
      SortedNamesSpec(s[..|s| - 1]);
      InsertSpec(s[|s| - 1], SortedNames(s[..|s| - 1]));
      assert s == s[..|s| - 1] + [s[|s| - 1]];
    }
  }

  /** Sorting keeps exactly the names it was given. */
  lemma SortedNamesMember(s: seq<string>, x: string)
    ensures x in SortedNames(s) <==> x in s
  {
    SortedNamesSpec(s);
    assert x in multiset(SortedNames(s)) <==> x in multiset(s);
  }

  /** The first item of a sorted list is at most every item of the list. */
  lemma SortedHeadLeast(a: seq<string>, x: string)
    requires Sorted(a) && x in multiset(a)
    ensures LexLeq(a[0], x)
  {
    var k :| 0 <= k < |a| && a[k] == x;
    if k == 0 {
      LexLeqReflexive(x);
    }
  }

  lemma SortedTail(a: seq<string>)
    requires Sorted(a) && a != []
    ensures Sorted(a[1..])
  {
    forall i, j | 0 <= i < j < |a| - 1 ensures LexLeq(a[1..][i], a[1..][j]) {
      assert a[1..][i] == a[i + 1] && a[1..][j] == a[j + 1];
    }
  }

  /** Two sorted permutations of one multiset are equal: sorting forgets the listing order. */
  lemma {:induction false} SortedUnique(a: seq<string>, b: seq<string>)
    requires Sorted(a) && Sorted(b)
    requires multiset(a) == multiset(b)
    ensures a == b
    decreases |a|
  {
    if a != [] {
      assert a[0] in multiset(a);
      assert b != [];
      assert b[0] in multiset(b);
      SortedHeadLeast(b, a[0]);
      SortedHeadLeast(a, b[0]);
      LexLeqAntisymmetric(a[0], b[0]);
      assert a == [a[0]] + a[1..];
      assert b == [b[0]] + b[1..];
      assert multiset(a[1..]) == multiset(a) - multiset{a[0]};
      assert multiset(b[1..]) == multiset(b) - multiset{b[0]};
      SortedTail(a);
      SortedTail(b);
      SortedUnique(a[1..], b[1..]);
    }
  }

  /** Sorting two listings of the same names gives the same list. */
  lemma SortedNamesOrderFree(s: seq<string>, t: seq<string>)
    requires multiset(s) == multiset(t)
    ensures SortedNames(s) == SortedNames(t)
  {
    SortedNamesSpec(s);
    SortedNamesSpec(t);
    SortedUnique(SortedNames(s), SortedNames(t));
  }
}
