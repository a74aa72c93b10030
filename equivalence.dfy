/**
  The plan-equivalence test of the benchmark run: both operation lists are
  sorted and compared element by element (`OrderBy(x => x).SequenceEqual`).
  Sorting uses ordinal (code-point, lexicographic) string order.
 */
module Equivalence {

  /** Ordinal lexicographic `a <= b`. */
  predicate Below(a: string, b: string) {
    a == [] || (b != [] && (a[0] < b[0] || (a[0] == b[0] && Below(a[1..], b[1..]))))
  }

  lemma {:induction false} BelowReflexive(a: string)
    ensures Below(a, a)
  {
    if a != [] {
      BelowReflexive(a[1..]);
    }
  }

  lemma {:induction false} BelowTotal(a: string, b: string)
    ensures Below(a, b) || Below(b, a)
  {
    if a != [] && b != [] && a[0] == b[0] {
      BelowTotal(a[1..], b[1..]);
    }
  }

  lemma {:induction false} BelowAntisymmetric(a: string, b: string)
    requires Below(a, b) && Below(b, a)
    ensures a == b
  {
    if a != [] && b != [] {
      BelowAntisymmetric(a[1..], b[1..]);
      assert a == [a[0]] + a[1..] && b == [b[0]] + b[1..];
    }
  }

  lemma {:induction false} BelowTransitive(a: string, b: string, c: string)
    requires Below(a, b) && Below(b, c)
    ensures Below(a, c)
  {
    if a != [] && b != [] && c != [] && a[0] == b[0] == c[0] {
      BelowTransitive(a[1..], b[1..], c[1..]);
    }
  }

  ghost predicate Sorted(s: seq<string>) {
    forall i, j | 0 <= i < j < |s| :: Below(s[i], s[j])
  }

  /** `x` inserted into `s` before the first element it is below. */
  function Insert(x: string, s: seq<string>): (r: seq<string>)
    ensures multiset(r) == multiset(s) + multiset{x}
    ensures Sorted(s) ==> Sorted(r)
  {
    if s == [] then [x]
    else if Below(x, s[0]) then
      var r := [x] + s;
      assert Sorted(s) ==> Sorted(r) by {
        if Sorted(s) {
          forall j | 0 < j < |r| ensures Below(x, r[j]) {
            if j > 1 { BelowTransitive(x, s[0], s[j - 1]); }
          }
        }
      }
      r
    else
      var t := Insert(x, s[1..]);
      var r := [s[0]] + t;
      assert s == [s[0]] + s[1..];
      assert Sorted(s) ==> Sorted(r) by {
        if Sorted(s) {
          BelowTotal(x, s[0]);
          assert forall y | y in multiset(t) :: Below(s[0], y) by {
            forall y | y in multiset(t) ensures Below(s[0], y) {
              if y != x {
                assert y in multiset(s[1..]);
                var j :| 0 <= j < |s[1..]| && s[1..][j] == y;
                assert s[j + 1] == y;
              }
            }
          }
          forall j | 0 < j < |r| ensures Below(r[0], r[j]) {
            assert r[j] == t[j - 1] && t[j - 1] in multiset(t);
          }
        }
      }
      r
  }

  /** Insertion sort: a sorted permutation of `s`. */
  function Sort(s: seq<string>): (r: seq<string>)
    ensures multiset(r) == multiset(s)
    ensures Sorted(r)
  {
    if s == [] then []
    else
      assert s == [s[0]] + s[1..];
      Insert(s[0], Sort(s[1..]))
  }

  /** The head of a sorted sequence is below every element of it. */
  lemma HeadIsLeast(s: seq<string>, x: string)
    requires Sorted(s) && x in s
    ensures Below(s[0], x)
  {
    var i :| 0 <= i < |s| && s[i] == x;
    if i == 0 { BelowReflexive(x); }
  }

  lemma SortedTail(s: seq<string>)
    requires Sorted(s) && s != []
    ensures Sorted(s[1..])
  {
    forall i, j | 0 <= i < j < |s| - 1 ensures Below(s[1..][i], s[1..][j]) {
      assert s[1..][i] == s[i + 1] && s[1..][j] == s[j + 1];
    }
  }

  /** Two sorted sequences holding the same multiset are the same sequence. */
  lemma {:induction false} SortedUnique(a: seq<string>, b: seq<string>)
    requires Sorted(a) && Sorted(b) && multiset(a) == multiset(b)
    ensures a == b
    decreases |a|
  {
    if a == [] {
      assert |b| == |multiset(b)| == 0;
    } else {
      assert |b| == |multiset(b)| == |multiset(a)| == |a|;
      assert a[0] in multiset(b) && b[0] in multiset(a);
      HeadIsLeast(b, a[0]);
      HeadIsLeast(a, b[0]);
      BelowAntisymmetric(a[0], b[0]);
      var a', b' := a[1..], b[1..];
      assert a == [a[0]] + a' && b == [b[0]] + b';
      assert multiset(a') == multiset(a) - multiset{a[0]};
      assert multiset(b') == multiset(b) - multiset{b[0]};
      SortedTail(a);
      SortedTail(b);
      SortedUnique(a', b');
    }
  }

  /**
    The source's test: the two plans, each sorted, are equal element by
    element.
   */
  predicate SameOperations(correctPlan: seq<string>, redundantPlan: seq<string>) {
    Sort(correctPlan) == Sort(redundantPlan)
  }

  /** The sort-and-compare test decides exactly multiset equality. */
  lemma SameOperationsIsMultisetEquality(a: seq<string>, b: seq<string>)
    ensures SameOperations(a, b) <==> multiset(a) == multiset(b)
  {
    if multiset(a) == multiset(b) {
      SortedUnique(Sort(a), Sort(b));
    }
  }

  lemma SameOperationsReflexive(a: seq<string>)
    ensures SameOperations(a, a)
  {
  }

  lemma SameOperationsSymmetric(a: seq<string>, b: seq<string>)
    ensures SameOperations(a, b) <==> SameOperations(b, a)
  {
  }

  lemma SameOperationsTransitive(a: seq<string>, b: seq<string>, c: seq<string>)
    requires SameOperations(a, b) && SameOperations(b, c)
    ensures SameOperations(a, c)
  {
  }

  /** Reordering either plan does not change the verdict. */
  lemma SameOperationsPermutation(a: seq<string>, a': seq<string>, b: seq<string>)
    requires multiset(a) == multiset(a')
    ensures SameOperations(a, b) <==> SameOperations(a', b)
    ensures SameOperations(a, a')
  {
    SameOperationsIsMultisetEquality(a, b);
    SameOperationsIsMultisetEquality(a', b);
    SameOperationsIsMultisetEquality(a, a');
  }

  /** Plans of different lengths are never the same. */
  lemma SameOperationsLength(a: seq<string>, b: seq<string>)
    requires |a| != |b|
    ensures !SameOperations(a, b)
  {
    assert |multiset(a)| != |multiset(b)|;
    SameOperationsIsMultisetEquality(a, b);
  }

  /** A plan with one extra operation, even a repeated one, is not the same. */
  lemma SameOperationsCountsDuplicates(a: seq<string>, op: string)
    ensures !SameOperations(a, a + [op])
  {
    SameOperationsLength(a, a + [op]);
  }
}
