/**
 * Sequence helpers shared by the page view-models: the `Array.prototype.filter`
 * they all use to delete or select entries, and duplicate-freedom.
 */
module Seqs {

  /** No element occurs twice. */
  ghost predicate NoDup<T>(s: seq<T>) {
    forall i, j :: 0 <= i < j < |s| ==> s[i] != s[j]
  }

  /** `s.filter(p)`: the elements satisfying `p`, in their original order. */
  function Filter<T>(s: seq<T>, p: T -> bool): (r: seq<T>)
    ensures |r| <= |s|
    ensures forall i :: 0 <= i < |r| ==> r[i] in s && p(r[i])
    ensures forall i :: 0 <= i < |s| && p(s[i]) ==> s[i] in r
    ensures |s| == 1 ==> r == (if p(s[0]) then s else [])
  {
    if s == [] then []
    else (if p(s[0]) then [s[0]] else []) + Filter(s[1..], p)
  }

  /**
   * Filtering distributes over concatenation. Together with the one-element
   * case this pins `Filter` down completely: it keeps the surviving elements in
   * exactly the order they had.
   */
  lemma {:induction false} FilterAppend<T>(a: seq<T>, b: seq<T>, p: T -> bool)
    ensures Filter(a + b, p) == Filter(a, p) + Filter(b, p)
  {
    if a == [] {
      assert a + b == b;
    } else {
      assert (a + b)[0] == a[0];
      assert (a + b)[1..] == a[1..] + b;
      FilterAppend(a[1..], b, p);
    }
  }

  /** A filter whose predicate holds everywhere is the identity. */
  lemma {:induction false} FilterAll<T>(s: seq<T>, p: T -> bool)
    requires forall i :: 0 <= i < |s| ==> p(s[i])
    ensures Filter(s, p) == s
  {
    if s != [] {
      FilterAll(s[1..], p);
    }
  }

  /** Two complementary filters split a sequence: their lengths add up to its length. */
  lemma {:induction false} FilterComplement<T>(s: seq<T>, p: T -> bool, q: T -> bool)
    requires forall i :: 0 <= i < |s| ==> (q(s[i]) <==> !p(s[i]))
    ensures |Filter(s, p)| + |Filter(s, q)| == |s|
  {
    if s != [] {
      FilterComplement(s[1..], p, q);
    }
  }

  /** Two equally long sequences whose predicates agree position by position keep equally many elements. */
  lemma {:induction false} FilterLengthsAgree<T, U>(s: seq<T>, p: T -> bool, t: seq<U>, q: U -> bool)
    requires |s| == |t| && forall i :: 0 <= i < |s| ==> (p(s[i]) <==> q(t[i]))
    ensures |Filter(s, p)| == |Filter(t, q)|
  {
    if s != [] {
      FilterLengthsAgree(s[1..], p, t[1..], q);
    }
  }

  /** Filtering keeps a duplicate-free sequence duplicate-free. */
  lemma {:induction false} FilterNoDup<T>(s: seq<T>, p: T -> bool)
    requires NoDup(s)
    ensures NoDup(Filter(s, p))
  {
    if s != [] {
      FilterNoDup(s[1..], p);
      var rest := Filter(s[1..], p);
      assert s[0] !in rest by {
        assert s[0] !in s[1..];
      }
    }
  }

  /** The set of elements of a sequence. */
  ghost function Elements<T>(s: seq<T>): set<T> {
    set i | 0 <= i < |s| :: s[i]
  }

  /** A subset is no larger than its superset. */
  lemma {:induction false} SubsetCardinality<T>(a: set<T>, b: set<T>)
    requires a <= b
    ensures |a| <= |b|
    decreases a
  {
    if a != {} {
      var x :| x in a;
      SubsetCardinality(a - {x}, b - {x});
    }
  }

  /** A sequence has at most as many distinct elements as entries, and exactly as many without duplicates. */
  lemma {:induction false} ElementsCardinality<T>(s: seq<T>)
    ensures |Elements(s)| <= |s|
    ensures NoDup(s) ==> |Elements(s)| == |s|
  {
    if s != [] {
      ElementsCardinality(s[1..]);
      assert Elements(s) == {s[0]} + Elements(s[1..]);
      if NoDup(s) {
        assert NoDup(s[1..]);
        assert s[0] !in s[1..];
      }
    }
  }

  /** A duplicate-free sequence whose elements all occur in `b` is no longer than `b`. */
  lemma DistinctWithinIsShorter<T>(a: seq<T>, b: seq<T>)
    requires NoDup(a) && forall x :: x in a ==> x in b
    ensures |a| <= |b|
  {
    ElementsCardinality(a);
    ElementsCardinality(b);
    assert Elements(a) <= Elements(b) by {
      forall i | 0 <= i < |a| ensures a[i] in Elements(b) {
        assert a[i] in a;
        var j :| 0 <= j < |b| && b[j] == a[i];
      }
    }
    SubsetCardinality(Elements(a), Elements(b));
  }
}
