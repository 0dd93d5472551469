/** Sections 1 and 2 of the teaching script: the two example sets built from
    integer ranges, and union, left difference and intersection of two sets. */
module Sets {

  /** Python's `range(lo, hi)`: lo, lo + 1, ..., hi - 1 in increasing order,
      and nothing at all when hi <= lo. */
  function Range(lo: int, hi: int): seq<int>
  {
    seq(if lo <= hi then hi - lo else 0, i => lo + i)
  }

  /** The range holds exactly the integers of the half-open interval [lo, hi). */
  lemma RangeMembership(lo: int, hi: int)
    ensures forall x :: x in Range(lo, hi) <==> lo <= x < hi
  {
    forall x | lo <= x < hi
      ensures x in Range(lo, hi)
    {
      assert Range(lo, hi)[x - lo] == x;
    }
  }

  /** The values of `range(lo, hi)` gathered into a set. */
  function IntRange(lo: int, hi: int): (r: set<int>)
    ensures forall x :: x in r <==> lo <= x < hi
  {
    RangeMembership(lo, hi);
    set x | x in Range(lo, hi)
  }

  /** A range holds exactly hi - lo distinct integers (none when it is empty). */
  lemma {:induction false} RangeSize(lo: int, hi: int)
    ensures |IntRange(lo, hi)| == if lo <= hi then hi - lo else 0
    decreases hi - lo
  {
    if lo < hi {
      RangeSize(lo + 1, hi);
      assert IntRange(lo, hi) == {lo} + IntRange(lo + 1, hi);
    } else {
      assert IntRange(lo, hi) == {};
    }
  }

  /** The two example sets: `s` keeps the non-negative values of
      range(-10, 11) and `a` takes every value of range(5, 15). */
  function DefineSets(): (r: (set<int>, set<int>))
    ensures forall x :: x in r.0 <==> 0 <= x <= 10
    ensures forall x :: x in r.1 <==> 5 <= x <= 14
    ensures |r.0| == 11 && |r.1| == 10
  {
    var z := Range(-10, 11);
    var s := set x | x in z && x >= 0;
    var w := Range(5, 15);
    var a := set x | x in w;
    RangeMembership(-10, 11);
    RangeMembership(5, 15);
    assert s == IntRange(0, 11);
    assert a == IntRange(5, 15);
    RangeSize(0, 11);
    RangeSize(5, 15);
    (s, a)
  }

  /** The three results of the set operations, one field per dictionary key
      of the script ("uniao", "diferenca", "intersecao"). */
  datatype SetOps = SetOps(union: set<int>, difference: set<int>, intersection: set<int>)

  /** Union, left difference and intersection of `s` and `a`. */
  function Operations(s: set<int>, a: set<int>): (r: SetOps)
    ensures forall x :: x in r.union <==> x in s || x in a
    ensures forall x :: x in r.difference <==> x in s && x !in a
    ensures forall x :: x in r.intersection <==> x in s && x in a
  {
    SetOps(s + a, s - a, s * a)
  }

  /** The difference and the intersection split `s` into two disjoint parts,
      and both lie inside the union. */
  lemma OperationsPartition(s: set<int>, a: set<int>)
    ensures Operations(s, a).difference + Operations(s, a).intersection == s
    ensures Operations(s, a).difference * Operations(s, a).intersection == {}
    ensures s <= Operations(s, a).union && a <= Operations(s, a).union
  {
  }

  /** Inclusion-exclusion: |s ∪ a| = |s| + |a| - |s ∩ a|, and the difference
      holds what the intersection does not take from `s`. */
  lemma OperationsSizes(s: set<int>, a: set<int>)
    ensures |Operations(s, a).union| == |s| + |a| - |Operations(s, a).intersection|
    ensures |Operations(s, a).difference| == |s| - |Operations(s, a).intersection|
  {
  }

  /** The script's own scenario: on the two example sets the union is 0..14,
      the difference 0..4 and the intersection 5..10. */
  lemma ExampleOperations()
    ensures Operations(DefineSets().0, DefineSets().1)
         == SetOps(IntRange(0, 15), IntRange(0, 5), IntRange(5, 11))
    ensures |Operations(DefineSets().0, DefineSets().1).union| == 15
  {
    var r := Operations(DefineSets().0, DefineSets().1);
    assert r.union == IntRange(0, 15);
    assert r.difference == IntRange(0, 5);
    assert r.intersection == IntRange(5, 11);
    RangeSize(0, 15);
  }
}
