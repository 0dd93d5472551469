/** Section 3 of the teaching script: the Cartesian product of two sets as the
    set of ordered pairs {(x, y) | x in s, y in a}. */
module Cartesian {

  /** Every ordered pair whose first component is drawn from `s` and whose
      second is drawn from `a`. */
  function Product(s: set<int>, a: set<int>): set<(int, int)>
  {
    set x, y | x in s && y in a :: (x, y)
  }

  /** A pair lies in the product exactly when its first component is in `s`
      and its second in `a`. */
  lemma ProductMembership(s: set<int>, a: set<int>, x: int, y: int)
    ensures (x, y) in Product(s, a) <==> x in s && y in a
  {
  }

  /** The pairs whose first component is the fixed `x`: one row of the product. */
  function Row(x: int, a: set<int>): set<(int, int)>
  {
    set y | y in a :: (x, y)
  }

  /** A non-empty set has a member to pick. */
  lemma NonEmptyHasMember(a: set<int>)
    requires a != {}
    ensures exists y :: y in a
  {
    if forall y :: y !in a {
      assert false;
    }
  }

  /** A row has one pair per element of `a`. */
  lemma {:induction false} RowSize(x: int, a: set<int>)
    ensures |Row(x, a)| == |a|
    decreases a
  {
    if a != {} {
      NonEmptyHasMember(a);
      var y :| y in a;
      var rest := a - {y};
      RowSize(x, rest);
      assert Row(x, a) == Row(x, rest) + {(x, y)} by {
        forall p | p in Row(x, a) ensures p in Row(x, rest) + {(x, y)} {
          if p.1 != y { assert p.1 in rest; }
        }
      }
      assert (x, y) !in Row(x, rest);
    } else {
      assert Row(x, a) == {};
    }
  }

  /** Taking one element `x` out of `s` splits the product into the product
      of the rest and the row of `x`, and the two parts do not overlap. */
  lemma ProductSplit(s: set<int>, a: set<int>, x: int)
    requires x in s
    ensures Product(s, a) == Product(s - {x}, a) + Row(x, a)
    ensures Product(s - {x}, a) !! Row(x, a)
  {
  }

  /** |s × a| = |s| · |a|. */
  lemma {:induction false} ProductSize(s: set<int>, a: set<int>)
    ensures |Product(s, a)| == |s| * |a|
    decreases s
  {
    if s != {} {
      NonEmptyHasMember(s);
      var x :| x in s;
      var rest := s - {x};
      ProductSize(rest, a);
      RowSize(x, a);
      ProductSplit(s, a, x);
      assert |s| == |rest| + 1;
      assert |s| * |a| == |rest| * |a| + |a|;
    } else {
      assert Product(s, a) == {};
    }
  }

  /** The product is empty exactly when one of the factors is. */
  lemma ProductEmpty(s: set<int>, a: set<int>)
    ensures Product(s, a) == {} <==> s == {} || a == {}
  {
    ProductSize(s, a);
    if s != {} && a != {} {
      assert |s| * |a| > 0;
    }
  }

  /** The script's demonstration: {1, 2} × {3, 4} holds exactly four pairs. */
  lemma ExampleProduct()
    ensures Product({1, 2}, {3, 4}) == {(1, 3), (1, 4), (2, 3), (2, 4)}
  {
  }
}
