/**
 * The grid points of the mesh example: Cantor dust coordinates on [0, 1]. `cant(x, y, n)`
 * inserts the two points one third and two thirds of the way from x to y, then recurses
 * into the outer two thirds-intervals with one level less; `cantor(n)` adds the end
 * points 0 and 1. Coordinates are exact `real`s here.
 */
module CantorMesh {

  function Pow2(n: nat): (p: nat)
    ensures p >= 1
  {
    if n == 0 then 1 else 2 * Pow2(n - 1)
  }

  /** The point one third of the way from x to y. */
  function OneThird(x: real, y: real): real
  {
    2.0 * x / 3.0 + y / 3.0
  }

  /** The point two thirds of the way from x to y. */
  function TwoThirds(x: real, y: real): real
  {
    x / 3.0 + 2.0 * y / 3.0
  }

  /** The interior points of level n between x and y: one level adds two points per
      interval and doubles the intervals, so there are 2^(n+1) - 2 of them (none at
      level 0). */
  function Cant(x: real, y: real, n: nat): (r: seq<real>)
    ensures |r| == Pow2(n + 1) - 2
    decreases n
  {
    if n == 0 then []
    else
      var p := OneThird(x, y);
      var q := TwoThirds(x, y);
      Cant(x, p, n - 1) + [p, q] + Cant(q, y, n - 1)
  }

  /** The coordinates of level n: 0, the interior points, 1; 2^(n+1) of them. */
  function Cantor(n: nat): (r: seq<real>)
    ensures |r| == Pow2(n + 1)
    ensures r[0] == 0.0 && r[|r| - 1] == 1.0
  {
    [0.0] + Cant(0.0, 1.0, n) + [1.0]
  }

  predicate StrictlyIncreasing(s: seq<real>)
  {
    forall i, j :: 0 <= i < j < |s| ==> s[i] < s[j]
  }

  predicate Between(s: seq<real>, lo: real, hi: real)
  {
    forall i :: 0 <= i < |s| ==> lo < s[i] < hi
  }

  /** Two increasing runs with every element of the first below every element of the
      second make one increasing run. */
  lemma {:induction false} AppendIncreasing(a: seq<real>, b: seq<real>)
    requires StrictlyIncreasing(a) && StrictlyIncreasing(b)
    requires forall i, j :: 0 <= i < |a| && 0 <= j < |b| ==> a[i] < b[j]
    ensures StrictlyIncreasing(a + b)
  {
    forall i, j | 0 <= i < j < |a + b| ensures (a + b)[i] < (a + b)[j] {
      if j < |a| {
        assert (a + b)[i] == a[i] && (a + b)[j] == a[j];
      } else if i < |a| {
        assert (a + b)[i] == a[i] && (a + b)[j] == b[j - |a|];
      } else {
        assert (a + b)[i] == b[i - |a|] && (a + b)[j] == b[j - |a|];
      }
    }
  }

  /** One level of the recursion: the left run, the two new points and the right run
      make one increasing run between the outer ends, when the left run lies below the
      first new point and the right run above the second. */
  lemma {:induction false} JoinLevel(left: seq<real>, p: real, q: real, right: seq<real>, x: real, y: real)
    requires x < p < q < y
    requires StrictlyIncreasing(left) && Between(left, x, p)
    requires StrictlyIncreasing(right) && Between(right, q, y)
    ensures StrictlyIncreasing(left + [p, q] + right)
    ensures Between(left + [p, q] + right, x, y)
  {
    var mid := left + [p, q];
    AppendIncreasing(left, [p, q]);
    forall i, j | 0 <= i < |mid| && 0 <= j < |right| ensures mid[i] < right[j] {
      if i < |left| {
        assert mid[i] == left[i];
      } else {
        assert mid[i] == [p, q][i - |left|];
      }
    }
    AppendIncreasing(mid, right);
    var r := mid + right;
    forall i | 0 <= i < |r| ensures x < r[i] < y {
      if i < |mid| {
        assert r[i] == mid[i];
        if i < |left| {
          assert mid[i] == left[i];
        } else {
          assert mid[i] == [p, q][i - |left|];
        }
      } else {
        assert r[i] == right[i - |mid|];
      }
    }
  }

  /** For x < y, the interior points of every level increase strictly and lie strictly
      between x and y. */
  lemma {:induction false} CantBetween(x: real, y: real, n: nat)
    requires x < y
    decreases n
    ensures StrictlyIncreasing(Cant(x, y, n))
    ensures Between(Cant(x, y, n), x, y)
  {
    if n > 0 {
      var p := OneThird(x, y);
      var q := TwoThirds(x, y);
      assert x < p < q < y;
      CantBetween(x, p, n - 1);
      CantBetween(q, y, n - 1);
      JoinLevel(Cant(x, p, n - 1), p, q, Cant(q, y, n - 1), x, y);
    }
  }

  /** The coordinates of every level increase strictly, as structured mesh
      coordinates must. */
  lemma {:induction false} CantorIncreasing(n: nat)
    ensures StrictlyIncreasing(Cantor(n))
  {
    var inner := Cant(0.0, 1.0, n);
    CantBetween(0.0, 1.0, n);
    AppendIncreasing([0.0], inner);
    forall i | 0 <= i < |[0.0] + inner| ensures ([0.0] + inner)[i] < 1.0 {
      if i > 0 {
        assert ([0.0] + inner)[i] == inner[i - 1];
      }
    }
    AppendIncreasing([0.0] + inner, [1.0]);
  }

  /** The two points a level adds sit in the middle of its output, one third and two
      thirds of the way from x to y. */
  lemma CantMiddle(x: real, y: real, n: nat)
    requires n >= 1
    ensures Cant(x, y, n)[Pow2(n) - 2] == x + (y - x) / 3.0
    ensures Cant(x, y, n)[Pow2(n) - 1] == x + 2.0 * (y - x) / 3.0
  {
    var left := Cant(x, OneThird(x, y), n - 1);
    assert |left| == Pow2(n) - 2;
  }

  /** Refining a level keeps its points: every interior point of level n is an interior
      point of level n + 1, on the same interval. */
  lemma {:induction false} CantRefines(x: real, y: real, n: nat)
    ensures forall v :: v in Cant(x, y, n) ==> v in Cant(x, y, n + 1)
    decreases n
  {
    if n > 0 {
      var p := OneThird(x, y);
      var q := TwoThirds(x, y);
      CantRefines(x, p, n - 1);
      CantRefines(q, y, n - 1);
      assert Cant(x, y, n) == Cant(x, p, n - 1) + [p, q] + Cant(q, y, n - 1);
      assert Cant(x, y, n + 1) == Cant(x, p, n) + [p, q] + Cant(q, y, n);
    }
  }

  /** Every coordinate of level n is a coordinate of level n + 1. */
  lemma CantorRefines(n: nat)
    ensures forall v :: v in Cantor(n) ==> v in Cantor(n + 1)
  {
    CantRefines(0.0, 1.0, n);
  }
}
