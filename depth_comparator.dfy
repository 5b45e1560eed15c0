/**
 * The painter's-order comparator used to sort renderables back to front
 * (`org.progx.jogl.util.DepthComparator`).  The camera transform is taken
 * out of the model: the distance of an item from the camera is a parameter.
 */
module JoglUtil {
  import opened Wrappers

  const INT_MIN: int := -0x8000_0000
  const INT_MAX: int := 0x7FFF_FFFF

  /** A renderable, compared by reference: two items are the same object iff their ids agree. */
  datatype Item = Item(id: nat)

  /** Truncation toward zero, the rounding of Java's narrowing cast. */
  function Trunc(x: real): (r: int)
    ensures 0.0 <= x ==> 0 <= r && r as real <= x < r as real + 1.0
    ensures x < 0.0 ==> r <= 0 && r as real - 1.0 < x <= r as real
  {
    if x >= 0.0 then x.Floor else -((-x).Floor)
  }

  /** Java's `(int)` cast of a float: truncation toward zero, saturating at the bounds of `int`. */
  function IntCast(x: real): (r: int)
    ensures INT_MIN <= r <= INT_MAX
    ensures INT_MIN <= Trunc(x) <= INT_MAX ==> r == Trunc(x)
    ensures x >= (INT_MAX + 1) as real ==> r == INT_MAX
    ensures x <= INT_MIN as real ==> r == INT_MIN
  {
    var t := Trunc(x);
    if t < INT_MIN then INT_MIN else if t > INT_MAX then INT_MAX else t
  }

  /**
   * `compare(r1, r2)`: a null first argument sorts first, a null second
   * argument last, the same reference is equal to itself, and otherwise the
   * difference of the camera distances is truncated to an `int`.
   */
  function Compare(r1: Option<Item>, r2: Option<Item>, distance: Item -> real): (c: int)
    ensures INT_MIN <= c <= INT_MAX
    ensures r1.None? ==> c == -1
    ensures r1.Some? && r2.None? ==> c == 1
    ensures r1.Some? && r1 == r2 ==> c == 0
    ensures r1.Some? && r2.Some? && r1 != r2 ==> c == IntCast(distance(r2.value) - distance(r1.value))
  {
    if r1.None? then -1
    else if r2.None? then 1
    else if r1 == r2 then 0
    else IntCast(distance(r2.value) - distance(r1.value))
  }

  /** Truncation toward zero is an odd function. */
  lemma TruncOdd(x: real)
    ensures Trunc(-x) == -Trunc(x)
  {
    if x > 0.0 {
      assert -x < 0.0;
    } else if x < 0.0 {
      assert -x > 0.0;
    }
  }

  /**
   * Two different items order by distance: the farther one sorts first
   * (compares as smaller) as soon as it is farther by at least 1, and items
   * less than 1 apart compare as equal.
   */
  lemma CompareByDistance(a: Item, b: Item, distance: Item -> real)
    requires a != b
    ensures Compare(Some(a), Some(b), distance) > 0 <==> distance(b) - distance(a) >= 1.0
    ensures Compare(Some(a), Some(b), distance) < 0 <==> distance(b) - distance(a) <= -1.0
    ensures Compare(Some(a), Some(b), distance) == 0 <==> -1.0 < distance(b) - distance(a) < 1.0
  {
    var x := distance(b) - distance(a);
    if x >= (INT_MAX + 1) as real {
      assert Compare(Some(a), Some(b), distance) == INT_MAX;
    } else if x <= INT_MIN as real {
      assert Compare(Some(a), Some(b), distance) == INT_MIN;
    } else {
      assert Compare(Some(a), Some(b), distance) == Trunc(x);
    }
  }

  /**
   * For non-null items the comparison is antisymmetric in sign, and exactly
   * antisymmetric while the distance gap stays inside the `int` range.
   */
  lemma CompareAntisymmetric(a: Item, b: Item, distance: Item -> real)
    ensures Compare(Some(a), Some(b), distance) > 0 <==> Compare(Some(b), Some(a), distance) < 0
    ensures Compare(Some(a), Some(b), distance) == 0 <==> Compare(Some(b), Some(a), distance) == 0
    ensures -(INT_MAX as real) <= distance(b) - distance(a) <= INT_MAX as real ==>
              Compare(Some(a), Some(b), distance) == -Compare(Some(b), Some(a), distance)
  {
    if a != b {
      var x := distance(b) - distance(a);
      assert distance(a) - distance(b) == -x;
      TruncOdd(x);
      CompareByDistance(a, b, distance);
      CompareByDistance(b, a, distance);
    }
  }

  /** A null compared with itself is "less than" itself both ways, so nulls break antisymmetry. */
  lemma NullsBreakAntisymmetry(distance: Item -> real)
    ensures Compare(None, None, distance) < 0
    ensures !(Compare(None, None, distance) > 0 <==> Compare(None, None, distance) < 0)
  {
  }

  /**
   * "Compares as equal" is not transitive: three items 0.6 apart in turn are
   * pairwise equal to their neighbours, but the outer two are not equal.
   */
  lemma EqualityNotTransitive()
    ensures var distance := (i: Item) => i.id as real * 0.6;
            Compare(Some(Item(0)), Some(Item(1)), distance) == 0 &&
            Compare(Some(Item(1)), Some(Item(2)), distance) == 0 &&
            Compare(Some(Item(0)), Some(Item(2)), distance) == 1
  {
    var distance := (i: Item) => i.id as real * 0.6;
    assert Trunc(0.6) == 0;
    assert Trunc(1.2) == 1;
    assert distance(Item(1)) - distance(Item(0)) == 0.6;
    assert distance(Item(2)) - distance(Item(1)) == 0.6;
    assert distance(Item(2)) - distance(Item(0)) == 1.2;
  }
}
