/** A mutable point with `Long` coordinates. */
module Points {
  import opened JavaInt

  class PointL {
    var x: int
    var y: int

    ghost predicate Valid()
      reads this
    {
      IsLong(x) && IsLong(y)
    }

    /** `PointL()`: the fields keep their default 0. */
    constructor Origin()
      ensures Valid() && x == 0 && y == 0
    {
      x := 0;
      y := 0;
    }

    constructor (pX: int, pY: int)
      requires IsLong(pX) && IsLong(pY)
      ensures Valid() && x == pX && y == pY
    {
      x := pX;
      y := pY;
    }

    /** The copy constructor, through `set(other)`. */
    constructor Copy(other: PointL)
      requires other.Valid()
      ensures Valid() && x == other.x && y == other.y
    {
      x := other.x;
      y := other.y;
    }

    /** `set(other)`: also right when `other` is this point itself. */
    method Set(other: PointL)
      requires other.Valid()
      modifies this
      ensures Valid() && x == old(other.x) && y == old(other.y)
    {
      x := other.x;
      y := other.y;
    }

    method SetXY(pX: int, pY: int)
      requires IsLong(pX) && IsLong(pY)
      modifies this
      ensures Valid() && x == pX && y == pY
    {
      x := pX;
      y := pY;
    }

    /** `offset`: `+=` on `Long` fields wraps around. */
    method Offset(dx: int, dy: int)
      requires Valid() && IsLong(dx) && IsLong(dy)
      modifies this
      ensures Valid() && x == WrapLong(old(x) + dx) && y == WrapLong(old(y) + dy)
    {
      x := WrapLong(x + dx);
      y := WrapLong(y + dy);
    }

    /** `equals`: the same object, or another `PointL` with the same
        coordinates; anything else, `null` included, is different. */
    predicate Equals(o: object?)
      reads this, if o is PointL then {o as PointL} else {}
    {
      if o == this then true
      else if !(o is PointL) then false
      else
        var other := o as PointL;
        x == other.x && y == other.y
    }
  }

  /** `equals` compares coordinates only: it holds exactly for points with
      the same x and y, and never for `null` or an object of another class. */
  lemma EqualsIsSameCoordinates(p: PointL, o: object?)
    ensures p.Equals(o) <==> o is PointL && (o as PointL).x == p.x && (o as PointL).y == p.y
  {
  }

  /** `equals` is reflexive and symmetric. */
  lemma EqualsIsReflexiveAndSymmetric(p: PointL, q: PointL)
    ensures p.Equals(p)
    ensures p.Equals(q) <==> q.Equals(p)
  {
  }

  lemma EqualsIsTransitive(p: PointL, q: PointL, r: PointL)
    requires p.Equals(q) && q.Equals(r)
    ensures p.Equals(r)
  {
  }

  lemma MultipleOfTwo64(k: int)
    ensures (k * TWO_64) % TWO_64 == 0
  {
    RemainderUnique(k * TWO_64, k, 0);
  }

  /** Offsetting by (dx, dy) and then by the `Long` negation of (dx, dy)
      restores a coordinate, even when either step wraps around (the
      negation of `Long.MIN_VALUE` is itself). */
  lemma {:induction false} OffsetUndone(c: int, d: int)
    requires IsLong(c) && IsLong(d)
    ensures WrapLong(WrapLong(c + d) + WrapLong(-d)) == c
  {
    var w1, w2 := WrapLong(c + d), WrapLong(-d);
    var k1, k2 := (c + d - w1) / TWO_64, (-d - w2) / TWO_64;
    assert c + d - w1 == k1 * TWO_64;
    assert -d - w2 == k2 * TWO_64;
    assert (w1 + w2) - c == (-(k1 + k2)) * TWO_64;
    MultipleOfTwo64(-(k1 + k2));
    WrapLongCongruent(w1 + w2, c);
  }

  /** A point that is offset and offset back is where it started. */
  method OffsetThereAndBack(p: PointL, dx: int, dy: int)
    requires p.Valid() && IsLong(dx) && IsLong(dy)
    modifies p
    ensures p.x == old(p.x) && p.y == old(p.y)
  {
    p.Offset(dx, dy);
    p.Offset(WrapLong(-dx), WrapLong(-dy));
    OffsetUndone(old(p.x), dx);
    OffsetUndone(old(p.y), dy);
  }
}
