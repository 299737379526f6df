/**
  internal/vector/vector.go: a pair of integer coordinates (X is the column,
  Y the row) and `Add`, which shifts a vector in place by another one.
*/
module Vectors {

  /** The `Vector` struct as a value: Go passes and copies it by value. */
  datatype Vector = Vector(x: int, y: int)

  const Zero := Vector(0, 0)

  /** The vector a receiver holds after `Add(other)`. */
  function Sum(a: Vector, b: Vector): Vector {
    Vector(a.x + b.x, a.y + b.y)
  }

  /**
    A `*Vector` receiver: a variable whose X and Y fields `Add` updates in
    place.
  */
  class VectorVar {
    var x: int
    var y: int

    function Value(): Vector
      reads this
    {
      Vector(x, y)
    }

    constructor (v: Vector)
      ensures Value() == v
    {
      x, y := v.x, v.y;
    }

    /** `vector.X += other.X; vector.Y += other.Y`; `other` is a copy, so the caller's value is untouched. */
    method Add(other: Vector)
      modifies this
      ensures x == old(x) + other.x
      ensures y == old(y) + other.y
      ensures Value() == Sum(old(Value()), other)
    {
      x := x + other.x;
      y := y + other.y;
    }
  }

  /** Adding the zero vector leaves the receiver unchanged. */
  method AddZeroKeepsValue(v: VectorVar)
    modifies v
    ensures v.Value() == old(v.Value())
  {
    v.Add(Zero);
  }
}
