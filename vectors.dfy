/** The N-dimensional vector of the particle swarm (Vector.kt): a position
    or a velocity, held in an array that the operators update in place.

    Kotlin `Double` values are modelled as reals. */
module Vectors {

  // ---------------------------------------------------------------------------
  // Elementwise arithmetic on the contents

  /** Componentwise sum. */
  function Plus(a: seq<real>, b: seq<real>): (r: seq<real>)
    requires |a| == |b|
    ensures |r| == |a|
    ensures forall i :: 0 <= i < |a| ==> r[i] == a[i] + b[i]
  {
    seq(|a|, i requires 0 <= i < |a| => a[i] + b[i])
  }

  /** Componentwise difference. */
  function Minus(a: seq<real>, b: seq<real>): (r: seq<real>)
    requires |a| == |b|
    ensures |r| == |a|
    ensures forall i :: 0 <= i < |a| ==> r[i] == a[i] - b[i]
  {
    seq(|a|, i requires 0 <= i < |a| => a[i] - b[i])
  }

  /** Every component multiplied by `s`. */
  function Scale(a: seq<real>, s: real): (r: seq<real>)
    ensures |r| == |a|
    ensures forall i :: 0 <= i < |a| ==> r[i] == a[i] * s
  {
    seq(|a|, i requires 0 <= i < |a| => a[i] * s)
  }

  /** Every component divided by `s`. */
  function Div(a: seq<real>, s: real): (r: seq<real>)
    requires s != 0.0
    ensures |r| == |a|
    ensures forall i :: 0 <= i < |a| ==> r[i] == a[i] / s
  {
    seq(|a|, i requires 0 <= i < |a| => a[i] / s)
  }

  /** `n` zeros. */
  function Zeros(n: nat): (r: seq<real>)
    ensures |r| == n && forall i :: 0 <= i < n ==> r[i] == 0.0
  {
    seq(n, _ => 0.0)
  }

  /** The sum of the squares of the components. */
  function SumOfSquares(a: seq<real>): (r: real)
    ensures r >= 0.0
  {
    if a == [] then 0.0 else SumOfSquares(a[..|a| - 1]) + a[|a| - 1] * a[|a| - 1]
  }

  // ---------------------------------------------------------------------------
  // Laws

  /** `v += w` followed by `v -= w` gives back `v`. */
  lemma PlusThenMinus(a: seq<real>, b: seq<real>)
    requires |a| == |b|
    ensures Minus(Plus(a, b), b) == a
  {
    assert forall i :: 0 <= i < |a| ==> Minus(Plus(a, b), b)[i] == a[i];
  }

  /** `v *= s` followed by `v /= s` gives back `v` when `s` is not zero. */
  lemma ScaleThenDiv(a: seq<real>, s: real)
    requires s != 0.0
    ensures Div(Scale(a, s), s) == a
  {
    forall i | 0 <= i < |a|
      ensures Div(Scale(a, s), s)[i] == a[i]
    {
      assert Scale(a, s)[i] == a[i] * s;
    }
  }

  /** The zero vector has sum of squares zero. */
  lemma {:induction false} SumOfSquaresOfZeros(a: seq<real>)
    ensures (forall i :: 0 <= i < |a| ==> a[i] == 0.0) ==> SumOfSquares(a) == 0.0
  {
    if a != [] {
      var init := a[..|a| - 1];
      SumOfSquaresOfZeros(init);
      assert forall i :: 0 <= i < |init| ==> init[i] == a[i];
    }
  }

  /** The vector class: the array reference never changes; its components do. */
  class Vector {
    const data: array<real>

    /** `Vector(len)`: `len` zeros. */
    constructor (len: nat)
      ensures fresh(data)
      ensures data[..] == Zeros(len)
    {
      data := new real[len](_ => 0.0);
    }

    /** `Vector(vararg initialValues)`: a vector of that length, then `set`. */
    constructor FromValues(initialValues: seq<real>)
      ensures fresh(data)
      ensures data[..] == initialValues
    {
      data := new real[|initialValues|];
      new;
      Set(initialValues);
    }

    /** `set(vararg vd)`: the `require` on the length, then a copy of every
        component. */
    method Set(vd: seq<real>)
      requires |vd| == data.Length
      modifies data
      ensures data[..] == vd
    {
      forall i | 0 <= i < |vd| {
        data[i] := vd[i];
      }
    }

    /** `set(v)`: the components become those of `v` (read before any write,
        so `v` may be this very vector). */
    method SetFrom(v: Vector)
      requires v.data.Length == data.Length
      modifies data
      ensures data[..] == old(v.data[..])
    {
      Set(v.data[..]);
    }

    /** `getData()`: an independent copy of the components. */
    method GetData() returns (a: array<real>)
      ensures fresh(a)
      ensures a[..] == data[..]
    {
      a := new real[data.Length](i requires 0 <= i < data.Length reads data => data[i]);
    }

    /** `+=`: adds `v` componentwise, over this vector's indices. */
    method PlusAssign(v: Vector)
      requires data.Length <= v.data.Length
      modifies data
      ensures data[..] == Plus(old(data[..]), old(v.data[..data.Length]))
    {
      for i := 0 to data.Length
        invariant forall j :: 0 <= j < i ==> data[j] == old(data[j]) + old(v.data[j])
        invariant forall j :: i <= j < data.Length ==> data[j] == old(data[j])
        invariant forall j :: i <= j < v.data.Length ==> v.data[j] == old(v.data[j])
      {
        data[i] := data[i] + v.data[i];
      }
    }

    /** `-=`: subtracts `v` componentwise, over this vector's indices. */
    method MinusAssign(v: Vector)
      requires data.Length <= v.data.Length
      modifies data
      ensures data[..] == Minus(old(data[..]), old(v.data[..data.Length]))
    {
      for i := 0 to data.Length
        invariant forall j :: 0 <= j < i ==> data[j] == old(data[j]) - old(v.data[j])
        invariant forall j :: i <= j < data.Length ==> data[j] == old(data[j])
        invariant forall j :: i <= j < v.data.Length ==> v.data[j] == old(v.data[j])
      {
        data[i] := data[i] - v.data[i];
      }
    }

    /** `*= s`: every component scaled by `s`. */
    method TimesAssign(s: real)
      modifies data
      ensures data[..] == Scale(old(data[..]), s)
    {
      for i := 0 to data.Length
        invariant forall j :: 0 <= j < i ==> data[j] == old(data[j]) * s
        invariant forall j :: i <= j < data.Length ==> data[j] == old(data[j])
      {
        data[i] := data[i] * s;
      }
      assert forall j :: 0 <= j < data.Length ==> data[j] == Scale(old(data[..]), s)[j];
    }

    /** `/= s`: every component divided by `s`. */
    method DivAssign(s: real)
      requires s != 0.0
      modifies data
      ensures data[..] == Div(old(data[..]), s)
    {
      for i := 0 to data.Length
        invariant forall j :: 0 <= j < i ==> data[j] == old(data[j]) / s
        invariant forall j :: i <= j < data.Length ==> data[j] == old(data[j])
      {
        data[i] := data[i] / s;
      }
    }

    /** `magnitudeSq()`: the sum of squares, never negative, and zero for
        the zero vector. */
    function MagnitudeSq(): (r: real)
      reads data
      ensures r >= 0.0
      ensures (forall i :: 0 <= i < data.Length ==> data[i] == 0.0) ==> r == 0.0
    {
      SumOfSquaresOfZeros(data[..]);
      SumOfSquares(data[..])
    }

    /** `clone()`: a new vector, with its own array, holding the same components. */
    method Clone() returns (c: Vector)
      ensures fresh(c) && fresh(c.data)
      ensures c.data[..] == data[..]
    {
      c := new Vector.FromValues(data[..]);
    }
  }
}
