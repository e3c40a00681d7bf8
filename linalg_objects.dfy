/**
 * The members of `la::vec` and `la::mat` that write the `data` array in place:
 * vec::operator= and operator[] (which hands out a reference the caller writes through),
 * mat::fill, mat::operator= and mat::operator[]. The value-returning operators are in
 * LinAlgOps; these classes hold the `std::array` as a Dafny array.
 */
module LinAlgObjects {
  import opened Wrappers
  import opened LinAlgVec
  import opened LinAlgMat
  import LinAlgOps

  /** la::vec<N, T>: N components stored in `data`. */
  class Vec {
    const data: array<real>

    /** The components as a value. */
    function Contents(): Vector
      reads this, data
    {
      data[..]
    }

    /** vec(): data = zero().data. */
    constructor(n: nat)
      ensures data.Length == n && Contents() == Zero(n)
    {
      data := new real[n](_ => 0.0);
    }

    /** operator=(initializer_list): std::out_of_range unless exactly N values are given. */
    method Assign(list: seq<real>) returns (r: Outcome)
      modifies data
      ensures r.Fail? <==> FromList(list, data.Length).Throw?
      ensures r.Fail? ==> r.error == OutOfRange && Contents() == old(Contents())
      ensures r.Done? ==> Contents() == FromList(list, data.Length).value
    {
      if |list| != data.Length {
        return Fail(OutOfRange);
      }
      var index := 0;
      while index < data.Length
        invariant 0 <= index <= data.Length
        invariant data[..index] == list[..index]
      {
        data[index] := list[index];
        index := index + 1;
      }
      assert data[..] == data[..data.Length] && list[..data.Length] == list;
      return Done;
    }

    /** Reading through operator[]: the component, or std::out_of_range when index > N - 1. */
    method Get(index: nat) returns (r: Result<real>)
      ensures r == At(Contents(), index)
    {
      if index > data.Length - 1 {
        return Throw(OutOfRange);
      }
      return Ok(data[index]);
    }

    /** Writing x through the reference operator[] returns; nothing changes when it throws. */
    method Set(index: nat, x: real) returns (r: Outcome)
      modifies data
      ensures r.Fail? <==> At(old(Contents()), index).Throw?
      ensures Contents() == if r.Fail? then old(Contents()) else old(Contents())[index := x]
    {
      if index > data.Length - 1 {
        return Fail(OutOfRange);
      }
      data[index] := x;
      return Done;
    }
  }

  /** la::mat<M, N, T>: N columns of M components stored in `data`. */
  class Mat {
    const m: nat
    const data: array<Vector>

    /** Every column holds M components. */
    ghost predicate Valid()
      reads this, data
    {
      IsMat(data[..], m, data.Length)
    }

    /** The columns as a value. */
    function Contents(): Matrix
      reads this, data
    {
      data[..]
    }

    /** mat(): data = zeros().data. */
    constructor(m: nat, n: nat)
      ensures Valid() && this.m == m && data.Length == n && Contents() == Zeros(m, n)
    {
      this.m := m;
      data := new Vector[n](_ => Zero(m));
    }

    /** fill(initializer_list): std::out_of_range unless exactly N columns are given. */
    method Fill(list: seq<Vector>) returns (r: Outcome)
      requires Valid() && forall i :: 0 <= i < |list| ==> |list[i]| == m
      modifies data
      ensures Valid()
      ensures r.Fail? <==> LinAlgMat.Fill(list, data.Length).Throw?
      ensures r.Fail? ==> r.error == OutOfRange && Contents() == old(Contents())
      ensures r.Done? ==> Contents() == LinAlgMat.Fill(list, data.Length).value
    {
      if |list| != data.Length {
        return Fail(OutOfRange);
      }
      for i := 0 to data.Length
        invariant data[..i] == list[..i]
      {
        data[i] := list[i];
      }
      assert data[..] == data[..data.Length] && list[..data.Length] == list;
      return Done;
    }

    /**
     * operator=(initializer_list) AS WRITTEN: it calls fill and then falls off the end of a
     * function declared to return mat&, so the caller gets no reference back (None).
     */
    method AssignAsWritten(list: seq<Vector>) returns (r: Outcome, self: Option<Mat>)
      requires Valid() && forall i :: 0 <= i < |list| ==> |list[i]| == m
      modifies data
      ensures Valid()
      ensures r.Done? <==> |list| == data.Length
      ensures r.Done? ==> Contents() == list
      ensures r.Fail? ==> Contents() == old(Contents())
      ensures self.None?
    {
      r := Fill(list);
      self := None;
    }

    /** operator= as intended: fill, then return *this. */
    method Assign(list: seq<Vector>) returns (r: Outcome, self: Option<Mat>)
      requires Valid() && forall i :: 0 <= i < |list| ==> |list[i]| == m
      modifies data
      ensures Valid()
      ensures r.Done? <==> |list| == data.Length
      ensures r.Done? ==> Contents() == list
      ensures r.Fail? ==> Contents() == old(Contents())
      ensures self == Some(this)
    {
      r := Fill(list);
      self := Some(this);
    }

    /** Reading column `index` through operator[]. */
    method GetCol(index: nat) returns (r: Result<Vector>)
      ensures r == Col(Contents(), index)
    {
      if index > data.Length - 1 {
        return Throw(OutOfRange);
      }
      return Ok(data[index]);
    }

    /** Writing a whole column through the reference operator[] returns. */
    method SetCol(index: nat, v: Vector) returns (r: Outcome)
      requires Valid() && |v| == m
      modifies data
      ensures Valid()
      ensures r.Fail? <==> Col(old(Contents()), index).Throw?
      ensures Contents() == if r.Fail? then old(Contents()) else old(Contents())[index := v]
    {
      if index > data.Length - 1 {
        return Fail(OutOfRange);
      }
      data[index] := v;
      return Done;
    }

    /** operator(): row `index`, or std::out_of_range when index > M - 1. */
    method GetRow(index: nat) returns (r: Result<Vector>)
      requires Valid() && m >= 1
      ensures r == RowAt(Contents(), m, index)
    {
      r := LinAlgOps.MatRowAt(data[..], m, index);
    }
  }
}
