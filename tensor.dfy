/** Row-major layout of the arrays the preparation routines write: numpy's
    `reshape((n, d))` on a flat array and `tofile`, which writes the rows one
    after another with no header, so that shape and dtype travel only in the
    descriptor (support/parse_data.py, every "tofile" and "shape" line). */
module Tensor {

  /** The number of elements an array of the given shape holds. */
  function Product(shape: seq<nat>): nat
  {
    if shape == [] then 1 else shape[0] * Product(shape[1..])
  }

  /** A two-dimensional shape (n, d) holds n*d elements. */
  lemma Product2(n: nat, d: nat)
    ensures Product([n, d]) == n * d
  {
    assert [n, d][1..] == [d] && [d][1..] == [];
    assert Product([d]) == d * 1 == d;
    assert Product([n, d]) == n * Product([d]);
  }

  /** Every row has d elements. */
  predicate Rectangular<T>(rows: seq<seq<T>>, d: nat)
  {
    forall i :: 0 <= i < |rows| ==> |rows[i]| == d
  }

  /** `ndarray.tofile`: the rows, one after another. */
  function Flatten<T>(rows: seq<seq<T>>): seq<T>
  {
    if rows == [] then [] else rows[0] + Flatten(rows[1..])
  }

  /** Row i of an n-by-d array starts at i*d and ends by n*d. */
  lemma {:induction false} RowMajorBound(n: nat, d: nat, i: nat)
    requires i < n
    ensures i * d + d <= n * d
  {
    if i < n - 1 {
      RowMajorBound(n - 1, d, i);
    }
  }

  /** `flat.reshape((n, d))`: row i is the slice [i*d, i*d + d). */
  function Reshape<T>(flat: seq<T>, n: nat, d: nat): (rows: seq<seq<T>>)
    requires |flat| == n * d
    ensures |rows| == n && Rectangular(rows, d)
  {
    var rows := seq(n, i requires 0 <= i < n => Row(flat, n, d, i));
    assert forall i :: 0 <= i < n ==> |rows[i]| == d;
    rows
  }

  /** Row i of `flat.reshape((n, d))`. */
  function Row<T>(flat: seq<T>, n: nat, d: nat, i: nat): (row: seq<T>)
    requires |flat| == n * d && i < n
    ensures |row| == d
  {
    RowMajorBound(n, d, i);
    flat[i * d .. i * d + d]
  }

  /** `np.transpose` of an array with rows of `cols` elements: element
      (r, c) of the result is element (c, r) of the array. */
  function Transpose<T>(m: seq<seq<T>>, cols: nat): (t: seq<seq<T>>)
    requires Rectangular(m, cols)
    ensures |t| == cols && Rectangular(t, |m|)
    ensures forall r, c :: 0 <= r < cols && 0 <= c < |m| ==> t[r][c] == m[c][r]
  {
    seq(cols, r requires 0 <= r < cols => seq(|m|, c requires 0 <= c < |m| => m[c][r]))
  }

  /** Transposing twice gives the array back. */
  lemma TransposeTranspose<T>(m: seq<seq<T>>, cols: nat)
    requires Rectangular(m, cols)
    ensures Transpose(Transpose(m, cols), |m|) == m
  {
    var back := Transpose(Transpose(m, cols), |m|);
    forall c | 0 <= c < |m|
      ensures back[c] == m[c]
    {
    }
  }

  /** Element (i, j) of the reshaped array is the flat element i*d + j. */
  lemma ReshapeAt<T>(flat: seq<T>, n: nat, d: nat, i: nat, j: nat)
    requires |flat| == n * d && i < n && j < d
    ensures i * d + j < |flat|
    ensures Reshape(flat, n, d)[i][j] == flat[i * d + j]
  {
    RowMajorBound(n, d, i);
  }

  /** A rectangular array with n rows of d elements writes n*d elements. */
  lemma {:induction false} FlattenLength<T>(rows: seq<seq<T>>, d: nat)
    requires Rectangular(rows, d)
    ensures |Flatten(rows)| == |rows| * d
  {
    if rows != [] {
      FlattenLength(rows[1..], d);
    }
  }

  /** Row i of a written array occupies the elements [i*d, i*d + d). */
  lemma {:induction false} FlattenRow<T>(rows: seq<seq<T>>, d: nat, i: nat)
    requires Rectangular(rows, d) && i < |rows|
    ensures |Flatten(rows)| == |rows| * d && i * d + d <= |rows| * d
    ensures Flatten(rows)[i * d .. i * d + d] == rows[i]
  {
    FlattenLength(rows, d);
    RowMajorBound(|rows|, d, i);
    var rest := Flatten(rows[1..]);
    FlattenLength(rows[1..], d);
    if i > 0 {
      FlattenRow(rows[1..], d, i - 1);
      assert (i - 1) * d + d == i * d;
      assert Flatten(rows)[i * d .. i * d + d] == rest[(i - 1) * d .. (i - 1) * d + d];
    } else {
      assert Flatten(rows)[..d] == rows[0];
    }
  }

  /** Reading back a written array with its recorded shape gives the array:
      the round trip through a headerless file. */
  lemma ReshapeFlatten<T>(rows: seq<seq<T>>, d: nat)
    requires Rectangular(rows, d)
    ensures |Flatten(rows)| == |rows| * d
    ensures Reshape(Flatten(rows), |rows|, d) == rows
  {
    FlattenLength(rows, d);
    var back := Reshape(Flatten(rows), |rows|, d);
    forall i | 0 <= i < |rows|
      ensures back[i] == rows[i]
    {
      FlattenRow(rows, d, i);
    }
  }

  /** Writing a reshaped flat array reproduces the flat array: reshape
      changes only the recorded shape, never the order of the elements. */
  lemma {:induction false} FlattenReshape<T>(flat: seq<T>, n: nat, d: nat)
    requires |flat| == n * d
    ensures Flatten(Reshape(flat, n, d)) == flat
  {
    if n > 0 {
      var rows := Reshape(flat, n, d);
      var tail := flat[d..];
      assert |tail| == (n - 1) * d;
      var rest := Reshape(tail, n - 1, d);
      forall i | 0 <= i < n - 1
        ensures rows[i + 1] == rest[i]
      {
        RowMajorBound(n, d, i + 1);
        RowMajorBound(n - 1, d, i);
        assert (i + 1) * d == d + i * d;
      }
      assert rows[1..] == rest;
      assert rows[0] == flat[..d];
      FlattenReshape(tail, n - 1, d);
      assert flat == flat[..d] + tail;
    }
  }

  /** A property of every element of every row holds of every element written. */
  lemma {:induction false} FlattenAll<T>(rows: seq<seq<T>>, p: T -> bool)
    requires forall i, e :: 0 <= i < |rows| && e in rows[i] ==> p(e)
    ensures forall e :: e in Flatten(rows) ==> p(e)
  {
    if rows != [] {
      FlattenAll(rows[1..], p);
      assert forall e :: e in Flatten(rows) ==> e in rows[0] || e in Flatten(rows[1..]);
    }
  }
}
