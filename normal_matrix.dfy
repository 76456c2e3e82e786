/**
  The index shuffles around the normal-matrix computation: taking the linear
  (upper-left 3x3) part of a 4x4 model matrix, and transposing a 3x3 matrix.
  A 4x4 matrix is 16 floats and a 3x3 matrix 9 floats, element (row, col) at
  index 4*row+col and 3*row+col respectively. The inversion in between is done
  by android.graphics.Matrix, which is not part of this model.
 */
module NormalMatrix {

  function At3(m: seq<real>, row: nat, col: nat): real
    requires |m| == 9 && row < 3 && col < 3
  {
    m[3 * row + col]
  }

  function At4(m: seq<real>, row: nat, col: nat): real
    requires |m| == 16 && row < 4 && col < 4
  {
    m[4 * row + col]
  }

  /** The 3x3 part of a 4x4 matrix without its last row and column. */
  function UpperLeft(m: seq<real>): (r: seq<real>)
    requires |m| == 16
    ensures |r| == 9
    ensures forall row, col | 0 <= row < 3 && 0 <= col < 3 :: At3(r, row, col) == At4(m, row, col)
  {
    [m[0], m[1], m[2], m[4], m[5], m[6], m[8], m[9], m[10]]
  }

  /** The transpose of a 3x3 matrix. */
  function Transpose(m: seq<real>): (r: seq<real>)
    requires |m| == 9
    ensures |r| == 9
    ensures forall row, col | 0 <= row < 3 && 0 <= col < 3 :: At3(r, row, col) == At3(m, col, row)
  {
    [m[0], m[3], m[6], m[1], m[4], m[7], m[2], m[5], m[8]]
  }

  /** Two 3x3 matrices with the same elements are the same. */
  lemma Ext3(a: seq<real>, b: seq<real>)
    requires |a| == 9 && |b| == 9
    requires forall row, col | 0 <= row < 3 && 0 <= col < 3 :: At3(a, row, col) == At3(b, row, col)
    ensures a == b
  {
    forall k | 0 <= k < 9 ensures a[k] == b[k] {
      assert At3(a, k / 3, k % 3) == At3(b, k / 3, k % 3);
    }
  }

  /** Transposing twice gives back the matrix. */
  lemma TransposeTwice(m: seq<real>)
    requires |m| == 9
    ensures Transpose(Transpose(m)) == m
  {
    Ext3(Transpose(Transpose(m)), m);
  }

  /**
    The extracted 3x3 part depends only on the linear part of the model matrix:
    translation (the last row and column) does not reach it.
   */
  lemma UpperLeftIgnoresTranslation(m: seq<real>, m': seq<real>)
    requires |m| == 16 && |m'| == 16
    requires forall row, col | 0 <= row < 3 && 0 <= col < 3 :: At4(m, row, col) == At4(m', row, col)
    ensures UpperLeft(m) == UpperLeft(m')
  {
    Ext3(UpperLeft(m), UpperLeft(m'));
  }
}
