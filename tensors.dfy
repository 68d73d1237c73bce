/** The real-valued tensors the controller handles itself (everything else is opaque). */
module Tensors {

  /** A batch_size x width slice of the input tensor. */
  type Matrix = seq<seq<real>>

  /** torch.zeros(rows, cols). */
  function Zeros(rows: nat, cols: nat): (z: Matrix)
    ensures |z| == rows
    ensures forall i :: 0 <= i < rows ==> |z[i]| == cols && forall j :: 0 <= j < cols ==> z[i][j] == 0.0
  {
    seq(rows, _ => seq(cols, _ => 0.0))
  }
}
