/** The voxel array: row-major (C-order) indexing into its flattened values. */
module GridProperties {
  import opened CubeFormat

  /** An index within the bounds of a shape lands within the values of an
      array of that shape. */
  lemma {:induction false} FlatIndexInRange(shape: seq<nat>, idx: seq<nat>)
    requires InBounds(shape, idx)
    ensures FlatIndex(shape, idx) < Product(shape)
  {
    if shape != [] {
      var rest := Product(shape[1..]);
      assert InBounds(shape[1..], idx[1..]) by {
        assert forall k :: 0 <= k < |shape| - 1 ==> shape[1..][k] == shape[k + 1] && idx[1..][k] == idx[k + 1];
      }
      FlatIndexInRange(shape[1..], idx[1..]);
      assert idx[0] + 1 <= shape[0];
      assert (idx[0] + 1) * rest <= shape[0] * rest by {
        MultiplyMonotone(idx[0] + 1, shape[0], rest);
      }
    }
  }

  lemma MultiplyMonotone(a: nat, b: nat, c: nat)
    requires a <= b
    ensures a * c <= b * c
  {
  }

  /** Offset of voxel `(x, y, z)` in a C-order array of shape
      `[nx, ny, nz]`: the last index varies fastest. */
  function Offset3(shape: seq<nat>, x: nat, y: nat, z: nat): nat
    requires |shape| == 3
  {
    (x * shape[1] + y) * shape[2] + z
  }

  /** For three dimensions, row-major order puts the voxel `(x, y, z)` at
      `(x * ny + y) * nz + z`, the last index varying fastest. */
  lemma RowMajor3(shape: seq<nat>, x: nat, y: nat, z: nat)
    requires |shape| == 3
    ensures FlatIndex(shape, [x, y, z]) == Offset3(shape, x, y, z)
  {
    var ny, nz := shape[1], shape[2];
    assert shape[1..][1..] == [nz] && [nz][1..] == [];
    assert Product([nz]) == nz * Product([]);
    assert Product(shape[1..]) == ny * nz;
    assert [x, y, z][1..] == [y, z] && [y, z][1..] == [z] && [z][1..] == [];
    assert FlatIndex([nz], [z]) == z * Product([]) + FlatIndex([], []);
    assert FlatIndex(shape[1..], [y, z]) == y * nz + z;
    assert x * (ny * nz) == (x * ny) * nz;
    assert (x * ny + y) * nz == (x * ny) * nz + y * nz;
  }
}
