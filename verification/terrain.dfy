/**
 The terrain patch: a 100 x 100 plane with 128 x 128 segments, i.e. 129 x 129
 vertices stored three numbers each in one flat buffer. Every frame each
 vertex's height slot is rewritten from a noise field sampled at the vertex's
 grid point shifted by the ship's horizontal position.

 The noise generator is a library object whose code is not part of this model;
 it is a parameter, any function of three reals. The vertex buffer is a
 single-precision array in the program; here it holds reals and the rounding
 to single precision is not modelled.
 */
module Terrain {

  type Noise = (real, real, real) -> real

  /** World size of the square patch. */
  const Size: real := 100.0
  /** Segments per side. */
  const Segments: nat := 128
  /** Vertices per row and per column. */
  const Side: nat := 129
  const VertexCount: nat := 129 * 129
  /** Numbers per vertex in the buffer; the third is the height. */
  const Stride: nat := 3
  const Frequency: real := 0.05
  const Amplitude: real := 10.0

  /** Grid column of vertex j (the remainder by 129). */
  function Col(j: nat): nat {
    j % Side
  }

  /** Grid row of vertex j (the floor of j / 129). */
  function Row(j: nat): nat {
    j / Side
  }

  function Index(row: nat, col: nat): nat {
    row * Side + col
  }

  /** Every vertex index splits into a row and a column of the grid and is
      recovered from them. */
  lemma IndexSplits(j: nat)
    requires j < VertexCount
    ensures Row(j) <= Segments && Col(j) <= Segments
    ensures Index(Row(j), Col(j)) == j
  {
  }

  /** Every grid cell has an index in range, and splitting it gives the cell back. */
  lemma IndexJoins(row: nat, col: nat)
    requires row <= Segments && col <= Segments
    ensures Index(row, col) < VertexCount
    ensures Row(Index(row, col)) == row && Col(Index(row, col)) == col
  {
    LemmaDivModUnique(Index(row, col), row, col);
  }

  /** Quotient and remainder by Side are unique. */
  lemma LemmaDivModUnique(j: nat, q: nat, r: nat)
    requires r < Side && j == q * Side + r
    ensures j / Side == q && j % Side == r
  {
  }

  /** World x of vertex j when the patch is centred at offsetX: a whole number
      of spacings (Size / Segments) from the patch's west edge, so never more
      than Size / 2 from the offset. */
  function SampleX(j: nat, offsetX: real): (x: real)
    ensures x - offsetX == Col(j) as real * (Size / Segments as real) - Size / 2.0
    ensures -Size / 2.0 <= x - offsetX <= Size / 2.0
  {
    (Col(j) as real / Segments as real) * Size - Size / 2.0 + offsetX
  }

  /** World z of vertex j when the patch is centred at offsetZ: a whole number
      of spacings from the patch's north edge, within Size / 2 of the offset for
      every vertex of the grid. */
  function SampleZ(j: nat, offsetZ: real): (z: real)
    ensures z - offsetZ == Row(j) as real * (Size / Segments as real) - Size / 2.0
    ensures j < VertexCount ==> -Size / 2.0 <= z - offsetZ <= Size / 2.0
  {
    (Row(j) as real / Segments as real) * Size - Size / 2.0 + offsetZ
  }

  /** Neighbours along a row are one spacing apart in x and level in z,
      whatever the offset, the last row included. */
  lemma RowSpacingConstant(j: nat, offsetX: real, offsetZ: real)
    requires j + 1 < VertexCount && Col(j) < Segments
    ensures SampleX(j + 1, offsetX) - SampleX(j, offsetX) == Size / Segments as real
    ensures SampleZ(j + 1, offsetZ) == SampleZ(j, offsetZ)
  {
    LemmaDivModUnique(j + 1, Row(j), Col(j) + 1);
  }

  /** Neighbours along a column are one spacing apart in z and level in x,
      whatever the offset, the last column included. */
  lemma ColumnSpacingConstant(j: nat, offsetX: real, offsetZ: real)
    requires j + Side < VertexCount
    ensures SampleZ(j + Side, offsetZ) - SampleZ(j, offsetZ) == Size / Segments as real
    ensures SampleX(j + Side, offsetX) == SampleX(j, offsetX)
  {
    LemmaDivModUnique(j + Side, Row(j) + 1, Col(j));
  }

  /** Height of the terrain at world point (x, z). A noise value in the
      conventional range [-1, 1] gives a height within Amplitude of zero. */
  function Height(noise: Noise, x: real, z: real): (h: real)
    ensures -1.0 <= noise(x * Frequency, z * Frequency, 0.0) <= 1.0 ==> -Amplitude <= h <= Amplitude
  {
    noise(x * Frequency, z * Frequency, 0.0) * Amplitude
  }

  /** Height the regeneration assigns to vertex j: the noise read at the grid
      point of column Col(j) and row Row(j), shifted by the offset. */
  function HeightAt(noise: Noise, j: nat, offsetX: real, offsetZ: real): real {
    Height(noise, SampleX(j, offsetX), SampleZ(j, offsetZ))
  }

  /** The terrain scrolls with the ship: moving the patch one spacing east
      gives each vertex, except the last of its row, the height its east
      neighbour had. */
  lemma TerrainScrollsAlongRow(noise: Noise, j: nat, offsetX: real, offsetZ: real)
    requires Col(j) < Segments
    ensures HeightAt(noise, j, offsetX + Size / Segments as real, offsetZ)
            == HeightAt(noise, j + 1, offsetX, offsetZ)
  {
    LemmaDivModUnique(j + 1, Row(j), Col(j) + 1);
  }

  /** Moving the patch one spacing south gives each vertex the height the
      vertex one row further on had. */
  lemma TerrainScrollsAlongColumn(noise: Noise, j: nat, offsetX: real, offsetZ: real)
    ensures HeightAt(noise, j, offsetX, offsetZ + Size / Segments as real)
            == HeightAt(noise, j + Side, offsetX, offsetZ)
  {
    LemmaDivModUnique(j + Side, Row(j) + 1, Col(j));
  }

  /** Rewrites the height slot of every vertex in the buffer and nothing else.
      A write past the end of the buffer (a trailing partial vertex) is dropped,
      as a typed array drops it. */
  method Regenerate(pos: seq<real>, noise: Noise, offsetX: real, offsetZ: real)
    returns (next: seq<real>)
    ensures |next| == |pos|
    ensures forall k :: 0 <= k < |pos| && k % Stride == 2 ==>
              next[k] == HeightAt(noise, k / Stride, offsetX, offsetZ)
    ensures forall k :: 0 <= k < |pos| && k % Stride != 2 ==> next[k] == pos[k]
  {
    next := pos;
    var i, j := 0, 0;
    while i < |next|
      invariant i == Stride * j
      invariant |next| == |pos|
      invariant forall k :: 0 <= k < |pos| && k % Stride == 2 && k < i ==>
                  next[k] == HeightAt(noise, k / Stride, offsetX, offsetZ)
      invariant forall k :: 0 <= k < |pos| && !(k % Stride == 2 && k < i) ==> next[k] == pos[k]
    {
      var x := SampleX(j, offsetX);
      var z := SampleZ(j, offsetZ);
      if i + 2 < |next| {
        next := next[i + 2 := Height(noise, x, z)];
      }
      i, j := i + Stride, j + 1;
    }
  }

  /** The vertex at the centre of the grid, with the ship over the origin,
      samples the noise at the origin. */
  lemma CentreVertexSamplesOrigin(noise: Noise)
    ensures Index(64, 64) < VertexCount
    ensures HeightAt(noise, Index(64, 64), 0.0, 0.0) == noise(0.0, 0.0, 0.0) * Amplitude
  {
  }
}
