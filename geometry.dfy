/**
 * The values a mesh is made of: vertices with symbolic planar coordinates,
 * triangles as index triples, and the four vertex positions of a ring.
 */
module Geometry {

  datatype Option<T> = None | Some(value: T)

  /** Truthiness of an optional number: given and non-zero (None and 0 are falsy). */
  predicate Truthy(o: Option<real>)
  {
    o.Some? && o.value != 0.0
  }

  /**
   * One planar coordinate, kept symbolic so that no trigonometry enters the
   * proofs. `CosTerm(r, s, n)` stands for r * cos(2 * pi * s / n) and
   * `SinTerm(r, s, n)` for r * sin(2 * pi * s / n), the sample of a circle of
   * radius r at segment s of n; `Zero` is the literal 0 of an on-axis point.
   */
  datatype Coord =
    | CosTerm(radius: real, segment: int, segments: int)
    | SinTerm(radius: real, segment: int, segments: int)
    | Zero

  datatype Vertex = Vertex(x: Coord, y: Coord, z: real)

  /** A triangle: three indices into the vertex buffer, in winding order. */
  datatype Face = Face(a: int, b: int, c: int)

  datatype Mesh = Mesh(vertices: seq<Vertex>, faces: seq<Face>)

  /** The positions of the vertices within a ring: outer top, outer bottom, inner top, inner bottom. */
  const OuterTop: nat := 0
  const OuterBottom: nat := 1
  const InnerTop: nat := 2
  const InnerBottom: nat := 3

  /**
   * The index that a face uses for the vertex at position `offset` of ring
   * `segment` in a shell starting at `start`. The stride is always 4, whatever
   * the number of vertices the ring really has.
   */
  function Slot(start: int, segment: int, offset: nat): int
  {
    start + 4 * segment + offset
  }

  /** A quadrilateral p, q, r, s split along its diagonal p-r into two triangles. */
  function Quad(p: int, q: int, r: int, s: int): seq<Face>
  {
    [Face(p, q, r), Face(p, r, s)]
  }

  predicate References(f: Face, i: int)
  {
    f.a == i || f.b == i || f.c == i
  }

  /** Every index of f lies in [lo, hi). */
  predicate IndicesIn(f: Face, lo: int, hi: int)
  {
    lo <= f.a < hi && lo <= f.b < hi && lo <= f.c < hi
  }

  /** i is the index of an outer-ring vertex of one of the n rings of a shell starting at `start`. */
  predicate OuterSlot(i: int, start: int, n: int)
  {
    start <= i < start + 4 * n && (i - start) % 4 < 2
  }

  /** Every index of f is an outer-ring slot. */
  predicate OuterSlots(f: Face, start: int, n: int)
  {
    OuterSlot(f.a, start, n) && OuterSlot(f.b, start, n) && OuterSlot(f.c, start, n)
  }
}
