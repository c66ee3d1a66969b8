/**
 * The mesh generator `generate_geometry`: a main shell (an annular disk, or an
 * open tube when there is no inner radius) and an optional flange shell, both
 * sampled at `segments` angles and stitched into triangles, written into one
 * shared vertex buffer and one shared face buffer.
 *
 * The specification functions describe each buffer as a sequence of
 * per-segment blocks (rings of vertices, groups of faces); the method
 * `GenerateGeometry` fills the buffers with appends inside four loops, as the
 * source does, and is proved to produce exactly `Generate(cfg)`.
 */
module ModelMaking {
  import opened Geometry
  import opened Blocks

  /**
   * The parameters of `generate_geometry`. The vent, bearing-seat and bolt
   * options are accepted but never read.
   */
  datatype Config = Config(
    outerRadius: real,
    innerRadius: Option<real>,
    thickness: Option<real>,
    ventRadius: Option<real>,
    numVents: Option<int>,
    flangeRadius: Option<real>,
    flangeThickness: Option<real>,
    centerBoreRadius: Option<real>,
    bearingSeatRadius: Option<real>,
    bearingSeatWidth: Option<real>,
    boltPatternRadius: Option<real>,
    boltHoleRadius: Option<real>,
    numBolts: Option<int>,
    segments: int)

  /** The number of iterations of a loop over `range(segments)`. */
  function SegmentCount(cfg: Config): nat
  {
    if cfg.segments > 0 then cfg.segments else 0
  }

  /** The main shell is built when a thickness is given, even a zero one. */
  predicate MainBuilt(cfg: Config)
  {
    cfg.thickness.Some?
  }

  /** The main shell has inner rings, inner walls and caps. */
  predicate HasInner(cfg: Config)
  {
    Truthy(cfg.innerRadius)
  }

  /** The flange shell is built when flange radius and flange thickness are both truthy. */
  predicate FlangeBuilt(cfg: Config)
  {
    Truthy(cfg.flangeRadius) && Truthy(cfg.flangeThickness)
  }

  // ---------------------------------------------------------------- ring sampling

  /** A top vertex at +half and the bottom vertex below it at -half. */
  function Pair(x: Coord, y: Coord, half: real): seq<Vertex>
  {
    [Vertex(x, y, half), Vertex(x, y, -half)]
  }

  /** Ring s of the main shell: outer top, outer bottom, then inner top and inner bottom if any. */
  function MainRing(cfg: Config, s: int): seq<Vertex>
    requires MainBuilt(cfg)
  {
    var half := cfg.thickness.value / 2.0;
    var n := cfg.segments;
    var outer := Pair(CosTerm(cfg.outerRadius, s, n), SinTerm(cfg.outerRadius, s, n), half);
    if HasInner(cfg) then
      outer + Pair(CosTerm(cfg.innerRadius.value, s, n), SinTerm(cfg.innerRadius.value, s, n), half)
    else outer
  }

  function MainRings(cfg: Config, count: nat): seq<seq<Vertex>>
    requires MainBuilt(cfg)
  {
    seq(count, s => MainRing(cfg, s))
  }

  /** Ring s of the flange: always four vertices; the inner pair is on the axis without a bore radius. */
  function FlangeRing(cfg: Config, s: int): seq<Vertex>
    requires FlangeBuilt(cfg)
  {
    var half := cfg.flangeThickness.value / 2.0;
    var n := cfg.segments;
    var r := cfg.flangeRadius.value;
    var bore := cfg.centerBoreRadius;
    Pair(CosTerm(r, s, n), SinTerm(r, s, n), half) +
    if Truthy(bore) then
      Pair(CosTerm(bore.value, s, n), SinTerm(bore.value, s, n), half)
    else
      Pair(Zero, Zero, half)
  }

  function FlangeRings(cfg: Config, count: nat): seq<seq<Vertex>>
    requires FlangeBuilt(cfg)
  {
    seq(count, s => FlangeRing(cfg, s))
  }

  // ---------------------------------------------------------------- stitching

  function OuterWall(start: int, s: int, next: int): seq<Face>
  {
    Quad(Slot(start, s, OuterTop), Slot(start, next, OuterTop),
         Slot(start, next, OuterBottom), Slot(start, s, OuterBottom))
  }

  function InnerWall(s: int, next: int): seq<Face>
  {
    Quad(Slot(0, s, InnerTop), Slot(0, next, InnerTop),
         Slot(0, next, InnerBottom), Slot(0, s, InnerBottom))
  }

  function TopCap(s: int, next: int): seq<Face>
  {
    Quad(Slot(0, s, OuterTop), Slot(0, s, InnerTop),
         Slot(0, next, InnerTop), Slot(0, next, OuterTop))
  }

  function BottomCap(s: int, next: int): seq<Face>
  {
    Quad(Slot(0, s, OuterBottom), Slot(0, next, OuterBottom),
         Slot(0, next, InnerBottom), Slot(0, s, InnerBottom))
  }

  /** The faces joining main-shell ring s to ring `next`: outer wall, then inner wall, top cap and bottom cap. */
  function SegmentFaces(s: int, next: int, inner: bool): seq<Face>
  {
    OuterWall(0, s, next) +
    if inner then InnerWall(s, next) + TopCap(s, next) + BottomCap(s, next) else []
  }

  /** The ring after ring s of n: s + 1, and ring 0 after the last one. */
  function NextRing(s: int, n: int): int
  {
    if s + 1 == n then 0 else s + 1
  }

  /** The source's `(segment + 1) % segments` is the next ring. */
  lemma NextRingModulo(s: nat, n: nat)
    requires s < n
    ensures 0 <= NextRing(s, n) < n
    ensures (s + 1) % n == NextRing(s, n)
  {
    if s + 1 == n {
      assert (s + 1) % n == (n - n) % n;
    }
  }

  /** The faces joining main-shell ring s to the next ring. */
  function MainSegmentFaces(n: nat, s: nat, inner: bool): seq<Face>
    requires s < n
  {
    SegmentFaces(s, NextRing(s, n), inner)
  }

  function MainStitch(n: nat, count: nat, inner: bool): seq<seq<Face>>
    requires count <= n
  {
    seq(count, s requires 0 <= s < count => MainSegmentFaces(n, s, inner))
  }

  /** The faces joining flange ring s to the next ring: the outer wall only. */
  function FlangeSegmentFaces(start: int, n: nat, s: nat): seq<Face>
    requires s < n
  {
    OuterWall(start, s, NextRing(s, n))
  }

  function FlangeStitch(start: int, n: nat, count: nat): seq<seq<Face>>
    requires count <= n
  {
    seq(count, s requires 0 <= s < count => FlangeSegmentFaces(start, n, s))
  }

  // ---------------------------------------------------------------- assembly

  function MainShell(cfg: Config): Mesh
  {
    if MainBuilt(cfg) then
      var n := SegmentCount(cfg);
      Mesh(Concat(MainRings(cfg, n)), Concat(MainStitch(n, n, HasInner(cfg))))
    else Mesh([], [])
  }

  /** The flange shell, with its face indices offset by `start`. */
  function FlangeShell(cfg: Config, start: int): Mesh
  {
    if FlangeBuilt(cfg) then
      var n := SegmentCount(cfg);
      Mesh(Concat(FlangeRings(cfg, n)), Concat(FlangeStitch(start, n, n)))
    else Mesh([], [])
  }

  /** The main shell first, then the flange offset by the main shell's vertex count. */
  function Generate(cfg: Config): Mesh
  {
    var main := MainShell(cfg);
    var flange := FlangeShell(cfg, |main.vertices|);
    Mesh(main.vertices + flange.vertices, main.faces + flange.faces)
  }

  lemma MainRingsSnoc(prefix: seq<Vertex>, cfg: Config, k: nat)
    requires MainBuilt(cfg)
    ensures prefix + Concat(MainRings(cfg, k + 1)) == prefix + Concat(MainRings(cfg, k)) + MainRing(cfg, k)
  {
    assert MainRings(cfg, k + 1) == MainRings(cfg, k) + [MainRing(cfg, k)];
    ConcatSnoc(prefix, MainRings(cfg, k), MainRing(cfg, k));
  }

  lemma MainStitchSnoc(prefix: seq<Face>, n: nat, k: nat, inner: bool)
    requires k < n
    ensures prefix + Concat(MainStitch(n, k + 1, inner))
         == prefix + Concat(MainStitch(n, k, inner)) + MainSegmentFaces(n, k, inner)
  {
    assert MainStitch(n, k + 1, inner) == MainStitch(n, k, inner) + [MainSegmentFaces(n, k, inner)];
    ConcatSnoc(prefix, MainStitch(n, k, inner), MainSegmentFaces(n, k, inner));
  }

  lemma FlangeRingsSnoc(prefix: seq<Vertex>, cfg: Config, k: nat)
    requires FlangeBuilt(cfg)
    ensures prefix + Concat(FlangeRings(cfg, k + 1)) == prefix + Concat(FlangeRings(cfg, k)) + FlangeRing(cfg, k)
  {
    assert FlangeRings(cfg, k + 1) == FlangeRings(cfg, k) + [FlangeRing(cfg, k)];
    ConcatSnoc(prefix, FlangeRings(cfg, k), FlangeRing(cfg, k));
  }

  lemma FlangeStitchSnoc(prefix: seq<Face>, start: int, n: nat, k: nat)
    requires k < n
    ensures prefix + Concat(FlangeStitch(start, n, k + 1))
         == prefix + Concat(FlangeStitch(start, n, k)) + FlangeSegmentFaces(start, n, k)
  {
    assert FlangeStitch(start, n, k + 1) == FlangeStitch(start, n, k) + [FlangeSegmentFaces(start, n, k)];
    ConcatSnoc(prefix, FlangeStitch(start, n, k), FlangeSegmentFaces(start, n, k));
  }

  /** The first loop of the main shell: appends ring after ring to `vertices`. */
  method SampleMainRings(cfg: Config, vertices: seq<Vertex>) returns (out: seq<Vertex>)
    requires MainBuilt(cfg)
    ensures out == vertices + Concat(MainRings(cfg, SegmentCount(cfg)))
  {
    var t := cfg.thickness.value;
    out := vertices;
    var segment := 0;
    while segment < cfg.segments
      invariant 0 <= segment <= SegmentCount(cfg)
      invariant out == vertices + Concat(MainRings(cfg, segment))
    {
      var xOuter := CosTerm(cfg.outerRadius, segment, cfg.segments);
      var yOuter := SinTerm(cfg.outerRadius, segment, cfg.segments);
      ghost var before := out;
      out := out + [Vertex(xOuter, yOuter, t / 2.0)];
      out := out + [Vertex(xOuter, yOuter, -t / 2.0)];
      ghost var ring := Pair(xOuter, yOuter, t / 2.0);
      assert out == before + ring;
      if Truthy(cfg.innerRadius) {
        var xInner := CosTerm(cfg.innerRadius.value, segment, cfg.segments);
        var yInner := SinTerm(cfg.innerRadius.value, segment, cfg.segments);
        out := out + [Vertex(xInner, yInner, t / 2.0)];
        out := out + [Vertex(xInner, yInner, -t / 2.0)];
        assert out == before + (ring + Pair(xInner, yInner, t / 2.0));
        ring := ring + Pair(xInner, yInner, t / 2.0);
      }
      assert ring == MainRing(cfg, segment);
      MainRingsSnoc(vertices, cfg, segment);
      segment := segment + 1;
    }
  }

  /** The body of the main shell's second loop: the faces joining ring `segment` to ring `nextSegment`. */
  method AppendSegmentFaces(faces: seq<Face>, segment: int, nextSegment: int, inner: bool) returns (out: seq<Face>)
    ensures out == faces + SegmentFaces(segment, nextSegment, inner)
  {
    out := faces;
    // Outer surface
    out := out + [Face(segment * 4, nextSegment * 4, nextSegment * 4 + 1)];
    out := out + [Face(segment * 4, nextSegment * 4 + 1, segment * 4 + 1)];
    ghost var block := OuterWall(0, segment, nextSegment);
    assert out == faces + block;
    // Inner surface
    if inner {
      out := out + [Face(segment * 4 + 2, nextSegment * 4 + 2, nextSegment * 4 + 3)];
      out := out + [Face(segment * 4 + 2, nextSegment * 4 + 3, segment * 4 + 3)];
      assert out == faces + (block + InnerWall(segment, nextSegment));
      block := block + InnerWall(segment, nextSegment);
    }
    // Top and bottom caps
    if inner {
      out := out + [Face(segment * 4, segment * 4 + 2, nextSegment * 4 + 2)];
      out := out + [Face(segment * 4, nextSegment * 4 + 2, nextSegment * 4)];
      assert out == faces + (block + TopCap(segment, nextSegment));
      block := block + TopCap(segment, nextSegment);
      out := out + [Face(segment * 4 + 1, nextSegment * 4 + 1, nextSegment * 4 + 3)];
      out := out + [Face(segment * 4 + 1, nextSegment * 4 + 3, segment * 4 + 3)];
      assert out == faces + (block + BottomCap(segment, nextSegment));
    }
  }

  /** The second loop of the main shell: appends the faces of segment after segment to `faces`. */
  method StitchMainShell(cfg: Config, faces: seq<Face>) returns (out: seq<Face>)
    ensures out == faces + Concat(MainStitch(SegmentCount(cfg), SegmentCount(cfg), HasInner(cfg)))
  {
    ghost var n := SegmentCount(cfg);
    ghost var inner := HasInner(cfg);
    out := faces;
    var segment := 0;
    while segment < cfg.segments
      invariant 0 <= segment <= n
      invariant out == faces + Concat(MainStitch(n, segment, inner))
    {
      var nextSegment := (segment + 1) % cfg.segments;
      NextRingModulo(segment, n);
      assert SegmentFaces(segment, nextSegment, inner) == MainSegmentFaces(n, segment, inner);
      out := AppendSegmentFaces(out, segment, nextSegment, Truthy(cfg.innerRadius));
      MainStitchSnoc(faces, n, segment, inner);
      segment := segment + 1;
    }
    assert segment == n;
  }

  /** The first loop of the flange: appends four vertices per segment to `vertices`. */
  method SampleFlangeRings(cfg: Config, vertices: seq<Vertex>) returns (out: seq<Vertex>)
    requires FlangeBuilt(cfg)
    ensures out == vertices + Concat(FlangeRings(cfg, SegmentCount(cfg)))
  {
    var r := cfg.flangeRadius.value;
    var t := cfg.flangeThickness.value;
    var bore := cfg.centerBoreRadius;
    out := vertices;
    var segment := 0;
    while segment < cfg.segments
      invariant 0 <= segment <= SegmentCount(cfg)
      invariant out == vertices + Concat(FlangeRings(cfg, segment))
    {
      var xOuter := CosTerm(r, segment, cfg.segments);
      var yOuter := SinTerm(r, segment, cfg.segments);
      var xInner := if Truthy(bore) then CosTerm(bore.value, segment, cfg.segments) else Zero;
      var yInner := if Truthy(bore) then SinTerm(bore.value, segment, cfg.segments) else Zero;
      ghost var before := out;
      out := out + [Vertex(xOuter, yOuter, t / 2.0)];
      out := out + [Vertex(xOuter, yOuter, -t / 2.0)];
      ghost var ring := Pair(xOuter, yOuter, t / 2.0);
      assert out == before + ring;
      out := out + [Vertex(xInner, yInner, t / 2.0)];
      out := out + [Vertex(xInner, yInner, -t / 2.0)];
      assert out == before + (ring + Pair(xInner, yInner, t / 2.0));
      assert ring + Pair(xInner, yInner, t / 2.0) == FlangeRing(cfg, segment);
      FlangeRingsSnoc(vertices, cfg, segment);
      segment := segment + 1;
    }
  }

  /** The second loop of the flange: appends its outer-wall faces, offset by `startIndex`. */
  method StitchFlange(cfg: Config, startIndex: int, faces: seq<Face>) returns (out: seq<Face>)
    ensures out == faces + Concat(FlangeStitch(startIndex, SegmentCount(cfg), SegmentCount(cfg)))
  {
    ghost var n := SegmentCount(cfg);
    out := faces;
    var segment := 0;
    while segment < cfg.segments
      invariant 0 <= segment <= n
      invariant out == faces + Concat(FlangeStitch(startIndex, n, segment))
    {
      var nextSegment := (segment + 1) % cfg.segments;
      NextRingModulo(segment, n);
      ghost var before := out;
      out := out + [Face(startIndex + segment * 4, startIndex + nextSegment * 4, startIndex + nextSegment * 4 + 1)];
      out := out + [Face(startIndex + segment * 4, startIndex + nextSegment * 4 + 1, startIndex + segment * 4 + 1)];
      assert out == before + FlangeSegmentFaces(startIndex, n, segment);
      FlangeStitchSnoc(faces, startIndex, n, segment);
      segment := segment + 1;
    }
  }

  /**
   * `generate_geometry`: the main shell (when a thickness is given) and then the
   * flange (when flange radius and thickness are truthy), both appended to the
   * same two buffers; the flange's indices start at the vertex count reached so far.
   */
  method GenerateGeometry(cfg: Config) returns (vertices: seq<Vertex>, faces: seq<Face>)
    ensures Mesh(vertices, faces) == Generate(cfg)
  {
    vertices := [];
    faces := [];
    if cfg.thickness.Some? {
      vertices := SampleMainRings(cfg, vertices);
      faces := StitchMainShell(cfg, faces);
    }
    assert Mesh(vertices, faces) == MainShell(cfg);
    if Truthy(cfg.flangeRadius) && Truthy(cfg.flangeThickness) {
      var startIndex := |vertices|;
      vertices := SampleFlangeRings(cfg, vertices);
      faces := StitchFlange(cfg, startIndex, faces);
    }
  }
}
