/**
 * What the generated mesh looks like as a graph of indices: how many vertices
 * and faces each shell contributes, which indices its faces use, which rings a
 * face joins, and when the faces stay inside the vertex buffer.
 */
module Topology {
  import opened Geometry
  import opened Blocks
  import opened ModelMaking

  /** Vertices per main-shell ring. */
  function MainStride(cfg: Config): nat
  {
    if HasInner(cfg) then 4 else 2
  }

  /** Faces per main-shell segment. */
  function MainFacesPerSegment(cfg: Config): nat
  {
    if HasInner(cfg) then 8 else 2
  }

  /**
   * Every index of f lies in stride-4 slot block s or t of the shell starting
   * at `start`, i.e. in start + 4s .. start + 4s + 3 or start + 4t .. start + 4t + 3.
   * These blocks are the rings s and t only where rings have 4 vertices.
   */
  predicate JoinsSlotBlocks(f: Face, start: int, s: int, t: int)
  {
    var a, b, c := (f.a - start) / 4, (f.b - start) / 4, (f.c - start) / 4;
    (a == s || a == t) && (b == s || b == t) && (c == s || c == t)
  }

  lemma MainRingsUniform(cfg: Config, count: nat)
    requires MainBuilt(cfg)
    ensures Uniform(MainRings(cfg, count), MainStride(cfg))
    ensures HasInner(cfg) ==> Uniform(MainRings(cfg, count), 4)
    ensures !HasInner(cfg) ==> Uniform(MainRings(cfg, count), 2)
  {
  }

  lemma MainStitchUniform(cfg: Config)
    ensures Uniform(MainStitch(SegmentCount(cfg), SegmentCount(cfg), HasInner(cfg)), MainFacesPerSegment(cfg))
  {
  }

  /**
   * The main shell is built exactly when a thickness is given; it has 4
   * vertices and 8 faces per segment with a truthy inner radius, 2 and 2
   * without one.
   */
  lemma MainShellSize(cfg: Config)
    ensures |MainShell(cfg).vertices| ==
      if !MainBuilt(cfg) then 0 else if HasInner(cfg) then 4 * SegmentCount(cfg) else 2 * SegmentCount(cfg)
    ensures |MainShell(cfg).faces| ==
      if !MainBuilt(cfg) then 0 else if HasInner(cfg) then 8 * SegmentCount(cfg) else 2 * SegmentCount(cfg)
  {
    if MainBuilt(cfg) {
      var n := SegmentCount(cfg);
      MainRingsUniform(cfg, n);
      MainStitchUniform(cfg);
      if HasInner(cfg) {
        ConcatLength(MainRings(cfg, n), 4);
        ConcatLength(MainStitch(n, n, true), 8);
      } else {
        ConcatLength(MainRings(cfg, n), 2);
        ConcatLength(MainStitch(n, n, false), 2);
      }
    }
  }

  /** The flange is built exactly when flange radius and thickness are truthy; 4 vertices and 2 faces per segment. */
  lemma FlangeShellSize(cfg: Config, start: int)
    ensures |FlangeShell(cfg, start).vertices| == if FlangeBuilt(cfg) then 4 * SegmentCount(cfg) else 0
    ensures |FlangeShell(cfg, start).faces| == if FlangeBuilt(cfg) then 2 * SegmentCount(cfg) else 0
  {
    if FlangeBuilt(cfg) {
      var n := SegmentCount(cfg);
      assert Uniform(FlangeRings(cfg, n), 4);
      ConcatLength(FlangeRings(cfg, n), 4);
      assert Uniform(FlangeStitch(start, n, n), 2);
      ConcatLength(FlangeStitch(start, n, n), 2);
    }
  }

  /** A quad's faces use only its four corners. */
  lemma QuadCorners(p: int, q: int, r: int, t: int, f: Face)
    requires f in Quad(p, q, r, t)
    ensures f.a in {p, q, r, t} && f.b in {p, q, r, t} && f.c in {p, q, r, t}
  {
  }

  /** The outer vertices of ring s of n are outer slots of the shell at `start`. */
  lemma OuterSlotAt(start: int, s: int, n: int, offset: nat)
    requires 0 <= s < n && offset < 2
    ensures OuterSlot(Slot(start, s, offset), start, n)
  {
    assert Slot(start, s, offset) - start == 4 * s + offset;
    assert (4 * s + offset) % 4 == offset;
  }

  /** The outer wall between rings s and next of n uses only outer slots of the shell at `start`. */
  lemma OuterWallSlots(start: int, s: int, next: int, n: int, f: Face)
    requires 0 <= s < n && 0 <= next < n
    requires f in OuterWall(start, s, next)
    ensures OuterSlots(f, start, n)
  {
    OuterSlotAt(start, s, n, OuterTop);
    OuterSlotAt(start, s, n, OuterBottom);
    OuterSlotAt(start, next, n, OuterTop);
    OuterSlotAt(start, next, n, OuterBottom);
    QuadCorners(Slot(start, s, OuterTop), Slot(start, next, OuterTop),
                Slot(start, next, OuterBottom), Slot(start, s, OuterBottom), f);
  }

  /** The faces joining rings s and next of n use slots 0 .. 4n - 1; only outer slots without an inner ring. */
  lemma SegmentFacesSlots(s: int, next: int, n: int, inner: bool, f: Face)
    requires 0 <= s < n && 0 <= next < n
    requires f in SegmentFaces(s, next, inner)
    ensures IndicesIn(f, 0, 4 * n)
    ensures !inner ==> OuterSlots(f, 0, n)
  {
    if f in OuterWall(0, s, next) {
      OuterWallSlots(0, s, next, n, f);
    } else if f in InnerWall(s, next) {
      QuadCorners(Slot(0, s, InnerTop), Slot(0, next, InnerTop), Slot(0, next, InnerBottom), Slot(0, s, InnerBottom), f);
    } else if f in TopCap(s, next) {
      QuadCorners(Slot(0, s, OuterTop), Slot(0, s, InnerTop), Slot(0, next, InnerTop), Slot(0, next, OuterTop), f);
    } else {
      assert f in BottomCap(s, next);
      QuadCorners(Slot(0, s, OuterBottom), Slot(0, next, OuterBottom), Slot(0, next, InnerBottom), Slot(0, s, InnerBottom), f);
    }
  }

  /**
   * Every face of main segment s indexes only slot blocks s and next. With an
   * inner radius these blocks are exactly rings s and next (see
   * `MainRingLayout`); without one, rings are 2 vertices wide and slot block s
   * is not ring s.
   */
  lemma SegmentFacesJoin(s: int, next: int, inner: bool)
    ensures forall f :: f in SegmentFaces(s, next, inner) ==> JoinsSlotBlocks(f, 0, s, next)
  {
    forall f | f in SegmentFaces(s, next, inner)
      ensures JoinsSlotBlocks(f, 0, s, next)
    {
      assert (4 * s) / 4 == s && (4 * s + 1) / 4 == s && (4 * s + 2) / 4 == s && (4 * s + 3) / 4 == s;
      assert (4 * next) / 4 == next && (4 * next + 1) / 4 == next;
      assert (4 * next + 2) / 4 == next && (4 * next + 3) / 4 == next;
    }
  }

  /**
   * Every main-shell index is one of the stride-4 slots 0 .. 4N - 1; with a
   * truthy inner radius they all fall inside the main shell's own vertices,
   * without one they are outer slots 4s and 4s + 1 (although only 2N
   * vertices were appended).
   */
  lemma MainFaceSlots(cfg: Config)
    ensures forall f :: f in MainShell(cfg).faces ==> IndicesIn(f, 0, 4 * SegmentCount(cfg))
    ensures HasInner(cfg) ==> forall f :: f in MainShell(cfg).faces ==> IndicesIn(f, 0, |MainShell(cfg).vertices|)
    ensures !HasInner(cfg) ==> forall f :: f in MainShell(cfg).faces ==> OuterSlots(f, 0, SegmentCount(cfg))
  {
    if MainBuilt(cfg) {
      MainShellSize(cfg);
      StitchSlots(SegmentCount(cfg), HasInner(cfg));
    }
  }

  lemma StitchFaceSlots(n: nat, inner: bool, f: Face)
    requires f in Concat(MainStitch(n, n, inner))
    ensures IndicesIn(f, 0, 4 * n)
    ensures !inner ==> OuterSlots(f, 0, n)
  {
    ConcatMember(MainStitch(n, n, inner), f);
    var k :| 0 <= k < n && f in MainStitch(n, n, inner)[k];
    assert MainStitch(n, n, inner)[k] == MainSegmentFaces(n, k, inner);
    NextRingModulo(k, n);
    SegmentFacesSlots(k, NextRing(k, n), n, inner, f);
  }

  lemma StitchSlots(n: nat, inner: bool)
    ensures forall f :: f in Concat(MainStitch(n, n, inner)) ==> IndicesIn(f, 0, 4 * n)
    ensures !inner ==> forall f :: f in Concat(MainStitch(n, n, inner)) ==> OuterSlots(f, 0, n)
  {
    forall f | f in Concat(MainStitch(n, n, inner))
      ensures IndicesIn(f, 0, 4 * n) && (!inner ==> OuterSlots(f, 0, n))
    {
      StitchFaceSlots(n, inner, f);
    }
  }

  /** Every flange face uses only outer slots of the flange's own block [start, start + 4N). */
  lemma FlangeFaceSlots(cfg: Config, start: int)
    ensures forall f :: f in FlangeShell(cfg, start).faces ==> OuterSlots(f, start, SegmentCount(cfg))
    ensures forall f :: f in FlangeShell(cfg, start).faces ==> IndicesIn(f, start, start + 4 * SegmentCount(cfg))
  {
    var n := SegmentCount(cfg);
    forall f | f in FlangeShell(cfg, start).faces
      ensures OuterSlots(f, start, n)
    {
      ConcatMember(FlangeStitch(start, n, n), f);
      var k :| 0 <= k < n && f in FlangeStitch(start, n, n)[k];
      NextRingModulo(k, n);
      OuterWallSlots(start, k, NextRing(k, n), n, f);
    }
  }

  /**
   * Without an inner radius the main shell still indexes with stride 4: for
   * N >= 2 the second face of the last segment is (4N - 4, 1, 4N - 3), and
   * 4N - 3 is not below the 2N vertices the shell appended.
   */
  lemma CaplessMainShellOverrun(cfg: Config)
    requires MainBuilt(cfg) && !HasInner(cfg) && SegmentCount(cfg) >= 2
    ensures |MainShell(cfg).vertices| == 2 * SegmentCount(cfg)
    ensures |MainShell(cfg).faces| == 2 * SegmentCount(cfg)
    ensures MainShell(cfg).faces[2 * SegmentCount(cfg) - 1]
         == Face(4 * SegmentCount(cfg) - 4, 1, 4 * SegmentCount(cfg) - 3)
    ensures 4 * SegmentCount(cfg) - 3 >= |MainShell(cfg).vertices|
  {
    var n := SegmentCount(cfg);
    MainShellSize(cfg);
    assert MainShell(cfg).faces == Concat(MainStitch(n, n, false));
    LastBareFace(n);
  }

  /** The second face of the last segment of a main shell without inner rings closes the loop at ring 0. */
  lemma LastBareFace(n: nat)
    requires n >= 1
    ensures 2 * n - 1 < |Concat(MainStitch(n, n, false))|
    ensures Concat(MainStitch(n, n, false))[2 * n - 1] == Face(4 * n - 4, 1, 4 * n - 3)
  {
    var faces := Concat(MainStitch(n, n, false));
    assert NextRing(n - 1, n) == 0;
    BareSegmentBlock(n, n - 1);
    assert faces[2 * n - 1] == faces[2 * (n - 1) .. 2 * (n - 1) + 2][1];
  }

  /** With a single ring, the outer slots are just 0 and 1. */
  lemma SingleRingSlot(i: int)
    requires OuterSlot(i, 0, 1)
    ensures 0 <= i < 2
  {
  }

  /** A face of the generated mesh is in bounds whenever the main shell cannot overrun. */
  lemma FaceInBounds(cfg: Config, f: Face)
    requires f in Generate(cfg).faces
    requires !MainBuilt(cfg) || SegmentCount(cfg) <= 1 || HasInner(cfg) || FlangeBuilt(cfg)
    ensures IndicesIn(f, 0, |Generate(cfg).vertices|)
  {
    var main := MainShell(cfg);
    var start := |main.vertices|;
    var flange := FlangeShell(cfg, start);
    MainShellSize(cfg);
    FlangeShellSize(cfg, start);
    assert |Generate(cfg).vertices| == start + |flange.vertices|;
    if f in main.faces {
      MainFaceSlots(cfg);
      if HasInner(cfg) {
        assert IndicesIn(f, 0, start);
      } else if FlangeBuilt(cfg) {
        assert IndicesIn(f, 0, 4 * SegmentCount(cfg));
      } else {
        assert OuterSlots(f, 0, SegmentCount(cfg));
        SingleRingSlot(f.a);
        SingleRingSlot(f.b);
        SingleRingSlot(f.c);
      }
    } else {
      assert f in flange.faces;
      FlangeFaceSlots(cfg, start);
    }
  }

  /**
   * A main shell without an inner radius, with two or more segments and no
   * flange after it, produces a face that indexes past the vertex buffer.
   */
  lemma OverrunWithoutFlange(cfg: Config)
    requires MainBuilt(cfg) && SegmentCount(cfg) >= 2 && !HasInner(cfg) && !FlangeBuilt(cfg)
    ensures exists f :: f in Generate(cfg).faces && !IndicesIn(f, 0, |Generate(cfg).vertices|)
  {
    var n := SegmentCount(cfg);
    var main := MainShell(cfg);
    CaplessMainShellOverrun(cfg);
    FlangeShellSize(cfg, |main.vertices|);
    var f := main.faces[2 * n - 1];
    assert f in Generate(cfg).faces;
    assert !IndicesIn(f, 0, |Generate(cfg).vertices|);
  }

  /**
   * A main shell without an inner radius, with two or more segments and a
   * flange after it: the main shell's last face indexes past the main shell's
   * own vertices, into the flange's vertex block.
   */
  lemma MainOverrunIntoFlange(cfg: Config)
    requires MainBuilt(cfg) && SegmentCount(cfg) >= 2 && !HasInner(cfg) && FlangeBuilt(cfg)
    ensures 2 * SegmentCount(cfg) - 1 < |Generate(cfg).faces|
    ensures Generate(cfg).faces[2 * SegmentCount(cfg) - 1]
         == Face(4 * SegmentCount(cfg) - 4, 1, 4 * SegmentCount(cfg) - 3)
    ensures |MainShell(cfg).vertices| <= 4 * SegmentCount(cfg) - 3 < |Generate(cfg).vertices|
  {
    var n := SegmentCount(cfg);
    var main := MainShell(cfg);
    CaplessMainShellOverrun(cfg);
    FlangeShellSize(cfg, |main.vertices|);
    assert Generate(cfg).faces[2 * n - 1] == main.faces[2 * n - 1];
  }

  /**
   * For an odd N >= 3 in the same situation, the first face of main segment
   * (N - 1) / 2, at position N - 1, uses the inner top and inner bottom
   * vertices of flange ring 0, which no flange face uses: the two shells then
   * share vertices.
   */
  lemma MainFaceHitsFlangeInner(cfg: Config)
    requires MainBuilt(cfg) && !HasInner(cfg) && FlangeBuilt(cfg)
    requires SegmentCount(cfg) >= 3 && SegmentCount(cfg) % 2 == 1
    ensures |MainShell(cfg).vertices| == 2 * SegmentCount(cfg)
    ensures SegmentCount(cfg) - 1 < |MainShell(cfg).faces| <= |Generate(cfg).faces|
    ensures Generate(cfg).faces[SegmentCount(cfg) - 1]
         == Face(2 * SegmentCount(cfg) - 2,
                 Slot(|MainShell(cfg).vertices|, 0, InnerTop),
                 Slot(|MainShell(cfg).vertices|, 0, InnerBottom))
  {
    var n := SegmentCount(cfg);
    var m := (n - 1) / 2;
    assert 2 * m == n - 1;
    var main := MainShell(cfg);
    MainShellSize(cfg);
    assert main.faces == Concat(MainStitch(n, n, false));
    assert NextRing(m, n) == m + 1;
    BareSegmentBlock(n, m);
    assert main.faces[2 * m] == main.faces[2 * m .. 2 * m + 2][0];
    assert Generate(cfg).faces[n - 1] == main.faces[n - 1];
  }

  /**
   * Every face index of the generated mesh is below the vertex count exactly
   * when the main shell is absent, has at most one segment, has an inner
   * radius, or is followed by a flange whose vertices absorb the overrun.
   */
  lemma AllFacesInBounds(cfg: Config)
    ensures (forall f :: f in Generate(cfg).faces ==> IndicesIn(f, 0, |Generate(cfg).vertices|))
        <==> (!MainBuilt(cfg) || SegmentCount(cfg) <= 1 || HasInner(cfg) || FlangeBuilt(cfg))
  {
    if !MainBuilt(cfg) || SegmentCount(cfg) <= 1 || HasInner(cfg) || FlangeBuilt(cfg) {
      forall f | f in Generate(cfg).faces
        ensures IndicesIn(f, 0, |Generate(cfg).vertices|)
      {
        FaceInBounds(cfg, f);
      }
    } else {
      OverrunWithoutFlange(cfg);
    }
  }

  /**
   * The faces of main segment s (outer wall, inner wall, top cap, bottom cap)
   * sit at positions [8s, 8s + 8) with a truthy inner radius and [2s, 2s + 2)
   * without one.
   */
  lemma MainSegmentStitch(cfg: Config, s: nat)
    requires MainBuilt(cfg) && s < SegmentCount(cfg)
    ensures HasInner(cfg) ==>
      8 * s + 8 <= |MainShell(cfg).faces| &&
      MainShell(cfg).faces[8 * s .. 8 * s + 8] == MainSegmentFaces(SegmentCount(cfg), s, true)
    ensures !HasInner(cfg) ==>
      2 * s + 2 <= |MainShell(cfg).faces| &&
      MainShell(cfg).faces[2 * s .. 2 * s + 2] == MainSegmentFaces(SegmentCount(cfg), s, false)
  {
    var n := SegmentCount(cfg);
    assert MainShell(cfg).faces == Concat(MainStitch(n, n, HasInner(cfg)));
    if HasInner(cfg) {
      InnerSegmentBlock(n, s);
    } else {
      BareSegmentBlock(n, s);
    }
  }

  lemma InnerSegmentBlock(n: nat, s: nat)
    requires s < n
    ensures 8 * s + 8 <= |Concat(MainStitch(n, n, true))|
    ensures Concat(MainStitch(n, n, true))[8 * s .. 8 * s + 8] == MainSegmentFaces(n, s, true)
  {
    var blocks := MainStitch(n, n, true);
    assert Uniform(blocks, 8);
    assert blocks[s] == MainSegmentFaces(n, s, true);
    ConcatBlock(blocks, 8, s);
  }

  lemma BareSegmentBlock(n: nat, s: nat)
    requires s < n
    ensures 2 * s + 2 <= |Concat(MainStitch(n, n, false))|
    ensures Concat(MainStitch(n, n, false))[2 * s .. 2 * s + 2] == MainSegmentFaces(n, s, false)
  {
    var blocks := MainStitch(n, n, false);
    assert Uniform(blocks, 2);
    assert blocks[s] == MainSegmentFaces(n, s, false);
    ConcatBlock(blocks, 2, s);
  }

  /** Positions i and i + 1 of v hold a top vertex at +half and the bottom vertex below it at -half. */
  predicate PairAt(v: seq<Vertex>, i: int, x: Coord, y: Coord, half: real)
  {
    0 <= i && i + 1 < |v| && v[i] == Vertex(x, y, half) && v[i + 1] == Vertex(x, y, -half)
  }

  /**
   * Ring s of the main shell: an outer top/bottom pair sharing the planar point
   * at the outer radius, at +t/2 and -t/2, then, with a truthy inner radius
   * only, the same pair at the inner radius.
   */
  lemma MainRingRoles(cfg: Config, s: int)
    requires MainBuilt(cfg)
    ensures var ring, n, half := MainRing(cfg, s), cfg.segments, cfg.thickness.value / 2.0;
      |ring| == MainStride(cfg) &&
      PairAt(ring, OuterTop, CosTerm(cfg.outerRadius, s, n), SinTerm(cfg.outerRadius, s, n), half) &&
      (HasInner(cfg) ==>
        PairAt(ring, InnerTop, CosTerm(cfg.innerRadius.value, s, n), SinTerm(cfg.innerRadius.value, s, n), half))
  {
  }

  /** The vertices of main ring s sit at positions [4s, 4s + 4) with a truthy inner radius and [2s, 2s + 2) without one. */
  lemma MainRingLayout(cfg: Config, s: nat)
    requires MainBuilt(cfg) && s < SegmentCount(cfg)
    ensures HasInner(cfg) ==>
      4 * s + 4 <= |MainShell(cfg).vertices| &&
      MainShell(cfg).vertices[4 * s .. 4 * s + 4] == MainRing(cfg, s)
    ensures !HasInner(cfg) ==>
      2 * s + 2 <= |MainShell(cfg).vertices| &&
      MainShell(cfg).vertices[2 * s .. 2 * s + 2] == MainRing(cfg, s)
  {
    var n := SegmentCount(cfg);
    assert MainShell(cfg).vertices == Concat(MainRings(cfg, n));
    if HasInner(cfg) {
      InnerRingBlock(cfg, n, s);
    } else {
      BareRingBlock(cfg, n, s);
    }
  }

  lemma InnerRingBlock(cfg: Config, n: nat, s: nat)
    requires MainBuilt(cfg) && HasInner(cfg) && s < n
    ensures 4 * s + 4 <= |Concat(MainRings(cfg, n))|
    ensures Concat(MainRings(cfg, n))[4 * s .. 4 * s + 4] == MainRing(cfg, s)
  {
    var rings := MainRings(cfg, n);
    assert rings[s] == MainRing(cfg, s);
    MainRingsUniform(cfg, n);
    ConcatBlock(rings, 4, s);
  }

  lemma BareRingBlock(cfg: Config, n: nat, s: nat)
    requires MainBuilt(cfg) && !HasInner(cfg) && s < n
    ensures 2 * s + 2 <= |Concat(MainRings(cfg, n))|
    ensures Concat(MainRings(cfg, n))[2 * s .. 2 * s + 2] == MainRing(cfg, s)
  {
    var rings := MainRings(cfg, n);
    assert rings[s] == MainRing(cfg, s);
    MainRingsUniform(cfg, n);
    ConcatBlock(rings, 2, s);
  }

  /**
   * Ring s of the flange: an outer pair at the flange radius, at +t/2 and
   * -t/2 of the flange thickness, then an inner pair sharing one planar point
   * which is on the axis (x = y = 0) exactly when the center bore radius is
   * falsy, and otherwise the point at the bore radius.
   */
  lemma FlangeRingRoles(cfg: Config, s: int)
    requires FlangeBuilt(cfg)
    ensures var ring, n, half := FlangeRing(cfg, s), cfg.segments, cfg.flangeThickness.value / 2.0;
      var r, bore := cfg.flangeRadius.value, cfg.centerBoreRadius;
      |ring| == 4 &&
      PairAt(ring, OuterTop, CosTerm(r, s, n), SinTerm(r, s, n), half) &&
      PairAt(ring, InnerTop, ring[2].x, ring[2].y, half) &&
      ((ring[2].x == Zero && ring[2].y == Zero) <==> !Truthy(bore)) &&
      (Truthy(bore) ==> ring[2].x == CosTerm(bore.value, s, n) && ring[2].y == SinTerm(bore.value, s, n))
  {
  }

  /** The vertices of flange ring s sit at positions [4s, 4s + 4) of the flange block. */
  lemma FlangeRingLayout(cfg: Config, start: int, s: nat)
    requires FlangeBuilt(cfg) && s < SegmentCount(cfg)
    ensures 4 * s + 4 <= |FlangeShell(cfg, start).vertices|
    ensures FlangeShell(cfg, start).vertices[4 * s .. 4 * s + 4] == FlangeRing(cfg, s)
  {
    var n := SegmentCount(cfg);
    assert FlangeShell(cfg, start).vertices == Concat(FlangeRings(cfg, n));
    FlangeRingBlock(cfg, n, s);
  }

  lemma FlangeRingBlock(cfg: Config, n: nat, s: nat)
    requires FlangeBuilt(cfg) && s < n
    ensures 4 * s + 4 <= |Concat(FlangeRings(cfg, n))|
    ensures Concat(FlangeRings(cfg, n))[4 * s .. 4 * s + 4] == FlangeRing(cfg, s)
  {
    var rings := FlangeRings(cfg, n);
    assert Uniform(rings, 4);
    assert rings[s] == FlangeRing(cfg, s);
    ConcatBlock(rings, 4, s);
  }

  /**
   * The two outer-wall faces of flange segment s sit at positions [2s, 2s + 2)
   * of the flange's faces and join ring s to ring (s + 1) % N.
   */
  lemma FlangeSegmentStitch(cfg: Config, start: int, s: nat)
    requires FlangeBuilt(cfg) && s < SegmentCount(cfg)
    ensures 2 * s + 2 <= |FlangeShell(cfg, start).faces|
    ensures FlangeShell(cfg, start).faces[2 * s .. 2 * s + 2] == OuterWall(start, s, (s + 1) % SegmentCount(cfg))
  {
    var n := SegmentCount(cfg);
    assert FlangeShell(cfg, start).faces == Concat(FlangeStitch(start, n, n));
    FlangeStitchBlock(start, n, s);
    NextRingModulo(s, n);
  }

  lemma FlangeStitchBlock(start: int, n: nat, s: nat)
    requires s < n
    ensures 2 * s + 2 <= |Concat(FlangeStitch(start, n, n))|
    ensures Concat(FlangeStitch(start, n, n))[2 * s .. 2 * s + 2] == FlangeSegmentFaces(start, n, s)
  {
    var blocks := FlangeStitch(start, n, n);
    assert Uniform(blocks, 2);
    assert blocks[s] == FlangeSegmentFaces(start, n, s);
    ConcatBlock(blocks, 2, s);
  }

  /** The last flange face closes the loop at flange ring 0: it is (start + 4N - 4, start + 1, start + 4N - 3). */
  lemma LastFlangeFace(cfg: Config, start: int)
    requires FlangeBuilt(cfg) && SegmentCount(cfg) >= 1
    ensures 2 * SegmentCount(cfg) - 1 < |FlangeShell(cfg, start).faces|
    ensures FlangeShell(cfg, start).faces[2 * SegmentCount(cfg) - 1]
         == Face(start + 4 * SegmentCount(cfg) - 4, start + 1, start + 4 * SegmentCount(cfg) - 3)
  {
    var n := SegmentCount(cfg);
    var faces := FlangeShell(cfg, start).faces;
    assert n % n == 0;
    FlangeSegmentStitch(cfg, start, n - 1);
    assert faces[2 * n - 1] == faces[2 * (n - 1) .. 2 * (n - 1) + 2][1];
  }

  /** No flange face uses the inner pair of any flange ring: those vertices are emitted but unreferenced. */
  lemma FlangeInnerUnreferenced(cfg: Config, start: int, s: nat)
    requires FlangeBuilt(cfg) && s < SegmentCount(cfg)
    ensures forall f :: f in FlangeShell(cfg, start).faces ==>
      !References(f, Slot(start, s, InnerTop)) && !References(f, Slot(start, s, InnerBottom))
  {
    FlangeFaceSlots(cfg, start);
    forall f | f in FlangeShell(cfg, start).faces
      ensures !References(f, Slot(start, s, InnerTop)) && !References(f, Slot(start, s, InnerBottom))
    {
      assert OuterSlots(f, start, SegmentCount(cfg));
      InnerSlotNotOuter(start, s, SegmentCount(cfg), f.a);
      InnerSlotNotOuter(start, s, SegmentCount(cfg), f.b);
      InnerSlotNotOuter(start, s, SegmentCount(cfg), f.c);
    }
  }

  /** An outer slot is never the inner top or inner bottom slot of a ring. */
  lemma InnerSlotNotOuter(start: int, s: int, n: int, i: int)
    requires OuterSlot(i, start, n)
    ensures i != Slot(start, s, InnerTop) && i != Slot(start, s, InnerBottom)
  {
    assert (4 * s + 2) % 4 == 2 && (4 * s + 3) % 4 == 3;
  }

  /**
   * Assembly: the flange's vertices and faces follow the main shell's, the
   * vertex count is the main count plus 4N for a flange, and every flange face
   * index lies in [main count, total count).
   */
  lemma AssemblyOffsets(cfg: Config)
    ensures var main := MainShell(cfg);
      var mesh := Generate(cfg);
      |main.vertices| <= |mesh.vertices| && |main.faces| <= |mesh.faces| &&
      mesh.vertices[..|main.vertices|] == main.vertices &&
      mesh.faces[..|main.faces|] == main.faces &&
      |mesh.vertices| == |main.vertices| + (if FlangeBuilt(cfg) then 4 * SegmentCount(cfg) else 0) &&
      |mesh.faces| == |main.faces| + (if FlangeBuilt(cfg) then 2 * SegmentCount(cfg) else 0)
    ensures var main := MainShell(cfg);
      var mesh := Generate(cfg);
      forall i :: |main.faces| <= i < |mesh.faces| ==> IndicesIn(mesh.faces[i], |main.vertices|, |mesh.vertices|)
  {
    var main := MainShell(cfg);
    var start := |main.vertices|;
    var flange := FlangeShell(cfg, start);
    var mesh := Generate(cfg);
    FlangeShellSize(cfg, start);
    FlangeFaceSlots(cfg, start);
    assert mesh.vertices[..start] == main.vertices;
    assert mesh.faces[..|main.faces|] == main.faces;
    forall i | |main.faces| <= i < |mesh.faces|
      ensures IndicesIn(mesh.faces[i], start, |mesh.vertices|)
    {
      assert mesh.faces[i] == flange.faces[i - |main.faces|];
      assert mesh.faces[i] in flange.faces;
    }
  }

  /**
   * Shell gating with at least one segment: a thickness of 0 still builds the
   * main shell, an inner radius of 0 gives no caps, and a flange radius or
   * flange thickness of 0 gives no flange.
   */
  lemma Gating(cfg: Config)
    requires SegmentCount(cfg) > 0
    ensures |MainShell(cfg).vertices| > 0 <==> cfg.thickness.Some?
    ensures |MainShell(cfg).faces| > 2 * SegmentCount(cfg) <==> cfg.thickness.Some? && Truthy(cfg.innerRadius)
    ensures |FlangeShell(cfg, 0).vertices| > 0 <==>
      cfg.flangeRadius.Some? && cfg.flangeRadius.value != 0.0 &&
      cfg.flangeThickness.Some? && cfg.flangeThickness.value != 0.0
  {
    MainShellSize(cfg);
    FlangeShellSize(cfg, 0);
  }

  /** With no segments the loops never run: no vertices, no faces, and no modulo by zero. */
  lemma NoSegmentsNoMesh(cfg: Config)
    requires cfg.segments <= 0
    ensures Generate(cfg) == Mesh([], [])
  {
    assert SegmentCount(cfg) == 0;
  }

  /** Configurations that differ only in the vent, bearing-seat and bolt options give the same mesh. */
  lemma ReservedOptionsIgnored(c1: Config, c2: Config)
    requires c1.outerRadius == c2.outerRadius && c1.innerRadius == c2.innerRadius
    requires c1.thickness == c2.thickness && c1.segments == c2.segments
    requires c1.flangeRadius == c2.flangeRadius && c1.flangeThickness == c2.flangeThickness
    requires c1.centerBoreRadius == c2.centerBoreRadius
    ensures Generate(c1) == Generate(c2)
  {
    var n := SegmentCount(c1);
    if MainBuilt(c1) {
      assert MainRings(c1, n) == MainRings(c2, n);
    }
    if FlangeBuilt(c1) {
      assert FlangeRings(c1, n) == FlangeRings(c2, n);
    }
  }
}
