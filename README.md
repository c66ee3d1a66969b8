# Rotationally symmetric part mesh generator, modelled in Dafny

`generate_geometry` builds a triangle mesh for a rotationally symmetric part
from a few radii, two thicknesses and a segment count. It fills one vertex
buffer and one face buffer, in up to two stages:

- **Main shell.** It is built when a thickness is given, even a thickness of 0.
  For each of the N segments it appends a ring of vertices: an outer top/bottom
  pair at the outer radius, at +t/2 and -t/2. When the inner radius is truthy,
  an inner pair follows. It then appends, per segment:
  - two outer-wall faces;
  - with a truthy inner radius, also two inner-wall faces, two top-cap faces
    and two bottom-cap faces.
- **Flange.** It is built when the flange radius and the flange thickness are
  both truthy. It appends four vertices per segment:
  - an outer pair at the flange radius;
  - an inner pair at the center bore radius, or on the axis when the bore
    radius is falsy (absent or 0).
  It then appends two outer-wall faces per segment, offset by the vertex count
  reached before the flange.

Face indices always use a stride of 4 per ring (`4s + k`), and the faces of the
last segment wrap around to ring 0 (`(s + 1) % N`).

The project has three modules:

- `Geometry` (geometry.dfy) holds the values: symbolic coordinates, vertices,
  index-triple faces, and the ring positions with the `Slot` index formula.
- `ModelMaking` (model_making.dfy) holds two things:
  - specification functions that describe each buffer as per-segment blocks
    laid end to end;
  - the generator itself, as methods with the source's four `for` loops,
    appending to `seq` buffers. Each loop method is proved to produce exactly
    its specification, and `GenerateGeometry` is proved to produce
    `Generate(cfg)`.
- `Topology` (topology.dfy) proves what the mesh looks like:
  - counts and layout;
  - which indices faces use;
  - wrap-around;
  - flange vertices that no flange face uses;
  - gating;
  - assembly offsets;
  - exactly when every face index stays inside the vertex buffer.

`Blocks` (blocks.dfy) has the generic lemmas about flattening blocks.

Python truthiness of an optional number is `Truthy(o)`: the value is present and
non-zero. `thickness is not None` is `Some?`.

A caller would expect two invariants of the returned mesh. The first is that
every face index is below the number of vertices. The second is that the main
shell and the flange never share vertices. The code keeps neither in general.
Without an inner radius, a ring has only 2 vertices, but the faces still index
with stride 4. With two or more segments, some main-shell face points past the
main shell's own vertices:

- With no flange appended afterwards, that index points past the end of the
  vertex buffer. `Topology.CaplessMainShellOverrun` exhibits such a face, and
  `Topology.AllFacesInBounds` states exactly when every index is in bounds.
- With a flange, the index lands inside the flange's vertex block, as
  `Topology.MainOverrunIntoFlange` shows.
- For an odd segment count N of at least 3, a main-shell face uses the inner
  top and inner bottom vertices of flange ring 0 (`Topology.MainFaceHitsFlangeInner`).
  No flange face ever uses those vertices (`Topology.FlangeInnerUnreferenced`).

The model follows the code.

## Model

| member | source | states |
|---|---|---|
| ModelMaking.GenerateGeometry | model_making.py:40-99 | the returned vertex and face buffers are exactly `Generate(cfg)`: the main shell (if built), then the flange (if built) with indices offset by the main shell's vertex count |
| ModelMaking.SampleMainRings | model_making.py:44-57 | the first main-shell loop appends ring 0 .. N-1 in order: outer top and bottom, then inner top and bottom only for a truthy inner radius; nothing for N <= 0 |
| ModelMaking.StitchMainShell | model_making.py:59-74 | the second main-shell loop appends the faces of segment 0 .. N-1 in order, each segment joining ring s to ring (s + 1) mod N |
| ModelMaking.AppendSegmentFaces | model_making.py:61-74 | one iteration appends the outer wall, then (inner radius truthy only) the inner wall, top cap and bottom cap, each as two triangles of one quad with stride-4 indices |
| ModelMaking.SampleFlangeRings | model_making.py:79-90 | the first flange loop appends four vertices per ring; the inner pair is at the bore radius when it is truthy and on the axis otherwise |
| ModelMaking.StitchFlange | model_making.py:92-95 | the second flange loop appends two outer-wall faces per segment, every index offset by the start index |
| ModelMaking.NextRingModulo | model_making.py:60 | `(s + 1) % N` is the next ring: s + 1, and ring 0 after the last ring; it is always a valid ring |
| Topology.MainShellSize | model_making.py:44-74 | the main shell has 4N vertices and 8N faces with a truthy inner radius, 2N and 2N without one, and nothing without a thickness |
| Topology.FlangeShellSize | model_making.py:78-95 | the flange has 4N vertices and 2N faces when built, and nothing otherwise |
| Topology.MainRingRoles | model_making.py:46-57 | a main ring is an outer pair sharing x, y at z = +t/2 and -t/2, followed (inner radius truthy only) by an inner pair sharing x, y at the same heights |
| Topology.MainRingLayout | model_making.py:45-57 | ring s of the main shell occupies positions [4s, 4s + 4) with a truthy inner radius and [2s, 2s + 2) without one |
| Topology.FlangeRingRoles | model_making.py:81-90 | a flange ring is an outer pair at the flange radius, then an inner pair sharing x, y; that point is on the axis exactly when the bore radius is falsy, and otherwise it is the bore-radius sample |
| Topology.FlangeRingLayout | model_making.py:80-90 | ring s of the flange occupies positions [4s, 4s + 4) of the flange's vertices |
| Topology.MainSegmentStitch | model_making.py:59-74 | the faces of segment s occupy positions [8s, 8s + 8) (outer wall, inner wall, top cap, bottom cap) with a truthy inner radius and [2s, 2s + 2) without one |
| Topology.SegmentFacesJoin | model_making.py:60-74 | every face of segment s indexes only the stride-4 slot blocks s and next (indices 4s .. 4s + 3 and 4·next .. 4·next + 3); these blocks are rings s and next only with a truthy inner radius, since without one rings are 2 vertices wide |
| Topology.MainFaceSlots | model_making.py:59-74 | every main-shell face index lies in [0, 4N); with an inner radius all of them lie below the main vertex count; without one they are all outer slots 4s or 4s + 1 |
| Topology.FlangeFaceSlots | model_making.py:92-95 | every flange face index lies in [start, start + 4N) and is an outer slot start + 4s or start + 4s + 1 |
| Topology.FlangeSegmentStitch | model_making.py:92-95 | the two faces of flange segment s occupy positions [2s, 2s + 2) of the flange's faces and are the outer wall joining ring s to ring (s + 1) % N, offset by the start index |
| Topology.LastFlangeFace | model_making.py:92-95 | the last flange face closes the loop at flange ring 0: it is (start + 4N - 4, start + 1, start + 4N - 3) |
| Topology.FlangeInnerUnreferenced | model_making.py:84-95 | no flange face references the inner top or inner bottom vertex of any flange ring (main-shell faces can; see `MainFaceHitsFlangeInner`) |
| Topology.LastBareFace | model_making.py:59-63 | without an inner radius, the last face closes the loop at ring 0: it is (4N - 4, 1, 4N - 3) |
| Topology.CaplessMainShellOverrun | model_making.py:53-63 | with a thickness, no inner radius and N >= 2, the main shell has 2N vertices and 2N faces, and its last face uses index 4N - 3, which is at least 2N |
| Topology.MainOverrunIntoFlange | model_making.py:44-99 | with a thickness, no inner radius, N >= 2 and a flange, the main shell's last face (4N - 4, 1, 4N - 3) uses an index at or past the main shell's vertex count but below the total: a flange vertex |
| Topology.MainFaceHitsFlangeInner | model_making.py:59-99 | in that case with an odd N >= 3, face N - 1 of the mesh is (2N - 2, 2N + 2, 2N + 3): it uses the inner top and inner bottom vertices of flange ring 0 |
| Topology.OverrunWithoutFlange | model_making.py:44-99 | in that case with no flange after it, the returned mesh has a face with an index at or beyond the vertex count |
| Topology.FaceInBounds | model_making.py:44-99 | when there is no main shell, N <= 1, an inner radius, or a flange, each face's indices are below the vertex count |
| Topology.AllFacesInBounds | model_making.py:44-99 | all face indices are below the vertex count if and only if there is no main shell, N <= 1, the inner radius is truthy, or a flange is built |
| Topology.AssemblyOffsets | model_making.py:78-99 | the mesh starts with the main shell's vertices and faces; the flange adds 4N vertices and 2N faces; every flange face index lies in [main vertex count, total vertex count) |
| Topology.Gating | model_making.py:44-78 | with N >= 1: the main shell has vertices exactly when a thickness is given (even 0); it has caps exactly when the inner radius is truthy; the flange has vertices exactly when flange radius and flange thickness are both present and non-zero |
| Topology.NoSegmentsNoMesh | model_making.py:45-95 | a segment count of 0 or less gives an empty mesh |
| Topology.ReservedOptionsIgnored | model_making.py:4-18 | the vent, bearing-seat and bolt options do not influence the mesh |

## Left out

- Trigonometry and floating point: coordinates are symbolic terms (`CosTerm(r, s, N)` stands for r·cos(2πs/N)). The model does not compute or round them, and it does not prove that top and bottom rings line up numerically beyond sharing the same term.
- The z coordinate is an exact `real` `t / 2`, not a float. NaN, which Python treats as truthy, is not represented.
- The default value of `segments` (100) is not modelled: every `Config` gives the segment count explicitly.
- Non-integer or non-numeric `segments`, and non-numeric radii: the model takes an integer segment count and real radii. A non-positive count runs no loop, as `range` does.
- The one Python function is split into four loop methods (`SampleMainRings`, `StitchMainShell`, `SampleFlangeRings`, `StitchFlange`) and a driver. The buffers are `seq` values that each method extends and returns, not one shared list mutated by reference.
- Vertex tuples and face lists are datatypes. The source's tuple/list distinction is not modelled.
- Watertightness, manifoldness and winding (outward normals) are not proved. Only the index structure and the quad-split order are modelled.
- The vent, bearing-seat and bolt options are accepted and shown to be ignored. No geometry for them exists in the source.
- File export and mesh validation are not part of this model.
