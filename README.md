# Hyperspace rotation viewer, modelled in Dafny

`main.py` shows a wireframe hypercube of dimension 2 to 7, turned by one
slider per rotation angle and projected onto a canvas. This project models
the parts of that program that compute something:

- `degrees_of_freedom`: the number of angles a rotation of `d`-space needs.
- `matrix`: builds the rotation. Two nested loops visit the coordinate
  planes `(dim-1, dim)` in a fixed order (`pas` = 1 .. d-1, and within a
  pass `dim` = pas down to 1). The next parameter goes to each plane. The
  result is premultiplied by the Givens rotation of that plane.
- `cube_edges`: the edges of the cube with vertices at ±0.5, grouped by
  direction.
- `to_screen` and `Shape.draw`: each endpoint is rotated, its first two
  coordinates are kept, and they are scaled and truncated to a pixel.
- The state that `main` keeps between events: the dimension, which sliders
  are shown, where the sliders are, and what is on the canvas.
  - `show_sliders`, `change_dimension`, `update_shape`, the two buttons and
    the slider callbacks are the methods of a class.

Files:

- `matrices.dfy`: square matrices over exact reals and the facts about sums
  the proofs need.
- `rotation.dfy`: `degrees_of_freedom`, the plane schedule, the multiplier
  and `matrix`.
- `cube.dfy`: `cube_edges`.
- `projection.dfy`: `to_screen` and `Shape.draw`.
- `viewer.dfy`: the viewer state.

Each angle is given as the pair (cos θ, sin θ) of exact reals, not as a
slider value turned into radians. A pair is a unit angle when
cos² + sin² = 1.

Parameter count:

- The code fails, with `StopIteration` from `next`, only when there are too
  few parameters.
- Parameters beyond `degrees_of_freedom(d)` are never read.
- `BuildRotation` follows the code. Its `Exhausted` result stands for the
  exception.

Small dimensions:

- `cube_edges` accepts every dimension: dimension 1 gives one edge and
  dimension 0 gives none. `CubeEdges` has no precondition.
- `Shape.draw` fails on a vertex of the wrong length, and on one with fewer
  than two coordinates. That is the `BadVertex` outcome.

## Model

| member | source | states |
|---|---|---|
| Rotation.DegreesOfFreedom | main.py:17-18 | twice the result is d·(d-1), so the floor division by 2 loses nothing |
| Rotation.DegreesOfFreedomStep | main.py:17-18 | one dimension more adds d degrees of freedom, the length of one more pass |
| Rotation.DegreesOfFreedomMonotone | main.py:17-18 | a larger dimension never has fewer degrees of freedom |
| Rotation.Schedule | main.py:36-37 | every plane visited has `1 <= dim < d`, so both rows `dim-1` and `dim` exist |
| Rotation.ScheduleLength | main.py:36-37 | the loops visit exactly `degrees_of_freedom(d)` planes |
| Rotation.ScheduleAt | main.py:36-37 | step `|Schedule(p)| + t` is the plane `dim = p - t`: passes in increasing `pas`, each descending from `pas` to 1 |
| Rotation.BuildMultiplier | main.py:38-43 | the identity with the four entries [dim-1][dim-1] = c, [dim][dim-1] = s, [dim-1][dim] = -s and [dim][dim] = c assigned in place equals the Givens matrix |
| Rotation.GivensEntryAction | main.py:38-44 | premultiplying by the multiplier rotates rows dim-1 and dim and leaves every other row as it was |
| Rotation.GivensOfZero | main.py:38-43 | the multiplier of the zero angle is the identity |
| Rotation.GivensPreservesGram | main.py:44 | premultiplying by a unit-angle multiplier keeps the product of the transpose with the matrix (the column dot products) |
| Rotation.GivensIsOrthogonal | main.py:38-43 | with cos² + sin² = 1 the multiplier is orthogonal |
| Rotation.RotatePass | main.py:37-44 | one pass takes the next `pas` angles in order; it fails exactly when the parameters run out during the pass; otherwise the result is premultiplied by those `pas` steps |
| Rotation.BuildRotation | main.py:29-46 | `matrix` fails exactly when there are fewer than `degrees_of_freedom(d)` parameters; otherwise it returns the product of the multipliers of the schedule, the k-th using parameter k, the later ones on the left |
| Rotation.RotationOfZeros | main.py:35-44 | all angles zero give the identity |
| Rotation.RotationIsOrthogonal | main.py:35-44 | unit angles give an orthogonal matrix |
| Rotation.ComposeReadsPrefix | main.py:30-39 | the first k steps read only the first k parameters |
| Rotation.RotationIgnoresSurplus | main.py:30-39 | parameters beyond `degrees_of_freedom(d)` do not change the matrix |
| Rotation.CompositionOrderMatters | main.py:44 | the order of premultiplication matters: two quarter turns of 3-space composed in the two orders differ |
| Cube.SignTuples | main.py:66 | `product([-0.5, 0.5], repeat=k)` has 2^k tuples, each of length k |
| Cube.SignTuplesAreVertices | main.py:66 | every tuple has all its coordinates in {-0.5, 0.5} |
| Cube.SignTuplesComplete | main.py:66 | every ±0.5 vector of length k is one of the tuples |
| Cube.SignTuplesDistinct | main.py:66 | no tuple occurs twice |
| Cube.Insert | main.py:67-68 | `pre[0:i] + (x,) + pre[i:]` has x at i, the entries of pre before i, and the rest shifted by one |
| Cube.InsertKeepsDistinct | main.py:67-68 | inserting the same value into two different tuples keeps them different |
| Cube.MakeEdgeIsAlong | main.py:67-68 | each appended pair is an edge along `direction`: -0.5 then 0.5 there, equal elsewhere, all coordinates ±0.5 |
| Cube.EdgeThroughRemoved | main.py:67-68 | every edge along a direction is the one built from its other coordinates |
| Cube.EdgesAlong | main.py:66-68 | the inner loop appends 2^(d-1) edges, the j-th built from the j-th tuple |
| Cube.CubeEdges | main.py:63-69 | the nested loops append exactly the edges of `CubeEdgeList`, direction by direction |
| Cube.CubeEdgeCount | main.py:63-69 | there are d·2^(d-1) edges |
| Cube.CubeEdgeOrder | main.py:65-68 | the edge through tuple j along `direction` is at position direction·2^(d-1) + j |
| Cube.CubeEdgesSound | main.py:63-69 | every listed pair is an edge of the d-cube |
| Cube.CubeEdgesComplete | main.py:63-69 | every edge of the d-cube is listed |
| Cube.CubeEdgesDistinct | main.py:63-69 | no edge is listed twice |
| Projection.Truncate | main.py:26 | `int` on a float drops the fractional part toward zero |
| Projection.TruncateOdd | main.py:26 | truncating a negated number negates the truncation |
| Projection.ToScreen | main.py:24-26 | each pixel coordinate lies on the same side of the centre as the coordinate, and its distance from the centre is the scaled coordinate's distance less under one pixel (truncation toward the centre) |
| Projection.ToScreenMirror | main.py:24-26 | opposite points land on pixels mirrored through the centre of the view |
| Projection.ApplyIdentity | main.py:58-59 | `Apply`, the model of `np.matmul(mat, v)`, leaves a vector unchanged under the identity |
| Projection.ProjectIdentity | main.py:58-59 | `Project`, the model of `np.matmul(mat, v)[:2]` unpacked as `x, y`, gives the first two coordinates of v under the identity |
| Projection.ProjectReadsTwoRows | main.py:58-59 | `Project` reads only rows 0 and 1 of the matrix: two matrices that agree there project every vector alike |
| Projection.FitCount | main.py:57-59 | the edges before the count can be rotated and unpacked; the one at the count cannot |
| Projection.PictureAt | main.py:57-60 | line t of the picture is the line of edge t |
| Projection.DrawEdges | main.py:57-60 | the loop over the edges fails exactly when some edge does not fit; otherwise it yields one line per edge, in order |
| Projection.Draw | main.py:54-60 | `draw` fails for too few parameters exactly when `matrix` does, fails on a bad vertex exactly when one is present, and otherwise draws the picture under the rotation of the parameters |
| Projection.CubeEdgesFit | main.py:63-69 | from dimension 2 up, every cube endpoint can be drawn |
| Projection.EdgeSegmentAtRest | main.py:55-59 | with all angles zero, `EdgeSegment` (the line `draw` makes for one edge) is the pixel image of the first two coordinates of each endpoint |
| Projection.HalfToScreen | main.py:24-26 | a point with coordinates ±0.5 lands 35 pixels either side of the centre |
| Projection.CubeAtRest | main.py:54-69 | at rest every line of the cube joins two corners of the 70-pixel square about the centre |
| Viewer.MaxDofIs21 | main.py:21 | `MAX_DOF` is 21 |
| Viewer.SlidersSuffice | main.py:13-21 | every reachable dimension needs at least one and at most `MAX_DOF` angles |
| Viewer.CubePicture | main.py:79-81 | `update_shape` draws d·2^(d-1) lines |
| Viewer.HiddenSlidersIgnored | main.py:79-94 | sliders at or beyond `degrees_of_freedom(dimension)`, the hidden ones, do not change the picture |
| Viewer.WholePictureAtRest | main.py:79-81 | with all sliders at zero, every line joins two corners of the 70-pixel square |
| Viewer.Viewer.constructor | main.py:73-117 | the viewer starts in dimension 3 with every slider variable at the zero angle (line 85), the right sliders shown and the cube at rest drawn |
| Viewer.Viewer.ShowSliders | main.py:89-94 | slider i is shown exactly when i < `degrees_of_freedom(dimension)`; nothing else changes |
| Viewer.Viewer.UpdateShape | main.py:79-81 | the canvas gets the cube of the current dimension under all `MAX_DOF` slider angles, and the drawing cannot fail |
| Viewer.Viewer.ChangeDimension | main.py:102-108 | a dimension outside 2..7 leaves the state unchanged; one inside becomes the dimension, and the sliders and the picture follow it |
| Viewer.Viewer.Minus | main.py:110-111 | "-" lowers the dimension by one unless it is 2 |
| Viewer.Viewer.Plus | main.py:113-114 | "+" raises the dimension by one unless it is 7 |
| Viewer.Viewer.MoveSlider | main.py:86-87 | moving a slider changes only its angle and redraws; a hidden slider leaves the picture as it was |

## Left out

- The tkinter window, frames, label, button and scale widgets, and `mainloop`. Events become calls of the `Viewer` methods. The label text set in `change_dimension` is not modelled.
- The canvas calls `surface.delete('all')` and `surface.create_line`. The canvas becomes the `picture` field, which holds the list of lines a drawing produces.
- Projection.Draw: on `BadVertex` it does not say which lines reached the canvas before the exception; in the viewer this case never arises.
- `math.cos`, `math.sin` and the conversion of a slider value `p` in [0, 1] to the angle `p · 2π` are not modelled, because exact reals have no trigonometry. Each angle is given as its (cos, sin) pair. The slider range and its 0.01 resolution are not modelled.
- Floating-point rounding in numpy and in `to_screen` is not modelled. Products and sums are exact, and `Truncate` acts on exact reals.
- Viewer.Viewer.MoveSlider: any of the `MAX_DOF` sliders may be moved, including hidden ones that the window would not let the user reach; the contract then proves that moving a hidden slider changes nothing on the canvas.
- Cross-polytope and simplex shapes, a choice of shape kind, and random phase offsets for the sliders do not occur in `main.py`, so they are not modelled.
- The generator `angle()` is modelled by a cursor into the parameter sequence (the index of the next angle). `RotatePass` holds the inner loop of `matrix` and `DrawEdges` the loop of `draw`; both are split out of their callers.
