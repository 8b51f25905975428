/** The state `main` of main.py keeps between events, apart from its tkinter
    widgets: the current dimension, which sliders are packed, the slider
    positions (as the angles they stand for) and the lines on the canvas.
    `show_sliders`, `change_dimension`, `update_shape` and the callbacks of
    the two buttons and of a slider are its methods. */
module Viewer {
  import opened Rotation
  import opened Cube
  import opened Projection

  const StartDimension: int := 3
  const MaxDimension: int := 7
  const MinDimension: int := 2

  /** One slider per angle of the largest rotation. */
  const MaxDof: int := DegreesOfFreedom(MaxDimension)

  lemma MaxDofIs21()
    ensures MaxDof == 21
  {
  }

  /** Every dimension the viewer can reach needs at least one slider and
      no more sliders than there are. */
  lemma SlidersSuffice(d: int)
    requires MinDimension <= d <= MaxDimension
    ensures 1 <= DegreesOfFreedom(d) <= MaxDof
  {
    DegreesOfFreedomMonotone(d, MaxDimension);
    DegreesOfFreedomMonotone(MinDimension, d);
  }

  /** What `update_shape` draws: the `d`-cube under the rotation of the
      slider angles. */
  function CubePicture(d: nat, angles: seq<Angle>): (r: seq<Segment>)
    requires 2 <= d && DegreesOfFreedom(d) <= |angles|
    ensures |r| == d * Pow2(d - 1)
  {
    CubeEdgesFit(d);
    CubeEdgeCount(d);
    Picture(RotationMatrix(d, angles), d, CubeEdgeList(d), |CubeEdgeList(d)|)
  }

  /** Sliders that are not shown do not move the picture. */
  lemma HiddenSlidersIgnored(d: nat, a1: seq<Angle>, a2: seq<Angle>)
    requires 2 <= d && DegreesOfFreedom(d) <= |a1| && DegreesOfFreedom(d) <= |a2|
    requires forall i :: 0 <= i < DegreesOfFreedom(d) ==> a1[i] == a2[i]
    ensures CubePicture(d, a1) == CubePicture(d, a2)
  {
    ScheduleLength(d);
    ComposeReadsPrefix(d, Schedule(d), a1, a2, |Schedule(d)|);
  }

  /** With every slider at zero, every line of the picture joins two corners
      of the 70-pixel square about the centre of the view. */
  lemma PictureAtRest(d: nat, angles: seq<Angle>, t: nat)
    requires 2 <= d && DegreesOfFreedom(d) <= |angles|
    requires forall k :: 0 <= k < DegreesOfFreedom(d) ==> angles[k] == Zero
    requires t < |CubePicture(d, angles)|
    ensures AtRestCorner(CubePicture(d, angles)[t].from) && AtRestCorner(CubePicture(d, angles)[t].to)
  {
    CubeEdgesFit(d);
    CubeEdgeCount(d);
    PictureAt(RotationMatrix(d, angles), d, CubeEdgeList(d), |CubeEdgeList(d)|, t);
    CubeAtRest(d, angles, t);
  }

  /** `n` sliders at zero: a `tk.DoubleVar` starts at 0.0. */
  function Zeros(n: nat): (r: seq<Angle>)
    ensures |r| == n && forall k :: 0 <= k < n ==> r[k] == Zero
  {
    seq(n, k => Zero)
  }

  lemma WholePictureAtRest(d: nat, angles: seq<Angle>)
    requires 2 <= d && DegreesOfFreedom(d) <= |angles|
    requires forall k :: 0 <= k < DegreesOfFreedom(d) ==> angles[k] == Zero
    ensures forall t :: 0 <= t < |CubePicture(d, angles)| ==>
      AtRestCorner(CubePicture(d, angles)[t].from) && AtRestCorner(CubePicture(d, angles)[t].to)
  {
    forall t | 0 <= t < |CubePicture(d, angles)|
      ensures AtRestCorner(CubePicture(d, angles)[t].from) && AtRestCorner(CubePicture(d, angles)[t].to)
    {
      PictureAtRest(d, angles, t);
    }
  }

  class Viewer {
    /** The `nonlocal dimension` of `main`. */
    var dimension: int
    /** `shown[i]`: slider `i` is packed. */
    var shown: seq<bool>
    /** The angle each slider stands for. */
    var angles: seq<Angle>
    /** The lines currently on the canvas. */
    var picture: seq<Segment>

    /** The dimension is in range, exactly the first `degrees_of_freedom`
        sliders are shown, and the canvas shows the cube for the current
        dimension and sliders. */
    predicate Valid()
      reads this
    {
      MinDimension <= dimension <= MaxDimension
      && |shown| == MaxDof && |angles| == MaxDof
      && (forall i :: 0 <= i < MaxDof ==> (shown[i] <==> i < DegreesOfFreedom(dimension)))
      && DegreesOfFreedom(dimension) <= MaxDof
      && picture == CubePicture(dimension, angles)
    }

    /** The start of `main`: dimension 3, every slider at zero, the
        sliders shown and the cube drawn. */
    constructor()
      ensures Valid()
      ensures dimension == StartDimension
      ensures angles == Zeros(MaxDof)
      ensures forall k :: 0 <= k < MaxDof ==> angles[k] == Zero
      ensures forall t :: 0 <= t < |picture| ==> AtRestCorner(picture[t].from) && AtRestCorner(picture[t].to)
    {
      dimension := StartDimension;
      angles := Zeros(MaxDof);
      shown := seq(MaxDof, i => false);
      picture := [];
      new;
      ShowSliders();
      UpdateShape();
      WholePictureAtRest(dimension, angles);
    }

    /** `show_sliders`: pack slider `i` exactly when `i` is below the degrees
        of freedom of the current dimension. */
    method ShowSliders()
      requires |shown| == MaxDof
      modifies this
      ensures |shown| == MaxDof
      ensures forall i :: 0 <= i < MaxDof ==> (shown[i] <==> i < DegreesOfFreedom(dimension))
      ensures dimension == old(dimension) && angles == old(angles) && picture == old(picture)
    {
      var i := 0;
      while i < MaxDof
        invariant 0 <= i <= MaxDof && |shown| == MaxDof
        invariant forall k :: 0 <= k < i ==> (shown[k] <==> k < DegreesOfFreedom(dimension))
        invariant dimension == old(dimension) && angles == old(angles) && picture == old(picture)
      {
        shown := shown[i := i < DegreesOfFreedom(dimension)];
        i := i + 1;
      }
    }

    /** `update_shape`: draw the cube of the current dimension under the
        current sliders.  All `MaxDof` slider values are passed, which is
        always enough, so the drawing never fails. */
    method UpdateShape()
      requires MinDimension <= dimension <= MaxDimension && |angles| == MaxDof
      modifies this
      ensures dimension == old(dimension) && angles == old(angles) && shown == old(shown)
      ensures DegreesOfFreedom(dimension) <= |angles|
      ensures picture == CubePicture(dimension, angles)
    {
      SlidersSuffice(dimension);
      CubeEdgesFit(dimension);
      var edges := CubeEdges(dimension);
      var drawing := Draw(Shape(dimension, edges), angles);
      assert drawing.Drawn?;
      picture := drawing.lines;
    }

    /** `change_dimension(new_dimension)`: a dimension outside
        `MinDimension .. MaxDimension` is ignored; any other is taken, and the
        sliders and the picture follow it. */
    method ChangeDimension(n: int)
      requires Valid()
      modifies this
      ensures Valid()
      ensures MinDimension <= n <= MaxDimension ==> dimension == n
      ensures !(MinDimension <= n <= MaxDimension) ==>
        dimension == old(dimension) && shown == old(shown) && picture == old(picture)
      ensures angles == old(angles)
    {
      if MinDimension <= n <= MaxDimension {
        dimension := n;
        SlidersSuffice(dimension);
        ShowSliders();
        UpdateShape();
      }
    }

    /** The "-" button: one dimension fewer, unless already at the least. */
    method Minus()
      requires Valid()
      modifies this
      ensures Valid()
      ensures dimension == if old(dimension) > MinDimension then old(dimension) - 1 else old(dimension)
      ensures angles == old(angles)
    {
      ChangeDimension(dimension - 1);
    }

    /** The "+" button: one dimension more, unless already at the most. */
    method Plus()
      requires Valid()
      modifies this
      ensures Valid()
      ensures dimension == if old(dimension) < MaxDimension then old(dimension) + 1 else old(dimension)
      ensures angles == old(angles)
    {
      ChangeDimension(dimension + 1);
    }

    /** Moving slider `i` to the angle `a`: the slider's variable takes the
        new value and its `command`, `update_shape`, redraws.  Only the shown
        sliders can change the picture. */
    method MoveSlider(i: int, a: Angle)
      requires Valid() && 0 <= i < MaxDof
      modifies this
      ensures Valid()
      ensures angles == old(angles)[i := a]
      ensures dimension == old(dimension) && shown == old(shown)
      ensures !shown[i] ==> picture == old(picture)
    {
      angles := angles[i := a];
      UpdateShape();
      if !shown[i] {
        HiddenSlidersIgnored(dimension, old(angles), angles);
      }
    }
  }
}
