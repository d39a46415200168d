// The stroke objects (SketchTool and its PenTool subclass) as values, and the
// operations SketchView performs on one stroke: replaying a coordinate
// sample, copying (getToolObjectCopy), blanking for a split, restoring.

module Strokes {
  import opened Optional
  import opened Geometry

  /** SketchToolType: the tool a stroke was drawn with. */
  datatype ToolType =
    | Pen | Eraser | Line | Arrow
    | RectangleStroke | RectangleFill | EllipseStroke | EllipseFill
    | Stamp

  /** EraserTool derives from PenTool: both answer `is PenTool`. */
  predicate IsPenToolType(t: ToolType) {
    t == Pen || t == Eraser
  }

  /** One recorded touch triple (the Coordinates class of PenTool). */
  datatype Coordinates = Coordinates(previousPoint2: Point, previousPoint1: Point, currentPoint: Point)

  /** UIColor and PenTool's PenType are opaque tags in this model. */
  type Color = nat
  type PenType = nat

  const BLACK: Color := 0
  const NORMAL_PEN: PenType := 0

  /** A SketchTool object. `index` and `backupPath` are set only on a split
      marker: a blanked copy of a pen stroke that remembers its slot in the
      active list and the geometry it had there. */
  datatype Stroke = Stroke(
    tool: ToolType,
    path: Path,
    coordinates: seq<Coordinates>,
    lineColor: Color,
    lineWidth: real,
    lineAlpha: real,
    drawingPenType: PenType,
    index: Option<nat>,
    backupPath: Option<Path>)

  predicate IsPenTool(s: Stroke) { IsPenToolType(s.tool) }

  predicate IsSplitMarker(s: Stroke) { s.index.Some? }

  /** Split fields come in pairs, and only a blanked pen copy carries them. */
  predicate WellFormed(s: Stroke) {
    (s.index.Some? <==> s.backupPath.Some?) &&
    (s.index.Some? ==> s.tool == Pen && s.path == [])
  }

  /** toolWithCurrentSettings() followed by the three style assignments. */
  function NewTool(tool: ToolType, color: Color, width: real, alpha: real): (r: Stroke)
    ensures WellFormed(r) && !IsSplitMarker(r)
    ensures r.tool == tool && r.path == [] && r.coordinates == []
  {
    Stroke(tool, [], [], color, width, alpha, NORMAL_PEN, None, None)
  }

  /** The Bezier smoother: a quadratic curve between the midpoints of the two
      legs of the triple, pulled towards the middle point. */
  function Smooth(c: Coordinates): Segment {
    Quad(Mid(c.previousPoint2, c.previousPoint1), c.previousPoint1, Mid(c.previousPoint1, c.currentPoint))
  }

  /** The path a sequence of samples smooths into. */
  function PathOf(cs: seq<Coordinates>): (p: Path)
    ensures |p| == |cs|
  {
    seq(|cs|, i requires 0 <= i < |cs| => Smooth(cs[i]))
  }

  /** PenTool's createBezierRenderingBox on a stroke: record the sample and
      append its smoothed segment. */
  function AddSample(s: Stroke, c: Coordinates): (r: Stroke)
    ensures |r.path| == |s.path| + 1 && r.path[..|s.path|] == s.path
    ensures r.coordinates == s.coordinates + [c]
    ensures r.(path := s.path, coordinates := s.coordinates) == s
  {
    s.(path := s.path + [Smooth(c)], coordinates := s.coordinates + [c])
  }

  /** Replaying samples one after the other. */
  function Replay(s: Stroke, cs: seq<Coordinates>): Stroke {
    if cs == [] then s else AddSample(Replay(s, cs[..|cs| - 1]), cs[|cs| - 1])
  }

  /** Replaying extends the samples by exactly `cs` and the path by exactly
      their smoothed segments; nothing else about the stroke changes. */
  lemma {:induction false} ReplayAppends(s: Stroke, cs: seq<Coordinates>)
    ensures Replay(s, cs) == s.(path := s.path + PathOf(cs), coordinates := s.coordinates + cs)
  {
    if cs != [] {
      var n := |cs| - 1;
      ReplayAppends(s, cs[..n]);
      assert cs[..n] + [cs[n]] == cs;
      assert PathOf(cs[..n]) + [Smooth(cs[n])] == PathOf(cs);
    }
  }

  /** getToolObjectCopy: a fresh PenTool with the same path, style, samples
      and split fields. */
  function ToolObjectCopy(s: Stroke): (r: Stroke)
    ensures r.tool == Pen && r.(tool := s.tool) == s
  {
    Stroke(Pen, s.path, s.coordinates, s.lineColor, s.lineWidth, s.lineAlpha,
           s.drawingPenType, s.index, s.backupPath)
  }

  /** The marker the eraser puts in slot `i`: a copy of the stroke there,
      blanked, remembering the slot and the geometry. */
  function SplitMarker(s: Stroke, i: nat): (r: Stroke)
    ensures WellFormed(r) && IsSplitMarker(r)
    ensures r.index == Some(i) && r.backupPath == Some(s.path) && r.path == []
    ensures r.coordinates == s.coordinates && r.lineColor == s.lineColor
    ensures r.lineWidth == s.lineWidth && r.lineAlpha == s.lineAlpha
  {
    ToolObjectCopy(s).(index := Some(i), backupPath := Some(s.path), path := [])
  }

  /** What undo writes back into slot `index`: a copy of the slot's stroke
      with the marker's saved geometry and no split fields. */
  function Restored(slot: Stroke, marker: Stroke): (r: Stroke)
    requires marker.backupPath.Some?
    ensures WellFormed(r) && !IsSplitMarker(r) && r.tool == Pen
    ensures r.path == marker.backupPath.value
    ensures r.coordinates == slot.coordinates && r.lineColor == slot.lineColor
  {
    ToolObjectCopy(slot).(path := marker.backupPath.value, index := None, backupPath := None)
  }

  /** Restoring a marker from itself gives back the pen stroke it blanked. */
  lemma RestoreUndoesSplit(s: Stroke, i: nat)
    requires s.tool == Pen && !IsSplitMarker(s) && WellFormed(s)
    ensures Restored(SplitMarker(s, i), SplitMarker(s, i)) == s
  {
  }

  /** copyPointsArray on one stroke: new colour, path rebuilt from the stored
      samples, and a split marker blanked again with the rebuilt path saved. */
  function Recolored(s: Stroke, color: Color): (r: Stroke)
    ensures r.coordinates == s.coordinates && r.lineColor == color
    ensures r.(lineColor := s.lineColor, path := s.path, backupPath := s.backupPath) == s
    ensures IsSplitMarker(s) ==> r.path == [] && r.backupPath == Some(PathOf(s.coordinates))
    ensures !IsSplitMarker(s) ==> r.path == PathOf(s.coordinates) && r.backupPath == s.backupPath
    ensures WellFormed(s) ==> WellFormed(r)
  {
    var blank := s.(lineColor := color, path := [], coordinates := []);
    ReplayAppends(blank, s.coordinates);
    assert [] + PathOf(s.coordinates) == PathOf(s.coordinates);
    assert [] + s.coordinates == s.coordinates;
    var rebuilt := Replay(blank, s.coordinates);
    if s.index.Some? then rebuilt.(backupPath := Some(rebuilt.path), path := []) else rebuilt
  }

  /** Rebuilding twice is rebuilding once, so a marker that sits in two slots
      of a list ends up the same whichever slot is processed last. */
  lemma RecoloredIdempotent(s: Stroke, color: Color)
    ensures Recolored(Recolored(s, color), color) == Recolored(s, color)
  {
  }
}
