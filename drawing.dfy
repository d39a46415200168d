// What a gesture does to the canvas: touchesBegan creates and places the
// new object, a tracked touchesMoved feeds the current object one sample (or,
// for the eraser, extends it and runs the split step), and finishDrawing
// empties the redo buffer.

module Drawing {
  import opened Optional
  import opened Geometry
  import opened Strokes
  import opened History
  import opened Eraser
  import opened MoveCap

  /** The one touch of an event that the view reads: where it was and where it is. */
  datatype Touch = Touch(previousLocation: Point, location: Point)

  /** The public drawing settings of the view. */
  datatype Settings = Settings(
    lineColor: Color,
    lineWidth: real,
    lineAlpha: real,
    drawTool: ToolType,
    drawingPenType: PenType)

  /** The object touchesBegan creates: toolWithCurrentSettings() with the
      current style, and for a PenTool the current pen type. */
  function BeganTool(s: Settings): (r: Stroke)
    ensures WellFormed(r) && !IsSplitMarker(r)
    ensures r.tool == s.drawTool && r.path == [] && r.coordinates == []
    ensures r.lineColor == s.lineColor && r.lineWidth == s.lineWidth && r.lineAlpha == s.lineAlpha
    ensures r.drawingPenType == (if IsPenToolType(s.drawTool) then s.drawingPenType else NORMAL_PEN)
  {
    var t := NewTool(s.drawTool, s.lineColor, s.lineWidth, s.lineAlpha);
    if IsPenToolType(s.drawTool) then t.(drawingPenType := s.drawingPenType) else t
  }

  /** touchesBegan on the lists: the eraser is kept out of the active list,
      every other tool is appended, and only the pen sets the save flag. */
  function Begin(c: Canvas, s: Settings): (r: Canvas)
    requires Valid(c)
    ensures Valid(r) && r.tools == c.tools + [BeganTool(s)] && r.bufferArray == c.bufferArray
    ensures r.pathArray == (if s.drawTool == Eraser then c.pathArray else c.pathArray + [|c.tools|])
    ensures r.hasChanges == (c.hasChanges || s.drawTool == Pen)
  {
    var h := |c.tools|;
    var tools := c.tools + [BeganTool(s)];
    if s.drawTool == Eraser then c.(tools := tools)
    else if s.drawTool == Pen then Canvas(tools, c.pathArray + [h], c.bufferArray, true)
    else c.(tools := tools, pathArray := c.pathArray + [h])
  }

  /** A pen stroke can be undone as soon as it has begun: undo takes exactly
      the new stroke off the active list and onto the buffer. */
  lemma BeginPenThenUndo(c: Canvas, s: Settings)
    requires Valid(c) && s.drawTool == Pen
    ensures UndoSafe(Begin(c, s))
    ensures var u := Undo(Begin(c, s));
      u.pathArray == c.pathArray && u.bufferArray == c.bufferArray + [|c.tools|] && u.hasChanges
  {
    var b := Begin(c, s);
    assert b.pathArray[..|b.pathArray| - 1] == c.pathArray;
  }

  /** A line, arrow, shape or stamp stroke is appended to the active list,
      and undo does not take it off again: it only sets the flag. */
  lemma BeginShapeThenUndo(c: Canvas, s: Settings)
    requires Valid(c) && !IsPenToolType(s.drawTool)
    ensures Begin(c, s).pathArray == c.pathArray + [|c.tools|]
    ensures UndoSafe(Begin(c, s)) && Undo(Begin(c, s)) == Begin(c, s).(hasChanges := true)
  {
    UndoKeepsNonPenStroke(Begin(c, s));
  }

  /** The eraser touches neither list when it begins. */
  lemma BeginEraserKeepsLists(c: Canvas, s: Settings)
    requires Valid(c) && s.drawTool == Eraser
    ensures Begin(c, s).pathArray == c.pathArray && Begin(c, s).bufferArray == c.bufferArray
    ensures Begin(c, s).hasChanges == c.hasChanges
  {
  }

  /** The object that the current-tool handle may name. */
  predicate CurrentOk(c: Canvas, current: Option<nat>) {
    current.Some? ==> current.value < |c.tools| && !IsSplitMarker(c.tools[current.value])
  }

  /** The current object is a PenTool: `currentTool as? PenTool` succeeds. */
  predicate CurrentIsPen(c: Canvas, current: Option<nat>) {
    current.Some? && current.value < |c.tools| && IsPenTool(c.tools[current.value])
  }

  /** The eraser branch is taken: a PenTool is current, the active list is
      not empty and the eraser is the drawing tool. */
  predicate ErasesOn(c: Canvas, current: Option<nat>, drawTool: ToolType) {
    CurrentIsPen(c, current) && |c.pathArray| > 0 && drawTool == Eraser
  }

  /** The eraser's own path extended by the new smoothed segment, before the
      split loop runs. */
  function Extended(c: Canvas, h: nat, sample: Coordinates): (r: Canvas)
    requires Valid(c) && h < |c.tools| && !IsSplitMarker(c.tools[h])
    ensures Valid(r) && |r.tools| == |c.tools| && r.pathArray == c.pathArray && r.bufferArray == c.bufferArray
    ensures r.tools[h].path == c.tools[h].path + [Smooth(sample)]
  {
    c.(tools := c.tools[h := c.tools[h].(path := c.tools[h].path + [Smooth(sample)])])
  }

  /** A stroke whose box meets the eraser's newest segment is hit by the
      split step that follows, since the eraser's whole path box covers
      that segment's box. */
  lemma NewSegmentHitErases(c: Canvas, h: nat, sample: Coordinates, i: nat)
    requires Valid(c) && h < |c.tools| && !IsSplitMarker(c.tools[h])
    requires i < |c.pathArray| && c.pathArray[i] != h && IsPenTool(c.tools[c.pathArray[i]])
    requires Intersects(BoundingBox(c.tools[c.pathArray[i]].path), SegmentBox(Smooth(sample)))
    ensures var e := Extended(c, h, sample);
      Hit(e, BoundingBox(e.tools[h].path), i)
  {
    var e := Extended(c, h, sample);
    var p := e.tools[h].path;
    assert p[|p| - 1] == Smooth(sample);
    SegmentHitIsPathHit(p, |p| - 1, BoundingBox(c.tools[c.pathArray[i]].path));
    assert e.tools[e.pathArray[i]] == c.tools[c.pathArray[i]];
  }

  /** A tracked move (below the cap, with a touch): a PenTool in eraser mode
      extends its path and splits every stroke its box meets; any other
      PenTool records the sample; other tools leave the canvas alone. */
  function Move(c: Canvas, current: Option<nat>, drawTool: ToolType, sample: Coordinates): (r: Canvas)
    requires Valid(c) && CurrentOk(c, current)
    ensures Valid(r) && CurrentOk(r, current) && r.bufferArray == c.bufferArray
  {
    if !CurrentIsPen(c, current) then c
    else
      var h := current.value;
      if ErasesOn(c, current, drawTool) then
        var e := Extended(c, h, sample);
        var r := EraserSplit(e, BoundingBox(e.tools[h].path));
        assert r.tools[h] == r.tools[..|e.tools|][h];
        r
      else c.(tools := c.tools[h := AddSample(c.tools[h], sample)])
  }

  /** A whole touchesMoved on the canvas, given the counter after its
      increment and the previous point before the move: below the cap and
      with a touch, a PenTool gets the triple (previousPoint2,
      previousPoint1, currentPoint) after the points shift; otherwise nothing
      changes. */
  function MoveEffect(c: Canvas, current: Option<nat>, drawTool: ToolType, count: nat,
                      previousPoint1: Option<Point>, touch: Option<Touch>): (r: Canvas)
    requires Valid(c) && CurrentOk(c, current)
    requires Outcome(count) == Track && touch.Some? && CurrentIsPen(c, current) ==> previousPoint1.Some?
    ensures Valid(r) && CurrentOk(r, current) && r.bufferArray == c.bufferArray
    ensures Outcome(count) != Track || touch.None? ==> r == c
  {
    if Outcome(count) != Track || touch.None? || !CurrentIsPen(c, current) then c
    else Move(c, current, drawTool, Coordinates(previousPoint1.value, touch.value.previousLocation, touch.value.location))
  }

  /** The split loop of a tracked eraser move does not trap: if the
      extended eraser meets any stroke, every active stroke is a PenTool
      (the filter casts each one). */
  predicate MoveSplitSafe(c: Canvas, current: Option<nat>, drawTool: ToolType, sample: Coordinates)
    requires Valid(c) && CurrentOk(c, current)
  {
    ErasesOn(c, current, drawTool) ==>
      var e := Extended(c, current.value, sample);
      SplitSafe(e, BoundingBox(e.tools[current.value].path))
  }

  /** The full cache rebuilds of one tracked move: one per stroke the eraser splits. */
  function SplitCount(c: Canvas, current: Option<nat>, drawTool: ToolType, sample: Coordinates): nat
    requires Valid(c) && CurrentOk(c, current)
  {
    if !ErasesOn(c, current, drawTool) then 0
    else
      var e := Extended(c, current.value, sample);
      |Hits(e, BoundingBox(e.tools[current.value].path), |e.pathArray|)|
  }

  /** The full cache rebuilds that a whole touchesMoved requests. */
  function MoveRedraws(c: Canvas, current: Option<nat>, drawTool: ToolType, count: nat,
                       previousPoint1: Option<Point>, touch: Option<Touch>): nat
    requires Valid(c) && CurrentOk(c, current)
    requires Outcome(count) == Track && touch.Some? && CurrentIsPen(c, current) ==> previousPoint1.Some?
  {
    if Outcome(count) != Track || touch.None? || !CurrentIsPen(c, current) then 0
    else SplitCount(c, current, drawTool, Coordinates(previousPoint1.value, touch.value.previousLocation, touch.value.location))
  }

  /** A run of tracked moves, one sample each. */
  function PenMoves(c: Canvas, current: Option<nat>, drawTool: ToolType, samples: seq<Coordinates>): (r: Canvas)
    requires Valid(c) && CurrentOk(c, current)
    ensures Valid(r) && CurrentOk(r, current)
  {
    if samples == [] then c
    else Move(PenMoves(c, current, drawTool, samples[..|samples| - 1]), current, drawTool, samples[|samples| - 1])
  }

  /** A pen gesture builds its stroke exactly as replaying its samples does,
      so its path is the smoothing of its samples; the lists, the flag and
      every other object stay as they were. */
  lemma {:induction false} PenGestureIsReplay(c: Canvas, current: Option<nat>, drawTool: ToolType, samples: seq<Coordinates>)
    requires Valid(c) && CurrentOk(c, current) && CurrentIsPen(c, current) && !ErasesOn(c, current, drawTool)
    ensures var r := PenMoves(c, current, drawTool, samples);
      var h := current.value;
      |r.tools| == |c.tools| && r.tools[h] == Replay(c.tools[h], samples) &&
      r.tools[h].path == c.tools[h].path + PathOf(samples) &&
      r.tools[h].coordinates == c.tools[h].coordinates + samples &&
      r.pathArray == c.pathArray && r.bufferArray == c.bufferArray && r.hasChanges == c.hasChanges &&
      (forall g :: 0 <= g < |c.tools| && g != h ==> r.tools[g] == c.tools[g])
  {
    var h := current.value;
    if samples != [] {
      var n := |samples| - 1;
      PenGestureIsReplay(c, current, drawTool, samples[..n]);
      var d := PenMoves(c, current, drawTool, samples[..n]);
      ReplayAppends(c.tools[h], samples[..n]);
      assert CurrentIsPen(d, current) && !ErasesOn(d, current, drawTool);
      assert PenMoves(c, current, drawTool, samples) == Move(d, current, drawTool, samples[n]);
      PenMoveRecords(d, current, drawTool, samples[n]);
      assert samples[..n] + [samples[n]] == samples;
    }
    ReplayAppends(c.tools[h], samples);
  }

  /** A tracked move of a PenTool that is not erasing records the sample in
      the current object and changes nothing else. */
  lemma PenMoveRecords(c: Canvas, current: Option<nat>, drawTool: ToolType, sample: Coordinates)
    requires Valid(c) && CurrentOk(c, current) && CurrentIsPen(c, current) && !ErasesOn(c, current, drawTool)
    ensures Move(c, current, drawTool, sample) ==
      c.(tools := c.tools[current.value := AddSample(c.tools[current.value], sample)])
  {
  }

  /** finishDrawing on the lists: the redo buffer is emptied. */
  function Finish(c: Canvas): (r: Canvas)
    requires Valid(c)
    ensures Valid(r)
  {
    c.(bufferArray := [])
  }

  /** Once a gesture has finished there is nothing to redo, and the active
      list and flag are as the gesture left them. */
  lemma FinishForgetsRedo(c: Canvas)
    requires Valid(c)
    ensures Finish(c).pathArray == c.pathArray && Finish(c).hasChanges == c.hasChanges
    ensures RedoSafe(Finish(c)) && Redo(Finish(c)) == Finish(c)
  {
    EmptyListsAreNoOps(Finish(c));
  }
}
