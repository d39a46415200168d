// SketchView: the view object whose methods update the two stroke lists, the
// save flag, the current tool and the per-gesture tracking state in place.
// Each state-changing method is tied to the pure function over a canvas that
// specifies it; the laws those functions obey are proved in their modules.

module Sketch {
  import opened Optional
  import opened Geometry
  import opened Strokes
  import opened History
  import opened Eraser
  import opened Serializer
  import opened MoveCap
  import opened Drawing
  import opened Redraw

  /** The touch-tracking state of the current gesture. */
  datatype Tracking = Tracking(
    currentStrokesCount: nat,
    previousPoint2: Option<Point>,
    previousPoint1: Option<Point>,
    currentPoint: Option<Point>)

  /** One hit of the split loop, on the lists as values: a copy of the
      stroke in slot `index` is blanked into a marker that remembers the slot
      and the path, it replaces the stroke in its slot and is appended; the
      flag is set, and cleared again when no active stroke is left unsplit. */
  method SplitOne(c0: Canvas, index: nat) returns (c: Canvas)
    requires History.Valid(c0) && index < |c0.pathArray|
    ensures c == SplitAt(c0, index)
  {
    var backupObject := ToolObjectCopy(c0.tools[c0.pathArray[index]]);
    backupObject := backupObject.(index := Some(index));
    backupObject := backupObject.(backupPath := Some(backupObject.path));
    backupObject := backupObject.(path := []);
    var tools := c0.tools + [backupObject];
    var path := c0.pathArray[index := |tools| - 1] + [|tools| - 1];
    c := Canvas(tools, path, c0.bufferArray, true);
    if AllSplit(c.tools, c.pathArray) {
      c := c.(hasChanges := false);
    }
  }

  /** The loop of the eraser's split step, on the lists as values: `hits`
      counts the strokes split, one full cache rebuild each. */
  method SplitLoop(c0: Canvas, eraserBox: Box) returns (c: Canvas, hits: nat)
    requires History.Valid(c0)
    ensures c == EraserSplit(c0, eraserBox) && hits == |Hits(c0, eraserBox, |c0.pathArray|)|
    ensures c.tools[..|c0.tools|] == c0.tools
  {
    c := c0;
    hits := 0;
    var original := c0.pathArray;
    var index := 0;
    while index < |original|
      invariant 0 <= index <= |original|
      invariant c == SplitUpTo(c0, eraserBox, index) && hits == |Hits(c0, eraserBox, index)|
    {
      SplitUpToNext(c0, eraserBox, index);
      var objectParsed := c.tools[original[index]];
      if IsPenTool(objectParsed) && Intersects(BoundingBox(objectParsed.path), eraserBox) {
        c := SplitOne(c, index);
        hits := hits + 1;
      }
      index := index + 1;
    }
  }

  /** The tracked part of touchesMoved for a current PenTool, on the lists
      as values: in eraser mode (with strokes to erase) the eraser's path is
      extended by the new segment and the split loop runs over its box;
      otherwise the tool records the sample. */
  method MoveStep(c0: Canvas, current: Option<nat>, drawTool: ToolType, sample: Coordinates)
    returns (c: Canvas, hits: nat)
    requires History.Valid(c0) && CurrentIsPen(c0, current) && CurrentOk(c0, current)
    requires MoveSplitSafe(c0, current, drawTool, sample)
    ensures c == Move(c0, current, drawTool, sample) && hits == SplitCount(c0, current, drawTool, sample)
  {
    var h := current.value;
    if |c0.pathArray| > 0 && drawTool == Eraser {
      var penTool := c0.tools[h].(path := c0.tools[h].path + [Smooth(sample)]);
      var e := c0.(tools := c0.tools[h := penTool]);
      c, hits := SplitLoop(e, BoundingBox(penTool.path));
    } else {
      c, hits := c0.(tools := c0.tools[h := AddSample(c0.tools[h], sample)]), 0;
    }
  }

  /** A tracked move on the lists as values, given the previous point before
      the shift: a PenTool is fed the triple the shifted points make. */
  method TrackStep(c0: Canvas, current: Option<nat>, drawTool: ToolType, count: nat,
                   previousPoint1: Option<Point>, touch: Touch) returns (c: Canvas, hits: nat)
    requires History.Valid(c0) && CurrentOk(c0, current) && Outcome(count) == Track
    requires CurrentIsPen(c0, current) ==>
      previousPoint1.Some? &&
      MoveSplitSafe(c0, current, drawTool, Coordinates(previousPoint1.value, touch.previousLocation, touch.location))
    ensures c == MoveEffect(c0, current, drawTool, count, previousPoint1, Some(touch))
    ensures hits == MoveRedraws(c0, current, drawTool, count, previousPoint1, Some(touch))
  {
    c, hits := c0, 0;
    if CurrentIsPen(c0, current) {
      var sample := Coordinates(previousPoint1.value, touch.previousLocation, touch.location);
      c, hits := MoveStep(c0, current, drawTool, sample);
    }
  }

  /** The list updates of touchesBegan, on the lists as values: the new
      object is created with the current style, a PenTool also gets the pen
      type, and the eraser alone stays off the active list. */
  method BeginStep(c: Canvas, s: Settings) returns (r: Canvas)
    requires History.Valid(c)
    ensures r == Begin(c, s)
  {
    var tool := NewTool(s.drawTool, s.lineColor, s.lineWidth, s.lineAlpha);
    var h := |c.tools|;
    r := c;
    if IsPenTool(tool) {
      if s.drawTool != Eraser {
        r := r.(hasChanges := true, pathArray := r.pathArray + [h]);
      }
      tool := tool.(drawingPenType := s.drawingPenType);
    } else {
      r := r.(pathArray := r.pathArray + [h]);
    }
    r := r.(tools := r.tools + [tool]);
  }

  /** One record of loadDraw fed to the new object, entry by entry, each
      entry read through its three keys. */
  method ReplayRecord(s: Stroke, record: Record) returns (r: Stroke)
    requires forall i :: 0 <= i < |record| ==> HasAllKeys(record[i])
    ensures r == Replay(s, SamplesOf(record))
  {
    r := s;
    var i := 0;
    while i < |record|
      invariant 0 <= i <= |record|
      invariant r == Replay(s, SamplesOf(record[..i]))
    {
      var coordinates := record[i];
      r := AddSample(r, Coordinates(coordinates[PREVIOUS_POINT2_KEY],
                                    coordinates[PREVIOUS_POINT1_KEY],
                                    coordinates[CURRENT_POINT_KEY]));
      assert SamplesOf(record[..i + 1]) == SamplesOf(record[..i]) + [SampleOf(record[i])];
      i := i + 1;
    }
    assert record[..i] == record;
  }

  /** One pass of loadDraw's loop for a PenTool: the record's samples are
      fed to the new object, which is appended to the arena and the list. */
  method LoadRecord(c: Canvas, loaded: Stroke, record: Record) returns (r: Canvas)
    requires History.Valid(c) && WellFormed(loaded) && !IsSplitMarker(loaded)
    requires forall i :: 0 <= i < |record| ==> HasAllKeys(record[i])
    ensures r == c.(tools := c.tools + [Replay(loaded, SamplesOf(record))], pathArray := c.pathArray + [|c.tools|])
  {
    var h := |c.tools|;
    var rebuilt := ReplayRecord(loaded, record);
    r := Canvas(c.tools + [rebuilt], c.pathArray + [h], c.bufferArray, c.hasChanges);
  }

  /** The loop of loadDraw, on the lists as values. Each record creates a
      tool object that becomes current; a PenTool is appended to the active
      list and rebuilt from the record, any other tool ends the loop at once
      (`finished` is false). */
  method LoadLoop(c0: Canvas, records: seq<Record>, drawTool: ToolType, color: Color, width: real, alpha: real,
                  current0: Option<nat>) returns (c: Canvas, current: Option<nat>, finished: bool)
    requires History.Valid(c0) && CurrentOk(c0, current0) && (IsPenToolType(drawTool) ==> AllKeyed(records))
    ensures finished == (records == [] || IsPenToolType(drawTool))
    ensures finished ==> c == LoadAll(c0, records, NewTool(drawTool, color, width, alpha))
    ensures !finished ==> c == c0.(tools := c0.tools + [NewTool(drawTool, color, width, alpha)])
    ensures current == (if records == [] then current0 else Some(|c.tools| - 1))
    ensures CurrentOk(c, current)
  {
    ghost var blank := NewTool(drawTool, color, width, alpha);
    c, current := c0, current0;
    var k := 0;
    while k < |records|
      invariant 0 <= k <= |records| && (k > 0 ==> IsPenToolType(drawTool))
      invariant k == 0 ==> c == c0 && current == current0
      invariant k > 0 ==> AllKeyed(records[..k]) && c == LoadAll(c0, records[..k], blank) && current == Some(|c0.tools| + k - 1)
    {
      var loaded := NewTool(drawTool, color, width, alpha);
      var h := |c.tools|;
      current := Some(h);
      if !IsPenTool(loaded) {
        return c.(tools := c.tools + [loaded]), current, false;
      }
      LoadAllNext(c0, records, blank, k);
      if k == 0 {
        assert records[..0] == [];
        LoadNothing(c0, blank);
      }
      c := LoadRecord(c, loaded, records[k]);
      k := k + 1;
    }
    assert records[..k] == records;
    finished := true;
  }

  /** copyPointsArray on one object: the new colour, the path and samples
      emptied, the samples fed back one by one, and a marker blanked again
      with the rebuilt path saved. */
  method Rebuild(s: Stroke, color: Color) returns (r: Stroke)
    ensures r == Recolored(s, color)
  {
    r := s.(lineColor := color);
    var coordinates := r.coordinates;
    r := r.(path := [], coordinates := []);
    ghost var blank := r;
    var i := 0;
    while i < |coordinates|
      invariant 0 <= i <= |coordinates|
      invariant r == Replay(blank, coordinates[..i])
    {
      r := AddSample(r, coordinates[i]);
      assert coordinates[..i + 1] == coordinates[..i] + [coordinates[i]];
      i := i + 1;
    }
    assert coordinates[..i] == coordinates;
    if r.index.Some? {
      r := r.(backupPath := Some(r.path), path := []);
    }
  }

  /** The loop of copyPointsArray over the arena as a value: each listed
      PenTool is rebuilt in place, and the list comes back unchanged. */
  method RecolorLoop(tools: seq<Stroke>, pointsArray: seq<nat>, color: Color)
    returns (arena: seq<Stroke>, pointsArrayModified: seq<nat>)
    requires AllPensIn(tools, pointsArray)
    ensures arena == RecolorHandles(tools, pointsArray, color) && pointsArrayModified == pointsArray
  {
    arena, pointsArrayModified := tools, [];
    var k := 0;
    while k < |pointsArray|
      invariant 0 <= k <= |pointsArray| && pointsArrayModified == pointsArray[..k]
      invariant arena == RecolorHandles(tools, pointsArray[..k], color)
    {
      var h := pointsArray[k];
      var mutableSketchTool := Rebuild(arena[h], color);
      arena := arena[h := mutableSketchTool];
      RecolorNext(tools, pointsArray, k, color);
      PrefixNext(pointsArray, k);
      pointsArrayModified := pointsArrayModified + [h];
      k := k + 1;
    }
    assert pointsArray[..k] == pointsArray;
  }

  class SketchView {
    var lineColor: Color
    var lineWidth: real
    var lineAlpha: real
    var drawTool: ToolType
    var drawingPenType: PenType

    /** Every SketchTool object created so far; `currentTool`, `pathArray`
        and `bufferArray` name them by position, so one object can sit in
        several slots. */
    var tools: seq<Stroke>
    var currentTool: Option<nat>
    var pathArray: seq<nat>
    var bufferArray: seq<nat>
    var hasChanges: bool

    var currentStrokesCount: nat
    var previousPoint1: Option<Point>
    var previousPoint2: Option<Point>
    var currentPoint: Option<Point>

    /** saveBackupRequired notifications sent to the delegate. */
    var backupRequests: nat
    /** Full rebuilds of the cached image (`updateCacheImage(true)`). */
    var fullRedraws: nat

    function Snapshot(): Canvas
      reads this
    {
      Canvas(tools, pathArray, bufferArray, hasChanges)
    }

    function CurrentSettings(): Settings
      reads this
    {
      Settings(lineColor, lineWidth, lineAlpha, drawTool, drawingPenType)
    }

    function Gesture(): Tracking
      reads this
    {
      Tracking(currentStrokesCount, previousPoint2, previousPoint1, currentPoint)
    }

    predicate Valid()
      reads this
    {
      History.Valid(Snapshot()) && CurrentOk(Snapshot(), currentTool)
    }

    /** init(frame:): black, width 10, opaque, the pen, nothing drawn. */
    constructor ()
      ensures Valid() && Snapshot() == Canvas([], [], [], false) && currentTool == None
      ensures CurrentSettings() == Settings(BLACK, 10.0, 1.0, Pen, NORMAL_PEN)
      ensures Gesture() == Tracking(0, None, None, None)
      ensures backupRequests == 0 && fullRedraws == 0
    {
      lineColor := BLACK;
      lineWidth := 10.0;
      lineAlpha := 1.0;
      drawTool := Pen;
      drawingPenType := NORMAL_PEN;
      tools := [];
      currentTool := None;
      pathArray := [];
      bufferArray := [];
      hasChanges := false;
      currentStrokesCount := 0;
      previousPoint1 := None;
      previousPoint2 := None;
      currentPoint := None;
      backupRequests := 0;
      fullRedraws := 0;
    }

    function NumberOfStrokes(): (r: nat)
      reads this
      requires Valid()
      ensures r == |Active(Snapshot())|
    {
      |pathArray|
    }

    /** canUndo: there is an active stroke; without one, undo and pinch
        change nothing. */
    function CanUndo(): (r: bool)
      reads this
      requires Valid()
      ensures r <==> |Active(Snapshot())| > 0
      ensures !r ==> UndoSafe(Snapshot()) && History.Undo(Snapshot()) == Snapshot() && History.Pinch(Snapshot()) == Snapshot()
    {
      EmptyListsAreNoOps(Snapshot());
      |pathArray| > 0
    }

    /** canRedo: there is an undone stroke; without one, redo changes nothing. */
    function CanRedo(): (r: bool)
      reads this
      requires Valid()
      ensures r <==> |Snapshot().bufferArray| > 0
      ensures !r ==> RedoSafe(Snapshot()) && History.Redo(Snapshot()) == Snapshot()
    {
      EmptyListsAreNoOps(Snapshot());
      |bufferArray| > 0
    }

    function CanSave(): (r: bool)
      reads this
      ensures r == Snapshot().hasChanges
    {
      hasChanges
    }

    /** canDelete: some active stroke has a non-empty path, so a list of
        blanked split markers only is not deletable. The count of empty
        paths needs every active stroke to be a PenTool. */
    function CanDelete(): (r: bool)
      reads this
      requires Valid() && AllPensIn(tools, pathArray)
      ensures r <==> exists i :: 0 <= i < |pathArray| && tools[pathArray[i]].path != []
      ensures (forall i :: 0 <= i < |pathArray| ==> IsSplitMarker(tools[pathArray[i]])) ==> !r
    {
      var active := StrokesAt(tools, pathArray);
      CountEmptyAll(active);
      assert forall i :: 0 <= i < |pathArray| ==> active[i] == tools[pathArray[i]];
      if |pathArray| == 0 then false
      else |pathArray| != CountEmpty(active)
    }

    method Undo()
      requires Valid() && UndoSafe(Snapshot())
      modifies this`tools, this`pathArray, this`bufferArray, this`hasChanges, this`currentTool, this`fullRedraws
      ensures Valid() && Snapshot() == History.Undo(old(Snapshot()))
      ensures var moved := old(|pathArray| > 0 && IsPenTool(tools[Last(pathArray)]));
        currentTool == (if moved then None else old(currentTool)) &&
        fullRedraws == old(fullRedraws) + (if moved then 1 else 0)
    {
      if |pathArray| > 0 {
        hasChanges := true;
        var t := pathArray[|pathArray| - 1];
        var tool := tools[t];
        if !IsPenTool(tool) {
          return;
        }
        if tool.index.Some? {
          var i := tool.index.value;
          var backupTool := ToolObjectCopy(tools[pathArray[i]]);
          backupTool := backupTool.(path := tool.backupPath.value);
          backupTool := backupTool.(index := None, backupPath := None);
          tools := tools + [backupTool];
          pathArray := pathArray[i := |tools| - 1];
        }
        currentTool := None;
        bufferArray := bufferArray + [t];
        pathArray := pathArray[..|pathArray| - 1];
        fullRedraws := fullRedraws + 1;
      }
    }

    method Redo()
      requires Valid() && RedoSafe(Snapshot())
      modifies this`pathArray, this`bufferArray, this`hasChanges, this`currentTool, this`fullRedraws
      ensures Valid() && Snapshot() == History.Redo(old(Snapshot()))
      ensures var moved := old(|bufferArray| > 0 && IsPenTool(tools[Last(bufferArray)]));
        currentTool == (if moved then None else old(currentTool)) &&
        fullRedraws == old(fullRedraws) + (if moved then 1 else 0)
    {
      if |bufferArray| > 0 {
        hasChanges := true;
        var t := bufferArray[|bufferArray| - 1];
        var tool := tools[t];
        if !IsPenTool(tool) {
          return;
        }
        if tool.index.Some? {
          pathArray := pathArray[tool.index.value := t];
        }
        currentTool := None;
        pathArray := pathArray + [t];
        bufferArray := bufferArray[..|bufferArray| - 1];
        fullRedraws := fullRedraws + 1;
      }
    }

    method Pinch()
      requires Valid()
      modifies this`pathArray, this`bufferArray, this`currentTool, this`fullRedraws
      ensures Valid() && Snapshot() == History.Pinch(old(Snapshot())) && currentTool == None
      ensures fullRedraws == old(fullRedraws) + (if old(|pathArray|) > 0 then 1 else 0)
    {
      currentTool := None;
      if |pathArray| == 0 {
        return;
      }
      var tool := pathArray[|pathArray| - 1];
      bufferArray := bufferArray + [tool];
      pathArray := pathArray[..|pathArray| - 1];
      fullRedraws := fullRedraws + 1;
    }

    method Clear()
      requires Valid()
      modifies this`pathArray, this`bufferArray, this`currentTool, this`fullRedraws
      ensures Valid() && Snapshot() == History.Clear(old(Snapshot())) && currentTool == None
      ensures fullRedraws == old(fullRedraws) + 1
    {
      currentTool := None;
      bufferArray := [];
      pathArray := [];
      fullRedraws := fullRedraws + 1;
    }

    method ClearSaveFlag()
      requires Valid()
      modifies this`hasChanges
      ensures Valid() && Snapshot() == old(Snapshot()).(hasChanges := false) && !CanSave()
    {
      hasChanges := false;
    }

    method NoteWasSavedInTheDB()
      requires Valid()
      modifies this`hasChanges
      ensures Valid() && Snapshot() == old(Snapshot()).(hasChanges := false) && !CanSave()
    {
      hasChanges := false;
    }

    /** touchesBegan: a new tool object in the current style becomes the
        current tool and starts a new count of moves. */
    method TouchesBegan(touch: Option<Touch>)
      requires Valid()
      modifies this`tools, this`pathArray, this`hasChanges, this`currentTool
      modifies this`currentStrokesCount, this`previousPoint1, this`currentPoint
      ensures Valid()
      ensures touch.None? ==> Snapshot() == old(Snapshot()) && currentTool == old(currentTool) && Gesture() == old(Gesture())
      ensures touch.Some? ==>
        Snapshot() == Begin(old(Snapshot()), old(CurrentSettings())) && currentTool == Some(|old(tools)|) &&
        Gesture() == Tracking(0, old(previousPoint2), Some(touch.value.previousLocation), Some(touch.value.location))
    {
      if touch.None? {
        return;
      }
      var began := BeginStep(Snapshot(), CurrentSettings());
      currentStrokesCount, previousPoint1, currentPoint := 0, Some(touch.value.previousLocation), Some(touch.value.location);
      tools, pathArray, hasChanges, currentTool := began.tools, began.pathArray, began.hasChanges, Some(|tools|);
    }

    /** The traps touchesMoved can reach: a tracked PenTool move force-unwraps
        the shifted points, and the split loop casts every active stroke. */
    predicate MoveSafe(touch: Option<Touch>)
      reads this
      requires Valid()
    {
      Outcome(currentStrokesCount + 1) == Track && touch.Some? ==> TrackSafe(touch.value)
    }

    /** A tracked move of a PenTool force-unwraps the shifted points, and its
        split loop casts every active stroke. */
    predicate TrackSafe(touch: Touch)
      reads this
      requires Valid()
    {
      CurrentIsPen(Snapshot(), currentTool) ==>
        previousPoint1.Some? &&
        MoveSplitSafe(Snapshot(), currentTool, drawTool, Coordinates(previousPoint1.value, touch.previousLocation, touch.location))
    }

    /** touchesMoved: count the move; at the cap ask for a backup and stop;
        past it do nothing; otherwise shift the points and feed the current
        tool. */
    method TouchesMoved(touch: Option<Touch>)
      requires Valid() && MoveSafe(touch)
      modifies this`tools, this`pathArray, this`hasChanges, this`fullRedraws, this`backupRequests
      modifies this`currentStrokesCount, this`previousPoint2, this`previousPoint1, this`currentPoint
      ensures Valid()
      ensures currentStrokesCount == old(currentStrokesCount) + 1
      ensures backupRequests == old(backupRequests) + (if Outcome(currentStrokesCount) == Cutover then 1 else 0)
      ensures Snapshot() == MoveEffect(old(Snapshot()), currentTool, drawTool, old(currentStrokesCount) + 1, old(previousPoint1), touch)
      ensures fullRedraws == old(fullRedraws) + MoveRedraws(old(Snapshot()), currentTool, drawTool, old(currentStrokesCount) + 1, old(previousPoint1), touch)
      ensures Outcome(currentStrokesCount) != Track || touch.None? ==>
        previousPoint2 == old(previousPoint2) && previousPoint1 == old(previousPoint1) && currentPoint == old(currentPoint)
      ensures Outcome(currentStrokesCount) == Track && touch.Some? ==>
        previousPoint2 == old(previousPoint1) && previousPoint1 == Some(touch.value.previousLocation) &&
        currentPoint == Some(touch.value.location)
    {
      currentStrokesCount := currentStrokesCount + 1;
      if currentStrokesCount == MAXIMUM_POINTS_ALLOWED_FOR_A_SINGLE_STROKE {
        backupRequests := backupRequests + 1;
        return;
      }
      if currentStrokesCount > MAXIMUM_POINTS_ALLOWED_FOR_A_SINGLE_STROKE {
        return;
      }
      if touch.None? {
        return;
      }
      TrackMove(touch.value);
    }

    /** The part of touchesMoved past the cap and the touch guard: shift the
        points and feed the current PenTool the new sample. */
    method TrackMove(touch: Touch)
      requires Valid() && Outcome(currentStrokesCount) == Track && TrackSafe(touch)
      modifies this`tools, this`pathArray, this`hasChanges, this`fullRedraws
      modifies this`previousPoint2, this`previousPoint1, this`currentPoint
      ensures Valid()
      ensures Snapshot() == old(MoveEffect(Snapshot(), currentTool, drawTool, currentStrokesCount, previousPoint1, Some(touch)))
      ensures fullRedraws == old(fullRedraws + MoveRedraws(Snapshot(), currentTool, drawTool, currentStrokesCount, previousPoint1, Some(touch)))
      ensures previousPoint2 == old(previousPoint1) && previousPoint1 == Some(touch.previousLocation) &&
        currentPoint == Some(touch.location)
    {
      var c, hits := TrackStep(Snapshot(), currentTool, drawTool, currentStrokesCount, previousPoint1, touch);
      previousPoint2 := previousPoint1;
      previousPoint1 := Some(touch.previousLocation);
      currentPoint := Some(touch.location);
      tools, pathArray, hasChanges, fullRedraws := c.tools, c.pathArray, c.hasChanges, fullRedraws + hits;
    }

    method TouchesEnded(touch: Option<Touch>)
      requires Valid() && MoveSafe(touch)
      modifies this`tools, this`pathArray, this`bufferArray, this`hasChanges, this`currentTool
      modifies this`fullRedraws, this`backupRequests
      modifies this`currentStrokesCount, this`previousPoint2, this`previousPoint1, this`currentPoint
      ensures Valid() && currentTool == None
      ensures currentStrokesCount == old(currentStrokesCount) + 1
      ensures backupRequests == old(backupRequests) + (if Outcome(currentStrokesCount) == Cutover then 1 else 0)
      ensures Snapshot() ==
        Finish(MoveEffect(old(Snapshot()), old(currentTool), drawTool, currentStrokesCount, old(previousPoint1), touch))
      ensures fullRedraws ==
        old(fullRedraws) + MoveRedraws(old(Snapshot()), old(currentTool), drawTool, currentStrokesCount, old(previousPoint1), touch)
    {
      TouchesMoved(touch);
      FinishDrawing();
    }

    /** finishDrawing: the redo buffer is forgotten and no tool is current. */
    method FinishDrawing()
      requires Valid()
      modifies this`bufferArray, this`currentTool
      ensures Valid() && Snapshot() == Finish(old(Snapshot())) && currentTool == None
    {
      bufferArray := [];
      currentTool := None;
    }

    /** mapCurrentSketchToPlainObject: the records of the drawn pen strokes. */
    method MapCurrentSketchToPlainObject() returns (pathArrayDictionary: seq<Record>)
      requires Valid()
      ensures pathArrayDictionary == Export(Active(Snapshot()))
    {
      pathArrayDictionary := [];
      var k := 0;
      while k < |pathArray|
        invariant 0 <= k <= |pathArray|
        invariant pathArrayDictionary == Export(StrokesAt(tools, pathArray[..k]))
      {
        var penTool := tools[pathArray[k]];
        if IsPenTool(penTool) && penTool.path != [] {
          var coordinatesArray: Record := [];
          var i := 0;
          while i < |penTool.coordinates|
            invariant 0 <= i <= |penTool.coordinates|
            invariant coordinatesArray == RecordOf(penTool)[..i]
          {
            coordinatesArray := coordinatesArray + [EntryOf(penTool.coordinates[i])];
            i := i + 1;
          }
          assert coordinatesArray == RecordOf(penTool);
          pathArrayDictionary := pathArrayDictionary + [coordinatesArray];
        }
        ExportAppend(StrokesAt(tools, pathArray[..k]), penTool);
        assert StrokesAt(tools, pathArray[..k + 1]) == StrokesAt(tools, pathArray[..k]) + [penTool];
        k := k + 1;
      }
      assert pathArray[..k] == pathArray;
    }

    /** loadDraw: one new tool object per record, in the current style. */
    method LoadDraw(path: seq<Record>)
      requires Valid() && (IsPenToolType(drawTool) ==> AllKeyed(path))
      modifies this`tools, this`pathArray, this`hasChanges, this`currentTool, this`fullRedraws
      ensures Valid()
      ensures Snapshot() == Serializer.LoadDraw(old(Snapshot()), path, old(drawTool), old(lineColor), old(lineWidth), old(lineAlpha))
      ensures currentTool == (if path == [] then old(currentTool) else Some(|tools| - 1))
      ensures fullRedraws == old(fullRedraws) + (if path != [] && IsPenToolType(drawTool) then 1 else 0)
    {
      var c, current, finished := LoadLoop(Snapshot(), path, drawTool, lineColor, lineWidth, lineAlpha, currentTool);
      if finished && |path| > 0 {
        c := c.(hasChanges := true);
        fullRedraws := fullRedraws + 1;
      }
      tools, pathArray, hasChanges, currentTool := c.tools, c.pathArray, c.hasChanges, current;
    }

    /** copyPointsArray: each listed object, in place, takes the new colour
        and is rebuilt from its own samples; a marker is blanked again. */
    method CopyPointsArray(color: Color, pointsArray: seq<nat>) returns (pointsArrayModified: seq<nat>)
      requires Valid() && AllPensIn(tools, pointsArray)
      modifies this`tools
      ensures Valid() && pointsArrayModified == pointsArray
      ensures tools == RecolorHandles(old(tools), pointsArray, color)
    {
      var arena;
      arena, pointsArrayModified := RecolorLoop(tools, pointsArray, color);
      tools := arena;
    }

    /** redrawView(lineColor:): set the colour and rebuild both lists from
        their samples; the lists keep their handles. */
    method RedrawView(color: Color)
      requires Valid() && AllPensIn(tools, pathArray) && AllPensIn(tools, bufferArray)
      modifies this`tools, this`pathArray, this`bufferArray, this`currentTool, this`lineColor, this`fullRedraws
      ensures Valid() && Snapshot() == Redraw.RedrawView(old(Snapshot()), color)
      ensures currentTool == None && lineColor == color && fullRedraws == old(fullRedraws) + 2
    {
      var pathArrayBackup := pathArray;
      var bufferArrayBackup := bufferArray;
      Clear();
      lineColor := color;
      pathArray := CopyPointsArray(color, pathArrayBackup);
      bufferArray := CopyPointsArray(color, bufferArrayBackup);
      RecolorInTurn(old(tools), pathArrayBackup, bufferArrayBackup, color);
      fullRedraws := fullRedraws + 1;
    }
  }
}
