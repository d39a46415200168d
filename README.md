# SketchView stroke history, in Dafny

This project models the stroke-history engine of `SketchView`, the drawing
view of the Sketch library (`Sketch/Classes/SketchView.swift`), and proves
what its operations do to the view's state.

The view keeps two ordered lists of `SketchTool` objects:

- `pathArray`: the visible strokes, in draw order;
- `bufferArray`: the undone strokes, which redo takes back.

It also keeps the save flag `hasChanges`, the current tool, and the
per-gesture move counter with its three tracked points.

The model covers these operations:

- `undo`, `redo`, `pinch` and `clear`;
- the queries `numberOfStrokes`, `canUndo`, `canRedo`, `canSave` and `canDelete`;
- `clearSaveFlag` and `noteWasSavedInTheDB`;
- the list updates of `touchesBegan`, `touchesMoved` and `touchesEnded`. These
  include the eraser's split loop, which blanks every stroke it touches into a
  split marker, and the 1000-move cap of a gesture;
- `finishDrawing`;
- the export `mapCurrentSketchToPlainObject` and the import `loadDraw`;
- `redrawView` with `copyPointsArray`, which rebuilds strokes from their
  stored samples in a new colour;
- `getToolObjectCopy`.

Objects are shared in the source. A split marker sits both in its own slot
and at the tail of the list. The current pen is also the last visible stroke.
To capture this, every object lives in one arena (`tools`) and the lists hold
positions in it. A canvas value `Canvas(tools, pathArray, bufferArray,
hasChanges)` is the state the history works on.

Modules:

- `Geometry`: points, quadratic segments and bounding boxes. The box of an
  empty path is the null box, which meets nothing.
- `Strokes`: the stroke object, the smoother, replaying samples, the copy
  made by `getToolObjectCopy`, the split marker, its restoration, and the
  rebuild done by `copyPointsArray`.
- `MoveCap`: the move counter and the cap.
- `History`: the canvas, undo, redo, pinch, clear and their laws.
- `Eraser`: the split loop, as a function of the list as it was when the
  loop started, and what it leaves behind.
- `Drawing`: what `touchesBegan`, a tracked `touchesMoved` and
  `finishDrawing` do to the canvas.
- `Redraw`: `redrawView` and `copyPointsArray`.
- `Serializer`: the export records and the import.
- `Sketch`: the `SketchView` class. Its methods update the fields in place,
  and each one is proved equal to the canvas function that specifies it. The
  loops of the source run over canvas values in module-level methods
  (`SplitLoop`, `LoadLoop`, `RecolorLoop`, `Rebuild`, `ReplayRecord`), which
  are proved against the same functions.

### Behaviour of the code worth knowing


- `clear` empties both lists and leaves `hasChanges` as it was
  (`SketchView.swift:252-258`).
- The split loop sets `hasChanges`, then can clear it again: it does so when
  every active stroke is a split marker (lines 217-220).
- `undo` and `redo` with a non-pen stroke on top only set `hasChanges`. Both
  lists stay as they were (lines 331, 350).
- `pinch` does not restore a split slot. After a split, pinching moves the
  last marker to the buffer while its own slot still holds the same object,
  so one object is then in both lists (`Eraser.PinchAfterSplitShares`).
- At the 1000th move the view calls `touchesCancelled`, which `SketchView`
  does not override. Nothing is finalised: the stroke stays current and later
  moves of the gesture are ignored.
- `touchesBegan` sets `hasChanges` only for a pen stroke (line 169). Line,
  shape and stamp strokes are appended to the list without setting it.
- `loadDraw` with a non-pen drawing tool creates one tool object and returns
  before adding it to the list. The flag is not set.
- `finishDrawing` empties the redo buffer.
- Undo followed by redo restores both lists exactly for a plain pen stroke.
  For a split marker this holds only when the marker also sits in its own
  slot below the top, which is what the eraser and redo leave behind
  (`History.UndoThenRedo`). `pinch` after a split leaves a state where it
  fails.
- Erasing a lone pen stroke, then `pinch`, then `undo` loses that stroke.
  Undo writes the restored copy into slot 0 and then removes slot 0, so the
  active list is empty and the buffer holds the marker twice. A following
  `redo` writes into slot 0 of the empty list (line 352) and traps
  (`Eraser.PinchThenUndoLosesErasedStroke`).
- A record without one of the three keys makes `loadDraw` trap on a forced
  unwrap. It does not skip the record.

## Model

| member | source | states |
|---|---|---|
| Geometry.EmptyPathIntersectsNothing | Sketch/Classes/SketchView.swift:206 | a path has the null box exactly when it is empty, and the null box meets no box |
| Geometry.SegmentHitIsPathHit | Sketch/Classes/SketchView.swift:202-206 | a box that meets one segment of the eraser's path meets the box of the whole path |
| Strokes.NewTool | Sketch/Classes/SketchView.swift:161-164 | a new tool object has the requested kind, an empty path, no samples and no split fields |
| Strokes.AddSample | Sketch/Classes/SketchView.swift:226 | feeding one sample grows the path by one segment, keeps the old path as its prefix, appends the sample, and changes nothing else |
| Strokes.ReplayAppends | Sketch/Classes/SketchView.swift:413-415 | replaying samples extends the samples by exactly those samples and the path by exactly their smoothed segments; nothing else changes |
| Strokes.ToolObjectCopy | Sketch/Classes/SketchView.swift:426-432 | the copy is a PenTool that equals the original in every other field |
| Strokes.SplitMarker | Sketch/Classes/SketchView.swift:209-212 | the marker is well formed, remembers slot i and the old path as backup, has an empty path, and keeps the samples and style |
| Strokes.Restored | Sketch/Classes/SketchView.swift:333-336 | the restored copy is a plain PenTool whose path is the marker's backup, with the slot's samples and colour and no split fields |
| Strokes.RestoreUndoesSplit | Sketch/Classes/SketchView.swift:333-336 | restoring a marker from itself gives back the pen stroke it blanked |
| Strokes.Recolored | Sketch/Classes/SketchView.swift:291-302 | the rebuilt object has the new colour and the same samples; its path is their smoothing, or for a marker an empty path with their smoothing as backup |
| Strokes.RecoloredIdempotent | Sketch/Classes/SketchView.swift:290-303 | rebuilding twice in one colour equals rebuilding once, so a marker in two slots ends up the same whichever slot is processed last |
| MoveCap.GestureIsCapped | Sketch/Classes/SketchView.swift:186-195 | over n moves of one gesture, min(n, 999) are tracked and exactly one backup is requested once n reaches 1000, none before |
| MoveCap.OutcomeOrder | Sketch/Classes/SketchView.swift:188-195 | only the 1000th move is a cutover, the tracked moves form a prefix, and every move after the cutover is ignored |
| History.Undo | Sketch/Classes/SketchView.swift:328-345 | undo keeps the canvas well formed and only appends to the arena |
| History.Redo | Sketch/Classes/SketchView.swift:347-360 | redo keeps the canvas well formed and creates no object |
| History.Pinch | Sketch/Classes/SketchView.swift:308-316 | pinch moves the last active handle to the top of the buffer, with no split restoration and no change to the flag |
| History.Clear | Sketch/Classes/SketchView.swift:252-258 | clear empties both lists and leaves the arena and the flag as they were |
| History.EmptyListsAreNoOps | Sketch/Classes/SketchView.swift:328-348 | undo and pinch on an empty active list, and redo on an empty buffer, change nothing at all |
| History.UndoMovesPlainStroke | Sketch/Classes/SketchView.swift:328-345 | undo of a plain pen stroke moves exactly that stroke to the top of the buffer, removes it from the active list and sets the flag |
| History.UndoKeepsNonPenStroke | Sketch/Classes/SketchView.swift:329-331 | undo with a non-pen stroke on top only sets the flag |
| History.UndoRestoresSplitSlot | Sketch/Classes/SketchView.swift:332-341 | undo of a marker for slot i puts a restored copy in slot i (path = backup, no split fields), sends the marker to the buffer and keeps every other slot |
| History.UndoThenRedo | Sketch/Classes/SketchView.swift:328-360 | redo right after undo restores both lists handle for handle and leaves the flag set |
| History.RedoPutsMarkerInSlot | Sketch/Classes/SketchView.swift:350-356 | redo of a marker puts it back in its own slot and on top, and pops the buffer |
| History.RedoThenUndo | Sketch/Classes/SketchView.swift:328-360 | undo right after redo restores the buffer; for a plain stroke also the active list, and for a marker every slot but its own, which gets the saved geometry back |
| History.CountEmptyAll | Sketch/Classes/SketchView.swift:378-379 | the empty-path count never exceeds the length and equals it exactly when every path is empty |
| Eraser.Hits | Sketch/Classes/SketchView.swift:204-207 | the hit slots below k number at most k and are all below k |
| Eraser.HitsExact | Sketch/Classes/SketchView.swift:204-207 | the hits list every pen stroke whose box meets the eraser's, each once, in slot order, and nothing else |
| Eraser.SplitUpTo | Sketch/Classes/SketchView.swift:204-223 | after k iterations the list has grown by the number of hits, the old objects and the buffer are untouched, and slots from k on still hold their handles |
| Eraser.SplitUpToNext | Sketch/Classes/SketchView.swift:204-209 | iteration k reads slot k as it was when the loop started, and splits it exactly when that stroke is hit |
| Eraser.SplitKeepsUnhit | Sketch/Classes/SketchView.swift:204-223 | after k iterations every unhit slot below k still holds its handle |
| Eraser.SplitSlotsHoldNew | Sketch/Classes/SketchView.swift:209-214 | after k iterations the j-th hit slot holds the j-th new object |
| Eraser.SplitTailHoldsNew | Sketch/Classes/SketchView.swift:214 | after k iterations the j-th appended slot holds the j-th new object |
| Eraser.SplitNewAreMarkers | Sketch/Classes/SketchView.swift:209-212 | the j-th new object is the marker copied from the j-th hit slot's stroke |
| Eraser.SplitFlag | Sketch/Classes/SketchView.swift:208-220 | after the loop the flag is unchanged if nothing was hit, and otherwise set exactly when some active stroke is not a marker |
| Eraser.EraserSplitKeeps | Sketch/Classes/SketchView.swift:204-207 | an unhit slot keeps its stroke |
| Eraser.EraserSplitBlanks | Sketch/Classes/SketchView.swift:209-213 | a hit slot i holds the marker for it: index i, the old path as backup, an empty path |
| Eraser.EraserSplitSpec | Sketch/Classes/SketchView.swift:200-222 | the whole split step: unhit slots kept, hit slots blanked, the same markers appended in slot order, the list grown by the hits, the buffer and existing objects untouched, and the flag rule |
| Eraser.MarkersAreNotHit | Sketch/Classes/SketchView.swift:205-206 | a marker is never hit, since its blanked path has the null box |
| Eraser.EraseThenUndoRestoresLastHit | Sketch/Classes/SketchView.swift:328-341 | erasing and then undoing once gives the last hit slot back its original path and samples as a plain stroke, and moves the tail marker to the buffer |
| Eraser.PinchAfterSplitShares | Sketch/Classes/SketchView.swift:308-312 | pinching right after a split leaves the last marker both in its slot and on top of the buffer |
| Eraser.PinchThenUndoLosesErasedStroke | Sketch/Classes/SketchView.swift:308-360 | erasing a lone pen stroke, pinching and undoing leaves an empty active list with the marker twice in the buffer, and the next redo traps |
| Drawing.BeganTool | Sketch/Classes/SketchView.swift:161-172 | the object touchesBegan creates has the current style, an empty path, and the current pen type exactly when it is a PenTool |
| Drawing.Begin | Sketch/Classes/SketchView.swift:165-183 | touchesBegan appends the new object to the arena, appends its handle to the active list unless it is the eraser, sets the flag exactly for a pen stroke (otherwise keeps it), and keeps the buffer and the canvas well formed |
| Drawing.BeginPenThenUndo | Sketch/Classes/SketchView.swift:166-171 | a begun pen stroke is on top, and undo takes exactly it to the buffer |
| Drawing.BeginShapeThenUndo | Sketch/Classes/SketchView.swift:174-182 | a line, shape or stamp stroke is appended, and undo leaves it there and only sets the flag |
| Drawing.BeginEraserKeepsLists | Sketch/Classes/SketchView.swift:168-171 | the eraser touches neither list nor the flag when it begins |
| Drawing.NewSegmentHitErases | Sketch/Classes/SketchView.swift:202-206 | a pen stroke whose box meets the eraser's newest segment is hit by the split step that follows |
| Drawing.Extended | Sketch/Classes/SketchView.swift:202 | the eraser's path grows by the smoothed new segment and nothing else changes |
| Drawing.Move | Sketch/Classes/SketchView.swift:200-228 | a tracked move keeps the canvas well formed, the buffer unchanged and the current tool valid |
| Drawing.MoveEffect | Sketch/Classes/SketchView.swift:186-233 | a move at or past the cap, or without a touch, leaves the canvas unchanged; otherwise the buffer is kept |
| Drawing.PenGestureIsReplay | Sketch/Classes/SketchView.swift:225-228 | a pen gesture builds its stroke exactly as replaying its samples does; the lists, the flag and every other object stay as they were |
| Drawing.PenMoveRecords | Sketch/Classes/SketchView.swift:225-227 | a pen move outside eraser mode records the sample in the current object only |
| Drawing.Finish | Sketch/Classes/SketchView.swift:241-246 | finishDrawing keeps the canvas well formed |
| Drawing.FinishForgetsRedo | Sketch/Classes/SketchView.swift:241-246 | after finishDrawing redo does nothing, and the active list and flag are as the gesture left them |
| Redraw.RecolorHandles | Sketch/Classes/SketchView.swift:288-306 | the rebuild keeps the arena size, each object's kind and split index, and well-formedness |
| Redraw.RedrawView | Sketch/Classes/SketchView.swift:265-285 | redrawView keeps both lists, their order and the flag, and the canvas well formed |
| Redraw.RecolorNext | Sketch/Classes/SketchView.swift:290-304 | one more entry of copyPointsArray rebuilds exactly the object it names |
| Redraw.RecolorInTurn | Sketch/Classes/SketchView.swift:280-282 | rebuilding the active list and then the buffer is rebuilding both lists at once |
| Redraw.RedrawRebuildsFromSamples | Sketch/Classes/SketchView.swift:290-302 | after a redraw every visible stroke has the new colour, its own samples and kind, and a path rebuilt from those samples (a marker: empty, with that path as backup) |
| Redraw.RedrawIdempotent | Sketch/Classes/SketchView.swift:265-285 | redrawing twice in one colour equals redrawing once |
| Redraw.RedrawKeepsUnlisted | Sketch/Classes/SketchView.swift:288-306 | objects on neither list are untouched |
| Serializer.EntryRoundTrip | Sketch/Classes/SketchView.swift:393-395 | an exported entry has exactly the three keys and reads back as the sample it came from |
| Serializer.SamplesOf | Sketch/Classes/SketchView.swift:413-414 | one sample per entry of the record |
| Serializer.RecordOf | Sketch/Classes/SketchView.swift:391-397 | one keyed entry per sample, in sample order, each reading back as that sample |
| Serializer.Export | Sketch/Classes/SketchView.swift:387-402 | one record per exported stroke |
| Serializer.ExportAppend | Sketch/Classes/SketchView.swift:389-399 | one more active stroke adds its record exactly when it is a pen stroke with a non-empty path |
| Serializer.ExportableDistributes | Sketch/Classes/SketchView.swift:389-400 | the export filter keeps order and commutes with concatenation |
| Serializer.ExportableOnlyDrawnPens | Sketch/Classes/SketchView.swift:390 | every exported stroke is a listed pen stroke with a non-empty path, so never a split marker |
| Serializer.ExportEmptyIffNothingDrawn | Sketch/Classes/SketchView.swift:387-402 | the export is empty exactly when no active stroke is a drawn pen stroke |
| Serializer.ExportIsKeyed | Sketch/Classes/SketchView.swift:393-395 | every exported entry carries the three keys, and record k is the record of the k-th exported stroke |
| Serializer.Loaded | Sketch/Classes/SketchView.swift:406-416 | one new object per record |
| Serializer.LoadAll | Sketch/Classes/SketchView.swift:406-416 | the import grows the arena and the active list by one per record and keeps the buffer and the flag |
| Serializer.LoadNothing | Sketch/Classes/SketchView.swift:406 | importing no records changes nothing |
| Serializer.LoadAllNext | Sketch/Classes/SketchView.swift:406-416 | one more record adds one object that replays it, never a marker, and one slot naming that object |
| Serializer.LoadDraw | Sketch/Classes/SketchView.swift:405-422 | loadDraw keeps the canvas well formed |
| Serializer.LoadAllKeeps | Sketch/Classes/SketchView.swift:412 | the objects and slots already present stay in place |
| Serializer.LoadAllActive | Sketch/Classes/SketchView.swift:411-415 | the k-th new visible stroke replays the k-th record |
| Serializer.LoadAllSlot | Sketch/Classes/SketchView.swift:411-415 | the k-th record sits in the k-th new slot as a fresh object replaying its samples |
| Serializer.SamplesLoadAsPen | Sketch/Classes/SketchView.swift:407-415 | samples replayed into a blank pen give a pen stroke with exactly those samples, their smoothed path, the current style and no split fields |
| Serializer.LoadPens | Sketch/Classes/SketchView.swift:405-422 | importing pen records adds one pen stroke per record, in order, with the record's samples and their path, keeps what was there and sets the flag exactly when there was a record |
| Serializer.ExportThenLoad | Sketch/Classes/SketchView.swift:387-422 | export then import appends, in order, one pen stroke per exported stroke with exactly its samples, the path they smooth into and the current style; existing strokes are untouched |
| Sketch.SplitOne | Sketch/Classes/SketchView.swift:208-220 | one hit of the loop, done on values as the source does it, is the split step SplitAt |
| Sketch.SplitLoop | Sketch/Classes/SketchView.swift:204-223 | the loop computes the whole split step and counts one cache rebuild per hit |
| Sketch.MoveStep | Sketch/Classes/SketchView.swift:200-228 | a PenTool move computes Move and counts the split's cache rebuilds |
| Sketch.TrackStep | Sketch/Classes/SketchView.swift:196-228 | a tracked move computes MoveEffect and its rebuild count from the shifted points |
| Sketch.BeginStep | Sketch/Classes/SketchView.swift:161-183 | the branch-by-branch list updates of touchesBegan compute Begin |
| Sketch.ReplayRecord | Sketch/Classes/SketchView.swift:413-415 | reading each entry through its three keys and feeding it replays the record's samples |
| Sketch.LoadRecord | Sketch/Classes/SketchView.swift:411-415 | one pass of the import loop appends the replayed object and its slot |
| Sketch.LoadLoop | Sketch/Classes/SketchView.swift:406-416 | the import loop computes LoadAll for a PenTool, stops after creating one object otherwise, and leaves the last created object current |
| Sketch.Rebuild | Sketch/Classes/SketchView.swift:291-302 | the per-object rebuild loop computes Recolored |
| Sketch.RecolorLoop | Sketch/Classes/SketchView.swift:288-306 | the loop of copyPointsArray computes RecolorHandles and returns the list it was given |
| Sketch.SketchView.constructor | Sketch/Classes/SketchView.swift:42-64 | a new view is black, width 10, opaque, pen, with both lists empty, no changes and no tracking |
| Sketch.SketchView.NumberOfStrokes | Sketch/Classes/SketchView.swift:94-96 | the number of visible strokes |
| Sketch.SketchView.CanUndo | Sketch/Classes/SketchView.swift:362-364 | true exactly when a stroke is visible; when false, undo and pinch change nothing |
| Sketch.SketchView.CanRedo | Sketch/Classes/SketchView.swift:366-368 | true exactly when the buffer is non-empty; when false, redo changes nothing |
| Sketch.SketchView.CanSave | Sketch/Classes/SketchView.swift:370-372 | the save flag of the canvas |
| Sketch.SketchView.CanDelete | Sketch/Classes/SketchView.swift:374-380 | true exactly when some visible stroke has a non-empty path, so false on an empty list or a list of markers only |
| Sketch.SketchView.Undo | Sketch/Classes/SketchView.swift:328-345 | the fields become History.Undo of the old canvas; the current tool is reset and a rebuild requested exactly when a pen stroke moved |
| Sketch.SketchView.Redo | Sketch/Classes/SketchView.swift:347-360 | the fields become History.Redo of the old canvas; the current tool is reset and a rebuild requested exactly when a pen stroke moved |
| Sketch.SketchView.Pinch | Sketch/Classes/SketchView.swift:308-316 | the fields become History.Pinch of the old canvas, no tool is current, and a rebuild is requested when a stroke moved |
| Sketch.SketchView.Clear | Sketch/Classes/SketchView.swift:252-258 | the fields become History.Clear of the old canvas, no tool is current, one rebuild |
| Sketch.SketchView.ClearSaveFlag | Sketch/Classes/SketchView.swift:260-262 | only the flag changes, to false |
| Sketch.SketchView.NoteWasSavedInTheDB | Sketch/Classes/SketchView.swift:382-384 | only the flag changes, to false |
| Sketch.SketchView.TouchesBegan | Sketch/Classes/SketchView.swift:156-184 | without a touch nothing changes; otherwise the canvas becomes Begin, the new object is current, and the counter restarts at 0 with the touch's points |
| Sketch.SketchView.TouchesMoved | Sketch/Classes/SketchView.swift:186-233 | the counter grows by one, a backup is requested exactly at the cap, the canvas becomes MoveEffect, the rebuilds are MoveRedraws, and the points shift only on a tracked move |
| Sketch.SketchView.TrackMove | Sketch/Classes/SketchView.swift:196-233 | a tracked move makes the canvas MoveEffect, adds MoveRedraws rebuilds and shifts the points |
| Sketch.SketchView.TouchesEnded | Sketch/Classes/SketchView.swift:236-239 | the last move followed by finishDrawing: Finish of MoveEffect, with no tool current |
| Sketch.SketchView.FinishDrawing | Sketch/Classes/SketchView.swift:241-246 | the canvas becomes Finish of the old one and no tool is current |
| Sketch.SketchView.MapCurrentSketchToPlainObject | Sketch/Classes/SketchView.swift:387-402 | the result is the export of the visible strokes |
| Sketch.SketchView.LoadDraw | Sketch/Classes/SketchView.swift:405-422 | the canvas becomes Serializer.LoadDraw in the old style, the last created object is current, and one rebuild follows a completed import |
| Sketch.SketchView.CopyPointsArray | Sketch/Classes/SketchView.swift:288-306 | the arena becomes RecolorHandles of the old arena, and the list comes back unchanged |
| Sketch.SketchView.RedrawView | Sketch/Classes/SketchView.swift:265-285 | the canvas becomes Redraw.RedrawView of the old one in the new colour, no tool is current, and two rebuilds are requested |

## Left out

- Rendering: `draw`, the bitmap work of `updateCacheImage`, `setNeedsDisplay`, the background image and `loadImage` (`SketchView.swift:81-123`, 318-326). These are UIKit drawing calls. The model only counts full cache rebuilds (`fullRedraws`).
- The delegate callbacks `willBeginDrawUsingTool` and `didEndDrawUsingTool`. `saveBackupRequired` is kept only as the counter `backupRequests`.
- UITouch plumbing: a touch event is its first touch's previous and current location, or none.
- The smoother inside `PenTool` is not part of this model. `Strokes.Smooth` stands in for it: one quadratic segment between the midpoints of the triple. `createSubPath` in the eraser branch (line 202) is assumed to produce the same segment as `createBezierRenderingBox`.
- Box arithmetic is on `real`. CGFloat rounding is not modelled.
- `Geometry.Intersects` treats boxes as closed, so boxes that only touch at an edge meet. This is a modelling choice; how CoreGraphics treats edge contact is not modelled.
- `setInitialPoint`, `moveFromPoint` and the stamp image of non-pen tools. Only their list membership is modelled. The shapes' own geometry lives in tool classes that are not part of this model.
- The scaling of coordinates by `bounds.width` and `bounds.height` in `loadDraw` and `copyPointsArray` (lines 297, 414). The model treats it as the identity. No normalise/denormalise round trip is claimed, because the normalising side is not in `SketchView`.
- Crashes from forced casts, forced unwraps and out-of-range indices (lines 202, 209, 217, 291, 333, 352, 378, 414). They become preconditions: `UndoSafe`, `RedoSafe`, `SplitSafe`, `MoveSafe`, `AllPensIn` and `AllKeyed`. `RedoSafe` excludes a state that ordinary use reaches: erase, pinch, undo, then redo (`Eraser.PinchThenUndoLosesErasedStroke`).
- The forced unwrap `currentTool!` in `finishDrawing` (line 244) traps when a delegate is set and no tool is current, as after a `touchesBegan` without a touch. It is left out with the delegate.
- `Int` overflow of the move counter is not modelled.
- Colour and pen type are opaque tags, and the tool classes are one tagged variant. `EraserTool` is taken to be a subclass of `PenTool`, as the `is PenTool` branch of `touchesBegan` requires.
- `Sketch/Classes/OSCommonImage.h` declares image-bridging functions only, with no logic.
- Sketch.LoadLoop: the source feeds the new object in place, one `createBezierRenderingBox` call per entry. The model feeds a value (`ReplayRecord`) and then appends it. The resulting arena is the same, but the aliasing between `currentTool` and the list during the loop is not modelled.
- Sketch.SplitLoop, Sketch.RecolorLoop and Sketch.LoadLoop run over canvas values, and the class methods then assign the fields. Updating the arrays in place while iterating is represented by that final assignment.
- Sketch.SketchView.CanDelete: requires every visible stroke to be a PenTool, the condition under which the source's `as! PenTool` filter does not trap.
- Sketch.SketchView.TrackMove: reads the pen test before shifting the points. The source shifts first, but the test reads neither point, so the results are the same.
