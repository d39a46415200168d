// The history engine of SketchView as pure functions over a canvas value:
// undo, redo, pinch, clear and the save flag, together with the laws that
// connect them.
//
// Every SketchTool object ever created lives in the arena `tools`;
// `pathArray` and `bufferArray` hold handles (positions in `tools`), so an
// object that sits in two slots is one handle written twice.

module History {
  import opened Optional
  import opened Geometry
  import opened Strokes

  datatype Canvas = Canvas(
    tools: seq<Stroke>,
    pathArray: seq<nat>,
    bufferArray: seq<nat>,
    hasChanges: bool)

  predicate HandlesIn(hs: seq<nat>, n: nat) {
    forall i :: 0 <= i < |hs| ==> hs[i] < n
  }

  predicate AllWellFormed(tools: seq<Stroke>) {
    forall h :: 0 <= h < |tools| ==> WellFormed(tools[h])
  }

  /** Every handle names an object, and every object keeps the split-field pairing. */
  predicate Valid(c: Canvas) {
    HandlesIn(c.pathArray, |c.tools|) && HandlesIn(c.bufferArray, |c.tools|) && AllWellFormed(c.tools)
  }

  /** A prefix grows by the next element. */
  lemma PrefixNext<T>(s: seq<T>, k: nat)
    requires k < |s|
    ensures s[..k + 1] == s[..k] + [s[k]]
  {
  }

  function Last(hs: seq<nat>): nat
    requires |hs| > 0
  {
    hs[|hs| - 1]
  }

  /** The strokes of a list of handles, in order. */
  function StrokesAt(tools: seq<Stroke>, hs: seq<nat>): (r: seq<Stroke>)
    requires HandlesIn(hs, |tools|)
    ensures |r| == |hs|
  {
    seq(|hs|, i requires 0 <= i < |hs| => tools[hs[i]])
  }

  /** The visible strokes, in draw order. */
  function Active(c: Canvas): seq<Stroke>
    requires Valid(c)
  {
    StrokesAt(c.tools, c.pathArray)
  }

  /** The conditions under which undo does not trap: a split marker on top
      names a slot that exists and holds a PenTool (`pathArray[tool.index!] as! PenTool`). */
  predicate UndoSafe(c: Canvas)
    requires Valid(c)
  {
    |c.pathArray| > 0 && IsPenTool(c.tools[Last(c.pathArray)]) && IsSplitMarker(c.tools[Last(c.pathArray)]) ==>
      var i := c.tools[Last(c.pathArray)].index.value;
      i < |c.pathArray| && IsPenTool(c.tools[c.pathArray[i]])
  }

  /** The condition under which redo does not trap: a split marker on top of
      the buffer names a slot that exists (`pathArray[tool.index!] = tool`). */
  predicate RedoSafe(c: Canvas)
    requires Valid(c)
  {
    |c.bufferArray| > 0 && IsPenTool(c.tools[Last(c.bufferArray)]) && IsSplitMarker(c.tools[Last(c.bufferArray)]) ==>
      c.tools[Last(c.bufferArray)].index.value < |c.pathArray|
  }

  /** undo(): nothing on an empty list; a non-pen top only sets the flag;
      otherwise the top moves to the buffer, and a split marker first has its
      slot overwritten by a restored copy. */
  function Undo(c: Canvas): (r: Canvas)
    requires Valid(c) && UndoSafe(c)
    ensures Valid(r)
    ensures |r.tools| >= |c.tools| && r.tools[..|c.tools|] == c.tools
  {
    if |c.pathArray| == 0 then c
    else
      var t := Last(c.pathArray);
      var tool := c.tools[t];
      if !IsPenTool(tool) then c.(hasChanges := true)
      else if tool.index.None? then
        Canvas(c.tools, c.pathArray[..|c.pathArray| - 1], c.bufferArray + [t], true)
      else
        var i := tool.index.value;
        var restored := Restored(c.tools[c.pathArray[i]], tool);
        var path := c.pathArray[i := |c.tools|];
        Canvas(c.tools + [restored], path[..|path| - 1], c.bufferArray + [t], true)
  }

  /** redo(): nothing on an empty buffer; a non-pen top only sets the flag;
      otherwise the top returns to the end of the active list, and a split
      marker is also written back into its slot. */
  function Redo(c: Canvas): (r: Canvas)
    requires Valid(c) && RedoSafe(c)
    ensures Valid(r) && r.tools == c.tools
  {
    if |c.bufferArray| == 0 then c
    else
      var t := Last(c.bufferArray);
      var tool := c.tools[t];
      if !IsPenTool(tool) then c.(hasChanges := true)
      else
        var path := if tool.index.Some? then c.pathArray[tool.index.value := t] else c.pathArray;
        Canvas(c.tools, path + [t], c.bufferArray[..|c.bufferArray| - 1], true)
  }

  /** pinch(): the last active stroke moves to the buffer, with no split
      restoration and no change to the save flag. */
  function Pinch(c: Canvas): (r: Canvas)
    requires Valid(c)
    ensures Valid(r) && r.tools == c.tools && r.hasChanges == c.hasChanges
    ensures |c.pathArray| > 0 ==>
      r.pathArray + [Last(c.pathArray)] == c.pathArray && r.bufferArray == c.bufferArray + [Last(c.pathArray)]
  {
    if |c.pathArray| == 0 then c
    else c.(pathArray := c.pathArray[..|c.pathArray| - 1], bufferArray := c.bufferArray + [Last(c.pathArray)])
  }

  /** clear(): both lists emptied; the save flag is left as it was. */
  function Clear(c: Canvas): (r: Canvas)
    ensures r.pathArray == [] && r.bufferArray == []
    ensures r.tools == c.tools && r.hasChanges == c.hasChanges
  {
    c.(pathArray := [], bufferArray := [])
  }

  /** The last active stroke is a marker that also sits in its own slot,
      below the top: what the eraser and redo leave behind. */
  predicate TopMarkerInSlot(c: Canvas)
    requires Valid(c)
  {
    |c.pathArray| > 0 &&
    var t := Last(c.pathArray);
    IsSplitMarker(c.tools[t]) &&
    c.tools[t].index.value < |c.pathArray| - 1 &&
    c.pathArray[c.tools[t].index.value] == t
  }

  /** canUndo is pathArray non-empty, and undo on an empty list changes nothing;
      likewise canRedo and redo with the buffer, and pinch. */
  lemma EmptyListsAreNoOps(c: Canvas)
    requires Valid(c)
    ensures |c.pathArray| == 0 ==> UndoSafe(c) && Undo(c) == c && Pinch(c) == c
    ensures |c.bufferArray| == 0 ==> RedoSafe(c) && Redo(c) == c
  {
  }

  /** Undo of a plain pen stroke moves exactly that stroke to the top of the
      buffer, shortens the active list by one and sets the flag. */
  lemma UndoMovesPlainStroke(c: Canvas)
    requires Valid(c) && |c.pathArray| > 0
    requires IsPenTool(c.tools[Last(c.pathArray)]) && !IsSplitMarker(c.tools[Last(c.pathArray)])
    ensures UndoSafe(c)
    ensures var r := Undo(c);
      r.hasChanges && r.tools == c.tools &&
      r.pathArray + [Last(c.pathArray)] == c.pathArray &&
      r.bufferArray == c.bufferArray + [Last(c.pathArray)]
  {
  }

  /** Undo with a non-pen stroke on top only sets the flag. */
  lemma UndoKeepsNonPenStroke(c: Canvas)
    requires Valid(c) && |c.pathArray| > 0 && !IsPenTool(c.tools[Last(c.pathArray)])
    ensures UndoSafe(c) && Undo(c) == c.(hasChanges := true)
  {
  }

  /** Undo of a split marker with index i: slot i now holds a copy of what was
      in slot i, carrying the marker's saved geometry and no split fields; the
      marker itself goes to the buffer; every other slot is unchanged. */
  lemma UndoRestoresSplitSlot(c: Canvas)
    requires Valid(c) && UndoSafe(c) && |c.pathArray| > 0
    requires IsSplitMarker(c.tools[Last(c.pathArray)])
    ensures var m := c.tools[Last(c.pathArray)];
      var i := m.index.value;
      var r := Undo(c);
      r.hasChanges &&
      |r.pathArray| == |c.pathArray| - 1 &&
      r.bufferArray == c.bufferArray + [Last(c.pathArray)] &&
      (forall j :: 0 <= j < |r.pathArray| && j != i ==> r.pathArray[j] == c.pathArray[j]) &&
      (i < |r.pathArray| ==>
        r.tools[r.pathArray[i]] == Restored(c.tools[c.pathArray[i]], m) &&
        r.tools[r.pathArray[i]].path == m.backupPath.value &&
        r.tools[r.pathArray[i]].index == None && r.tools[r.pathArray[i]].backupPath == None)
  {
  }

  /** Redo right after undo puts both lists back as they were, handle for
      handle. For a split marker this needs the marker to sit in its own slot
      below the top, as the eraser leaves it. */
  lemma UndoThenRedo(c: Canvas)
    requires Valid(c) && UndoSafe(c) && |c.pathArray| > 0 && IsPenTool(c.tools[Last(c.pathArray)])
    requires IsSplitMarker(c.tools[Last(c.pathArray)]) ==> TopMarkerInSlot(c)
    ensures RedoSafe(Undo(c))
    ensures Redo(Undo(c)).pathArray == c.pathArray
    ensures Redo(Undo(c)).bufferArray == c.bufferArray
    ensures Redo(Undo(c)).hasChanges
  {
    var u := Undo(c);
    var t := Last(c.pathArray);
    var n := |c.pathArray|;
    assert Last(u.bufferArray) == t;
    assert u.bufferArray[..|u.bufferArray| - 1] == c.bufferArray;
    if IsSplitMarker(c.tools[t]) {
      var i := c.tools[t].index.value;
      assert u.tools[t] == c.tools[t];
      assert u.pathArray == c.pathArray[i := |c.tools|][..n - 1];
      assert u.pathArray[i := t] + [t] == c.pathArray;
    } else {
      assert u.pathArray + [t] == c.pathArray;
    }
  }

  /** Redo of a split marker leaves it in its own slot and on top, so the
      next undo is again the exact inverse. */
  lemma RedoPutsMarkerInSlot(c: Canvas)
    requires Valid(c) && RedoSafe(c) && |c.bufferArray| > 0
    requires IsSplitMarker(c.tools[Last(c.bufferArray)])
    ensures TopMarkerInSlot(Redo(c))
    ensures Redo(c).bufferArray == c.bufferArray[..|c.bufferArray| - 1]
  {
  }

  /** Undo after redo brings the buffer back, and the active list back up to
      the restored slot: for a marker, that slot holds a fresh copy with the
      marker's saved geometry. */
  lemma RedoThenUndo(c: Canvas)
    requires Valid(c) && RedoSafe(c) && |c.bufferArray| > 0 && IsPenTool(c.tools[Last(c.bufferArray)])
    ensures UndoSafe(Redo(c))
    ensures Undo(Redo(c)).bufferArray == c.bufferArray
    ensures !IsSplitMarker(c.tools[Last(c.bufferArray)]) ==> Undo(Redo(c)).pathArray == c.pathArray
    ensures IsSplitMarker(c.tools[Last(c.bufferArray)]) ==>
      var m := c.tools[Last(c.bufferArray)];
      var r := Undo(Redo(c));
      |r.pathArray| == |c.pathArray| &&
      (forall j :: 0 <= j < |c.pathArray| && j != m.index.value ==> r.pathArray[j] == c.pathArray[j]) &&
      r.tools[r.pathArray[m.index.value]].path == m.backupPath.value
  {
    var d := Redo(c);
    var t := Last(c.bufferArray);
    assert Last(d.pathArray) == t;
    assert d.bufferArray + [t] == c.bufferArray;
    if !IsSplitMarker(c.tools[t]) {
      assert d.pathArray[..|d.pathArray| - 1] == c.pathArray;
    }
  }

  /** The number of strokes with an empty path (the filter in canDelete). */
  function CountEmpty(ss: seq<Stroke>): nat {
    if ss == [] then 0
    else CountEmpty(ss[..|ss| - 1]) + (if ss[|ss| - 1].path == [] then 1 else 0)
  }

  /** The count never exceeds the length, and reaches it exactly when every
      stroke has an empty path. */
  lemma {:induction false} CountEmptyAll(ss: seq<Stroke>)
    ensures CountEmpty(ss) <= |ss|
    ensures CountEmpty(ss) == |ss| <==> forall i :: 0 <= i < |ss| ==> ss[i].path == []
  {
    if ss != [] {
      var n := |ss| - 1;
      CountEmptyAll(ss[..n]);
      assert forall i :: 0 <= i < n ==> ss[..n][i] == ss[i];
    }
  }

  /** Every stroke named in `hs` is a PenTool: what the `as! PenTool` casts
      over a whole list demand. */
  predicate AllPensIn(tools: seq<Stroke>, hs: seq<nat>) {
    forall i :: 0 <= i < |hs| ==> hs[i] < |tools| && IsPenTool(tools[hs[i]])
  }
}
