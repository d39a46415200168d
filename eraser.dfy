// The eraser's split step (the loop in touchesMoved while the eraser is the
// drawing tool): every pen stroke whose box meets the eraser's box is
// replaced in its slot by a blanked split marker, and the same marker is
// appended at the end of the active list.

module Eraser {
  import opened Optional
  import opened Geometry
  import opened Strokes
  import opened History

  /** Slot i of the list as it was when the loop started is hit: a PenTool
      whose path box meets the eraser's box. */
  predicate Hit(c: Canvas, eraserBox: Box, i: nat)
    requires Valid(c) && i < |c.pathArray|
  {
    var s := c.tools[c.pathArray[i]];
    IsPenTool(s) && Intersects(BoundingBox(s.path), eraserBox)
  }

  /** The hit slots below k, in increasing order. */
  function Hits(c: Canvas, eraserBox: Box, k: nat): (r: seq<nat>)
    requires Valid(c) && k <= |c.pathArray|
    ensures |r| <= k
    ensures forall j :: 0 <= j < |r| ==> r[j] < k
  {
    if k == 0 then [] else Hits(c, eraserBox, k - 1) + (if Hit(c, eraserBox, k - 1) then [k - 1] else [])
  }

  /** Hits lists exactly the hit slots, each once, in slot order. */
  lemma {:induction false} HitsExact(c: Canvas, eraserBox: Box, k: nat)
    requires Valid(c) && k <= |c.pathArray|
    ensures forall j :: 0 <= j < |Hits(c, eraserBox, k)| ==> Hit(c, eraserBox, Hits(c, eraserBox, k)[j])
    ensures forall j, j' :: 0 <= j < j' < |Hits(c, eraserBox, k)| ==> Hits(c, eraserBox, k)[j] < Hits(c, eraserBox, k)[j']
    ensures forall i :: 0 <= i < k && Hit(c, eraserBox, i) ==> i in Hits(c, eraserBox, k)
  {
    if k > 0 {
      HitsExact(c, eraserBox, k - 1);
      var before := Hits(c, eraserBox, k - 1);
      var hits := Hits(c, eraserBox, k);
      if Hit(c, eraserBox, k - 1) {
        assert hits == before + [k - 1];
        assert forall j :: 0 <= j < |before| ==> hits[j] == before[j];
      } else {
        assert hits == before;
      }
    }
  }

  /** Every active stroke is a split marker (no stroke has `index == nil`). */
  predicate AllSplit(tools: seq<Stroke>, path: seq<nat>)
    requires HandlesIn(path, |tools|)
  {
    forall j :: 0 <= j < |path| ==> IsSplitMarker(tools[path[j]])
  }

  /** The traps of the loop: after a hit, every active stroke is force-cast
      to PenTool (`filter{($0 as! PenTool).index == nil}`). */
  predicate SplitSafe(c: Canvas, eraserBox: Box)
    requires Valid(c)
  {
    (exists i :: 0 <= i < |c.pathArray| && Hit(c, eraserBox, i)) ==>
      forall j :: 0 <= j < |c.pathArray| ==> IsPenTool(c.tools[c.pathArray[j]])
  }

  /** One hit at slot i: slot i becomes a marker copied from the stroke there,
      the marker is appended, the flag is set, and it is cleared again when
      every active stroke is now a marker. */
  function SplitAt(c: Canvas, i: nat): (r: Canvas)
    requires Valid(c) && i < |c.pathArray|
    ensures Valid(r)
  {
    var h := |c.tools|;
    var tools := c.tools + [SplitMarker(c.tools[c.pathArray[i]], i)];
    var path := c.pathArray[i := h] + [h];
    Canvas(tools, path, c.bufferArray, !AllSplit(tools, path))
  }

  /** The first k iterations of the loop. Slots at or above k still hold what
      they held at the start, so iteration k reads the same stroke through
      `pathArray[index]` as through the enumerated copy. */
  function SplitUpTo(c0: Canvas, eraserBox: Box, k: nat): (r: Canvas)
    requires Valid(c0) && k <= |c0.pathArray|
    ensures Valid(r) && r.bufferArray == c0.bufferArray
    ensures |r.tools| == |c0.tools| + |Hits(c0, eraserBox, k)| && r.tools[..|c0.tools|] == c0.tools
    ensures |r.pathArray| == |c0.pathArray| + |Hits(c0, eraserBox, k)|
    ensures forall i :: k <= i < |c0.pathArray| ==> r.pathArray[i] == c0.pathArray[i]
  {
    if k == 0 then c0
    else
      var c := SplitUpTo(c0, eraserBox, k - 1);
      if Hit(c0, eraserBox, k - 1) then
        var r := SplitAt(c, k - 1);
        assert r.tools[..|c0.tools|] == c.tools[..|c0.tools|];
        r
      else c
  }

  /** Iteration k of the loop: it reads slot k as it was at the start, and
      splits it exactly when that stroke is hit. */
  lemma SplitUpToNext(c0: Canvas, eraserBox: Box, k: nat)
    requires Valid(c0) && k < |c0.pathArray|
    ensures var c := SplitUpTo(c0, eraserBox, k);
      c.pathArray[k] == c0.pathArray[k] && c.tools[c0.pathArray[k]] == c0.tools[c0.pathArray[k]] &&
      SplitUpTo(c0, eraserBox, k + 1) == (if Hit(c0, eraserBox, k) then SplitAt(c, k) else c) &&
      Hits(c0, eraserBox, k + 1) == Hits(c0, eraserBox, k) + (if Hit(c0, eraserBox, k) then [k] else [])
  {
    var c := SplitUpTo(c0, eraserBox, k);
    assert c.tools[..|c0.tools|][c0.pathArray[k]] == c.tools[c0.pathArray[k]];
  }

  /** The whole loop over the list as it was when the move arrived. */
  function EraserSplit(c: Canvas, eraserBox: Box): Canvas
    requires Valid(c)
  {
    SplitUpTo(c, eraserBox, |c.pathArray|)
  }

  /** After k iterations, an unhit slot below k still holds its handle. */
  lemma {:induction false} SplitKeepsUnhit(c0: Canvas, eraserBox: Box, k: nat)
    requires Valid(c0) && k <= |c0.pathArray|
    ensures var r := SplitUpTo(c0, eraserBox, k);
      forall i :: 0 <= i < k && !Hit(c0, eraserBox, i) ==> r.pathArray[i] == c0.pathArray[i]
  {
    if k > 0 {
      SplitKeepsUnhit(c0, eraserBox, k - 1);
      var c := SplitUpTo(c0, eraserBox, k - 1);
      var r := SplitUpTo(c0, eraserBox, k);
      if Hit(c0, eraserBox, k - 1) {
        var h := |c.tools|;
        assert r.pathArray == c.pathArray[k - 1 := h] + [h];
        forall i | 0 <= i < k && !Hit(c0, eraserBox, i)
          ensures r.pathArray[i] == c0.pathArray[i]
        {
          assert i < k - 1 && r.pathArray[i] == c.pathArray[i];
        }
      } else {
        assert r == c;
        assert c.pathArray[k - 1] == c0.pathArray[k - 1];
      }
    }
  }

  /** After k iterations, the j-th hit slot holds the j-th new object. */
  lemma {:induction false} SplitSlotsHoldNew(c0: Canvas, eraserBox: Box, k: nat)
    requires Valid(c0) && k <= |c0.pathArray|
    ensures forall j :: 0 <= j < |Hits(c0, eraserBox, k)| ==>
      SplitUpTo(c0, eraserBox, k).pathArray[Hits(c0, eraserBox, k)[j]] == |c0.tools| + j
  {
    if k > 0 {
      SplitSlotsHoldNew(c0, eraserBox, k - 1);
      var c := SplitUpTo(c0, eraserBox, k - 1);
      var before := Hits(c0, eraserBox, k - 1);
      if Hit(c0, eraserBox, k - 1) {
        var h := |c0.tools| + |before|;
        assert |c.tools| == h;
        var path := SplitUpTo(c0, eraserBox, k).pathArray;
        assert path == c.pathArray[k - 1 := h] + [h];
        var hits := Hits(c0, eraserBox, k);
        assert hits == before + [k - 1];
        forall j | 0 <= j < |hits|
          ensures path[hits[j]] == |c0.tools| + j
        {
          if j < |before| {
            var i := before[j];
            assert hits[j] == i < k - 1;
            assert path[i] == c.pathArray[k - 1 := h][i] == c.pathArray[i] == |c0.tools| + j;
          } else {
            assert hits[j] == k - 1;
            assert path[k - 1] == c.pathArray[k - 1 := h][k - 1] == h;
          }
        }
      } else {
        assert SplitUpTo(c0, eraserBox, k) == c && Hits(c0, eraserBox, k) == before;
      }
    }
  }

  /** After k iterations, the j-th appended slot holds the j-th new object. */
  lemma {:induction false} SplitTailHoldsNew(c0: Canvas, eraserBox: Box, k: nat)
    requires Valid(c0) && k <= |c0.pathArray|
    ensures forall p :: |c0.pathArray| <= p < |SplitUpTo(c0, eraserBox, k).pathArray| ==>
      SplitUpTo(c0, eraserBox, k).pathArray[p] == |c0.tools| + (p - |c0.pathArray|)
  {
    if k > 0 {
      SplitTailHoldsNew(c0, eraserBox, k - 1);
      if Hit(c0, eraserBox, k - 1) {
        var c := SplitUpTo(c0, eraserBox, k - 1);
        var h := |c.tools|;
        assert SplitUpTo(c0, eraserBox, k).pathArray == c.pathArray[k - 1 := h] + [h];
      }
    }
  }

  /** The j-th new object is the marker for the j-th hit slot. */
  lemma {:induction false} SplitNewAreMarkers(c0: Canvas, eraserBox: Box, k: nat)
    requires Valid(c0) && k <= |c0.pathArray|
    ensures forall j :: 0 <= j < |Hits(c0, eraserBox, k)| ==>
      SplitUpTo(c0, eraserBox, k).tools[|c0.tools| + j] ==
        SplitMarker(c0.tools[c0.pathArray[Hits(c0, eraserBox, k)[j]]], Hits(c0, eraserBox, k)[j])
  {
    if k > 0 {
      SplitNewAreMarkers(c0, eraserBox, k - 1);
      if Hit(c0, eraserBox, k - 1) {
        var c := SplitUpTo(c0, eraserBox, k - 1);
        var before := Hits(c0, eraserBox, k - 1);
        var m := |c0.tools|;
        var tools := SplitUpTo(c0, eraserBox, k).tools;
        assert c.pathArray[k - 1] == c0.pathArray[k - 1] < m;
        assert c.tools[c.pathArray[k - 1]] == c0.tools[c0.pathArray[k - 1]] by {
          assert c.tools[..m][c.pathArray[k - 1]] == c.tools[c.pathArray[k - 1]];
        }
        assert tools == c.tools + [SplitMarker(c.tools[c.pathArray[k - 1]], k - 1)];
        assert Hits(c0, eraserBox, k) == before + [k - 1];
      }
    }
  }

  /** After k iterations the flag is as the last hit left it: set, and
      cleared when every active stroke is a marker. */
  lemma SplitFlag(c0: Canvas, eraserBox: Box, k: nat)
    requires Valid(c0) && k <= |c0.pathArray|
    ensures var r := SplitUpTo(c0, eraserBox, k);
      r.hasChanges == (if Hits(c0, eraserBox, k) == [] then c0.hasChanges else !AllSplit(r.tools, r.pathArray))
  {
    if k > 0 {
      SplitFlag(c0, eraserBox, k - 1);
    }
  }

  /** An unhit slot keeps its stroke. */
  lemma EraserSplitKeeps(c: Canvas, eraserBox: Box, i: nat)
    requires Valid(c) && i < |c.pathArray| && !Hit(c, eraserBox, i)
    ensures Active(EraserSplit(c, eraserBox))[i] == Active(c)[i]
  {
    var r := EraserSplit(c, eraserBox);
    SplitKeepsUnhit(c, eraserBox, |c.pathArray|);
    assert r.tools[..|c.tools|][c.pathArray[i]] == r.tools[c.pathArray[i]];
  }

  /** A hit slot holds the marker for it: index i, the old path as backup,
      an empty path. */
  lemma EraserSplitBlanks(c: Canvas, eraserBox: Box, i: nat)
    requires Valid(c) && i < |c.pathArray| && Hit(c, eraserBox, i)
    ensures var r := EraserSplit(c, eraserBox);
      Active(r)[i] == SplitMarker(Active(c)[i], i) &&
      Active(r)[i].index == Some(i) && Active(r)[i].backupPath == Some(Active(c)[i].path) &&
      Active(r)[i].path == []
  {
    var n := |c.pathArray|;
    var hits := Hits(c, eraserBox, n);
    SplitSlotsHoldNew(c, eraserBox, n);
    SplitNewAreMarkers(c, eraserBox, n);
    HitsExact(c, eraserBox, n);
    var j :| 0 <= j < |hits| && hits[j] == i;
  }

  /** The split step as a whole. For each hit slot i, slot i now holds a
      marker with index i, the old path as backup and an empty path, and the
      same marker object is appended at the end, in slot order. Unhit slots
      keep their stroke, the list grows by exactly the number of hits, the
      buffer and every existing object are untouched. */
  lemma EraserSplitSpec(c: Canvas, eraserBox: Box)
    requires Valid(c)
    ensures var r := EraserSplit(c, eraserBox);
      var n := |c.pathArray|;
      var hits := Hits(c, eraserBox, n);
      |r.pathArray| == n + |hits| &&
      r.bufferArray == c.bufferArray && r.tools[..|c.tools|] == c.tools &&
      (forall i :: 0 <= i < n && !Hit(c, eraserBox, i) ==> Active(r)[i] == Active(c)[i]) &&
      (forall i :: 0 <= i < n && Hit(c, eraserBox, i) ==> Active(r)[i] == SplitMarker(Active(c)[i], i)) &&
      (forall j :: 0 <= j < |hits| ==> r.pathArray[n + j] == r.pathArray[hits[j]]) &&
      r.hasChanges == (if hits == [] then c.hasChanges else !AllSplit(r.tools, r.pathArray))
  {
    var n := |c.pathArray|;
    SplitSlotsHoldNew(c, eraserBox, n);
    SplitTailHoldsNew(c, eraserBox, n);
    SplitFlag(c, eraserBox, n);
    forall i | 0 <= i < n && !Hit(c, eraserBox, i)
      ensures Active(EraserSplit(c, eraserBox))[i] == Active(c)[i]
    {
      EraserSplitKeeps(c, eraserBox, i);
    }
    forall i | 0 <= i < n && Hit(c, eraserBox, i)
      ensures Active(EraserSplit(c, eraserBox))[i] == SplitMarker(Active(c)[i], i)
    {
      EraserSplitBlanks(c, eraserBox, i);
    }
  }

  /** Markers never get hit: a blanked path has the null box. */
  lemma MarkersAreNotHit(c: Canvas, eraserBox: Box, i: nat)
    requires Valid(c) && i < |c.pathArray| && IsSplitMarker(c.tools[c.pathArray[i]])
    ensures !Hit(c, eraserBox, i)
  {
    assert WellFormed(c.tools[c.pathArray[i]]);
    EmptyPathIntersectsNothing(c.tools[c.pathArray[i]].path, eraserBox);
  }

  /** Erasing over pen strokes and then undoing once gives the last hit slot
      back its original geometry and samples, and sends the marker from the
      top to the buffer. */
  lemma EraseThenUndoRestoresLastHit(c: Canvas, eraserBox: Box)
    requires Valid(c)
    requires |Hits(c, eraserBox, |c.pathArray|)| > 0
    ensures var r := EraserSplit(c, eraserBox);
      var hits := Hits(c, eraserBox, |c.pathArray|);
      var i := hits[|hits| - 1];
      TopMarkerInSlot(r) && UndoSafe(r) &&
      var u := Undo(r);
      |u.pathArray| == |r.pathArray| - 1 &&
      u.bufferArray == c.bufferArray + [Last(r.pathArray)] &&
      Active(u)[i].path == Active(c)[i].path &&
      Active(u)[i].coordinates == Active(c)[i].coordinates &&
      !IsSplitMarker(Active(u)[i])
  {
    var r := EraserSplit(c, eraserBox);
    var n := |c.pathArray|;
    var hits := Hits(c, eraserBox, n);
    var last := |hits| - 1;
    var i := hits[last];
    SplitSlotsHoldNew(c, eraserBox, n);
    SplitTailHoldsNew(c, eraserBox, n);
    HitsExact(c, eraserBox, n);
    EraserSplitSpec(c, eraserBox);
    assert r.pathArray[n + last] == r.pathArray[i];
    assert Last(r.pathArray) == r.pathArray[n + last];
    UndoRestoresSplitSlot(r);
  }

  /** pinch has no split restoration: pinching right after a split moves the
      last marker to the buffer while its own slot still names it, so one
      object then sits in both lists. */
  lemma PinchAfterSplitShares(c: Canvas, eraserBox: Box)
    requires Valid(c)
    requires |Hits(c, eraserBox, |c.pathArray|)| > 0
    ensures var r := EraserSplit(c, eraserBox);
      var hits := Hits(c, eraserBox, |c.pathArray|);
      var i := hits[|hits| - 1];
      var p := Pinch(r);
      i < |p.pathArray| && |p.bufferArray| > 0 && p.pathArray[i] == Last(p.bufferArray)
  {
    var r := EraserSplit(c, eraserBox);
    var n := |c.pathArray|;
    var hits := Hits(c, eraserBox, n);
    var last := |hits| - 1;
    var i := hits[last];
    SplitTailHoldsNew(c, eraserBox, n);
    EraserSplitSpec(c, eraserBox);
    assert r.pathArray[n + last] == r.pathArray[i];
    assert Last(r.pathArray) == r.pathArray[n + last];
    var p := Pinch(r);
    assert p.pathArray[i] == r.pathArray[i];
  }

  /** Erasing a lone pen stroke, pinching, then undoing loses the stroke:
      undo writes the restored copy into slot 0 and then removes that same
      slot, so the active list is empty while the buffer holds the marker
      twice. The next redo writes into slot 0 of the empty list, the
      `pathArray[tool.index!] = tool` trap. */
  lemma PinchThenUndoLosesErasedStroke(a: Stroke, eraserBox: Box)
    requires WellFormed(a) && !IsSplitMarker(a) && IsPenTool(a)
    requires Intersects(BoundingBox(a.path), eraserBox)
    ensures var r := EraserSplit(Canvas([a], [0], [], false), eraserBox);
      r == Canvas([a, SplitMarker(a, 0)], [1, 1], [], false) &&
      UndoSafe(Pinch(r)) && Undo(Pinch(r)).pathArray == [] && Undo(Pinch(r)).bufferArray == [1, 1] &&
      !RedoSafe(Undo(Pinch(r)))
  {
    var c := Canvas([a], [0], [], false);
    SplitUpToNext(c, eraserBox, 0);
    var r := EraserSplit(c, eraserBox);
    assert r == SplitAt(c, 0);
    assert AllSplit(r.tools, r.pathArray);
  }
}
