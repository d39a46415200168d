// redrawView and copyPointsArray: every object on either list is re-tinted
// and rebuilt from its stored samples, in place, so the lists keep their
// handles and a marker keeps sitting in both of its slots.

module Redraw {
  import opened Optional
  import opened Geometry
  import opened Strokes
  import opened History

  /** The arena after copyPointsArray has processed every handle in `hs`. An
      object named twice is rebuilt twice, which is the same as once. */
  function RecolorHandles(tools: seq<Stroke>, hs: seq<nat>, color: Color): (r: seq<Stroke>)
    ensures |r| == |tools|
    ensures forall h :: 0 <= h < |tools| ==> r[h].tool == tools[h].tool && r[h].index == tools[h].index
    ensures forall h :: 0 <= h < |tools| && WellFormed(tools[h]) ==> WellFormed(r[h])
  {
    seq(|tools|, h requires 0 <= h < |tools| => if h in hs then Recolored(tools[h], color) else tools[h])
  }

  /** redrawView(lineColor:): both lists rebuilt in the new colour; the lists,
      their order and the flag stay as they were. */
  function RedrawView(c: Canvas, color: Color): (r: Canvas)
    requires Valid(c)
    ensures Valid(r)
    ensures r.pathArray == c.pathArray && r.bufferArray == c.bufferArray && r.hasChanges == c.hasChanges
  {
    c.(tools := RecolorHandles(c.tools, c.pathArray + c.bufferArray, color))
  }

  /** copyPointsArray handles one entry at a time: the k-th entry's object is
      rebuilt from what the earlier entries left there. */
  lemma RecolorNext(tools: seq<Stroke>, hs: seq<nat>, k: nat, color: Color)
    requires k < |hs| && hs[k] < |tools|
    ensures var before := RecolorHandles(tools, hs[..k], color);
      RecolorHandles(tools, hs[..k + 1], color) == before[hs[k] := Recolored(before[hs[k]], color)]
  {
    var before := RecolorHandles(tools, hs[..k], color);
    var after := RecolorHandles(tools, hs[..k + 1], color);
    var h := hs[k];
    PrefixNext(hs, k);
    forall g | 0 <= g < |tools|
      ensures after[g] == before[h := Recolored(before[h], color)][g]
    {
      if g == h {
        assert h in hs[..k + 1];
        RecoloredIdempotent(tools[h], color);
      } else {
        assert (g in hs[..k + 1]) == (g in hs[..k]);
      }
    }
  }

  /** Processing the active list and then the buffer is processing both. */
  lemma RecolorInTurn(tools: seq<Stroke>, a: seq<nat>, b: seq<nat>, color: Color)
    ensures RecolorHandles(RecolorHandles(tools, a, color), b, color) == RecolorHandles(tools, a + b, color)
  {
    var once := RecolorHandles(tools, a, color);
    forall h | 0 <= h < |tools|
      ensures RecolorHandles(once, b, color)[h] == RecolorHandles(tools, a + b, color)[h]
    {
      RecoloredIdempotent(tools[h], color);
    }
  }

  /** After a redraw every visible stroke is drawn in the new colour from its
      own samples: a plain stroke's path is their smoothing, a marker stays
      blank and keeps their smoothing as its backup. */
  lemma RedrawRebuildsFromSamples(c: Canvas, color: Color, i: nat)
    requires Valid(c) && i < |c.pathArray|
    ensures var s := Active(RedrawView(c, color))[i];
      var old_s := Active(c)[i];
      s.lineColor == color && s.coordinates == old_s.coordinates && s.tool == old_s.tool &&
      s.index == old_s.index &&
      (IsSplitMarker(s) ==> s.path == [] && s.backupPath == Some(PathOf(s.coordinates))) &&
      (!IsSplitMarker(s) ==> s.path == PathOf(s.coordinates))
  {
    assert c.pathArray[i] in c.pathArray + c.bufferArray;
  }

  /** Redrawing twice in the same colour is redrawing once. */
  lemma RedrawIdempotent(c: Canvas, color: Color)
    requires Valid(c)
    ensures RedrawView(RedrawView(c, color), color) == RedrawView(c, color)
  {
    var once := RedrawView(c, color);
    RecolorInTurn(c.tools, c.pathArray + c.bufferArray, c.pathArray + c.bufferArray, color);
    assert RecolorHandles(c.tools, (c.pathArray + c.bufferArray) + (c.pathArray + c.bufferArray), color)
      == RecolorHandles(c.tools, c.pathArray + c.bufferArray, color);
  }

  /** Objects on neither list are not touched. */
  lemma RedrawKeepsUnlisted(c: Canvas, color: Color, h: nat)
    requires Valid(c) && h < |c.tools| && h !in c.pathArray && h !in c.bufferArray
    ensures RedrawView(c, color).tools[h] == c.tools[h]
  {
  }
}
