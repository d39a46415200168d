// The plain-object export of the active strokes (mapCurrentSketchToPlainObject)
// and the import that rebuilds pen strokes from it (loadDraw).

module Serializer {
  import opened Optional
  import opened Geometry
  import opened Strokes
  import opened History

  /** SketchConstants: the keys of one exported coordinate entry. */
  const PREVIOUS_POINT1_KEY: string := "previousPointKey"
  const PREVIOUS_POINT2_KEY: string := "previousPoint2Key"
  const CURRENT_POINT_KEY: string := "currentPointKey"

  /** One `[String: CGPoint]` dictionary, and the entries of one stroke. */
  type Entry = map<string, Point>
  type Record = seq<Entry>

  function EntryOf(c: Coordinates): Entry {
    map[PREVIOUS_POINT1_KEY := c.previousPoint1,
        PREVIOUS_POINT2_KEY := c.previousPoint2,
        CURRENT_POINT_KEY := c.currentPoint]
  }

  /** The keys loadDraw force-unwraps. */
  predicate HasAllKeys(e: Entry) {
    PREVIOUS_POINT2_KEY in e && PREVIOUS_POINT1_KEY in e && CURRENT_POINT_KEY in e
  }

  predicate AllKeyed(records: seq<Record>) {
    forall k, i :: 0 <= k < |records| && 0 <= i < |records[k]| ==> HasAllKeys(records[k][i])
  }

  function SampleOf(e: Entry): Coordinates
    requires HasAllKeys(e)
  {
    Coordinates(e[PREVIOUS_POINT2_KEY], e[PREVIOUS_POINT1_KEY], e[CURRENT_POINT_KEY])
  }

  /** An entry has exactly the three keys and reads back as the sample it came from. */
  lemma EntryRoundTrip(c: Coordinates)
    ensures EntryOf(c).Keys == {PREVIOUS_POINT1_KEY, PREVIOUS_POINT2_KEY, CURRENT_POINT_KEY}
    ensures HasAllKeys(EntryOf(c)) && SampleOf(EntryOf(c)) == c
  {
  }

  function SamplesOf(record: Record): (cs: seq<Coordinates>)
    requires forall i :: 0 <= i < |record| ==> HasAllKeys(record[i])
    ensures |cs| == |record|
  {
    seq(|record|, i requires 0 <= i < |record| => SampleOf(record[i]))
  }

  /** One entry per sample, in sample order, each reading back as that sample. */
  function RecordOf(s: Stroke): (r: Record)
    ensures |r| == |s.coordinates|
    ensures forall i :: 0 <= i < |r| ==> HasAllKeys(r[i]) && SampleOf(r[i]) == s.coordinates[i]
    ensures SamplesOf(r) == s.coordinates
  {
    var r := seq(|s.coordinates|, i requires 0 <= i < |s.coordinates| => EntryOf(s.coordinates[i]));
    assert forall i :: 0 <= i < |r| ==> HasAllKeys(r[i]) && SampleOf(r[i]) == s.coordinates[i] by {
      forall i | 0 <= i < |r| ensures HasAllKeys(r[i]) && SampleOf(r[i]) == s.coordinates[i] {
        EntryRoundTrip(s.coordinates[i]);
      }
    }
    r
  }

  /** A stroke is exported when it is a PenTool with a non-empty path. */
  predicate Exported(s: Stroke) {
    IsPenTool(s) && s.path != []
  }

  /** The exported strokes, in active-list order. */
  function Exportable(ss: seq<Stroke>): seq<Stroke> {
    if ss == [] then []
    else Exportable(ss[..|ss| - 1]) + (if Exported(ss[|ss| - 1]) then [ss[|ss| - 1]] else [])
  }

  function Export(ss: seq<Stroke>): (r: seq<Record>)
    ensures |r| == |Exportable(ss)|
  {
    var e := Exportable(ss);
    seq(|e|, i requires 0 <= i < |e| => RecordOf(e[i]))
  }

  /** Exporting a list with one more stroke adds at most that stroke's record. */
  lemma ExportAppend(ss: seq<Stroke>, s: Stroke)
    ensures Exportable(ss + [s]) == Exportable(ss) + (if Exported(s) then [s] else [])
    ensures Export(ss + [s]) == Export(ss) + (if Exported(s) then [RecordOf(s)] else [])
  {
    assert (ss + [s])[..|ss|] == ss;
  }

  /** The filter commutes with concatenation: order is kept, nothing is added. */
  lemma {:induction false} ExportableDistributes(a: seq<Stroke>, b: seq<Stroke>)
    ensures Exportable(a + b) == Exportable(a) + Exportable(b)
  {
    if b != [] {
      var n := |b| - 1;
      ExportableDistributes(a, b[..n]);
      assert a + b == (a + b[..n]) + [b[n]];
      assert b[..n] + [b[n]] == b;
      ExportAppend(a + b[..n], b[n]);
      ExportAppend(b[..n], b[n]);
    } else {
      assert a + b == a;
    }
  }

  /** Every exported stroke is one of the list's drawn pen strokes; with
      well-formed strokes, never a split marker. */
  lemma {:induction false} ExportableOnlyDrawnPens(ss: seq<Stroke>)
    ensures forall s :: s in Exportable(ss) ==> s in ss && Exported(s)
    ensures (forall i :: 0 <= i < |ss| ==> WellFormed(ss[i])) ==>
      forall s :: s in Exportable(ss) ==> !IsSplitMarker(s)
  {
    if ss != [] {
      var n := |ss| - 1;
      ExportableOnlyDrawnPens(ss[..n]);
      assert forall s :: s in ss[..n] ==> s in ss;
    }
  }

  /** The export is empty exactly when no stroke is a drawn pen stroke. */
  lemma {:induction false} ExportEmptyIffNothingDrawn(ss: seq<Stroke>)
    ensures Export(ss) == [] <==> forall i :: 0 <= i < |ss| ==> !Exported(ss[i])
  {
    if ss != [] {
      var n := |ss| - 1;
      ExportEmptyIffNothingDrawn(ss[..n]);
      assert forall i :: 0 <= i < n ==> ss[..n][i] == ss[i];
    }
  }

  /** The objects loadDraw creates for `records`, one per record in order,
      each a blank PenTool `blank` that replays the record's samples. */
  function Loaded(records: seq<Record>, blank: Stroke): (r: seq<Stroke>)
    requires AllKeyed(records)
    ensures |r| == |records|
  {
    seq(|records|, k requires 0 <= k < |records| => Replay(blank, SamplesOf(records[k])))
  }

  /** loadDraw's loop over the records: the k-th record's object is appended
      to the arena and its handle to the active list; nothing else changes. */
  function LoadAll(c: Canvas, records: seq<Record>, blank: Stroke): (r: Canvas)
    requires Valid(c) && WellFormed(blank) && !IsSplitMarker(blank) && AllKeyed(records)
    ensures Valid(r) && r.bufferArray == c.bufferArray && r.hasChanges == c.hasChanges
    ensures |r.tools| == |c.tools| + |records| && |r.pathArray| == |c.pathArray| + |records|
  {
    var loaded := Loaded(records, blank);
    assert forall k :: 0 <= k < |records| ==> WellFormed(loaded[k]) by {
      forall k | 0 <= k < |records| ensures WellFormed(loaded[k]) {
        ReplayAppends(blank, SamplesOf(records[k]));
      }
    }
    Canvas(c.tools + loaded, c.pathArray + seq(|records|, k => |c.tools| + k), c.bufferArray, c.hasChanges)
  }

  /** Importing no records changes nothing. */
  lemma LoadNothing(c: Canvas, blank: Stroke)
    requires Valid(c) && WellFormed(blank) && !IsSplitMarker(blank)
    ensures LoadAll(c, [], blank) == c
  {
    assert c.tools + [] == c.tools && c.pathArray + [] == c.pathArray;
  }

  lemma PrefixKeyed(records: seq<Record>, k: nat)
    requires AllKeyed(records) && k <= |records|
    ensures AllKeyed(records[..k])
  {
    var p := records[..k];
    forall j, i | 0 <= j < |p| && 0 <= i < |p[j]| ensures HasAllKeys(p[j][i]) {
      assert p[j] == records[j];
    }
  }

  /** One more record is one more object and one more slot, holding it. */
  lemma LoadAllNext(c: Canvas, records: seq<Record>, blank: Stroke, k: nat)
    requires Valid(c) && WellFormed(blank) && !IsSplitMarker(blank) && AllKeyed(records) && k < |records|
    ensures AllKeyed(records[..k]) && AllKeyed(records[..k + 1])
    ensures var d := LoadAll(c, records[..k], blank);
      LoadAll(c, records[..k + 1], blank) ==
        d.(tools := d.tools + [Replay(blank, SamplesOf(records[k]))], pathArray := d.pathArray + [|d.tools|])
    ensures !IsSplitMarker(Replay(blank, SamplesOf(records[k])))
  {
    ReplayAppends(blank, SamplesOf(records[k]));
    PrefixKeyed(records, k);
    PrefixKeyed(records, k + 1);
    var d := LoadAll(c, records[..k], blank);
    var e := LoadAll(c, records[..k + 1], blank);
    assert Loaded(records[..k + 1], blank) == Loaded(records[..k], blank) + [Replay(blank, SamplesOf(records[k]))];
    assert e.tools == d.tools + [Replay(blank, SamplesOf(records[k]))];
  }

  /** loadDraw: nothing for no records; with a non-pen drawing tool the first
      record creates a tool object and returns before adding it; otherwise
      every record is imported and the flag is set. */
  function LoadDraw(c: Canvas, records: seq<Record>, drawTool: ToolType, color: Color, width: real, alpha: real): (r: Canvas)
    requires Valid(c) && (IsPenToolType(drawTool) ==> AllKeyed(records))
    ensures Valid(r)
  {
    var blank := NewTool(drawTool, color, width, alpha);
    if records == [] then c
    else if !IsPenToolType(drawTool) then c.(tools := c.tools + [blank])
    else LoadAll(c, records, blank).(hasChanges := true)
  }

  /** Export followed by import: one new pen stroke per exported stroke, in
      order, carrying exactly the exported samples, the path those samples
      smooth into, the current style and no split fields. The strokes and
      slots already present are untouched. */
  lemma ExportThenLoad(c: Canvas, strokes: seq<Stroke>, color: Color, width: real, alpha: real)
    requires Valid(c)
    ensures var exported := Exportable(strokes);
      var r := LoadDraw(c, Export(strokes), Pen, color, width, alpha);
      var n := |c.pathArray|;
      |r.pathArray| == n + |exported| && r.pathArray[..n] == c.pathArray &&
      r.tools[..|c.tools|] == c.tools && r.bufferArray == c.bufferArray &&
      (forall k :: 0 <= k < |exported| ==>
        Active(r)[n + k] ==
          Stroke(Pen, PathOf(exported[k].coordinates), exported[k].coordinates, color, width, alpha, NORMAL_PEN, None, None))
  {
    var exported := Exportable(strokes);
    var records := Export(strokes);
    ExportIsKeyed(strokes);
    if records != [] {
      LoadPens(c, records, color, width, alpha);
      forall k | 0 <= k < |exported| ensures SamplesOf(records[k]) == exported[k].coordinates {
        assert records[k] == RecordOf(exported[k]);
      }
    }
  }

  /** Importing pen records: one new pen stroke per record, in order, with
      the record's samples, the path they smooth into and the current style;
      what was there before is untouched. */
  lemma LoadPens(c: Canvas, records: seq<Record>, color: Color, width: real, alpha: real)
    requires Valid(c) && AllKeyed(records)
    ensures var r := LoadDraw(c, records, Pen, color, width, alpha);
      var n := |c.pathArray|;
      |r.pathArray| == n + |records| && r.pathArray[..n] == c.pathArray &&
      r.tools[..|c.tools|] == c.tools && r.bufferArray == c.bufferArray &&
      r.hasChanges == (c.hasChanges || records != []) &&
      (forall k :: 0 <= k < |records| ==>
        Active(r)[n + k] ==
          Stroke(Pen, PathOf(SamplesOf(records[k])), SamplesOf(records[k]), color, width, alpha, NORMAL_PEN, None, None))
  {
    if records != [] {
      var blank := NewTool(Pen, color, width, alpha);
      LoadAllKeeps(c, records, blank);
      LoadAllActive(c, records, blank);
      forall k | 0 <= k < |records| {
        SamplesLoadAsPen(SamplesOf(records[k]), color, width, alpha);
      }
    }
  }

  /** The import leaves the objects and slots already present in place. */
  lemma LoadAllKeeps(c: Canvas, records: seq<Record>, blank: Stroke)
    requires Valid(c) && WellFormed(blank) && !IsSplitMarker(blank) && AllKeyed(records)
    ensures var r := LoadAll(c, records, blank);
      r.tools[..|c.tools|] == c.tools && r.pathArray[..|c.pathArray|] == c.pathArray
  {
  }

  /** The k-th new visible stroke replays the k-th record. */
  lemma LoadAllActive(c: Canvas, records: seq<Record>, blank: Stroke)
    requires Valid(c) && WellFormed(blank) && !IsSplitMarker(blank) && AllKeyed(records)
    ensures var r := LoadAll(c, records, blank);
      forall k :: 0 <= k < |records| ==> Active(r)[|c.pathArray| + k] == Replay(blank, SamplesOf(records[k]))
  {
    var r := LoadAll(c, records, blank);
    forall k | 0 <= k < |records|
      ensures Active(r)[|c.pathArray| + k] == Replay(blank, SamplesOf(records[k]))
    {
      LoadAllSlot(c, records, blank, k);
    }
  }

  /** The k-th imported record sits in the k-th new slot, as a fresh object
      replaying its samples. */
  lemma LoadAllSlot(c: Canvas, records: seq<Record>, blank: Stroke, k: nat)
    requires Valid(c) && WellFormed(blank) && !IsSplitMarker(blank) && AllKeyed(records) && k < |records|
    ensures var r := LoadAll(c, records, blank);
      r.pathArray[|c.pathArray| + k] == |c.tools| + k && r.tools[|c.tools| + k] == Replay(blank, SamplesOf(records[k]))
  {
  }

  /** Samples replayed into a blank pen in the current style give a pen
      stroke with exactly those samples and the path they smooth into. */
  lemma SamplesLoadAsPen(samples: seq<Coordinates>, color: Color, width: real, alpha: real)
    ensures Replay(NewTool(Pen, color, width, alpha), samples) ==
      Stroke(Pen, PathOf(samples), samples, color, width, alpha, NORMAL_PEN, None, None)
  {
    ReplayAppends(NewTool(Pen, color, width, alpha), samples);
    assert [] + samples == samples;
    assert [] + PathOf(samples) == PathOf(samples);
  }

  /** Every exported entry carries the three keys. */
  lemma ExportIsKeyed(strokes: seq<Stroke>)
    ensures AllKeyed(Export(strokes))
    ensures forall k :: 0 <= k < |Export(strokes)| ==> Export(strokes)[k] == RecordOf(Exportable(strokes)[k])
  {
    var records := Export(strokes);
    forall k, i | 0 <= k < |records| && 0 <= i < |records[k]| ensures HasAllKeys(records[k][i]) {
      assert records[k] == RecordOf(Exportable(strokes)[k]);
    }
  }
}
