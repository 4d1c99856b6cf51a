/** `BMS.BMSDataJSONEncoder.default` (bms.py:66-106): the JSON object each
    chart value becomes. The text json.dump writes from these objects is not
    modelled; a `Fraction` field is kept as the number whose `str(...)` the
    encoder writes. */
module BmsJson {
  import opened Basics
  import opened BmsTypes
  import opened BmsParser

  datatype Json =
    | JInt(i: int)
    | JNum(r: real)
    | JStr(s: string)
    /** `str(Fraction)` of this value. */
    | JFraction(q: real)
    | JArr(items: seq<Json>)
    | JObj(fields: seq<(string, Json)>)

  /** The value under the first field named `key`. */
  function Field(fields: seq<(string, Json)>, key: string): Option<Json>
  {
    if fields == [] then None
    else if fields[0].0 == key then Some(fields[0].1)
    else Field(fields[1..], key)
  }

  function Keys(fields: seq<(string, Json)>): (r: seq<string>)
    ensures |r| == |fields| && forall i :: 0 <= i < |r| ==> r[i] == fields[i].0
  {
    seq(|fields|, i requires 0 <= i < |fields| => fields[i].0)
  }

  /** The JSON key of note lane `k`. */
  function LaneKey(k: nat): string
    requires k < 8
  {
    ["notes_scratch", "notes_one", "notes_two", "notes_three",
     "notes_four", "notes_five", "notes_six", "notes_seven"][k]
  }

  function EncodeList<T>(xs: seq<T>, f: T -> Json): (j: Json)
    ensures j.JArr? && |j.items| == |xs|
    ensures forall i :: 0 <= i < |xs| ==> j.items[i] == f(xs[i])
  {
    JArr(seq(|xs|, i requires 0 <= i < |xs| => f(xs[i])))
  }

  function EncodeExBpmDef(d: ExBpmDef): Json
  {
    JObj([("order", JInt(d.order)), ("bpm", JNum(d.bpm))])
  }

  function EncodeWavDef(d: WavDef): Json
  {
    JObj([("order", JInt(d.order)), ("wav", JStr(d.wav))])
  }

  function EncodeStopDef(d: StopDef): Json
  {
    JObj([("order", JInt(d.order)), ("value", JInt(d.value))])
  }

  function EncodeNote(n: Note): Json
  {
    JObj([("timing", JFraction(n.timing)), ("defwav", JInt(n.defwav))])
  }

  function EncodeBpmNote(b: BpmNote): Json
  {
    JObj([("timing", JFraction(b.timing)), ("bpm", JNum(b.bpm))])
  }

  function EncodeStopNote(s: StopNote): Json
  {
    JObj([("timing", JFraction(s.timing)), ("duration", JFraction(s.duration))])
  }

  /** A bar; the background notes go under the key "backgroud", spelt as the
      encoder spells it, and the long-note lanes are not written. */
  function EncodeBar(b: BarInfo): Json
  {
    JObj([
      ("number", JInt(b.number)),
      ("backgroud", EncodeList(b.background, EncodeNote)),
      ("bpm", EncodeList(b.bpm, EncodeBpmNote)),
      ("beat", JFraction(b.beat)),
      ("stop", EncodeList(b.stops, EncodeStopNote)),
      (LaneKey(0), EncodeList(b.notes[0], EncodeNote)),
      (LaneKey(1), EncodeList(b.notes[1], EncodeNote)),
      (LaneKey(2), EncodeList(b.notes[2], EncodeNote)),
      (LaneKey(3), EncodeList(b.notes[3], EncodeNote)),
      (LaneKey(4), EncodeList(b.notes[4], EncodeNote)),
      (LaneKey(5), EncodeList(b.notes[5], EncodeNote)),
      (LaneKey(6), EncodeList(b.notes[6], EncodeNote)),
      (LaneKey(7), EncodeList(b.notes[7], EncodeNote))])
  }

  function EncodeChart(c: ChartState): Json
  {
    JObj([
      ("title", JStr(c.title)),
      ("genre", JStr(c.genre)),
      ("bpm", JNum(c.bpm)),
      ("exbpm", EncodeList(c.exbpm, EncodeExBpmDef)),
      ("wav", EncodeList(c.wav, EncodeWavDef)),
      ("stop", EncodeList(c.stop, EncodeStopDef)),
      ("bars", EncodeList(c.bars, EncodeBar))])
  }

  /** The keys of a bar object, in the order the encoder writes them. */
  const BarKeyNames: seq<string> :=
    ["number", "backgroud", "bpm", "beat", "stop", "notes_scratch", "notes_one", "notes_two",
     "notes_three", "notes_four", "notes_five", "notes_six", "notes_seven"]

  /** Length, first and last character: enough to tell the key names apart. */
  function Signature(s: string): (int, char, char)
    requires s != []
  {
    (|s|, s[0], s[|s| - 1])
  }

  /** No key name repeats. */
  lemma BarKeyNamesDistinct()
    ensures forall i, j :: 0 <= i < j < |BarKeyNames| ==> BarKeyNames[i] != BarKeyNames[j]
  {
    var sigs := [(6, 'n', 'r'), (9, 'b', 'd'), (3, 'b', 'm'), (4, 'b', 't'), (4, 's', 'p'),
                 (13, 'n', 'h'), (9, 'n', 'e'), (9, 'n', 'o'), (11, 'n', 'e'), (10, 'n', 'r'),
                 (10, 'n', 'e'), (9, 'n', 'x'), (11, 'n', 'n')];
    forall i | 0 <= i < |BarKeyNames|
      ensures BarKeyNames[i] != [] && Signature(BarKeyNames[i]) == sigs[i]
    {
    }
    forall i, j | 0 <= i < j < |BarKeyNames|
      ensures BarKeyNames[i] != BarKeyNames[j]
    {
      assert sigs[i] != sigs[j];
    }
  }

  /** The keys of a bar object: distinct, with "backgroud" and never
      "background". */
  lemma BarKeys(b: BarInfo)
    ensures EncodeBar(b).JObj?
    ensures Keys(EncodeBar(b).fields) ==
      ["number", "backgroud", "bpm", "beat", "stop", "notes_scratch", "notes_one", "notes_two",
       "notes_three", "notes_four", "notes_five", "notes_six", "notes_seven"]
    ensures "background" !in Keys(EncodeBar(b).fields)
    ensures DistinctKeys(EncodeBar(b).fields)
  {
    var ks := Keys(EncodeBar(b).fields);
    assert ks == BarKeyNames;
    BarKeyNamesDistinct();
    forall k | k in ks
      ensures k != "background"
    {
      assert |k| != |"background"| || k[3] != 'k';
    }
  }

  // ---- reading the objects back ----

  function DecodeItems<T>(items: seq<Json>, f: Json -> Option<T>): Option<seq<T>>
  {
    if items == [] then Some([])
    else match (DecodeItems(items[..|items| - 1], f), f(items[|items| - 1]))
      case (Some(xs), Some(x)) => Some(xs + [x])
      case _ => None
  }

  function DecodeList<T>(j: Json, f: Json -> Option<T>): Option<seq<T>>
  {
    if j.JArr? then DecodeItems(j.items, f) else None
  }

  function AsInt(j: Option<Json>): Option<int>
  {
    if j.Some? && j.value.JInt? then Some(j.value.i) else None
  }

  function AsNum(j: Option<Json>): Option<real>
  {
    if j.Some? && j.value.JNum? then Some(j.value.r) else None
  }

  function AsFraction(j: Option<Json>): Option<real>
  {
    if j.Some? && j.value.JFraction? then Some(j.value.q) else None
  }

  function AsStr(j: Option<Json>): Option<string>
  {
    if j.Some? && j.value.JStr? then Some(j.value.s) else None
  }

  function DecodeNote(j: Json): Option<Note>
  {
    if !j.JObj? then None
    else match (AsFraction(Field(j.fields, "timing")), AsInt(Field(j.fields, "defwav")))
      case (Some(t), Some(w)) => Some(Note(t, w))
      case _ => None
  }

  function DecodeBpmNote(j: Json): Option<BpmNote>
  {
    if !j.JObj? then None
    else match (AsFraction(Field(j.fields, "timing")), AsNum(Field(j.fields, "bpm")))
      case (Some(t), Some(v)) => Some(BpmNote(t, v))
      case _ => None
  }

  function DecodeStopNote(j: Json): Option<StopNote>
  {
    if !j.JObj? then None
    else match (AsFraction(Field(j.fields, "timing")), AsFraction(Field(j.fields, "duration")))
      case (Some(t), Some(d)) => Some(StopNote(t, d))
      case _ => None
  }

  function DecodeExBpmDef(j: Json): Option<ExBpmDef>
  {
    if !j.JObj? then None
    else match (AsInt(Field(j.fields, "order")), AsNum(Field(j.fields, "bpm")))
      case (Some(o), Some(v)) => if o >= 0 then Some(ExBpmDef(o, v)) else None
      case _ => None
  }

  function DecodeWavDef(j: Json): Option<WavDef>
  {
    if !j.JObj? then None
    else match (AsInt(Field(j.fields, "order")), AsStr(Field(j.fields, "wav")))
      case (Some(o), Some(w)) => if o >= 0 then Some(WavDef(o, w)) else None
      case _ => None
  }

  function DecodeStopDef(j: Json): Option<StopDef>
  {
    if !j.JObj? then None
    else match (AsInt(Field(j.fields, "order")), AsInt(Field(j.fields, "value")))
      case (Some(o), Some(v)) => if o >= 0 then Some(StopDef(o, v)) else None
      case _ => None
  }

  function DecodeLane(fields: seq<(string, Json)>, k: nat): Option<seq<Note>>
    requires k < 8
  {
    match Field(fields, LaneKey(k))
    case Some(j) => DecodeList(j, DecodeNote)
    case None => None
  }

  function DecodeListField<T>(fields: seq<(string, Json)>, key: string, f: Json -> Option<T>): Option<seq<T>>
  {
    match Field(fields, key)
    case Some(j) => DecodeList(j, f)
    case None => None
  }

  /** A bar read back from its object; its long-note lanes come back empty. */
  function DecodeBar(j: Json): Option<BarInfo>
  {
    if !j.JObj? then None
    else
      var fs := j.fields;
      var number, beat := AsInt(Field(fs, "number")), AsFraction(Field(fs, "beat"));
      var background := DecodeListField(fs, "backgroud", DecodeNote);
      var bpm := DecodeListField(fs, "bpm", DecodeBpmNote);
      var stops := DecodeListField(fs, "stop", DecodeStopNote);
      var l0, l1, l2, l3 := DecodeLane(fs, 0), DecodeLane(fs, 1), DecodeLane(fs, 2), DecodeLane(fs, 3);
      var l4, l5, l6, l7 := DecodeLane(fs, 4), DecodeLane(fs, 5), DecodeLane(fs, 6), DecodeLane(fs, 7);
      if number.Some? && beat.Some? && background.Some? && bpm.Some? && stops.Some? &&
         l0.Some? && l1.Some? && l2.Some? && l3.Some? && l4.Some? && l5.Some? && l6.Some? && l7.Some?
      then
        var notes: Lanes<Note> :=
          [l0.value, l1.value, l2.value, l3.value, l4.value, l5.value, l6.value, l7.value];
        Some(BarInfo(number.value, notes, EmptyLanes(), background.value, bpm.value, stops.value, beat.value))
      else None
  }

  function DecodeChart(j: Json): Option<ChartState>
  {
    if !j.JObj? then None
    else
      var fs := j.fields;
      if AsStr(Field(fs, "title")).Some? && AsStr(Field(fs, "genre")).Some? &&
         AsNum(Field(fs, "bpm")).Some? &&
         DecodeListField(fs, "exbpm", DecodeExBpmDef).Some? &&
         DecodeListField(fs, "wav", DecodeWavDef).Some? &&
         DecodeListField(fs, "stop", DecodeStopDef).Some? &&
         DecodeListField(fs, "bars", DecodeBar).Some?
      then
        Some(ChartState(AsStr(Field(fs, "title")).value, AsStr(Field(fs, "genre")).value,
          AsNum(Field(fs, "bpm")).value,
          DecodeListField(fs, "exbpm", DecodeExBpmDef).value,
          DecodeListField(fs, "wav", DecodeWavDef).value,
          DecodeListField(fs, "stop", DecodeStopDef).value,
          DecodeListField(fs, "bars", DecodeBar).value))
      else None
  }

  /** A list reads back element by element. */
  lemma {:induction false} DecodeEncodeList<T>(xs: seq<T>, enc: T -> Json, dec: Json -> Option<T>)
    requires forall x :: x in xs ==> dec(enc(x)) == Some(x)
    ensures DecodeList(EncodeList(xs, enc), dec) == Some(xs)
  {
    if xs != [] {
      var p := xs[..|xs| - 1];
      DecodeEncodeList(p, enc, dec);
      assert EncodeList(xs, enc).items[..|xs| - 1] == EncodeList(p, enc).items;
      assert p + [xs[|xs| - 1]] == xs;
    }
  }

  predicate DistinctKeys(fields: seq<(string, Json)>)
  {
    forall i, j :: 0 <= i < j < |fields| ==> fields[i].0 != fields[j].0
  }

  /** In an object whose keys are distinct, every key finds its own value. */
  lemma EveryFieldFound(fields: seq<(string, Json)>)
    requires DistinctKeys(fields)
    ensures forall i :: 0 <= i < |fields| ==> Field(fields, fields[i].0) == Some(fields[i].1)
  {
    forall i | 0 <= i < |fields|
      ensures Field(fields, fields[i].0) == Some(fields[i].1)
    {
      FieldOfDistinct(fields, i);
    }
  }

  /** In an object whose keys are distinct, each key finds its own value. */
  lemma {:induction false} FieldOfDistinct(fields: seq<(string, Json)>, i: nat)
    requires DistinctKeys(fields) && i < |fields|
    ensures Field(fields, fields[i].0) == Some(fields[i].1)
  {
    if i > 0 {
      assert fields[0].0 != fields[i].0;
      FieldOfDistinct(fields[1..], i - 1);
    }
  }

  lemma NoteRoundTrip(n: Note)
    ensures DecodeNote(EncodeNote(n)) == Some(n)
  {
    var fs := EncodeNote(n).fields;
    assert DistinctKeys(fs) by { assert fs[0].0[0] != fs[1].0[0]; }
    FieldOfDistinct(fs, 0);
    FieldOfDistinct(fs, 1);
  }

  lemma BpmNoteRoundTrip(b: BpmNote)
    ensures DecodeBpmNote(EncodeBpmNote(b)) == Some(b)
  {
    var fs := EncodeBpmNote(b).fields;
    assert DistinctKeys(fs) by { assert fs[0].0[0] != fs[1].0[0]; }
    FieldOfDistinct(fs, 0);
    FieldOfDistinct(fs, 1);
  }

  lemma StopNoteRoundTrip(s: StopNote)
    ensures DecodeStopNote(EncodeStopNote(s)) == Some(s)
  {
    var fs := EncodeStopNote(s).fields;
    assert DistinctKeys(fs) by { assert fs[0].0[0] != fs[1].0[0]; }
    FieldOfDistinct(fs, 0);
    FieldOfDistinct(fs, 1);
  }

  lemma ExBpmDefRoundTrip(d: ExBpmDef)
    ensures DecodeExBpmDef(EncodeExBpmDef(d)) == Some(d)
  {
    var fs := EncodeExBpmDef(d).fields;
    assert DistinctKeys(fs) by { assert fs[0].0[0] != fs[1].0[0]; }
    FieldOfDistinct(fs, 0);
    FieldOfDistinct(fs, 1);
  }

  lemma WavDefRoundTrip(d: WavDef)
    ensures DecodeWavDef(EncodeWavDef(d)) == Some(d)
  {
    var fs := EncodeWavDef(d).fields;
    assert DistinctKeys(fs) by { assert fs[0].0[0] != fs[1].0[0]; }
    FieldOfDistinct(fs, 0);
    FieldOfDistinct(fs, 1);
  }

  lemma StopDefRoundTrip(d: StopDef)
    ensures DecodeStopDef(EncodeStopDef(d)) == Some(d)
  {
    var fs := EncodeStopDef(d).fields;
    assert DistinctKeys(fs) by { assert fs[0].0[0] != fs[1].0[0]; }
    FieldOfDistinct(fs, 0);
    FieldOfDistinct(fs, 1);
  }

  /** Each key of a bar object finds the encoding of its own field. */
  lemma BarFields(b: BarInfo)
    ensures var fs := EncodeBar(b).fields;
      Field(fs, "number") == Some(JInt(b.number)) &&
      Field(fs, "beat") == Some(JFraction(b.beat)) &&
      Field(fs, "backgroud") == Some(EncodeList(b.background, EncodeNote)) &&
      Field(fs, "bpm") == Some(EncodeList(b.bpm, EncodeBpmNote)) &&
      Field(fs, "stop") == Some(EncodeList(b.stops, EncodeStopNote)) &&
      forall k :: 0 <= k < 8 ==> Field(fs, LaneKey(k)) == Some(EncodeList(b.notes[k], EncodeNote))
  {
    var fs := EncodeBar(b).fields;
    BarKeys(b);
    EveryFieldFound(fs);
    assert fs[0].0 == "number" && fs[1].0 == "backgroud" && fs[2].0 == "bpm";
    assert fs[3].0 == "beat" && fs[4].0 == "stop";
    forall k | 0 <= k < 8
      ensures Field(fs, LaneKey(k)) == Some(EncodeList(b.notes[k], EncodeNote))
    {
      assert fs[5 + k] == (LaneKey(k), EncodeList(b.notes[k], EncodeNote));
    }
  }

  /** A list of notes reads back. */
  lemma NotesRoundTrip(notes: seq<Note>)
    ensures DecodeList(EncodeList(notes, EncodeNote), DecodeNote) == Some(notes)
  {
    forall n | n in notes
      ensures DecodeNote(EncodeNote(n)) == Some(n)
    {
      NoteRoundTrip(n);
    }
    DecodeEncodeList(notes, EncodeNote, DecodeNote);
  }

  /** An object whose fields read back as the parts of `b` reads back as `b`
      without its long-note lanes. */
  lemma DecodeBarFromFields(j: Json, b: BarInfo)
    requires j.JObj?
    requires AsInt(Field(j.fields, "number")) == Some(b.number)
    requires AsFraction(Field(j.fields, "beat")) == Some(b.beat)
    requires DecodeListField(j.fields, "backgroud", DecodeNote) == Some(b.background)
    requires DecodeListField(j.fields, "bpm", DecodeBpmNote) == Some(b.bpm)
    requires DecodeListField(j.fields, "stop", DecodeStopNote) == Some(b.stops)
    requires forall k :: 0 <= k < 8 ==> DecodeLane(j.fields, k) == Some(b.notes[k])
    ensures DecodeBar(j) == Some(b.(lnnotes := EmptyLanes()))
  {
    var fs := j.fields;
    var n := b.notes;
    assert DecodeLane(fs, 0) == Some(n[0]) && DecodeLane(fs, 1) == Some(n[1]);
    assert DecodeLane(fs, 2) == Some(n[2]) && DecodeLane(fs, 3) == Some(n[3]);
    assert DecodeLane(fs, 4) == Some(n[4]) && DecodeLane(fs, 5) == Some(n[5]);
    assert DecodeLane(fs, 6) == Some(n[6]) && DecodeLane(fs, 7) == Some(n[7]);
    assert n == [n[0], n[1], n[2], n[3], n[4], n[5], n[6], n[7]];
  }

  /** Everything in a bar but its long-note lanes survives the JSON. */
  lemma DecodeEncodeBar(b: BarInfo)
    ensures DecodeBar(EncodeBar(b)) == Some(b.(lnnotes := EmptyLanes()))
  {
    var j := EncodeBar(b);
    BarFields(b);
    NotesRoundTrip(b.background);
    forall x | x in b.bpm
      ensures DecodeBpmNote(EncodeBpmNote(x)) == Some(x)
    {
      BpmNoteRoundTrip(x);
    }
    forall x | x in b.stops
      ensures DecodeStopNote(EncodeStopNote(x)) == Some(x)
    {
      StopNoteRoundTrip(x);
    }
    DecodeEncodeList(b.bpm, EncodeBpmNote, DecodeBpmNote);
    DecodeEncodeList(b.stops, EncodeStopNote, DecodeStopNote);
    forall k | 0 <= k < 8
      ensures DecodeLane(j.fields, k) == Some(b.notes[k])
    {
      NotesRoundTrip(b.notes[k]);
    }
    DecodeBarFromFields(j, b);
  }

  function MapSeq<T>(xs: seq<T>, g: T -> T): (r: seq<T>)
    ensures |r| == |xs| && forall i :: 0 <= i < |xs| ==> r[i] == g(xs[i])
  {
    seq(|xs|, i requires 0 <= i < |xs| => g(xs[i]))
  }

  function StripLongNotes(b: BarInfo): BarInfo
  {
    b.(lnnotes := EmptyLanes())
  }

  /** The bars without their long-note lanes. */
  function WithoutLongNotes(bars: seq<BarInfo>): seq<BarInfo>
  {
    MapSeq(bars, StripLongNotes)
  }

  /** The keys of a chart object are distinct. */
  lemma ChartKeys(c: ChartState)
    ensures Keys(EncodeChart(c).fields) == ["title", "genre", "bpm", "exbpm", "wav", "stop", "bars"]
    ensures DistinctKeys(EncodeChart(c).fields)
  {
    var fs := EncodeChart(c).fields;
    forall i, j | 0 <= i < j < |fs|
      ensures fs[i].0 != fs[j].0
    {
      var a, d := fs[i].0, fs[j].0;
      assert (|a|, a[0], a[|a| - 1]) != (|d|, d[0], d[|d| - 1]);
    }
  }

  /** An object whose fields read back as the parts of `c` reads back as `c`. */
  lemma DecodeChartFromFields(j: Json, c: ChartState)
    requires j.JObj?
    requires AsStr(Field(j.fields, "title")) == Some(c.title)
    requires AsStr(Field(j.fields, "genre")) == Some(c.genre)
    requires AsNum(Field(j.fields, "bpm")) == Some(c.bpm)
    requires DecodeListField(j.fields, "exbpm", DecodeExBpmDef) == Some(c.exbpm)
    requires DecodeListField(j.fields, "wav", DecodeWavDef) == Some(c.wav)
    requires DecodeListField(j.fields, "stop", DecodeStopDef) == Some(c.stop)
    requires DecodeListField(j.fields, "bars", DecodeBar) == Some(c.bars)
    ensures DecodeChart(j) == Some(c)
  {
  }

  /** Each key of a chart object finds the encoding of its own field. */
  lemma ChartFields(c: ChartState)
    ensures var fs := EncodeChart(c).fields;
      Field(fs, "title") == Some(JStr(c.title)) &&
      Field(fs, "genre") == Some(JStr(c.genre)) &&
      Field(fs, "bpm") == Some(JNum(c.bpm)) &&
      Field(fs, "exbpm") == Some(EncodeList(c.exbpm, EncodeExBpmDef)) &&
      Field(fs, "wav") == Some(EncodeList(c.wav, EncodeWavDef)) &&
      Field(fs, "stop") == Some(EncodeList(c.stop, EncodeStopDef)) &&
      Field(fs, "bars") == Some(EncodeList(c.bars, EncodeBar))
  {
    var fs := EncodeChart(c).fields;
    ChartKeys(c);
    EveryFieldFound(fs);
    assert fs[0].0 == "title" && fs[1].0 == "genre" && fs[2].0 == "bpm" && fs[3].0 == "exbpm";
    assert fs[4].0 == "wav" && fs[5].0 == "stop" && fs[6].0 == "bars";
  }

  /** The three definition tables read back. */
  lemma TablesRoundTrip(c: ChartState)
    ensures DecodeList(EncodeList(c.exbpm, EncodeExBpmDef), DecodeExBpmDef) == Some(c.exbpm)
    ensures DecodeList(EncodeList(c.wav, EncodeWavDef), DecodeWavDef) == Some(c.wav)
    ensures DecodeList(EncodeList(c.stop, EncodeStopDef), DecodeStopDef) == Some(c.stop)
  {
    forall d | d in c.exbpm
      ensures DecodeExBpmDef(EncodeExBpmDef(d)) == Some(d)
    {
      ExBpmDefRoundTrip(d);
    }
    forall d | d in c.wav
      ensures DecodeWavDef(EncodeWavDef(d)) == Some(d)
    {
      WavDefRoundTrip(d);
    }
    forall d | d in c.stop
      ensures DecodeStopDef(EncodeStopDef(d)) == Some(d)
    {
      StopDefRoundTrip(d);
    }
    DecodeEncodeList(c.exbpm, EncodeExBpmDef, DecodeExBpmDef);
    DecodeEncodeList(c.wav, EncodeWavDef, DecodeWavDef);
    DecodeEncodeList(c.stop, EncodeStopDef, DecodeStopDef);
  }

  /** A chart survives the JSON, but for its bars' long-note lanes. */
  lemma DecodeEncodeChart(c: ChartState)
    ensures DecodeChart(EncodeChart(c)) == Some(c.(bars := WithoutLongNotes(c.bars)))
  {
    ChartFields(c);
    TablesRoundTrip(c);
    DecodeBarsList(c.bars);
    DecodeChartFromFields(EncodeChart(c), c.(bars := WithoutLongNotes(c.bars)));
  }

  lemma DecodeBarsList(bars: seq<BarInfo>)
    ensures DecodeList(EncodeList(bars, EncodeBar), DecodeBar) == Some(WithoutLongNotes(bars))
  {
    BarsRoundTrip(bars, EncodeBar, DecodeBar);
    DecodeEncodeListMapped(bars, EncodeBar, DecodeBar, StripLongNotes);
  }

  lemma BarsRoundTrip(bars: seq<BarInfo>, enc: BarInfo -> Json, dec: Json -> Option<BarInfo>)
    requires enc == EncodeBar && dec == DecodeBar
    ensures forall b :: b in bars ==> dec(enc(b)) == Some(StripLongNotes(b))
  {
    forall b | b in bars
      ensures dec(enc(b)) == Some(StripLongNotes(b))
    {
      DecodeEncodeBar(b);
    }
  }

  /** A list whose elements each read back as `g` of themselves reads back
      as the list mapped by `g`. */
  lemma {:induction false} DecodeEncodeListMapped<T>(xs: seq<T>, enc: T -> Json, dec: Json -> Option<T>, g: T -> T)
    requires forall x :: x in xs ==> dec(enc(x)) == Some(g(x))
    ensures DecodeList(EncodeList(xs, enc), dec) == Some(MapSeq(xs, g))
  {
    if xs != [] {
      var p := xs[..|xs| - 1];
      DecodeEncodeListMapped(p, enc, dec, g);
      assert EncodeList(xs, enc).items[..|xs| - 1] == EncodeList(p, enc).items;
      assert MapSeq(p, g) + [g(xs[|xs| - 1])] == MapSeq(xs, g);
    } else {
      assert MapSeq(xs, g) == [];
    }
  }
}
