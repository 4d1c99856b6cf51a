/** The chart reader `BMS` of bms.py:64-340: the header lines it keeps, the
    definition tables, and the bars it builds from the `#xxxyy:` lines. The
    file's lines are a parameter (opening and reading the file is not part
    of this model). A Python exception while reading makes the constructor
    fail, so an error here ends the parse and the state reached is of no
    further interest. */
module BmsParser {
  import opened Basics
  import opened Text
  import opened BmsTypes
  import opened BarStore
  import opened Merge
  import opened Decode

  /** Everything a `BMS` object holds. */
  datatype ChartState = ChartState(
    title: string,
    genre: string,
    bpm: real,
    exbpm: seq<ExBpmDef>,
    wav: seq<WavDef>,
    stop: seq<StopDef>,
    bars: seq<BarInfo>)

  /** The state `BMS.__init__` sets up before parsing. */
  function EmptyChart(): ChartState
  {
    ChartState([], [], 0.0, [], [], [], [])
  }

  /** The note lane each key channel fills: 16 is the scratch (lane 0),
      11 to 15 the keys 1 to 5, and 18 and 19 the keys 6 and 7. */
  function NoteLane(channel: string): (lane: Option<nat>)
    ensures lane.Some? ==> lane.value < 8
  {
    if channel == "16" then Some(0)
    else if channel == "11" then Some(1)
    else if channel == "12" then Some(2)
    else if channel == "13" then Some(3)
    else if channel == "14" then Some(4)
    else if channel == "15" then Some(5)
    else if channel == "18" then Some(6)
    else if channel == "19" then Some(7)
    else None
  }

  /** The routing is one to one: a lane is filled by exactly one channel. */
  lemma NoteLaneOneToOne(a: string, b: string)
    requires NoteLane(a).Some? && NoteLane(a) == NoteLane(b)
    ensures a == b
  {
  }

  /** Every lane has its channel. */
  lemma NoteLaneOnto(k: nat)
    requires k < 8
    ensures exists ch :: NoteLane(ch) == Some(k)
  {
    var chs := ["16", "11", "12", "13", "14", "15", "18", "19"];
    assert NoteLane(chs[k]) == Some(k);
  }

  /** What channel yy of a `#xxxyy:value` line does to the bar it names:
      an error, `None` when the decoded value is None (the `continue` of
      `__parse`, which leaves the bar unstored), or the bar to store.
      Channels nobody reads give the bar back unchanged. */
  function ChannelEffect(st: ChartState, bar: BarInfo, bl: BarLine): Result<Option<BarInfo>>
  {
    var ch := bl.channel;
    if NoteLane(ch).Some? then
      var k := NoteLane(ch).value;
      match DecodeNotes(bl.value)
      case Err(e) => Err(e)
      case Ok(None) => Ok(None)
      case Ok(Some(notes)) =>
        Ok(Some(bar.(notes := bar.notes[k := MergeSpec(notes, bar.notes[k], NoteTiming)])))
    else if ch == "01" then
      match DecodeNotes(bl.value)
      case Err(e) => Err(e)
      case Ok(None) => Ok(None)
      case Ok(Some(notes)) => Ok(Some(bar.(background := MergeAllItem(notes, bar.background))))
    else if ch == "03" then
      match DecodeBpms(bl.value)
      case Err(e) => Err(e)
      case Ok(None) => Ok(None)
      case Ok(Some(bpms)) => Ok(Some(bar.(bpm := MergeSpec(bpms, bar.bpm, BpmTiming))))
    else if ch == "08" then
      match DecodeExBpms(bl.value, st.exbpm)
      case Err(e) => Err(e)
      case Ok(None) => Ok(None)
      case Ok(Some(bpms)) => Ok(Some(bar.(bpm := MergeSpec(bpms, bar.bpm, BpmTiming))))
    else if ch == "09" then
      match DecodeStops(bl.value, st.stop)
      case Err(e) => Err(e)
      case Ok(None) => Ok(None)
      case Ok(Some(stops)) => Ok(Some(bar.(stops := MergeSpec(stops, bar.stops, StopTiming))))
    else if ch == "02" then
      match ParseFloat(bl.value)
      case None => Err(InvalidLiteral)
      case Some(beat) => Ok(Some(bar.(beat := beat)))
    else
      Ok(Some(bar))
  }

  /** What one `#xxxyy:value` line does to the chart: the bar numbered xxx
      is fetched (or created), changed according to channel yy, and stored
      back. */
  function ParseBarLine(st: ChartState, bl: BarLine): Result<ChartState>
  {
    match ChannelEffect(st, GetBar(st.bars, bl.number), bl)
    case Err(e) => Err(e)
    case Ok(None) => Ok(st)
    case Ok(Some(bar)) => Ok(st.(bars := SetBar(st.bars, bar)))
  }

  /** What one line of the file does to the chart, in the order `__parse`
      tries the line's forms. A line starting with `#BPM` is always taken
      as the base tempo, so the `#BPMxx` definition form (bms.py:245-251)
      is never reached and is left out. A `#STOPxx` definition is parsed
      but never stored. */
  function ParseLine(st: ChartState, line: string): Result<ChartState>
  {
    ParseDirective(st, RStrip(line))
  }

  /** The forms of a stripped line, tried in the source's order. */
  function ParseDirective(st: ChartState, l: string): Result<ChartState>
  {
    if !StartsWith(l, "#") then Ok(st)
    else if StartsWith(l, "#TITLE") then Ok(st.(title := From(l, 7)))
    else if StartsWith(l, "#GENRE") then Ok(st.(genre := From(l, 7)))
    else if StartsWith(l, "#BPM") then
      match ParseFloat(From(l, 5))
      case Some(v) => Ok(st.(bpm := v))
      case None => Err(InvalidLiteral)
    else ParseTableOrBar(st, l)
  }

  /** The definition tables and the bar lines, once no header matched. */
  function ParseTableOrBar(st: ChartState, l: string): Result<ChartState>
  {
    if MatchDefinition("#WAV", l).Some? then
      var (order, value) := MatchDefinition("#WAV", l).value;
      Ok(st.(wav := st.wav + [WavDef(order, value)]))
    else if MatchDefinition("#STOP", l).Some? then
      if ParseInt(MatchDefinition("#STOP", l).value.1).Some? then Ok(st) else Err(InvalidLiteral)
    else match MatchBarLine(l)
      case Some(bl) => ParseBarLine(st, bl)
      case None => Ok(st)
  }

  /** The lines in order, stopping at the first error. */
  function ParseLines(st: ChartState, lines: seq<string>): Result<ChartState>
    decreases lines
  {
    if lines == [] then Ok(st)
    else match ParseLine(st, lines[0])
      case Err(e) => Err(e)
      case Ok(next) => ParseLines(next, lines[1..])
  }

  /** Every bar after `BarInfo.sort`. */
  function SortAll(bars: seq<BarInfo>): seq<BarInfo>
  {
    seq(|bars|, i requires 0 <= i < |bars| => bars[i].Sort())
  }

  /** `__parse`: all lines, then every bar sorted. */
  function ParseChart(st: ChartState, lines: seq<string>): Result<ChartState>
  {
    match ParseLines(st, lines)
    case Err(e) => Err(e)
    case Ok(s) => Ok(s.(bars := SortAll(s.bars)))
  }

  /** A method's outcome agrees with the specified result: no error and the
      specified state, or the specified error. */
  predicate Reached(spec: Result<ChartState>, err: Option<Error>, st: ChartState)
  {
    match spec
    case Ok(s) => err.None? && st == s
    case Err(e) => err == Some(e)
  }

  /** The object `BMS(file)` builds, over the lines of the file. */
  class Bms {
    var title: string
    var genre: string
    var bpm: real
    var exbpm: seq<ExBpmDef>
    var wav: seq<WavDef>
    var stop: seq<StopDef>
    var bars: seq<BarInfo>

    function State(): ChartState
      reads this
    {
      ChartState(title, genre, bpm, exbpm, wav, stop, bars)
    }

    /** The fields as `__init__` sets them before parsing. */
    constructor ()
      ensures State() == EmptyChart()
    {
      title := [];
      genre := [];
      bpm := 0.0;
      exbpm := [];
      wav := [];
      stop := [];
      bars := [];
    }

    /** `__get_barinfo`: a scan for the first bar with this number. */
    method GetBarInfo(number: int) returns (bar: BarInfo)
      ensures bar == GetBar(bars, number)
    {
      for i := 0 to |bars|
        invariant forall k :: 0 <= k < i ==> bars[k].number != number
      {
        if bars[i].number == number {
          FindBarFirst(bars, number, i);
          return bars[i];
        }
      }
      return NewBar(number);
    }

    /** `__set_barinfo`: replace the first bar with this number, or append. */
    method SetBarInfo(bar: BarInfo)
      modifies this
      ensures State() == old(State()).(bars := SetBar(old(bars), bar))
    {
      for i := 0 to |bars|
        invariant State() == old(State())
        invariant forall k :: 0 <= k < i ==> bars[k].number != bar.number
      {
        if bars[i].number == bar.number {
          FindBarFirst(bars, bar.number, i);
          bars := bars[i := bar];
          return;
        }
      }
      bars := bars + [bar];
    }

    /** The bar-line branch of `__parse` (bms.py:268-337). */
    method ParseBarLineStep(bl: BarLine) returns (err: Option<Error>)
      modifies this
      ensures Reached(ParseBarLine(old(State()), bl), err, State())
    {
      var bar := GetBarInfo(bl.number);
      var ch := bl.channel;
      var lane := NoteLane(ch);
      if lane.Some? {
        var value := DecodeGridLoop(bl.value, NoteToken);
        if value.Err? {
          return Some(value.error);
        }
        if value.value.None? {
          return None;
        }
        var merged := MergeItem(value.value.value, bar.notes[lane.value], NoteTiming);
        bar := bar.(notes := bar.notes[lane.value := merged]);
      } else if ch == "01" {
        var value := DecodeGridLoop(bl.value, NoteToken);
        if value.Err? {
          return Some(value.error);
        }
        if value.value.None? {
          return None;
        }
        bar := bar.(background := MergeAllItem(value.value.value, bar.background));
      } else if ch == "03" {
        var value := DecodeGridLoop(bl.value, BpmToken);
        if value.Err? {
          return Some(value.error);
        }
        if value.value.None? {
          return None;
        }
        var merged := MergeItem(value.value.value, bar.bpm, BpmTiming);
        bar := bar.(bpm := merged);
      } else if ch == "08" {
        var value := DecodeGridLoop(bl.value, ExBpmDecoder(exbpm));
        if value.Err? {
          return Some(value.error);
        }
        if value.value.None? {
          return None;
        }
        var merged := MergeItem(value.value.value, bar.bpm, BpmTiming);
        bar := bar.(bpm := merged);
      } else if ch == "09" {
        var value := DecodeGridLoop(bl.value, StopDecoder(stop));
        if value.Err? {
          return Some(value.error);
        }
        if value.value.None? {
          return None;
        }
        var merged := MergeItem(value.value.value, bar.stops, StopTiming);
        bar := bar.(stops := merged);
      } else if ch == "02" {
        var beat := ParseFloat(bl.value);
        if beat.None? {
          return Some(InvalidLiteral);
        }
        bar := bar.(beat := beat.value);
      }
      SetBarInfo(bar);
      return None;
    }

    /** One pass of the loop of `__parse` (bms.py:226-337). */
    method ParseLineStep(line: string) returns (err: Option<Error>)
      modifies this
      ensures Reached(ParseLine(old(State()), line), err, State())
    {
      var l := RStrip(line);
      if !StartsWith(l, "#") {
        return None;
      }
      if StartsWith(l, "#TITLE") {
        title := From(l, 7);
        return None;
      }
      if StartsWith(l, "#GENRE") {
        genre := From(l, 7);
        return None;
      }
      if StartsWith(l, "#BPM") {
        var v := ParseFloat(From(l, 5));
        if v.None? {
          return Some(InvalidLiteral);
        }
        bpm := v.value;
        return None;
      }
      var m := MatchDefinition("#WAV", l);
      if m.Some? {
        wav := wav + [WavDef(m.value.0, m.value.1)];
        return None;
      }
      m := MatchDefinition("#STOP", l);
      if m.Some? {
        if ParseInt(m.value.1).None? {
          return Some(InvalidLiteral);
        }
        return None;
      }
      var b := MatchBarLine(l);
      if b.Some? {
        err := ParseBarLineStep(b.value);
      } else {
        err := None;
      }
    }

    /** The loop over the lines of `__parse` (bms.py:226-337). */
    method ParseAllLines(lines: seq<string>) returns (err: Option<Error>)
      modifies this
      ensures Reached(ParseLines(old(State()), lines), err, State())
    {
      for i := 0 to |lines|
        invariant ParseLines(old(State()), lines) == ParseLines(State(), lines[i..])
      {
        assert lines[i..] == [lines[i]] + lines[i + 1..];
        err := ParseLineStep(lines[i]);
        if err.Some? {
          return;
        }
      }
      assert lines[|lines|..] == [];
      err := None;
    }

    /** `for b in self.bars: b.sort()` (bms.py:339-340). */
    method SortEveryBar()
      modifies this
      ensures State() == old(State()).(bars := SortAll(old(bars)))
    {
      var sorted := bars;
      for i := 0 to |sorted|
        invariant |sorted| == |bars|
        invariant forall j :: 0 <= j < i ==> sorted[j] == bars[j].Sort()
        invariant forall j :: i <= j < |sorted| ==> sorted[j] == bars[j]
      {
        sorted := sorted[i := sorted[i].Sort()];
      }
      bars := sorted;
    }

    /** `__parse`: every line, then `sort` on every bar. */
    method Parse(lines: seq<string>) returns (err: Option<Error>)
      modifies this
      ensures Reached(ParseChart(old(State()), lines), err, State())
    {
      err := ParseAllLines(lines);
      if err.None? {
        SortEveryBar();
      }
    }
  }
}
