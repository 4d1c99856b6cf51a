/** What reading a chart guarantees, proved about the specification
    functions of `BmsParser`. */
module BmsProperties {
  import opened Basics
  import opened Text
  import opened BmsTypes
  import opened BarStore
  import opened Merge
  import opened Decode
  import opened BmsParser

  // ---- which lines reach the bar branch ----

  /** A line that `re_bar` matches is none of the earlier forms, since its
      second character is a digit. */
  lemma BarLineReachesBarBranch(l: string)
    requires MatchBarLine(l).Some?
    ensures StartsWith(l, "#")
    ensures !StartsWith(l, "#TITLE") && !StartsWith(l, "#GENRE") && !StartsWith(l, "#BPM")
    ensures MatchDefinition("#WAV", l).None? && MatchDefinition("#STOP", l).None?
  {
    assert IsDigit(l[1..6][0]);
  }

  /** The bar line a line of the file is, if `__parse` treats it as one. */
  function BarLineOf(line: string): Option<BarLine>
  {
    MatchBarLine(RStrip(line))
  }

  /** The bar numbers the lines name, in line order (with repeats). */
  function BarNumbers(lines: seq<string>): seq<int>
    decreases lines
  {
    if lines == [] then []
    else
      (match BarLineOf(lines[0]) case Some(bl) => [bl.number as int] case None => []) +
      BarNumbers(lines[1..])
  }

  // ---- one line ----

  /** `SetBar` only ever stores the given bar or keeps an existing one. */
  lemma SetBarElements(bars: seq<BarInfo>, bar: BarInfo)
    ensures forall b :: b in SetBar(bars, bar) ==> b in bars || b == bar
  {
    match FindBar(bars, bar.number)
    case Some(k) =>
      forall b | b in bars[k := bar]
        ensures b in bars || b == bar
      {
        var i :| 0 <= i < |bars| && bars[k := bar][i] == b;
        if i != k { assert b == bars[i]; }
      }
    case None =>
  }

  /** A bar line's decoders never answer None: the value is never empty. */
  lemma BarValueDecodes(st: ChartState, bl: BarLine)
    requires bl.value != []
    ensures DecodeNotes(bl.value) != Ok(None) && DecodeBpms(bl.value) != Ok(None)
    ensures DecodeExBpms(bl.value, st.exbpm) != Ok(None) && DecodeStops(bl.value, st.stop) != Ok(None)
  {
    DecodeGridEdges(bl.value, NoteToken);
    DecodeGridEdges(bl.value, BpmToken);
    DecodeGridEdges(bl.value, ExBpmDecoder(st.exbpm));
    DecodeGridEdges(bl.value, StopDecoder(st.stop));
  }

  /** A channel that succeeds on a non-empty value gives a bar to store,
      with the same number, and only channel 02 changes its beat. */
  lemma ChannelEffectKeeps(st: ChartState, bar: BarInfo, bl: BarLine)
    requires bl.value != []
    requires ChannelEffect(st, bar, bl).Ok?
    ensures ChannelEffect(st, bar, bl).value.Some?
    ensures ChannelEffect(st, bar, bl).value.value.number == bar.number
    ensures bl.channel != "02" ==> ChannelEffect(st, bar, bl).value.value.beat == bar.beat
  {
    BarValueDecodes(st, bl);
  }

  /** One line: the bar it names is registered, the definition tables other
      than `#WAVxx` never change, and `#WAVxx` only appends. */
  lemma ParseLineEffect(st: ChartState, line: string)
    requires ParseLine(st, line).Ok?
    ensures var s := ParseLine(st, line).value;
      s.exbpm == st.exbpm && s.stop == st.stop &&
      |st.wav| <= |s.wav| && s.wav[..|st.wav|] == st.wav &&
      Numbers(s.bars) == match BarLineOf(line)
        case Some(bl) => Touch(Numbers(st.bars), bl.number)
        case None => Numbers(st.bars)
    ensures var s := ParseLine(st, line).value;
      BarLineOf(line).None? ==> s.bars == st.bars
  {
    match BarLineOf(line)
    case Some(bl) =>
      BarLineNumbers(st, line, bl);
    case None =>
      NonBarLineEffect(st, line);
  }

  /** A bar line stores the bar its channel makes, and changes nothing else. */
  lemma BarLineStored(st: ChartState, line: string, bl: BarLine)
    requires BarLineOf(line) == Some(bl)
    requires ParseLine(st, line).Ok?
    ensures ChannelEffect(st, GetBar(st.bars, bl.number), bl).Ok?
    ensures ChannelEffect(st, GetBar(st.bars, bl.number), bl).value.Some?
    ensures ChannelEffect(st, GetBar(st.bars, bl.number), bl).value.value.number == bl.number
    ensures ParseLine(st, line) ==
      Ok(st.(bars := SetBar(st.bars, ChannelEffect(st, GetBar(st.bars, bl.number), bl).value.value)))
  {
    var l := RStrip(line);
    BarLineReachesBarBranch(l);
    assert ParseLine(st, line) == ParseBarLine(st, bl);
    ChannelEffectKeeps(st, GetBar(st.bars, bl.number), bl);
  }

  /** A bar line keeps every definition table and registers its bar number. */
  lemma BarLineNumbers(st: ChartState, line: string, bl: BarLine)
    requires BarLineOf(line) == Some(bl)
    requires ParseLine(st, line).Ok?
    ensures var s := ParseLine(st, line).value;
      s.exbpm == st.exbpm && s.stop == st.stop && s.wav == st.wav &&
      Numbers(s.bars) == Touch(Numbers(st.bars), bl.number)
  {
    BarLineStored(st, line, bl);
    var after := ChannelEffect(st, GetBar(st.bars, bl.number), bl).value.value;
    StoredNumbers(st, ParseLine(st, line).value, after);
  }

  /** Storing one bar keeps every definition table and touches its number. */
  lemma StoredNumbers(st: ChartState, s: ChartState, after: BarInfo)
    requires s == st.(bars := SetBar(st.bars, after))
    ensures s.exbpm == st.exbpm && s.stop == st.stop && s.wav == st.wav
    ensures Numbers(s.bars) == Touch(Numbers(st.bars), after.number)
  {
    SetBarNumbers(st.bars, after);
  }

  /** A line that is not a bar line keeps the bars and the `#BPMxx` and
      `#STOPxx` tables, and at most appends to `#WAVxx`. */
  lemma NonBarLineEffect(st: ChartState, line: string)
    requires BarLineOf(line).None?
    requires ParseLine(st, line).Ok?
    ensures var s := ParseLine(st, line).value;
      s.exbpm == st.exbpm && s.stop == st.stop && s.bars == st.bars &&
      |st.wav| <= |s.wav| && s.wav[..|st.wav|] == st.wav
  {
  }

  // ---- the whole file ----

  /** Over all lines: the tables other than `#WAVxx` never change, and the
      bars are exactly those named, once each, in order of first reference. */
  lemma {:induction false} ParseLinesEffect(st: ChartState, lines: seq<string>)
    requires ParseLines(st, lines).Ok?
    ensures var s := ParseLines(st, lines).value;
      s.exbpm == st.exbpm && s.stop == st.stop &&
      |st.wav| <= |s.wav| && s.wav[..|st.wav|] == st.wav &&
      Numbers(s.bars) == TouchAll(Numbers(st.bars), BarNumbers(lines))
    decreases lines
  {
    if lines != [] {
      var next := ParseLine(st, lines[0]).value;
      assert ParseLines(st, lines) == ParseLines(next, lines[1..]);
      ParseLineEffect(st, lines[0]);
      ParseLinesEffect(next, lines[1..]);
      var s := ParseLines(st, lines).value;
      assert s.wav[..|next.wav|] == next.wav;
      assert s.wav[..|st.wav|] == next.wav[..|st.wav|];
      TouchFirstLine(Numbers(st.bars), lines);
    }
  }

  /** Touching the numbers of `lines` is touching the first line's number,
      then the rest. */
  lemma TouchFirstLine(ns: seq<int>, lines: seq<string>)
    requires lines != []
    ensures TouchAll(ns, BarNumbers(lines)) ==
      TouchAll(match BarLineOf(lines[0]) case Some(bl) => Touch(ns, bl.number) case None => ns,
        BarNumbers(lines[1..]))
  {
    var rest := BarNumbers(lines[1..]);
    match BarLineOf(lines[0])
    case Some(bl) =>
      var head := [bl.number as int];
      assert BarNumbers(lines) == head + rest;
      assert head[..0] == [];
      assert TouchAll(ns, head) == Touch(ns, bl.number);
      TouchAllAppend(ns, head, rest);
    case None =>
      assert BarNumbers(lines) == [] + rest == rest;
  }

  /** Sorting every bar keeps the bar numbers. */
  lemma SortAllNumbers(bars: seq<BarInfo>)
    ensures Numbers(SortAll(bars)) == Numbers(bars)
  {
  }

  /** A chart read from the start: the `#BPMxx` and `#STOPxx` tables stay
      empty, the bars are exactly the bar numbers the lines name, each once,
      in order of first reference (no sorting by number and no filling of
      gaps), and every bar is sorted. */
  lemma ChartBars(lines: seq<string>)
    requires ParseChart(EmptyChart(), lines).Ok?
    ensures var s := ParseChart(EmptyChart(), lines).value;
      s.exbpm == [] && s.stop == [] &&
      Numbers(s.bars) == TouchAll([], BarNumbers(lines)) &&
      UniqueNumbers(s.bars) &&
      (forall n :: n in Numbers(s.bars) <==> n in BarNumbers(lines)) &&
      (forall i, j :: 0 <= i < j < |Numbers(s.bars)| ==>
        FirstIndex(BarNumbers(lines), Numbers(s.bars)[i]) < FirstIndex(BarNumbers(lines), Numbers(s.bars)[j])) &&
      (forall b :: b in s.bars ==> b.IsSorted())
  {
    var p := ParseLines(EmptyChart(), lines).value;
    ParseLinesEffect(EmptyChart(), lines);
    SortAllNumbers(p.bars);
    TouchAllUnique(BarNumbers(lines));
    TouchAllFirstTouch(BarNumbers(lines));
    var s := ParseChart(EmptyChart(), lines).value;
    assert Numbers(s.bars) == Numbers(p.bars);
    forall i, j | 0 <= i < j < |s.bars|
      ensures s.bars[i].number != s.bars[j].number
    {
      assert Numbers(s.bars)[i] == s.bars[i].number;
      assert Numbers(s.bars)[j] == s.bars[j].number;
    }
  }

  // ---- nothing before a bar's start ----

  /** No note and no tempo change lies before the bar's start, and the bar
      has no long-note item; every bar the parser builds is such a bar. */
  predicate StartsInBar(b: BarInfo)
  {
    (forall i, k :: 0 <= i < 8 && 0 <= k < |b.notes[i]| ==> 0.0 <= b.notes[i][k].timing) &&
    (forall k :: 0 <= k < |b.bpm| ==> 0.0 <= b.bpm[k].timing) &&
    (forall i :: 0 <= i < 8 ==> b.lnnotes[i] == [])
  }

  /** Merging events stamped at or after the start into a list of such
      events gives such a list. */
  lemma MergeAfterStart<T>(src: seq<T>, dst: seq<T>, key: T -> real)
    requires forall j :: 0 <= j < |src| ==> 0.0 <= key(src[j])
    requires forall j :: 0 <= j < |dst| ==> 0.0 <= key(dst[j])
    ensures forall j :: 0 <= j < |MergeSpec(src, dst, key)| ==> 0.0 <= key(MergeSpec(src, dst, key)[j])
  {
    var r := MergeSpec(src, dst, key);
    MergeSpecElements(src, dst, key);
    forall j | 0 <= j < |r|
      ensures 0.0 <= key(r[j])
    {
      assert r[j] in r;
      if r[j] in dst {
        var m :| 0 <= m < |dst| && dst[m] == r[j];
      } else {
        var m :| 0 <= m < |src| && src[m] == r[j];
      }
    }
  }

  /** A channel that stores a bar keeps it free of notes and tempo changes
      before its start: the decoders stamp each event with its position i/n. */
  lemma ChannelStartsInBar(st: ChartState, bar: BarInfo, bl: BarLine)
    requires StartsInBar(bar)
    requires ChannelEffect(st, bar, bl).Ok? && ChannelEffect(st, bar, bl).value.Some?
    ensures StartsInBar(ChannelEffect(st, bar, bl).value.value)
  {
    if NoteLane(bl.channel).Some? {
      var k := NoteLane(bl.channel).value;
      DecodedAfterStart(bl.value, NoteToken, NoteTiming);
      MergeAfterStart(DecodeNotes(bl.value).value.value, bar.notes[k], NoteTiming);
    } else if bl.channel == "03" {
      DecodedAfterStart(bl.value, BpmToken, BpmTiming);
      MergeAfterStart(DecodeBpms(bl.value).value.value, bar.bpm, BpmTiming);
    } else if bl.channel == "08" {
      DecodedAfterStart(bl.value, ExBpmDecoder(st.exbpm), BpmTiming);
      MergeAfterStart(DecodeExBpms(bl.value, st.exbpm).value.value, bar.bpm, BpmTiming);
    }
  }

  /** One line keeps every bar free of notes and tempo changes before its start. */
  lemma ParseLineStartsInBar(st: ChartState, line: string)
    requires forall b :: b in st.bars ==> StartsInBar(b)
    requires ParseLine(st, line).Ok?
    ensures forall b :: b in ParseLine(st, line).value.bars ==> StartsInBar(b)
  {
    ParseLineEffect(st, line);
    var l := RStrip(line);
    match MatchBarLine(l)
    case Some(bl) =>
      BarLineReachesBarBranch(l);
      assert ParseLine(st, line) == ParseBarLine(st, bl);
      var before := GetBar(st.bars, bl.number);
      assert StartsInBar(before) by {
        match FindBar(st.bars, bl.number)
        case Some(k) => assert before == st.bars[k];
        case None =>
      }
      ChannelEffectKeeps(st, before, bl);
      ChannelStartsInBar(st, before, bl);
      SetBarElements(st.bars, ChannelEffect(st, before, bl).value.value);
    case None =>
  }

  /** Over all lines, every bar stays free of notes and tempo changes before its start. */
  lemma {:induction false} ParseLinesStartsInBar(st: ChartState, lines: seq<string>)
    requires forall b :: b in st.bars ==> StartsInBar(b)
    requires ParseLines(st, lines).Ok?
    ensures forall b :: b in ParseLines(st, lines).value.bars ==> StartsInBar(b)
    decreases lines
  {
    if lines != [] {
      var next := ParseLine(st, lines[0]).value;
      assert ParseLines(st, lines) == ParseLines(next, lines[1..]);
      ParseLineStartsInBar(st, lines[0]);
      ParseLinesStartsInBar(next, lines[1..]);
    }
  }

  /** Sorting a bar moves its notes and tempo changes but keeps their timings. */
  lemma SortStartsInBar(b: BarInfo)
    requires StartsInBar(b)
    ensures StartsInBar(b.Sort())
  {
    var r := b.Sort();
    forall i, k | 0 <= i < 8 && 0 <= k < |r.notes[i]|
      ensures 0.0 <= r.notes[i][k].timing
    {
      assert r.notes[i][k] in multiset(b.notes[i]);
      var m :| 0 <= m < |b.notes[i]| && b.notes[i][m] == r.notes[i][k];
    }
    forall k | 0 <= k < |r.bpm|
      ensures 0.0 <= r.bpm[k].timing
    {
      assert r.bpm[k] in multiset(b.bpm);
      var m :| 0 <= m < |b.bpm| && b.bpm[m] == r.bpm[k];
    }
  }

  /** Every bar of a chart read from the start is sorted, and has no note
      and no tempo change before its start and no long-note item. */
  lemma ChartStartsInBar(lines: seq<string>)
    requires ParseChart(EmptyChart(), lines).Ok?
    ensures forall b :: b in ParseChart(EmptyChart(), lines).value.bars ==> StartsInBar(b) && b.IsSorted()
  {
    var p := ParseLines(EmptyChart(), lines).value;
    ParseLinesStartsInBar(EmptyChart(), lines);
    ChartBars(lines);
    var s := ParseChart(EmptyChart(), lines).value;
    forall b | b in s.bars
      ensures StartsInBar(b)
    {
      var i :| 0 <= i < |s.bars| && s.bars[i] == b;
      assert b == p.bars[i].Sort();
      SortStartsInBar(p.bars[i]);
    }
  }

  // ---- beats ----

  /** The line is a bar line on channel 02 (the bar length). */
  predicate IsBeatLine(line: string)
  {
    BarLineOf(line).Some? && BarLineOf(line).value.channel == "02"
  }

  predicate AllBeatsZero(bars: seq<BarInfo>)
  {
    forall b :: b in bars ==> b.beat == 0.0
  }

  /** A bar's beat is `Fraction()`, that is 0, unless a channel-02 line sets
      it: without such lines every bar keeps beat 0 (no default of 1). */
  lemma {:induction false} BeatsStayZero(st: ChartState, lines: seq<string>)
    requires AllBeatsZero(st.bars)
    requires forall i :: 0 <= i < |lines| ==> !IsBeatLine(lines[i])
    requires ParseLines(st, lines).Ok?
    ensures AllBeatsZero(ParseLines(st, lines).value.bars)
    decreases lines
  {
    if lines != [] {
      var next := ParseLine(st, lines[0]).value;
      assert ParseLines(st, lines) == ParseLines(next, lines[1..]);
      ParseLineKeepsBeats(st, lines[0]);
      forall i | 0 <= i < |lines[1..]|
        ensures !IsBeatLine(lines[1..][i])
      {
        assert lines[1..][i] == lines[i + 1];
      }
      BeatsStayZero(next, lines[1..]);
    }
  }

  /** One line other than a channel-02 line keeps every beat 0. */
  lemma ParseLineKeepsBeats(st: ChartState, line: string)
    requires AllBeatsZero(st.bars) && !IsBeatLine(line)
    requires ParseLine(st, line).Ok?
    ensures AllBeatsZero(ParseLine(st, line).value.bars)
  {
    var l := RStrip(line);
    match MatchBarLine(l)
    case Some(bl) =>
      BarLineReachesBarBranch(l);
      assert ParseLine(st, line) == ParseBarLine(st, bl);
      var before := GetBar(st.bars, bl.number);
      ChannelEffectKeeps(st, before, bl);
      SetBarElements(st.bars, ChannelEffect(st, before, bl).value.value);
    case None =>
      ParseLineEffect(st, line);
  }

  // ---- particular channels ----

  /** A key channel merges the decoded notes into its own lane of the bar,
      first timing wins; the other lanes and every other bar stay as they were. */
  lemma NoteLineEffect(st: ChartState, bl: BarLine, k: nat, notes: seq<Note>)
    requires NoteLane(bl.channel) == Some(k)
    requires DecodeNotes(bl.value) == Ok(Some(notes))
    ensures ParseBarLine(st, bl).Ok?
    ensures var s := ParseBarLine(st, bl).value;
      var before, after := GetBar(st.bars, bl.number), GetBar(s.bars, bl.number);
      after.notes[k] == MergeSpec(notes, before.notes[k], NoteTiming) &&
      (UniqueKeys(before.notes[k], NoteTiming) ==>
        after.notes[k] == KeepFirst(before.notes[k] + notes, NoteTiming)) &&
      (forall j :: 0 <= j < 8 && j != k ==> after.notes[j] == before.notes[j]) &&
      after.background == before.background && after.bpm == before.bpm &&
      after.stops == before.stops && after.beat == before.beat &&
      (forall m :: m != bl.number ==> GetBar(s.bars, m) == GetBar(st.bars, m))
  {
    var before := GetBar(st.bars, bl.number);
    var after := before.(notes := before.notes[k := MergeSpec(notes, before.notes[k], NoteTiming)]);
    GetSetSame(st.bars, after);
    forall m | m != bl.number
      ensures GetBar(SetBar(st.bars, after), m) == GetBar(st.bars, m)
    {
      GetSetOther(st.bars, after, m);
    }
    if UniqueKeys(before.notes[k], NoteTiming) {
      MergeKeepsFirst(notes, before.notes[k], NoteTiming);
    }
  }

  /** Channel 01 keeps every background note, duplicates included; the
      bar's other fields and every other bar stay as they were. */
  lemma BackgroundLineEffect(st: ChartState, bl: BarLine, notes: seq<Note>)
    requires bl.channel == "01"
    requires DecodeNotes(bl.value) == Ok(Some(notes))
    ensures ParseBarLine(st, bl).Ok?
    ensures var s := ParseBarLine(st, bl).value;
      var before := GetBar(st.bars, bl.number);
      GetBar(s.bars, bl.number) == before.(background := before.background + notes) &&
      (forall m :: m != bl.number ==> GetBar(s.bars, m) == GetBar(st.bars, m))
  {
    var before := GetBar(st.bars, bl.number);
    assert NoteLane(bl.channel).None?;
    var after := before.(background := MergeAllItem(notes, before.background));
    assert ChannelEffect(st, before, bl) == Ok(Some(after));
    GetSetSame(st.bars, after);
    forall m | m != bl.number
      ensures GetBar(SetBar(st.bars, after), m) == GetBar(st.bars, m)
    {
      GetSetOther(st.bars, after, m);
    }
  }

  /** Channel 03 merges the decoded tempos into the bar's tempo list, first
      timing wins; the bar's other fields and every other bar stay as they were. */
  lemma TempoLineEffect(st: ChartState, bl: BarLine, bpms: seq<BpmNote>)
    requires bl.channel == "03"
    requires DecodeBpms(bl.value) == Ok(Some(bpms))
    ensures ParseBarLine(st, bl) ==
      Ok(st.(bars := SetBar(st.bars, GetBar(st.bars, bl.number).(bpm := MergeSpec(bpms, GetBar(st.bars, bl.number).bpm, BpmTiming)))))
    ensures var s := ParseBarLine(st, bl).value;
      var before, after := GetBar(st.bars, bl.number), GetBar(s.bars, bl.number);
      after == before.(bpm := MergeSpec(bpms, before.bpm, BpmTiming)) &&
      (UniqueKeys(before.bpm, BpmTiming) ==> after.bpm == KeepFirst(before.bpm + bpms, BpmTiming)) &&
      (forall m :: m != bl.number ==> GetBar(s.bars, m) == GetBar(st.bars, m))
  {
    var before := GetBar(st.bars, bl.number);
    assert NoteLane(bl.channel).None?;
    var after := before.(bpm := MergeSpec(bpms, before.bpm, BpmTiming));
    assert ChannelEffect(st, before, bl) == Ok(Some(after));
    GetSetSame(st.bars, after);
    forall m | m != bl.number
      ensures GetBar(SetBar(st.bars, after), m) == GetBar(st.bars, m)
    {
      GetSetOther(st.bars, after, m);
    }
    if UniqueKeys(before.bpm, BpmTiming) {
      MergeKeepsFirst(bpms, before.bpm, BpmTiming);
    }
  }

  /** Channel 02 stores `float(value)` as the bar's length, in place of the
      previous one, and fails when the value is not a number; nothing else
      changes. */
  lemma BeatLineEffect(st: ChartState, bl: BarLine)
    requires bl.channel == "02"
    ensures ParseFloat(bl.value).None? ==> ParseBarLine(st, bl) == Err(InvalidLiteral)
    ensures ParseFloat(bl.value).Some? ==>
      ParseBarLine(st, bl).Ok? &&
      var s := ParseBarLine(st, bl).value;
      GetBar(s.bars, bl.number) == GetBar(st.bars, bl.number).(beat := ParseFloat(bl.value).value) &&
      (forall m :: m != bl.number ==> GetBar(s.bars, m) == GetBar(st.bars, m))
  {
    var before := GetBar(st.bars, bl.number);
    assert NoteLane(bl.channel).None?;
    match ParseFloat(bl.value)
    case None =>
      assert ChannelEffect(st, before, bl) == Err(InvalidLiteral);
    case Some(v) =>
      var after := before.(beat := v);
      assert ChannelEffect(st, before, bl) == Ok(Some(after));
      GetSetSame(st.bars, after);
      forall m | m != bl.number
        ensures GetBar(SetBar(st.bars, after), m) == GetBar(st.bars, m)
      {
        GetSetOther(st.bars, after, m);
      }
  }

  /** With no `#BPMxx` entries, which is always the case, channel 08 fails
      with StopIteration as soon as it names a tempo. */
  lemma ExBpmLineFails(st: ChartState, bl: BarLine, i: nat)
    requires st.exbpm == [] && bl.channel == "08"
    requires |bl.value| % 2 == 0 && i < |bl.value| / 2 && Token(bl.value, i) != "00"
    ensures ParseBarLine(st, bl) == Err(MissingDefinition)
  {
    ExBpmsWithoutTable(bl.value);
  }

  /** With no `#STOPxx` entries, which is always the case, channel 09 fails
      the same way as soon as it names a stop. */
  lemma StopLineFails(st: ChartState, bl: BarLine, i: nat)
    requires st.stop == [] && bl.channel == "09"
    requires |bl.value| % 2 == 0 && i < |bl.value| / 2 && Token(bl.value, i) != "00"
    ensures ParseBarLine(st, bl) == Err(MissingDefinition)
  {
    StopsWithoutTable(bl.value);
  }

  // ---- lines as written ----

  /** A stripped line that starts with `#BPM` is the base-tempo header,
      whatever follows. */
  lemma TempoDirective(st: ChartState, l: string)
    requires |l| >= 4 && l[..4] == "#BPM"
    ensures ParseDirective(st, l) ==
      match ParseFloat(From(l, 5))
      case Some(v) => Ok(st.(bpm := v))
      case None => Err(InvalidLiteral)
  {
    assert l[0] == '#' && l[1] == 'B' by { assert l[0] == l[..4][0] && l[1] == l[..4][1]; }
    assert StartsWith(l, "#") by { assert l[..1] == [l[0]]; }
    assert StartsWith(l, "#BPM");
    if |l| >= 6 {
      assert !StartsWith(l, "#TITLE") by { assert l[..6][1] != "#TITLE"[1]; }
      assert !StartsWith(l, "#GENRE") by { assert l[..6][1] != "#GENRE"[1]; }
    }
  }

  /** `#BPM01 120` is read as the base tempo, `float("1 120")`, and fails. */
  lemma BpmDefinitionShadowed(st: ChartState)
    ensures ParseLine(st, "#BPM01 120") == Err(InvalidLiteral)
  {
    var l := "#BPM01 120";
    assert RStrip(l) == l;
    assert l[..4] == "#BPM";
    TempoDirective(st, l);
    assert From(l, 5) == "1 120";
    SpacedNumberRefused();
  }

  /** A bare `#BPM` line reads the tempo from an empty string, which
      `float("")` refuses. */
  lemma BareTempoFails(st: ChartState)
    ensures ParseLine(st, "#BPM") == Err(InvalidLiteral)
  {
    var l := "#BPM";
    assert RStrip(l) == l;
    assert l[..4] == "#BPM";
    TempoDirective(st, l);
    assert From(l, 5) == [];
  }

  /** `float("1 120")` raises: the blank is neither a digit nor a point. */
  lemma SpacedNumberRefused()
    ensures ParseFloat("1 120") == None
  {
    var v := "1 120";
    assert RStrip(v) == v && Strip(v) == v;
    assert !AllDigits(v) by { assert !IsDigit(v[1]); }
    assert PointIndex(v[4..]) == 1;
    assert PointIndex(v[3..]) == 2 by { assert v[3..][1..] == v[4..]; }
    assert PointIndex(v[2..]) == 3 by { assert v[2..][1..] == v[3..]; }
    assert PointIndex(v[1..]) == 4 by { assert v[1..][1..] == v[2..]; }
    assert PointIndex(v) == 5;
  }

  /** `#BPM 150` sets the base tempo. */
  lemma BaseTempoLine(st: ChartState)
    ensures ParseLine(st, "#BPM 150") == Ok(st.(bpm := 150.0))
  {
    var l := "#BPM 150";
    assert RStrip(l) == l;
    assert l[..4] == "#BPM";
    TempoDirective(st, l);
    assert From(l, 5) == "150";
    PlainNumberRead();
  }

  /** `float("150")` is 150. */
  lemma PlainNumberRead()
    ensures ParseFloat("150") == Some(150.0)
  {
    var v := "150";
    assert RStrip(v) == v && Strip(v) == v;
    assert AllDigits(v);
    assert v[..2] == "15" && v[..2][..1] == "1" && v[..2][..1][..0] == [];
    assert DecimalValue("1") == 1;
    assert DecimalValue("15") == 15;
    assert DecimalValue(v) == 150;
  }

  /** The value of `#00102:10.5` is "10": the pair alternative of `re_bar`
      wins, so the bar length read is 10, not 10.5. */
  lemma BeatValueTruncated()
    ensures MatchBarLine("#00102:10.5") == Some(BarLine(1, "02", "10"))
  {
    var l := "#00102:10.5";
    assert l[1..6] == "00102";
    assert AllDigits(l[1..6]);
    var rest := l[7..];
    assert rest == "10.5";
    assert rest[2..] == ".5";
    assert PairRun(rest[2..]) == 0;
    assert PairRun(rest) == 1;
    assert rest[..2] == "10";
    assert BarValue(rest) == Some("10");
    var num := l[1..4];
    assert num == "001" && num[..2] == "00" && num[..2][..1] == "0" && num[..2][..1][..0] == [];
    assert DecimalValue("0") == 0;
    assert DecimalValue("00") == 0;
    assert DecimalValue(num) == 1;
    assert l[4..6] == "02";
  }
}
