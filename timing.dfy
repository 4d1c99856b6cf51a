/** The time windows of `BeatConvertedReplay.__calculate_timing`
    (replay.py:56-126) and the inverse lookup `calc_timing` inside `convert`
    (replay.py:144-170). A window is a stretch of constant tempo; positions
    inside a bar are fractions of the bar and one bar counts as four beats. */
module Timing {
  import opened Basics
  import opened BmsTypes
  import opened Common

  /** `TimeDefinition`: the window that starts at `startBeat` of bar
      `startBar`, at `startMs`, and lasts until `endMs` at tempo `bpm`. */
  datatype TimeDefinition = TimeDefinition(startBar: int, startBeat: real, bpm: real, startMs: real, endMs: real)

  /** The running `nonlocal` state of `__calculate_timing`. */
  datatype Cursor = Cursor(ms: real, beats: real, bpm: real, startBar: int, startBeat: real)

  /** One pass of the loop body: a bar without tempo changes adds its
      length, and each tempo change of a bar adds the distance from the
      previous change of that bar (`before`) and closes the window. */
  datatype Step = Advance(length: real) | Change(bar: int, note: BpmNote, before: real)

  /** The steps a bar contributes, in the loop's order. */
  function BarSteps(bar: BarInfo): (r: seq<Step>)
    ensures |bar.bpm| == 0 ==> r == [Advance(bar.beat)]
    ensures |bar.bpm| > 0 ==> |r| == |bar.bpm| && forall j :: 0 <= j < |r| ==>
      r[j] == Change(bar.number, bar.bpm[j], if j == 0 then 0.0 else bar.bpm[j - 1].timing)
  {
    if |bar.bpm| == 0 then [Advance(bar.beat)]
    else
      seq(|bar.bpm|, j requires 0 <= j < |bar.bpm| =>
        Change(bar.number, bar.bpm[j], if j == 0 then 0.0 else bar.bpm[j - 1].timing))
  }

  /** The steps of a whole bar list. */
  function Steps(bars: seq<BarInfo>): seq<Step>
  {
    if bars == [] then []
    else Steps(bars[..|bars| - 1]) + BarSteps(bars[|bars| - 1])
  }

  /** The last millisecond of a window opening at `startMs` that spans
      `beats` bars at `bpm`. */
  function EndMs(startMs: real, beats: real, bpm: real): real
    requires bpm != 0.0
  {
    startMs + beats * 4.0 * MsPerBeat(bpm) - 1.0
  }

  /** `make_new_time_definition`: `60000 / bpm` raises for a tempo of 0. */
  function Window(c: Cursor): Result<TimeDefinition>
  {
    if c.bpm == 0.0 then Err(DivisionByZero)
    else Ok(TimeDefinition(c.startBar, c.startBeat, c.bpm, c.ms, EndMs(c.ms, c.beats, c.bpm)))
  }

  /** The windows closed so far and the running state. */
  datatype Progress = Progress(windows: seq<TimeDefinition>, cur: Cursor)

  /** The effect of one step; a change is `make_new_time_definition`
      followed by `reset_current_state`. */
  function Apply(p: Progress, s: Step): Result<Progress>
  {
    match s
    case Advance(length) => Ok(p.(cur := p.cur.(beats := p.cur.beats + length)))
    case Change(number, note, before) =>
      match Window(p.cur.(beats := p.cur.beats + (note.timing - before)))
      case Err(e) => Err(e)
      case Ok(w) => Ok(Progress(p.windows + [w], Cursor(w.endMs + 1.0, 0.0, note.bpm, number, note.timing)))
  }

  function Run(p: Progress, steps: seq<Step>): Result<Progress>
  {
    if steps == [] then Ok(p)
    else match Run(p, steps[..|steps| - 1])
      case Err(e) => Err(e)
      case Ok(q) => Apply(q, steps[|steps| - 1])
  }

  /** The state before the first bar: ms 0, no beats, the chart's tempo. */
  function Initial(bpm: real): Progress
  {
    Progress([], Cursor(0.0, 0.0, bpm, 0, 0.0))
  }

  /** The list `__calculate_timing` returns: the windows closed at each
      tempo change and the one still open after the last bar. */
  function CalculateTimingSpec(bars: seq<BarInfo>, bpm: real): Result<seq<TimeDefinition>>
  {
    match Run(Initial(bpm), Steps(bars))
    case Err(e) => Err(e)
    case Ok(q) =>
      match Window(q.cur)
      case Err(e) => Err(e)
      case Ok(w) => Ok(q.windows + [w])
  }

  predicate IsPrefix<T(==)>(s: seq<T>, t: seq<T>)
  {
    |s| <= |t| && t[..|s|] == s
  }

  lemma {:induction false} RunErrSticks(p: Progress, s: seq<Step>, t: seq<Step>)
    requires IsPrefix(s, t) && Run(p, s).Err?
    ensures Run(p, t) == Run(p, s)
    decreases |t|
  {
    if |t| > |s| {
      assert IsPrefix(s, t[..|t| - 1]);
      RunErrSticks(p, s, t[..|t| - 1]);
    } else {
      assert s == t;
    }
  }

  lemma {:induction false} StepsPrefix(bars: seq<BarInfo>, i: nat)
    requires i <= |bars|
    ensures IsPrefix(Steps(bars[..i]), Steps(bars))
    decreases |bars|
  {
    if i < |bars| {
      var p := bars[..|bars| - 1];
      StepsPrefix(p, i);
      assert p[..i] == bars[..i];
    } else {
      assert bars[..i] == bars;
    }
  }

  lemma RunSnoc(p: Progress, s: seq<Step>, x: Step)
    ensures Run(p, s + [x]) == match Run(p, s) case Err(e) => Err(e) case Ok(q) => Apply(q, x)
  {
    assert (s + [x])[..|s|] == s;
  }

  lemma StepsNext(bars: seq<BarInfo>, i: nat)
    requires i < |bars|
    ensures Steps(bars[..i + 1]) == Steps(bars[..i]) + BarSteps(bars[i])
    ensures IsPrefix(Steps(bars[..i + 1]), Steps(bars))
  {
    assert bars[..i + 1][..i] == bars[..i];
    StepsPrefix(bars, i + 1);
  }

  /** `make_new_time_definition` (replay.py:91-98): the window the cursor
      has open. */
  method MakeWindow(c: Cursor) returns (r: Result<TimeDefinition>)
    ensures r == Window(c)
  {
    if c.bpm == 0.0 {
      return Err(DivisionByZero);
    }
    r := Ok(TimeDefinition(c.startBar, c.startBeat, c.bpm, c.ms, EndMs(c.ms, c.beats, c.bpm)));
  }

  /** One tempo change (replay.py:119-124): the span since the previous
      change is added, the open window is closed and `reset_current_state`
      opens the next one. */
  method CloseWindow(p: Progress, number: int, note: BpmNote, before: real) returns (r: Result<Progress>)
    ensures r == Apply(p, Change(number, note, before))
  {
    var w := MakeWindow(p.cur.(beats := p.cur.beats + (note.timing - before)));
    if w.Err? {
      return Err(w.error);
    }
    var result := p.windows + [w.value];
    r := Ok(Progress(result, Cursor(result[|result| - 1].endMs + 1.0, 0.0, note.bpm, number, note.timing)));
  }

  /** The body of the outer loop for one bar (replay.py:114-124). */
  method BarOf(bar: BarInfo, p: Progress) returns (r: Result<Progress>)
    ensures r == Run(p, BarSteps(bar))
  {
    if |bar.bpm| == 0 {
      assert [Advance(bar.beat)][..0] == [];
      return Ok(p.(cur := p.cur.(beats := p.cur.beats + bar.beat)));
    }
    r := TempoChanges(bar, p);
  }

  /** The outer loop of `__calculate_timing`, over the bars, and the window
      still open after it. */
  method CalculateTiming(bars: seq<BarInfo>, bpm: real) returns (r: Result<seq<TimeDefinition>>)
    ensures r == CalculateTimingSpec(bars, bpm)
  {
    var current := Initial(bpm);
    for i := 0 to |bars|
      invariant Run(Initial(bpm), Steps(bars[..i])) == Ok(current)
    {
      StepsNext(bars, i);
      var next := BarOf(bars[i], current);
      RunAppend(Initial(bpm), Steps(bars[..i]), BarSteps(bars[i]));
      if next.Err? {
        RunErrSticks(Initial(bpm), Steps(bars[..i + 1]), Steps(bars));
        return Err(next.error);
      }
      current := next.value;
    }
    assert bars[..|bars|] == bars;
    var last := MakeWindow(current.cur);
    if last.Err? {
      return Err(last.error);
    }
    r := Ok(current.windows + [last.value]);
  }

  /** The inner loop of `__calculate_timing`, over the tempo changes of one
      bar: each one closes the open window and opens the next. */
  method TempoChanges(bar: BarInfo, p: Progress) returns (r: Result<Progress>)
    requires |bar.bpm| > 0
    ensures r == Run(p, BarSteps(bar))
  {
    var current := p;
    var beforeTiming := 0.0;
    ghost var bs := BarSteps(bar);
    for j := 0 to |bar.bpm|
      invariant beforeTiming == if j == 0 then 0.0 else bar.bpm[j - 1].timing
      invariant Run(p, bs[..j]) == Ok(current)
    {
      RunNext(p, bs, j);
      assert bs[j] == Change(bar.number, bar.bpm[j], beforeTiming);
      var next := CloseWindow(current, bar.number, bar.bpm[j], beforeTiming);
      beforeTiming := bar.bpm[j].timing;
      if next.Err? {
        RunErrSticks(p, bs[..j + 1], bs);
        return next;
      }
      current := next.value;
    }
    assert bs[..|bar.bpm|] == bs;
    return Ok(current);
  }

  lemma RunNext(p: Progress, s: seq<Step>, j: nat)
    requires j < |s|
    ensures Run(p, s[..j + 1]) == match Run(p, s[..j]) case Err(e) => Err(e) case Ok(q) => Apply(q, s[j])
    ensures IsPrefix(s[..j + 1], s)
  {
    assert s[..j + 1][..j] == s[..j];
  }

  /** Running two lists of steps is running the first and then the second. */
  lemma {:induction false} RunAppend(p: Progress, s: seq<Step>, t: seq<Step>)
    ensures Run(p, s + t) == match Run(p, s) case Err(e) => Err(e) case Ok(q) => Run(q, t)
    decreases |t|
  {
    if t == [] {
      assert s + t == s;
    } else {
      var t' := t[..|t| - 1];
      RunAppend(p, s, t');
      assert (s + t)[..|s + t| - 1] == s + t';
    }
  }

  // ---------------------------------------------------------------------
  // What the windows are

  /** The bar and tempo change of each `Change` step, in order. */
  function Changes(steps: seq<Step>): (r: seq<(int, BpmNote)>)
    ensures |r| <= |steps|
  {
    if steps == [] then []
    else
      var rest := Changes(steps[..|steps| - 1]);
      match steps[|steps| - 1]
      case Advance(_) => rest
      case Change(number, note, _) => rest + [(number, note)]
  }

  /** The beats each window spans: a bar without tempo changes adds its
      length to the open window, and a tempo change adds its distance from
      the previous change of its bar and opens a new window. What follows
      the last change of a bar is not counted. */
  function SegmentBeats(steps: seq<Step>): (r: seq<real>)
    ensures |r| == |Changes(steps)| + 1
  {
    if steps == [] then [0.0]
    else
      var sb := SegmentBeats(steps[..|steps| - 1]);
      var last := sb[|sb| - 1];
      match steps[|steps| - 1]
      case Advance(length) => sb[..|sb| - 1] + [last + length]
      case Change(_, note, before) => sb[..|sb| - 1] + [last + (note.timing - before), 0.0]
  }

  /** Bar, beat and tempo at which window `i` opens: the first at bar 0,
      beat 0 and the chart's tempo, each later one at a tempo change. */
  function OpensAt(bpm: real, changes: seq<(int, BpmNote)>, i: nat): (int, real, real)
    requires i <= |changes|
  {
    if i == 0 then (0, 0.0, bpm)
    else (changes[i - 1].0, changes[i - 1].1.timing, changes[i - 1].1.bpm)
  }

  /** The first window opens at ms 0 and every later one a millisecond
      after the previous one ends. */
  function OpensMs(ws: seq<TimeDefinition>, i: nat): real
    requires i <= |ws|
  {
    if i == 0 then 0.0 else ws[i - 1].endMs + 1.0
  }

  /** Window `w` is window `i` of a run with these changes and spans. */
  predicate IsWindow(w: TimeDefinition, bpm: real, changes: seq<(int, BpmNote)>, spans: seq<real>, i: nat, opensMs: real)
    requires i <= |changes| && |spans| == |changes| + 1
  {
    (w.startBar, w.startBeat, w.bpm) == OpensAt(bpm, changes, i) &&
    w.startMs == opensMs && w.bpm != 0.0 &&
    w.endMs == EndMs(w.startMs, spans[i], w.bpm)
  }

  /** The progress after `steps`: one closed window per change so far, and a
      cursor that opens the next one. */
  predicate Chained(p: Progress, bpm: real, steps: seq<Step>)
  {
    var ch := Changes(steps);
    var sb := SegmentBeats(steps);
    |p.windows| == |ch| &&
    (forall i {:trigger OpensMs(p.windows, i)} :: 0 <= i < |ch| ==> IsWindow(p.windows[i], bpm, ch, sb, i, OpensMs(p.windows, i))) &&
    (p.cur.startBar, p.cur.startBeat, p.cur.bpm) == OpensAt(bpm, ch, |ch|) &&
    p.cur.ms == OpensMs(p.windows, |ch|) && p.cur.beats == sb[|ch|]
  }

  /** Changes opened earlier are still opened at the same place once more
      changes follow. */
  lemma OpensAtPrefix(bpm: real, chf: seq<(int, BpmNote)>, ch: seq<(int, BpmNote)>)
    requires IsPrefix(chf, ch)
    ensures forall i :: 0 <= i <= |chf| ==> OpensAt(bpm, ch, i) == OpensAt(bpm, chf, i)
  {
    forall i | 0 <= i <= |chf|
      ensures OpensAt(bpm, ch, i) == OpensAt(bpm, chf, i)
    {
      if i > 0 {
        assert ch[i - 1] == chf[i - 1];
      }
    }
  }

  /** A bar without tempo changes only lengthens the open window. */
  lemma AdvanceChained(bpm: real, steps: seq<Step>, q: Progress)
    requires steps != [] && steps[|steps| - 1].Advance?
    requires Chained(q, bpm, steps[..|steps| - 1])
    ensures Apply(q, steps[|steps| - 1]).Ok?
    ensures Chained(Apply(q, steps[|steps| - 1]).value, bpm, steps)
  {
    var front := steps[..|steps| - 1];
    assert Changes(steps) == Changes(front);
    var sb, sbf := SegmentBeats(steps), SegmentBeats(front);
    assert forall i :: 0 <= i < |sbf| - 1 ==> sb[i] == sbf[i];
  }

  /** A window stays a chained window when the changes and spans it is
      read against agree with the old ones at its index. */
  lemma WindowKept(w: TimeDefinition, bpm: real, chf: seq<(int, BpmNote)>, sbf: seq<real>,
                   ch: seq<(int, BpmNote)>, sb: seq<real>, i: nat, ms: real)
    requires i <= |chf| && |sbf| == |chf| + 1 && i <= |ch| && |sb| == |ch| + 1
    requires OpensAt(bpm, ch, i) == OpensAt(bpm, chf, i) && sb[i] == sbf[i]
    requires IsWindow(w, bpm, chf, sbf, i, ms)
    ensures IsWindow(w, bpm, ch, sb, i, ms)
  {
  }

  /** The window a cursor has open is window `i` when the cursor opens it. */
  lemma CursorWindow(c: Cursor, bpm: real, ch: seq<(int, BpmNote)>, sb: seq<real>, i: nat, ms: real)
    requires i <= |ch| && |sb| == |ch| + 1
    requires (c.startBar, c.startBeat, c.bpm) == OpensAt(bpm, ch, i)
    requires c.ms == ms && c.beats == sb[i] && c.bpm != 0.0
    ensures Window(c).Ok? && IsWindow(Window(c).value, bpm, ch, sb, i, ms)
  {
  }

  /** A tempo change adds one change and one span, and keeps the earlier spans. */
  lemma ChangeShape(steps: seq<Step>)
    requires steps != [] && steps[|steps| - 1].Change?
    ensures var front := steps[..|steps| - 1];
      var x := steps[|steps| - 1];
      var k := |Changes(front)|;
      Changes(steps) == Changes(front) + [(x.bar, x.note)] &&
      SegmentBeats(steps) == SegmentBeats(front)[..k] + [SegmentBeats(front)[k] + (x.note.timing - x.before), 0.0]
  {
  }

  /** A tempo change closes the open window, which fails for tempo 0, and
      opens the next one at the change. */
  lemma ChangeChained(bpm: real, steps: seq<Step>, q: Progress)
    requires steps != [] && steps[|steps| - 1].Change?
    requires Chained(q, bpm, steps[..|steps| - 1])
    ensures var k := |Changes(steps[..|steps| - 1])|;
      k < |Changes(steps)| &&
      (Apply(q, steps[|steps| - 1]).Ok? <==> OpensAt(bpm, Changes(steps), k).2 != 0.0)
    ensures Apply(q, steps[|steps| - 1]).Err? ==> Apply(q, steps[|steps| - 1]).error == DivisionByZero
    ensures Apply(q, steps[|steps| - 1]).Ok? ==> Chained(Apply(q, steps[|steps| - 1]).value, bpm, steps)
  {
    var front := steps[..|steps| - 1];
    var x := steps[|steps| - 1];
    var chf, ch := Changes(front), Changes(steps);
    var sb, sbf := SegmentBeats(steps), SegmentBeats(front);
    var k := |chf|;
    ChangeShape(steps);
    assert IsPrefix(chf, ch);
    OpensAtPrefix(bpm, chf, ch);
    var c := q.cur.(beats := q.cur.beats + (x.note.timing - x.before));
    if c.bpm != 0.0 {
      CursorWindow(c, bpm, ch, sb, k, OpensMs(q.windows, k));
      var w := Window(c).value;
      var p := Progress(q.windows + [w], Cursor(w.endMs + 1.0, 0.0, x.note.bpm, x.bar, x.note.timing));
      assert Apply(q, x) == Ok(p);
      forall i | 0 <= i < |ch|
        ensures IsWindow(p.windows[i], bpm, ch, sb, i, OpensMs(p.windows, i))
      {
        assert OpensMs(p.windows, i) == OpensMs(q.windows, i);
        if i < k {
          assert p.windows[i] == q.windows[i];
          WindowKept(q.windows[i], bpm, chf, sbf, ch, sb, i, OpensMs(q.windows, i));
        }
      }
      assert OpensAt(bpm, ch, k + 1) == (x.bar, x.note.timing, x.note.bpm);
    }
  }

  /** The windows closed by the steps are the chained windows, and closing
      them fails exactly when one of them would have tempo 0. */
  lemma {:induction false} RunChained(bpm: real, steps: seq<Step>)
    ensures Run(Initial(bpm), steps).Ok? <==>
      forall i :: 0 <= i < |Changes(steps)| ==> OpensAt(bpm, Changes(steps), i).2 != 0.0
    ensures Run(Initial(bpm), steps).Err? ==> Run(Initial(bpm), steps).error == DivisionByZero
    ensures Run(Initial(bpm), steps).Ok? ==> Chained(Run(Initial(bpm), steps).value, bpm, steps)
  {
    if steps != [] {
      var front := steps[..|steps| - 1];
      var x := steps[|steps| - 1];
      RunChained(bpm, front);
      var chf, ch := Changes(front), Changes(steps);
      assert IsPrefix(chf, ch);
      OpensAtPrefix(bpm, chf, ch);
      match Run(Initial(bpm), front)
      case Err(_) =>
      case Ok(q) =>
        if x.Advance? {
          AdvanceChained(bpm, steps, q);
          assert ch == chf;
        } else {
          ChangeChained(bpm, steps, q);
          assert |ch| == |chf| + 1;
        }
    }
  }

  /** Closing the last window fails exactly for tempo 0 and otherwise ends
      the chain. */
  lemma FinalChained(bpm: real, steps: seq<Step>, q: Progress)
    requires Chained(q, bpm, steps)
    ensures Window(q.cur).Ok? <==> OpensAt(bpm, Changes(steps), |Changes(steps)|).2 != 0.0
    ensures Window(q.cur).Err? ==> Window(q.cur).error == DivisionByZero
    ensures Window(q.cur).Ok? ==>
      var ws := q.windows + [Window(q.cur).value];
      var ch := Changes(steps);
      |ws| == |ch| + 1 &&
      forall i {:trigger OpensMs(ws, i)} :: 0 <= i < |ws| ==> IsWindow(ws[i], bpm, ch, SegmentBeats(steps), i, OpensMs(ws, i))
  {
    var ch, sb := Changes(steps), SegmentBeats(steps);
    var k := |ch|;
    if q.cur.bpm != 0.0 {
      CursorWindow(q.cur, bpm, ch, sb, k, OpensMs(q.windows, k));
      var ws := q.windows + [Window(q.cur).value];
      forall i | 0 <= i < |ws|
        ensures IsWindow(ws[i], bpm, ch, sb, i, OpensMs(ws, i))
      {
        assert OpensMs(ws, i) == OpensMs(q.windows, i);
        if i < k {
          assert ws[i] == q.windows[i];
          assert IsWindow(q.windows[i], bpm, ch, sb, i, OpensMs(q.windows, i));
        } else {
          assert ws[i] == Window(q.cur).value;
        }
      }
    }
  }

  /** `__calculate_timing` succeeds exactly when the chart's tempo and every
      tempo change are non-zero. It then gives one window per tempo change
      plus a final one; the first opens at bar 0, beat 0, ms 0 and the
      chart's tempo, each later one at its change's bar, position and tempo
      a millisecond after the previous one ends, and each ends after its
      span of beats at four beats a bar. */
  lemma TimingWindows(bars: seq<BarInfo>, bpm: real)
    ensures CalculateTimingSpec(bars, bpm).Ok? <==>
      bpm != 0.0 && forall c :: c in Changes(Steps(bars)) ==> c.1.bpm != 0.0
    ensures CalculateTimingSpec(bars, bpm).Err? ==> CalculateTimingSpec(bars, bpm).error == DivisionByZero
    ensures CalculateTimingSpec(bars, bpm).Ok? ==>
      var ws := CalculateTimingSpec(bars, bpm).value;
      var ch := Changes(Steps(bars));
      |ws| == |ch| + 1 &&
      forall i {:trigger OpensMs(ws, i)} :: 0 <= i < |ws| ==> IsWindow(ws[i], bpm, ch, SegmentBeats(Steps(bars)), i, OpensMs(ws, i))
  {
    var steps := Steps(bars);
    var ch := Changes(steps);
    RunChained(bpm, steps);
    AllTemposNonZero(bpm, ch);
    match Run(Initial(bpm), steps)
    case Err(_) =>
    case Ok(q) =>
      FinalChained(bpm, steps, q);
  }

  /** The lengths of all the bars. */
  function TotalBeats(bars: seq<BarInfo>): real
  {
    if bars == [] then 0.0 else TotalBeats(bars[..|bars| - 1]) + bars[|bars| - 1].beat
  }

  /** A chart without tempo changes has a single window, from ms 0 to the
      end of all its bars at the chart's tempo. */
  lemma SingleWindow(bars: seq<BarInfo>, bpm: real)
    requires bpm != 0.0
    requires forall k :: 0 <= k < |bars| ==> bars[k].bpm == []
    ensures CalculateTimingSpec(bars, bpm) == Ok([TimeDefinition(0, 0.0, bpm, 0.0, EndMs(0.0, TotalBeats(bars), bpm))])
  {
    RunWithoutChanges(bars, bpm);
    var c := Cursor(0.0, TotalBeats(bars), bpm, 0, 0.0);
    var w := TimeDefinition(0, 0.0, bpm, 0.0, EndMs(0.0, TotalBeats(bars), bpm));
    assert Window(c) == Ok(w);
    assert [] + [w] == [w];
  }

  lemma {:induction false} RunWithoutChanges(bars: seq<BarInfo>, bpm: real)
    requires forall k :: 0 <= k < |bars| ==> bars[k].bpm == []
    ensures Run(Initial(bpm), Steps(bars)) == Ok(Progress([], Cursor(0.0, TotalBeats(bars), bpm, 0, 0.0)))
  {
    if bars != [] {
      var front, last := bars[..|bars| - 1], bars[|bars| - 1];
      assert forall k :: 0 <= k < |front| ==> front[k].bpm == [];
      RunWithoutChanges(front, bpm);
      assert BarSteps(last) == [Advance(last.beat)];
      assert Steps(bars) == Steps(front) + [Advance(last.beat)];
      RunSnoc(Initial(bpm), Steps(front), Advance(last.beat));
      assert TotalBeats(bars) == TotalBeats(front) + last.beat;
    }
  }

  lemma AllTemposNonZero(bpm: real, ch: seq<(int, BpmNote)>)
    ensures (forall i :: 0 <= i <= |ch| ==> OpensAt(bpm, ch, i).2 != 0.0) <==>
      bpm != 0.0 && forall c :: c in ch ==> c.1.bpm != 0.0
  {
    if forall i :: 0 <= i <= |ch| ==> OpensAt(bpm, ch, i).2 != 0.0 {
      assert OpensAt(bpm, ch, 0).2 == bpm;
      forall c | c in ch
        ensures c.1.bpm != 0.0
      {
        var k :| 0 <= k < |ch| && ch[k] == c;
        assert OpensAt(bpm, ch, k + 1).2 == c.1.bpm;
      }
    }
  }

  // ---------------------------------------------------------------------
  // calc_timing

  predicate Covers(t: TimeDefinition, ms: real)
  {
    t.startMs <= ms <= t.endMs
  }

  /** `get_timing_index` as a specification: the first window that covers
      `ms`, or `NoMoreBar`. */
  function WindowIndex(ts: seq<TimeDefinition>, ms: real): (r: Result<nat>)
    ensures r.Ok? ==> r.value < |ts| && Covers(ts[r.value], ms)
    ensures r.Ok? ==> forall j :: 0 <= j < r.value ==> !Covers(ts[j], ms)
    ensures r.Err? <==> forall j :: 0 <= j < |ts| ==> !Covers(ts[j], ms)
    ensures r.Err? ==> r.error == NoMoreBar
  {
    if ts == [] then Err(NoMoreBar)
    else if Covers(ts[0], ms) then Ok(0)
    else match WindowIndex(ts[1..], ms)
      case Ok(k) => Ok(k + 1)
      case Err(e) => Err(e)
  }

  /** `get_timing_index`: scans the windows in order. */
  method GetTimingIndex(ts: seq<TimeDefinition>, ms: real) returns (r: Result<nat>)
    ensures r == WindowIndex(ts, ms)
  {
    for i := 0 to |ts|
      invariant forall j :: 0 <= j < i ==> !Covers(ts[j], ms)
    {
      if ts[i].startMs <= ms && ms <= ts[i].endMs {
        FirstCovering(ts, ms, i);
        return Ok(i);
      }
    }
    return Err(NoMoreBar);
  }

  lemma {:induction false} FirstCovering(ts: seq<TimeDefinition>, ms: real, i: nat)
    requires i < |ts| && Covers(ts[i], ms)
    requires forall j :: 0 <= j < i ==> !Covers(ts[j], ms)
    ensures WindowIndex(ts, ms) == Ok(i)
  {
    if i > 0 {
      FirstCovering(ts[1..], ms, i - 1);
    }
  }

  /** The length of the bar at list position `n`, as `calc_timing` reads it:
      a negative position counts from the end, and a position past either
      end raises IndexError, which is taken as length 1. */
  function BeatAt(bars: seq<BarInfo>, n: int): real
  {
    if 0 <= n < |bars| then bars[n].beat
    else if -|bars| <= n < 0 then bars[n + |bars|].beat
    else 1.0
  }

  /** The lengths of list positions `lo` to `hi - 1`. */
  function SumBeats(bars: seq<BarInfo>, lo: int, hi: int): real
    requires lo <= hi
    decreases hi - lo
  {
    if lo == hi then 0.0 else BeatAt(bars, lo) + SumBeats(bars, lo + 1, hi)
  }

  /** What keeps the normalising loop finite: positions before the end of
      the list, then the whole bars left in the position. */
  function LoopMeasure(bars: seq<BarInfo>, n: int): nat
  {
    if n < |bars| then |bars| - n + 1 else 0
  }

  function WholeBars(t: real): nat
  {
    if t >= 1.0 then t.Floor else 0
  }

  /** The normalising loop of `calc_timing`: while the position is not
      before the end of its bar, move to the next bar. The result's position
      lies inside its bar, the bars passed over were each covered entirely,
      and the position lost is exactly their length. */
  function Normalise(bars: seq<BarInfo>, n: int, t: real): (r: (int, real))
    ensures r.0 >= n && r.1 < BeatAt(bars, r.0)
    ensures t == r.1 + SumBeats(bars, n, r.0)
    ensures forall k :: n <= k < r.0 ==> t - SumBeats(bars, n, k) >= BeatAt(bars, k)
    decreases LoopMeasure(bars, n), WholeBars(t)
  {
    if t >= BeatAt(bars, n) then
      var r := Normalise(bars, n + 1, t - BeatAt(bars, n));
      assert forall k :: n + 1 <= k < r.0 ==> SumBeats(bars, n, k) == BeatAt(bars, n) + SumBeats(bars, n + 1, k);
      r
    else (n, t)
  }

  /** The position `calc_timing` computes before normalising: the start of
      window `w` plus the beats elapsed since, at four beats a bar. */
  function WindowPosition(w: TimeDefinition, ms: real): real
  {
    w.startBeat + (ms - w.startMs) * BeatPerMs(w.bpm) / 4.0
  }

  /** `calc_timing(ms)`: the (bar, position) of an instant. */
  function CalcTimingSpec(bars: seq<BarInfo>, ts: seq<TimeDefinition>, ms: real): Result<(int, real)>
  {
    match WindowIndex(ts, ms)
    case Err(e) => Err(e)
    case Ok(i) => Ok(Normalise(bars, ts[i].startBar, WindowPosition(ts[i], ms)))
  }

  /** `calc_timing`, with its `while True` loop over the bars. */
  method CalcTiming(bars: seq<BarInfo>, ts: seq<TimeDefinition>, ms: real) returns (r: Result<(int, real)>)
    ensures r == CalcTimingSpec(bars, ts, ms)
  {
    var index := GetTimingIndex(ts, ms);
    if index.Err? {
      return Err(NoMoreBar);
    }
    var timing := ts[index.value];
    var beat := (ms - timing.startMs) * BeatPerMs(timing.bpm) / 4.0;
    var resultBarNumber := timing.startBar;
    var resultTiming := timing.startBeat + beat;
    assert resultTiming == WindowPosition(timing, ms);
    while true
      invariant Normalise(bars, resultBarNumber, resultTiming) == Normalise(bars, timing.startBar, WindowPosition(timing, ms))
      decreases LoopMeasure(bars, resultBarNumber), WholeBars(resultTiming)
    {
      var beatTemp := BeatAt(bars, resultBarNumber);
      if resultTiming >= beatTemp {
        resultTiming := resultTiming - beatTemp;
        resultBarNumber := resultBarNumber + 1;
        continue;
      }
      break;
    }
    return Ok((resultBarNumber, resultTiming));
  }

  /** `calc_timing` fails with `NoMoreBar` exactly when no window covers the
      instant. Otherwise it answers from the first covering window: a bar at
      or after the window's start bar and a position inside that bar, the
      window's position less the lengths of the bars passed over. */
  lemma CalcTimingResult(bars: seq<BarInfo>, ts: seq<TimeDefinition>, ms: real)
    ensures CalcTimingSpec(bars, ts, ms).Err? <==> forall j :: 0 <= j < |ts| ==> !Covers(ts[j], ms)
    ensures CalcTimingSpec(bars, ts, ms).Err? ==> CalcTimingSpec(bars, ts, ms).error == NoMoreBar
    ensures CalcTimingSpec(bars, ts, ms).Ok? ==>
      var (n, t) := CalcTimingSpec(bars, ts, ms).value;
      exists i :: 0 <= i < |ts| && Covers(ts[i], ms) && (forall j :: 0 <= j < i ==> !Covers(ts[j], ms)) &&
        n >= ts[i].startBar && t < BeatAt(bars, n) &&
        WindowPosition(ts[i], ms) == t + SumBeats(bars, ts[i].startBar, n)
  {
    if WindowIndex(ts, ms).Ok? {
      var i := WindowIndex(ts, ms).value;
      var r := Normalise(bars, ts[i].startBar, WindowPosition(ts[i], ms));
      assert CalcTimingSpec(bars, ts, ms).value == r;
    }
  }
}
