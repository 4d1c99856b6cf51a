/** `InputTimeline.__init__` (bmslevel.py:21-79): the instant, in
    milliseconds from the start of the chart, of every note and long-note
    start, lane by lane, walking the bars in list order and following the
    tempo changes. */
module LevelTimeline {
  import opened Basics
  import opened BmsTypes
  import opened Common

  function Itself(t: real): real { t }

  /** The timings of a lane's `LNStart` items, in list order; every other
      long-note item is dropped (bmslevel.py:39). */
  function StartTimings(items: seq<LnItem>): seq<real>
  {
    if items == [] then []
    else
      var last := items[|items| - 1];
      StartTimings(items[..|items| - 1]) + (if last.LNStart? then [last.timing] else [])
  }

  function NoteTimings(notes: seq<Note>): (r: seq<real>)
    ensures |r| == |notes|
  {
    seq(|notes|, k requires 0 <= k < |notes| => notes[k].timing)
  }

  /** Lane `i` of bar `b` as the timeline reads it (bmslevel.py:38-42): its
      notes and its long-note starts sorted by timing. Only the timings are
      read afterwards, so they stand for the items. */
  function LaneEvents(b: BarInfo, i: nat): seq<real>
    requires i < 8
  {
    SortTimings(NoteTimings(b.notes[i]) + StartTimings(b.lnnotes[i]))
  }

  /** `list.sort` on timings: an insertion sort that places each timing
      after the equal ones. */
  function SortTimings(ts: seq<real>): seq<real>
  {
    if ts == [] then []
    else InsertTiming(ts[|ts| - 1], SortTimings(ts[..|ts| - 1]))
  }

  function InsertTiming(t: real, ts: seq<real>): seq<real>
  {
    if ts == [] then [t]
    else if t < ts[0] then [t] + ts
    else [ts[0]] + InsertTiming(t, ts[1..])
  }

  lemma {:induction false} InsertTimingIsInsert(t: real, ts: seq<real>)
    requires SortedBy(ts, Itself)
    ensures InsertTiming(t, ts) == Insert(t, ts, Itself)
    decreases |ts|
  {
    if ts != [] && t >= ts[0] {
      InsertTimingIsInsert(t, ts[1..]);
    }
  }

  lemma {:induction false} SortTimingsIsSortBy(ts: seq<real>)
    ensures SortTimings(ts) == SortBy(ts, Itself)
    decreases |ts|
  {
    if ts != [] {
      SortTimingsIsSortBy(ts[..|ts| - 1]);
      InsertTimingIsInsert(ts[|ts| - 1], SortBy(ts[..|ts| - 1], Itself));
    }
  }

  /** The lane is the notes' and long-note starts' timings, each once, in
      non-decreasing order. */
  lemma LaneEventsSorted(b: BarInfo, i: nat)
    requires i < 8
    ensures SortedBy(LaneEvents(b, i), Itself)
    ensures multiset(LaneEvents(b, i)) == multiset(NoteTimings(b.notes[i]) + StartTimings(b.lnnotes[i]))
  {
    SortTimingsIsSortBy(NoteTimings(b.notes[i]) + StartTimings(b.lnnotes[i]));
  }

  /** `[x for x in notes if lo <= x.timing and x.timing < hi]` (bmslevel.py:57). */
  function Between(ts: seq<real>, lo: real, hi: real): seq<real>
  {
    if ts == [] then []
    else
      var last := ts[|ts| - 1];
      Between(ts[..|ts| - 1], lo, hi) + (if lo <= last && last < hi then [last] else [])
  }

  /** `[x for x in notes if lo <= x.timing]` (bmslevel.py:74). */
  function From(ts: seq<real>, lo: real): seq<real>
  {
    if ts == [] then []
    else
      var last := ts[|ts| - 1];
      From(ts[..|ts| - 1], lo) + (if lo <= last then [last] else [])
  }

  /** The instant of a note at `timing` in a stretch of the bar that starts
      at `fromBeat` and at `base` milliseconds (bmslevel.py:44, 60, 76). */
  function Instant(base: real, msPerBeat: real, beat: real, fromBeat: real, timing: real): real
  {
    base + msPerBeat * beat * (timing - fromBeat) * 4.0
  }

  /** The instants of the timings `ts`, in order. */
  function Instants(ts: seq<real>, base: real, msPerBeat: real, beat: real, fromBeat: real): (r: seq<real>)
    ensures |r| == |ts|
  {
    if ts == [] then []
    else Instants(ts[..|ts| - 1], base, msPerBeat, beat, fromBeat) + [Instant(base, msPerBeat, beat, fromBeat, ts[|ts| - 1])]
  }

  /** `ms_per_beat(bpm) * beat * (toBeat - fromBeat) * 4`: the length of
      the stretch of a bar from `fromBeat` to `toBeat`; a whole bar is the
      stretch from 0 to 1 (bmslevel.py:46, 63, 79). */
  function StretchMs(bpm: real, beat: real, fromBeat: real, toBeat: real): real
    requires bpm != 0.0
  {
    MsPerBeat(bpm) * beat * (toBeat - fromBeat) * 4.0
  }

  /** The running state of `__init__`: `key_ms`, `current_ms`,
      `current_beat` and `current_bpm`. */
  datatype Scan = Scan(keyMs: Lanes<real>, ms: real, beat: real, bpm: real)

  /** A bar without tempo changes (bmslevel.py:36-47): every lane's notes
      are placed from the bar's start, and the bar then advances the clock
      by its whole length. */
  function PlainBar(s: Scan, b: BarInfo): Result<Scan>
  {
    if s.bpm == 0.0 then Err(DivisionByZero)
    else
      Ok(s.(keyMs := PlainLanes(s, b, 8), ms := s.ms + StretchMs(s.bpm, b.beat, 0.0, 1.0)))
  }

  /** Lanes `0` to `n - 1` of a bar without tempo changes, placed from the
      bar's start; the other lanes as they were. */
  function PlainLanes(s: Scan, b: BarInfo, n: nat): Lanes<real>
    requires s.bpm != 0.0 && n <= 8
  {
    if n == 0 then s.keyMs
    else
      var k := PlainLanes(s, b, n - 1);
      k[n - 1 := k[n - 1] + Instants(LaneEvents(b, n - 1), s.ms, MsPerBeat(s.bpm), b.beat, 0.0)]
  }

  /** One pass of the loop over a bar's tempo changes (bmslevel.py:50-65):
      the notes from the current beat up to the change are placed at the
      tempo in force, the clock advances to the change, and the change's
      tempo takes over. */
  function ChangeStep(s: Scan, b: BarInfo, change: BpmNote): Result<Scan>
  {
    if s.bpm == 0.0 then Err(DivisionByZero)
    else
      Ok(Scan(SegmentLanes(s, b, change, 8), s.ms + StretchMs(s.bpm, b.beat, s.beat, change.timing),
              change.timing, change.bpm))
  }

  /** Lanes `0` to `n - 1` with their notes from the current beat up to
      `change` placed at the tempo in force; the other lanes as they were. */
  function SegmentLanes(s: Scan, b: BarInfo, change: BpmNote, n: nat): Lanes<real>
    requires s.bpm != 0.0 && n <= 8
  {
    if n == 0 then s.keyMs
    else
      var k := SegmentLanes(s, b, change, n - 1);
      k[n - 1 := k[n - 1] + Instants(Between(LaneEvents(b, n - 1), s.beat, change.timing), s.ms, MsPerBeat(s.bpm), b.beat, s.beat)]
  }

  /** The passes for the tempo changes `cs`, in order. */
  function Changes(s: Scan, b: BarInfo, cs: seq<BpmNote>): (r: Result<Scan>)
    ensures r.Err? ==> r.error == DivisionByZero
  {
    if cs == [] then Ok(s)
    else match Changes(s, b, cs[..|cs| - 1])
      case Err(e) => Err(e)
      case Ok(t) => ChangeStep(t, b, cs[|cs| - 1])
  }

  /** The length of the rest of the bar after the last tempo change, as
      bmslevel.py:79 computes it. */
  function TailMs(s: Scan, b: BarInfo): real
    requires s.bpm != 0.0
  {
    StretchMs(s.bpm, b.beat, s.beat, 1.0)
  }

  /** One pass of the loop after the last tempo change (bmslevel.py:67-79).
      An empty lane is skipped; otherwise its notes from the current beat
      on are placed, and the clock advances by the rest of the bar inside
      the lane loop, that is once per non-empty lane. */
  function TrailingLane(s: Scan, b: BarInfo, i: nat): Result<Scan>
    requires i < 8
  {
    var events := LaneEvents(b, i);
    if events == [] then Ok(s)
    else if s.bpm == 0.0 then Err(DivisionByZero)
    else
      var lane := s.keyMs[i] + Instants(From(events, s.beat), s.ms, MsPerBeat(s.bpm), b.beat, s.beat);
      Ok(s.(keyMs := s.keyMs[i := lane], ms := s.ms + TailMs(s, b)))
  }

  /** The passes for lanes `0` to `n - 1`. */
  function Trailing(s: Scan, b: BarInfo, n: nat): (r: Result<Scan>)
    requires n <= 8
    ensures r.Err? ==> r.error == DivisionByZero
  {
    if n == 0 then Ok(s)
    else match Trailing(s, b, n - 1)
      case Err(e) => Err(e)
      case Ok(t) => TrailingLane(t, b, n - 1)
  }

  /** One pass of the loop over the bars (bmslevel.py:35-79); a bar with
      tempo changes starts again at beat 0. */
  function BarStep(s: Scan, b: BarInfo): (r: Result<Scan>)
    ensures r.Err? ==> r.error == DivisionByZero
  {
    if |b.bpm| == 0 then PlainBar(s, b)
    else match Changes(s.(beat := 0.0), b, b.bpm)
      case Err(e) => Err(e)
      case Ok(t) => Trailing(t, b, 8)
  }

  /** The passes for the bars `bars`, in list order. */
  function BarsRun(s: Scan, bars: seq<BarInfo>): (r: Result<Scan>)
    ensures r.Err? ==> r.error == DivisionByZero
  {
    if bars == [] then Ok(s)
    else match BarsRun(s, bars[..|bars| - 1])
      case Err(e) => Err(e)
      case Ok(t) => BarStep(t, bars[|bars| - 1])
  }

  /** The start of the walk: no instants, the clock at 0, the chart's tempo. */
  function Start(bpm: real): Scan
  {
    Scan(EmptyLanes(), 0.0, 0.0, bpm)
  }

  /** `key_ms` once `__init__` has run, or the error it raises. */
  function Timeline(bars: seq<BarInfo>, bpm: real): Result<Lanes<real>>
  {
    match BarsRun(Start(bpm), bars)
    case Ok(s) => Ok(s.keyMs)
    case Err(e) => Err(e)
  }

  // ---------------------------------------------------------------------
  // The loops of `__init__`

  /** The innermost loops (bmslevel.py:43-45, 59-61, 75-77): one instant
      appended to the lane per timing, in order. */
  method AppendInstants(lane: seq<real>, ts: seq<real>, base: real, bpm: real, beat: real, fromBeat: real) returns (r: seq<real>)
    requires bpm != 0.0
    ensures r == lane + Instants(ts, base, MsPerBeat(bpm), beat, fromBeat)
  {
    r := lane;
    for k := 0 to |ts|
      invariant r == lane + Instants(ts[..k], base, MsPerBeat(bpm), beat, fromBeat)
    {
      var ms := base + MsPerBeat(bpm) * beat * (ts[k] - fromBeat) * 4.0;
      assert ms == Instant(base, MsPerBeat(bpm), beat, fromBeat, ts[k]);
      assert ts[..k + 1][..k] == ts[..k];
      r := r + [ms];
    }
    assert ts[..|ts|] == ts;
  }

  /** A bar without tempo changes (bmslevel.py:36-47). */
  method PlainBarOf(s: Scan, b: BarInfo) returns (r: Result<Scan>)
    ensures r == PlainBar(s, b)
  {
    var keyMs := s.keyMs;
    for i := 0 to 8
      invariant s.bpm != 0.0 ==> keyMs == PlainLanes(s, b, i)
    {
      var notes := LaneEvents(b, i);
      if |notes| == 0 {
        if s.bpm != 0.0 {
          AppendNothing(keyMs, i, s.ms, MsPerBeat(s.bpm), b.beat, 0.0);
        }
        continue;
      }
      if s.bpm == 0.0 {
        return Err(DivisionByZero);
      }
      var lane := AppendInstants(keyMs[i], notes, s.ms, s.bpm, b.beat, 0.0);
      keyMs := keyMs[i := lane];
    }
    if s.bpm == 0.0 {
      return Err(DivisionByZero);
    }
    r := Ok(s.(keyMs := keyMs, ms := s.ms + StretchMs(s.bpm, b.beat, 0.0, 1.0)));
  }

  lemma AppendNothing(k: Lanes<real>, i: nat, base: real, msPerBeat: real, beat: real, fromBeat: real)
    requires i < 8
    ensures k[i := k[i] + Instants([], base, msPerBeat, beat, fromBeat)] == k
  {
    assert k[i] + [] == k[i];
  }

  /** One pass of the loop over a bar's tempo changes (bmslevel.py:50-65). */
  method ChangeStepOf(s: Scan, b: BarInfo, change: BpmNote) returns (r: Result<Scan>)
    ensures r == ChangeStep(s, b, change)
  {
    var keyMs := s.keyMs;
    for i := 0 to 8
      invariant s.bpm != 0.0 ==> keyMs == SegmentLanes(s, b, change, i)
    {
      var notes := LaneEvents(b, i);
      if |notes| == 0 {
        if s.bpm != 0.0 {
          assert Between(notes, s.beat, change.timing) == [];
          AppendNothing(keyMs, i, s.ms, MsPerBeat(s.bpm), b.beat, s.beat);
        }
        continue;
      }
      var targetNotes := Between(notes, s.beat, change.timing);
      if s.bpm == 0.0 {
        return Err(DivisionByZero);
      }
      var lane := AppendInstants(keyMs[i], targetNotes, s.ms, s.bpm, b.beat, s.beat);
      keyMs := keyMs[i := lane];
    }
    if s.bpm == 0.0 {
      return Err(DivisionByZero);
    }
    var currentMs := s.ms + StretchMs(s.bpm, b.beat, s.beat, change.timing);
    r := Ok(Scan(keyMs, currentMs, change.timing, change.bpm));
  }

  /** The loop over a bar's tempo changes (bmslevel.py:50). */
  method ChangesOf(s: Scan, b: BarInfo) returns (r: Result<Scan>)
    ensures r == Changes(s, b, b.bpm)
  {
    var current := s;
    for j := 0 to |b.bpm|
      invariant Changes(s, b, b.bpm[..j]) == Ok(current)
    {
      assert b.bpm[..j + 1][..j] == b.bpm[..j];
      var next := ChangeStepOf(current, b, b.bpm[j]);
      if next.Err? {
        ChangesErrSticks(s, b, b.bpm, j + 1);
        return next;
      }
      current := next.value;
    }
    assert b.bpm[..|b.bpm|] == b.bpm;
    r := Ok(current);
  }

  /** One pass of the loop after the last tempo change (bmslevel.py:68-79). */
  method TrailingLaneOf(s: Scan, b: BarInfo, i: nat) returns (r: Result<Scan>)
    requires i < 8
    ensures r == TrailingLane(s, b, i)
  {
    var notes := LaneEvents(b, i);
    if |notes| == 0 {
      return Ok(s);
    }
    if s.bpm == 0.0 {
      return Err(DivisionByZero);
    }
    var targetNotes := From(notes, s.beat);
    var lane := AppendInstants(s.keyMs[i], targetNotes, s.ms, s.bpm, b.beat, s.beat);
    var currentMs := s.ms + StretchMs(s.bpm, b.beat, s.beat, 1.0);
    r := Ok(s.(keyMs := s.keyMs[i := lane], ms := currentMs));
  }

  /** The loop after the last tempo change (bmslevel.py:67-79). */
  method TrailingOf(s: Scan, b: BarInfo) returns (r: Result<Scan>)
    ensures r == Trailing(s, b, 8)
  {
    var current := s;
    for i := 0 to 8
      invariant Trailing(s, b, i) == Ok(current)
    {
      var next := TrailingLaneOf(current, b, i);
      if next.Err? {
        TrailingErrSticks(s, b, i + 1, 8);
        return next;
      }
      current := next.value;
    }
    r := Ok(current);
  }

  /** One pass of the loop over the bars (bmslevel.py:35-79). */
  method BarStepOf(s: Scan, b: BarInfo) returns (r: Result<Scan>)
    ensures r == BarStep(s, b)
  {
    if |b.bpm| == 0 {
      r := PlainBarOf(s, b);
      return;
    }
    var changed := ChangesOf(s.(beat := 0.0), b);
    if changed.Err? {
      return changed;
    }
    r := TrailingOf(changed.value, b);
  }

  /** `InputTimeline(bms).key_ms`: the walk over the bars (bmslevel.py:33-79). */
  method BuildTimeline(bars: seq<BarInfo>, bpm: real) returns (r: Result<Lanes<real>>)
    ensures r == Timeline(bars, bpm)
  {
    var current := Start(bpm);
    for n := 0 to |bars|
      invariant BarsRun(Start(bpm), bars[..n]) == Ok(current)
    {
      assert bars[..n + 1][..n] == bars[..n];
      var next := BarStepOf(current, bars[n]);
      if next.Err? {
        BarsErrSticks(Start(bpm), bars, n + 1);
        return Err(next.error);
      }
      current := next.value;
    }
    assert bars[..|bars|] == bars;
    r := Ok(current.keyMs);
  }

  // ---------------------------------------------------------------------
  // Failures stop the walk

  lemma {:induction false} ChangesErrSticks(s: Scan, b: BarInfo, cs: seq<BpmNote>, j: nat)
    requires j <= |cs| && Changes(s, b, cs[..j]).Err?
    ensures Changes(s, b, cs) == Changes(s, b, cs[..j])
    decreases |cs|
  {
    if j < |cs| {
      var front := cs[..|cs| - 1];
      assert front[..j] == cs[..j];
      ChangesErrSticks(s, b, front, j);
    } else {
      assert cs[..j] == cs;
    }
  }

  lemma {:induction false} TrailingErrSticks(s: Scan, b: BarInfo, i: nat, n: nat)
    requires i <= n <= 8 && Trailing(s, b, i).Err?
    ensures Trailing(s, b, n) == Trailing(s, b, i)
    decreases n
  {
    if i < n {
      TrailingErrSticks(s, b, i, n - 1);
    }
  }

  lemma {:induction false} BarsErrSticks(s: Scan, bars: seq<BarInfo>, j: nat)
    requires j <= |bars| && BarsRun(s, bars[..j]).Err?
    ensures BarsRun(s, bars) == BarsRun(s, bars[..j])
    decreases |bars|
  {
    if j < |bars| {
      var front := bars[..|bars| - 1];
      assert front[..j] == bars[..j];
      BarsErrSticks(s, front, j);
    } else {
      assert bars[..j] == bars;
    }
  }

  // ---------------------------------------------------------------------
  // When the walk fails

  /** Every tempo change of every bar is non-zero. */
  predicate ChangeTemposNonZero(bars: seq<BarInfo>)
  {
    forall n, k :: 0 <= n < |bars| && 0 <= k < |bars[n].bpm| ==> bars[n].bpm[k].bpm != 0.0
  }

  lemma {:induction false} ChangesKeepTempo(s: Scan, b: BarInfo, cs: seq<BpmNote>)
    requires s.bpm != 0.0
    requires forall k :: 0 <= k < |cs| ==> cs[k].bpm != 0.0
    ensures Changes(s, b, cs).Ok? && Changes(s, b, cs).value.bpm != 0.0
    decreases |cs|
  {
    if cs != [] {
      ChangesKeepTempo(s, b, cs[..|cs| - 1]);
    }
  }

  lemma {:induction false} TrailingKeeps(s: Scan, b: BarInfo, n: nat)
    requires n <= 8
    ensures Trailing(s, b, n).Ok? ==>
      Trailing(s, b, n).value.bpm == s.bpm && Trailing(s, b, n).value.beat == s.beat
    ensures s.bpm != 0.0 ==> Trailing(s, b, n).Ok?
    decreases n
  {
    if n > 0 {
      TrailingKeeps(s, b, n - 1);
    }
  }

  lemma BarStepKeepsTempo(s: Scan, b: BarInfo)
    requires s.bpm != 0.0
    requires forall k :: 0 <= k < |b.bpm| ==> b.bpm[k].bpm != 0.0
    ensures BarStep(s, b).Ok? && BarStep(s, b).value.bpm != 0.0
  {
    if |b.bpm| > 0 {
      var s0 := s.(beat := 0.0);
      ChangesKeepTempo(s0, b, b.bpm);
      TrailingKeeps(Changes(s0, b, b.bpm).value, b, 8);
    }
  }

  lemma {:induction false} BarsRunOk(s: Scan, bars: seq<BarInfo>)
    requires s.bpm != 0.0 && ChangeTemposNonZero(bars)
    ensures BarsRun(s, bars).Ok? && BarsRun(s, bars).value.bpm != 0.0
    decreases |bars|
  {
    if bars != [] {
      var front := bars[..|bars| - 1];
      assert ChangeTemposNonZero(front) by {
        forall n, k | 0 <= n < |front| && 0 <= k < |front[n].bpm|
          ensures front[n].bpm[k].bpm != 0.0
        {
          assert front[n] == bars[n];
        }
      }
      BarsRunOk(s, front);
      BarStepKeepsTempo(BarsRun(s, front).value, bars[|bars| - 1]);
    }
  }

  /** A chart whose base tempo is 0 fails on its first bar: either on its
      first note or the bar's length, or on its first tempo change. */
  lemma ZeroTempoFirstBar(s: Scan, b: BarInfo)
    requires s.bpm == 0.0
    ensures BarStep(s, b) == Err(DivisionByZero)
  {
    if |b.bpm| > 0 {
      var s0 := s.(beat := 0.0);
      assert b.bpm[..1][..0] == [];
      assert Changes(s0, b, b.bpm[..1]).Err?;
      ChangesErrSticks(s0, b, b.bpm, 1);
    }
  }

  /** The timeline fails only by dividing by a zero tempo. With every
      tempo change non-zero, it fails exactly when the chart's own tempo is
      0 and the chart has a bar. */
  lemma TimelineFailure(bars: seq<BarInfo>, bpm: real)
    ensures Timeline(bars, bpm).Err? ==> Timeline(bars, bpm).error == DivisionByZero
    ensures ChangeTemposNonZero(bars) ==>
      (Timeline(bars, bpm).Ok? <==> bpm != 0.0 || bars == [])
  {
    if bpm != 0.0 && ChangeTemposNonZero(bars) {
      BarsRunOk(Start(bpm), bars);
    }
    if bpm == 0.0 && bars != [] {
      assert bars[..1][..0] == [];
      ZeroTempoFirstBar(Start(bpm), bars[0]);
      assert BarsRun(Start(bpm), bars[..1]).Err?;
      BarsErrSticks(Start(bpm), bars, 1);
    }
  }

  // ---------------------------------------------------------------------
  // Every note lands once

  /** A bar as the parser leaves it after `sort`: tempo changes in timing
      order, none before the bar's start, and no note before it either. */
  predicate Ordered(b: BarInfo)
  {
    SortedBy(b.bpm, BpmTiming) &&
    (forall k :: 0 <= k < |b.bpm| ==> 0.0 <= b.bpm[k].timing) &&
    (forall i, k :: 0 <= i < 8 && 0 <= k < |LaneEvents(b, i)| ==> 0.0 <= LaneEvents(b, i)[k])
  }

  /** Taking the notes from `lo` to `hi` and then those from `hi` on takes
      the notes from `lo` on. */
  lemma {:induction false} SplitCount(ts: seq<real>, lo: real, hi: real)
    requires lo <= hi
    ensures |Between(ts, lo, hi)| + |From(ts, hi)| == |From(ts, lo)|
    decreases |ts|
  {
    if ts != [] {
      SplitCount(ts[..|ts| - 1], lo, hi);
    }
  }

  lemma {:induction false} FromAll(ts: seq<real>, lo: real)
    requires forall k :: 0 <= k < |ts| ==> lo <= ts[k]
    ensures From(ts, lo) == ts
    decreases |ts|
  {
    if ts != [] {
      FromAll(ts[..|ts| - 1], lo);
      assert ts[..|ts| - 1] + [ts[|ts| - 1]] == ts;
    }
  }

  lemma {:induction false} PlainLanesCount(s: Scan, b: BarInfo, n: nat)
    requires s.bpm != 0.0 && n <= 8
    ensures forall i :: 0 <= i < 8 ==>
      |PlainLanes(s, b, n)[i]| == |s.keyMs[i]| + (if i < n then |LaneEvents(b, i)| else 0)
    decreases n
  {
    if n > 0 {
      PlainLanesCount(s, b, n - 1);
    }
  }

  lemma {:induction false} SegmentLanesCount(s: Scan, b: BarInfo, change: BpmNote, n: nat)
    requires s.bpm != 0.0 && n <= 8
    ensures forall i :: 0 <= i < 8 ==>
      |SegmentLanes(s, b, change, n)[i]| ==
        |s.keyMs[i]| + (if i < n then |Between(LaneEvents(b, i), s.beat, change.timing)| else 0)
    decreases n
  {
    if n > 0 {
      SegmentLanesCount(s, b, change, n - 1);
    }
  }

  lemma ChangeStepCount(s: Scan, b: BarInfo, change: BpmNote)
    requires s.beat <= change.timing && ChangeStep(s, b, change).Ok?
    ensures var t := ChangeStep(s, b, change).value;
      t.beat == change.timing &&
      forall i :: 0 <= i < 8 ==>
        |t.keyMs[i]| + |From(LaneEvents(b, i), t.beat)| == |s.keyMs[i]| + |From(LaneEvents(b, i), s.beat)|
  {
    SegmentLanesCount(s, b, change, 8);
    forall i | 0 <= i < 8
    {
      SplitCount(LaneEvents(b, i), s.beat, change.timing);
    }
  }

  /** Across the tempo changes of a bar, each note placed so far plus each
      note still ahead of the current beat is one of the notes ahead at the
      start. */
  lemma {:induction false} ChangesCount(s: Scan, b: BarInfo, cs: seq<BpmNote>)
    requires SortedBy(cs, BpmTiming)
    requires forall k :: 0 <= k < |cs| ==> s.beat <= cs[k].timing
    requires Changes(s, b, cs).Ok?
    ensures var t := Changes(s, b, cs).value;
      s.beat <= t.beat &&
      (forall k :: 0 <= k < |cs| ==> cs[k].timing <= t.beat) &&
      forall i :: 0 <= i < 8 ==>
        |t.keyMs[i]| + |From(LaneEvents(b, i), t.beat)| == |s.keyMs[i]| + |From(LaneEvents(b, i), s.beat)|
    decreases |cs|
  {
    if cs != [] {
      var front := cs[..|cs| - 1];
      var last := cs[|cs| - 1];
      assert SortedBy(front, BpmTiming);
      ChangesCount(s, b, front);
      var u := Changes(s, b, front).value;
      assert u.beat <= last.timing by {
        if front != [] {
          assert front[|front| - 1] == cs[|cs| - 2];
        }
      }
      ChangeStepCount(u, b, last);
    }
  }

  /** One lane after the last tempo change gains one instant per note from
      the current beat on; the other lanes, the beat and the tempo stay. */
  lemma TrailingLaneEffect(s: Scan, b: BarInfo, j: nat)
    requires j < 8 && TrailingLane(s, b, j).Ok?
    ensures var t := TrailingLane(s, b, j).value;
      t.beat == s.beat && t.bpm == s.bpm &&
      |t.keyMs[j]| == |s.keyMs[j]| + |From(LaneEvents(b, j), s.beat)| &&
      (forall i :: 0 <= i < 8 && i != j ==> t.keyMs[i] == s.keyMs[i]) &&
      t.ms == s.ms + (if LaneEvents(b, j) == [] then 0.0 else TailMs(s, b))
  {
    var events := LaneEvents(b, j);
    if events == [] {
      assert From(events, s.beat) == [];
    }
  }

  lemma {:induction false} TrailingCount(s: Scan, b: BarInfo, n: nat)
    requires n <= 8 && Trailing(s, b, n).Ok?
    ensures forall i :: 0 <= i < 8 ==>
      |Trailing(s, b, n).value.keyMs[i]| == |s.keyMs[i]| + (if i < n then |From(LaneEvents(b, i), s.beat)| else 0)
    decreases n
  {
    if n > 0 {
      TrailingCount(s, b, n - 1);
      TrailingKeeps(s, b, n - 1);
      var u := Trailing(s, b, n - 1).value;
      TrailingLaneEffect(u, b, n - 1);
      var t := Trailing(s, b, n).value;
      forall i | 0 <= i < 8
        ensures |t.keyMs[i]| == |s.keyMs[i]| + (if i < n then |From(LaneEvents(b, i), s.beat)| else 0)
      {
        if i != n - 1 {
          assert t.keyMs[i] == u.keyMs[i];
        }
      }
    }
  }

  /** In an ordered bar, every note and long-note start of a lane gives the
      lane exactly one instant. */
  lemma BarStepCount(s: Scan, b: BarInfo)
    requires Ordered(b) && BarStep(s, b).Ok?
    ensures forall i :: 0 <= i < 8 ==>
      |BarStep(s, b).value.keyMs[i]| == |s.keyMs[i]| + |LaneEvents(b, i)|
  {
    if |b.bpm| == 0 {
      PlainLanesCount(s, b, 8);
    } else {
      var s0 := s.(beat := 0.0);
      ChangesCount(s0, b, b.bpm);
      var t := Changes(s0, b, b.bpm).value;
      TrailingCount(t, b, 8);
      forall i | 0 <= i < 8
        ensures |From(LaneEvents(b, i), 0.0)| == |LaneEvents(b, i)|
      {
        FromAll(LaneEvents(b, i), 0.0);
      }
    }
  }

  /** The number of notes and long-note starts of lane `i` over `bars`. */
  function EventCount(bars: seq<BarInfo>, i: nat): nat
    requires i < 8
  {
    if bars == [] then 0
    else EventCount(bars[..|bars| - 1], i) + |LaneEvents(bars[|bars| - 1], i)|
  }

  lemma {:induction false} BarsRunCount(s: Scan, bars: seq<BarInfo>)
    requires forall n :: 0 <= n < |bars| ==> Ordered(bars[n])
    requires BarsRun(s, bars).Ok?
    ensures forall i :: 0 <= i < 8 ==>
      |BarsRun(s, bars).value.keyMs[i]| == |s.keyMs[i]| + EventCount(bars, i)
    decreases |bars|
  {
    if bars != [] {
      var front := bars[..|bars| - 1];
      assert forall n :: 0 <= n < |front| ==> front[n] == bars[n];
      BarsRunCount(s, front);
      BarStepCount(BarsRun(s, front).value, bars[|bars| - 1]);
    }
  }

  /** Over a chart of ordered bars, lane `i` of the timeline holds one
      instant per note and long-note start of that lane. */
  lemma TimelineCounts(bars: seq<BarInfo>, bpm: real)
    requires forall n :: 0 <= n < |bars| ==> Ordered(bars[n])
    requires Timeline(bars, bpm).Ok?
    ensures forall i :: 0 <= i < 8 ==> |Timeline(bars, bpm).value[i]| == EventCount(bars, i)
  {
    BarsRunCount(Start(bpm), bars);
  }

  // ---------------------------------------------------------------------
  // The clock

  /** The number of non-empty lanes among lanes `0` to `n - 1` of a bar. */
  function NonEmptyLanes(b: BarInfo, n: nat): nat
    requires n <= 8
  {
    if n == 0 then 0
    else NonEmptyLanes(b, n - 1) + (if LaneEvents(b, n - 1) == [] then 0 else 1)
  }

  /** `t` added `k` times, which is `k * t`. */
  function Repeat(k: nat, t: real): real
  {
    if k == 0 then 0.0 else Repeat(k - 1, t) + t
  }

  lemma {:induction false} RepeatIsProduct(k: nat, t: real)
    ensures Repeat(k, t) == (k as real) * t
  {
    if k > 0 {
      RepeatIsProduct(k - 1, t);
    }
  }

  /** After the last tempo change the loop over the first `n` lanes
      advances the clock by the rest of the bar once per non-empty lane, and
      not at all when every lane is empty. */
  lemma {:induction false} TrailingRepeats(s: Scan, b: BarInfo, n: nat)
    requires n <= 8 && s.bpm != 0.0
    ensures Trailing(s, b, n).Ok?
    ensures Trailing(s, b, n).value.ms == s.ms + Repeat(NonEmptyLanes(b, n), TailMs(s, b))
    decreases n
  {
    if n > 0 {
      TrailingRepeats(s, b, n - 1);
      TrailingKeeps(s, b, n - 1);
      TrailingLaneEffect(Trailing(s, b, n - 1).value, b, n - 1);
    }
  }

  /** A bar without tempo changes advances the clock by its length at the
      tempo in force and keeps the tempo. */
  lemma PlainBarClock(s: Scan, b: BarInfo)
    requires |b.bpm| == 0 && s.bpm != 0.0
    ensures BarStep(s, b).Ok?
    ensures BarStep(s, b).value.ms == s.ms + MsPerBeat(s.bpm) * b.beat * 4.0
    ensures BarStep(s, b).value.bpm == s.bpm
  {
  }
}
