/** `CalcDensity.calc` (bmslevel.py:85-138): the gaps between consecutive
    inputs of each lane, and a score that grows as the gaps shrink. */
module LevelDensity {
  import opened Basics
  import LevelTimeline
  import opened BmsTypes
  import BmsParser
  import BmsProperties

  /** The gap list entry for input `k` of a lane whose inputs are compared
      `lag` apart: none for the first input, and none when the compared
      input is at instant 0, which the loop cannot tell from "no input yet"
      (bmslevel.py:95-111, 118-125). */
  function Gap(ts: seq<real>, lag: nat, k: nat): Option<real>
    requires k < |ts|
  {
    if k < lag || ts[k - lag] == 0.0 then None else Some(ts[k] - ts[k - lag])
  }

  /** Some input equals the non-zero input it is compared with: the
      `assert` of bmslevel.py:100, 107, 121 fails. */
  predicate Repeats(ts: seq<real>, lag: nat)
  {
    exists k :: lag <= k < |ts| && ts[k - lag] != 0.0 && ts[k] == ts[k - lag]
  }

  /** The gap list of a lane compared `lag` apart, or the failed assertion. */
  function Gaps(ts: seq<real>, lag: nat): Result<seq<Option<real>>>
  {
    if Repeats(ts, lag) then Err(AssertionFailed)
    else Ok(seq(|ts|, k requires 0 <= k < |ts| => Gap(ts, lag, k)))
  }

  /** The scratch's even-numbered inputs are compared with each other, and
      so are its odd-numbered ones; a key's inputs follow each other. */
  function Lag(lane: nat): nat
  {
    if lane == 0 then 2 else 1
  }

  /** `process_for_scratch` (bmslevel.py:93-111): `start_up` holds the last
      even-numbered input, `start_down` the last odd-numbered one. */
  method ScratchGaps(ts: seq<real>) returns (r: Result<seq<Option<real>>>)
    ensures r == Gaps(ts, 2)
  {
    var gaps: seq<Option<real>> := [];
    var startUp := 0.0;
    var startDown := 0.0;
    for k := 0 to |ts|
      invariant |gaps| == k
      invariant forall m :: 0 <= m < k ==> gaps[m] == Gap(ts, 2, m)
      invariant forall m :: 2 <= m < k ==> !(ts[m - 2] != 0.0 && ts[m] == ts[m - 2])
      invariant startUp == (if k % 2 == 0 then (if k >= 2 then ts[k - 2] else 0.0) else ts[k - 1])
      invariant startDown == (if k % 2 == 1 then (if k >= 2 then ts[k - 2] else 0.0) else (if k >= 1 then ts[k - 1] else 0.0))
    {
      var input := ts[k];
      if k % 2 == 0 {
        if startUp != 0.0 {
          if input == startUp {
            return Err(AssertionFailed);
          }
          gaps := gaps + [Some(input - startUp)];
        } else {
          gaps := gaps + [None];
        }
        startUp := input;
      } else {
        if startDown != 0.0 {
          if input == startDown {
            return Err(AssertionFailed);
          }
          gaps := gaps + [Some(input - startDown)];
        } else {
          gaps := gaps + [None];
        }
        startDown := input;
      }
    }
    assert !Repeats(ts, 2);
    assert gaps == seq(|ts|, k requires 0 <= k < |ts| => Gap(ts, 2, k));
    r := Ok(gaps);
  }

  /** The body of `process` for one key lane (bmslevel.py:118-125): `start`
      holds the previous input. */
  method KeyGaps(ts: seq<real>) returns (r: Result<seq<Option<real>>>)
    ensures r == Gaps(ts, 1)
  {
    var gaps: seq<Option<real>> := [];
    var start := 0.0;
    for k := 0 to |ts|
      invariant |gaps| == k
      invariant forall m :: 0 <= m < k ==> gaps[m] == Gap(ts, 1, m)
      invariant forall m :: 1 <= m < k ==> !(ts[m - 1] != 0.0 && ts[m] == ts[m - 1])
      invariant start == (if k >= 1 then ts[k - 1] else 0.0)
    {
      var input := ts[k];
      if start != 0.0 {
        if input == start {
          return Err(AssertionFailed);
        }
        gaps := gaps + [Some(input - start)];
      } else {
        gaps := gaps + [None];
      }
      start := input;
    }
    assert !Repeats(ts, 1);
    assert gaps == seq(|ts|, k requires 0 <= k < |ts| => Gap(ts, 1, k));
    r := Ok(gaps);
  }

  /** No gap of an accepted lane is zero, so the score can divide by it. */
  predicate NonZeroGaps(gaps: seq<Option<real>>)
  {
    forall k :: 0 <= k < |gaps| && gaps[k].Some? ==> gaps[k].value != 0.0
  }

  lemma GapsNonZero(ts: seq<real>, lag: nat)
    requires Gaps(ts, lag).Ok?
    ensures NonZeroGaps(Gaps(ts, lag).value)
    ensures |Gaps(ts, lag).value| == |ts|
  {
    var gaps := Gaps(ts, lag).value;
    forall k | 0 <= k < |gaps| && gaps[k].Some?
      ensures gaps[k].value != 0.0
    {
      assert gaps[k] == Gap(ts, lag, k);
      assert !(ts[k - lag] != 0.0 && ts[k] == ts[k - lag]);
    }
  }

  /** What one gap list entry adds to the score: 1 for a first input, and
      `(200 / gap)²` otherwise (bmslevel.py:131-136). */
  function Weight(g: Option<real>): real
    requires g.Some? ==> g.value != 0.0
  {
    match g
    case None => 1.0
    case Some(x) => (200.0 / x) * (200.0 / x)
  }

  /** The weights of a gap list, added in order. */
  function Influence(gaps: seq<Option<real>>): real
    requires NonZeroGaps(gaps)
  {
    if gaps == [] then 0.0
    else Influence(gaps[..|gaps| - 1]) + Weight(gaps[|gaps| - 1])
  }

  /** The weights of the gap lists of lanes `0` to `n - 1`. */
  function LanesInfluence(lists: Lanes<Option<real>>, n: nat): real
    requires n <= 8 && forall i :: 0 <= i < 8 ==> NonZeroGaps(lists[i])
  {
    if n == 0 then 0.0 else LanesInfluence(lists, n - 1) + Influence(lists[n - 1])
  }

  /** `total_notes`: the inputs of lanes `1` to `n - 1`; the scratch is not
      counted (bmslevel.py:115-117). */
  function KeyNotes(keyMs: Lanes<real>, n: nat): nat
    requires n <= 8
  {
    if n <= 1 then 0 else KeyNotes(keyMs, n - 1) + |keyMs[n - 1]|
  }

  /** The score before its final division: `key_influence` and
      `total_notes`. The score is `numerator / sqrt(totalNotes)`. */
  datatype Density = Density(numerator: real, totalNotes: nat)

  /** Some lane fails its assertion. */
  predicate AnyRepeats(keyMs: Lanes<real>)
  {
    exists i :: 0 <= i < 8 && Repeats(keyMs[i], Lag(i))
  }

  /** The gap lists of every lane, when no lane fails. */
  function GapLists(keyMs: Lanes<real>): (r: Lanes<Option<real>>)
    requires !AnyRepeats(keyMs)
    ensures forall i :: 0 <= i < 8 ==> Gaps(keyMs[i], Lag(i)) == Ok(r[i]) && NonZeroGaps(r[i])
  {
    var r: Lanes<Option<real>> := seq(8, i requires 0 <= i < 8 => Gaps(keyMs[i], Lag(i)).value);
    assert forall i :: 0 <= i < 8 ==> Gaps(keyMs[i], Lag(i)) == Ok(r[i]) && NonZeroGaps(r[i]) by {
      forall i | 0 <= i < 8
        ensures Gaps(keyMs[i], Lag(i)) == Ok(r[i]) && NonZeroGaps(r[i])
      {
        GapsNonZero(keyMs[i], Lag(i));
      }
    }
    r
  }

  /** `calc` up to the square root: the failed assertion if some lane
      repeats an input, a division by zero if no key lane has an input,
      and otherwise the score's numerator and `total_notes`. */
  function Calc(keyMs: Lanes<real>): Result<Density>
  {
    if AnyRepeats(keyMs) then Err(AssertionFailed)
    else if KeyNotes(keyMs, 8) == 0 then Err(DivisionByZero)
    else Ok(Density(LanesInfluence(GapLists(keyMs), 8), KeyNotes(keyMs, 8)))
  }

  // ---------------------------------------------------------------------
  // The loops of `calc`

  /** The loop that sums the weights (bmslevel.py:130-136). */
  method SumInfluence(lists: Lanes<Option<real>>) returns (keyInfluence: real)
    requires forall i :: 0 <= i < 8 ==> NonZeroGaps(lists[i])
    ensures keyInfluence == LanesInfluence(lists, 8)
  {
    keyInfluence := 0.0;
    for i := 0 to 8
      invariant keyInfluence == LanesInfluence(lists, i)
    {
      var inputs := lists[i];
      var laneStart := keyInfluence;
      for k := 0 to |inputs|
        invariant keyInfluence == laneStart + Influence(inputs[..k])
      {
        assert inputs[..k + 1][..k] == inputs[..k];
        if inputs[k].None? {
          keyInfluence := keyInfluence + 1.0;
        } else {
          keyInfluence := keyInfluence + (200.0 / inputs[k].value) * (200.0 / inputs[k].value);
        }
      }
      assert inputs[..|inputs|] == inputs;
    }
  }

  /** `CalcDensity.calc` (bmslevel.py:89-138) up to the square root. */
  method CalcOf(keyMs: Lanes<real>) returns (r: Result<Density>)
    ensures r == Calc(keyMs)
  {
    var totalNotes := 0;
    var lists: Lanes<Option<real>> := EmptyLanes();
    var scratch := ScratchGaps(keyMs[0]);
    if scratch.Err? {
      return Err(scratch.error);
    }
    lists := lists[0 := scratch.value];
    for i := 1 to 8
      invariant totalNotes == KeyNotes(keyMs, i)
      invariant forall j :: 0 <= j < i ==> Gaps(keyMs[j], Lag(j)) == Ok(lists[j])
    {
      totalNotes := totalNotes + |keyMs[i]|;
      var lane := KeyGaps(keyMs[i]);
      if lane.Err? {
        return Err(lane.error);
      }
      lists := lists[i := lane.value];
    }
    forall i | 0 <= i < 8
      ensures NonZeroGaps(lists[i])
    {
      GapsNonZero(keyMs[i], Lag(i));
    }
    assert lists == GapLists(keyMs);
    var keyInfluence := SumInfluence(lists);
    if totalNotes == 0 {
      return Err(DivisionByZero);
    }
    r := Ok(Density(keyInfluence, totalNotes));
  }

  /** `CalcDensity(bms).calc()` up to the square root: the timeline, then
      the score (bmslevel.py:86-87, 89-138). */
  function Level(bars: seq<BarInfo>, bpm: real): Result<Density>
  {
    match LevelTimeline.Timeline(bars, bpm)
    case Err(e) => Err(e)
    case Ok(keyMs) => Calc(keyMs)
  }

  method LevelOf(bars: seq<BarInfo>, bpm: real) returns (r: Result<Density>)
    ensures r == Level(bars, bpm)
  {
    var keyMs := LevelTimeline.BuildTimeline(bars, bpm);
    if keyMs.Err? {
      return Err(keyMs.error);
    }
    r := CalcOf(keyMs.value);
  }

  // ---------------------------------------------------------------------
  // Properties of the score

  /** A lane at 0, 200 and 600 ms gives no gap, no gap, and 400: the input
      at 0 reads as "no input yet". */
  lemma ZeroInstantExample()
    ensures Gaps([0.0, 200.0, 600.0], 1) == Ok([None, None, Some(400.0)])
  {
    var ts := [0.0, 200.0, 600.0];
    assert !Repeats(ts, 1) by {
      forall k | 1 <= k < |ts|
        ensures !(ts[k - 1] != 0.0 && ts[k] == ts[k - 1])
      {
      }
    }
    var gaps := seq(|ts|, k requires 0 <= k < |ts| => Gap(ts, 1, k));
    assert gaps[0] == None && gaps[1] == None && gaps[2] == Some(400.0);
    assert gaps == [None, None, Some(400.0)];
  }

  /** A lane whose inputs are positive and strictly increasing is accepted:
      its first `lag` entries are empty and every other entry is the
      positive time since the input it is compared with. */
  lemma IncreasingGaps(ts: seq<real>, lag: nat)
    requires lag >= 1
    requires forall k :: 0 <= k < |ts| ==> 0.0 < ts[k]
    requires forall j, k :: 0 <= j < k < |ts| ==> ts[j] < ts[k]
    ensures Gaps(ts, lag).Ok?
    ensures forall k :: 0 <= k < lag && k < |ts| ==> Gaps(ts, lag).value[k] == None
    ensures forall k :: lag <= k < |ts| ==>
      Gaps(ts, lag).value[k] == Some(ts[k] - ts[k - lag]) && ts[k] - ts[k - lag] > 0.0
  {
    assert !Repeats(ts, lag) by {
      forall k | lag <= k < |ts|
        ensures !(ts[k - lag] != 0.0 && ts[k] == ts[k - lag])
      {
        assert ts[k - lag] < ts[k];
      }
    }
  }

  /** Every entry weighs something; a gap weighs at most 1 exactly when it
      is at least 200 ms long. */
  lemma WeightBounds(g: Option<real>)
    requires g.Some? ==> g.value != 0.0
    ensures 0.0 < Weight(g)
    ensures g.Some? ==> (Weight(g) <= 1.0 <==> (200.0 <= g.value || g.value <= -200.0))
  {
    if g.Some? {
      var x := g.value;
      var y := 200.0 / x;
      assert y * x == 200.0;
      assert y != 0.0;
      SquareBounds(y);
      if x > 0.0 {
        assert y > 0.0;
        assert y <= 1.0 <==> 200.0 <= x by {
          if y <= 1.0 {
            assert y * x <= x;
          } else {
            assert y * x > x;
          }
        }
      } else {
        assert y < 0.0;
        assert -1.0 <= y <==> x <= -200.0 by {
          if -1.0 <= y {
            assert y * x <= -x;
          } else {
            assert y * x > -x;
          }
        }
      }
    }
  }

  lemma SquareBounds(y: real)
    requires y != 0.0
    ensures 0.0 < y * y
    ensures y * y <= 1.0 <==> -1.0 <= y <= 1.0
  {
    if y > 1.0 {
      assert y * y > y;
    } else if y < -1.0 {
      assert y * y > -y;
    } else if y > 0.0 {
      assert y * y <= y;
    } else {
      assert y * y <= -y;
    }
  }

  /** Every gap of the list is at least 200 ms long. */
  predicate SparseGaps(gaps: seq<Option<real>>)
  {
    forall k :: 0 <= k < |gaps| && gaps[k].Some? ==> 200.0 <= gaps[k].value || gaps[k].value <= -200.0
  }

  lemma {:induction false} InfluenceBounds(gaps: seq<Option<real>>)
    requires NonZeroGaps(gaps)
    ensures 0.0 <= Influence(gaps)
    ensures |gaps| > 0 ==> 0.0 < Influence(gaps)
    ensures SparseGaps(gaps) ==> Influence(gaps) <= |gaps| as real
    decreases |gaps|
  {
    if gaps != [] {
      var front := gaps[..|gaps| - 1];
      assert NonZeroGaps(front) by {
        forall k | 0 <= k < |front| && front[k].Some?
          ensures front[k].value != 0.0
        {
          assert front[k] == gaps[k];
        }
      }
      InfluenceBounds(front);
      WeightBounds(gaps[|gaps| - 1]);
      if SparseGaps(gaps) {
        assert SparseGaps(front) by {
          forall k | 0 <= k < |front| && front[k].Some?
            ensures 200.0 <= front[k].value || front[k].value <= -200.0
          {
            assert front[k] == gaps[k];
          }
        }
      }
    }
  }

  /** The inputs of every lane, the scratch included. */
  function AllInputs(keyMs: Lanes<real>, n: nat): nat
    requires n <= 8
  {
    if n == 0 then 0 else AllInputs(keyMs, n - 1) + |keyMs[n - 1]|
  }

  lemma {:induction false} LanesInfluenceBounds(keyMs: Lanes<real>, n: nat)
    requires n <= 8 && !AnyRepeats(keyMs)
    ensures 0.0 <= LanesInfluence(GapLists(keyMs), n)
    ensures KeyNotes(keyMs, n) > 0 ==> 0.0 < LanesInfluence(GapLists(keyMs), n)
    ensures (forall i :: 0 <= i < 8 ==> SparseGaps(GapLists(keyMs)[i])) ==>
      LanesInfluence(GapLists(keyMs), n) <= AllInputs(keyMs, n) as real
    decreases n
  {
    if n > 0 {
      var lists := GapLists(keyMs);
      LanesInfluenceBounds(keyMs, n - 1);
      GapsNonZero(keyMs[n - 1], Lag(n - 1));
      InfluenceBounds(lists[n - 1]);
    }
  }

  /** A score that is computed is positive; and when every gap is at least
      200 ms long, its numerator is at most the number of inputs, because
      only a gap shorter than 200 ms weighs more than a first input. */
  lemma NumeratorBounds(keyMs: Lanes<real>)
    requires Calc(keyMs).Ok?
    ensures 0.0 < Calc(keyMs).value.numerator
    ensures (forall i :: 0 <= i < 8 ==> SparseGaps(GapLists(keyMs)[i])) ==>
      Calc(keyMs).value.numerator <= AllInputs(keyMs, 8) as real
  {
    LanesInfluenceBounds(keyMs, 8);
  }

  lemma {:induction false} KeyNotesSkipScratch(keyMs: Lanes<real>, xs: seq<real>, n: nat)
    requires n <= 8
    ensures KeyNotes(keyMs[0 := xs], n) == KeyNotes(keyMs, n)
    decreases n
  {
    if n > 1 {
      KeyNotesSkipScratch(keyMs, xs, n - 1);
    }
  }

  /** The scratch's inputs are not counted in `total_notes`: a chart with
      inputs on the scratch only fails with a division by zero, unless a
      scratch input repeats. */
  lemma ScratchNotCounted(keyMs: Lanes<real>, xs: seq<real>)
    ensures KeyNotes(keyMs[0 := xs], 8) == KeyNotes(keyMs, 8)
    ensures (forall i :: 1 <= i < 8 ==> keyMs[i] == []) ==>
      Calc(keyMs) == if Repeats(keyMs[0], 2) then Err(AssertionFailed) else Err(DivisionByZero)
  {
    KeyNotesSkipScratch(keyMs, xs, 8);
    if forall i :: 1 <= i < 8 ==> keyMs[i] == [] {
      assert KeyNotes(keyMs, 8) == 0 by {
        KeyNotesOfEmpty(keyMs, 8);
      }
      assert AnyRepeats(keyMs) <==> Repeats(keyMs[0], 2) by {
        if AnyRepeats(keyMs) {
          var i :| 0 <= i < 8 && Repeats(keyMs[i], Lag(i));
          assert i == 0;
        }
      }
    }
  }

  lemma {:induction false} KeyNotesOfEmpty(keyMs: Lanes<real>, n: nat)
    requires n <= 8 && forall i :: 1 <= i < 8 ==> keyMs[i] == []
    ensures KeyNotes(keyMs, n) == 0
    decreases n
  {
    if n > 1 {
      KeyNotesOfEmpty(keyMs, n - 1);
    }
  }

  /** Key inputs of lanes `1` to `n - 1` over the bars. */
  function KeyEvents(bars: seq<BarInfo>, n: nat): nat
    requires n <= 8
  {
    if n <= 1 then 0 else KeyEvents(bars, n - 1) + LevelTimeline.EventCount(bars, n - 1)
  }

  lemma {:induction false} KeyNotesAreEvents(bars: seq<BarInfo>, keyMs: Lanes<real>, n: nat)
    requires n <= 8
    requires forall i :: 0 <= i < 8 ==> |keyMs[i]| == LevelTimeline.EventCount(bars, i)
    ensures KeyNotes(keyMs, n) == KeyEvents(bars, n)
    decreases n
  {
    if n > 1 {
      KeyNotesAreEvents(bars, keyMs, n - 1);
    }
  }

  /** For a chart of ordered bars, `total_notes` is the number of notes and
      long-note starts on the seven keys. */
  lemma LevelCountsKeys(bars: seq<BarInfo>, bpm: real)
    requires forall n :: 0 <= n < |bars| ==> LevelTimeline.Ordered(bars[n])
    requires Level(bars, bpm).Ok?
    ensures Level(bars, bpm).value.totalNotes == KeyEvents(bars, 8)
  {
    var keyMs := LevelTimeline.Timeline(bars, bpm).value;
    assert Level(bars, bpm) == Calc(keyMs);
    assert Calc(keyMs).value.totalNotes == KeyNotes(keyMs, 8);
    LevelTimeline.TimelineCounts(bars, bpm);
    KeyNotesAreEvents(bars, keyMs, 8);
  }

  /** A sorted bar with no note before its start and no long-note item is
      ordered as the note count needs. */
  lemma StartsInBarOrdered(b: BarInfo)
    requires BmsProperties.StartsInBar(b) && b.IsSorted()
    ensures LevelTimeline.Ordered(b)
  {
    forall i | 0 <= i < 8
      ensures forall k :: 0 <= k < |LevelTimeline.LaneEvents(b, i)| ==> 0.0 <= LevelTimeline.LaneEvents(b, i)[k]
    {
      var ts := LevelTimeline.NoteTimings(b.notes[i]);
      assert LevelTimeline.StartTimings(b.lnnotes[i]) == [];
      assert ts + [] == ts;
      assert LevelTimeline.LaneEvents(b, i) == LevelTimeline.SortTimings(ts);
      SortedTimingsAfterStart(ts);
    }
  }

  /** Sorting timings none of which is negative gives none that is. */
  lemma SortedTimingsAfterStart(ts: seq<real>)
    requires forall k :: 0 <= k < |ts| ==> 0.0 <= ts[k]
    ensures forall k :: 0 <= k < |LevelTimeline.SortTimings(ts)| ==> 0.0 <= LevelTimeline.SortTimings(ts)[k]
  {
    var e := LevelTimeline.SortTimings(ts);
    LevelTimeline.SortTimingsIsSortBy(ts);
    forall k | 0 <= k < |e|
      ensures 0.0 <= e[k]
    {
      assert e[k] in multiset(ts);
      var m :| 0 <= m < |ts| && ts[m] == e[k];
    }
  }

  /** Every bar of a chart read from the start is ordered. */
  lemma ParsedBarsOrdered(lines: seq<string>)
    requires BmsParser.ParseChart(BmsParser.EmptyChart(), lines).Ok?
    ensures var bars := BmsParser.ParseChart(BmsParser.EmptyChart(), lines).value.bars;
      forall n :: 0 <= n < |bars| ==> LevelTimeline.Ordered(bars[n])
  {
    var bars := BmsParser.ParseChart(BmsParser.EmptyChart(), lines).value.bars;
    BmsProperties.ChartStartsInBar(lines);
    forall n | 0 <= n < |bars|
      ensures LevelTimeline.Ordered(bars[n])
    {
      assert bars[n] in bars;
      StartsInBarOrdered(bars[n]);
    }
  }

  /** For a chart read from the start, with its header tempo, `total_notes`
      is the number of notes and long-note starts on the seven keys. */
  lemma ParsedLevelCountsKeys(lines: seq<string>)
    requires BmsParser.ParseChart(BmsParser.EmptyChart(), lines).Ok?
    requires var c := BmsParser.ParseChart(BmsParser.EmptyChart(), lines).value;
      Level(c.bars, c.bpm).Ok?
    ensures var c := BmsParser.ParseChart(BmsParser.EmptyChart(), lines).value;
      Level(c.bars, c.bpm).value.totalNotes == KeyEvents(c.bars, 8)
  {
    var c := BmsParser.ParseChart(BmsParser.EmptyChart(), lines).value;
    ParsedBarsOrdered(lines);
    LevelCountsKeys(c.bars, c.bpm);
  }
}
