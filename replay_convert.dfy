/** `BeatConvertedReplay.convert` (replay.py:71-303): replays the keylog
    against the chart's time windows and writes each press back into bars,
    as a note for a short press and as long-note segments for a held one. */
module ReplayConvert {
  import opened Basics
  import opened BmsTypes
  import opened BarStore
  import opened ReplayInput
  import Timing
  import BmsParser

  /** `KeyStatus`: the last press or release on a lane. */
  datatype KeyStatus = KeyStatus(ms: int, bar: int, pressed: bool)

  /** `KeyStatus()`: nothing seen yet. */
  const Idle: KeyStatus := KeyStatus(0, 0, false)

  /** The eight-lane `status` tuple. */
  type Status = s: seq<KeyStatus> | |s| == 8 witness [Idle, Idle, Idle, Idle, Idle, Idle, Idle, Idle]

  /** The mutable state of `convert`: the lane status and the bars built so far. */
  datatype ConvertState = ConvertState(status: Status, result: seq<BarInfo>)

  function Start(): ConvertState
  {
    ConvertState([Idle, Idle, Idle, Idle, Idle, Idle, Idle, Idle], [])
  }

  /** The chart side `calc_timing` reads: the chart's bars and its windows. */
  datatype Chart = Chart(bars: seq<BarInfo>, timings: seq<Timing.TimeDefinition>)

  function CalcTiming(c: Chart, ms: int): Result<(int, real)>
  {
    Timing.CalcTimingSpec(c.bars, c.timings, ms as real)
  }

  /** Appends `n` to lane `lane` of a bar's notes. */
  function AddNote(b: BarInfo, lane: nat, n: Note): (r: BarInfo)
    requires lane < 8
  {
    b.(notes := b.notes[lane := b.notes[lane] + [n]])
  }

  /** Appends `items` to lane `lane` of a bar's long-note lanes. */
  function AddLn(b: BarInfo, lane: nat, items: seq<LnItem>): (r: BarInfo)
    requires lane < 8
  {
    b.(lnnotes := b.lnnotes[lane := b.lnnotes[lane] + items])
  }

  /** `target = get_barinfo(result, n)`, the change, `set_barinfo(result, target)`. */
  function UpdateBar(result: seq<BarInfo>, number: int, lane: nat, items: seq<LnItem>): seq<BarInfo>
    requires lane < 8
  {
    SetBar(result, AddLn(GetBar(result, number), lane, items))
  }

  /** The loop over the bars after the start bar of a long note
      (replay.py:269-294). Each bar strictly inside the note is created if
      missing and the bar object itself, here its number, is appended to
      the start bar's lane; the end bar then gets the closing segment and
      the end marker. The start bar's object is the one stored in `result`,
      so the append shows there. A note ending before its start bar skips
      the loop. */
  function Span(result: seq<BarInfo>, lane: nat, startBar: int, endBar: int, endTiming: real): seq<BarInfo>
    requires lane < 8
  {
    if endBar <= startBar then result
    else CloseSpan(Links(result, lane, startBar, endBar), lane, endBar, endTiming)
  }

  /** The passes of the span loop for the bars `startBar + 1` to `n - 1`. */
  function Links(result: seq<BarInfo>, lane: nat, startBar: int, n: int): seq<BarInfo>
    requires lane < 8
    decreases n - startBar
  {
    if n <= startBar + 1 then result
    else LinkInner(Links(result, lane, startBar, n - 1), lane, startBar, n - 1)
  }

  /** A bar `n` strictly inside a long note: fetched or created, referenced
      from the start bar, and stored. */
  function LinkInner(result: seq<BarInfo>, lane: nat, startBar: int, n: int): seq<BarInfo>
    requires lane < 8
  {
    var target := GetBar(result, n);
    var withRef := UpdateBar(result, startBar, lane, [BarObject(n)]);
    SetBar(withRef, target)
  }

  /** The end bar of a long note: the closing span and the end marker. */
  function CloseSpan(result: seq<BarInfo>, lane: nat, n: int, endTiming: real): seq<BarInfo>
    requires lane < 8
  {
    UpdateBar(result, n, lane, [LN(0.0, endTiming, false, true), LNEnd(endTiming)])
  }

  /** A held press from (`startBar`, `startTiming`) to (`endBar`, `endTiming`). */
  function LongNote(result: seq<BarInfo>, lane: nat, startBar: int, startTiming: real, endBar: int, endTiming: real): seq<BarInfo>
    requires lane < 8
  {
    if endBar == startBar then
      UpdateBar(result, startBar, lane, [LNStart(startTiming), LN(startTiming, endTiming, true, true), LNEnd(endTiming)])
    else
      var withStart := UpdateBar(result, startBar, lane, [LNStart(startTiming), LN(startTiming, 1.0, true, false)]);
      Span(withStart, lane, startBar, endBar, endTiming)
  }

  /** A release on `lane` at `time`, held since the lane's last recorded ms. */
  function Release(c: Chart, threshold: int, st: ConvertState, lane: nat, time: int): Result<ConvertState>
    requires lane < 8
  {
    var pressMs := st.status[lane].ms;
    match CalcTiming(c, pressMs)
    case Err(e) => Err(e)
    case Ok((startBar, startTiming)) =>
      if time - pressMs <= threshold then
        var target := AddNote(GetBar(st.result, startBar), lane, Note(startTiming, 0));
        Ok(ConvertState(st.status[lane := KeyStatus(time, startBar, false)], SetBar(st.result, target)))
      else
        match CalcTiming(c, time)
        case Err(e) => Err(e)
        case Ok((endBar, endTiming)) =>
          Ok(ConvertState(st.status[lane := KeyStatus(time, endBar, false)],
                          LongNote(st.result, lane, startBar, startTiming, endBar, endTiming)))
  }

  /** One keylog entry: the body of `convert`'s loop over the keys. */
  function KeyStep(c: Chart, threshold: int, thresholdScratch: int, st: ConvertState, key: KeyEvent): Result<ConvertState>
  {
    var index := GetKeyIndex(key.keycode);
    if key.pressedIsTrue then
      match Lane(index)
      case Err(e) => Err(e)
      case Ok(lane) =>
        if st.status[lane].pressed then Err(DuplicatePress)
        else
          match CalcTiming(c, key.time)
          case Err(e) => Err(e)
          case Ok((bar, _)) => Ok(st.(status := st.status[lane := KeyStatus(key.time, bar, true)]))
    else
      var thresholdValue := if IsScratch(index) then thresholdScratch else threshold;
      match Lane(index)
      case Err(e) => Err(e)
      case Ok(lane) => Release(c, thresholdValue, st, lane, key.time)
  }

  /** The loop over the keylog. */
  function KeysRun(c: Chart, threshold: int, thresholdScratch: int, keys: seq<KeyEvent>): Result<ConvertState>
  {
    if keys == [] then Ok(Start())
    else
      match KeysRun(c, threshold, thresholdScratch, keys[..|keys| - 1])
      case Err(e) => Err(e)
      case Ok(st) => KeyStep(c, threshold, thresholdScratch, st, keys[|keys| - 1])
  }

  /** `for b in result: b.sort()`. */
  function SortBars(bars: seq<BarInfo>): (r: seq<BarInfo>)
    ensures |r| == |bars|
    ensures forall k :: 0 <= k < |bars| ==> r[k] == bars[k].Sort()
  {
    seq(|bars|, k requires 0 <= k < |bars| => bars[k].Sort())
  }

  /** What `convert` assigns to `self.bars`. */
  function ConvertSpec(bars: seq<BarInfo>, bpm: real, keys: seq<KeyEvent>, threshold: int, thresholdScratch: int): Result<seq<BarInfo>>
  {
    match Timing.CalculateTimingSpec(bars, bpm)
    case Err(e) => Err(e)
    case Ok(ts) =>
      match KeysRun(Chart(bars, ts), threshold, thresholdScratch, keys)
      case Err(e) => Err(e)
      case Ok(st) => Ok(SortBars(st.result))
  }

  // ---------------------------------------------------------------------
  // Properties

  /** `is_scratch` never holds, so the scratch threshold plays no part. */
  lemma ScratchThresholdUnused(c: Chart, threshold: int, s1: int, s2: int, st: ConvertState, key: KeyEvent)
    ensures KeyStep(c, threshold, s1, st, key) == KeyStep(c, threshold, s2, st, key)
  {
    NoIndexIsScratch(key.keycode);
  }

  /** A press on a lane already held fails; any other press only records
      the press time and bar on its lane and leaves the bars alone. */
  lemma PressEffect(c: Chart, threshold: int, thresholdScratch: int, st: ConvertState, key: KeyEvent)
    requires key.pressedIsTrue && Lane(GetKeyIndex(key.keycode)).Ok?
    ensures var lane := Lane(GetKeyIndex(key.keycode)).value;
      var r := KeyStep(c, threshold, thresholdScratch, st, key);
      (st.status[lane].pressed ==> r == Err(DuplicatePress)) &&
      (!st.status[lane].pressed ==> (r.Ok? <==> CalcTiming(c, key.time).Ok?)) &&
      (r.Ok? ==> r.value.result == st.result &&
                 r.value.status[lane] == KeyStatus(key.time, CalcTiming(c, key.time).value.0, true) &&
                 forall k :: 0 <= k < 8 && k != lane ==> r.value.status[k] == st.status[k])
  {
  }

  /** Every release ends with its lane not pressed and holding the release
      time, whether or not the lane was pressed before. */
  lemma ReleaseClearsLane(c: Chart, threshold: int, thresholdScratch: int, st: ConvertState, key: KeyEvent)
    requires !key.pressedIsTrue
    ensures var r := KeyStep(c, threshold, thresholdScratch, st, key);
      r.Ok? ==> var lane := Lane(GetKeyIndex(key.keycode)).value;
        !r.value.status[lane].pressed && r.value.status[lane].ms == key.time &&
        forall k :: 0 <= k < 8 && k != lane ==> r.value.status[k] == st.status[k]
  {
  }

  /** A release within the threshold of its press adds exactly one note,
      at the press position, to the press bar's lane, creating that bar at
      the end of the list if needed; nothing else changes. */
  lemma TapEffect(c: Chart, threshold: int, st: ConvertState, lane: nat, time: int)
    requires lane < 8
    requires CalcTiming(c, st.status[lane].ms).Ok?
    requires time - st.status[lane].ms <= threshold
    ensures var (bar, timing) := CalcTiming(c, st.status[lane].ms).value;
      var r := Release(c, threshold, st, lane, time);
      r.Ok? &&
      GetBar(r.value.result, bar) == AddNote(GetBar(st.result, bar), lane, Note(timing, 0)) &&
      (forall m :: m != bar ==> GetBar(r.value.result, m) == GetBar(st.result, m)) &&
      Numbers(r.value.result) == Touch(Numbers(st.result), bar)
  {
    var (bar, timing) := CalcTiming(c, st.status[lane].ms).value;
    var target := AddNote(GetBar(st.result, bar), lane, Note(timing, 0));
    GetSetSame(st.result, target);
    SetBarNumbers(st.result, target);
    forall m | m != bar
      ensures GetBar(SetBar(st.result, target), m) == GetBar(st.result, m)
    {
      GetSetOther(st.result, target, m);
    }
  }

  /** A note added to one lane leaves the bar's other lanes and lists alone. */
  lemma AddNoteOnlyLane(b: BarInfo, lane: nat, n: Note)
    requires lane < 8
    ensures var r := AddNote(b, lane, n);
      r.notes[lane] == b.notes[lane] + [n] &&
      (forall k :: 0 <= k < 8 && k != lane ==> r.notes[k] == b.notes[k]) &&
      r.lnnotes == b.lnnotes && r.number == b.number && r.beat == b.beat &&
      r.bpm == b.bpm && r.stops == b.stops && r.background == b.background
  {
  }

  /** A long note inside one bar puts Start, a span open at both ends, and
      End on that bar's lane. */
  lemma LongNoteSameBar(result: seq<BarInfo>, lane: nat, bar: int, s: real, e: real)
    requires lane < 8
    ensures var r := LongNote(result, lane, bar, s, bar, e);
      GetBar(r, bar) == AddLn(GetBar(result, bar), lane, [LNStart(s), LN(s, e, true, true), LNEnd(e)]) &&
      forall m :: m != bar ==> GetBar(r, m) == GetBar(result, m)
  {
    UpdateBarEffect(result, bar, lane, [LNStart(s), LN(s, e, true, true), LNEnd(e)]);
  }

  lemma UpdateBarEffect(result: seq<BarInfo>, number: int, lane: nat, items: seq<LnItem>)
    requires lane < 8
    ensures GetBar(UpdateBar(result, number, lane, items), number) == AddLn(GetBar(result, number), lane, items)
    ensures forall m :: m != number ==> GetBar(UpdateBar(result, number, lane, items), m) == GetBar(result, m)
    ensures UniqueNumbers(result) ==> UniqueNumbers(UpdateBar(result, number, lane, items))
    ensures forall m :: m in Numbers(result) ==> m in Numbers(UpdateBar(result, number, lane, items))
    ensures number in Numbers(UpdateBar(result, number, lane, items))
    ensures Numbers(UpdateBar(result, number, lane, items)) == Touch(Numbers(result), number)
  {
    var b := AddLn(GetBar(result, number), lane, items);
    GetSetSame(result, b);
    forall m | m != number
      ensures GetBar(SetBar(result, b), m) == GetBar(result, m)
    {
      GetSetOther(result, b, m);
    }
    SetBarNumbers(result, b);
  }

  /** The bar references a long note leaves on its start bar for the bars
      `lo` to `hi - 1`. */
  function BarRefs(lo: int, hi: int): (r: seq<LnItem>)
    decreases hi - lo
  {
    if hi <= lo then [] else BarRefs(lo, hi - 1) + [BarObject(hi - 1)]
  }

  /** The bar numbers `lo` to `hi - 1` in increasing order. */
  function BarRange(lo: int, hi: int): (r: seq<int>)
    ensures |r| == if hi <= lo then 0 else hi - lo
    ensures forall k :: 0 <= k < |r| ==> r[k] == lo + k
    ensures forall m :: m in r <==> lo <= m < hi
    decreases hi - lo
  {
    if hi <= lo then [] else BarRange(lo, hi - 1) + [hi - 1]
  }

  lemma AddLnTwice(b: BarInfo, lane: nat, x: seq<LnItem>, y: seq<LnItem>)
    requires lane < 8
    ensures AddLn(AddLn(b, lane, x), lane, y) == AddLn(b, lane, x + y)
  {
    assert b.lnnotes[lane] + x + y == b.lnnotes[lane] + (x + y);
  }

  lemma AddLnNothing(b: BarInfo, lane: nat)
    requires lane < 8
    ensures AddLn(b, lane, []) == b
  {
    assert b.lnnotes[lane] + [] == b.lnnotes[lane];
    assert b.lnnotes[lane := b.lnnotes[lane]] == b.lnnotes;
  }

  /** One pass of the span loop for a bar `n` strictly inside the note: the
      start bar gains a reference to bar `n`, bar `n` exists afterwards, and
      nothing else changes. */
  lemma LinkStepEffect(result: seq<BarInfo>, lane: nat, startBar: int, n: int)
    requires lane < 8 && startBar < n
    ensures var next := LinkInner(result, lane, startBar, n);
      GetBar(next, startBar) == AddLn(GetBar(result, startBar), lane, [BarObject(n)]) &&
      (forall m :: m != startBar ==> GetBar(next, m) == GetBar(result, m)) &&
      n in Numbers(next) &&
      (forall m :: m in Numbers(result) ==> m in Numbers(next)) &&
      (UniqueNumbers(result) ==> UniqueNumbers(next)) &&
      Numbers(next) == Touch(Touch(Numbers(result), startBar), n)
  {
    var target := GetBar(result, n);
    var withRef := UpdateBar(result, startBar, lane, [BarObject(n)]);
    var next := SetBar(withRef, target);
    assert next == LinkInner(result, lane, startBar, n);
    UpdateBarEffect(result, startBar, lane, [BarObject(n)]);
    GetSetSame(withRef, target);
    forall m | m != n
      ensures GetBar(next, m) == GetBar(withRef, m)
    {
      GetSetOther(withRef, target, m);
    }
    SetBarNumbers(withRef, target);
  }

  /** The passes for the bars up to `n - 1`: the start bar gains a
      reference to each of them in order, and every other bar reads as
      before. */
  lemma {:induction false} LinksEffect(result: seq<BarInfo>, lane: nat, startBar: int, n: int)
    requires lane < 8 && startBar < n
    ensures var r := Links(result, lane, startBar, n);
      GetBar(r, startBar) == AddLn(GetBar(result, startBar), lane, BarRefs(startBar + 1, n)) &&
      forall m :: m != startBar ==> GetBar(r, m) == GetBar(result, m)
    decreases n - startBar
  {
    if n <= startBar + 1 {
      AddLnNothing(GetBar(result, startBar), lane);
    } else {
      var prev := Links(result, lane, startBar, n - 1);
      LinksEffect(result, lane, startBar, n - 1);
      LinkStepEffect(prev, lane, startBar, n - 1);
      AddLnTwice(GetBar(result, startBar), lane, BarRefs(startBar + 1, n - 1), [BarObject(n - 1)]);
    }
  }

  /** The passes for the bars up to `n - 1` create each of them, keep the
      bars already there, and keep bar numbers unique. */
  lemma {:induction false} LinksNumbers(result: seq<BarInfo>, lane: nat, startBar: int, n: int)
    requires lane < 8 && startBar < n
    ensures forall m :: startBar < m < n ==> m in Numbers(Links(result, lane, startBar, n))
    ensures forall m :: m in Numbers(result) ==> m in Numbers(Links(result, lane, startBar, n))
    ensures UniqueNumbers(result) ==> UniqueNumbers(Links(result, lane, startBar, n))
    ensures startBar in Numbers(result) ==>
      Numbers(Links(result, lane, startBar, n)) == TouchAll(Numbers(result), BarRange(startBar + 1, n))
    decreases n - startBar
  {
    if n > startBar + 1 {
      var prev := Links(result, lane, startBar, n - 1);
      var r := LinkInner(prev, lane, startBar, n - 1);
      assert r == Links(result, lane, startBar, n);
      LinksNumbers(result, lane, startBar, n - 1);
      LinkStepEffect(prev, lane, startBar, n - 1);
      if startBar in Numbers(result) {
        assert startBar in Numbers(prev);
        assert Touch(Numbers(prev), startBar) == Numbers(prev);
        var steps := BarRange(startBar + 1, n);
        assert steps[..|steps| - 1] == BarRange(startBar + 1, n - 1);
      }
      forall m | startBar < m < n
        ensures m in Numbers(r)
      {
        if m < n - 1 {
          assert m in Numbers(prev);
        }
      }
    }
  }

  /** The whole span loop: the start bar gains a reference to every bar
      strictly inside the note, the end bar gains the closing segment and
      the end marker, and every other bar reads as before. */
  lemma SpanEffect(result: seq<BarInfo>, lane: nat, startBar: int, endBar: int, endTiming: real)
    requires lane < 8 && startBar < endBar
    ensures var r := Span(result, lane, startBar, endBar, endTiming);
      GetBar(r, startBar) == AddLn(GetBar(result, startBar), lane, BarRefs(startBar + 1, endBar)) &&
      GetBar(r, endBar) == AddLn(GetBar(result, endBar), lane, [LN(0.0, endTiming, false, true), LNEnd(endTiming)]) &&
      forall m :: m != startBar && m != endBar ==> GetBar(r, m) == GetBar(result, m)
  {
    var links := Links(result, lane, startBar, endBar);
    LinksEffect(result, lane, startBar, endBar);
    UpdateBarEffect(links, endBar, lane, [LN(0.0, endTiming, false, true), LNEnd(endTiming)]);
  }

  /** The span loop creates every bar after the start bar up to the end
      bar, keeps the bars already there, and keeps bar numbers unique. */
  lemma SpanNumbers(result: seq<BarInfo>, lane: nat, startBar: int, endBar: int, endTiming: real)
    requires lane < 8 && startBar < endBar
    ensures forall m :: startBar < m <= endBar ==> m in Numbers(Span(result, lane, startBar, endBar, endTiming))
    ensures forall m :: m in Numbers(result) ==> m in Numbers(Span(result, lane, startBar, endBar, endTiming))
    ensures UniqueNumbers(result) ==> UniqueNumbers(Span(result, lane, startBar, endBar, endTiming))
    ensures startBar in Numbers(result) ==>
      Numbers(Span(result, lane, startBar, endBar, endTiming)) == TouchAll(Numbers(result), BarRange(startBar + 1, endBar + 1))
  {
    var links := Links(result, lane, startBar, endBar);
    var r := CloseSpan(links, lane, endBar, endTiming);
    assert r == Span(result, lane, startBar, endBar, endTiming);
    LinksNumbers(result, lane, startBar, endBar);
    UpdateBarEffect(links, endBar, lane, [LN(0.0, endTiming, false, true), LNEnd(endTiming)]);
    var steps := BarRange(startBar + 1, endBar + 1);
    assert steps[..|steps| - 1] == BarRange(startBar + 1, endBar);
    forall m | startBar < m <= endBar
      ensures m in Numbers(r)
    {
      if m < endBar {
        assert m in Numbers(links);
      }
    }
  }

  /** A long note over several bars: the start bar's lane gets Start, a span
      open at its start and running to the end of the bar, and then a
      reference to each bar strictly inside the note in place of its
      span; the end bar's lane gets a span closed at its end and End. */
  lemma LongNoteAcrossBars(result: seq<BarInfo>, lane: nat, startBar: int, s: real, endBar: int, e: real)
    requires lane < 8 && startBar < endBar
    ensures var r := LongNote(result, lane, startBar, s, endBar, e);
      GetBar(r, startBar) == AddLn(GetBar(result, startBar), lane,
        [LNStart(s), LN(s, 1.0, true, false)] + BarRefs(startBar + 1, endBar)) &&
      GetBar(r, endBar) == AddLn(GetBar(result, endBar), lane, [LN(0.0, e, false, true), LNEnd(e)]) &&
      (forall m :: m != startBar && m != endBar ==> GetBar(r, m) == GetBar(result, m)) &&
      (forall m :: startBar <= m <= endBar ==> m in Numbers(r))
  {
    var head := [LNStart(s), LN(s, 1.0, true, false)];
    var withStart := UpdateBar(result, startBar, lane, head);
    UpdateBarEffect(result, startBar, lane, head);
    SpanEffect(withStart, lane, startBar, endBar, e);
    SpanNumbers(withStart, lane, startBar, endBar, e);
    AddLnTwice(GetBar(result, startBar), lane, head, BarRefs(startBar + 1, endBar));
    var r := Span(withStart, lane, startBar, endBar, e);
    forall m | startBar <= m <= endBar
      ensures m in Numbers(r)
    {
      if m == startBar {
        assert startBar in Numbers(withStart);
      }
    }
  }

  /** A release that ends before its press bar only marks the start bar. */
  lemma LongNoteBackwards(result: seq<BarInfo>, lane: nat, startBar: int, s: real, endBar: int, e: real)
    requires lane < 8 && endBar < startBar
    ensures var r := LongNote(result, lane, startBar, s, endBar, e);
      GetBar(r, startBar) == AddLn(GetBar(result, startBar), lane, [LNStart(s), LN(s, 1.0, true, false)]) &&
      forall m :: m != startBar ==> GetBar(r, m) == GetBar(result, m)
  {
    UpdateBarEffect(result, startBar, lane, [LNStart(s), LN(s, 1.0, true, false)]);
  }

  /** The bars one keylog entry sets, in order: a press sets none, a tap
      sets its press bar, and a held press sets the bars of its long note. */
  function StepBars(c: Chart, threshold: int, thresholdScratch: int, st: ConvertState, key: KeyEvent): seq<int>
  {
    var index := GetKeyIndex(key.keycode);
    if key.pressedIsTrue || Lane(index).Err? then []
    else
      var thr := if IsScratch(index) then thresholdScratch else threshold;
      ReleaseBars(c, thr, st, Lane(index).value, key.time)
  }

  /** The bars a release sets, in order. */
  function ReleaseBars(c: Chart, threshold: int, st: ConvertState, lane: nat, time: int): seq<int>
    requires lane < 8
  {
    var pressMs := st.status[lane].ms;
    match CalcTiming(c, pressMs)
    case Err(_) => []
    case Ok((startBar, _)) =>
      if time - pressMs <= threshold then [startBar]
      else match CalcTiming(c, time)
        case Err(_) => []
        case Ok((endBar, _)) => LongNoteBars(startBar, endBar)
  }

  /** A release keeps bar numbers unique and appends exactly the bars it
      sets that were not there yet, in the order it sets them. */
  lemma ReleaseNumbers(c: Chart, threshold: int, st: ConvertState, lane: nat, time: int)
    requires lane < 8 && UniqueNumbers(st.result)
    ensures var r := Release(c, threshold, st, lane, time);
      r.Ok? ==> UniqueNumbers(r.value.result) &&
                Numbers(r.value.result) == TouchAll(Numbers(st.result), ReleaseBars(c, threshold, st, lane, time))
  {
    var pressMs := st.status[lane].ms;
    if CalcTiming(c, pressMs).Ok? {
      var (startBar, startTiming) := CalcTiming(c, pressMs).value;
      if time - pressMs <= threshold {
        var target := AddNote(GetBar(st.result, startBar), lane, Note(startTiming, 0));
        assert Release(c, threshold, st, lane, time).value.result == SetBar(st.result, target);
        assert ReleaseBars(c, threshold, st, lane, time) == [startBar];
        SetBarNumbers(st.result, target);
        assert [startBar][..0] == [];
      } else if CalcTiming(c, time).Ok? {
        var (endBar, endTiming) := CalcTiming(c, time).value;
        assert Release(c, threshold, st, lane, time).value.result == LongNote(st.result, lane, startBar, startTiming, endBar, endTiming);
        assert ReleaseBars(c, threshold, st, lane, time) == LongNoteBars(startBar, endBar);
        LongNoteNumbers(st.result, lane, startBar, startTiming, endBar, endTiming);
      }
    }
  }

  /** The bars the whole keylog sets, entry by entry. */
  function TouchedBars(c: Chart, threshold: int, thresholdScratch: int, keys: seq<KeyEvent>): seq<int>
    requires KeysRun(c, threshold, thresholdScratch, keys).Ok?
  {
    if keys == [] then []
    else
      var front := keys[..|keys| - 1];
      TouchedBars(c, threshold, thresholdScratch, front) +
        StepBars(c, threshold, thresholdScratch, KeysRun(c, threshold, thresholdScratch, front).value, keys[|keys| - 1])
  }

  /** Every step keeps the bar numbers of the result unique and keeps the
      bars already there, and appends exactly the bars it sets that were
      not there yet, in the order it sets them. */
  lemma KeyStepNumbers(c: Chart, threshold: int, thresholdScratch: int, st: ConvertState, key: KeyEvent)
    requires UniqueNumbers(st.result)
    ensures var r := KeyStep(c, threshold, thresholdScratch, st, key);
      r.Ok? ==> (UniqueNumbers(r.value.result) &&
                 (forall m :: m in Numbers(st.result) ==> m in Numbers(r.value.result)) &&
                 Numbers(r.value.result) == TouchAll(Numbers(st.result), StepBars(c, threshold, thresholdScratch, st, key)))
  {
    var index := GetKeyIndex(key.keycode);
    if !key.pressedIsTrue && Lane(index).Ok? {
      var thr := if IsScratch(index) then thresholdScratch else threshold;
      ReleaseNumbers(c, thr, st, Lane(index).value, key.time);
    }
  }

  /** The bars a long note from bar `startBar` to bar `endBar` sets, in
      order: the start bar, then each later bar up to the end bar. */
  function LongNoteBars(startBar: int, endBar: int): (r: seq<int>)
    ensures |r| > 0 && r[0] == startBar
    ensures forall m :: m in r <==> m == startBar || startBar < m <= endBar
  {
    [startBar] + BarRange(startBar + 1, endBar + 1)
  }

  /** A long note keeps bar numbers unique and sets exactly the bars of
      `LongNoteBars`, appending the new ones in that order. */
  lemma LongNoteNumbers(result: seq<BarInfo>, lane: nat, startBar: int, s: real, endBar: int, e: real)
    requires lane < 8 && UniqueNumbers(result)
    ensures UniqueNumbers(LongNote(result, lane, startBar, s, endBar, e))
    ensures forall m :: m in Numbers(result) ==> m in Numbers(LongNote(result, lane, startBar, s, endBar, e))
    ensures Numbers(LongNote(result, lane, startBar, s, endBar, e)) == TouchAll(Numbers(result), LongNoteBars(startBar, endBar))
  {
    var bars := LongNoteBars(startBar, endBar);
    TouchAllAppend(Numbers(result), [startBar], BarRange(startBar + 1, endBar + 1));
    assert [startBar][..0] == [];
    if endBar == startBar {
      UpdateBarEffect(result, startBar, lane, [LNStart(s), LN(s, e, true, true), LNEnd(e)]);
      assert bars == [startBar];
    } else if endBar < startBar {
      UpdateBarEffect(result, startBar, lane, [LNStart(s), LN(s, 1.0, true, false)]);
      assert bars == [startBar];
    } else {
      var head := [LNStart(s), LN(s, 1.0, true, false)];
      UpdateBarEffect(result, startBar, lane, head);
      SpanNumbers(UpdateBar(result, startBar, lane, head), lane, startBar, endBar, e);
    }
  }

  /** Over the whole keylog, no bar number is used twice, and the bars
      are exactly the ones the entries set, in the order first set. */
  lemma {:induction false} KeysRunNumbers(c: Chart, threshold: int, thresholdScratch: int, keys: seq<KeyEvent>)
    ensures KeysRun(c, threshold, thresholdScratch, keys).Ok? ==>
      UniqueNumbers(KeysRun(c, threshold, thresholdScratch, keys).value.result) &&
      Numbers(KeysRun(c, threshold, thresholdScratch, keys).value.result) == TouchAll([], TouchedBars(c, threshold, thresholdScratch, keys))
  {
    if keys != [] {
      var front := keys[..|keys| - 1];
      KeysRunNumbers(c, threshold, thresholdScratch, front);
      if KeysRun(c, threshold, thresholdScratch, front).Ok? {
        var st := KeysRun(c, threshold, thresholdScratch, front).value;
        KeyStepNumbers(c, threshold, thresholdScratch, st, keys[|keys| - 1]);
        if KeysRun(c, threshold, thresholdScratch, keys).Ok? {
          TouchAllAppend([], TouchedBars(c, threshold, thresholdScratch, front), StepBars(c, threshold, thresholdScratch, st, keys[|keys| - 1]));
        }
      }
    }
  }

  /** The converted replay has one bar per bar number, each sorted, and
      its bars are exactly the ones the keylog sets, listed in the order
      each was first set (so no bar between two touched ones is filled in). */
  lemma ConvertedBars(bars: seq<BarInfo>, bpm: real, keys: seq<KeyEvent>, threshold: int, thresholdScratch: int)
    ensures var r := ConvertSpec(bars, bpm, keys, threshold, thresholdScratch);
      r.Ok? ==> UniqueNumbers(r.value) && forall k :: 0 <= k < |r.value| ==> r.value[k].IsSorted()
    ensures var r := ConvertSpec(bars, bpm, keys, threshold, thresholdScratch);
      r.Ok? ==>
        Timing.CalculateTimingSpec(bars, bpm).Ok? &&
        var c := Chart(bars, Timing.CalculateTimingSpec(bars, bpm).value);
        KeysRun(c, threshold, thresholdScratch, keys).Ok? &&
        var touched := TouchedBars(c, threshold, thresholdScratch, keys);
        (forall m :: m in Numbers(r.value) <==> m in touched) &&
        forall i, j :: 0 <= i < j < |r.value| ==>
          FirstIndex(touched, r.value[i].number) < FirstIndex(touched, r.value[j].number)
  {
    match Timing.CalculateTimingSpec(bars, bpm)
    case Err(_) =>
    case Ok(ts) =>
      var c := Chart(bars, ts);
      KeysRunNumbers(c, threshold, thresholdScratch, keys);
      match KeysRun(c, threshold, thresholdScratch, keys)
      case Err(_) =>
      case Ok(st) =>
        SortBarsKeep(st.result);
        FirstTouchOrder(SortBars(st.result), TouchedBars(c, threshold, thresholdScratch, keys));
  }

  /** Sorting each bar keeps the bar numbers and their order. */
  lemma SortBarsKeep(bars: seq<BarInfo>)
    ensures Numbers(SortBars(bars)) == Numbers(bars)
    ensures UniqueNumbers(bars) ==> UniqueNumbers(SortBars(bars))
    ensures forall k :: 0 <= k < |bars| ==> SortBars(bars)[k].IsSorted()
  {
    var r := SortBars(bars);
    assert forall k :: 0 <= k < |r| ==> r[k].number == bars[k].number;
  }

  /** Bars whose numbers are those touched from nothing are the touched
      numbers, in first-touch order. */
  lemma FirstTouchOrder(bars: seq<BarInfo>, touched: seq<int>)
    requires Numbers(bars) == TouchAll([], touched)
    ensures forall m :: m in Numbers(bars) <==> m in touched
    ensures forall i, j :: 0 <= i < j < |bars| ==>
      FirstIndex(touched, bars[i].number) < FirstIndex(touched, bars[j].number)
  {
    TouchAllFirstTouch(touched);
    var ns := Numbers(bars);
    forall i, j | 0 <= i < j < |bars|
      ensures FirstIndex(touched, bars[i].number) < FirstIndex(touched, bars[j].number)
    {
      assert bars[i].number == ns[i] && bars[j].number == ns[j];
    }
  }

  // ---------------------------------------------------------------------
  // The operations

  /** `get_barinfo(bars, number)`: the first bar with that number, or a new one. */
  method GetBarinfo(bars: seq<BarInfo>, number: int) returns (bar: BarInfo)
    ensures bar == GetBar(bars, number)
  {
    for i := 0 to |bars|
      invariant forall k :: 0 <= k < i ==> bars[k].number != number
    {
      if bars[i].number == number {
        FindBarFirst(bars, number, i);
        return bars[i];
      }
    }
    return NewBar(number);
  }

  /** `set_barinfo(bars, new_item)`: replace the first bar with its number,
      or append. */
  method SetBarinfo(bars: seq<BarInfo>, newItem: BarInfo) returns (r: seq<BarInfo>)
    ensures r == SetBar(bars, newItem)
  {
    for i := 0 to |bars|
      invariant forall k :: 0 <= k < i ==> bars[k].number != newItem.number
    {
      if bars[i].number == newItem.number {
        FindBarFirst(bars, newItem.number, i);
        return bars[i := newItem];
      }
    }
    return bars + [newItem];
  }

  /** `calc_timing(ms)`. */
  method CalcTimingOf(c: Chart, ms: int) returns (r: Result<(int, real)>)
    ensures r == CalcTiming(c, ms)
  {
    r := Timing.CalcTiming(c.bars, c.timings, ms as real);
  }

  /** The `while` loop that lays a long note over the bars after its start bar. */
  method LayOutSpan(result: seq<BarInfo>, lane: nat, startBar: int, endBar: int, endTiming: real) returns (r: seq<BarInfo>)
    requires lane < 8
    ensures r == Span(result, lane, startBar, endBar, endTiming)
  {
    r := result;
    var targetBarNumber := startBar + 1;
    while targetBarNumber <= endBar
      invariant startBar + 1 <= targetBarNumber
      invariant targetBarNumber <= endBar || targetBarNumber == startBar + 1
      invariant r == Links(result, lane, startBar, targetBarNumber)
      decreases endBar - targetBarNumber + 1
    {
      if targetBarNumber != endBar {
        r := LinkInnerBar(r, lane, startBar, targetBarNumber);
        targetBarNumber := targetBarNumber + 1;
      } else {
        r := CloseLastBar(r, lane, targetBarNumber, endTiming);
        break;
      }
    }
  }

  /** A bar strictly inside a long note (replay.py:271-282): fetched or
      created, referenced from the start bar, and stored. */
  method LinkInnerBar(result: seq<BarInfo>, lane: nat, startBar: int, n: int) returns (r: seq<BarInfo>)
    requires lane < 8
    ensures r == LinkInner(result, lane, startBar, n)
  {
    var target := GetBarinfo(result, n);
    var startBarInfo := GetBarinfo(result, startBar);
    r := SetBarinfo(result, AddLn(startBarInfo, lane, [BarObject(n)]));
    r := SetBarinfo(r, target);
  }

  /** The end bar of a long note (replay.py:284-294): the closing span and
      the end marker. */
  method CloseLastBar(result: seq<BarInfo>, lane: nat, n: int, endTiming: real) returns (r: seq<BarInfo>)
    requires lane < 8
    ensures r == CloseSpan(result, lane, n, endTiming)
  {
    var target := GetBarinfo(result, n);
    r := SetBarinfo(result, AddLn(target, lane, [LN(0.0, endTiming, false, true), LNEnd(endTiming)]));
  }

  /** The release branch of the loop body (replay.py:222-298). */
  method ReleaseKey(c: Chart, thresholdValue: int, st: ConvertState, lane: nat, time: int) returns (r: Result<ConvertState>)
    requires lane < 8
    ensures r == Release(c, thresholdValue, st, lane, time)
  {
    var status, result := st.status, st.result;
    var start := CalcTimingOf(c, status[lane].ms);
    if start.Err? {
      return Err(start.error);
    }
    var (newKeyBar, newKeyTiming) := start.value;
    if time - status[lane].ms <= thresholdValue {
      var targetBar := GetBarinfo(result, newKeyBar);
      result := SetBarinfo(result, AddNote(targetBar, lane, Note(newKeyTiming, 0)));
      status := status[lane := KeyStatus(time, newKeyBar, false)];
      return Ok(ConvertState(status, result));
    }
    var end := CalcTimingOf(c, time);
    if end.Err? {
      return Err(end.error);
    }
    var (newKeyBarEnd, newKeyTimingEnd) := end.value;
    if newKeyBarEnd == newKeyBar {
      var targetBar := GetBarinfo(result, newKeyBar);
      result := SetBarinfo(result, AddLn(targetBar, lane,
        [LNStart(newKeyTiming), LN(newKeyTiming, newKeyTimingEnd, true, true), LNEnd(newKeyTimingEnd)]));
    } else {
      var startBar := GetBarinfo(result, newKeyBar);
      result := SetBarinfo(result, AddLn(startBar, lane, [LNStart(newKeyTiming), LN(newKeyTiming, 1.0, true, false)]));
      result := LayOutSpan(result, lane, newKeyBar, newKeyBarEnd, newKeyTimingEnd);
    }
    status := status[lane := KeyStatus(time, newKeyBarEnd, false)];
    return Ok(ConvertState(status, result));
  }

  /** The body of the loop over the keylog (replay.py:205-298). */
  method ConvertKey(c: Chart, threshold: int, thresholdScratch: int, st: ConvertState, key: KeyEvent) returns (r: Result<ConvertState>)
    ensures r == KeyStep(c, threshold, thresholdScratch, st, key)
  {
    var keyIndex := GetKeyIndex(key.keycode);
    if key.pressedIsTrue {
      var lane := Lane(keyIndex);
      if lane.Err? {
        return Err(lane.error);
      }
      if st.status[lane.value].pressed {
        return Err(DuplicatePress);
      }
      var t := CalcTimingOf(c, key.time);
      if t.Err? {
        return Err(t.error);
      }
      return Ok(st.(status := st.status[lane.value := KeyStatus(key.time, t.value.0, true)]));
    }
    var thresholdValue := 0;
    if IsScratch(keyIndex) {
      thresholdValue := thresholdScratch;
    } else {
      thresholdValue := threshold;
    }
    var lane := Lane(keyIndex);
    if lane.Err? {
      return Err(lane.error);
    }
    r := ReleaseKey(c, thresholdValue, st, lane.value, key.time);
  }

  /** `BeatConvertedReplay`: `bars` is the converted replay. `convert` never
      assigns `time_definition` or `modify` (here `laneOrder`). */
  class BeatConvertedReplay {
    var timeDefinition: seq<Timing.TimeDefinition>
    var bars: seq<BarInfo>
    var laneOrder: seq<int>  // `modify`

    constructor ()
      ensures timeDefinition == [] && bars == [] && laneOrder == []
    {
      timeDefinition := [];
      bars := [];
      laneOrder := [];
    }

    /** `convert(bms, replay, threshold, threshold_scratch)`. On an exception
        `self.bars` keeps its old value. */
    method Convert(bms: BmsParser.Bms, replay: ReplayData, threshold: int, thresholdScratch: int) returns (err: Option<Error>)
      modifies this
      ensures timeDefinition == old(timeDefinition) && laneOrder == old(laneOrder)
      ensures match ConvertSpec(bms.bars, bms.bpm, replay.keylog, threshold, thresholdScratch)
        case Ok(r) => err.None? && bars == r
        case Err(e) => err == Some(e) && bars == old(bars)
    {
      var timings := Timing.CalculateTiming(bms.bars, bms.bpm);
      if timings.Err? {
        return Some(timings.error);
      }
      var c := Chart(bms.bars, timings.value);
      var keys := replay.keylog;
      var st := Start();
      for k := 0 to |keys|
        invariant unchanged(this)
        invariant KeysRun(c, threshold, thresholdScratch, keys[..k]) == Ok(st)
      {
        KeysRunNext(c, threshold, thresholdScratch, keys, k);
        var next := ConvertKey(c, threshold, thresholdScratch, st, keys[k]);
        if next.Err? {
          KeysRunErr(c, threshold, thresholdScratch, keys, k + 1);
          return Some(next.error);
        }
        st := next.value;
      }
      assert keys[..|keys|] == keys;
      var result := st.result;
      for k := 0 to |result|
        invariant |result| == |st.result|
        invariant forall j :: 0 <= j < k ==> result[j] == st.result[j].Sort()
        invariant forall j :: k <= j < |result| ==> result[j] == st.result[j]
      {
        result := result[k := result[k].Sort()];
      }
      bars := result;
      return None;
    }
  }

  /** The run over one more entry continues from the run so far. */
  lemma KeysRunNext(c: Chart, threshold: int, thresholdScratch: int, keys: seq<KeyEvent>, k: nat)
    requires k < |keys|
    ensures KeysRun(c, threshold, thresholdScratch, keys[..k]).Ok? ==>
      KeysRun(c, threshold, thresholdScratch, keys[..k + 1]) ==
        KeyStep(c, threshold, thresholdScratch, KeysRun(c, threshold, thresholdScratch, keys[..k]).value, keys[k])
  {
    assert keys[..k + 1][..k] == keys[..k];
  }

  /** A failing entry ends the conversion with its error. */
  lemma {:induction false} KeysRunErr(c: Chart, threshold: int, thresholdScratch: int, keys: seq<KeyEvent>, k: nat)
    requires k <= |keys| && KeysRun(c, threshold, thresholdScratch, keys[..k]).Err?
    ensures KeysRun(c, threshold, thresholdScratch, keys) == KeysRun(c, threshold, thresholdScratch, keys[..k])
    decreases |keys|
  {
    if k < |keys| {
      var front := keys[..|keys| - 1];
      assert front[..k] == keys[..k];
      KeysRunErr(c, threshold, thresholdScratch, front, k);
    } else {
      assert keys[..k] == keys;
    }
  }
}
