/** The chart's value types (bms.py:12-62) and the long-note segments that
    replay.py and bmslevel.py use (`LNStart`, `LN`, `LNEnd`, `BarInfo.lnnotes`),
    which bms.py itself does not define. */
module BmsTypes {
  import opened Basics

  /** `#BPMxx` table entry. */
  datatype ExBpmDef = ExBpmDef(order: nat, bpm: real)

  /** `#WAVxx` table entry. */
  datatype WavDef = WavDef(order: nat, wav: string)

  /** `#STOPxx` table entry; `value` is in 1/192 of a bar. */
  datatype StopDef = StopDef(order: nat, value: int)

  /** A hit on a lane at `timing` (a fraction of the bar), sounding sample `defwav`. */
  datatype Note = Note(timing: real, defwav: int)

  /** A tempo change at `timing`. */
  datatype BpmNote = BpmNote(timing: real, bpm: real)

  /** A stop at `timing` lasting `duration` bars. */
  datatype StopNote = StopNote(timing: real, duration: real)

  /** One element of a bar's long-note lane. `BarObject(n)` is what
      replay.py:279 puts there for a bar strictly inside a long note: the
      bar object numbered `n` itself rather than a segment. */
  datatype LnItem =
    | LNStart(timing: real)
    | LN(start: real, end: real, isStart: bool, isEnd: bool)
    | LNEnd(timing: real)
    | BarObject(number: int)

  /** One bar of a chart or of a reconstructed replay. */
  datatype BarInfo = BarInfo(
    number: int,
    notes: Lanes<Note>,
    lnnotes: Lanes<LnItem>,
    background: seq<Note>,
    bpm: seq<BpmNote>,
    stops: seq<StopNote>,
    beat: real)
  {
    /** `BarInfo.sort`: every note lane, the tempo changes and the stops are
        put in timing order; background notes and long-note lanes keep
        their order. */
    function Sort(): (r: BarInfo)
      ensures r.number == number && r.beat == beat
      ensures r.background == background && r.lnnotes == lnnotes
      ensures forall i :: 0 <= i < 8 ==>
        SortedBy(r.notes[i], NoteTiming) && multiset(r.notes[i]) == multiset(notes[i])
      ensures SortedBy(r.bpm, BpmTiming) && multiset(r.bpm) == multiset(bpm)
      ensures SortedBy(r.stops, StopTiming) && multiset(r.stops) == multiset(stops)
    {
      var sortedNotes: Lanes<Note> := seq(8, i requires 0 <= i < 8 => SortBy(notes[i], NoteTiming));
      this.(notes := sortedNotes, bpm := SortBy(bpm, BpmTiming), stops := SortBy(stops, StopTiming))
    }

    /** Every note lane, the tempo changes and the stops are in timing order. */
    predicate IsSorted()
    {
      (forall i :: 0 <= i < 8 ==> SortedBy(notes[i], NoteTiming)) &&
      SortedBy(bpm, BpmTiming) && SortedBy(stops, StopTiming)
    }
  }

  /** `BarInfo()` with its number set: all lists empty and beat `Fraction()`, that is 0. */
  function NewBar(number: int): (b: BarInfo)
    ensures b.number == number && b.beat == 0.0
    ensures forall i :: 0 <= i < 8 ==> b.notes[i] == [] && b.lnnotes[i] == []
    ensures b.background == [] && b.bpm == [] && b.stops == []
  {
    BarInfo(number, EmptyLanes(), EmptyLanes(), [], [], [], 0.0)
  }

  function NoteTiming(n: Note): real { n.timing }

  function BpmTiming(b: BpmNote): real { b.timing }

  function StopTiming(s: StopNote): real { s.timing }

  /** `s` is in non-decreasing order of `key`. */
  predicate SortedBy<T>(s: seq<T>, key: T -> real)
  {
    forall i, j :: 0 <= i < j < |s| ==> key(s[i]) <= key(s[j])
  }

  /** Places `x` after every element whose key is not greater than its own,
      which keeps equal keys in arrival order (Python's sort is stable). */
  function Insert<T>(x: T, s: seq<T>, key: T -> real): (r: seq<T>)
    requires SortedBy(s, key)
    ensures SortedBy(r, key)
    ensures multiset(r) == multiset(s) + multiset{x}
    ensures |r| == |s| + 1
  {
    if s == [] then [x]
    else if key(x) < key(s[0]) then
      ConsSorted(x, s, key);
      [x] + s
    else
      var rest := Insert(x, s[1..], key);
      assert s == [s[0]] + s[1..];
      KeysAbove(key(s[0]), rest, s[1..], x, key);
      ConsSorted(s[0], rest, key);
      [s[0]] + rest
  }

  /** An element whose key is at most the first key of a sorted sequence
      can go in front of it. */
  lemma ConsSorted<T>(h: T, t: seq<T>, key: T -> real)
    requires SortedBy(t, key) && (t != [] ==> key(h) <= key(t[0]))
    ensures SortedBy([h] + t, key)
  {
    var r := [h] + t;
    forall i, j | 0 <= i < j < |r|
      ensures key(r[i]) <= key(r[j])
    {
      if i == 0 && j > 1 {
        assert key(t[0]) <= key(t[j - 1]);
      }
    }
  }

  /** A bound below the keys of `t` and of `x` is below every key of a
      sequence holding exactly their elements. */
  lemma KeysAbove<T>(lo: real, r: seq<T>, t: seq<T>, x: T, key: T -> real)
    requires multiset(r) == multiset(t) + multiset{x}
    requires lo <= key(x) && forall k :: 0 <= k < |t| ==> lo <= key(t[k])
    ensures forall k :: 0 <= k < |r| ==> lo <= key(r[k])
  {
    forall k | 0 <= k < |r|
      ensures lo <= key(r[k])
    {
      assert r[k] in multiset(r);
      if r[k] != x {
        assert r[k] in multiset(t);
        var m :| 0 <= m < |t| && t[m] == r[k];
      }
    }
  }

  /** `list.sort(key=...)`: a stable insertion sort by `key`. */
  function SortBy<T>(s: seq<T>, key: T -> real): (r: seq<T>)
    ensures SortedBy(r, key)
    ensures multiset(r) == multiset(s)
    ensures |r| == |s|
  {
    if s == [] then []
    else
      assert s == s[..|s| - 1] + [s[|s| - 1]];
      Insert(s[|s| - 1], SortBy(s[..|s| - 1], key), key)
  }

  /** The elements of `s` whose key is `v`, in their order in `s`. */
  function WithKey<T>(s: seq<T>, key: T -> real, v: real): (r: seq<T>)
    ensures forall k :: 0 <= k < |r| ==> key(r[k]) == v
    ensures |r| <= |s|
  {
    if s == [] then []
    else (if key(s[0]) == v then [s[0]] else []) + WithKey(s[1..], key, v)
  }

  /** Picking one key's elements distributes over concatenation. */
  lemma {:induction false} WithKeyAppend<T>(a: seq<T>, b: seq<T>, key: T -> real, v: real)
    ensures WithKey(a + b, key, v) == WithKey(a, key, v) + WithKey(b, key, v)
    decreases |a|
  {
    if a == [] {
      assert a + b == b;
    } else {
      assert (a + b)[0] == a[0] && (a + b)[1..] == a[1..] + b;
      WithKeyAppend(a[1..], b, key, v);
    }
  }

  /** No element with key `v`, nothing picked. */
  lemma {:induction false} WithKeyNone<T>(s: seq<T>, key: T -> real, v: real)
    requires forall k :: 0 <= k < |s| ==> key(s[k]) != v
    ensures WithKey(s, key, v) == []
    decreases |s|
  {
    if s != [] {
      WithKeyNone(s[1..], key, v);
    }
  }

  /** Inserting `x` puts it after every element with the same key. */
  lemma {:induction false} InsertStable<T>(x: T, s: seq<T>, key: T -> real, v: real)
    requires SortedBy(s, key)
    ensures WithKey(Insert(x, s, key), key, v) ==
      WithKey(s, key, v) + (if key(x) == v then [x] else [])
    decreases |s|
  {
    if s == [] {
      assert Insert(x, s, key) == [x] + s;
    } else if key(x) < key(s[0]) {
      assert Insert(x, s, key) == [x] + s;
      assert ([x] + s)[1..] == s;
      if key(x) == v {
        WithKeyNone(s, key, v);
      }
    } else {
      var rest := Insert(x, s[1..], key);
      var head := if key(s[0]) == v then [s[0]] else [];
      assert Insert(x, s, key) == [s[0]] + rest;
      assert ([s[0]] + rest)[1..] == rest;
      assert WithKey([s[0]] + rest, key, v) == head + WithKey(rest, key, v);
      assert WithKey(s, key, v) == head + WithKey(s[1..], key, v);
      InsertStable(x, s[1..], key, v);
    }
  }

  /** `SortBy` is stable: the elements sharing any one key come out in
      the order they went in. */
  lemma {:induction false} SortByStable<T>(s: seq<T>, key: T -> real, v: real)
    ensures WithKey(SortBy(s, key), key, v) == WithKey(s, key, v)
    decreases |s|
  {
    if s != [] {
      var front, last := s[..|s| - 1], s[|s| - 1];
      assert s == front + [last];
      SortByStable(front, key, v);
      InsertStable(last, SortBy(front, key), key, v);
      WithKeyAppend(front, [last], key, v);
      assert [last][1..] == [];
    }
  }
}
