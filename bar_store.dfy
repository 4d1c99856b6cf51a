/** The bar list kept in first-reference order: `__get_barinfo` and
    `__set_barinfo` (bms.py:128-147) and their copies `get_barinfo` and
    `set_barinfo` inside `convert` (replay.py:184-203). Both look a bar up by
    number with `next(filter(...))`, that is, the first bar with that number. */
module BarStore {
  import opened Basics
  import opened BmsTypes

  /** The bar numbers in list order. */
  function Numbers(bars: seq<BarInfo>): (r: seq<int>)
    ensures |r| == |bars|
    ensures forall k :: 0 <= k < |bars| ==> r[k] == bars[k].number
  {
    seq(|bars|, k requires 0 <= k < |bars| => bars[k].number)
  }

  /** No bar number occurs twice. */
  predicate UniqueNumbers(bars: seq<BarInfo>)
  {
    forall i, j :: 0 <= i < j < |bars| ==> bars[i].number != bars[j].number
  }

  /** The index of the first bar numbered `number`, if any. */
  function FindBar(bars: seq<BarInfo>, number: int): (r: Option<nat>)
    ensures r.Some? ==> r.value < |bars| && bars[r.value].number == number
    ensures r.Some? ==> forall k :: 0 <= k < r.value ==> bars[k].number != number
    ensures r.None? ==> forall k :: 0 <= k < |bars| ==> bars[k].number != number
  {
    if bars == [] then None
    else if bars[0].number == number then Some(0)
    else match FindBar(bars[1..], number)
      case Some(k) => Some(k + 1)
      case None => None
  }

  /** Get-or-create: the first bar numbered `number`, or a fresh empty one. */
  function GetBar(bars: seq<BarInfo>, number: int): (bar: BarInfo)
    ensures bar.number == number
    ensures (exists k :: 0 <= k < |bars| && bars[k].number == number) ==> bar in bars
    ensures (forall k :: 0 <= k < |bars| ==> bars[k].number != number) ==> bar == NewBar(number)
  {
    match FindBar(bars, number)
    case Some(k) => bars[k]
    case None => NewBar(number)
  }

  /** Replace-or-append: `bar` takes the slot of the first bar with its
      number, or goes at the end when there is none. */
  function SetBar(bars: seq<BarInfo>, bar: BarInfo): (r: seq<BarInfo>)
  {
    match FindBar(bars, bar.number)
    case Some(k) => bars[k := bar]
    case None => bars + [bar]
  }

  /** The number list after a bar numbered `m` is set: unchanged when `m`
      is already there, and otherwise with `m` at the end. */
  function Touch(ns: seq<int>, m: int): (r: seq<int>)
    ensures m in r
    ensures forall x :: x in r <==> x in ns || x == m
    ensures |ns| <= |r| && r[..|ns|] == ns
  {
    if m in ns then ns else ns + [m]
  }

  /** The number list after bars numbered `ms[0]`, `ms[1]`, ... are set in turn. */
  function TouchAll(ns: seq<int>, ms: seq<int>): (r: seq<int>)
    ensures forall x :: x in r <==> x in ns || x in ms
    ensures |ns| <= |r| && r[..|ns|] == ns
  {
    if ms == [] then ns
    else
      var front := TouchAll(ns, ms[..|ms| - 1]);
      assert forall x :: x in ms <==> x in ms[..|ms| - 1] || x == ms[|ms| - 1] by {
        assert ms == ms[..|ms| - 1] + [ms[|ms| - 1]];
      }
      Touch(front, ms[|ms| - 1])
  }

  /** The position of the first occurrence of `x` in `ms`. */
  function FirstIndex(ms: seq<int>, x: int): (k: nat)
    requires x in ms
    ensures k < |ms| && ms[k] == x && x !in ms[..k]
  {
    if ms[0] == x then 0
    else
      var k := FirstIndex(ms[1..], x);
      assert ms[..k + 1] == [ms[0]] + ms[1..][..k];
      k + 1
  }

  /** Setting a bar keeps numbers unique and only ever appends a number
      that was not there; no bar is sorted into place and no gap is filled. */
  lemma SetBarNumbers(bars: seq<BarInfo>, bar: BarInfo)
    ensures UniqueNumbers(bars) ==> UniqueNumbers(SetBar(bars, bar))
    ensures bar.number in Numbers(bars) ==> Numbers(SetBar(bars, bar)) == Numbers(bars)
    ensures bar.number !in Numbers(bars) ==> Numbers(SetBar(bars, bar)) == Numbers(bars) + [bar.number]
    ensures Numbers(SetBar(bars, bar)) == Touch(Numbers(bars), bar.number)
  {
    var r := SetBar(bars, bar);
    match FindBar(bars, bar.number)
    case Some(k) =>
      assert Numbers(r) == Numbers(bars);
    case None =>
      assert Numbers(r) == Numbers(bars) + [bar.number];
  }

  /** Touching two runs of numbers is touching their concatenation. */
  lemma {:induction false} TouchAllAppend(ns: seq<int>, a: seq<int>, b: seq<int>)
    ensures TouchAll(TouchAll(ns, a), b) == TouchAll(ns, a + b)
    decreases |b|
  {
    if b == [] {
      assert a + b == a;
    } else {
      var b' := b[..|b| - 1];
      TouchAllAppend(ns, a, b');
      assert (a + b)[..|a + b| - 1] == a + b';
      assert (a + b)[|a + b| - 1] == b[|b| - 1];
    }
  }

  /** Touching from nothing lists each touched number once. */
  lemma {:induction false} TouchAllUnique(ms: seq<int>)
    ensures forall i, j :: 0 <= i < j < |TouchAll([], ms)| ==> TouchAll([], ms)[i] != TouchAll([], ms)[j]
    decreases |ms|
  {
    if ms != [] {
      var front, x := ms[..|ms| - 1], ms[|ms| - 1];
      TouchAllUnique(front);
      var r := TouchAll([], front);
      assert TouchAll([], ms) == Touch(r, x);
      if x !in r {
        assert Touch(r, x) == r + [x];
      }
    }
  }

  /** Touching from nothing lists the touched numbers in the order of
      their first touch. */
  lemma {:induction false} TouchAllFirstTouch(ms: seq<int>)
    ensures forall i, j :: 0 <= i < j < |TouchAll([], ms)| ==>
      FirstIndex(ms, TouchAll([], ms)[i]) < FirstIndex(ms, TouchAll([], ms)[j])
    decreases |ms|
  {
    if ms != [] {
      var front, x := ms[..|ms| - 1], ms[|ms| - 1];
      assert ms == front + [x];
      TouchAllFirstTouch(front);
      var r := TouchAll([], front);
      var r' := TouchAll([], ms);
      assert r' == Touch(r, x);
      forall i, j | 0 <= i < j < |r'|
        ensures FirstIndex(ms, r'[i]) < FirstIndex(ms, r'[j])
      {
        assert r'[i] == r[i] && r[i] in front;
        FirstIndexAppend(front, x, r[i]);
        if j < |r| {
          assert r'[j] == r[j] && r[j] in front;
          FirstIndexAppend(front, x, r[j]);
        } else {
          assert x !in front && r'[j] == x;
          assert ms[..|front|] == front;
        }
      }
    }
  }

  /** Appending keeps the first occurrence of a number already present. */
  lemma FirstIndexAppend(ms: seq<int>, x: int, y: int)
    requires y in ms
    ensures FirstIndex(ms + [x], y) == FirstIndex(ms, y)
  {
    var k := FirstIndex(ms, y);
    assert (ms + [x])[k] == y;
  }

  /** Reading back the bar just set gives that bar. */
  lemma GetSetSame(bars: seq<BarInfo>, bar: BarInfo)
    ensures GetBar(SetBar(bars, bar), bar.number) == bar
  {
    var r := SetBar(bars, bar);
    match FindBar(bars, bar.number)
    case Some(k) =>
      assert r[k] == bar;
      assert FindBar(r, bar.number) == Some(k) by {
        FindBarFirst(r, bar.number, k);
      }
    case None =>
      assert r[|bars|] == bar;
      FindBarFirst(r, bar.number, |bars|);
  }

  /** Setting a bar leaves every other number's bar as it was. */
  lemma GetSetOther(bars: seq<BarInfo>, bar: BarInfo, number: int)
    requires number != bar.number
    ensures GetBar(SetBar(bars, bar), number) == GetBar(bars, number)
  {
    var r := SetBar(bars, bar);
    match FindBar(bars, number)
    case Some(k) =>
      assert r[k] == bars[k];
      FindBarFirst(r, number, k);
    case None =>
      assert forall k :: 0 <= k < |r| ==> r[k].number != number;
  }

  lemma FindBarFirst(bars: seq<BarInfo>, number: int, k: nat)
    requires k < |bars| && bars[k].number == number
    requires forall j :: 0 <= j < k ==> bars[j].number != number
    ensures FindBar(bars, number) == Some(k)
  {
    if k > 0 {
      FindBarFirst(bars[1..], number, k - 1);
    }
  }
}
