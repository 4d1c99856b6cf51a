/** The replay file's contents once decoded (replay.py:14-54) and the pure
    helpers of `convert` that read a keylog entry (replay.py:172-182). */
module ReplayInput {
  import opened Basics

  /** The random option a replay was played with. */
  datatype RandomType = Normal | Mirror | Random | Others

  /** One entry of the `pattern` list; `keyOrder`, the entry's `modify`
      list, is absent when the entry has no such key. */
  datatype PatternEntry = PatternEntry(keyOrder: Option<seq<int>>)

  /** One `keylog` entry. `keycode` is absent when the entry has no such key.
      `pressedIsTrue` tells whether the entry's `pressed` value is exactly
      `True`; a missing key, `False` or any other value reads as a release. */
  datatype KeyEvent = KeyEvent(keycode: Option<int>, time: int, pressedIsTrue: bool)

  /** The decoded replay file: the fields of the gzip-compressed JSON
      document that the modelled code reads. */
  datatype ReplayData = ReplayData(
    randomoption: int,
    sha256: string,
    keylog: seq<KeyEvent>,
    pattern: seq<PatternEntry>)
  {
    /** `self.option` as `__init__` sets it. */
    function RandomOption(): RandomType
    {
      if randomoption == 0 then Normal
      else if randomoption == 1 then Mirror
      else if randomoption == 2 then Random
      else Others
    }
  }

  /** The identity lane order. */
  const IdentityModify: seq<int> := [0, 1, 2, 3, 4, 5, 6]

  /** `get_pattern_modify`: the key-lane permutation the replay was played
      with. Options 0 and 1 give the identity order of the seven keys; only
      options 0 to 2 succeed, and a failure is either the missing pattern or
      the refused option. */
  function GetPatternModify(d: ReplayData): (r: Result<seq<int>>)
    ensures d.randomoption == 0 || d.randomoption == 1 ==>
      r.Ok? && |r.value| == 7 && forall k :: 0 <= k < 7 ==> r.value[k] == k
    ensures r.Ok? ==> 0 <= d.randomoption <= 2
    ensures r.Err? ==> r.error == MissingPattern || r.error == UnsupportedOption
  {
    match d.RandomOption()
    case Normal => Ok(IdentityModify)
    case Mirror => Ok(IdentityModify)
    case Random =>
      if |d.pattern| == 0 || d.pattern[0].keyOrder.None? then Err(MissingPattern)
      else Ok(d.pattern[0].keyOrder.value)
    case Others => Err(UnsupportedOption)
  }

  /** Options 0 and 1 both play the keys in order (mirror is not applied),
      option 2 reads the first recorded pattern, and every other option is
      refused. */
  lemma PatternModifyByOption(d: ReplayData)
    ensures d.randomoption == 0 || d.randomoption == 1 ==> GetPatternModify(d) == Ok(IdentityModify)
    ensures d.randomoption == 2 ==>
      GetPatternModify(d) == if |d.pattern| > 0 && d.pattern[0].keyOrder.Some?
                             then Ok(d.pattern[0].keyOrder.value) else Err(MissingPattern)
    ensures GetPatternModify(d) == Err(UnsupportedOption) <==> d.randomoption !in {0, 1, 2}
  {
  }

  /** `get_key_index`: keycode 7 is the scratch (index 0), keycode k is key
      k + 1, and an entry without a keycode is index 1. */
  function GetKeyIndex(keycode: Option<int>): (r: int)
    ensures r == 0 <==> keycode == Some(7) || keycode == Some(-1)
    ensures r != 8
  {
    match keycode
    case None => 1
    case Some(k) => if k == 7 then 0 else k + 1
  }

  /** `is_scratch`: compares with 8, which lies outside the eight lane
      indexes 0 to 7. */
  function IsScratch(index: int): (r: bool)
    ensures r ==> !(0 <= index < 8)
  {
    index == 8
  }

  /** No keycode produces index 8, so the scratch threshold is never chosen. */
  lemma NoIndexIsScratch(keycode: Option<int>)
    ensures !IsScratch(GetKeyIndex(keycode))
  {
  }

  /** The key indexes are exactly: 0 from keycode 7 or -1, 1 from no keycode
      or keycode 0, and k + 1 from keycode k otherwise. */
  lemma KeyIndexInverse(keycode: Option<int>, index: int)
    ensures GetKeyIndex(keycode) == index <==>
      (index == 0 && (keycode == Some(7) || keycode == Some(-1))) ||
      (index == 1 && (keycode.None? || keycode == Some(0))) ||
      (index != 0 && index != 8 && keycode == Some(index - 1))
  {
  }

  /** Indexing the eight-lane tuple (and each bar's eight lists) with a
      key index: Python counts a negative index from the end, and an index
      outside -8..7 raises IndexError. */
  function Lane(index: int): (r: Result<nat>)
    ensures r.Ok? ==> r.value < 8
  {
    if 0 <= index < 8 then Ok(index)
    else if -8 <= index < 0 then Ok(index + 8)
    else Err(LaneOutOfRange)
  }

  /** Which keycodes reach which lane: keycodes 0 to 6 reach keys 1 to 7,
      keycodes 7 and -1 reach the scratch, a missing keycode reaches key 1,
      -9 to -2 wrap round to lanes 0 to 7, and every other keycode fails. */
  lemma KeycodeLanes(keycode: Option<int>)
    ensures keycode.None? ==> Lane(GetKeyIndex(keycode)) == Ok(1)
    ensures keycode.Some? && 0 <= keycode.value <= 6 ==> Lane(GetKeyIndex(keycode)) == Ok(keycode.value + 1)
    ensures keycode == Some(7) || keycode == Some(-1) ==> Lane(GetKeyIndex(keycode)) == Ok(0)
    ensures keycode.Some? && -9 <= keycode.value <= -2 ==> Lane(GetKeyIndex(keycode)) == Ok(keycode.value + 9)
    ensures Lane(GetKeyIndex(keycode)).Err? <==> keycode.Some? && (keycode.value < -9 || keycode.value > 7)
  {
  }
}
