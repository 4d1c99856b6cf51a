/** The value decoders of bms.py:149-210. A value is a run of two-character
    tokens; token `i` of `n` stands at position `i/n` of the bar and the
    token "00" stands for nothing. The four decoders run the same loop and
    differ only in how a token becomes an event, which `TokenDecoder` says. */
module Decode {
  import opened Basics
  import opened Text
  import opened BmsTypes

  /** How one non-"00" token at bar position `pos` becomes an event. */
  type TokenDecoder<T> = (string, real) -> Result<T>

  /** Token `i` of `data`: `data[2*i:2*(i+1)]`. */
  function Token(data: string, i: nat): string
    requires 2 * i + 2 <= |data|
  {
    data[2 * i..2 * i + 2]
  }

  /** `Fraction(i, n)`. */
  function Position(i: nat, n: nat): real
    requires i < n
  {
    i as real / n as real
  }

  /** The indices below `k` of the tokens other than "00", in order. */
  function NonZero(data: string, n: nat, k: nat): (idx: seq<nat>)
    requires |data| == 2 * n && k <= n
    ensures forall j :: 0 <= j < |idx| ==> idx[j] < k && Token(data, idx[j]) != "00"
    ensures forall a, b :: 0 <= a < b < |idx| ==> idx[a] < idx[b]
    ensures forall i :: 0 <= i < k && Token(data, i) != "00" ==> i in idx
  {
    if k == 0 then []
    else
      var p := NonZero(data, n, k - 1);
      if Token(data, k - 1) == "00" then p else p + [k - 1]
  }

  /** The events of tokens `0..k-1`, or the error of the first token that
      fails, as the source's loop meets them. */
  function GridEvents<T>(data: string, n: nat, k: nat, f: TokenDecoder<T>): (r: Result<seq<T>>)
    requires |data| == 2 * n && k <= n
    ensures r.Ok? ==> |r.value| <= k
  {
    if k == 0 then Ok([])
    else match GridEvents(data, n, k - 1, f)
      case Err(e) => Err(e)
      case Ok(xs) =>
        if Token(data, k - 1) == "00" then Ok(xs)
        else match f(Token(data, k - 1), Position(k - 1, n))
          case Err(e) => Err(e)
          case Ok(x) => Ok(xs + [x])
  }

  /** A decoder's whole answer: None for an empty value, the assertion
      failure for an odd length, and otherwise the events or the first error. */
  function DecodeGrid<T>(data: string, f: TokenDecoder<T>): Result<Option<seq<T>>>
  {
    if data == [] then Ok(None)
    else if |data| % 2 != 0 then Err(AssertionFailed)
    else match GridEvents(data, |data| / 2, |data| / 2, f)
      case Ok(xs) => Ok(Some(xs))
      case Err(e) => Err(e)
  }

  /** The loop the four decoders share. */
  method DecodeGridLoop<T>(data: string, f: TokenDecoder<T>) returns (r: Result<Option<seq<T>>>)
    ensures r == DecodeGrid(data, f)
  {
    if data == [] {
      return Ok(None);
    }
    if |data| % 2 != 0 {
      return Err(AssertionFailed);
    }
    var result: seq<T> := [];
    var length := |data| / 2;
    for i := 0 to length
      invariant GridEvents(data, length, i, f) == Ok(result)
    {
      var s := data[2 * i..2 * (i + 1)];
      assert s == Token(data, i);
      if s == "00" {
        continue;
      }
      var event := f(s, i as real / length as real);
      assert event == f(Token(data, i), Position(i, length));
      if event.Err? {
        GridEventsFails(data, length, i + 1, f);
        return Err(event.error);
      }
      result := result + [event.value];
    }
    return Ok(Some(result));
  }

  /** Once a prefix fails, every longer prefix fails with the same error. */
  lemma GridEventsFails<T>(data: string, n: nat, k: nat, f: TokenDecoder<T>)
    requires |data| == 2 * n && k <= n
    requires GridEvents(data, n, k, f).Err?
    ensures GridEvents(data, n, n, f) == GridEvents(data, n, k, f)
    decreases n - k
  {
    if k < n {
      GridEventsFails(data, n, k + 1, f);
    }
  }

  /** The grid loop keeps one event per non-"00" token, in token order,
      each being what the token decodes to; it fails exactly when some
      non-"00" token fails, and then with that token's error. */
  lemma {:induction false} GridEventsShape<T>(data: string, n: nat, k: nat, f: TokenDecoder<T>)
    requires |data| == 2 * n && k <= n
    ensures GridEvents(data, n, k, f).Ok? <==>
      forall i :: 0 <= i < k && Token(data, i) != "00" ==> f(Token(data, i), Position(i, n)).Ok?
    ensures GridEvents(data, n, k, f).Ok? ==>
      var xs, idx := GridEvents(data, n, k, f).value, NonZero(data, n, k);
      |xs| == |idx| && forall j :: 0 <= j < |xs| ==> f(Token(data, idx[j]), Position(idx[j], n)) == Ok(xs[j])
    ensures GridEvents(data, n, k, f).Err? ==>
      exists i :: 0 <= i < k && Token(data, i) != "00" &&
        f(Token(data, i), Position(i, n)) == Err(GridEvents(data, n, k, f).error)
  {
    if k > 0 {
      GridEventsShape(data, n, k - 1, f);
    }
  }

  /** A decoder that stamps each event with its token's position never
      places an event before the bar's start. */
  lemma {:induction false} GridEventsAfterStart<T>(data: string, n: nat, k: nat, f: TokenDecoder<T>, key: T -> real)
    requires |data| == 2 * n && k <= n
    requires forall tok, pos :: f(tok, pos).Ok? ==> key(f(tok, pos).value) == pos
    requires GridEvents(data, n, k, f).Ok?
    ensures forall j :: 0 <= j < |GridEvents(data, n, k, f).value| ==> 0.0 <= key(GridEvents(data, n, k, f).value[j])
    decreases k
  {
    if k > 0 {
      GridEventsAfterStart(data, n, k - 1, f, key);
      assert 0.0 <= Position(k - 1, n);
    }
  }

  /** The same for a decoder's whole answer. */
  lemma DecodedAfterStart<T>(data: string, f: TokenDecoder<T>, key: T -> real)
    requires forall tok, pos :: f(tok, pos).Ok? ==> key(f(tok, pos).value) == pos
    ensures DecodeGrid(data, f).Ok? && DecodeGrid(data, f).value.Some? ==>
      forall j :: 0 <= j < |DecodeGrid(data, f).value.value| ==> 0.0 <= key(DecodeGrid(data, f).value.value[j])
  {
    if data != [] && |data| % 2 == 0 && GridEvents(data, |data| / 2, |data| / 2, f).Ok? {
      GridEventsAfterStart(data, |data| / 2, |data| / 2, f, key);
    }
  }

  /** The edge cases every decoder shares. */
  lemma DecodeGridEdges<T>(data: string, f: TokenDecoder<T>)
    ensures DecodeGrid(data, f) == Ok(None) <==> data == []
    ensures data != [] && |data| % 2 == 1 ==> DecodeGrid(data, f) == Err(AssertionFailed)
  {
  }

  /** Positions of the kept tokens increase strictly and lie in [0, 1). */
  lemma PositionsIncreasing(idx: seq<nat>, n: nat)
    requires forall j :: 0 <= j < |idx| ==> idx[j] < n
    requires forall a, b :: 0 <= a < b < |idx| ==> idx[a] < idx[b]
    ensures forall j :: 0 <= j < |idx| ==> 0.0 <= Position(idx[j], n) < 1.0
    ensures forall a, b :: 0 <= a < b < |idx| ==> Position(idx[a], n) < Position(idx[b], n)
  {
    forall a, b | 0 <= a < b < |idx|
      ensures Position(idx[a], n) < Position(idx[b], n)
    {
      DivideStrict(idx[a] as real, idx[b] as real, n as real);
    }
    forall j | 0 <= j < |idx|
      ensures 0.0 <= Position(idx[j], n) < 1.0
    {
      DivideStrict(idx[j] as real, n as real, n as real);
    }
  }

  lemma DivideStrict(a: real, b: real, d: real)
    requires 0.0 <= a < b && d > 0.0
    ensures 0.0 <= a / d < b / d
    ensures b == d ==> b / d == 1.0
  {
    assert (b / d - a / d) * d == b - a;
  }

  // ---- the four decoders ----

  /** `int(s, 36)` as the sample number. */
  function NoteToken(tok: string, pos: real): Result<Note>
  {
    match Base36(tok)
    case Some(v) => Ok(Note(pos, v))
    case None => Err(InvalidLiteral)
  }

  /** `int(s, 16)` as the tempo. */
  function BpmToken(tok: string, pos: real): Result<BpmNote>
  {
    match Base16(tok)
    case Some(v) => Ok(BpmNote(pos, v as real))
    case None => Err(InvalidLiteral)
  }

  /** The first table entry with this order, as `next(filter(...))` finds it. */
  function FindExBpm(table: seq<ExBpmDef>, order: nat): Option<ExBpmDef>
  {
    if table == [] then None
    else if table[0].order == order then Some(table[0])
    else FindExBpm(table[1..], order)
  }

  function FindStop(table: seq<StopDef>, order: nat): Option<StopDef>
  {
    if table == [] then None
    else if table[0].order == order then Some(table[0])
    else FindStop(table[1..], order)
  }

  /** The tempo of the `#BPMxx` entry the token names. The filter's test
      reads the token only when the table has an entry to test, so an empty
      table fails with StopIteration whatever the token. */
  function ExBpmToken(table: seq<ExBpmDef>, tok: string, pos: real): Result<BpmNote>
  {
    if table == [] then Err(MissingDefinition)
    else match Base36(tok)
      case None => Err(InvalidLiteral)
      case Some(v) =>
        match FindExBpm(table, v)
        case Some(d) => Ok(BpmNote(pos, d.bpm))
        case None => Err(MissingDefinition)
  }

  /** The stop the token names: its length in 1/192 bars; the timing is
      never set, so it stays `Fraction()`, that is 0. */
  function StopToken(table: seq<StopDef>, tok: string): Result<StopNote>
  {
    if table == [] then Err(MissingDefinition)
    else match Base36(tok)
      case None => Err(InvalidLiteral)
      case Some(v) =>
        match FindStop(table, v)
        case Some(d) => Ok(StopNote(0.0, d.value as real / 192.0))
        case None => Err(MissingDefinition)
  }

  /** `__parse_note`: one note per non-"00" token, its sample the token in base 36. */
  function DecodeNotes(data: string): (r: Result<Option<seq<Note>>>)
    ensures r == Ok(None) <==> data == []
    ensures data != [] && |data| % 2 == 1 ==> r == Err(AssertionFailed)
    ensures r.Ok? && r.value.Some? ==> |r.value.value| <= |data| / 2
  {
    DecodeGrid(data, NoteToken)
  }

  /** `__parse_bpm`: one tempo change per non-"00" token, the tempo the token in base 16. */
  function DecodeBpms(data: string): (r: Result<Option<seq<BpmNote>>>)
    ensures r == Ok(None) <==> data == []
    ensures data != [] && |data| % 2 == 1 ==> r == Err(AssertionFailed)
    ensures r.Ok? && r.value.Some? ==> |r.value.value| <= |data| / 2
  {
    DecodeGrid(data, BpmToken)
  }

  function ExBpmDecoder(table: seq<ExBpmDef>): TokenDecoder<BpmNote>
  {
    (tok, pos) => ExBpmToken(table, tok, pos)
  }

  function StopDecoder(table: seq<StopDef>): TokenDecoder<StopNote>
  {
    (tok, pos) => StopToken(table, tok)
  }

  /** `__parse_exbpm`: one tempo change per non-"00" token, the tempo looked up in
      the `#BPMxx` table by the token's base-36 value. */
  function DecodeExBpms(data: string, table: seq<ExBpmDef>): (r: Result<Option<seq<BpmNote>>>)
    ensures r == Ok(None) <==> data == []
    ensures data != [] && |data| % 2 == 1 ==> r == Err(AssertionFailed)
    ensures r.Ok? && r.value.Some? ==> |r.value.value| <= |data| / 2
  {
    DecodeGrid(data, ExBpmDecoder(table))
  }

  /** `__parse_stop`: one stop per non-"00" token, its length looked up in the
      `#STOPxx` table by the token's base-36 value. */
  function DecodeStops(data: string, table: seq<StopDef>): (r: Result<Option<seq<StopNote>>>)
    ensures r == Ok(None) <==> data == []
    ensures data != [] && |data| % 2 == 1 ==> r == Err(AssertionFailed)
    ensures r.Ok? && r.value.Some? ==> |r.value.value| <= |data| / 2
  {
    DecodeGrid(data, StopDecoder(table))
  }

  /** The notes of a well-formed value: one per non-"00" token, in token
      order, at position i/n, with the token's base-36 value as sample. */
  predicate NotesOfGrid(data: string, notes: seq<Note>)
    requires |data| % 2 == 0
  {
    var n := |data| / 2;
    var idx := NonZero(data, n, n);
    |notes| == |idx| &&
    forall j :: 0 <= j < |notes| ==>
      Base36(Token(data, idx[j])).Some? &&
      notes[j] == Note(Position(idx[j], n), Base36(Token(data, idx[j])).value)
  }

  /** Every non-"00" token is a base-36 number. */
  predicate AllBase36(data: string)
    requires |data| % 2 == 0
  {
    forall i :: 0 <= i < |data| / 2 && Token(data, i) != "00" ==> Base36(Token(data, i)).Some?
  }

  /** `__parse_note`: None for an empty value, the assertion failure for an
      odd length, `ValueError` exactly when some token is not base 36, and
      otherwise the notes of the grid in strictly increasing timing order
      within the bar. */
  lemma NotesDecoded(data: string)
    ensures DecodeNotes(data) == Ok(None) <==> data == []
    ensures DecodeNotes(data) == Err(AssertionFailed) <==> data != [] && |data| % 2 == 1
    ensures data != [] && |data| % 2 == 0 ==>
      (DecodeNotes(data).Ok? <==> AllBase36(data)) &&
      (DecodeNotes(data).Err? ==> DecodeNotes(data).error == InvalidLiteral)
    ensures data != [] && |data| % 2 == 0 && DecodeNotes(data).Ok? ==>
      DecodeNotes(data).value.Some? && NotesOfGrid(data, DecodeNotes(data).value.value)
    ensures DecodeNotes(data).Ok? && DecodeNotes(data).value.Some? ==>
      var notes := DecodeNotes(data).value.value;
      (forall j :: 0 <= j < |notes| ==> 0.0 <= notes[j].timing < 1.0) &&
      (forall a, b :: 0 <= a < b < |notes| ==> notes[a].timing < notes[b].timing)
  {
    DecodeGridEdges(data, NoteToken);
    if data != [] && |data| % 2 == 0 {
      var n := |data| / 2;
      NotesRefused(data);
      GridEventsShape(data, n, n, NoteToken);
      PositionsIncreasing(NonZero(data, n, n), n);
      var r := DecodeNotes(data);
      if r.Ok? {
        var notes, idx := r.value.value, NonZero(data, n, n);
        forall j | 0 <= j < |notes|
          ensures Base36(Token(data, idx[j])).Some? &&
            notes[j] == Note(Position(idx[j], n), Base36(Token(data, idx[j])).value)
        {
          assert NoteToken(Token(data, idx[j]), Position(idx[j], n)) == Ok(notes[j]);
        }
      }
    }
  }

  /** A well-formed value decodes exactly when every token is base 36, and
      otherwise fails with `ValueError`. */
  lemma NotesRefused(data: string)
    requires data != [] && |data| % 2 == 0
    ensures DecodeNotes(data).Ok? <==> AllBase36(data)
    ensures DecodeNotes(data).Err? ==> DecodeNotes(data).error == InvalidLiteral
  {
    var n := |data| / 2;
    GridEventsShape(data, n, n, NoteToken);
  }

  /** `__parse_bpm`: the same grid, each token read as a hexadecimal tempo,
      which is therefore at least 1. */
  lemma BpmsDecoded(data: string)
    ensures DecodeBpms(data) == Ok(None) <==> data == []
    ensures DecodeBpms(data) == Err(AssertionFailed) <==> data != [] && |data| % 2 == 1
    ensures data != [] && |data| % 2 == 0 && DecodeBpms(data).Ok? ==>
      var n := |data| / 2;
      var bpms, idx := DecodeBpms(data).value.value, NonZero(data, n, n);
      |bpms| == |idx| &&
      forall j :: 0 <= j < |bpms| ==>
        Base16(Token(data, idx[j])).Some? &&
        bpms[j] == BpmNote(Position(idx[j], n), Base16(Token(data, idx[j])).value as real)
    ensures DecodeBpms(data).Ok? && DecodeBpms(data).value.Some? ==>
      var bpms := DecodeBpms(data).value.value;
      (forall j :: 0 <= j < |bpms| ==> 0.0 <= bpms[j].timing < 1.0 && bpms[j].bpm >= 1.0) &&
      (forall a, b :: 0 <= a < b < |bpms| ==> bpms[a].timing < bpms[b].timing)
  {
    DecodeGridEdges(data, BpmToken);
    if data != [] && |data| % 2 == 0 {
      var n := |data| / 2;
      GridEventsShape(data, n, n, BpmToken);
      PositionsIncreasing(NonZero(data, n, n), n);
      var r := DecodeBpms(data);
      if r.Ok? {
        var bpms, idx := r.value.value, NonZero(data, n, n);
        forall j | 0 <= j < |bpms|
          ensures Base16(Token(data, idx[j])).Some? &&
            bpms[j] == BpmNote(Position(idx[j], n), Base16(Token(data, idx[j])).value as real)
          ensures bpms[j].bpm >= 1.0
        {
          assert BpmToken(Token(data, idx[j]), Position(idx[j], n)) == Ok(bpms[j]);
          NonZeroTokenValue(Token(data, idx[j]), 16);
        }
      }
    }
  }

  /** A two-character token other than "00" that is a number is not 0. */
  lemma NonZeroTokenValue(tok: string, base: nat)
    requires 2 <= base <= 36 && |tok| == 2 && tok != "00" && BaseValue(tok, base).Some?
    ensures BaseValue(tok, base).value >= 1
  {
    TokenValue(tok, base);
    assert tok == [tok[0], tok[1]];
    NonZeroPair(tok[0], tok[1], base);
  }

  /** Two digits that are not both '0' make a positive number. */
  lemma NonZeroPair(c0: char, c1: char, base: nat)
    requires 2 <= base <= 36 && DigitValue(c0, base).Some? && DigitValue(c1, base).Some?
    requires c0 != '0' || c1 != '0'
    ensures DigitValue(c0, base).value * base + DigitValue(c1, base).value >= 1
  {
    var high, low := DigitValue(c0, base).value, DigitValue(c1, base).value;
    if c0 != '0' {
      AtLeastOneTimes(high, base);
    }
  }

  /** A product of two positive naturals is positive. */
  lemma AtLeastOneTimes(a: nat, b: nat)
    requires a >= 1 && b >= 1
    ensures a * b >= 1
  {
  }

  /** `__parse_exbpm` with no `#BPMxx` entries: a value of only "00" tokens
      gives no tempo change, and any other token stops the parse with
      StopIteration, whatever the token says. */
  lemma ExBpmsWithoutTable(data: string)
    requires data != [] && |data| % 2 == 0
    ensures DecodeExBpms(data, []).Ok? <==>
      forall i :: 0 <= i < |data| / 2 ==> Token(data, i) == "00"
    ensures DecodeExBpms(data, []).Ok? ==> DecodeExBpms(data, []) == Ok(Some([]))
    ensures DecodeExBpms(data, []).Err? ==> DecodeExBpms(data, []).error == MissingDefinition
  {
    var f := ExBpmDecoder([]);
    var n := |data| / 2;
    GridEventsShape(data, n, n, f);
    if forall i :: 0 <= i < n ==> Token(data, i) == "00" {
      NoSlotKept(data, n, n);
    }
  }

  /** `__parse_stop` with no `#STOPxx` entries behaves the same way. */
  lemma StopsWithoutTable(data: string)
    requires data != [] && |data| % 2 == 0
    ensures DecodeStops(data, []).Ok? <==>
      forall i :: 0 <= i < |data| / 2 ==> Token(data, i) == "00"
    ensures DecodeStops(data, []).Ok? ==> DecodeStops(data, []) == Ok(Some([]))
    ensures DecodeStops(data, []).Err? ==> DecodeStops(data, []).error == MissingDefinition
  {
    var f := StopDecoder([]);
    var n := |data| / 2;
    GridEventsShape(data, n, n, f);
    if forall i :: 0 <= i < n ==> Token(data, i) == "00" {
      NoSlotKept(data, n, n);
    }
  }

  /** `__parse_stop` never sets a timing: every stop it yields is at 0, and
      lasts the named entry's value in 1/192 bars. */
  lemma StopsDecoded(data: string, table: seq<StopDef>)
    ensures DecodeStops(data, table).Ok? && DecodeStops(data, table).value.Some? ==>
      var stops := DecodeStops(data, table).value.value;
      forall j :: 0 <= j < |stops| ==>
        stops[j].timing == 0.0 &&
        exists d :: d in table && stops[j].duration == d.value as real / 192.0
  {
    var f := StopDecoder(table);
    if data != [] && |data| % 2 == 0 {
      var n := |data| / 2;
      GridEventsShape(data, n, n, f);
      var r := DecodeStops(data, table);
      if r.Ok? {
        var stops, idx := r.value.value, NonZero(data, n, n);
        forall j | 0 <= j < |stops|
          ensures stops[j].timing == 0.0
          ensures exists d :: d in table && stops[j].duration == d.value as real / 192.0
        {
          var tok := Token(data, idx[j]);
          assert f(tok, Position(idx[j], n)) == Ok(stops[j]);
          var d := FindStop(table, Base36(tok).value).value;
          FindStopIn(table, Base36(tok).value);
          assert d in table;
        }
      }
    }
  }

  lemma FindStopIn(table: seq<StopDef>, order: nat)
    ensures FindStop(table, order).Some? ==>
      FindStop(table, order).value in table && FindStop(table, order).value.order == order
  {
  }

  // ---- writing a grid ----

  /** The value that writes one sample per slot, 0 for an empty slot. */
  function EncodeGrid(samples: seq<nat>): (data: string)
    requires forall i :: 0 <= i < |samples| ==> samples[i] < 36 * 36
    ensures |data| == 2 * |samples|
  {
    if samples == [] then []
    else EncodeGrid(samples[..|samples| - 1]) + Encode36(samples[|samples| - 1])
  }

  lemma EncodeGridToken(samples: seq<nat>, i: nat)
    requires forall k :: 0 <= k < |samples| ==> samples[k] < 36 * 36
    requires i < |samples|
    ensures Token(EncodeGrid(samples), i) == Encode36(samples[i])
  {
    var p := samples[..|samples| - 1];
    if i < |p| {
      EncodeGridToken(p, i);
      var d, last := EncodeGrid(p), Encode36(samples[|samples| - 1]);
      assert EncodeGrid(samples) == d + last;
      assert (d + last)[2 * i..2 * i + 2] == d[2 * i..2 * i + 2];
    }
  }

  /** Round trip: writing samples none of which is 0 and reading the value
      back gives one note per slot, in slot order, at position i/n. */
  lemma {:induction false} DecodeEncodeGrid(samples: seq<nat>)
    requires samples != []
    requires forall i :: 0 <= i < |samples| ==> 0 < samples[i] < 36 * 36
    ensures DecodeNotes(EncodeGrid(samples)) ==
      Ok(Some(seq(|samples|, i requires 0 <= i < |samples| => Note(Position(i, |samples|), samples[i]))))
  {
    var data := EncodeGrid(samples);
    var n := |samples|;
    EncodedTokens(samples);
    FullGridDecoded(data, n);
    assert seq(n, i requires 0 <= i < n => Note(Position(i, n), Base36(Token(data, i)).value)) ==
      seq(n, i requires 0 <= i < n => Note(Position(i, n), samples[i]));
  }

  /** The notes of the non-zero samples among the first `k` slots, each at
      its slot's position: what a grid with empty slots stands for. */
  function SampleNotes(samples: seq<nat>, k: nat): (r: seq<Note>)
    requires k <= |samples|
    ensures |r| <= k
  {
    if k == 0 then []
    else
      SampleNotes(samples, k - 1) +
      (if samples[k - 1] == 0 then [] else [Note(Position(k - 1, |samples|), samples[k - 1])])
  }

  /** Round trip with empty slots: a 0 sample is written as "00" and skipped
      on reading, and every other sample comes back at its slot's position. */
  lemma DecodeEncodeSparseGrid(samples: seq<nat>)
    requires samples != []
    requires forall i :: 0 <= i < |samples| ==> samples[i] < 36 * 36
    ensures DecodeNotes(EncodeGrid(samples)) == Ok(Some(SampleNotes(samples, |samples|)))
  {
    var data := EncodeGrid(samples);
    forall i | 0 <= i < |samples|
      ensures Base36(Token(data, i)) == Some(samples[i]) && (Token(data, i) == "00" <==> samples[i] == 0)
    {
      EncodeGridToken(samples, i);
      EncodedSample(samples[i]);
    }
    EncodedSlots(data, samples, |samples|);
    assert |data| / 2 == |samples|;
  }

  /** The grid loop over the first `k` slots of a value whose tokens read as
      `samples`, "00" standing for 0, yields the notes of the non-zero samples among them. */
  lemma {:induction false} EncodedSlots(data: string, samples: seq<nat>, k: nat)
    requires |data| == 2 * |samples| && k <= |samples|
    requires forall i :: 0 <= i < |samples| ==>
      Base36(Token(data, i)) == Some(samples[i]) && (Token(data, i) == "00" <==> samples[i] == 0)
    ensures GridEvents(data, |samples|, k, NoteToken) == Ok(SampleNotes(samples, k))
    decreases k
  {
    if k > 0 {
      EncodedSlots(data, samples, k - 1);
      var n, tok, v := |samples|, Token(data, k - 1), samples[k - 1];
      var prev, pos := SampleNotes(samples, k - 1), Position(k - 1, n);
      if v == 0 {
        assert tok == "00";
        assert SampleNotes(samples, k) == prev + [] == prev;
      } else {
        assert tok != "00";
        assert NoteToken(tok, pos) == Ok(Note(pos, v));
        assert SampleNotes(samples, k) == prev + [Note(pos, v)];
      }
    }
  }

  /** A sample's token reads back as the sample, and is "00" exactly for 0. */
  lemma EncodedSample(v: nat)
    requires v < 36 * 36
    ensures Base36(Encode36(v)) == Some(v)
    ensures Encode36(v) == "00" <==> v == 0
  {
    Base36OfEncode36(v);
    if v == 0 {
      assert DigitChar(0) == '0';
      assert Encode36(0) == ['0', '0'] == "00";
    } else {
      ZeroToken();
    }
  }

  /** A grid with no "00" token whose tokens are all base 36 decodes to one
      note per slot. */
  lemma FullGridDecoded(data: string, n: nat)
    requires n > 0 && |data| == 2 * n
    requires forall i :: 0 <= i < n ==> Token(data, i) != "00" && Base36(Token(data, i)).Some?
    ensures DecodeNotes(data) ==
      Ok(Some(seq(n, i requires 0 <= i < n => Note(Position(i, n), Base36(Token(data, i)).value))))
  {
    AllSlotsKept(data, n, n);
    GridEventsShape(data, n, n, NoteToken);
    forall i | 0 <= i < n && Token(data, i) != "00"
      ensures NoteToken(Token(data, i), Position(i, n)).Ok?
    {
    }
    var notes := GridEvents(data, n, n, NoteToken).value;
    var idx := NonZero(data, n, n);
    forall j | 0 <= j < n
      ensures notes[j] == Note(Position(j, n), Base36(Token(data, j)).value)
    {
      assert idx[j] == j;
      assert NoteToken(Token(data, j), Position(j, n)) == Ok(notes[j]);
    }
    assert notes == seq(n, i requires 0 <= i < n => Note(Position(i, n), Base36(Token(data, i)).value));
    assert |data| / 2 == n;
  }

  /** Every token of an encoded grid of non-zero samples reads back as its
      sample, so none is "00". */
  lemma EncodedTokens(samples: seq<nat>)
    requires forall i :: 0 <= i < |samples| ==> 0 < samples[i] < 36 * 36
    ensures forall i :: 0 <= i < |samples| ==>
      Token(EncodeGrid(samples), i) != "00" && Base36(Token(EncodeGrid(samples), i)) == Some(samples[i])
  {
    forall i | 0 <= i < |samples|
      ensures Token(EncodeGrid(samples), i) != "00" && Base36(Token(EncodeGrid(samples), i)) == Some(samples[i])
    {
      EncodeGridToken(samples, i);
      Base36OfEncode36(samples[i]);
      ZeroToken();
    }
  }

  /** "00" reads as 0. */
  lemma ZeroToken()
    ensures Base36("00") == Some(0)
  {
    TokenValue("00", 36);
  }

  /** With only "00" tokens, no slot is kept. */
  lemma {:induction false} NoSlotKept(data: string, n: nat, k: nat)
    requires |data| == 2 * n && k <= n
    requires forall i :: 0 <= i < n ==> Token(data, i) == "00"
    ensures NonZero(data, n, k) == []
  {
    if k > 0 {
      NoSlotKept(data, n, k - 1);
    }
  }

  /** With no "00" token, every slot is kept. */
  lemma {:induction false} AllSlotsKept(data: string, n: nat, k: nat)
    requires |data| == 2 * n && k <= n
    requires forall i :: 0 <= i < n ==> Token(data, i) != "00"
    ensures |NonZero(data, n, k)| == k
    ensures forall j :: 0 <= j < k ==> NonZero(data, n, k)[j] == j
  {
    if k > 0 {
      AllSlotsKept(data, n, k - 1);
      var p := NonZero(data, n, k - 1);
      assert Token(data, k - 1) != "00";
      assert NonZero(data, n, k) == p + [k - 1];
      forall j | 0 <= j < k
        ensures NonZero(data, n, k)[j] == j
      {
        if j < k - 1 {
          assert NonZero(data, n, k)[j] == p[j];
        }
      }
    }
  }
}
