/** The text handling that bms.py borrows from Python: `str.rstrip`,
    `str.startswith`, slicing past the end, `int(s, base)`, `float(s)`,
    `int(s)`, and the four regular expressions of bms.py:7-10, each written
    out as a recogniser. */
module Text {
  import opened Basics

  /** The characters Python's `str.isspace` accepts (used by `rstrip`,
      `int` and `float`). */
  predicate IsSpace(c: char)
  {
    c == ' ' || ('\t' <= c <= '\r') || ('\U{1C}' <= c <= '\U{1F}') ||
    c == '\U{0085}' || c == '\U{00A0}' || c == '\U{1680}' || ('\U{2000}' <= c <= '\U{200A}') ||
    c == '\U{2028}' || c == '\U{2029}' || c == '\U{202F}' || c == '\U{205F}' || c == '\U{3000}'
  }

  predicate IsDigit(c: char) { '0' <= c <= '9' }

  /** The regex class `[0-9A-Z]`. */
  predicate IsUpperAlnum(c: char) { IsDigit(c) || 'A' <= c <= 'Z' }

  /** `s.rstrip()`: the longest prefix of `s` that does not end in whitespace. */
  function RStrip(s: string): (r: string)
    ensures |r| <= |s| && r == s[..|r|]
    ensures r == [] || !IsSpace(r[|r| - 1])
    ensures forall i :: |r| <= i < |s| ==> IsSpace(s[i])
  {
    if s == [] || !IsSpace(s[|s| - 1]) then s else RStrip(s[..|s| - 1])
  }

  /** `s.strip()`. */
  function Strip(s: string): (r: string)
    ensures r == [] || (!IsSpace(r[0]) && !IsSpace(r[|r| - 1]))
    decreases |s|
  {
    var t := RStrip(s);
    if t == [] then [] else if IsSpace(t[0]) then Strip(t[1..]) else t
  }

  predicate StartsWith(s: string, prefix: string)
  {
    |prefix| <= |s| && s[..|prefix|] == prefix
  }

  /** The slice `s[k:]`, which is empty when `k` is past the end. */
  function From(s: string, k: nat): (r: string)
    ensures |r| == if k <= |s| then |s| - k else 0
  {
    if k <= |s| then s[k..] else []
  }

  /** The value of one digit in base `base` as `int(..., base)` reads it
      (either letter case), or None. */
  function DigitValue(c: char, base: nat): (r: Option<nat>)
    requires 2 <= base <= 36
    ensures r.Some? ==> r.value < base
  {
    var v :=
      if IsDigit(c) then (c as int - '0' as int)
      else if 'A' <= c <= 'Z' then (c as int - 'A' as int) + 10
      else if 'a' <= c <= 'z' then (c as int - 'a' as int) + 10
      else base;
    if v < base then Some(v) else None
  }

  /** `int(s, base)` for a text made only of digits; any other character
      (`ValueError` in Python) gives None, and so does the empty text. */
  function BaseValue(s: string, base: nat): (r: Option<nat>)
    requires 2 <= base <= 36
    ensures r.Some? ==> s != []
  {
    if s == [] then None
    else if |s| == 1 then DigitValue(s[0], base)
    else
      var high, low := BaseValue(s[..|s| - 1], base), DigitValue(s[|s| - 1], base);
      if high.None? || low.None? then None else Some(Place(high.value, base, low.value))
  }

  /** The number with digits `high` then `low`. */
  function Place(high: nat, base: nat, low: nat): nat
  {
    high * base + low
  }

  function Base36(s: string): Option<nat> { BaseValue(s, 36) }

  function Base16(s: string): Option<nat> { BaseValue(s, 16) }

  /** A two-character token is read as its first digit times the base plus its second. */
  lemma TokenValue(tok: string, base: nat)
    requires 2 <= base <= 36 && |tok| == 2
    ensures BaseValue(tok, base).Some? <==> DigitValue(tok[0], base).Some? && DigitValue(tok[1], base).Some?
    ensures BaseValue(tok, base).Some? ==>
      BaseValue(tok, base).value == DigitValue(tok[0], base).value * base + DigitValue(tok[1], base).value
  {
    assert tok[..1] == [tok[0]];
  }

  /** The upper-case digit for `d`, as the chart format writes identifiers. */
  function DigitChar(d: nat): (c: char)
    requires d < 36
    ensures IsUpperAlnum(c) && DigitValue(c, 36) == Some(d)
  {
    if d < 10 then ('0' as int + d) as char else ('A' as int + d - 10) as char
  }

  /** The two-character base-36 token of `n`. */
  function Encode36(n: nat): (tok: string)
    requires n < 36 * 36
    ensures |tok| == 2 && IsUpperAlnum(tok[0]) && IsUpperAlnum(tok[1])
  {
    [DigitChar(n / 36), DigitChar(n % 36)]
  }

  lemma Base36OfEncode36(n: nat)
    requires n < 36 * 36
    ensures Base36(Encode36(n)) == Some(n)
  {
    TokenValue(Encode36(n), 36);
  }

  /** 10 to the power `k`. */
  function Pow10(k: nat): (r: nat)
    ensures r >= 1
  {
    if k == 0 then 1 else 10 * Pow10(k - 1)
  }

  predicate AllDigits(s: string)
  {
    forall i :: 0 <= i < |s| ==> IsDigit(s[i])
  }

  /** The number a run of decimal digits denotes. */
  function DecimalValue(s: string): (r: nat)
    requires AllDigits(s)
    ensures r < Pow10(|s|)
  {
    if s == [] then 0 else 10 * DecimalValue(s[..|s| - 1]) + (s[|s| - 1] as int - '0' as int)
  }

  /** A decimal numeral without sign: digits, optionally a point and more
      digits, at least one digit in all. */
  function UnsignedDecimal(s: string): (r: Option<real>)
    ensures r.Some? ==> r.value >= 0.0
  {
    if AllDigits(s) then (if s == [] then None else Some(DecimalValue(s) as real))
    else
      var p := PointIndex(s);
      if p == |s| then None
      else
        var whole, frac := s[..p], s[p + 1..];
        if AllDigits(whole) && AllDigits(frac) && (whole != [] || frac != []) then
          Some(DecimalValue(whole) as real + DecimalValue(frac) as real / Pow10(|frac|) as real)
        else None
  }

  /** The index of the first '.', or |s| when there is none. */
  function PointIndex(s: string): (p: nat)
    ensures p <= |s|
    ensures p < |s| ==> s[p] == '.'
    ensures forall i :: 0 <= i < p ==> s[i] != '.'
  {
    if s == [] then 0 else if s[0] == '.' then 0 else 1 + PointIndex(s[1..])
  }

  /** Splits an optional leading sign off a text. */
  function Signed(s: string): (r: (real, string))
    ensures r.0 == 1.0 || r.0 == -1.0
  {
    if s != [] && s[0] == '-' then (-1.0, s[1..])
    else if s != [] && s[0] == '+' then (1.0, s[1..])
    else (1.0, s)
  }

  /** `float(s)` for plain decimal numerals (see README for the forms left out). */
  function ParseFloat(s: string): Option<real>
  {
    var (sign, body) := Signed(Strip(s));
    match UnsignedDecimal(body)
    case Some(v) => Some(sign * v)
    case None => None
  }

  /** `int(s)`: an optionally signed run of decimal digits between blanks. */
  function ParseInt(s: string): Option<int>
  {
    var t := Strip(s);
    var (sign, body) := Signed(t);
    if body != [] && AllDigits(body) then
      var magnitude: int := DecimalValue(body);
      Some(if sign < 0.0 then -magnitude else magnitude)
    else None
  }

  /** A bar directive as `re_bar` splits it: bar number, channel, value. */
  datatype BarLine = BarLine(number: nat, channel: string, value: string)

  /** How many leading `[0-9A-Z]{2}` pairs `s` has. */
  function PairRun(s: string): (k: nat)
    ensures 2 * k <= |s|
    ensures forall i :: 0 <= i < 2 * k ==> IsUpperAlnum(s[i])
    ensures !(2 * k + 2 <= |s| && IsUpperAlnum(s[2 * k]) && IsUpperAlnum(s[2 * k + 1]))
  {
    if 2 <= |s| && IsUpperAlnum(s[0]) && IsUpperAlnum(s[1]) then 1 + PairRun(s[2..]) else 0
  }

  /** How many leading decimal digits `s` has. */
  function DigitRun(s: string): (k: nat)
    ensures k <= |s| && AllDigits(s[..k])
    ensures k < |s| ==> !IsDigit(s[k])
  {
    if s != [] && IsDigit(s[0]) then 1 + DigitRun(s[1..]) else 0
  }

  /** The `value` group of `re_bar` at the start of `rest`: Python tries the
      pair alternative first and keeps as many pairs as it can; only when
      not even one pair fits does it try `[0-9]+\.[0-9]+`, which can then
      only match one digit, a point and a run of digits. */
  function BarValue(rest: string): (r: Option<string>)
    ensures r.Some? ==> r.value != [] && |r.value| <= |rest| && r.value == rest[..|r.value|]
  {
    var k := PairRun(rest);
    if k > 0 then Some(rest[..2 * k])
    else if 3 <= |rest| && IsDigit(rest[0]) && rest[1] == '.' && DigitRun(rest[2..]) > 0 then
      Some(rest[..2 + DigitRun(rest[2..])])
    else None
  }

  /** `re_bar.match(l)`: `#`, a three-digit bar number, a two-digit channel,
      `:` and the value; text after the value is ignored (no `$`). */
  function MatchBarLine(l: string): (r: Option<BarLine>)
    ensures r.Some? ==> |r.value.channel| == 2 && r.value.value != [] && r.value.number < 1000
  {
    if 7 <= |l| && l[0] == '#' && AllDigits(l[1..6]) && l[6] == ':' then
      assert AllDigits(l[1..4]) by { assert forall i :: 0 <= i < 3 ==> l[1..4][i] == l[1..6][i]; }
      match BarValue(l[7..])
      case Some(v) => Some(BarLine(DecimalValue(l[1..4]), l[4..6], v))
      case None => None
    else None
  }

  /** The longest run of characters other than a newline (the regex `.+`
      matches at least one of them). */
  function LineRun(s: string): (k: nat)
    ensures k <= |s|
  {
    if s != [] && s[0] != '\n' then 1 + LineRun(s[1..]) else 0
  }

  /** `re_wav`, `re_bpm` and `re_stop`: `prefix`, a two-character identifier
      `[0-9A-Z]{2}`, a blank and a non-empty value; gives the identifier's
      base-36 number and the value. */
  function MatchDefinition(prefix: string, l: string): (r: Option<(nat, string)>)
    ensures r.Some? ==> r.value.0 < 36 * 36 && r.value.1 != []
  {
    var n := |prefix|;
    if n + 4 <= |l| && l[..n] == prefix && IsUpperAlnum(l[n]) && IsUpperAlnum(l[n + 1]) &&
       l[n + 2] == ' ' && LineRun(l[n + 3..]) > 0
    then
      TokenValue(l[n..n + 2], 36);
      Some((Base36(l[n..n + 2]).value, l[n + 3..][..LineRun(l[n + 3..])]))
    else None
  }
}
