/**
 Text in the session file: UTF-16 (sections 2.1 and 2.2 of RFC 2781), length-prefixed unit strings,
 and optional values (src/session_store.rs, `write_os`, `write_string`, `read_units`, `read_string`).
 */
module SessionText {
  import opened Prelude
  import opened SessionBytes

  const MAX_PATH_UNITS: nat := 32_767

  // ---- UTF-16 ----

  predicate HighSurrogate(u: u16) { 0xD800 <= u < 0xDC00 }

  predicate LowSurrogate(u: u16) { 0xDC00 <= u < 0xE000 }

  function CharUnits(c: char): (r: Units)
    ensures 1 <= |r| <= 2
  {
    var v := c as int;
    if v < 0x1_0000 then [v]
    else [0xD800 + (v - 0x1_0000) / 0x400, 0xDC00 + (v - 0x1_0000) % 0x400]
  }

  /** `str::encode_utf16`. */
  function Utf16(text: string): Units
  {
    if text == [] then [] else CharUnits(text[0]) + Utf16(text[1..])
  }

  function PairChar(high: u16, low: u16): (c: char)
    requires HighSurrogate(high) && LowSurrogate(low)
    ensures c as int >= 0x1_0000
  {
    (0x1_0000 + (high - 0xD800) * 0x400 + (low - 0xDC00)) as char
  }

  /** `String::from_utf16`: unpaired surrogates are errors. */
  function FromUtf16(units: Units): Option<string>
  {
    if units == [] then Some([])
    else if !HighSurrogate(units[0]) && !LowSurrogate(units[0]) then
      var others := FromUtf16(units[1..]);
      if others.None? then None else Some([units[0] as char] + others.value)
    else if HighSurrogate(units[0]) && |units| >= 2 && LowSurrogate(units[1]) then
      var others := FromUtf16(units[2..]);
      if others.None? then None else Some([PairChar(units[0], units[1])] + others.value)
    else None
  }

  lemma {:induction false} Utf16RoundTrip(text: string)
    ensures FromUtf16(Utf16(text)) == Some(text)
    decreases |text|
  {
    if text != [] {
      var c, u := text[0], Utf16(text);
      Utf16RoundTrip(text[1..]);
      assert text == [c] + text[1..];
      if c as int < 0x1_0000 {
        assert u[1..] == Utf16(text[1..]);
        assert !HighSurrogate(u[0]) && !LowSurrogate(u[0]);
      } else {
        assert u[2..] == Utf16(text[1..]);
        assert PairChar(u[0], u[1]) == c;
      }
    }
  }

  lemma {:induction false} Utf16Canonical(units: Units)
    requires FromUtf16(units).Some?
    ensures Utf16(FromUtf16(units).value) == units
    decreases |units|
  {
    if units != [] {
      var text := FromUtf16(units).value;
      if !HighSurrogate(units[0]) && !LowSurrogate(units[0]) {
        Utf16Canonical(units[1..]);
        assert text[1..] == FromUtf16(units[1..]).value;
        assert units == [units[0]] + units[1..];
      } else {
        Utf16Canonical(units[2..]);
        assert text[1..] == FromUtf16(units[2..]).value;
        assert CharUnits(PairChar(units[0], units[1])) == [units[0], units[1]];
        assert units == [units[0], units[1]] + units[2..];
      }
    }
  }

  // ---- length-prefixed strings ----

  predicate UnitsFit(units: Units)
  {
    |units| <= MAX_PATH_UNITS
  }

  function PutUnits(units: Units, rest: Bytes): Bytes
  {
    PutCounted(PutU16, units, rest)
  }

  function GetUnits(b: Bytes): Parsed<Units>
  {
    GetCounted(GetU16, MAX_PATH_UNITS, b)
  }

  lemma UnitsCodec()
    ensures Codec(PutUnits, GetUnits, UnitsFit)
  {
    U16Codec();
    forall units: Units, rest: Bytes | UnitsFit(units) ensures GetUnits(PutUnits(units, rest)) == Good(units, rest) {
      CountedRoundTrip(PutU16, GetU16, Any, MAX_PATH_UNITS, units, rest);
    }
    forall b: Bytes | GetUnits(b).Good?
      ensures UnitsFit(GetUnits(b).value) && b == PutUnits(GetUnits(b).value, GetUnits(b).rest)
    {
      CountedCanonical(PutU16, GetU16, Any, MAX_PATH_UNITS, b);
    }
  }

  predicate TextFits(text: string)
  {
    UnitsFit(Utf16(text))
  }

  function PutText(text: string, rest: Bytes): Bytes
  {
    PutUnits(Utf16(text), rest)
  }

  function GetText(b: Bytes): Parsed<string>
  {
    var (units, rest) :- GetUnits(b);
    match FromUtf16(units)
    case None => Bad
    case Some(text) => Good(text, rest)
  }

  lemma TextCodec()
    ensures Codec(PutText, GetText, TextFits)
  {
    UnitsCodec();
    forall text: string, rest: Bytes | TextFits(text) ensures GetText(PutText(text, rest)) == Good(text, rest) {
      Utf16RoundTrip(text);
    }
    forall b: Bytes | GetText(b).Good?
      ensures TextFits(GetText(b).value) && b == PutText(GetText(b).value, GetText(b).rest)
    {
      assert GetUnits(b).Good?;
      Utf16Canonical(GetUnits(b).value);
    }
  }

  // ---- optional values ----

  function PutOption<T>(put: (T, Bytes) -> Bytes, v: Option<T>, rest: Bytes): Bytes
  {
    match v
    case None => PutU8(0, rest)
    case Some(x) => PutU8(1, put(x, rest))
  }

  function GetOption<T>(get: Bytes -> Parsed<T>, b: Bytes): Parsed<Option<T>>
  {
    var (tag, b1) :- GetU8(b);
    if tag == 0 then Good(None, b1)
    else if tag == 1 then
      var (x, rest) :- get(b1);
      Good(Some(x), rest)
    else Bad
  }

  predicate OptionOk<T>(ok: T -> bool, v: Option<T>)
  {
    v.Some? ==> ok(v.value)
  }

  lemma OptionRoundTrip<T(!new)>(put: (T, Bytes) -> Bytes, get: Bytes -> Parsed<T>, ok: T -> bool, v: Option<T>,
        rest: Bytes)
    requires Codec(put, get, ok) && OptionOk(ok, v)
    ensures GetOption(get, PutOption(put, v, rest)) == Good(v, rest)
  {
  }

  lemma OptionCanonical<T(!new)>(put: (T, Bytes) -> Bytes, get: Bytes -> Parsed<T>, ok: T -> bool, b: Bytes)
    requires Codec(put, get, ok) && GetOption(get, b).Good?
    ensures OptionOk(ok, GetOption(get, b).value)
    ensures b == PutOption(put, GetOption(get, b).value, GetOption(get, b).rest)
  {
    U8Codec();
    assert GetU8(b).Good? && b == PutU8(GetU8(b).value, GetU8(b).rest);
  }
}
