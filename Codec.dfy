/**
 * The observable effect of Jackson's data binding on the numeric-keyed
 * payloads: how one property is written (NON_NULL omission, booleans as the
 * numbers 0 and 1) and how it is read back (absent keys leave the field at
 * its default, JSON null gives null). Reading coerces between scalars as
 * Jackson does by default: a number read as a `String` gives its decimal
 * text, decimal text read as an `Integer` or `Long` gives its value, and the
 * text "true" or "false" read as a `Boolean` gives the flag. Text read as a
 * `Boolean`, `Integer` or `Long` is trimmed first, and the empty text and the
 * text "null" then read as null. Arrays, objects and text that does not parse
 * fail.
 */
module Codec {
  import opened Wrappers
  import opened JavaLang
  import opened Json

  datatype DecodeError =
    | NotAnObject
    | WrongShape(key: string)
    | OutOfRange(key: string)
    | MissingNode(key: string)

  /** A Boolean annotated with `@JsonFormat(shape = NUMBER)` is written as 1 or 0. */
  function FlagToJson(b: bool): Json {
    JNum(if b then 1 else 0)
  }

  /** NON_NULL inclusion: the property is written only when its value is non-null. */
  function Include(fields: map<string, Json>, key: string, value: Option<Json>): map<string, Json> {
    match value
    case None => fields
    case Some(j) => fields[key := j]
  }

  function OptFlagToJson(b: Option<bool>): Option<Json> {
    match b
    case None => None
    case Some(v) => Some(FlagToJson(v))
  }

  function OptNumToJson(n: Option<int>): Option<Json> {
    match n
    case None => None
    case Some(v) => Some(JNum(v))
  }

  function OptStrToJson(s: Option<string>): Option<Json> {
    match s
    case None => None
    case Some(v) => Some(JStr(v))
  }

  /** The spellings of a Boolean Jackson accepts as text. */
  predicate IsTrueText(t: string) {
    t == "true" || t == "True" || t == "TRUE"
  }

  predicate IsFalseText(t: string) {
    t == "false" || t == "False" || t == "FALSE"
  }

  /** Trimmed text that a `Boolean`, `Integer` or `Long` reads as null. */
  predicate IsNullText(t: string) {
    t == "" || t == "null"
  }

  /**
   * Reading a `Boolean`: a JSON boolean, a number (0 is false, any other is
   * true) or, once trimmed, the text true/false; null, the empty text and the
   * text "null" give null.
   */
  function FlagFromJson(key: string, v: Json): Result<Option<bool>, DecodeError> {
    match v
    case JNull => Success(None)
    case JBool(b) => Success(Some(b))
    case JNum(n) => Success(Some(n != 0))
    case JStr(t) =>
      var u := Trim(t);
      if IsNullText(u) then Success(None)
      else if IsTrueText(u) then Success(Some(true))
      else if IsFalseText(u) then Success(Some(false))
      else Failure(WrongShape(key))
    case _ => Failure(WrongShape(key))
  }

  /**
   * A whole number, given as a number or as trimmed decimal text, within
   * `[lo, hi]`; null, the empty text and the text "null" give null.
   */
  function WholeFromJson(key: string, v: Json, lo: int, hi: int): Result<Option<int>, DecodeError> {
    match v
    case JNull => Success(None)
    case JNum(n) => if lo <= n <= hi then Success(Some(n)) else Failure(OutOfRange(key))
    case JStr(t) =>
      var u := Trim(t);
      if IsNullText(u) then Success(None)
      else if ParseInt(u).None? then Failure(WrongShape(key))
      else if lo <= ParseInt(u).value <= hi then Success(ParseInt(u))
      else Failure(OutOfRange(key))
    case _ => Failure(WrongShape(key))
  }

  /** Reading an `Integer`: a number or decimal text in the 32-bit range; null stays null. */
  function Int32FromJson(key: string, v: Json): Result<Option<Int32>, DecodeError> {
    var n :- WholeFromJson(key, v, INT32_MIN, INT32_MAX);
    if n.None? then Success(None) else Success(Some(n.value as Int32))
  }

  /** Reading a `Long`: a number or decimal text in the 64-bit range; null stays null. */
  function Int64FromJson(key: string, v: Json): Result<Option<Int64>, DecodeError> {
    var n :- WholeFromJson(key, v, -0x8000_0000_0000_0000, 0x7FFF_FFFF_FFFF_FFFF);
    if n.None? then Success(None) else Success(Some(n.value as Int64))
  }

  /** Reading a `String`: a JSON string, or the text of a number or a boolean; null stays null. */
  function StringFromJson(key: string, v: Json): Result<Option<string>, DecodeError> {
    match v
    case JNull => Success(None)
    case JStr(s) => Success(Some(s))
    case JNum(n) => Success(Some(IntToString(n)))
    case JBool(b) => Success(Some(if b then "true" else "false"))
    case _ => Failure(WrongShape(key))
  }

  /** An optional property of each kind: an absent key leaves the field null. */
  function OptFlag(fields: map<string, Json>, key: string): Result<Option<bool>, DecodeError> {
    if key in fields then FlagFromJson(key, fields[key]) else Success(None)
  }

  function OptInt32(fields: map<string, Json>, key: string): Result<Option<Int32>, DecodeError> {
    if key in fields then Int32FromJson(key, fields[key]) else Success(None)
  }

  function OptInt64(fields: map<string, Json>, key: string): Result<Option<Int64>, DecodeError> {
    if key in fields then Int64FromJson(key, fields[key]) else Success(None)
  }

  function OptString(fields: map<string, Json>, key: string): Result<Option<string>, DecodeError> {
    if key in fields then StringFromJson(key, fields[key]) else Success(None)
  }

  /** A primitive `boolean` / `int` property: absent keeps `dflt`; JSON null reads as false / 0. */
  function PrimFlag(fields: map<string, Json>, key: string, dflt: bool): Result<bool, DecodeError> {
    if key !in fields then Success(dflt)
    else
      var b :- FlagFromJson(key, fields[key]);
      Success(if b.Some? then b.value else false)
  }

  function PrimInt32(fields: map<string, Json>, key: string, dflt: Int32): Result<Int32, DecodeError> {
    if key !in fields then Success(dflt)
    else
      var n :- Int32FromJson(key, fields[key]);
      Success(if n.Some? then n.value else 0)
  }

  /** Whatever survives an encoding reads back as itself. */
  lemma FlagRoundTrip(key: string, b: bool)
    ensures FlagFromJson(key, FlagToJson(b)) == Success(Some(b))
  {
  }

  /**
   * The coercions read a scalar written in another form as the value it
   * denotes: an `Integer` sent as its decimal text, a `String` sent as a
   * number, a `Boolean` sent as its text.
   */
  lemma CoercionsRoundTrip(key: string, n: Int32, m: Int64, b: bool)
    ensures Int32FromJson(key, JStr(IntToString(n))) == Success(Some(n))
    ensures Int64FromJson(key, JStr(IntToString(m))) == Success(Some(m))
    ensures StringFromJson(key, JNum(n)) == Success(Some(IntToString(n)))
    ensures FlagFromJson(key, JStr(if b then "true" else "false")) == Success(Some(b))
  {
    IntToStringUnpadded(n);
    IntToStringUnpadded(m);
    TrimUnpadded(IntToString(n));
    TrimUnpadded(IntToString(m));
    IntToStringRoundTrip(n);
    IntToStringRoundTrip(m);
  }

  /** The rendering of an id neither starts nor ends with a blank, and is not text that reads as null. */
  lemma IntToStringUnpadded(n: int)
    ensures var s := IntToString(n); !IsBlank(s[0]) && !IsBlank(s[|s| - 1]) && !IsNullText(s)
  {
    var s := IntToString(n);
    assert IsDigit(s[|s| - 1]);
    assert s != "null" by {
      assert IsDigit(s[0]) || s[0] == '-';
    }
  }

  /** Blanks around the text of a number or a flag are ignored: the padded text reads as the value it denotes. */
  lemma PaddedCoercions(key: string, p: string, q: string, n: Int32, m: Int64, b: bool)
    requires AllBlank(p) && AllBlank(q)
    ensures Int32FromJson(key, JStr(p + IntToString(n) + q)) == Success(Some(n))
    ensures Int64FromJson(key, JStr(p + IntToString(m) + q)) == Success(Some(m))
    ensures FlagFromJson(key, JStr(p + (if b then "true" else "false") + q)) == Success(Some(b))
  {
    IntToStringUnpadded(n);
    IntToStringUnpadded(m);
    TrimPadded(p, IntToString(n), q);
    TrimPadded(p, IntToString(m), q);
    TrimPadded(p, if b then "true" else "false", q);
    IntToStringRoundTrip(n);
    IntToStringRoundTrip(m);
  }

  /** Blank text, and the text "null" with any padding, read as null for a `Boolean`, `Integer` or `Long`. */
  lemma TextualNull(key: string, p: string, q: string)
    requires AllBlank(p) && AllBlank(q)
    ensures FlagFromJson(key, JStr(p + q)) == Success(None)
    ensures Int32FromJson(key, JStr(p + q)) == Success(None)
    ensures Int64FromJson(key, JStr(p + q)) == Success(None)
    ensures FlagFromJson(key, JStr(p + "null" + q)) == Success(None)
    ensures Int32FromJson(key, JStr(p + "null" + q)) == Success(None)
    ensures Int64FromJson(key, JStr(p + "null" + q)) == Success(None)
  {
    TrimPadded(p, "", q);
    assert p + "" + q == p + q;
    TrimPadded(p, "null", q);
  }

  /** Whether a key is present in `fields + extra` for a key `extra` lacks is decided by `fields` alone. */
  lemma LookupIgnoresExtra(fields: map<string, Json>, extra: map<string, Json>, key: string)
    requires key !in extra
    ensures (key in fields + extra) == (key in fields)
    ensures key in fields ==> (fields + extra)[key] == fields[key]
  {
  }
}
