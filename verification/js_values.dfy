/** The JavaScript values the widget's handlers inspect: numbers as produced by
    `parseFloat` and `JSON.parse` (with NaN and the infinities), the values
    `JSON.parse` returns, property lookup on them, and `String.prototype.trim`. */
module JsValues {

  datatype Option<+T> = None | Some(value: T)

  /** A JavaScript number. Finite values are modelled as unbounded reals;
      rounding to IEEE doubles is not modelled. */
  datatype Num = NaN | Infinity(negative: bool) | Finite(value: real)

  /** `isNaN(n)` */
  predicate IsNaN(n: Num) { n.NaN? }

  /** `n < bound` for a finite bound: false for NaN, as in JavaScript. */
  predicate Lt(n: Num, bound: real)
  {
    match n
    case NaN => false
    case Infinity(negative) => negative
    case Finite(v) => v < bound
  }

  /** `n > bound` for a finite bound: false for NaN. */
  predicate Gt(n: Num, bound: real)
  {
    match n
    case NaN => false
    case Infinity(negative) => !negative
    case Finite(v) => v > bound
  }

  /** `n >= bound` for a finite bound: false for NaN. */
  predicate Ge(n: Num, bound: real)
  {
    match n
    case NaN => false
    case Infinity(negative) => !negative
    case Finite(v) => v >= bound
  }

  /** `n <= bound` for a finite bound: false for NaN. */
  predicate Le(n: Num, bound: real)
  {
    match n
    case NaN => false
    case Infinity(negative) => negative
    case Finite(v) => v <= bound
  }

  /** The range test of the import filter, `!isNaN(n) && n >= lo && n <= hi`:
      it holds exactly of the finite numbers in the closed interval. */
  function CoordinateOk(n: Num, lo: real, hi: real): (ok: bool)
    ensures ok <==> n.Finite? && lo <= n.value <= hi
  {
    !IsNaN(n) && Ge(n, lo) && Le(n, hi)
  }

  /** The rejection test of the manual form, `isNaN(n) || n < lo || n > hi`:
      it is exactly the negation of the import filter's range test. */
  function CoordinateBad(n: Num, lo: real, hi: real): (bad: bool)
    ensures bad <==> !CoordinateOk(n, lo, hi)
    ensures !bad ==> n.Finite?
  {
    IsNaN(n) || Lt(n, lo) || Gt(n, hi)
  }

  /** A value returned by `JSON.parse`. An object keeps, for each key, the
      value `JSON.parse` settles on (the last one written). */
  datatype Json =
    | JNull
    | JBool(b: bool)
    | JNumber(n: Num)
    | JString(s: string)
    | JArray(elems: seq<Json>)
    | JObject(fields: map<string, Json>)

  /** `v[key]` on a value that is not `null`: an own property of an object, or
      `undefined` (None). Strings, numbers, booleans and arrays have none of the
      keys the widget reads. */
  function Prop(v: Json, key: string): Option<Json>
  {
    match v
    case JObject(fields) => if key in fields then Some(fields[key]) else None
    case _ => None
  }

  /** `typeof v === 'string'` */
  predicate IsString(v: Option<Json>) { v.Some? && v.value.JString? }

  /** `typeof v === 'number'` */
  predicate IsNumber(v: Option<Json>) { v.Some? && v.value.JNumber? }

  /** The characters `String.prototype.trim` removes: the ECMAScript
      WhiteSpace and LineTerminator code points. */
  predicate IsJsSpace(c: char)
  {
    c == '\t' || c == '\n' || c == '\U{000B}' || c == '\U{000C}' || c == '\r' ||
    c == ' ' || c == '\U{00A0}' || c == '\U{1680}' ||
    ('\U{2000}' <= c <= '\U{200A}') ||
    c == '\U{2028}' || c == '\U{2029}' || c == '\U{202F}' || c == '\U{205F}' ||
    c == '\U{3000}' || c == '\U{FEFF}'
  }

  /** Drops the leading white space. */
  function TrimStart(s: string): string
  {
    if s != [] && IsJsSpace(s[0]) then TrimStart(s[1..]) else s
  }

  /** Drops the trailing white space. */
  function TrimEnd(s: string): string
  {
    if s != [] && IsJsSpace(s[|s| - 1]) then TrimEnd(s[..|s| - 1]) else s
  }

  /** What `TrimStart` leaves is a suffix of its input that does not start with
      white space, and everything it drops is white space. */
  lemma {:induction false} TrimStartSpec(s: string)
    ensures var r := TrimStart(s);
      |r| <= |s| && r == s[|s| - |r|..] &&
      (r == [] || !IsJsSpace(r[0])) &&
      forall i :: 0 <= i < |s| - |r| ==> IsJsSpace(s[i])
  {
    if s != [] && IsJsSpace(s[0]) {
      var t := s[1..];
      TrimStartSpec(t);
      var r := TrimStart(t);
      assert TrimStart(s) == r;
      assert t[|t| - |r|..] == s[|s| - |r|..];
      forall i | 0 <= i < |s| - |r| ensures IsJsSpace(s[i]) {
        if i > 0 { assert s[i] == t[i - 1]; }
      }
    }
  }

  /** What `TrimEnd` leaves is a prefix of its input that does not end with
      white space, and everything it drops is white space. */
  lemma {:induction false} TrimEndSpec(s: string)
    ensures var r := TrimEnd(s);
      |r| <= |s| && r == s[..|r|] &&
      (r == [] || !IsJsSpace(r[|r| - 1])) &&
      forall i :: |r| <= i < |s| ==> IsJsSpace(s[i])
  {
    if s != [] && IsJsSpace(s[|s| - 1]) {
      var t := s[..|s| - 1];
      TrimEndSpec(t);
      var r := TrimEnd(t);
      assert TrimEnd(s) == r;
      assert t[..|r|] == s[..|r|];
      forall i | |r| <= i < |s| ensures IsJsSpace(s[i]) {
        if i < |t| { assert s[i] == t[i]; }
      }
    }
  }

  /** `s.trim()` */
  function Trim(s: string): string
  {
    TrimEnd(TrimStart(s))
  }

  /** `!s.trim()`: the trimmed string is the empty, falsy string. */
  predicate IsBlank(s: string)
  {
    Trim(s) == []
  }

  /** A string is blank exactly when every character of it is white space. */
  lemma BlankIffAllSpace(s: string)
    ensures IsBlank(s) <==> forall i :: 0 <= i < |s| ==> IsJsSpace(s[i])
  {
    TrimStartSpec(s);
    TrimEndSpec(TrimStart(s));
  }
}
