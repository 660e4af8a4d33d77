/**
 * The fragment of JavaScript value semantics the validator relies on:
 * truthiness, loose comparison with `undefined` and with `0`, `||`,
 * conversion to number and to string, and `$.trim`.
 */
module Js {
  import opened Wrappers

  /**
   * A value read from a field's data bag or from the configuration object.
   * Numbers are integers (the source only ever stores counts and lengths);
   * `RegExp` is a regular-expression object such as `/^\d+$/i`.
   */
  datatype Val =
    | Undefined
    | Null
    | Bool(b: bool)
    | Num(n: int)
    | Str(s: string)
    | RegExp(source: string, flags: string)

  /**
   * An exception the code would throw; it aborts the whole validation pass.
   * `SelectorError` is jQuery's "Syntax error, unrecognized expression" for a malformed selector.
   */
  datatype Error = TypeError(site: string) | SelectorError(selector: string)

  /** The JavaScript truthiness of `v` (what `if (v)` tests). */
  predicate Truthy(v: Val) {
    match v
    case Undefined => false
    case Null => false
    case Bool(b) => b
    case Num(n) => n != 0
    case Str(s) => s != ""
    case RegExp(_, _) => true
  }

  /** `v != undefined` with loose equality, which is also false for `null`. */
  predicate Defined(v: Val) {
    !v.Undefined? && !v.Null?
  }

  /** JavaScript `a || b`: the first operand when it is truthy, otherwise the second. */
  function Or(a: Val, b: Val): Val {
    if Truthy(a) then a else b
  }

  // ---------------------------------------------------------------- whitespace

  /** A character of the JavaScript whitespace and line-terminator classes (`\s`, what `trim` removes). */
  predicate IsSpace(c: char) {
    || c == ' ' || c == '\t' || c == '\n' || c == '\r'
    || c == '\U{000B}' || c == '\U{000C}' || c == '\U{00A0}' || c == '\U{1680}'
    || ('\U{2000}' <= c <= '\U{200A}')
    || c == '\U{2028}' || c == '\U{2029}' || c == '\U{202F}' || c == '\U{205F}'
    || c == '\U{3000}' || c == '\U{FEFF}'
  }

  function TrimStart(s: string): string {
    if |s| > 0 && IsSpace(s[0]) then TrimStart(s[1..]) else s
  }

  function TrimEnd(s: string): string {
    if |s| > 0 && IsSpace(s[|s| - 1]) then TrimEnd(s[..|s| - 1]) else s
  }

  /** `$.trim(s)`: leading and trailing whitespace removed. */
  function Trim(s: string): string {
    TrimEnd(TrimStart(s))
  }

  predicate AllSpace(s: string) {
    forall i :: 0 <= i < |s| ==> IsSpace(s[i])
  }

  lemma {:induction false} TrimStartEmptyIff(s: string)
    ensures TrimStart(s) == "" <==> AllSpace(s)
  {
    if |s| > 0 && IsSpace(s[0]) {
      TrimStartEmptyIff(s[1..]);
      assert AllSpace(s) <==> AllSpace(s[1..]) by {
        if AllSpace(s[1..]) {
          forall i | 0 <= i < |s| ensures IsSpace(s[i]) {
            if i > 0 { assert s[i] == s[1..][i - 1]; }
          }
        }
      }
    }
  }

  lemma {:induction false} TrimEndOfNonEmpty(s: string)
    requires s != "" && !IsSpace(s[0])
    ensures TrimEnd(s) != ""
  {
    if IsSpace(s[|s| - 1]) {
      TrimEndOfNonEmpty(s[..|s| - 1]);
    }
  }

  /** Trimming leaves nothing exactly when every character is whitespace. */
  lemma TrimEmptyIff(s: string)
    ensures Trim(s) == "" <==> AllSpace(s)
  {
    TrimStartEmptyIff(s);
    var t := TrimStart(s);
    if t != "" {
      TrimStartShape(s);
      TrimEndOfNonEmpty(t);
    }
  }

  lemma {:induction false} TrimStartShape(s: string)
    ensures TrimStart(s) != "" ==> !IsSpace(TrimStart(s)[0])
  {
    if |s| > 0 && IsSpace(s[0]) {
      TrimStartShape(s[1..]);
    }
  }

  // ---------------------------------------------------------------- numbers

  predicate IsDigit(c: char) {
    '0' <= c <= '9'
  }

  predicate AllDigits(s: string) {
    forall i :: 0 <= i < |s| ==> IsDigit(s[i])
  }

  /** The value of a string of decimal digits (the empty string reads as 0). */
  function DigitsValue(s: string): nat
    requires AllDigits(s)
  {
    if |s| == 0 then 0
    else DigitsValue(s[..|s| - 1]) * 10 + (s[|s| - 1] as int - '0' as int)
  }

  function DigitChar(d: nat): (c: char)
    requires d < 10
    ensures IsDigit(c) && c as int - '0' as int == d
  {
    (d + '0' as int) as char
  }

  /** The decimal numeral of `n`, as `String(n)` writes it. */
  function NatToString(n: nat): (r: string)
    ensures |r| > 0 && AllDigits(r)
  {
    if n < 10 then [DigitChar(n)] else NatToString(n / 10) + [DigitChar(n % 10)]
  }

  function IntToString(n: int): string {
    if n < 0 then "-" + NatToString(-n) else NatToString(n)
  }

  /** A numeral reads back as the number it was written from. */
  lemma {:induction false} DigitsRoundTrip(n: nat)
    ensures DigitsValue(NatToString(n)) == n
  {
    var s := NatToString(n);
    if n < 10 {
      assert s[..|s| - 1] == [];
    } else {
      assert s[..|s| - 1] == NatToString(n / 10);
      DigitsRoundTrip(n / 10);
    }
  }

  /**
   * JavaScript's conversion of a string to a number, for the integer
   * numerals the validator meets: surrounding whitespace is ignored, the
   * empty string is 0, an optional sign is allowed; anything else is NaN,
   * written `None`.
   */
  function StringToNumber(s: string): Option<int> {
    var t := Trim(s);
    if t == "" then Some(0)
    else if AllDigits(t) then Some(DigitsValue(t))
    else if |t| > 1 && t[0] == '-' && AllDigits(t[1..]) then Some(-(DigitsValue(t[1..]) as int))
    else if |t| > 1 && t[0] == '+' && AllDigits(t[1..]) then Some(DigitsValue(t[1..]))
    else None
  }

  /** JavaScript `Number(v)`; `None` is NaN. */
  function ToNumber(v: Val): Option<int> {
    match v
    case Undefined => None
    case Null => Some(0)
    case Bool(b) => Some(if b then 1 else 0)
    case Num(n) => Some(n)
    case Str(s) => StringToNumber(s)
    case RegExp(_, _) => None
  }

  /** JavaScript `String(v)`. */
  function ToJsString(v: Val): string {
    match v
    case Undefined => "undefined"
    case Null => "null"
    case Bool(b) => if b then "true" else "false"
    case Num(n) => IntToString(n)
    case Str(s) => s
    case RegExp(source, flags) => "/" + source + "/" + flags
  }

  /** `x < v` for a number `x`: false whenever `v` converts to NaN. */
  predicate LessThan(x: int, v: Val) {
    var n := ToNumber(v);
    n.Some? && x < n.value
  }

  /** `x > v` for a number `x`: false whenever `v` converts to NaN. */
  predicate GreaterThan(x: int, v: Val) {
    var n := ToNumber(v);
    n.Some? && x > n.value
  }

  /** `v != 0` with loose equality: `undefined` and `null` are never equal to 0. */
  predicate LooseNotZero(v: Val) {
    match v
    case Undefined => true
    case Null => true
    case _ => ToNumber(v) != Some(0)
  }

  lemma {:induction false} TrimDigits(s: string)
    requires AllDigits(s)
    ensures Trim(s) == s
  {
    if |s| > 0 {
      assert !IsSpace(s[0]);
      assert !IsSpace(s[|s| - 1]);
    }
  }

  /** `Number(String(n))` is `n` for every natural number. */
  lemma NumeralReadsBack(n: nat)
    ensures StringToNumber(NatToString(n)) == Some(n)
    ensures ToNumber(Str(NatToString(n))) == Some(n)
    ensures ToNumber(Num(n)) == Some(n) && ToJsString(Num(n)) == NatToString(n)
  {
    TrimDigits(NatToString(n));
    DigitsRoundTrip(n);
  }
}
