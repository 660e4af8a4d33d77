/**
 * The four built-in checks run on every eligible field, in this order:
 * required/empty, length requirement, forbidden characters, regular
 * expression. Each yields one verdict; a failing check contributes
 * exactly one message.
 */
module Checks {
  import opened Wrappers
  import opened Js
  import opened Templates
  import opened Fields

  /** The outcome of one check: passed, or failed with the message it pushes. */
  datatype Verdict = Pass | Fail(message: Val)

  /** The messages of the failed checks, in the order the checks ran. */
  function Messages(vs: seq<Verdict>): seq<Val>
    decreases |vs|
  {
    if vs == [] then []
    else Messages(vs[..|vs| - 1]) + (if vs[|vs| - 1].Fail? then [vs[|vs| - 1].message] else [])
  }

  predicate AllPass(vs: seq<Verdict>) {
    forall i :: 0 <= i < |vs| ==> vs[i].Pass?
  }

  /** Messages are collected in check order: those of `a` come before those of `b`. */
  lemma {:induction false} MessagesAppend(a: seq<Verdict>, b: seq<Verdict>)
    ensures Messages(a + b) == Messages(a) + Messages(b)
    decreases |b|
  {
    if b == [] {
      assert a + b == a;
    } else {
      var b' := b[..|b| - 1];
      assert (a + b)[..|a + b| - 1] == a + b';
      MessagesAppend(a, b');
    }
  }

  /** A list of verdicts yields no message exactly when every check passed. */
  lemma {:induction false} NoMessagesIffAllPass(vs: seq<Verdict>)
    ensures Messages(vs) == [] <==> AllPass(vs)
    decreases |vs|
  {
    if vs != [] {
      var p := vs[..|vs| - 1];
      NoMessagesIffAllPass(p);
      assert AllPass(vs) <==> AllPass(p) && vs[|vs| - 1].Pass? by {
        if AllPass(p) && vs[|vs| - 1].Pass? {
          forall i | 0 <= i < |vs| ensures vs[i].Pass? {
            if i < |vs| - 1 { assert vs[i] == p[i]; }
          }
        }
      }
    }
  }

  /** Each failed check contributes one message and a passing one none. */
  lemma {:induction false} MessagesCount(vs: seq<Verdict>)
    ensures |Messages(vs)| <= |vs|
    ensures AllPass(vs) ==> Messages(vs) == []
    decreases |vs|
  {
    if vs != [] {
      MessagesCount(vs[..|vs| - 1]);
      var p := vs[..|vs| - 1];
      assert AllPass(vs) ==> AllPass(p) by {
        if AllPass(vs) {
          forall i | 0 <= i < |p| ensures p[i].Pass? {
            assert p[i] == vs[i];
          }
        }
      }
    }
  }

  /** Every failed check's message is among the messages. */
  lemma {:induction false} FailuresReported(vs: seq<Verdict>)
    ensures forall i :: 0 <= i < |vs| && vs[i].Fail? ==> vs[i].message in Messages(vs)
    decreases |vs|
  {
    if vs != [] {
      var p := vs[..|vs| - 1];
      FailuresReported(p);
      forall i | 0 <= i < |vs| && vs[i].Fail? ensures vs[i].message in Messages(vs) {
        if i < |p| { assert vs[i] == p[i]; }
      }
    }
  }

  // ---------------------------------------------------------------- required

  /** The required test: the resolved `required` is truthy and the field is empty. */
  function RequiredVerdict(cfg: Config, f: Field): Verdict {
    var isRequired := GetPropertyValue(Get(cfg, "required"), Get(f.data, "required"));
    if Truthy(isRequired) && IsEmpty(f) then Fail(Or(Get(f.data, "msg_empty"), Get(cfg, "msg_empty")))
    else Pass
  }

  /** A blank required field fails with the empty-field message, field override first. */
  lemma RequiredBlankFails(cfg: Config, f: Field)
    requires Truthy(GetPropertyValue(Get(cfg, "required"), Get(f.data, "required")))
    requires f.placeholder.None? && AllSpace(f.value)
    ensures RequiredVerdict(cfg, f) == Fail(Or(Get(f.data, "msg_empty"), Get(cfg, "msg_empty")))
  {
    EmptyIffBlank(f);
  }

  /**
   * `data-required="false"` on a field switches the required test off even
   * when the configuration makes every field required (and so eligible).
   */
  lemma FieldRequiredFalseWins(cfg: Config, f: Field)
    requires Truthy(Get(cfg, "required")) && Get(f.data, "required") == Bool(false)
    ensures Eligible(cfg, f) && RequiredVerdict(cfg, f) == Pass
  {
  }

  // ---------------------------------------------------------------- length

  /** The raw minimum and maximum of a length requirement, compared and printed as JavaScript would. */
  datatype Bounds = Bounds(min: Val, max: Val)

  /** `s.split("-")[0]`. */
  function BeforeDash(s: string): string {
    if |s| == 0 || s[0] == '-' then "" else [s[0]] + BeforeDash(s[1..])
  }

  /** What follows the first `-` of `s`. */
  function AfterDash(s: string): string {
    if |s| == 0 then "" else if s[0] == '-' then s[1..] else AfterDash(s[1..])
  }

  /**
   * The length requirement in force: `data-lengthreq` as `"min-max"`, or a
   * bare `"min"` read as `"min-0"`; failing that, the configuration's
   * `minLength`/`maxLength`, but only when `minlength` or `maxlength`
   * (lower case) is defined.
   */
  function LengthBounds(cfg: Config, f: Field): Option<Bounds> {
    var req := Get(f.data, "lengthreq");
    if Defined(req) then
      var s := LengthReqText(req);
      Some(Bounds(Str(BeforeDash(s)), Str(BeforeDash(AfterDash(s)))))
    else if Defined(Get(cfg, "minlength")) || Defined(Get(cfg, "maxlength")) then
      Some(Bounds(Get(cfg, "minLength"), Get(cfg, "maxLength")))
    else
      None
  }

  /** `String(lengthreq)`, with `-0` appended when it holds no dash: the text the length step splits. */
  function LengthReqText(req: Val): string {
    var s := ToJsString(req);
    if '-' in s then s else s + "-0"
  }

  /**
   * The field as the checks after the length step see it: that step writes
   * a defined `lengthreq` back into the field's data, as `LengthReqText`.
   */
  function AfterLengthStep(f: Field): Field {
    var req := Get(f.data, "lengthreq");
    if Defined(req) then f.(data := f.data["lengthreq" := Str(LengthReqText(req))]) else f
  }

  /** `len < min || (len > max && max != 0)`. */
  predicate LengthViolated(len: nat, b: Bounds) {
    LessThan(len, b.min) || (GreaterThan(len, b.max) && LooseNotZero(b.max))
  }

  /** A field opted in by `data-validate` is not length-checked while it is empty. */
  predicate LengthSkipped(f: Field) {
    Truthy(Get(f.data, "validate")) && |f.value| == 0
  }

  function LengthMessage(template: string, b: Bounds): string {
    Replace(Replace(template, "$MINLEN$", ToJsString(b.min)), "$MAXLEN$", ToJsString(b.max))
  }

  function LengthVerdict(cfg: Config, f: Field): Result<Verdict, Error> {
    match LengthBounds(cfg, f)
    case None => Ok(Pass)
    case Some(b) =>
      if LengthSkipped(f) || !LengthViolated(|f.value|, b) then Ok(Pass)
      else
        var template := Or(Get(f.data, "msg_lengthreq"), Get(cfg, "msg_lengthreq"));
        if template.Str? then Ok(Fail(Str(LengthMessage(template.s, b))))
        else Err(TypeError("length message is not a string"))
  }

  lemma {:induction false} SplitAtDash(x: string, y: string)
    requires '-' !in x
    ensures BeforeDash(x + "-" + y) == x && AfterDash(x + "-" + y) == y
    ensures BeforeDash(x) == x
    decreases |x|
  {
    if |x| == 0 {
      assert x + "-" + y == "-" + y;
    } else {
      assert (x + "-" + y)[1..] == x[1..] + "-" + y;
      assert '-' !in x[1..];
      SplitAtDash(x[1..], y);
      assert [x[0]] + x[1..] == x;
    }
  }

  lemma NumeralHasNoDash(n: nat)
    ensures '-' !in NatToString(n) && '$' !in NatToString(n)
  {
    var s := NatToString(n);
    forall i | 0 <= i < |s| ensures s[i] != '-' && s[i] != '$' {
      assert IsDigit(s[i]);
    }
  }

  /** `data-lengthreq="a-b"` requires at least `a` and at most `b` characters. */
  lemma LengthRangeParse(cfg: Config, f: Field, a: nat, b: nat)
    requires Get(f.data, "lengthreq") == Str(NatToString(a) + "-" + NatToString(b))
    ensures LengthBounds(cfg, f) == Some(Bounds(Str(NatToString(a)), Str(NatToString(b))))
    ensures ToNumber(Str(NatToString(a))) == Some(a) && ToNumber(Str(NatToString(b))) == Some(b)
  {
    NumeralHasNoDash(a);
    NumeralHasNoDash(b);
    var s := NatToString(a) + "-" + NatToString(b);
    assert s[|NatToString(a)|] == '-';
    SplitAtDash(NatToString(a), NatToString(b));
    SplitAtDash(NatToString(b), "");
    NumeralReadsBack(a);
    NumeralReadsBack(b);
  }

  /** A bare `data-lengthreq="a"` (jQuery reads it as the number `a`) means minimum `a`, maximum 0. */
  lemma LengthBareParse(cfg: Config, f: Field, a: nat)
    requires Get(f.data, "lengthreq") == Num(a) || Get(f.data, "lengthreq") == Str(NatToString(a))
    ensures LengthBounds(cfg, f) == Some(Bounds(Str(NatToString(a)), Str("0")))
    ensures ToNumber(Str(NatToString(a))) == Some(a) && ToNumber(Str("0")) == Some(0)
  {
    NumeralHasNoDash(a);
    NumeralReadsBack(a);
    NumeralReadsBack(0);
    var s := ToJsString(Get(f.data, "lengthreq"));
    assert s == NatToString(a);
    assert s + "-0" == NatToString(a) + "-" + "0";
    SplitAtDash(NatToString(a), "0");
    SplitAtDash("0", "");
  }

  /**
   * The write-back changes only `lengthreq`, and only when it is defined,
   * into a string holding a dash; a later pass reads the same bounds from
   * it and writes back nothing new.
   */
  lemma LengthWriteBackStable(cfg: Config, f: Field)
    ensures var g := AfterLengthStep(f);
      && g == f.(data := g.data)
      && (forall k :: k != "lengthreq" ==> Get(g.data, k) == Get(f.data, k))
      && (Defined(Get(f.data, "lengthreq")) ==> Get(g.data, "lengthreq").Str? && '-' in Get(g.data, "lengthreq").s)
      && (!Defined(Get(f.data, "lengthreq")) ==> g == f)
      && LengthBounds(cfg, g) == LengthBounds(cfg, f)
      && AfterLengthStep(g) == g
  {
    var req := Get(f.data, "lengthreq");
    if Defined(req) {
      var t := LengthReqText(req);
      assert '-' in t;
      assert LengthReqText(Str(t)) == t;
    }
  }

  /** A bare `data-lengthreq="a"` (or the number `a`) is written back as `"a-0"`, which the plugins then see. */
  lemma BareLengthReqWrittenBack(f: Field, a: nat)
    requires Get(f.data, "lengthreq") == Num(a) || Get(f.data, "lengthreq") == Str(NatToString(a))
    ensures Get(AfterLengthStep(f).data, "lengthreq") == Str(NatToString(a) + "-0")
  {
    NumeralHasNoDash(a);
    assert ToJsString(Get(f.data, "lengthreq")) == NatToString(a);
  }

  /**
   * With numeric bounds, the length check fails exactly when the value is
   * shorter than the minimum or, for a non-zero maximum, longer than it.
   */
  lemma LengthVerdictIff(cfg: Config, f: Field, b: Bounds, mn: int, mx: int)
    requires LengthBounds(cfg, f) == Some(b) && !LengthSkipped(f)
    requires ToNumber(b.min) == Some(mn) && ToNumber(b.max) == Some(mx) && Defined(b.max)
    ensures LengthVerdict(cfg, f) == Ok(Pass) <==> !(|f.value| < mn || (mx != 0 && |f.value| > mx))
  {
  }

  /** An opted-in field left empty is never penalised by the length requirement. */
  lemma LengthSkippedPasses(cfg: Config, f: Field)
    requires Truthy(Get(f.data, "validate")) && f.value == ""
    ensures LengthVerdict(cfg, f) == Ok(Pass)
  {
  }

  /**
   * The global length settings are gated on the lower-case keys
   * `minlength`/`maxlength`: unless a caller sets one of those, the default
   * `minLength: 1` (or any `minLength`/`maxLength` the caller passes) is never checked.
   */
  lemma GlobalLengthNeedsLowerCaseKey(options: Bag, f: Field)
    requires !Defined(Get(f.data, "lengthreq"))
    requires !Defined(Get(options, "minlength")) && !Defined(Get(options, "maxlength"))
    ensures LengthVerdict(MakeConfig(options), f) == Ok(Pass)
  {
    var cfg := MakeConfig(options);
    assert Get(Defaults(), "minlength") == Undefined && Get(Defaults(), "maxlength") == Undefined;
    assert !Defined(Get(cfg, "minlength")) && !Defined(Get(cfg, "maxlength"));
    assert LengthBounds(cfg, f) == None;
  }

  /** The default length template with both bounds filled in. */
  lemma LengthTemplateFilled(b: Bounds)
    requires '$' !in ToJsString(b.min) && '$' !in ToJsString(b.max)
    ensures LengthMessage(LengthTemplate, b)
      == LengthPrefix + ToJsString(b.min) + LengthMiddle + ToJsString(b.max) + LengthSuffix
  {
    var m, x := ToJsString(b.min), ToJsString(b.max);
    MinLenFilled(m);
    MaxLenFilled(m, x);
  }

  /** The first replacement fills `$MINLEN$`. */
  lemma MinLenFilled(m: string)
    requires '$' !in m
    ensures Replace(LengthTemplate, "$MINLEN$", m) == LengthPrefix + m + LengthMiddle + "$MAXLEN$" + LengthSuffix
  {
    var s1 := LengthMiddle + "$MAXLEN$" + LengthSuffix;
    assert LengthTemplate == LengthPrefix + "$MINLEN$" + s1;
    assert '$' !in LengthPrefix;
    ReplaceFirstPlain(LengthPrefix, "$MINLEN$", s1, m);
  }

  /** The second replacement fills `$MAXLEN$`. */
  lemma MaxLenFilled(m: string, x: string)
    requires '$' !in m && '$' !in x
    ensures Replace(LengthPrefix + m + LengthMiddle + "$MAXLEN$" + LengthSuffix, "$MAXLEN$", x)
      == LengthPrefix + m + LengthMiddle + x + LengthSuffix
  {
    var p2 := LengthPrefix + m + LengthMiddle;
    assert '$' !in LengthPrefix && '$' !in LengthMiddle;
    assert '$' !in p2;
    ReplaceFirstPlain(p2, "$MAXLEN$", LengthSuffix, x);
  }

  /** The default length message names the bounds as they were written. */
  lemma LengthDefaultMessage(cfg: Config, f: Field, b: Bounds)
    requires LengthBounds(cfg, f) == Some(b) && !LengthSkipped(f) && LengthViolated(|f.value|, b)
    requires !Truthy(Get(f.data, "msg_lengthreq")) && Get(cfg, "msg_lengthreq") == Str(LengthTemplate)
    requires '$' !in ToJsString(b.min) && '$' !in ToJsString(b.max)
    ensures LengthVerdict(cfg, f) == Ok(Fail(Str(
      LengthPrefix + ToJsString(b.min) + LengthMiddle + ToJsString(b.max) + LengthSuffix)))
  {
    LengthTemplateFilled(b);
  }

  /** `data-lengthreq="3-6"` on a two-character value: the message reads "Value must be between 3 and 6 characters long." */
  lemma LengthExample(cfg: Config, f: Field)
    requires Get(f.data, "lengthreq") == Str("3-6") && |f.value| == 2 && !LengthSkipped(f)
    requires !Truthy(Get(f.data, "msg_lengthreq")) && Get(cfg, "msg_lengthreq") == Str(LengthTemplate)
    ensures LengthVerdict(cfg, f) == Ok(Fail(Str(LengthPrefix + "3" + LengthMiddle + "6" + LengthSuffix)))
  {
    var three, six := NatToString(3), NatToString(6);
    assert three == "3" && six == "6";
    assert "3-6" == three + "-" + six;
    LengthRangeParse(cfg, f, 3, 6);
    var b := Bounds(Str(three), Str(six));
    assert LengthViolated(|f.value|, b);
    NumeralHasNoDash(3);
    NumeralHasNoDash(6);
    LengthDefaultMessage(cfg, f, b);
  }

  // ---------------------------------------------------------------- forbidden characters

  /** Some character of `chars` occurs in `val`. */
  predicate ContainsAny(val: string, chars: string) {
    exists i :: 0 <= i < |chars| && chars[i] in val
  }

  /** The scan of the forbidden set, stopping at the first character that occurs in the value. */
  method FindForbiddenChar(chars: string, val: string) returns (found: bool, at: nat)
    ensures found <==> ContainsAny(val, chars)
    ensures found ==> at < |chars| && chars[at] in val
    ensures found ==> forall k :: 0 <= k < at ==> chars[k] !in val
  {
    found, at := false, 0;
    var i := 0;
    while i < |chars|
      invariant 0 <= i <= |chars|
      invariant forall k :: 0 <= k < i ==> chars[k] !in val
    {
      if chars[i] in val {
        found, at := true, i;
        break;
      }
      i := i + 1;
    }
  }

  /**
   * The forbidden-character check: gated on either setting being defined,
   * the set is `data.invalidchars || config.invalidChars`, and `$CHARS$` is
   * filled with the field's own `data.invalidchars` whatever the set came from.
   */
  function CharsVerdict(cfg: Config, f: Field): Result<Verdict, Error> {
    var di, ci := Get(f.data, "invalidchars"), Get(cfg, "invalidChars");
    if !(Defined(di) || Defined(ci)) then Ok(Pass)
    else
      match Or(di, ci)
      case Undefined => Err(TypeError("invalid-character set is undefined"))
      case Null => Err(TypeError("invalid-character set is null"))
      case Str(cs) =>
        if ContainsAny(f.value, cs) then
          var template := Or(Get(f.data, "msg_invalidchars"), Get(cfg, "msg_invalidchars"));
          if template.Str? then Ok(Fail(Str(Replace(template.s, "$CHARS$", ToJsString(di)))))
          else Err(TypeError("invalid-character message is not a string"))
        else Ok(Pass)
      case _ => Ok(Pass)   // a number or boolean has no `length`: the scan runs zero times
  }

  /** The check fails exactly when some forbidden character occurs in the value. */
  lemma CharsVerdictIff(cfg: Config, f: Field, cs: string)
    requires Or(Get(f.data, "invalidchars"), Get(cfg, "invalidChars")) == Str(cs)
    ensures CharsVerdict(cfg, f) == Ok(Pass) <==> !ContainsAny(f.value, cs)
  {
  }

  /** The default character message has `$CHARS$` replaced by the given text. */
  lemma CharsTemplateFilled(r: string)
    requires '$' !in r
    ensures Replace(CharsTemplate, "$CHARS$", r) == CharsPrefix + r
  {
    assert CharsTemplate == CharsPrefix + "$CHARS$" + "";
    assert '$' !in CharsPrefix;
    ReplaceFirstPlain(CharsPrefix, "$CHARS$", "", r);
    assert CharsPrefix + r + "" == CharsPrefix + r;
  }

  /**
   * With the forbidden set taken from the configuration (the field's own
   * `data-invalidchars` being falsy), the default message names
   * `String(data.invalidchars)` all the same: "undefined" when the
   * attribute is absent, otherwise "null", "false", "0" or nothing.
   */
  lemma CharsFromConfigNamesDataText(cfg: Config, f: Field, cs: string)
    requires !Truthy(Get(f.data, "invalidchars")) && Get(cfg, "invalidChars") == Str(cs)
    requires ContainsAny(f.value, cs)
    requires !Truthy(Get(f.data, "msg_invalidchars")) && Get(cfg, "msg_invalidchars") == Str(CharsTemplate)
    ensures CharsVerdict(cfg, f) == Ok(Fail(Str(CharsPrefix + ToJsString(Get(f.data, "invalidchars")))))
    ensures ToJsString(Get(f.data, "invalidchars")) in {"undefined", "null", "false", "0", ""}
    ensures Get(f.data, "invalidchars") == Undefined ==> CharsVerdict(cfg, f) == Ok(Fail(Str(CharsPrefix + "undefined")))
  {
    var di := Get(f.data, "invalidchars");
    var text := ToJsString(di);
    match di {
      case Num(n) => assert n == 0 && text == "0";
      case _ =>
    }
    CharsTemplateFilled(text);
  }

  // ---------------------------------------------------------------- regular expression

  /** The pattern test, skipped for an empty value. */
  function RegexVerdict(cfg: Config, f: Field, env: Env): Verdict {
    var dr, cr := Get(f.data, "regex"), Get(cfg, "regex");
    if |f.value| != 0 && (Defined(dr) || Defined(cr)) && !env.test(Configured(Or(dr, cr)), f.value) then
      Fail(Or(Get(f.data, "msg_regex"), Get(cfg, "msg_regex")))
    else Pass
  }

  /** An empty value never fails the pattern test. */
  lemma RegexSkipsEmpty(cfg: Config, f: Field, env: Env)
    requires f.value == ""
    ensures RegexVerdict(cfg, f, env) == Pass
  {
  }
}
