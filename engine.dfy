/**
 * `jQuery.fn.Validate`: every eligible field runs the built-in checks, the
 * registered plugins and the custom checks; the pass collects the failing
 * fields and their messages and answers with a bool or a report object.
 */
module Engine {
  import opened Wrappers
  import opened Js
  import opened Fields
  import opened Checks
  import opened Plugins

  // ---------------------------------------------------------------- custom checks

  /** A custom check answers whether the field passed and may leave a `message` on its parameter. */
  datatype CustomResult = CustomResult(passed: bool, message: Val)

  type CustomCheck = Field -> CustomResult

  function CustomVerdict(c: CustomCheck, f: Field): Verdict {
    if c(f).passed then Pass else Fail(c(f).message)
  }

  function CustomVerdicts(cs: seq<CustomCheck>, f: Field): seq<Verdict>
    decreases |cs|
  {
    if cs == [] then [] else CustomVerdicts(cs[..|cs| - 1], f) + [CustomVerdict(cs[|cs| - 1], f)]
  }

  // ---------------------------------------------------------------- one field

  /** The per-field outcome: whether every check passed, and the messages of those that did not. */
  datatype FieldResult = FieldResult(valid: bool, messages: seq<Val>)

  /**
   * The verdicts of one field, in the order the checks run; an exception
   * aborts the pass. The plugins and the custom checks see the data as the
   * length step left it; the character and pattern checks read no key that
   * step rewrites (`LengthWriteBackStable`).
   */
  function FieldVerdicts(cfg: Config, f: Field, plugins: seq<Plugin>, customs: seq<CustomCheck>, env: Env)
    : Result<seq<Verdict>, Error>
  {
    var length :- LengthVerdict(cfg, f);
    var seen := AfterLengthStep(f);
    var chars :- CharsVerdict(cfg, f);
    var pluginVerdicts :- PluginVerdicts(plugins, cfg, seen, env);
    Ok([RequiredVerdict(cfg, f), length, chars, RegexVerdict(cfg, f, env)] + pluginVerdicts + CustomVerdicts(customs, seen))
  }

  function FieldOutcome(cfg: Config, f: Field, plugins: seq<Plugin>, customs: seq<CustomCheck>, env: Env)
    : Result<FieldResult, Error>
  {
    var vs :- FieldVerdicts(cfg, f, plugins, customs, env);
    Ok(FieldResult(AllPass(vs), Messages(vs)))
  }

  /** Adding one verdict adds its message, if it failed, and clears validity, if it failed. */
  lemma VerdictAppended(vs: seq<Verdict>, v: Verdict)
    ensures Messages(vs + [v]) == Messages(vs) + (if v.Fail? then [v.message] else [])
    ensures AllPass(vs + [v]) <==> AllPass(vs) && v.Pass?
  {
    assert (vs + [v])[..|vs|] == vs;
    assert (vs + [v])[|vs|] == v;
  }

  /** The forbidden-character check as the source runs it: a scan of the set that stops at the first hit. */
  method CheckChars(cfg: Config, f: Field) returns (r: Result<Verdict, Error>)
    ensures r == CharsVerdict(cfg, f)
  {
    var di, ci := Get(f.data, "invalidchars"), Get(cfg, "invalidChars");
    if !(Defined(di) || Defined(ci)) {
      return Ok(Pass);
    }
    var chars := Or(di, ci);
    if chars.Undefined? {
      return Err(TypeError("invalid-character set is undefined"));
    } else if chars.Null? {
      return Err(TypeError("invalid-character set is null"));
    } else if !chars.Str? {
      return Ok(Pass);
    }
    var found, _ := FindForbiddenChar(chars.s, f.value);
    if !found {
      return Ok(Pass);
    }
    var template := Or(Get(f.data, "msg_invalidchars"), Get(cfg, "msg_invalidchars"));
    if !template.Str? {
      return Err(TypeError("invalid-character message is not a string"));
    }
    r := Ok(Fail(Str(Templates.Replace(template.s, "$CHARS$", ToJsString(di)))));
  }

  /** One plugin on one field: skipped unless one of its keys is defined; the mutator runs only on failure. */
  method ApplyPlugin(p: Plugin, cfg: Config, f: Field, env: Env) returns (v: Result<Verdict, Error>)
    ensures v == PluginVerdict(p, cfg, f, env)
  {
    if !PluginApplies(p, cfg, f) {
      return Ok(Pass);
    }
    var params := PluginParams(f, PropertyValue(p, cfg, f), cfg);
    var passed :- RunMethod(p.check, params, env);
    if passed {
      return Ok(Pass);
    }
    var message :- Mutate(p.messageMutator, params, ErrorMessage(p, cfg, f));
    v := Ok(Fail(message));
  }

  /** The plugin loop: each registered plugin in turn, adding its message when it fails. */
  method ApplyPlugins(cfg: Config, f: Field, plugins: seq<Plugin>, env: Env,
                      valid0: bool, messages0: seq<Val>, ghost vs0: seq<Verdict>)
    returns (r: Result<FieldResult, Error>)
    requires valid0 == AllPass(vs0) && messages0 == Messages(vs0)
    ensures PluginVerdicts(plugins, cfg, f, env).Err? ==> r == Err(PluginVerdicts(plugins, cfg, f, env).error)
    ensures PluginVerdicts(plugins, cfg, f, env).Ok? ==>
      var vs := vs0 + PluginVerdicts(plugins, cfg, f, env).value;
      r == Ok(FieldResult(AllPass(vs), Messages(vs)))
  {
    var thisValid, messages := valid0, messages0;
    ghost var vs := vs0;
    var i := 0;
    while i < |plugins|
      invariant 0 <= i <= |plugins|
      invariant PluginVerdicts(plugins[..i], cfg, f, env).Ok?
      invariant vs == vs0 + PluginVerdicts(plugins[..i], cfg, f, env).value
      invariant messages == Messages(vs) && thisValid == AllPass(vs)
    {
      var v := ApplyPlugin(plugins[i], cfg, f, env);
      PluginVerdictsStep(plugins, i, cfg, f, env);
      if v.Err? {
        assert PluginVerdicts(plugins, cfg, f, env) == Err(v.error);
        return Err(v.error);
      }
      if v.value.Fail? {
        thisValid := false;
        messages := messages + [v.value.message];
      }
      VerdictAppended(vs, v.value);
      vs := vs + [v.value];
      i := i + 1;
    }
    assert plugins[..i] == plugins;
    r := Ok(FieldResult(thisValid, messages));
  }

  /** The custom-check loop: a failing check adds whatever message it left. */
  method ApplyCustoms(f: Field, customs: seq<CustomCheck>, valid0: bool, messages0: seq<Val>, ghost vs0: seq<Verdict>)
    returns (thisValid: bool, messages: seq<Val>)
    requires valid0 == AllPass(vs0) && messages0 == Messages(vs0)
    ensures thisValid == AllPass(vs0 + CustomVerdicts(customs, f))
    ensures messages == Messages(vs0 + CustomVerdicts(customs, f))
  {
    thisValid, messages := valid0, messages0;
    ghost var vs := vs0;
    var j := 0;
    while j < |customs|
      invariant 0 <= j <= |customs|
      invariant vs == vs0 + CustomVerdicts(customs[..j], f)
      invariant messages == Messages(vs) && thisValid == AllPass(vs)
    {
      assert customs[..j + 1][..j] == customs[..j];
      var result := customs[j](f);
      if !result.passed {
        thisValid := false;
        messages := messages + [result.message];
      }
      VerdictAppended(vs, CustomVerdict(customs[j], f));
      vs := vs + [CustomVerdict(customs[j], f)];
      j := j + 1;
    }
    assert customs[..j] == customs;
  }

  /** The validation of one eligible field, check by check, as the loop body of `Validate` runs it. */
  method ValidateField(cfg: Config, f: Field, plugins: seq<Plugin>, customs: seq<CustomCheck>, env: Env)
    returns (r: Result<FieldResult, Error>)
    ensures r == FieldOutcome(cfg, f, plugins, customs, env)
  {
    var required := RequiredVerdict(cfg, f);
    var length :- LengthVerdict(cfg, f);
    var seen := AfterLengthStep(f);
    var chars :- CheckChars(cfg, f);
    var regex := RegexVerdict(cfg, f, env);
    var builtIns := [required, length, chars, regex];
    var withPlugins :- ApplyPlugins(cfg, seen, plugins, env, AllPass(builtIns), Messages(builtIns), builtIns);
    ghost var vs := builtIns + PluginVerdicts(plugins, cfg, seen, env).value;
    var thisValid, messages := ApplyCustoms(seen, customs, withPlugins.valid, withPlugins.messages, vs);
    r := Ok(FieldResult(thisValid, messages));
  }

  // ---------------------------------------------------------------- the whole pass

  datatype InvalidInput = InvalidInput(elem: Field, messages: seq<Val>)

  /** The object `Validate` returns when `returnBool` is falsy. */
  datatype Report = Report(valid: bool, validInputs: seq<Field>, invalidInputs: seq<InvalidInput>, messages: seq<Val>)

  datatype Output = BoolResult(b: bool) | ObjectResult(report: Report)

  const EmptyReport := Report(true, [], [], [])

  /** The validation of one eligible field, as the pass sees it. */
  type FieldCheck = Field -> Result<FieldResult, Error>

  /** The per-field validation under configuration `cfg`, with the given plugins and custom checks. */
  function FieldChecker(cfg: Config, plugins: seq<Plugin>, customs: seq<CustomCheck>, env: Env): FieldCheck {
    g => FieldOutcome(cfg, g, plugins, customs, env)
  }

  /** One field's contribution to the report; a field nobody asked to validate is skipped. */
  function Step(rep: Report, cfg: Config, f: Field, check: FieldCheck)
    : Result<Report, Error>
  {
    if !Eligible(cfg, f) then Ok(rep)
    else
      var fr :- check(f);
      if fr.valid then Ok(rep.(validInputs := rep.validInputs + [f]))
      else Ok(Report(false, rep.validInputs, rep.invalidInputs + [InvalidInput(f, fr.messages)], rep.messages + fr.messages))
  }

  function Run(fields: seq<Field>, cfg: Config, check: FieldCheck)
    : Result<Report, Error>
    decreases |fields|
  {
    if fields == [] then Ok(EmptyReport)
    else
      var rep :- Run(fields[..|fields| - 1], cfg, check);
      Step(rep, cfg, fields[|fields| - 1], check)
  }

  /** The answer of `Validate(options)`: a bool when `returnBool` is truthy, the report otherwise. */
  function Outcome(fields: seq<Field>, options: Bag, plugins: seq<Plugin>, customs: seq<CustomCheck>, env: Env)
    : Result<Output, Error>
  {
    var cfg := MakeConfig(options);
    var rep :- Run(fields, cfg, FieldChecker(cfg, plugins, customs, env));
    if Truthy(Get(cfg, "returnBool")) then Ok(BoolResult(rep.valid)) else Ok(ObjectResult(rep))
  }

  /** Once a prefix of the fields throws, the whole pass throws the same error. */
  lemma {:induction false} RunErrorPersists(fields: seq<Field>, k: nat, cfg: Config, check: FieldCheck)
    requires k <= |fields| && Run(fields[..k], cfg, check).Err?
    ensures Run(fields, cfg, check) == Run(fields[..k], cfg, check)
    decreases |fields|
  {
    if k == |fields| {
      assert fields[..k] == fields;
    } else {
      var init := fields[..|fields| - 1];
      assert init[..k] == fields[..k];
      RunErrorPersists(init, k, cfg, check);
    }
  }

  /** The loop of `Validate` over the selected fields, building the report in place. */
  method ValidateFields(fields: seq<Field>, cfg: Config, plugins: seq<Plugin>, customs: seq<CustomCheck>, env: Env)
    returns (r: Result<Report, Error>)
    ensures r == Run(fields, cfg, FieldChecker(cfg, plugins, customs, env))
  {
    ghost var check := FieldChecker(cfg, plugins, customs, env);
    var allValid := true;
    var validInputs: seq<Field> := [];
    var invalidInputs: seq<InvalidInput> := [];
    var messages: seq<Val> := [];
    var k := 0;
    while k < |fields|
      invariant 0 <= k <= |fields|
      invariant Run(fields[..k], cfg, check) == Ok(Report(allValid, validInputs, invalidInputs, messages))
    {
      var f := fields[k];
      assert fields[..k + 1] == fields[..k] + [f];
      RunSnoc(fields[..k], f, cfg, check);
      if Eligible(cfg, f) {
        var fr := ValidateField(cfg, f, plugins, customs, env);
        if fr.Err? {
          assert check(f) == fr;
          assert Run(fields[..k + 1], cfg, check).Err?;
          RunErrorPersists(fields, k + 1, cfg, check);
          return Err(fr.error);
        }
        if fr.value.valid {
          validInputs := validInputs + [f];
        } else {
          allValid := false;
          invalidInputs := invalidInputs + [InvalidInput(f, fr.value.messages)];
          messages := messages + fr.value.messages;
        }
      }
      k := k + 1;
    }
    assert fields[..k] == fields;
    r := Ok(Report(allValid, validInputs, invalidInputs, messages));
  }

  /** `jQuery.fn.Validate` over the selected fields, with the plugins of `registry`. */
  method Validate(fields: seq<Field>, options: Bag, registry: Registry, customs: seq<CustomCheck>, env: Env)
    returns (r: Result<Output, Error>)
    ensures r == Outcome(fields, options, registry.plugins, customs, env)
  {
    var cfg := MakeConfig(options);
    var rep :- ValidateFields(fields, cfg, registry.plugins, customs, env);
    if Truthy(Get(cfg, "returnBool")) {
      r := Ok(BoolResult(rep.valid));
    } else {
      r := Ok(ObjectResult(rep));
    }
  }

  // ---------------------------------------------------------------- properties of one field

  /** A custom check contributes exactly one verdict, failing exactly when it answers false. */
  lemma {:induction false} CustomVerdictsEach(cs: seq<CustomCheck>, f: Field)
    ensures |CustomVerdicts(cs, f)| == |cs|
    ensures forall i :: 0 <= i < |cs| ==> CustomVerdicts(cs, f)[i] == CustomVerdict(cs[i], f)
    decreases |cs|
  {
    if cs != [] {
      CustomVerdictsEach(cs[..|cs| - 1], f);
    }
  }

  /** A field is valid exactly when it produced no message. */
  lemma FieldValidIffNoMessages(cfg: Config, f: Field, plugins: seq<Plugin>, customs: seq<CustomCheck>, env: Env)
    requires FieldOutcome(cfg, f, plugins, customs, env).Ok?
    ensures var r := FieldOutcome(cfg, f, plugins, customs, env).value; r.valid <==> r.messages == []
  {
    NoMessagesIffAllPass(FieldVerdicts(cfg, f, plugins, customs, env).value);
  }

  /** Validating a field throws exactly when the length check, the character check or some plugin throws. */
  lemma FieldOutcomeOkIff(cfg: Config, f: Field, plugins: seq<Plugin>, customs: seq<CustomCheck>, env: Env)
    ensures FieldOutcome(cfg, f, plugins, customs, env).Ok? <==>
      LengthVerdict(cfg, f).Ok? && CharsVerdict(cfg, f).Ok?
      && forall i :: 0 <= i < |plugins| ==> PluginVerdict(plugins[i], cfg, AfterLengthStep(f), env).Ok?
  {
    PluginVerdictsEach(plugins, cfg, AfterLengthStep(f), env);
  }

  /** A failing custom check makes the field invalid and its message is reported. */
  lemma CustomFailureReported(cfg: Config, f: Field, plugins: seq<Plugin>, customs: seq<CustomCheck>, env: Env, i: nat)
    requires FieldOutcome(cfg, f, plugins, customs, env).Ok?
    requires i < |customs| && !customs[i](AfterLengthStep(f)).passed
    ensures var r := FieldOutcome(cfg, f, plugins, customs, env).value;
      !r.valid && customs[i](AfterLengthStep(f)).message in r.messages
  {
    var vs := FieldVerdicts(cfg, f, plugins, customs, env).value;
    CustomVerdictsEach(customs, AfterLengthStep(f));
    var k := |vs| - |customs| + i;
    assert vs[k] == CustomVerdict(customs[i], AfterLengthStep(f));
    FailuresReported(vs);
  }

  /** A required field left empty is invalid, and the required message comes first. */
  lemma RequiredMessageFirst(cfg: Config, f: Field, plugins: seq<Plugin>, customs: seq<CustomCheck>, env: Env)
    requires Truthy(GetPropertyValue(Get(cfg, "required"), Get(f.data, "required"))) && IsEmpty(f)
    requires FieldOutcome(cfg, f, plugins, customs, env).Ok?
    ensures var r := FieldOutcome(cfg, f, plugins, customs, env).value;
      !r.valid && |r.messages| > 0 && r.messages[0] == Or(Get(f.data, "msg_empty"), Get(cfg, "msg_empty"))
  {
    var vs := FieldVerdicts(cfg, f, plugins, customs, env).value;
    var first := RequiredVerdict(cfg, f);
    assert vs == [first] + vs[1..];
    MessagesAppend([first], vs[1..]);
    assert Messages([first]) == [first.message] by {
      assert [first][..0] == [];
    }
    assert vs[0].Fail?;
  }

  /**
   * The messages come in check order: required, length, characters, pattern, then the plugins
   * in registration order, then the custom checks; each check adds at most one.
   */
  lemma FieldMessagesInCheckOrder(cfg: Config, f: Field, plugins: seq<Plugin>, customs: seq<CustomCheck>, env: Env)
    requires FieldOutcome(cfg, f, plugins, customs, env).Ok?
    ensures var r := FieldOutcome(cfg, f, plugins, customs, env).value;
      r.messages ==
        Messages([RequiredVerdict(cfg, f), LengthVerdict(cfg, f).value, CharsVerdict(cfg, f).value, RegexVerdict(cfg, f, env)])
        + Messages(PluginVerdicts(plugins, cfg, AfterLengthStep(f), env).value)
        + Messages(CustomVerdicts(customs, AfterLengthStep(f)))
      && |r.messages| <= 4 + |plugins| + |customs|
  {
    var base := [RequiredVerdict(cfg, f), LengthVerdict(cfg, f).value, CharsVerdict(cfg, f).value, RegexVerdict(cfg, f, env)];
    var pv := PluginVerdicts(plugins, cfg, AfterLengthStep(f), env).value;
    var cv := CustomVerdicts(customs, AfterLengthStep(f));
    MessagesAppend(base + pv, cv);
    MessagesAppend(base, pv);
    PluginVerdictsEach(plugins, cfg, AfterLengthStep(f), env);
    CustomVerdictsEach(customs, AfterLengthStep(f));
    MessagesCount(base + pv + cv);
  }

  /** Plugins and custom checks only add messages after those of the built-in checks. */
  lemma ExtrasOnlyAddMessages(cfg: Config, f: Field, plugins: seq<Plugin>, customs: seq<CustomCheck>, env: Env)
    requires FieldOutcome(cfg, f, plugins, customs, env).Ok?
    ensures FieldOutcome(cfg, f, [], [], env).Ok?
    ensures var r, r0 := FieldOutcome(cfg, f, plugins, customs, env).value, FieldOutcome(cfg, f, [], [], env).value;
      (r.valid ==> r0.valid) && r0.messages <= r.messages
  {
    var vs := FieldVerdicts(cfg, f, plugins, customs, env).value;
    var base := [RequiredVerdict(cfg, f), LengthVerdict(cfg, f).value, CharsVerdict(cfg, f).value, RegexVerdict(cfg, f, env)];
    var rest := PluginVerdicts(plugins, cfg, AfterLengthStep(f), env).value + CustomVerdicts(customs, AfterLengthStep(f));
    assert vs == base + rest;
    assert base + [] + CustomVerdicts([], AfterLengthStep(f)) == base;
    assert forall i :: 0 <= i < |base| ==> vs[i] == base[i];
    MessagesAppend(base, rest);
  }

  // ---------------------------------------------------------------- properties of the pass

  /** The messages of the invalid inputs, concatenated in order. */
  function AllMessages(invalid: seq<InvalidInput>): seq<Val>
    decreases |invalid|
  {
    if invalid == [] then [] else AllMessages(invalid[..|invalid| - 1]) + invalid[|invalid| - 1].messages
  }

  /** The fields the pass looks at. */
  function EligibleOnly(cfg: Config, fields: seq<Field>): seq<Field>
    decreases |fields|
  {
    if fields == [] then []
    else EligibleOnly(cfg, fields[..|fields| - 1]) + (if Eligible(cfg, fields[|fields| - 1]) then [fields[|fields| - 1]] else [])
  }

  /** Validating one more field is one more step on the report of the fields before it. */
  lemma RunSnoc(fields: seq<Field>, f: Field, cfg: Config, check: FieldCheck)
    ensures Run(fields + [f], cfg, check) ==
      (var rep :- Run(fields, cfg, check); Step(rep, cfg, f, check))
  {
    assert (fields + [f])[..|fields|] == fields;
  }

  /**
   * The report is valid exactly when no input is invalid, its messages are those of the invalid
   * inputs in order, and the two lists together hold one entry per eligible field.
   */
  lemma {:induction false} RunReport(fields: seq<Field>, cfg: Config, check: FieldCheck)
    requires Run(fields, cfg, check).Ok?
    ensures var rep := Run(fields, cfg, check).value;
      && (rep.valid <==> rep.invalidInputs == [])
      && rep.messages == AllMessages(rep.invalidInputs)
      && |rep.validInputs| + |rep.invalidInputs| == |EligibleOnly(cfg, fields)|
    decreases |fields|
  {
    RunCount(fields, cfg, check);
    if fields != [] {
      var init, f := fields[..|fields| - 1], fields[|fields| - 1];
      RunReport(init, cfg, check);
      var r0 := Run(init, cfg, check).value;
      var rep := Run(fields, cfg, check).value;
      if Eligible(cfg, f) && !check(f).value.valid {
        var fr := check(f).value;
        assert rep.invalidInputs == r0.invalidInputs + [InvalidInput(f, fr.messages)];
        assert rep.invalidInputs[..|rep.invalidInputs| - 1] == r0.invalidInputs;
      }
    }
  }

  /** The eligible fields the check finds valid, in field order. */
  function PassingFields(cfg: Config, fields: seq<Field>, check: FieldCheck): seq<Field>
    decreases |fields|
  {
    if fields == [] then []
    else
      var f := fields[|fields| - 1];
      PassingFields(cfg, fields[..|fields| - 1], check)
      + (if Eligible(cfg, f) && check(f).Ok? && check(f).value.valid then [f] else [])
  }

  /** The eligible fields the check finds invalid, each with its messages, in field order. */
  function FailingFields(cfg: Config, fields: seq<Field>, check: FieldCheck): seq<InvalidInput>
    decreases |fields|
  {
    if fields == [] then []
    else
      var f := fields[|fields| - 1];
      FailingFields(cfg, fields[..|fields| - 1], check)
      + (if Eligible(cfg, f) && check(f).Ok? && !check(f).value.valid then [InvalidInput(f, check(f).value.messages)] else [])
  }

  /**
   * The report lists exactly the eligible valid fields and exactly the
   * eligible invalid ones, each in field order, and its messages are the
   * invalid fields' messages concatenated in that order.
   */
  lemma {:induction false} RunListsInOrder(fields: seq<Field>, cfg: Config, check: FieldCheck)
    requires Run(fields, cfg, check).Ok?
    ensures var rep := Run(fields, cfg, check).value;
      && rep.validInputs == PassingFields(cfg, fields, check)
      && rep.invalidInputs == FailingFields(cfg, fields, check)
      && rep.messages == AllMessages(FailingFields(cfg, fields, check))
    decreases |fields|
  {
    if fields != [] {
      RunListsInOrder(fields[..|fields| - 1], cfg, check);
    }
    RunReport(fields, cfg, check);
  }

  /** Every eligible field the check finds valid is among the passing fields. */
  lemma {:induction false} PassingFieldsComplete(cfg: Config, fields: seq<Field>, check: FieldCheck)
    ensures forall i :: 0 <= i < |fields| && Eligible(cfg, fields[i]) && check(fields[i]).Ok? && check(fields[i]).value.valid ==>
      fields[i] in PassingFields(cfg, fields, check)
    decreases |fields|
  {
    if fields != [] {
      var init := fields[..|fields| - 1];
      PassingFieldsComplete(cfg, init, check);
      assert forall i :: 0 <= i < |init| ==> init[i] == fields[i];
    }
  }

  /** Every eligible field the check finds invalid is among the failing fields, with its messages. */
  lemma {:induction false} FailingFieldsComplete(cfg: Config, fields: seq<Field>, check: FieldCheck)
    ensures forall i :: 0 <= i < |fields| && Eligible(cfg, fields[i]) && check(fields[i]).Ok? && !check(fields[i]).value.valid ==>
      InvalidInput(fields[i], check(fields[i]).value.messages) in FailingFields(cfg, fields, check)
    decreases |fields|
  {
    if fields != [] {
      var init := fields[..|fields| - 1];
      FailingFieldsComplete(cfg, init, check);
      assert forall i :: 0 <= i < |init| ==> init[i] == fields[i];
    }
  }

  /** No eligible field is missing from the report: a valid one is listed as valid, an invalid one with its messages. */
  lemma EveryEligibleFieldListed(fields: seq<Field>, cfg: Config, check: FieldCheck)
    requires Run(fields, cfg, check).Ok?
    ensures var rep := Run(fields, cfg, check).value;
      forall i :: 0 <= i < |fields| && Eligible(cfg, fields[i]) ==>
        check(fields[i]).Ok?
        && (check(fields[i]).value.valid ==> fields[i] in rep.validInputs)
        && (!check(fields[i]).value.valid ==> InvalidInput(fields[i], check(fields[i]).value.messages) in rep.invalidInputs)
  {
    RunOkIff(fields, cfg, check);
    RunListsInOrder(fields, cfg, check);
    PassingFieldsComplete(cfg, fields, check);
    FailingFieldsComplete(cfg, fields, check);
  }

  /** Each eligible field adds exactly one entry to one of the two lists. */
  lemma {:induction false} RunCount(fields: seq<Field>, cfg: Config, check: FieldCheck)
    requires Run(fields, cfg, check).Ok?
    ensures var rep := Run(fields, cfg, check).value;
      |rep.validInputs| + |rep.invalidInputs| == |EligibleOnly(cfg, fields)|
    decreases |fields|
  {
    if fields != [] {
      var init, f := fields[..|fields| - 1], fields[|fields| - 1];
      RunCount(init, cfg, check);
      var r0 := Run(init, cfg, check).value;
      assert Run(fields, cfg, check) == Step(r0, cfg, f, check);
      assert EligibleOnly(cfg, fields) == EligibleOnly(cfg, init) + (if Eligible(cfg, f) then [f] else []);
    }
  }

  /** Every input listed as valid is an eligible field of the pass that the check found valid. */
  lemma {:induction false} ValidInputsListed(fields: seq<Field>, cfg: Config, check: FieldCheck)
    requires Run(fields, cfg, check).Ok?
    ensures var rep := Run(fields, cfg, check).value;
      forall i :: 0 <= i < |rep.validInputs| ==>
        rep.validInputs[i] in fields && Eligible(cfg, rep.validInputs[i])
        && check(rep.validInputs[i]).Ok? && check(rep.validInputs[i]).value.valid
    decreases |fields|
  {
    if fields != [] {
      var init, f := fields[..|fields| - 1], fields[|fields| - 1];
      ValidInputsListed(init, cfg, check);
      assert forall g :: g in init ==> g in fields;
    }
  }

  /** Every input listed as invalid is an eligible field of the pass, listed with its messages. */
  lemma {:induction false} InvalidInputsListed(fields: seq<Field>, cfg: Config, check: FieldCheck)
    requires Run(fields, cfg, check).Ok?
    ensures var rep := Run(fields, cfg, check).value;
      forall i :: 0 <= i < |rep.invalidInputs| ==>
        rep.invalidInputs[i].elem in fields && Eligible(cfg, rep.invalidInputs[i].elem)
        && check(rep.invalidInputs[i].elem)
           == Ok(FieldResult(false, rep.invalidInputs[i].messages))
    decreases |fields|
  {
    if fields != [] {
      var init, f := fields[..|fields| - 1], fields[|fields| - 1];
      InvalidInputsListed(init, cfg, check);
      assert forall g :: g in init ==> g in fields;
    }
  }

  /** A field that is not opted in is listed neither as valid nor as invalid. */
  lemma IneligibleNotListed(fields: seq<Field>, cfg: Config, check: FieldCheck, g: Field)
    requires Run(fields, cfg, check).Ok? && !Eligible(cfg, g)
    ensures var rep := Run(fields, cfg, check).value;
      g !in rep.validInputs && forall i :: 0 <= i < |rep.invalidInputs| ==> rep.invalidInputs[i].elem != g
  {
    ValidInputsListed(fields, cfg, check);
    InvalidInputsListed(fields, cfg, check);
  }

  /** The pass throws exactly when validating some eligible field throws. */
  lemma {:induction false} RunOkIff(fields: seq<Field>, cfg: Config, check: FieldCheck)
    ensures Run(fields, cfg, check).Ok? <==>
      forall i :: 0 <= i < |fields| && Eligible(cfg, fields[i]) ==> check(fields[i]).Ok?
    decreases |fields|
  {
    if fields != [] {
      var init := fields[..|fields| - 1];
      RunOkIff(init, cfg, check);
      assert forall i :: 0 <= i < |init| ==> init[i] == fields[i];
    }
  }

  /** The pass is valid exactly when every eligible field is valid. */
  lemma {:induction false} RunValidIff(fields: seq<Field>, cfg: Config, check: FieldCheck)
    requires Run(fields, cfg, check).Ok?
    ensures Run(fields, cfg, check).value.valid <==>
      forall i :: 0 <= i < |fields| && Eligible(cfg, fields[i]) ==>
        check(fields[i]).Ok? && check(fields[i]).value.valid
    decreases |fields|
  {
    if fields != [] {
      var init, f := fields[..|fields| - 1], fields[|fields| - 1];
      RunValidIff(init, cfg, check);
      StepValid(Run(init, cfg, check).value, cfg, f, check);
      assert forall i :: 0 <= i < |init| ==> init[i] == fields[i];
    }
  }

  /** One step keeps the report valid exactly when the field is not opted in or is valid. */
  lemma StepValid(rep: Report, cfg: Config, f: Field, check: FieldCheck)
    requires Step(rep, cfg, f, check).Ok?
    ensures Step(rep, cfg, f, check).value.valid <==>
      rep.valid && (Eligible(cfg, f) ==> check(f).value.valid)
    ensures Eligible(cfg, f) ==> check(f).Ok?
  {
  }

  /** Fields that are not opted in do not affect the report at all. */
  lemma {:induction false} RunIgnoresIneligible(fields: seq<Field>, cfg: Config, check: FieldCheck)
    ensures Run(fields, cfg, check) == Run(EligibleOnly(cfg, fields), cfg, check)
    decreases |fields|
  {
    if fields != [] {
      var init, f := fields[..|fields| - 1], fields[|fields| - 1];
      RunIgnoresIneligible(init, cfg, check);
      assert fields == init + [f];
      RunSnoc(init, f, cfg, check);
      var e0 := EligibleOnly(cfg, init);
      if Eligible(cfg, f) {
        assert EligibleOnly(cfg, fields) == e0 + [f];
        RunSnoc(e0, f, cfg, check);
      } else {
        assert EligibleOnly(cfg, fields) == e0 + [];
        assert EligibleOnly(cfg, fields) == e0;
        assert Run(fields, cfg, check) == Run(init, cfg, check);
      }
    }
  }

  /** With no field opted in, the pass is valid and the report is empty. */
  lemma NothingEligibleIsValid(fields: seq<Field>, cfg: Config, check: FieldCheck)
    requires forall i :: 0 <= i < |fields| ==> !Eligible(cfg, fields[i])
    ensures Run(fields, cfg, check) == Ok(EmptyReport)
  {
    RunIgnoresIneligible(fields, cfg, check);
    NoneEligible(fields, cfg);
  }

  lemma {:induction false} NoneEligible(fields: seq<Field>, cfg: Config)
    requires forall i :: 0 <= i < |fields| ==> !Eligible(cfg, fields[i])
    ensures EligibleOnly(cfg, fields) == []
    decreases |fields|
  {
    if fields != [] {
      NoneEligible(fields[..|fields| - 1], cfg);
    }
  }

  /** Under the real field validation, every input listed as valid produced no message. */
  lemma ValidInputsHaveNoMessages(fields: seq<Field>, cfg: Config, plugins: seq<Plugin>, customs: seq<CustomCheck>, env: Env)
    requires Run(fields, cfg, FieldChecker(cfg, plugins, customs, env)).Ok?
    ensures var rep := Run(fields, cfg, FieldChecker(cfg, plugins, customs, env)).value;
      forall i :: 0 <= i < |rep.validInputs| ==>
        FieldOutcome(cfg, rep.validInputs[i], plugins, customs, env) == Ok(FieldResult(true, []))
  {
    var check := FieldChecker(cfg, plugins, customs, env);
    ValidInputsListed(fields, cfg, check);
    var rep := Run(fields, cfg, check).value;
    forall i | 0 <= i < |rep.validInputs|
      ensures FieldOutcome(cfg, rep.validInputs[i], plugins, customs, env) == Ok(FieldResult(true, []))
    {
      assert check(rep.validInputs[i]) == FieldOutcome(cfg, rep.validInputs[i], plugins, customs, env);
      FieldValidIffNoMessages(cfg, rep.validInputs[i], plugins, customs, env);
    }
  }

  /** Unless `returnBool` is set to a falsy value, `Validate` answers with the bool; otherwise with the report. */
  lemma OutcomeShape(fields: seq<Field>, options: Bag, plugins: seq<Plugin>, customs: seq<CustomCheck>, env: Env)
    requires Run(fields, MakeConfig(options), FieldChecker(MakeConfig(options), plugins, customs, env)).Ok?
    ensures var rep := Run(fields, MakeConfig(options), FieldChecker(MakeConfig(options), plugins, customs, env)).value;
      && (Get(options, "returnBool").Undefined? ==> Outcome(fields, options, plugins, customs, env) == Ok(BoolResult(rep.valid)))
      && (Get(options, "returnBool") == Bool(false) ==> Outcome(fields, options, plugins, customs, env) == Ok(ObjectResult(rep)))
  {
  }

  /** Under `required: true`, a blank field without its own `data-required` makes the whole pass answer false. */
  lemma BlankFieldFailsRequiredForm(options: Bag, f: Field, plugins: seq<Plugin>, customs: seq<CustomCheck>, env: Env)
    requires Get(options, "required") == Bool(true) && !Defined(Get(f.data, "required"))
    requires Get(options, "returnBool").Undefined? && IsEmpty(f)
    ensures FieldOutcome(MakeConfig(options), f, plugins, customs, env).Ok? ==>
      Outcome([f], options, plugins, customs, env) == Ok(BoolResult(false))
    ensures FieldOutcome(MakeConfig(options), f, plugins, customs, env).Err? ==>
      Outcome([f], options, plugins, customs, env) == Err(FieldOutcome(MakeConfig(options), f, plugins, customs, env).error)
  {
    var cfg := MakeConfig(options);
    var check := FieldChecker(cfg, plugins, customs, env);
    assert Get(cfg, "required") == Bool(true) && Eligible(cfg, f);
    assert check(f) == FieldOutcome(cfg, f, plugins, customs, env);
    assert [f][..0] == [];
    if check(f).Err? {
      assert Run([f], cfg, check) == Err(check(f).error);
      return;
    }
    RequiredMessageFirst(cfg, f, plugins, customs, env);
    RunOkIff([f], cfg, check);
    RunValidIff([f], cfg, check);
    assert !Run([f], cfg, check).value.valid;
    OutcomeShape([f], options, plugins, customs, env);
  }
}
