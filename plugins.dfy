/**
 * The plugin registry (`jQuery.Validator`) and the plugins bundled with the
 * validator. A plugin names the data key and configuration key that switch
 * it on, the keys of its message override, a default message, its check
 * and an optional message mutator.
 */
module Plugins {
  import opened Wrappers
  import opened Js
  import opened Templates
  import opened Fields
  import opened Checks

  /** What a plugin's check receives; `dataObject` is `input.data`. */
  datatype PluginParams = PluginParams(input: Field, propertyValue: Val, configObject: Config)

  /** The check a plugin runs: one of the bundled ones, any caller-supplied predicate, or none at all. */
  datatype PluginMethod =
    | CheckboxRequired
    | CheckboxGroupCount
    | CultureCodeMatch
    | EmailMatch
    | FieldMatch
    | KendoSelectionCount
    | PhoneNumber
    | WebAddressMatch
    | NumbersOnly
    | Custom(run: PluginParams -> bool)
    | NoMethod   // a registered object without `method`: calling it throws

  datatype MessageMutator =
    | NoMutator
    | ReplaceValue   // `errorMessage.replace("$VALUE$", propertyValue)`
    | CustomMutator(run: (PluginParams, Val) -> Val)

  datatype Plugin = Plugin(
    dataProp: string,
    configProp: string,
    messageDataProp: string,
    messageConfigProp: string,
    defaultErrorMessage: Val,
    check: PluginMethod,
    messageMutator: MessageMutator)

  // ---------------------------------------------------------------- phone and number normalisation

  /** A character of the class `[\s()+\-\.]`. */
  predicate IsSeparator(c: char) {
    IsSpace(c) || c == '(' || c == ')' || c == '+' || c == '-' || c == '.'
  }

  /** `ext`, case-insensitively. */
  predicate IsExt(s: string)
    requires |s| == 3
  {
    (s[0] == 'e' || s[0] == 'E') && (s[1] == 'x' || s[1] == 'X') && (s[2] == 't' || s[2] == 'T')
  }

  /** `s.replace(/[\s()+\-\.]|ext/gi, '')`, scanning left to right. */
  function Strip(s: string): string
    decreases |s|
  {
    if |s| == 0 then ""
    else if IsSeparator(s[0]) then Strip(s[1..])
    else if |s| >= 3 && IsExt(s[..3]) then Strip(s[3..])
    else [s[0]] + Strip(s[1..])
  }

  /** The digits of `s`, in order. */
  function DigitsOf(s: string): string
    decreases |s|
  {
    if |s| == 0 then "" else (if IsDigit(s[0]) then [s[0]] else "") + DigitsOf(s[1..])
  }

  /** `/^\d{7,}$/`. */
  predicate PhoneDigits(s: string) {
    |s| >= 7 && AllDigits(s)
  }

  /** `/^\d+(\.\d+)?$/`. */
  predicate DecimalNumber(s: string) {
    (|s| > 0 && AllDigits(s))
    || exists k :: 0 < k < |s| - 1 && s[k] == '.' && AllDigits(s[..k]) && AllDigits(s[k + 1..])
  }

  // ---------------------------------------------------------------- the bundled checks

  /**
   * `$(selector).val()`: a malformed selector string throws; a string that
   * picks nothing, or a falsy value, gives `undefined`; any other truthy
   * value is wrapped as if it were an element, and `val()` then throws
   * reading its `nodeName`.
   */
  function SelectedValue(selector: Val, env: Env): Result<Val, Error> {
    match selector
    case Str(s) =>
      if s in env.malformedSelectors then Err(SelectorError(s))
      else if s in env.valueOf then Ok(Str(env.valueOf[s]))
      else Ok(Undefined)
    case _ =>
      if Truthy(selector) then Err(TypeError("val() of a value that is not an element")) else Ok(Undefined)
  }

  /** The Kendo multiselect bounds: `min_selection`/`max_selection`, 0 meaning no bound. */
  predicate KendoCountOk(n: nat, f: Field, cfg: Config) {
    var minValue := Or(Or(Get(f.data, "min_selection"), Get(cfg, "minSelection")), Num(0));
    var maxValue := Or(Or(Get(f.data, "max_selection"), Get(cfg, "maxSelection")), Num(0));
    !(LooseNotZero(minValue) && LessThan(n, minValue)) && !(LooseNotZero(maxValue) && GreaterThan(n, maxValue))
  }

  /** Runs a plugin's check; `Ok(false)` is a failed check. */
  function RunMethod(m: PluginMethod, params: PluginParams, env: Env): Result<bool, Error> {
    var prop, f, cfg := params.propertyValue, params.input, params.configObject;
    match m
    case CheckboxRequired => Ok(!(f.isCheckbox && Truthy(prop) && !f.checked))
    case CheckboxGroupCount => Ok(!(Truthy(prop) && LessThan(f.checkedInside, prop)))
    case CultureCodeMatch => Ok(!Truthy(prop) || env.test(CultureCode, f.value))
    case EmailMatch =>
      var required := Truthy(Get(cfg, "required")) || Truthy(Get(f.data, "required"));
      Ok(!Truthy(prop)
         || (Truthy(Get(f.data, "validate")) && |f.value| == 0 && !required)
         || env.test(EmailAddress, f.value))
    case FieldMatch =>
      if !Truthy(prop) then Ok(true)
      else
        var other :- SelectedValue(prop, env);
        Ok(other == Str(f.value))
    case KendoSelectionCount =>
      if !Truthy(prop) then Ok(true)
      else if f.kendoSelection.None? then Err(TypeError("no kendoMultiSelect widget on the field"))
      else Ok(KendoCountOk(f.kendoSelection.value, f, cfg))
    case PhoneNumber => Ok(!Truthy(prop) || PhoneDigits(Strip(f.value)))
    case WebAddressMatch => Ok(!Truthy(prop) || env.test(WebAddress, f.value))
    case NumbersOnly => Ok(!Truthy(prop) || DecimalNumber(Strip(f.value)))
    case Custom(run) => Ok(run(params))
    case NoMethod => Err(TypeError("plugin has no method"))
  }

  function Mutate(m: MessageMutator, params: PluginParams, message: Val): Result<Val, Error> {
    match m
    case NoMutator => Ok(message)
    case ReplaceValue =>
      if message.Str? then Ok(Str(Replace(message.s, "$VALUE$", ToJsString(params.propertyValue))))
      else Err(TypeError("plugin message is not a string"))
    case CustomMutator(run) => Ok(run(params, message))
  }

  // ---------------------------------------------------------------- running a plugin

  /** A plugin runs on a field when its data key or its configuration key is defined. */
  predicate PluginApplies(p: Plugin, cfg: Config, f: Field) {
    Defined(Get(f.data, p.dataProp)) || Defined(Get(cfg, p.configProp))
  }

  /** The data attribute wins over the configuration whenever it is defined, as in `getPropertyValue`. */
  function PropertyValue(p: Plugin, cfg: Config, f: Field): Val {
    GetPropertyValue(Get(cfg, p.configProp), Get(f.data, p.dataProp))
  }

  /** Data message, then configuration message, then the plugin's default, chained with `||`. */
  function ErrorMessage(p: Plugin, cfg: Config, f: Field): Val {
    Or(Or(Get(f.data, p.messageDataProp), Get(cfg, p.messageConfigProp)), p.defaultErrorMessage)
  }

  function PluginVerdict(p: Plugin, cfg: Config, f: Field, env: Env): Result<Verdict, Error> {
    if !PluginApplies(p, cfg, f) then Ok(Pass)
    else
      var params := PluginParams(f, PropertyValue(p, cfg, f), cfg);
      var passed :- RunMethod(p.check, params, env);
      if passed then Ok(Pass)
      else
        var message :- Mutate(p.messageMutator, params, ErrorMessage(p, cfg, f));
        Ok(Fail(message))
  }

  /** The verdicts of the registered plugins, in registration order; an exception stops the pass. */
  function PluginVerdicts(ps: seq<Plugin>, cfg: Config, f: Field, env: Env): Result<seq<Verdict>, Error>
    decreases |ps|
  {
    if ps == [] then Ok([])
    else
      var vs :- PluginVerdicts(ps[..|ps| - 1], cfg, f, env);
      var v :- PluginVerdict(ps[|ps| - 1], cfg, f, env);
      Ok(vs + [v])
  }

  // ---------------------------------------------------------------- the registry

  /** `jQuery.Validator`: the process-wide list of plugins, only ever appended to. */
  class Registry {
    var plugins: seq<Plugin>

    constructor ()
      ensures plugins == []
    {
      plugins := [];
    }

    /** `jQuery.Validator.Extend(plugin)`. */
    method Extend(p: Plugin)
      modifies this
      ensures plugins == old(plugins) + [p]
    {
      plugins := plugins + [p];
    }
  }

  const ValueTemplatePrefix := "You need to check atleast "
  const ValueTemplateSuffix := " values."
  /** "You need to check atleast $VALUE$ values." */
  const CheckboxGroupTemplate := ValueTemplatePrefix + "$VALUE$" + ValueTemplateSuffix
  const EmailMessage := "Not a valid E-mail address."

  const CheckboxPlugin := Plugin("required", "required", "msg_empty", "msg_empty", Undefined, CheckboxRequired, NoMutator)
  const CheckboxGroupPlugin := Plugin("checkboxgroup", "checkboxgroup", "msg_checkboxgroup", "msg_checkboxgroup",
    Str(CheckboxGroupTemplate), CheckboxGroupCount, ReplaceValue)
  // the culture-code plugin carries the e-mail plugin's default message
  const CultureCodePlugin := Plugin("culturecode", "isCultureCode", "msg_invalidculturecode", "msg_invalidculturecode",
    Str(EmailMessage), CultureCodeMatch, NoMutator)
  const EmailPlugin := Plugin("email", "isEmail", "msg_invalidemail", "msg_invalidemail", Str(EmailMessage), EmailMatch, NoMutator)
  const FieldMatchPlugin := Plugin("mustmatch", "mustMatch", "msg_invalidmatch", "msg_invalidmatch",
    Str("Fields did not match."), FieldMatch, NoMutator)
  const KendoPlugin := Plugin("k_multiselect", "isKendoMultiselect", "msg_invalid_selection", "msg_invalidSelection",
    Undefined, KendoSelectionCount, NoMutator)
  const PhonePlugin := Plugin("phone", "isPhone", "msg_invalidphonenumber", "msg_invalidphonenumber", Undefined, PhoneNumber, NoMutator)
  const UrlPlugin := Plugin("url", "isUrl", "msg_invalid_url", "msg_invalidUrl", Undefined, WebAddressMatch, NoMutator)
  const NumberPlugin := Plugin("number", "isNumber", "msg_invalidnumber", "msg_invalidnumber", Undefined, NumbersOnly, NoMutator)

  function BundledPlugins(): seq<Plugin> {
    [CheckboxPlugin, CheckboxGroupPlugin, CultureCodePlugin, EmailPlugin, FieldMatchPlugin,
     KendoPlugin, PhonePlugin, UrlPlugin, NumberPlugin]
  }

  /** The bundled plugins register themselves on document ready, in file order. */
  method InstallBundledPlugins(r: Registry)
    modifies r
    ensures r.plugins == old(r.plugins) + BundledPlugins()
  {
    r.Extend(CheckboxPlugin);
    r.Extend(CheckboxGroupPlugin);
    r.Extend(CultureCodePlugin);
    r.Extend(EmailPlugin);
    r.Extend(FieldMatchPlugin);
    r.Extend(KendoPlugin);
    r.Extend(PhonePlugin);
    r.Extend(UrlPlugin);
    r.Extend(NumberPlugin);
  }

  // ---------------------------------------------------------------- properties of a single plugin

  /** A plugin whose keys are undefined on the field and in the configuration adds no message. */
  lemma InapplicablePluginPasses(p: Plugin, cfg: Config, f: Field, env: Env)
    requires Get(f.data, p.dataProp).Undefined? && !Defined(Get(cfg, p.configProp))
    ensures PluginVerdict(p, cfg, f, env) == Ok(Pass)
  {
  }

  /** A passing check never runs the message mutator, so a mutator that would throw is harmless. */
  lemma PassingCheckSkipsMutator(p: Plugin, cfg: Config, f: Field, env: Env)
    requires PluginApplies(p, cfg, f)
    requires RunMethod(p.check, PluginParams(f, PropertyValue(p, cfg, f), cfg), env) == Ok(true)
    ensures PluginVerdict(p, cfg, f, env) == Ok(Pass)
  {
  }

  /**
   * Without a mutator, a failing plugin reports the truthy data message, else the truthy
   * configuration message, else its default message.
   */
  lemma FailingPluginMessage(p: Plugin, cfg: Config, f: Field, env: Env)
    requires PluginApplies(p, cfg, f) && p.messageMutator.NoMutator?
    requires RunMethod(p.check, PluginParams(f, PropertyValue(p, cfg, f), cfg), env) == Ok(false)
    ensures Truthy(Get(f.data, p.messageDataProp)) ==>
      PluginVerdict(p, cfg, f, env) == Ok(Fail(Get(f.data, p.messageDataProp)))
    ensures !Truthy(Get(f.data, p.messageDataProp)) && Truthy(Get(cfg, p.messageConfigProp)) ==>
      PluginVerdict(p, cfg, f, env) == Ok(Fail(Get(cfg, p.messageConfigProp)))
    ensures !Truthy(Get(f.data, p.messageDataProp)) && !Truthy(Get(cfg, p.messageConfigProp)) ==>
      PluginVerdict(p, cfg, f, env) == Ok(Fail(p.defaultErrorMessage))
  {
  }

  /** A plugin fails exactly when its check returns false (given that neither check nor mutator throws). */
  lemma PluginFailsIffCheckFails(p: Plugin, cfg: Config, f: Field, env: Env)
    requires PluginApplies(p, cfg, f)
    requires RunMethod(p.check, PluginParams(f, PropertyValue(p, cfg, f), cfg), env).Ok?
    requires Mutate(p.messageMutator, PluginParams(f, PropertyValue(p, cfg, f), cfg), ErrorMessage(p, cfg, f)).Ok?
    ensures PluginVerdict(p, cfg, f, env).Ok?
    ensures PluginVerdict(p, cfg, f, env).value.Fail?
        <==> RunMethod(p.check, PluginParams(f, PropertyValue(p, cfg, f), cfg), env) == Ok(false)
  {
  }

  // ---------------------------------------------------------------- the registered list

  /** Every registered plugin contributes one verdict, in registration order; an exception anywhere aborts. */
  lemma {:induction false} PluginVerdictsEach(ps: seq<Plugin>, cfg: Config, f: Field, env: Env)
    ensures PluginVerdicts(ps, cfg, f, env).Ok? <==> forall i :: 0 <= i < |ps| ==> PluginVerdict(ps[i], cfg, f, env).Ok?
    ensures PluginVerdicts(ps, cfg, f, env).Ok? ==>
      var vs := PluginVerdicts(ps, cfg, f, env).value;
      |vs| == |ps| && forall i :: 0 <= i < |ps| ==> PluginVerdict(ps[i], cfg, f, env) == Ok(vs[i])
    decreases |ps|
  {
    if ps != [] {
      var init := ps[..|ps| - 1];
      PluginVerdictsEach(init, cfg, f, env);
      assert forall i :: 0 <= i < |init| ==> init[i] == ps[i];
      if PluginVerdicts(ps, cfg, f, env).Ok? {
        var vs := PluginVerdicts(ps, cfg, f, env).value;
        var vi := PluginVerdicts(init, cfg, f, env).value;
        assert vs == vi + [PluginVerdict(ps[|ps| - 1], cfg, f, env).value];
      }
    }
  }

  /** One more plugin of the list, run after the ones before it. */
  lemma PluginVerdictsStep(ps: seq<Plugin>, i: nat, cfg: Config, f: Field, env: Env)
    requires i < |ps| && PluginVerdicts(ps[..i], cfg, f, env).Ok?
    ensures PluginVerdict(ps[i], cfg, f, env).Err? ==>
      PluginVerdicts(ps, cfg, f, env) == Err(PluginVerdict(ps[i], cfg, f, env).error)
    ensures PluginVerdict(ps[i], cfg, f, env).Ok? ==>
      PluginVerdicts(ps[..i + 1], cfg, f, env) ==
      Ok(PluginVerdicts(ps[..i], cfg, f, env).value + [PluginVerdict(ps[i], cfg, f, env).value])
  {
    assert ps[..i + 1][..i] == ps[..i];
    if PluginVerdict(ps[i], cfg, f, env).Err? {
      PluginErrorPersists(ps, i + 1, cfg, f, env);
    }
  }

  /** The first plugin that throws decides the error of the whole list. */
  lemma {:induction false} PluginErrorPersists(ps: seq<Plugin>, k: nat, cfg: Config, f: Field, env: Env)
    requires k <= |ps| && PluginVerdicts(ps[..k], cfg, f, env).Err?
    ensures PluginVerdicts(ps, cfg, f, env) == PluginVerdicts(ps[..k], cfg, f, env)
    decreases |ps|
  {
    if k == |ps| {
      assert ps[..k] == ps;
    } else {
      var init := ps[..|ps| - 1];
      assert init[..k] == ps[..k];
      PluginErrorPersists(init, k, cfg, f, env);
    }
  }

  /** Appending a plugin to the registry appends its verdict after the others'. */
  lemma {:induction false} ExtendAppendsVerdict(ps: seq<Plugin>, p: Plugin, cfg: Config, f: Field, env: Env, vs: seq<Verdict>, v: Verdict)
    requires PluginVerdicts(ps, cfg, f, env) == Ok(vs) && PluginVerdict(p, cfg, f, env) == Ok(v)
    ensures PluginVerdicts(ps + [p], cfg, f, env) == Ok(vs + [v])
    ensures Messages(vs + [v]) == Messages(vs) + Messages([v])
  {
    assert (ps + [p])[..|ps + [p]| - 1] == ps;
    MessagesAppend(vs, [v]);
  }

  /** A fresh registry with the bundled plugins installed holds exactly the nine of them, in file order. */
  method BundledRegistry() returns (r: Registry)
    ensures fresh(r) && r.plugins == BundledPlugins()
    ensures |r.plugins| == 9 && r.plugins[0] == CheckboxPlugin && r.plugins[8] == NumberPlugin
  {
    r := new Registry();
    InstallBundledPlugins(r);
  }

  // ---------------------------------------------------------------- the bundled checks

  /**
   * The registered checkbox plugin on any field: it fails exactly on an
   * unchecked checkbox whose `required` (the field's own when defined, else
   * the configuration's) is truthy, with `data.msg_empty || config.msg_empty`
   * as the message (the plugin has no default message of its own).
   */
  lemma CheckboxPluginIff(cfg: Config, f: Field, env: Env)
    ensures PluginVerdict(CheckboxPlugin, cfg, f, env) ==
      if f.isCheckbox && Truthy(GetPropertyValue(Get(cfg, "required"), Get(f.data, "required"))) && !f.checked
      then Ok(Fail(Or(Or(Get(f.data, "msg_empty"), Get(cfg, "msg_empty")), Undefined)))
      else Ok(Pass)
  {
  }

  /**
   * Under the merged options: with `required` left at its default `false`
   * and no `data-required`, the plugin passes; with `required: true`, an
   * unchecked checkbox fails with "This field is required!" unless a
   * message is given.
   */
  lemma CheckboxPluginDefaults(options: Bag, f: Field, env: Env)
    requires !Defined(Get(f.data, "required"))
    ensures Get(options, "required").Undefined? ==> PluginVerdict(CheckboxPlugin, MakeConfig(options), f, env) == Ok(Pass)
    ensures (Get(options, "required") == Bool(true) && Get(options, "msg_empty").Undefined?
             && !Truthy(Get(f.data, "msg_empty")) && f.isCheckbox && !f.checked) ==>
      PluginVerdict(CheckboxPlugin, MakeConfig(options), f, env) == Ok(Fail(Str(EmptyTemplate)))
  {
    CheckboxPluginIff(MakeConfig(options), f, env);
  }

  /** `data-checkboxgroup="n"` (number or numeral) passes exactly when at least `n` boxes are checked. */
  lemma CheckboxGroupIff(params: PluginParams, env: Env, n: nat)
    requires params.propertyValue == Num(n) || params.propertyValue == Str(NatToString(n))
    ensures RunMethod(CheckboxGroupCount, params, env) == Ok(params.input.checkedInside >= n)
  {
    NumeralReadsBack(n);
  }

  /** The default checkbox-group message has `$VALUE$` replaced by the required count. */
  lemma CheckboxGroupMessage(cfg: Config, f: Field, env: Env, n: nat)
    requires Get(f.data, "checkboxgroup") == Num(n) && f.checkedInside < n
    requires !Truthy(Get(f.data, "msg_checkboxgroup")) && !Truthy(Get(cfg, "msg_checkboxgroup"))
    ensures PluginVerdict(CheckboxGroupPlugin, cfg, f, env) ==
      Ok(Fail(Str(ValueTemplatePrefix + NatToString(n) + ValueTemplateSuffix)))
  {
    NumeralReadsBack(n);
    NumeralHasNoDash(n);
    CheckboxGroupTemplateFilled(NatToString(n));
  }

  /** `$VALUE$` in the default checkbox-group message is replaced by the given text. */
  lemma CheckboxGroupTemplateFilled(r: string)
    requires '$' !in r
    ensures Replace(CheckboxGroupTemplate, "$VALUE$", r) == ValueTemplatePrefix + r + ValueTemplateSuffix
  {
    assert '$' !in ValueTemplatePrefix;
    ReplaceFirstPlain(ValueTemplatePrefix, "$VALUE$", ValueTemplateSuffix, r);
  }

  /** With the field empty, optional and marked `data-validate`, the e-mail check passes whatever the pattern says. */
  lemma EmailOptionalEmptyPasses(params: PluginParams, env: Env)
    requires Truthy(Get(params.input.data, "validate")) && params.input.value == ""
    requires !Truthy(Get(params.configObject, "required")) && !Truthy(Get(params.input.data, "required"))
    ensures RunMethod(EmailMatch, params, env) == Ok(true)
  {
  }

  /** Otherwise a truthy `email` property defers to the e-mail pattern. */
  lemma EmailUsesPattern(params: PluginParams, env: Env)
    requires Truthy(params.propertyValue)
    requires !Truthy(Get(params.input.data, "validate")) || params.input.value != ""
      || Truthy(Get(params.configObject, "required")) || Truthy(Get(params.input.data, "required"))
    ensures RunMethod(EmailMatch, params, env) == Ok(env.test(EmailAddress, params.input.value))
  {
  }

  /**
   * A well-formed selector string passes exactly when it picks a field
   * holding the same value; a malformed one, or any other truthy property,
   * throws.
   */
  lemma FieldMatchIff(params: PluginParams, env: Env)
    requires Truthy(params.propertyValue)
    ensures params.propertyValue.Str? && params.propertyValue.s !in env.malformedSelectors ==>
      RunMethod(FieldMatch, params, env) ==
      Ok(params.propertyValue.s in env.valueOf && env.valueOf[params.propertyValue.s] == params.input.value)
    ensures params.propertyValue.Str? && params.propertyValue.s in env.malformedSelectors ==>
      RunMethod(FieldMatch, params, env) == Err(SelectorError(params.propertyValue.s))
    ensures !params.propertyValue.Str? ==> RunMethod(FieldMatch, params, env).Err?
  {
  }

  /** A registered plugin without a method throws as soon as it applies to a field. */
  lemma PluginWithoutMethodThrows(p: Plugin, cfg: Config, f: Field, env: Env)
    requires p.check == NoMethod
    ensures PluginVerdict(p, cfg, f, env).Err? <==> PluginApplies(p, cfg, f)
  {
  }

  /**
   * Numeric selection bounds, each the field's own `min_selection`/`max_selection`,
   * else the configuration's `minSelection`/`maxSelection`, else 0, where 0 means unbounded.
   */
  lemma KendoBoundsIff(params: PluginParams, env: Env, n: nat, mn: nat, mx: nat)
    requires Truthy(params.propertyValue) && params.input.kendoSelection == Some(n)
    requires Or(Or(Get(params.input.data, "min_selection"), Get(params.configObject, "minSelection")), Num(0)) == Num(mn)
    requires Or(Or(Get(params.input.data, "max_selection"), Get(params.configObject, "maxSelection")), Num(0)) == Num(mx)
    ensures RunMethod(KendoSelectionCount, params, env) == Ok((mn == 0 || n >= mn) && (mx == 0 || n <= mx))
  {
  }

  /** A truthy multiselect property on a field without a widget throws. */
  lemma KendoWithoutWidgetThrows(params: PluginParams, env: Env)
    requires Truthy(params.propertyValue) && params.input.kendoSelection.None?
    ensures RunMethod(KendoSelectionCount, params, env).Err?
  {
  }

  /** `Strip` leaves no separator behind. */
  lemma {:induction false} StripHasNoSeparator(s: string)
    ensures forall i :: 0 <= i < |Strip(s)| ==> !IsSeparator(Strip(s)[i])
    decreases |s|
  {
    if |s| > 0 {
      if IsSeparator(s[0]) {
        StripHasNoSeparator(s[1..]);
      } else if |s| >= 3 && IsExt(s[..3]) {
        StripHasNoSeparator(s[3..]);
      } else {
        StripHasNoSeparator(s[1..]);
        assert Strip(s) == [s[0]] + Strip(s[1..]);
      }
    }
  }

  /** On a string of digits and separators, `Strip` keeps exactly the digits. */
  lemma {:induction false} StripFormatted(s: string)
    requires forall i :: 0 <= i < |s| ==> IsDigit(s[i]) || IsSeparator(s[i])
    ensures Strip(s) == DigitsOf(s) && AllDigits(Strip(s))
    decreases |s|
  {
    if |s| > 0 {
      assert forall i :: 0 <= i < |s[1..]| ==> s[1..][i] == s[i + 1];
      StripFormatted(s[1..]);
    }
  }

  /**
   * The number check strips the decimal point before matching, so it passes exactly when the
   * stripped value is a non-empty run of digits.
   */
  lemma NumbersOnlyIff(params: PluginParams, env: Env)
    ensures RunMethod(NumbersOnly, params, env) ==
      Ok(!Truthy(params.propertyValue) || (|Strip(params.input.value)| > 0 && AllDigits(Strip(params.input.value))))
  {
    StripHasNoSeparator(params.input.value);
  }

  /** A phone number written with digits and separators passes exactly when it has at least seven digits. */
  lemma PhoneFormattedIff(params: PluginParams, env: Env)
    requires Truthy(params.propertyValue)
    requires forall i :: 0 <= i < |params.input.value| ==> IsDigit(params.input.value[i]) || IsSeparator(params.input.value[i])
    ensures RunMethod(PhoneNumber, params, env) == Ok(|DigitsOf(params.input.value)| >= 7)
  {
    StripFormatted(params.input.value);
  }
}
