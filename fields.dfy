/**
 * A field as the engine sees it, the configuration object, and the
 * resolution of a setting between the two.
 */
module Fields {
  import opened Wrappers
  import opened Js

  /** A data bag: `$(input).data()` or the merged configuration object; absent keys read `undefined`. */
  type Bag = map<string, Val>

  /** The merged configuration object of one validation pass. */
  type Config = Bag

  /**
   * One input element. `value` is what `.val()` returns; `data` is its
   * `data-*` bag as jQuery converts it; the rest are the facts the
   * bundled plugins read from the document: whether it is a checkbox and
   * is checked, how many checked checkboxes it contains, and how many
   * items its Kendo multiselect widget has selected (`None` when the
   * widget is not attached).
   */
  datatype Field = Field(
    value: string,
    placeholder: Option<string>,
    data: Bag,
    isCheckbox: bool,
    checked: bool,
    checkedInside: nat,
    kendoSelection: Option<nat>)

  /** The patterns a regular-expression test can be asked about. */
  datatype Pattern =
    | Configured(source: Val)   // `new RegExp(data.regex || config.regex)`
    | EmailAddress              // the e-mail plugin's pattern
    | CultureCode               // the culture-code plugin's pattern
    | WebAddress                // the URL plugin's pattern

  /**
   * The document around the fields: the outcome of a regular-expression
   * test, the value of the element a selector picks (`$(selector).val()`;
   * a selector absent from the map picks nothing), and the selectors that
   * jQuery's selector engine rejects as malformed.
   */
  datatype Env = Env(test: (Pattern, string) -> bool, valueOf: map<string, string>, malformedSelectors: set<string>)

  function Get(m: Bag, key: string): Val {
    if key in m then m[key] else Undefined
  }

  const EmptyTemplate := "This field is required!"
  const LengthPrefix := "Value must be between "
  const LengthMiddle := " and "
  const LengthSuffix := " characters long."
  /** "Value must be between $MINLEN$ and $MAXLEN$ characters long." */
  const LengthTemplate := LengthPrefix + "$MINLEN$" + LengthMiddle + "$MAXLEN$" + LengthSuffix
  const CharsPrefix := "The following characters cannot be used: "
  /** "The following characters cannot be used: $CHARS$" */
  const CharsTemplate := CharsPrefix + "$CHARS$"
  const RegexTemplate := "This field did not pass the RegEx test."

  /** The built-in defaults the options are merged into. */
  function Defaults(): Config {
    map[
      "returnBool" := Bool(true),
      "useInlineErrors" := Bool(false),
      "required" := Bool(false),
      "minLength" := Num(1),
      "maxLength" := Num(0),
      "regex" := Null,
      "selectTextOnFocus" := Bool(false),
      "noInlineErrors" := Str(""),
      "msg_empty" := Str(EmptyTemplate),
      "msg_lengthreq" := Str(LengthTemplate),
      "msg_invalidchars" := Str(CharsTemplate),
      "msg_regex" := Str(RegexTemplate),
      "showSpanError" := Bool(false)
    ]
  }

  /** `jQuery.extend(defaults, options)`: every option that is not `undefined` overrides its default. */
  function MakeConfig(options: Bag): (cfg: Config)
    ensures forall k :: Get(cfg, k) == if Get(options, k).Undefined? then Get(Defaults(), k) else Get(options, k)
  {
    Defaults() + map k | k in options && !options[k].Undefined? :: options[k]
  }

  /** `getPropertyValue(global, local)`: the field's setting wins whenever it is defined, falsy or not. */
  function GetPropertyValue(global: Val, local: Val): Val {
    if Defined(local) then local else global
  }

  /** `$(input).isEmpty()`: the trimmed value is empty or equals the placeholder text. */
  predicate IsEmpty(f: Field) {
    var txt := Trim(f.value);
    (f.placeholder.Some? && txt == f.placeholder.value) || txt == ""
  }

  /** The opt-in test: only such fields take part in a pass. */
  predicate Eligible(cfg: Config, f: Field) {
    Truthy(Get(cfg, "required")) || Truthy(Get(f.data, "required")) || Truthy(Get(f.data, "validate"))
  }

  /**
   * The precedence of settings keeps a defined falsy field value, while the
   * `||` used for message overrides falls through to the global one.
   */
  lemma PrecedenceKeepsFalsyUnlikeOr(global: Val, local: Val)
    requires Defined(local) && !Truthy(local) && Truthy(global)
    ensures GetPropertyValue(global, local) == local
    ensures Or(local, global) == global != local
  {
  }

  /** Without a placeholder, a field is empty exactly when its value is all whitespace. */
  lemma EmptyIffBlank(f: Field)
    requires f.placeholder.None?
    ensures IsEmpty(f) <==> AllSpace(f.value)
  {
    TrimEmptyIff(f.value);
  }

  /**
   * A field with neither `data-required` nor `data-validate` takes part
   * exactly when the caller's options set a truthy `required` (the default is false).
   */
  lemma OptInWithoutData(options: Bag, f: Field)
    requires "required" !in f.data && "validate" !in f.data
    ensures Eligible(MakeConfig(options), f) <==> Truthy(Get(options, "required"))
  {
  }
}
