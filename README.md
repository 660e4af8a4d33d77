# jQuery-Validator rule engine in Dafny

This project models the rule engine of jQuery-Validator, a library of formless validation for input
elements (`$(selector).Validate(options)`). It covers:

- how the configuration is merged over the defaults, and when a field is opted in to validation;
- the four built-in checks: required, length, forbidden characters and pattern;
- the plugin registry (`jQuery.Validator.Extend`) and the nine bundled plugins;
- the custom checks;
- how one pass collects valid and invalid inputs and their messages, and answers with a bool or a report.

The modules follow the layers of the code:

| module | what it holds |
|---|---|
| `Wrappers` | `Option` and `Result` |
| `Js` | the JavaScript values the code handles (`undefined`, `null`, booleans, integers, strings, regular expressions), with truthiness, loose `!= undefined`, `\|\|`, `String(v)`, `$.trim`, and the number conversion behind `<` and `>` |
| `Templates` | `String.prototype.replace` with a string pattern: first occurrence only, with `$$`, `$&`, `` $` `` and `$'` expanded in the replacement |
| `Fields` | a field as the engine sees it, the configuration merge (`jQuery.extend` over the defaults), `getPropertyValue`, `isEmpty` and eligibility |
| `Checks` | the built-in checks, each as a verdict (`Pass` or `Fail(message)`); the forbidden-character scan is a loop that stops at the first hit |
| `Plugins` | the plugin record, the bundled checks and message mutator, one plugin's verdict, and `Registry`, a class whose `plugins` sequence `Extend` appends to |
| `Engine` | `FieldOutcome` and `Run`, the reference definitions of one field and one pass (`Run` takes the per-field validation as a function, and `Outcome` supplies `FieldOutcome`); the imperative `ValidateField`, `ValidateFields` and `Validate`, proved equal to them; lemmas about the report |

An exception the code would throw is modelled as an `Err(..)` (`TypeError` or `SelectorError`), and it aborts the whole pass. The model has these:

- calling `.replace` on a message that is not a string;
- reading `.length` of an undefined or null character set;
- a multiselect property on a field without a Kendo widget;
- a match selector (`mustmatch`) that jQuery's selector engine rejects as malformed;
- a truthy match property that is not a string: jQuery wraps it as if it were an element, and `.val()` then fails reading its `nodeName` (this follows jQuery's `val()`; jQuery itself is not part of this model);
- a registered plugin object without a `method`, once its key is defined on a field (line 298).

Regular-expression matching is a caller-supplied oracle, `env.test`. The value of `$(selector).val()` comes from `env.valueOf`, and the malformed selectors are `env.malformedSelectors`.

Details of the code that the model keeps as written:

- The global length check runs only when the options carry the lower-case keys `minlength` or `maxlength`. The bounds it then uses come from the camel-case keys `minLength` and `maxLength` (lines 218-222).
- `$CHARS$` is filled with the field's own `data-invalidchars`, whatever the set came from (line 256). When the set came from the configuration, that attribute is falsy, so the message names "undefined" if it is absent, and otherwise "null", "false", "0" or nothing.
- The length step writes `String(lengthreq)`, with `-0` appended when it has no dash, back into the field's data (lines 211-215). The plugins and custom checks of the same pass see that rewritten data: a plugin keyed on `lengthreq` reads `"5-0"` where the attribute said `5`.
- Messages are chosen with `||`, so a falsy data message falls back to the configuration message. Property values use `getPropertyValue` instead, so a defined `false` on the field wins over the configuration.
- Only the first `$MINLEN$`, `$MAXLEN$`, `$CHARS$` or `$VALUE$` of a message is replaced.
- The culture-code plugin's default message is the e-mail message (line 576).
- The number plugin strips `.` before testing `^\d+(\.\d+)?$`, so the decimal branch of that pattern can never match.

## Model

| member | source | states |
|---|---|---|
| Js.TrimEmptyIff | Src/jQuery.Validator.js:22-28 | `$.trim(v)` is empty exactly when `v` consists of JavaScript whitespace only |
| Js.NumeralReadsBack | Src/jQuery.Validator.js:233 | a numeral (or number) compares in `<`/`>` as its own value, and a number prints as its numeral |
| Js.DigitsRoundTrip | Src/jQuery.Validator.js:233 | reading back the numeral of `n` gives `n` |
| Templates.IndexOfFrom | Src/jQuery.Validator.js:234 | the position found is the first occurrence of the pattern at or after the start; none means there is no occurrence |
| Templates.ReplaceAbsent | Src/jQuery.Validator.js:234 | replacing a pattern that does not occur leaves the message unchanged |
| Templates.ReplaceFirst | Src/jQuery.Validator.js:234 | only the first occurrence of a `$…$` placeholder is replaced, by the expanded replacement |
| Templates.ReplaceFirstPlain | Src/jQuery.Validator.js:544 | a replacement without `$` is inserted verbatim in place of the first placeholder |
| Templates.ExpandPlain | Src/jQuery.Validator.js:544 | a replacement without `$` is not altered by substitution patterns |
| Fields.MakeConfig | Src/jQuery.Validator.js:33-48 | every configuration key is the caller's option unless that is undefined, else the default |
| Fields.PrecedenceKeepsFalsyUnlikeOr | Src/jQuery.Validator.js:116-120 | a defined falsy local value (`false`, `0`, `""`) wins over a truthy global one under `getPropertyValue`, but loses to it under `\|\|` |
| Fields.EmptyIffBlank | Src/jQuery.Validator.js:22-28 | without a placeholder, a field is empty exactly when its value is blank |
| Fields.OptInWithoutData | Src/jQuery.Validator.js:130 | a field without `data-required`/`data-validate` is validated exactly when the `required` option is truthy |
| Checks.MessagesAppend | Src/jQuery.Validator.js:190-324 | messages of consecutive checks are concatenated in check order |
| Checks.NoMessagesIffAllPass | Src/jQuery.Validator.js:190-327 | no message was pushed exactly when every check passed |
| Checks.MessagesCount | Src/jQuery.Validator.js:190-324 | each check pushes at most one message, and passing checks push none |
| Checks.FailuresReported | Src/jQuery.Validator.js:190-324 | the message of every failed check is among the field's messages |
| Checks.RequiredBlankFails | Src/jQuery.Validator.js:193-200 | a required blank field fails with `data.msg_empty \|\| config.msg_empty` |
| Checks.FieldRequiredFalseWins | Src/jQuery.Validator.js:193-194 | `data-required="false"` opts the field in under a global `required` yet switches the required check off |
| Checks.SplitAtDash | Src/jQuery.Validator.js:213-217 | `"a-b".split("-")` yields `a` and then `b` |
| Checks.LengthRangeParse | Src/jQuery.Validator.js:209-217 | `lengthreq="a-b"` yields minimum `a` and maximum `b` |
| Checks.LengthBareParse | Src/jQuery.Validator.js:209-217 | a bare `lengthreq="a"` (or number `a`) yields minimum `a` and maximum `0` |
| Checks.LengthWriteBackStable | Src/jQuery.Validator.js:209-217 | the write-back changes only a defined `lengthreq`, into a string holding a dash; a later pass reads the same bounds from it and rewrites nothing |
| Checks.BareLengthReqWrittenBack | Src/jQuery.Validator.js:211-215 | a bare `lengthreq="a"` (or number `a`) is written back as `"a-0"` |
| Checks.LengthVerdictIff | Src/jQuery.Validator.js:233-237 | the length check passes exactly when not `len < min` and not (`max != 0` and `len > max`) |
| Checks.LengthSkippedPasses | Src/jQuery.Validator.js:227-230 | an empty field opted in by `data-validate` is not length-checked |
| Checks.GlobalLengthNeedsLowerCaseKey | Src/jQuery.Validator.js:218-223 | without `lengthreq` and without the lower-case option keys, no length check happens |
| Checks.LengthTemplateFilled | Src/jQuery.Validator.js:234 | the default length message has `$MINLEN$` and `$MAXLEN$` replaced by the bounds |
| Checks.MinLenFilled | Src/jQuery.Validator.js:234 | the first replacement fills `$MINLEN$` and leaves `$MAXLEN$` in place |
| Checks.MaxLenFilled | Src/jQuery.Validator.js:234 | the second replacement fills `$MAXLEN$` |
| Checks.LengthDefaultMessage | Src/jQuery.Validator.js:233-236 | a violated length requirement fails with the filled-in default message |
| Checks.LengthExample | Src/jQuery.Validator.js:209-236 | `lengthreq="3-6"` on a two-character value fails with "Value must be between 3 and 6 characters long." |
| Checks.FindForbiddenChar | Src/jQuery.Validator.js:245-261 | the scan reports a hit exactly when some forbidden character occurs in the value, at the first such character |
| Checks.CharsVerdictIff | Src/jQuery.Validator.js:240-262 | the character check fails, with one message, exactly when some character of the set occurs in the value |
| Checks.CharsTemplateFilled | Src/jQuery.Validator.js:256 | the default character message has `$CHARS$` replaced by the given text |
| Checks.CharsFromConfigNamesDataText | Src/jQuery.Validator.js:240-256 | with the set from the configuration, the default message names `String(data.invalidchars)`: "undefined", "null", "false", "0" or nothing |
| Checks.RegexSkipsEmpty | Src/jQuery.Validator.js:265-272 | the pattern check never fails on an empty value |
| Plugins.Registry.constructor | Src/jQuery.Validator.js:427 | the registry starts with no plugins |
| Plugins.Registry.Extend | Src/jQuery.Validator.js:431-434 | `Extend` appends the plugin after the registered ones and changes nothing else |
| Plugins.InstallBundledPlugins | Src/jQuery.Validator.js:504-852 | the bundled plugins are appended in file order |
| Plugins.BundledRegistry | Src/jQuery.Validator.js:504-852 | a fresh registry with the bundled plugins holds nine of them, checkbox first and number last |
| Plugins.InapplicablePluginPasses | Src/jQuery.Validator.js:282 | a plugin whose data and configuration keys are undefined adds nothing |
| Plugins.PassingCheckSkipsMutator | Src/jQuery.Validator.js:298-308 | the message mutator runs only when the check fails |
| Plugins.FailingPluginMessage | Src/jQuery.Validator.js:285-287 | a failing plugin without a message mutator reports the data message, else the configuration message, else its default |
| Plugins.PluginFailsIffCheckFails | Src/jQuery.Validator.js:298-308 | an applicable plugin fails exactly when its check returns false |
| Plugins.PluginVerdictsEach | Src/jQuery.Validator.js:277-310 | each registered plugin gives one verdict, in registration order, and the list throws exactly when one plugin does |
| Plugins.PluginVerdictsStep | Src/jQuery.Validator.js:277-310 | one more plugin adds its verdict after the earlier ones, or its exception ends the list |
| Plugins.PluginErrorPersists | Src/jQuery.Validator.js:277-310 | the first plugin that throws decides the error |
| Plugins.ExtendAppendsVerdict | Src/jQuery.Validator.js:431-434 | an appended plugin's verdict, and its message, come after the others' |
| Plugins.CheckboxPluginIff | Src/jQuery.Validator.js:506-520 | the registered checkbox plugin fails exactly on an unchecked checkbox whose `required` (the field's own when defined, else the configuration's) is truthy, with `data.msg_empty \|\| config.msg_empty` as its message, and passes otherwise |
| Plugins.CheckboxPluginDefaults | Src/jQuery.Validator.js:506-520 | with `required` at its default `false` and no `data-required` the plugin passes; with `required: true` an unchecked checkbox fails with "This field is required!" |
| Plugins.CheckboxGroupIff | Src/jQuery.Validator.js:546-563 | `checkboxgroup=n` passes exactly when at least `n` boxes are checked |
| Plugins.CheckboxGroupMessage | Src/jQuery.Validator.js:541-545 | the default group message reads "You need to check atleast n values." |
| Plugins.CheckboxGroupTemplateFilled | Src/jQuery.Validator.js:541-545 | `$VALUE$` in the default group message is replaced by the given text |
| Plugins.EmailOptionalEmptyPasses | Src/jQuery.Validator.js:620-624 | an empty optional field opted in by `data-validate` passes the e-mail check |
| Plugins.EmailUsesPattern | Src/jQuery.Validator.js:625-630 | otherwise the e-mail check is the e-mail pattern's verdict |
| Plugins.FieldMatchIff | Src/jQuery.Validator.js:656-663 | a well-formed selector passes exactly when it picks a field with the same value; a malformed selector, or a truthy property that is not a string, throws |
| Plugins.PluginWithoutMethodThrows | Src/jQuery.Validator.js:282-298 | a plugin without a method throws exactly when its data or configuration key is defined on the field |
| Plugins.KendoBoundsIff | Src/jQuery.Validator.js:698-722 | with numeric bounds, each taken as `data.min_selection \|\| config.minSelection \|\| 0` (and likewise for the maximum), the selection count must reach the minimum and not exceed the maximum, where 0 means no bound |
| Plugins.KendoWithoutWidgetThrows | Src/jQuery.Validator.js:702 | a multiselect property on a field without the widget throws |
| Plugins.StripHasNoSeparator | Src/jQuery.Validator.js:745 | stripping leaves no whitespace, `(`, `)`, `+`, `-` or `.` |
| Plugins.StripFormatted | Src/jQuery.Validator.js:745 | on digits and separators, stripping keeps exactly the digits |
| Plugins.NumbersOnlyIff | Src/jQuery.Validator.js:839-850 | the number check passes exactly when the stripped value is a non-empty run of digits |
| Plugins.PhoneFormattedIff | Src/jQuery.Validator.js:740-751 | a phone number written with digits and separators passes exactly when it has at least seven digits |
| Engine.CheckChars | Src/jQuery.Validator.js:239-262 | the imperative character check equals the reference verdict |
| Engine.ApplyPlugin | Src/jQuery.Validator.js:280-308 | the loop body for one plugin equals that plugin's reference verdict, about which the plugin lemmas are proved |
| Engine.ApplyPlugins | Src/jQuery.Validator.js:274-311 | the plugin loop adds the plugins' messages in order or stops with the first exception |
| Engine.ApplyCustoms | Src/jQuery.Validator.js:313-324 | the custom-check loop adds each failing check's `param.message` in order |
| Engine.ValidateField | Src/jQuery.Validator.js:190-324 | the imperative field validation equals the reference outcome |
| Engine.CustomVerdictsEach | Src/jQuery.Validator.js:313-324 | each custom check gives one verdict, in order |
| Engine.FieldValidIffNoMessages | Src/jQuery.Validator.js:190-327 | a field is valid exactly when it produced no message |
| Engine.FieldOutcomeOkIff | Src/jQuery.Validator.js:202-311 | validating a field throws exactly when the length check, the character check or a plugin throws |
| Engine.CustomFailureReported | Src/jQuery.Validator.js:316-323 | a failing custom check invalidates the field and its message is reported |
| Engine.RequiredMessageFirst | Src/jQuery.Validator.js:193-200 | a blank required field is invalid and the required message comes first |
| Engine.FieldMessagesInCheckOrder | Src/jQuery.Validator.js:190-324 | messages come in the order required, length, characters, pattern, plugins, custom checks, at most one each |
| Engine.ExtrasOnlyAddMessages | Src/jQuery.Validator.js:274-324 | plugins and custom checks only append messages after the built-in ones |
| Engine.RunErrorPersists | Src/jQuery.Validator.js:78-384 | once a field throws, the whole pass throws that error |
| Engine.ValidateFields | Src/jQuery.Validator.js:78-384 | the imperative loop over the fields builds exactly the reference report, or throws the first field's error |
| Engine.Validate | Src/jQuery.Validator.js:30-393 | the imperative pass equals the reference outcome |
| Engine.RunReport | Src/jQuery.Validator.js:326-379 | the report is valid exactly when no input is invalid, its messages are the invalid inputs' messages in order, and it lists one input per eligible field |
| Engine.RunListsInOrder | Src/jQuery.Validator.js:326-379 | the valid and invalid lists are exactly the eligible valid and eligible invalid fields, each in field order, and the messages are the invalid fields' messages concatenated in that order |
| Engine.PassingFieldsComplete | Src/jQuery.Validator.js:368-378 | every eligible field found valid is among the passing fields |
| Engine.FailingFieldsComplete | Src/jQuery.Validator.js:327-335 | every eligible field found invalid is among the failing fields, with its messages |
| Engine.EveryEligibleFieldListed | Src/jQuery.Validator.js:326-379 | every eligible field appears in the report: as valid when found valid, and otherwise as invalid with its messages |
| Engine.ValidInputsListed | Src/jQuery.Validator.js:368-378 | every input listed as valid is an eligible selected field that the field validation found valid |
| Engine.InvalidInputsListed | Src/jQuery.Validator.js:327-335 | every input listed as invalid is an eligible selected field, listed with exactly the messages its validation produced |
| Engine.ValidInputsHaveNoMessages | Src/jQuery.Validator.js:368-378 | under the real field validation, every input listed as valid produced no message |
| Engine.IneligibleNotListed | Src/jQuery.Validator.js:130 | a field that is not opted in is listed neither as valid nor as invalid |
| Engine.RunOkIff | Src/jQuery.Validator.js:78-384 | the pass throws exactly when some eligible field throws |
| Engine.RunValidIff | Src/jQuery.Validator.js:326-386 | the pass is valid exactly when every eligible field is valid |
| Engine.RunIgnoresIneligible | Src/jQuery.Validator.js:130-383 | dropping the fields that are not opted in changes nothing |
| Engine.NothingEligibleIsValid | Src/jQuery.Validator.js:51-58 | with no field opted in, the pass is valid and the report empty |
| Engine.OutcomeShape | Src/jQuery.Validator.js:389-393 | with `returnBool` left at its default the answer is the bool; with `false` it is the report |
| Engine.BlankFieldFailsRequiredForm | Src/jQuery.Validator.js:30-393 | under `required: true`, a blank field without its own `data-required` makes `Validate` answer false, or else the pass rethrows that field's exception |

## Left out

- Reading and writing the field value (`getVal`/`setVal`, including `data-validateon`, `html()`, `text()` and `prop()`) is not modelled. The value is a plain string given with the field, so `isEmpty` and the checks read the same string, although `isEmpty` uses `val()` where `getVal` reads a textarea with `text()`.
- Inline error text, with its `current_value`/`showing_error` bookkeeping, is not modelled. Neither are error spans or error classes. A field's `value` is the one after the restore at lines 182-188: while an inline error is showing, the pass validates `data.current_value`, and that is the value the field carries.
- Focus and mouseup handlers and the IE selection workaround are browser events and are left out.
- `Validate_Clear` and the Knockout binding are not part of this model. They are a UI reset and framework glue.
- The e-mail, culture-code, URL and configured patterns are matched by an oracle, `env.test`, not by a regular-expression engine. A configured pattern that `new RegExp` rejects is therefore not modelled as an exception.
- `onFieldValidated` is a callback into caller code and is not modelled.
- `console.log` calls and Kendo's `applyErrorClass` are not modelled. They are output and page side effects.
- Characters above U+FFFF: a Dafny string is a sequence of Unicode scalar values, while JavaScript's `.length`, `charAt` and `indexOf` count UTF-16 code units. On such characters the length check, the forbidden-character check and `replace` positions can differ from the source. For example, "😀😀" has length 4 in JavaScript and 2 here, and the forbidden set "😀" forbids "😁" in JavaScript (their first code units are equal) but not here.
- The reports of a pass list each field as a value. The rewritten `lengthreq` is not carried into them, nor into the next pass's fields; `Checks.LengthWriteBackStable` shows that the next pass reads the same bounds from it.
- Numbers are integers. A numeric string converts only when it is an optionally signed run of decimal digits, with surrounding whitespace trimmed; every other form (fractions, exponents, hexadecimal, `Infinity`) converts as NaN.
- jQuery's `data()` conversion of attribute text to booleans, numbers and JSON is taken as already done. Fields carry the converted values.
- Custom checks are a separate parameter of `Validate`, not an entry of the options. `Fields.MakeConfig` holds only JavaScript values, not functions.
- A custom check or a custom plugin function that throws is not modelled. Neither is a custom check that reads the DOM beyond the field it is given.
- Engine.Validate: does not model `$(this).each` over a jQuery collection; the fields are given as a sequence in document order.
