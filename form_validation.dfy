/**
 * The form-validation hook: per-field rules checked in a fixed order, and
 * the form state (values, error messages, touched flags) that a form's
 * event handlers update.
 */
module FormValidation {
  import opened Common
  import opened Numbers
  import ErrorHandler
  import Alerts

  /** A form value as components store it. */
  datatype Value =
    | Text(s: string)
    | Number(n: real)
    | NotANumber
    | Flag(b: bool)
    | Undefined

  /** JavaScript truthiness of a form value. */
  predicate Truthy(v: Value)
  {
    match v
    case Text(s) => s != ""
    case Number(n) => n != 0.0
    case NotANumber => false
    case Flag(b) => b
    case Undefined => false
  }

  /** `Number(value)`; None is NaN. */
  function NumberOf(v: Value): Option<real>
  {
    match v
    case Text(s) => JsNumber(s)
    case Number(n) => Some(n)
    case NotANumber => None
    case Flag(b) => Some(if b then 1.0 else 0.0)
    case Undefined => None
  }

  /** A numeric bound together with the text JavaScript prints for it in messages. */
  datatype Bound = Bound(value: real, text: string)

  /**
   * A field's rules.  A length limit of 0 is falsy and switches the check
   * off; `custom` answers "" for `null` or the empty message.
   */
  datatype Rule = Rule(
    required: bool,
    minLength: Option<nat>,
    maxLength: Option<nat>,
    pattern: Option<string -> bool>,
    min: Option<Bound>,
    max: Option<Bound>,
    custom: Option<Value -> string>)

  datatype NamedRule = NamedRule(field: string, rule: Rule)

  /** `validationRules[name]`. */
  function RuleFor(rules: seq<NamedRule>, name: string): (r: Option<Rule>)
    ensures r.Some? <==> exists i :: 0 <= i < |rules| && rules[i].field == name
  {
    if rules == [] then None
    else if rules[0].field == name then Some(rules[0].rule)
    else
      var r := RuleFor(rules[1..], name);
      assert forall i :: 1 <= i < |rules| ==> rules[i] == rules[1..][i - 1];
      r
  }

  /** What `required` counts as missing: a falsy value or a string of white space. */
  predicate Missing(v: Value)
  {
    !Truthy(v) || (v.Text? && Trim(v.s) == "")
  }

  /** `typeof value === 'number' || !isNaN(Number(value))`. */
  predicate IsNumeric(v: Value)
  {
    v.Number? || v.NotANumber? || NumberOf(v).Some?
  }

  predicate TooShort(r: Rule, s: string) { r.minLength.Some? && r.minLength.value != 0 && |s| < r.minLength.value }
  predicate TooLong(r: Rule, s: string) { r.maxLength.Some? && r.maxLength.value != 0 && |s| > r.maxLength.value }
  predicate Mismatch(r: Rule, s: string) { r.pattern.Some? && !r.pattern.value(s) }
  predicate BelowMin(r: Rule, v: Value) { r.min.Some? && NumberOf(v).Some? && NumberOf(v).value < r.min.value.value }
  predicate AboveMax(r: Rule, v: Value) { r.max.Some? && NumberOf(v).Some? && NumberOf(v).value > r.max.value.value }
  /** What the custom check answers; "" when there is none. */
  function CustomMessage(r: Rule, v: Value): string
  {
    match r.custom
    case None => ""
    case Some(f) => f(v)
  }
  predicate CustomFails(r: Rule, v: Value) { CustomMessage(r, v) != "" }

  /** A failed check; `Custom` carries the custom check's own message. */
  datatype Complaint =
    | IsRequired
    | ShorterThan(minLength: nat)
    | LongerThan(maxLength: nat)
    | BadFormat
    | Below(min: string)
    | Above(max: string)
    | Custom(message: string)

  /** The message shown for a complaint about the field displayed as `d`. */
  function MessageOf(d: string, c: Complaint): (m: string)
    requires c.Custom? ==> c.message != ""
    ensures m != ""
  {
    match c
    case IsRequired => d + " is required"
    case ShorterThan(n) => d + " must be at least " + NatText(n) + " characters long"
    case LongerThan(n) => d + " must not exceed " + NatText(n) + " characters"
    case BadFormat => d + " format is invalid"
    case Below(t) => d + " must be at least " + t
    case Above(t) => d + " must not exceed " + t
    case Custom(t) => t
  }

  /** The checks of `validateField`, in order; None when the value passes. */
  function Check(r: Rule, v: Value): (c: Option<Complaint>)
    ensures c.Some? && c.value.Custom? ==> c.value.message != ""
  {
    if r.required && Missing(v) then Some(IsRequired)
    else if !Truthy(v) && !r.required then None
    else if v.Text? && TooShort(r, v.s) then Some(ShorterThan(r.minLength.value))
    else if v.Text? && TooLong(r, v.s) then Some(LongerThan(r.maxLength.value))
    else if v.Text? && Mismatch(r, v.s) then Some(BadFormat)
    else if IsNumeric(v) && BelowMin(r, v) then Some(Below(r.min.value.text))
    else if IsNumeric(v) && AboveMax(r, v) then Some(Above(r.max.value.text))
    else if CustomFails(r, v) then Some(Custom(CustomMessage(r, v)))
    else None
  }

  /** `validateField`: '' when the field has no rules or the value passes, otherwise the first failing check's message. */
  function ValidateField(rules: seq<NamedRule>, name: string, v: Value): (m: string)
    ensures m == "" <==> RuleFor(rules, name).None? || Check(RuleFor(rules, name).value, v).None?
  {
    match RuleFor(rules, name)
    case None => ""
    case Some(r) =>
      match Check(r, v)
      case None => ""
      case Some(c) => MessageOf(ErrorHandler.FormatFieldName(name), c)
  }

  /** Every check a value fails, each judged on its own, in the order the rules list them. */
  function Failures(r: Rule, v: Value): seq<Complaint>
  {
    (if r.required && Missing(v) then [IsRequired] else [])
    + (if v.Text? && TooShort(r, v.s) then [ShorterThan(r.minLength.value)] else [])
    + (if v.Text? && TooLong(r, v.s) then [LongerThan(r.maxLength.value)] else [])
    + (if v.Text? && Mismatch(r, v.s) then [BadFormat] else [])
    + (if IsNumeric(v) && BelowMin(r, v) then [Below(r.min.value.text)] else [])
    + (if IsNumeric(v) && AboveMax(r, v) then [Above(r.max.value.text)] else [])
    + (if CustomFails(r, v) then [Custom(CustomMessage(r, v))] else [])
  }

  /**
   * The first failure wins: a falsy value of a field that is not required
   * passes; otherwise the complaint is the first of all the failures, and
   * there is none exactly when nothing fails.
   */
  lemma FirstFailureWins(r: Rule, v: Value)
    ensures !r.required && !Truthy(v) ==> Check(r, v).None?
    ensures r.required || Truthy(v) ==>
      Check(r, v) == if Failures(r, v) == [] then None else Some(Failures(r, v)[0])
  {
    var f := Failures(r, v);
    if r.required && Missing(v) {
      assert f[0] == IsRequired;
    } else if r.required || Truthy(v) {
      if v.Text? && TooShort(r, v.s) {
        assert f[0] == ShorterThan(r.minLength.value);
      } else if v.Text? && TooLong(r, v.s) {
        assert f[0] == LongerThan(r.maxLength.value);
      } else if v.Text? && Mismatch(r, v.s) {
        assert f[0] == BadFormat;
      } else if IsNumeric(v) && BelowMin(r, v) {
        assert f[0] == Below(r.min.value.text);
      } else if IsNumeric(v) && AboveMax(r, v) {
        assert f[0] == Above(r.max.value.text);
      }
    }
  }

  /** A required field holding a falsy value or only white space is reported as required, whatever else its rules say. */
  lemma RequiredComesFirst(r: Rule, v: Value)
    requires r.required
    ensures Check(r, v) == Some(IsRequired) <==> Missing(v)
  {
  }

  /** `getValidationErrorType` for messages the form itself produced. */
  function ErrorTypeOf(message: string): (t: string)
    ensures t in {"required", "format", "range", "custom"}
    ensures t == "required" <==> Contains(message, "required")
    ensures t == "custom" <==>
      !Contains(message, "required") && !Contains(message, "format") && !Contains(message, "invalid") &&
      !Contains(message, "must be") && !Contains(message, "characters") && !Contains(message, "at least") &&
      !Contains(message, "exceed")
  {
    if Contains(message, "required") then "required"
    else if Contains(message, "format") || Contains(message, "invalid") then "format"
    else if Contains(message, "must be") || Contains(message, "characters") || Contains(message, "at least")
         || Contains(message, "exceed") then "range"
    else "custom"
  }

  /** A missing required value is classified as "required"; a pattern mismatch is never "custom", and is "format" unless the message also says "required". */
  lemma BuiltInMessageTypes(d: string)
    ensures ErrorTypeOf(d + " is required") == "required"
    ensures ErrorTypeOf(d + " format is invalid") != "custom"
    ensures !Contains(d + " format is invalid", "required") ==> ErrorTypeOf(d + " format is invalid") == "format"
  {
    assert d + " is required" == (d + " is ") + "required";
    ErrorHandler.ContainsSuffix(d + " is ", "required");
    assert d + " format is invalid" == (d + " format is ") + "invalid";
    ErrorHandler.ContainsSuffix(d + " format is ", "invalid");
  }

  // ------------------------------------------------------------------
  // The form state
  // ------------------------------------------------------------------

  function ValueOf(values: map<string, Value>, name: string): Value
  {
    if name in values then values[name] else Undefined
  }

  function Names(rules: seq<NamedRule>): (r: seq<string>)
    ensures |r| == |rules| && forall i :: 0 <= i < |rules| ==> r[i] == rules[i].field
  {
    seq(|rules|, i requires 0 <= i < |rules| => rules[i].field)
  }

  /** The message `validateForm` records for a field. */
  function Message(rules: seq<NamedRule>, values: map<string, Value>, name: string): string
  {
    ValidateField(rules, name, ValueOf(values, name))
  }

  /** The same, as the function of a field name that the collecting loop applies. */
  function MessageFn(rules: seq<NamedRule>, values: map<string, Value>): string -> string
  {
    n => Message(rules, values, n)
  }

  /** The errors `validateForm` collects over `names`, in order, given each field's message. */
  function ErrorsOver(msg: string -> string, names: seq<string>): map<string, string>
  {
    if names == [] then map[]
    else
      var n := names[|names| - 1];
      var m := ErrorsOver(msg, names[..|names| - 1]);
      if msg(n) != "" then m[n := msg(n)] else m
  }

  /** The entry `validateForm` reports for a failing field. */
  function Entry(name: string, message: string): Alerts.ValidationError
  {
    Alerts.ValidationError(ErrorHandler.FormatFieldName(name), message, Some(ErrorTypeOf(message)))
  }

  /** The validation errors `validateForm` reports over `names`, in order. */
  function ReportOver(msg: string -> string, names: seq<string>): seq<Alerts.ValidationError>
  {
    if names == [] then []
    else
      var n := names[|names| - 1];
      ReportOver(msg, names[..|names| - 1]) + (if msg(n) != "" then [Entry(n, msg(n))] else [])
  }

  /** One more field extends what has been collected by that field alone. */
  lemma OverStep(msg: string -> string, names: seq<string>, i: nat)
    requires i < |names|
    ensures ErrorsOver(msg, names[..i + 1]) == if msg(names[i]) != "" then ErrorsOver(msg, names[..i])[names[i] := msg(names[i])] else ErrorsOver(msg, names[..i])
    ensures ReportOver(msg, names[..i + 1]) == ReportOver(msg, names[..i]) + if msg(names[i]) != "" then [Entry(names[i], msg(names[i]))] else []
  {
    assert names[..i + 1][..i] == names[..i];
  }

  /** The collected errors are exactly the failing fields, each with its message. */
  lemma {:induction false} ErrorsOverExact(msg: string -> string, names: seq<string>)
    ensures forall k :: k in ErrorsOver(msg, names) <==> k in names && msg(k) != ""
    ensures forall k :: k in ErrorsOver(msg, names) ==> ErrorsOver(msg, names)[k] == msg(k)
  {
    if names != [] {
      var init := names[..|names| - 1];
      ErrorsOverExact(msg, init);
      assert names == init + [names[|names| - 1]];
    }
  }

  /** The report is empty exactly when every field passes. */
  lemma {:induction false} ReportEmpty(msg: string -> string, names: seq<string>)
    ensures ReportOver(msg, names) == [] <==> forall i :: 0 <= i < |names| ==> msg(names[i]) == ""
    ensures |ReportOver(msg, names)| <= |names|
  {
    if names != [] {
      var init := names[..|names| - 1];
      ReportEmpty(msg, init);
      assert forall i :: 0 <= i < |init| ==> init[i] == names[i];
    }
  }

  /** The `forEach` of `validateForm`: each field's message, kept when it is not ''. */
  method CollectErrors(msg: string -> string, names: seq<string>)
      returns (newErrors: map<string, string>, report: seq<Alerts.ValidationError>)
    ensures newErrors == ErrorsOver(msg, names)
    ensures report == ReportOver(msg, names)
  {
    newErrors, report := map[], [];
    var i := 0;
    while i < |names|
      invariant 0 <= i <= |names|
      invariant newErrors == ErrorsOver(msg, names[..i])
      invariant report == ReportOver(msg, names[..i])
    {
      var n := names[i];
      var e := msg(n);
      OverStep(msg, names, i);
      if e != "" {
        newErrors := newErrors[n := e];
        report := report + [Entry(n, e)];
      }
      i := i + 1;
    }
    assert names[..i] == names;
  }

  /** Every ruled field touched and nothing else. */
  function AllTouched(names: seq<string>): (t: map<string, bool>)
    ensures forall k :: k in t <==> k in names
    ensures forall k :: k in t ==> t[k]
  {
    map k | k in names :: true
  }

  /** `isValid`: every stored message is ''. */
  predicate NoneFailing(errors: map<string, string>)
  {
    forall k :: k in errors ==> errors[k] == ""
  }

  /** `hasErrors`: some stored message is not ''. */
  predicate SomeFailing(errors: map<string, string>)
  {
    exists k :: k in errors && errors[k] != ""
  }

  lemma HasErrorsIsNotValid(errors: map<string, string>)
    ensures SomeFailing(errors) <==> !NoneFailing(errors)
  {
  }

  /**
   * The validation errors `validateForm` reports for a whole form: one
   * entry per failing ruled field, none exactly when every field passes.
   */
  function Report(rules: seq<NamedRule>, values: map<string, Value>): (r: seq<Alerts.ValidationError>)
    ensures r == [] <==> forall i :: 0 <= i < |rules| ==> Message(rules, values, rules[i].field) == ""
    ensures |r| <= |rules|
  {
    ReportEmpty(MessageFn(rules, values), Names(rules));
    AllFieldsPass(rules, values);
    ReportOver(MessageFn(rules, values), Names(rules))
  }

  /** The title `validateForm` gives the summary alert. */
  const FailedTitle := "Form Validation Failed"

  class FormState {
    const rules: seq<NamedRule>
    const initial: map<string, Value>
    var values: map<string, Value>
    var errors: map<string, string>
    var touched: map<string, bool>

    constructor(initialValues: map<string, Value>, validationRules: seq<NamedRule>)
      ensures rules == validationRules && initial == initialValues
      ensures values == initialValues && errors == map[] && touched == map[]
    {
      rules := validationRules;
      initial := initialValues;
      values := initialValues;
      errors := map[];
      touched := map[];
    }

    predicate IsValid()
      reads this
    {
      NoneFailing(errors)
    }

    predicate HasErrors()
      reads this
    {
      SomeFailing(errors)
    }

    /**
     * `validateForm`: validate every ruled field, replace the errors with
     * the failing ones, touch every ruled field, and when asked to show
     * alerts and something failed, summarise the failures in one alert.
     */
    method ValidateForm(showAlerts: bool, queue: Alerts.AlertQueue, id: string) returns (ok: bool)
      modifies this, queue
      ensures values == old(values)
      ensures errors == ErrorsOver(MessageFn(rules, values), Names(rules))
      ensures touched == AllTouched(Names(rules))
      ensures ok <==> forall i :: 0 <= i < |rules| ==> Message(rules, values, rules[i].field) == ""
      ensures var report := ReportOver(MessageFn(rules, values), Names(rules));
        if showAlerts && report != [] then
          var d := Alerts.ValidationSummary(report, Some(FailedTitle)).value;
          queue.alerts == Alerts.WithoutKind(old(queue.alerts), Alerts.Error) + [Alerts.WithDefaults(id, d)] &&
          queue.timers == old(queue.timers) + Alerts.ShownTimers(Alerts.WithDefaults(id, d))
        else queue.alerts == old(queue.alerts) && queue.timers == old(queue.timers)
    {
      var report := Revalidate();
      assert report == Report(rules, values);
      if report != [] && showAlerts {
        queue.ShowValidationErrors(report, Some(FailedTitle), id);
        ok := false;
      } else {
        ok := report == [];
      }
    }

    /** The first half of `validateForm`: every ruled field's message collected, and every ruled field touched. */
    method Revalidate() returns (report: seq<Alerts.ValidationError>)
      modifies this
      ensures values == old(values)
      ensures errors == ErrorsOver(MessageFn(rules, values), Names(rules))
      ensures touched == AllTouched(Names(rules))
      ensures report == ReportOver(MessageFn(rules, values), Names(rules))
    {
      var names := Names(rules);
      var newErrors;
      newErrors, report := CollectErrors(MessageFn(rules, values), names);
      errors := newErrors;
      touched := AllTouched(names);
    }

    /** `handleChange`: set one value, and clear that field's error if it had one. */
    method HandleChange(name: string, v: Value)
      modifies this
      ensures values == old(values)[name := v] && touched == old(touched)
      ensures errors == if name in old(errors) && old(errors)[name] != "" then old(errors)[name := ""] else old(errors)
    {
      values := values[name := v];
      if name in errors && errors[name] != "" {
        errors := errors[name := ""];
      }
    }

    /** `handleBlur`: touch one field and store its message. */
    method HandleBlur(name: string)
      modifies this
      ensures touched == old(touched)[name := true] && values == old(values)
      ensures errors == old(errors)[name := Message(rules, values, name)]
    {
      touched := touched[name := true];
      errors := errors[name := ValidateField(rules, name, ValueOf(values, name))];
    }

    /** `resetForm`. */
    method ResetForm()
      modifies this
      ensures values == initial && errors == map[] && touched == map[]
    {
      values := initial;
      errors := map[];
      touched := map[];
    }
  }

  /** Every name passing under the collecting loop's message function is every ruled field passing. */
  lemma AllFieldsPass(rules: seq<NamedRule>, values: map<string, Value>)
    ensures (forall i :: 0 <= i < |Names(rules)| ==> MessageFn(rules, values)(Names(rules)[i]) == "") <==>
            (forall i :: 0 <= i < |rules| ==> Message(rules, values, rules[i].field) == "")
  {
    var names, m := Names(rules), MessageFn(rules, values);
    forall i | 0 <= i < |rules| ensures m(names[i]) == Message(rules, values, rules[i].field) {
    }
  }

  /** A change touches only the named field: other values and other messages stay, and the field's own message is cleared. */
  lemma ChangeIsLocal(errors: map<string, string>, name: string, other: string)
    requires other != name
    ensures var e := if name in errors && errors[name] != "" then errors[name := ""] else errors;
      (other in e <==> other in errors) && (other in e ==> e[other] == errors[other]) &&
      (name in e ==> e[name] == "")
  {
  }

  /** After validating the form, a form is valid exactly when every ruled field passed. */
  lemma {:induction false} ValidatedFormIsValid(msg: string -> string, names: seq<string>)
    ensures NoneFailing(ErrorsOver(msg, names)) <==> forall i :: 0 <= i < |names| ==> msg(names[i]) == ""
  {
    ErrorsOverExact(msg, names);
    if !NoneFailing(ErrorsOver(msg, names)) {
      var k :| k in ErrorsOver(msg, names) && ErrorsOver(msg, names)[k] != "";
      var i :| 0 <= i < |names| && names[i] == k;
    }
  }
}
