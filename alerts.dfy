/**
 * The application-wide alert queue: a list of alerts shown on screen, the
 * ways components add, change and remove them, and the auto-removal timers
 * that adding or changing an alert schedules.  Alert ids come from the
 * caller (the original draws them at random); timers are recorded, never
 * run.
 */
module Alerts {
  import opened Common

  /** Milliseconds an alert stays up unless told otherwise. */
  const AlertDuration: nat := 5000

  datatype AlertKind = Success | Error | Warning | Info | Loading
  datatype Position = TopRight | TopLeft | BottomRight | BottomLeft | Center
  datatype ActionStyle = Primary | Secondary | Danger

  /** A button on an alert; what clicking it does is not modelled. */
  datatype AlertAction = AlertAction(caption: string, style: Option<ActionStyle>)

  /** Everything an alert holds except its id; None is a field left `undefined`. */
  datatype Draft = Draft(
    kind: AlertKind,
    title: Option<string>,
    message: string,
    duration: Option<nat>,
    persistent: Option<bool>,
    actions: Option<seq<AlertAction>>,
    dismissible: Option<bool>,
    position: Option<Position>)

  datatype Alert = Alert(id: string, body: Draft)

  /** A `Partial<Alert>`: the fields a caller sets. */
  datatype Patch = Patch(
    kind: Option<AlertKind>,
    title: Option<string>,
    message: Option<string>,
    duration: Option<nat>,
    persistent: Option<bool>,
    actions: Option<seq<AlertAction>>,
    dismissible: Option<bool>,
    position: Option<Position>)

  const NoPatch := Patch(None, None, None, None, None, None, None, None)

  /** A field-level validation error as components report it. */
  datatype ValidationError = ValidationError(field: string, message: string, kind: Option<string>)

  /** A scheduled `removeAlert(id)` after `delay` milliseconds. */
  datatype Timer = RemoveAfter(id: string, delay: nat)

  function Or<T>(a: Option<T>, b: Option<T>): Option<T>
  {
    if a.Some? then a else b
  }

  /** `{...d, ...p}`: every field the patch sets wins. */
  function Apply(d: Draft, p: Patch): (r: Draft)
    ensures p.kind.Some? ==> r.kind == p.kind.value
    ensures p.kind.None? ==> r.kind == d.kind
    ensures p.message.Some? ==> r.message == p.message.value
    ensures p.message.None? ==> r.message == d.message
    ensures r.duration == Or(p.duration, d.duration) && r.persistent == Or(p.persistent, d.persistent)
    ensures r.title == Or(p.title, d.title) && r.actions == Or(p.actions, d.actions)
    ensures r.dismissible == Or(p.dismissible, d.dismissible) && r.position == Or(p.position, d.position)
  {
    Draft(
      if p.kind.Some? then p.kind.value else d.kind,
      Or(p.title, d.title),
      if p.message.Some? then p.message.value else d.message,
      Or(p.duration, d.duration),
      Or(p.persistent, d.persistent),
      Or(p.actions, d.actions),
      Or(p.dismissible, d.dismissible),
      Or(p.position, d.position))
  }

  /** A patch that sets nothing leaves a draft as it is. */
  lemma ApplyNothing(d: Draft)
    ensures Apply(d, NoPatch) == d
  {
  }

  predicate HasDuration(d: Draft) { d.duration.Some? && d.duration.value != 0 }
  predicate IsPersistent(d: Draft) { d.persistent == Some(true) }

  /** `showAlert`'s new alert: the defaults (5 s, dismissible, top right) under the caller's fields. */
  function WithDefaults(id: string, d: Draft): (a: Alert)
    ensures a.id == id && a.body.kind == d.kind && a.body.message == d.message && a.body.title == d.title
    ensures a.body.duration == (if d.duration.Some? then d.duration else Some(AlertDuration))
    ensures a.body.dismissible == (if d.dismissible.Some? then d.dismissible else Some(true))
    ensures a.body.position == (if d.position.Some? then d.position else Some(TopRight))
    ensures a.body.persistent == d.persistent && a.body.actions == d.actions
  {
    Alert(id, Draft(d.kind, d.title, d.message, Or(d.duration, Some(AlertDuration)), d.persistent, d.actions,
                    Or(d.dismissible, Some(true)), Or(d.position, Some(TopRight))))
  }

  /** Only alerts that are neither persistent nor loading, and have a truthy duration, remove themselves. */
  predicate AutoRemoves(a: Alert)
  {
    !IsPersistent(a.body) && a.body.kind != Loading && HasDuration(a.body)
  }

  /** The removal timer an alert schedules when it is shown. */
  function ShownTimers(a: Alert): (t: seq<Timer>)
    ensures |t| <= 1
    ensures t != [] <==> AutoRemoves(a)
    ensures t != [] ==> t == [RemoveAfter(a.id, a.body.duration.value)]
  {
    if AutoRemoves(a) then [RemoveAfter(a.id, a.body.duration.value)] else []
  }

  /** `updateAlert`'s change to one alert: the patch, then the default duration for a non-loading alert that has none. */
  function Updated(a: Alert, p: Patch): (r: Alert)
    ensures r.id == a.id
    ensures var u := Apply(a.body, p);
      r.body == if !HasDuration(u) && u.kind != Loading then u.(duration := Some(AlertDuration)) else u
    ensures r.body.kind != Loading ==> HasDuration(r.body)
  {
    var u := Apply(a.body, p);
    Alert(a.id, if !HasDuration(u) && u.kind != Loading then u.(duration := Some(AlertDuration)) else u)
  }

  /** The removal timer `updateAlert` schedules for an alert turning from loading into something else. */
  function UpdateTimer(a: Alert, p: Patch): (t: seq<Timer>)
    ensures t != [] <==> a.body.kind == Loading && Updated(a, p).body.kind != Loading && !IsPersistent(Updated(a, p).body)
    ensures t != [] ==> t == [RemoveAfter(a.id, Updated(a, p).body.duration.value)]
  {
    var u := Updated(a, p).body;
    if a.body.kind == Loading && u.kind != Loading && !IsPersistent(u) then
      [RemoveAfter(a.id, if HasDuration(u) then u.duration.value else AlertDuration)]
    else []
  }

  function UpdateAll(alerts: seq<Alert>, id: string, p: Patch): (r: seq<Alert>)
    ensures |r| == |alerts|
    ensures forall i :: 0 <= i < |alerts| ==> r[i] == if alerts[i].id == id then Updated(alerts[i], p) else alerts[i]
  {
    seq(|alerts|, i requires 0 <= i < |alerts| => if alerts[i].id == id then Updated(alerts[i], p) else alerts[i])
  }

  function UpdateTimers(alerts: seq<Alert>, id: string, p: Patch): seq<Timer>
  {
    if alerts == [] then []
    else (if alerts[0].id == id then UpdateTimer(alerts[0], p) else []) + UpdateTimers(alerts[1..], id, p)
  }

  /** Every timer `updateAlert` schedules removes the alert being updated. */
  lemma {:induction false} UpdateTimersTarget(alerts: seq<Alert>, id: string, p: Patch)
    ensures forall t :: t in UpdateTimers(alerts, id, p) ==> t.id == id
    ensures (forall a :: a in alerts ==> a.body.kind != Loading) ==> UpdateTimers(alerts, id, p) == []
  {
    if alerts != [] {
      UpdateTimersTarget(alerts[1..], id, p);
      assert forall a :: a in alerts[1..] ==> a in alerts;
    }
  }

  /** The alerts other than those with `id`, in order. */
  function WithoutId(alerts: seq<Alert>, id: string): (r: seq<Alert>)
    ensures forall a :: a in r <==> a in alerts && a.id != id
    ensures IsSubseq(r, alerts)
  {
    FilterIsSubseq(alerts, (a: Alert) => a.id != id);
    Filter(alerts, (a: Alert) => a.id != id)
  }

  /** The alerts not of `kind`, in order. */
  function WithoutKind(alerts: seq<Alert>, kind: AlertKind): (r: seq<Alert>)
    ensures forall a :: a in r <==> a in alerts && a.body.kind != kind
    ensures IsSubseq(r, alerts)
  {
    FilterIsSubseq(alerts, (a: Alert) => a.body.kind != kind);
    Filter(alerts, (a: Alert) => a.body.kind != kind)
  }

  /** Both removals keep every other alert exactly as many times as it was queued. */
  lemma RemovalCounts(alerts: seq<Alert>, id: string, kind: AlertKind)
    ensures forall a :: multiset(WithoutId(alerts, id))[a] == if a.id != id then multiset(alerts)[a] else 0
    ensures forall a :: multiset(WithoutKind(alerts, kind))[a] == if a.body.kind != kind then multiset(alerts)[a] else 0
  {
    forall a ensures multiset(WithoutId(alerts, id))[a] == if a.id != id then multiset(alerts)[a] else 0 {
      FilterMultiset(alerts, (a: Alert) => a.id != id, a);
    }
    forall a ensures multiset(WithoutKind(alerts, kind))[a] == if a.body.kind != kind then multiset(alerts)[a] else 0 {
      FilterMultiset(alerts, (a: Alert) => a.body.kind != kind, a);
    }
  }

  // ------------------------------------------------------------------
  // Validation summaries
  // ------------------------------------------------------------------

  /** `lines.join("\n")`. */
  function JoinLines(lines: seq<string>): string
  {
    if lines == [] then "" else if |lines| == 1 then lines[0] else lines[0] + "\n" + JoinLines(lines[1..])
  }

  /** Lines without line breaks are recovered from their join. */
  lemma {:induction false} JoinLinesSplits(lines: seq<string>)
    requires lines != []
    requires forall i :: 0 <= i < |lines| ==> '\n' !in lines[i]
    ensures Split(JoinLines(lines), '\n') == lines
  {
    if |lines| == 1 {
      SplitAfter(lines[0], "", '\n');
      assert lines[0] + "" == lines[0];
    } else {
      var t := JoinLines(lines[1..]);
      JoinLinesSplits(lines[1..]);
      assert lines[0] + "\n" + t == lines[0] + ("\n" + t);
      SplitAfter(lines[0], "\n" + t, '\n');
      assert ("\n" + t)[0] == '\n' && ("\n" + t)[1..] == t;
      assert Split("\n" + t, '\n') == [""] + Split(t, '\n');
      assert lines[0] + "" == lines[0];
      assert lines == [lines[0]] + lines[1..];
    }
  }

  /** The "• message" line of each error. */
  function Bullets(errors: seq<ValidationError>): (r: seq<string>)
    ensures |r| == |errors| && forall i :: 0 <= i < |errors| ==> r[i] == "• " + errors[i].message
  {
    seq(|errors|, i requires 0 <= i < |errors| => "• " + errors[i].message)
  }

  /** `title || fallback`. */
  function TitleOr(title: Option<string>, fallback: string): string
  {
    if title.Some? && title.value != "" then title.value else fallback
  }

  /** The alert `showValidationErrors` adds, if any. */
  function ValidationSummary(errors: seq<ValidationError>, title: Option<string>): (d: Option<Draft>)
    ensures d.None? <==> errors == []
    ensures d.Some? ==> d.value.kind == Error && d.value.duration == Some(AlertDuration)
    ensures |errors| == 1 ==> d.value.message == errors[0].message && d.value.title == Some(TitleOr(title, "Validation Error"))
    ensures |errors| > 1 ==> d.value.title == Some(TitleOr(title, NatText(|errors|) + " Validation Errors"))
  {
    if |errors| == 1 then
      Some(Draft(Error, Some(TitleOr(title, "Validation Error")), errors[0].message, Some(AlertDuration), None, None, None, None))
    else if |errors| > 1 then
      Some(Draft(Error, Some(TitleOr(title, NatText(|errors|) + " Validation Errors")), JoinLines(Bullets(errors)),
                 Some(AlertDuration), None, None, None, None))
    else None
  }

  /** With several errors, the message holds one bullet line per error, in order. */
  lemma SummaryLines(errors: seq<ValidationError>, title: Option<string>)
    requires |errors| > 1
    requires forall i :: 0 <= i < |errors| ==> '\n' !in errors[i].message
    ensures Split(ValidationSummary(errors, title).value.message, '\n') == Bullets(errors)
  {
    var b := Bullets(errors);
    forall i | 0 <= i < |b| ensures '\n' !in b[i] {
      assert b[i] == "• " + errors[i].message;
    }
    JoinLinesSplits(b);
  }

  // ------------------------------------------------------------------
  // showApiError
  // ------------------------------------------------------------------

  /**
   * What `showApiError` may be handed: an object (with an array of
   * `errors` or not, a `message` that is "" when absent, a `statusCode`
   * that is 0 when absent, and whether it is an `Error`), a string, or
   * anything else.
   */
  datatype ApiErrorInput =
    | ErrorObject(errors: Option<seq<ValidationError>>, message: string, statusCode: int, isError: bool)
    | TextError(s: string)
    | OtherValue

  /** Where `showApiError` sends an error. */
  datatype Route = AsValidation(errors: seq<ValidationError>) | AsError(message: string, title: Option<string>)

  function ApiErrorRoute(error: ApiErrorInput, defaultMessage: string): (r: Route)
    ensures error.ErrorObject? && error.errors.Some? ==> r == AsValidation(error.errors.value)
    ensures r.AsValidation? ==> error.ErrorObject? && error.errors.Some?
    ensures error.ErrorObject? && error.errors.None? && error.message != "" ==>
      r == AsError(error.message, if error.statusCode != 0 then Some("Error " + IntText(error.statusCode)) else None)
    ensures error.ErrorObject? && error.errors.None? && error.message == "" && error.isError ==> r == AsError("", Some("Error"))
    ensures error.TextError? ==> r == AsError(error.s, None)
    ensures error.OtherValue? || (error.ErrorObject? && error.errors.None? && error.message == "" && !error.isError) ==>
      r == AsError(defaultMessage, None)
  {
    match error
    case ErrorObject(errors, message, code, isError) =>
      if errors.Some? then AsValidation(errors.value)
      else if message != "" then AsError(message, if code != 0 then Some("Error " + IntText(code)) else None)
      else if isError then AsError(message, Some("Error"))
      else AsError(defaultMessage, None)
    case TextError(s) => AsError(s, None)
    case OtherValue => AsError(defaultMessage, None)
  }

  /** A typed alert as `showSuccess`/`showError`/`showWarning`/`showInfo` build it before `showAlert`. */
  function Typed(kind: AlertKind, message: string, title: Option<string>, options: Patch): Draft
  {
    Apply(Draft(kind, title, message, Some(AlertDuration), None, None, None, None), options)
  }

  const ConfirmActions := [AlertAction("Confirm", Some(Primary)), AlertAction("Cancel", Some(Secondary))]

  class AlertQueue {
    var alerts: seq<Alert>
    var timers: seq<Timer>

    constructor()
      ensures alerts == [] && timers == []
    {
      alerts := [];
      timers := [];
    }

    /** `showAlert`: append the alert with its defaults and schedule its removal if it removes itself. */
    method ShowAlert(d: Draft, id: string) returns (r: string)
      modifies this
      ensures r == id
      ensures alerts == old(alerts) + [WithDefaults(id, d)]
      ensures timers == old(timers) + ShownTimers(WithDefaults(id, d))
    {
      var a := WithDefaults(id, d);
      alerts := alerts + [a];
      if AutoRemoves(a) {
        timers := timers + [RemoveAfter(id, a.body.duration.value)];
      }
      r := id;
    }

    /** `showSuccess`, `showError`, `showWarning` and `showInfo`, which differ only in `kind`. */
    method ShowTyped(kind: AlertKind, message: string, title: Option<string>, options: Patch, id: string) returns (r: string)
      modifies this
      ensures r == id
      ensures alerts == old(alerts) + [WithDefaults(id, Typed(kind, message, title, options))]
      ensures timers == old(timers) + ShownTimers(WithDefaults(id, Typed(kind, message, title, options)))
    {
      r := ShowAlert(Typed(kind, message, title, options), id);
    }

    /** `showLoading`: a persistent alert that cannot be dismissed and never removes itself. */
    method ShowLoading(message: string, title: Option<string>, id: string) returns (r: string)
      modifies this
      ensures r == id
      ensures alerts == old(alerts) + [WithDefaults(id, Draft(Loading, title, message, None, Some(true), None, Some(false), None))]
      ensures timers == old(timers)
    {
      r := ShowAlert(Draft(Loading, title, message, None, Some(true), None, Some(false), None), id);
    }

    /** `showConfirmation`: a persistent warning offering Confirm, then Cancel. */
    method ShowConfirmation(message: string, id: string) returns (r: string)
      modifies this
      ensures r == id
      ensures alerts == old(alerts) + [WithDefaults(id, Draft(Warning, Some("Confirmation Required"), message, None, Some(true), Some(ConfirmActions), None, None))]
      ensures timers == old(timers)
    {
      r := ShowAlert(Draft(Warning, Some("Confirmation Required"), message, None, Some(true), Some(ConfirmActions), None, None), id);
    }

    /** `showValidationErrors`: drop every error alert, then add one summary if there are errors. */
    method ShowValidationErrors(errors: seq<ValidationError>, title: Option<string>, id: string)
      modifies this
      ensures var kept := WithoutKind(old(alerts), Error);
        match ValidationSummary(errors, title)
        case None => alerts == kept && timers == old(timers)
        case Some(d) => alerts == kept + [WithDefaults(id, d)] && timers == old(timers) + ShownTimers(WithDefaults(id, d))
    {
      ClearAlertsByType(Error);
      var summary := ValidationSummary(errors, title);
      if summary.Some? {
        var _ := ShowAlert(summary.value, id);
      }
    }

    /** `showApiError`: validation errors, a message, an Error, a string, or the default, in that order. */
    method ShowApiError(error: ApiErrorInput, defaultMessage: string, id: string)
      modifies this
      ensures match ApiErrorRoute(error, defaultMessage)
        case AsValidation(errs) =>
          var kept := WithoutKind(old(alerts), Error);
          (match ValidationSummary(errs, Some("Validation Failed"))
           case None => alerts == kept && timers == old(timers)
           case Some(d) => alerts == kept + [WithDefaults(id, d)] && timers == old(timers) + ShownTimers(WithDefaults(id, d)))
        case AsError(m, t) =>
          alerts == old(alerts) + [WithDefaults(id, Typed(Error, m, t, NoPatch))] &&
          timers == old(timers) + ShownTimers(WithDefaults(id, Typed(Error, m, t, NoPatch)))
    {
      match ApiErrorRoute(error, defaultMessage)
      case AsValidation(errs) =>
        ShowValidationErrors(errs, Some("Validation Failed"), id);
      case AsError(m, t) =>
        var _ := ShowTyped(Error, m, t, NoPatch, id);
    }

    /** `removeAlert`. */
    method RemoveAlert(id: string)
      modifies this
      ensures alerts == WithoutId(old(alerts), id) && timers == old(timers)
    {
      alerts := WithoutId(alerts, id);
    }

    /** `updateAlert`: patch every alert with the id, scheduling removal for those that stop loading. */
    method UpdateAlert(id: string, p: Patch)
      modifies this
      ensures alerts == UpdateAll(old(alerts), id, p)
      ensures timers == old(timers) + UpdateTimers(old(alerts), id, p)
    {
      timers := timers + UpdateTimers(alerts, id, p);
      alerts := UpdateAll(alerts, id, p);
    }

    /** `clearAlerts`. */
    method ClearAlerts()
      modifies this
      ensures alerts == [] && timers == old(timers)
    {
      alerts := [];
    }

    /** `clearAlertsByType`. */
    method ClearAlertsByType(kind: AlertKind)
      modifies this
      ensures alerts == WithoutKind(old(alerts), kind) && timers == old(timers)
    {
      alerts := WithoutKind(alerts, kind);
    }
  }
}
