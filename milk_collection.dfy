/**
 * The milk-collection page: the entry form and the edit form for a
 * delivery, how the amount is filled in from the fat-rate table, the
 * checks a submission passes before it is sent, and the list of
 * collections the page shows, filtered by date and by morning or evening.
 *
 * What the page asks the alert context to show is recorded as a list of
 * notices; the server's answer to a save is a parameter.
 */
module MilkCollection {
  import opened Common
  import opened Types
  import opened Numbers
  import opened FatRates
  import FormValidation
  import Alerts
  import ErrorHandler

  /** The text fields of the entry form and of the edit form. */
  datatype EntryForm = EntryForm(userId: string, date: string, time: string, liters: string, fatPercentage: string, amount: string)

  const BlankForm := EntryForm("", "", "", "", "", "")

  /**
   * What a notice says; the fat value of `NoRateFor` is None when it is NaN.
   * `ValidationFailed` is the form hook's summary of the failing fields.
   */
  datatype Message =
    | Fixed(text: string)
    | NoRateFor(fat: Option<real>)
    | AddedFor(name: string)
    | UpdatedFor(name: string)
    | ValidationFailed(errors: seq<Alerts.ValidationError>)

  /**
   * A request to the alert context: `showSuccess`, `showError`,
   * `showWarning`, or, for `ValidationFailed`, `showValidationErrors`,
   * whose effect on the queue is `Alerts.AlertQueue.ShowValidationErrors`.
   */
  datatype Notice = Notice(kind: Alerts.AlertKind, message: Message, title: Option<string>)

  const ResolveFirst := "Please resolve the fat rate error before submitting."
  const SelectUser := "Please select a valid user."
  const DeactivatedAdd := "Cannot add collection for deactivated farmer. Please contact admin to reactivate the account."
  const DeactivatedEdit := "Cannot update collection for deactivated farmer. Please contact admin to reactivate the account."

  // ------------------------------------------------------------------
  // Rates and amounts
  // ------------------------------------------------------------------

  /** `fatRates.find(rate => rate.fatPercentage === f)`; NaN matches nothing. */
  function ExactRate(t: seq<FatRate>, f: Option<real>): (r: Option<FatRate>)
    ensures f.None? ==> r.None?
    ensures f.Some? ==> r == FindExact(t, f.value)
  {
    if f.Some? then FindExact(t, f.value) else None
  }

  /** `getExactRate`: the exactly matching row's rate, 0 when there is none. */
  function GetExactRate(t: seq<FatRate>, f: Option<real>): (r: real)
    ensures ExactRate(t, f).Some? ==> r == ExactRate(t, f).value.rate
    ensures ExactRate(t, f).None? ==> r == 0.0
  {
    match ExactRate(t, f)
    case Some(e) => e.rate
    case None => 0.0
  }

  /** `Math.abs(amount - liters * rate) > 0.01`; a NaN operand makes the comparison false. */
  predicate WasManuallyEdited(amount: Option<real>, liters: Option<real>, rate: real)
  {
    amount.Some? && liters.Some? && Abs(amount.value - Times(liters.value, rate)) > 0.01
  }

  /** `liters * rate`, the automatic amount before rounding. */
  function Times(liters: real, rate: real): real
  {
    liters * rate
  }

  /** `(liters * rate).toFixed(2)` with NaN liters written as "NaN". */
  function AmountText(liters: Option<real>, rate: real): string
  {
    if liters.Some? then FixedText(Times(liters.value, rate)) else "NaN"
  }

  /** The entry form's automatic amount: the rate comes from `calculateRate`. */
  function AddAmount(liters: string, fat: string, t: seq<FatRate>): string
  {
    var f := JsParseFloat(fat);
    AmountText(JsParseFloat(liters), if f.Some? then CalculateRate(f.value, t) else CalculateRateOfNaN(t))
  }

  /** The edit form's automatic amount: the rate is the exact match's, or 0. */
  function EditAmount(liters: string, fat: string, t: seq<FatRate>): string
  {
    AmountText(JsParseFloat(liters), GetExactRate(t, JsParseFloat(fat)))
  }

  /** The auto-amount effect of the entry form. */
  function AddAutoAmount(form: EntryForm, manual: bool, t: seq<FatRate>): (r: EntryForm)
    ensures r.(amount := form.amount) == form
    ensures manual || form.liters == "" || form.fatPercentage == "" ==> r == form
  {
    if !manual && form.liters != "" && form.fatPercentage != "" then form.(amount := AddAmount(form.liters, form.fatPercentage, t))
    else form
  }

  /** The auto-amount effect of the edit form. */
  function EditAutoAmount(form: EntryForm, manual: bool, t: seq<FatRate>): (r: EntryForm)
    ensures r.(amount := form.amount) == form
    ensures manual || form.liters == "" || form.fatPercentage == "" ==> r == form
  {
    if !manual && form.liters != "" && form.fatPercentage != "" then form.(amount := EditAmount(form.liters, form.fatPercentage, t))
    else form
  }

  /**
   * Whenever an exact row exists, interpolation never comes into play: the
   * two forms compute the same automatic amount, from that row's rate.
   */
  lemma SameAmountOnExactMatch(liters: string, fat: string, t: seq<FatRate>, e: FatRate)
    requires ExactRate(t, JsParseFloat(fat)) == Some(e)
    ensures AddAmount(liters, fat, t) == EditAmount(liters, fat, t) == AmountText(JsParseFloat(liters), e.rate)
  {
  }

  /**
   * An automatic amount is recorded as automatic: reading back the
   * two-decimal text gives a value within 0.005 of liters times the rate.
   */
  lemma AutoAmountIsNotManual(l: real, rate: real)
    ensures JsNumber(AmountText(Some(l), rate)) == Some(Fixed2(l * rate))
    ensures !WasManuallyEdited(JsNumber(AmountText(Some(l), rate)), Some(l), rate)
  {
    FixedTextReadsBack(Times(l, rate));
  }

  /** The fat-rate error `handleFatPercentageChange` leaves: the parsed fat when it is a number with no exact row. */
  function FatRateErrorFor(value: string, t: seq<FatRate>): (r: Option<real>)
    ensures r.Some? <==> value != "" && JsParseFloat(value).Some? && FindExact(t, JsParseFloat(value).value).None?
    ensures r.Some? ==> r == JsParseFloat(value)
  {
    var f := JsParseFloat(value);
    if value != "" && f.Some? && FindExact(t, f.value).None? then f else None
  }

  // ------------------------------------------------------------------
  // The entry form's validation rules
  // ------------------------------------------------------------------

  function Required(min: Option<FormValidation.Bound>, max: Option<FormValidation.Bound>): FormValidation.Rule
  {
    FormValidation.Rule(true, None, None, None, min, max, None)
  }

  const CollectionRules: seq<FormValidation.NamedRule> := [
    FormValidation.NamedRule("userId", Required(None, None)),
    FormValidation.NamedRule("date", Required(None, None)),
    FormValidation.NamedRule("time", Required(None, None)),
    FormValidation.NamedRule("liters", Required(Some(FormValidation.Bound(0.1, "0.1")), Some(FormValidation.Bound(1000.0, "1000")))),
    FormValidation.NamedRule("fatPercentage", Required(Some(FormValidation.Bound(0.1, "0.1")), Some(FormValidation.Bound(15.0, "15")))),
    FormValidation.NamedRule("amount", Required(Some(FormValidation.Bound(0.01, "0.01")), None))
  ]

  function FormValues(form: EntryForm): map<string, FormValidation.Value>
  {
    map["userId" := FormValidation.Text(form.userId), "date" := FormValidation.Text(form.date),
        "time" := FormValidation.Text(form.time), "liters" := FormValidation.Text(form.liters),
        "fatPercentage" := FormValidation.Text(form.fatPercentage), "amount" := FormValidation.Text(form.amount)]
  }

  /** What `validateForm()` answers for the entry form. */
  predicate FormPasses(form: EntryForm)
  {
    forall i :: 0 <= i < |CollectionRules| ==>
      FormValidation.Message(CollectionRules, FormValues(form), CollectionRules[i].field) == ""
  }

  // ------------------------------------------------------------------
  // Submissions
  // ------------------------------------------------------------------

  /** The record a submission sends; NaN numbers are None. */
  datatype NewCollection = NewCollection(
    userId: string,
    userName: string,
    date: string,
    time: string,
    liters: Option<real>,
    fatPercentage: real,
    rate: real,
    amount: Option<real>,
    isManuallyEdited: bool)

  /** A submission is either stopped, with or without a notice, or sent. */
  datatype Verdict = Rejected(notice: Option<Notice>) | Send(entry: NewCollection)

  /** The record sent for a farmer and an exactly matching rate row. */
  function Entry(form: EntryForm, u: User, liters: Option<real>, fat: real, e: FatRate, amount: Option<real>): NewCollection
  {
    NewCollection(form.userId, u.name, form.date, form.time, liters, fat, e.rate, amount, WasManuallyEdited(amount, liters, e.rate))
  }

  /** The summary the form hook shows when the entry form fails validation. */
  function ValidationNotice(form: EntryForm): Notice
  {
    Notice(Alerts.Error, ValidationFailed(FormValidation.Report(CollectionRules, FormValues(form))), Some(FormValidation.FailedTitle))
  }

  /**
   * The checks of `handleSubmit`, in order: form validation (summarised by
   * the form hook), a pending fat-rate error, an unknown farmer, a
   * deactivated farmer, a fat with no exact row. Every rejection comes with
   * a notice, and a record is only sent for a known, active farmer with
   * the rate of the row whose fat is the entered fat.
   */
  function AddVerdict(form: EntryForm, fatRateError: Option<real>, users: seq<User>, t: seq<FatRate>): (v: Verdict)
    ensures v.Rejected? ==> v.notice.Some?
    ensures v.Send? ==>
      && FormPasses(form) && fatRateError.None? && v.entry.userId == form.userId
      && FindUser(users, form.userId).Some? && FindUser(users, form.userId).value.isActive != Some(false)
      && v.entry.userName == FindUser(users, form.userId).value.name
      && JsNumber(form.fatPercentage) == Some(v.entry.fatPercentage)
      && ExactRate(t, Some(v.entry.fatPercentage)) == Some(FatRate(v.entry.fatPercentage, v.entry.rate))
  {
    if !FormPasses(form) then Rejected(Some(ValidationNotice(form)))
    else if fatRateError.Some? then Rejected(Some(Notice(Alerts.Warning, Fixed(ResolveFirst), None)))
    else match FindUser(users, form.userId)
      case None => Rejected(Some(Notice(Alerts.Error, Fixed(SelectUser), None)))
      case Some(u) =>
        if u.isActive == Some(false) then Rejected(Some(Notice(Alerts.Error, Fixed(DeactivatedAdd), None)))
        else
          var fat := JsNumber(form.fatPercentage);
          match ExactRate(t, fat)
          case None => Rejected(Some(Notice(Alerts.Error, NoRateFor(fat), None)))
          case Some(e) =>
            assert e == FatRate(fat.value, e.rate);
            Send(Entry(form, u, JsNumber(form.liters), fat.value, e, JsNumber(form.amount)))
  }

  /**
   * The checks of `handleEditSubmit`: nothing being edited or an unknown
   * farmer stops it silently, the other failing checks with a notice; a
   * record is only sent for a known, active farmer with the rate of the
   * row whose fat is the entered fat.
   */
  function EditVerdict(editing: Option<Collection>, form: EntryForm, fatRateError: Option<real>, users: seq<User>, t: seq<FatRate>): (v: Verdict)
    ensures v.Rejected? && v.notice.None? ==> editing.None? || (fatRateError.None? && FindUser(users, form.userId).None?)
    ensures v.Send? ==>
      && editing.Some? && fatRateError.None? && v.entry.userId == form.userId
      && FindUser(users, form.userId).Some? && FindUser(users, form.userId).value.isActive != Some(false)
      && v.entry.userName == FindUser(users, form.userId).value.name
      && JsParseFloat(form.fatPercentage) == Some(v.entry.fatPercentage)
      && ExactRate(t, Some(v.entry.fatPercentage)) == Some(FatRate(v.entry.fatPercentage, v.entry.rate))
  {
    if editing.None? then Rejected(None)
    else if fatRateError.Some? then Rejected(Some(Notice(Alerts.Warning, Fixed(ResolveFirst), None)))
    else match FindUser(users, form.userId)
      case None => Rejected(None)
      case Some(u) =>
        if u.isActive == Some(false) then Rejected(Some(Notice(Alerts.Error, Fixed(DeactivatedEdit), None)))
        else
          var fat := JsParseFloat(form.fatPercentage);
          match ExactRate(t, fat)
          case None => Rejected(Some(Notice(Alerts.Error, NoRateFor(fat), Some("Missing Fat Rate"))))
          case Some(e) =>
            assert e == FatRate(fat.value, e.rate);
            Send(Entry(form, u, JsParseFloat(form.liters), fat.value, e, JsParseFloat(form.amount)))
  }

  /**
   * The first failing check decides a submission, and a sent record always
   * carries the rate of a row whose fat equals the entered fat, with the
   * manual flag set exactly when the amount is more than 0.01 away from
   * liters times that rate.
   */
  lemma AddVerdictGuards(form: EntryForm, err: Option<real>, users: seq<User>, t: seq<FatRate>)
    ensures !FormPasses(form) ==> AddVerdict(form, err, users, t) == Rejected(Some(ValidationNotice(form)))
    ensures !FormPasses(form) ==> FormValidation.Report(CollectionRules, FormValues(form)) != []
    ensures FormPasses(form) && err.Some? ==> AddVerdict(form, err, users, t) == Rejected(Some(Notice(Alerts.Warning, Fixed(ResolveFirst), None)))
    ensures FormPasses(form) && err.None? && FindUser(users, form.userId).None? ==>
      AddVerdict(form, err, users, t) == Rejected(Some(Notice(Alerts.Error, Fixed(SelectUser), None)))
    ensures FormPasses(form) && err.None? && FindUser(users, form.userId).Some? && FindUser(users, form.userId).value.isActive == Some(false) ==>
      AddVerdict(form, err, users, t) == Rejected(Some(Notice(Alerts.Error, Fixed(DeactivatedAdd), None)))
    ensures AddVerdict(form, err, users, t).Send? <==>
      FormPasses(form) && err.None? && FindUser(users, form.userId).Some? && FindUser(users, form.userId).value.isActive != Some(false) &&
      ExactRate(t, JsNumber(form.fatPercentage)).Some?
    ensures var v := AddVerdict(form, err, users, t);
      v.Send? ==>
        (exists k :: 0 <= k < |t| && t[k].fatPercentage == v.entry.fatPercentage && t[k].rate == v.entry.rate) &&
        JsNumber(form.fatPercentage) == Some(v.entry.fatPercentage) &&
        (v.entry.isManuallyEdited <==> WasManuallyEdited(v.entry.amount, v.entry.liters, v.entry.rate))
  {
    var v := AddVerdict(form, err, users, t);
    if v.Send? {
      var e := ExactRate(t, JsNumber(form.fatPercentage)).value;
      var k :| 0 <= k < |t| && t[k] == e;
    }
  }

  lemma EditVerdictGuards(editing: Option<Collection>, form: EntryForm, err: Option<real>, users: seq<User>, t: seq<FatRate>)
    ensures editing.Some? && err.None? && FindUser(users, form.userId).None? ==> EditVerdict(editing, form, err, users, t) == Rejected(None)
    ensures editing.Some? && err.None? && FindUser(users, form.userId).Some? && FindUser(users, form.userId).value.isActive == Some(false) ==>
      EditVerdict(editing, form, err, users, t) == Rejected(Some(Notice(Alerts.Error, Fixed(DeactivatedEdit), None)))
    ensures EditVerdict(editing, form, err, users, t).Send? <==>
      editing.Some? && err.None? && FindUser(users, form.userId).Some? && FindUser(users, form.userId).value.isActive != Some(false) &&
      ExactRate(t, JsParseFloat(form.fatPercentage)).Some?
    ensures var v := EditVerdict(editing, form, err, users, t);
      v.Send? ==>
        (exists k :: 0 <= k < |t| && t[k].fatPercentage == v.entry.fatPercentage && t[k].rate == v.entry.rate) &&
        (v.entry.isManuallyEdited <==> WasManuallyEdited(v.entry.amount, v.entry.liters, v.entry.rate))
  {
    var v := EditVerdict(editing, form, err, users, t);
    if v.Send? {
      var e := ExactRate(t, JsParseFloat(form.fatPercentage)).value;
      var k :| 0 <= k < |t| && t[k] == e;
    }
  }

  /** The server's answer to a save: the stored record, nothing, or a thrown error. */
  datatype SaveReply = Saved(c: Collection) | NoRecord | Threw(error: ErrorHandler.Thrown)

  /** `collections.map(c => c.id === id ? updated : c)`. */
  function ReplaceById(cs: seq<Collection>, id: string, updated: Collection): (r: seq<Collection>)
    ensures |r| == |cs|
    ensures forall i :: 0 <= i < |cs| ==> r[i] == if cs[i].id == id then updated else cs[i]
  {
    seq(|cs|, i requires 0 <= i < |cs| => if cs[i].id == id then updated else cs[i])
  }

  /** Replacing by an id no collection has changes nothing. */
  lemma ReplaceAbsentId(cs: seq<Collection>, id: string, updated: Collection)
    requires forall i :: 0 <= i < |cs| ==> cs[i].id != id
    ensures ReplaceById(cs, id, updated) == cs
  {
  }

  // ------------------------------------------------------------------
  // Times and the list filter
  // ------------------------------------------------------------------

  /** `parseInt(time.split(":")[0])`. */
  function HourOf(time: string): Option<int>
  {
    JsParseInt(Split(time, ':')[0])
  }

  /** `isAMTime`: the hour is below 12 (a NaN hour is not). */
  predicate IsAMTime(time: string)
  {
    HourOf(time).Some? && HourOf(time).value < 12
  }

  /** The twelve-hour clock's hour for a 24-hour hour. */
  function Hour12(h: int): int
  {
    if h == 0 then 12 else if h > 12 then h - 12 else h
  }

  /**
   * `formatTime`: "" for "", otherwise the twelve-hour hour, the minutes as
   * written, and AM or PM; whenever the hour reads as a number, AM is shown
   * exactly for the times the AM filter keeps (a NaN hour shows as AM).
   */
  function FormatTime(time: string): (r: string)
    ensures time == "" ==> r == ""
    ensures time != "" ==> |r| >= 3 && r[|r| - 3..] == (if IsAMTime(time) || HourOf(time).None? then " AM" else " PM")
  {
    if time == "" then ""
    else
      var parts := Split(time, ':');
      ClockText(HourOf(time), if |parts| > 1 then parts[1] else "undefined")
  }

  /** The twelve-hour hour (NaN when the hour is not a number), the minutes, and AM or PM. */
  function ClockText(h: Option<int>, minutes: string): (r: string)
    ensures |r| >= 3 && r[|r| - 3..] == if h.Some? && h.value >= 12 then " PM" else " AM"
  {
    var a, w := (if h.Some? then IntText(Hour12(h.value)) else "NaN") + ":" + minutes, if h.Some? && h.value >= 12 then "PM" else "AM";
    assert a + " " + w == a + ([' '] + w);
    a + " " + w
  }

  /** "hh:mm" splits into its hours and its minutes. */
  lemma SplitClock(hh: string, mm: string)
    requires ':' !in hh && ':' !in mm
    ensures Split(hh + ":" + mm, ':') == [hh, mm]
  {
    SplitAfter(mm, "", ':');
    assert mm + "" == mm;
    assert Split(":" + mm, ':') == [""] + Split(mm, ':') by {
      assert (":" + mm)[0] == ':' && (":" + mm)[1..] == mm;
    }
    assert hh + ":" + mm == hh + (":" + mm);
    SplitAfter(hh, ":" + mm, ':');
    assert hh + "" == hh;
  }

  /**
   * On a clock time "hh:mm", the displayed time and the AM/PM filter agree:
   * midnight shows as 12 AM, noon as 12 PM, 13 to 23 as 1 to 11 PM, and the
   * minutes are copied as written.
   */
  lemma FormatTimeOfClock(hh: string, mm: string, h: int)
    requires ':' !in hh && ':' !in mm && JsParseInt(hh) == Some(h) && 0 <= h <= 23
    ensures FormatTime(hh + ":" + mm) == IntText(Hour12(h)) + ":" + mm + " " + (if IsAMTime(hh + ":" + mm) then "AM" else "PM")
    ensures IsAMTime(hh + ":" + mm) <==> h < 12
    ensures Hour12(h) == (if h == 0 then 12 else if h <= 12 then h else h - 12) && 1 <= Hour12(h) <= 12
  {
    var time := hh + ":" + mm;
    SplitClock(hh, mm);
    assert HourOf(time) == Some(h);
  }

  datatype TimeFilter = AllDay | Morning | Evening

  /** The page's filter: the date when one is chosen, and the half of the day. */
  predicate Shown(c: Collection, filterDate: string, tf: TimeFilter)
  {
    (filterDate == "" || c.date == filterDate) &&
    (tf == Morning ==> IsAMTime(c.time)) && (tf == Evening ==> !IsAMTime(c.time))
  }

  function Filtered(cs: seq<Collection>, filterDate: string, tf: TimeFilter): (r: seq<Collection>)
    ensures forall c :: c in r <==> c in cs && Shown(c, filterDate, tf)
  {
    if cs == [] then []
    else (if Shown(cs[0], filterDate, tf) then [cs[0]] else []) + Filtered(cs[1..], filterDate, tf)
  }

  /** Morning and evening split the day's collections between them. */
  lemma {:induction false} MorningEveningPartition(cs: seq<Collection>, filterDate: string)
    ensures |Filtered(cs, filterDate, Morning)| + |Filtered(cs, filterDate, Evening)| == |Filtered(cs, filterDate, AllDay)|
    ensures forall c :: c in Filtered(cs, filterDate, AllDay) <==>
      c in Filtered(cs, filterDate, Morning) || c in Filtered(cs, filterDate, Evening)
  {
    if cs != [] {
      MorningEveningPartition(cs[1..], filterDate);
    }
  }

  // ------------------------------------------------------------------
  // The page
  // ------------------------------------------------------------------

  /** The entry form's state: `formData`, `isAmountManual`, `fatRateError` and `showAddForm`. */
  datatype EntryState = EntryState(form: EntryForm, isAmountManual: bool, fatRateError: Option<real>, showAddForm: bool)

  /**
   * The edit form's state: `editingCollection`, `editFormData`,
   * `isEditAmountManual`, `editFatRateError` and `showEditModal`.
   */
  datatype EditState = EditState(
    editing: Option<Collection>,
    editForm: EntryForm,
    isEditAmountManual: bool,
    editFatRateError: Option<real>,
    showEditModal: bool)

  /** `resetEditForm`'s values: nothing being edited, the edit form blank and closed. */
  const ClosedEdit := EditState(None, BlankForm, false, None, false)

  /** Everything on the page that its handlers change. */
  datatype PageState = PageState(
    users: seq<User>,
    collections: seq<Collection>,
    fatRates: seq<FatRate>,
    entry: EntryState,
    edit: EditState,
    notices: seq<Notice>)

  /** `resetForm`: the entry form back to its starting values, automatic, without error, closed. */
  function Reset(st: PageState, initial: EntryForm): PageState
  {
    st.(entry := EntryState(initial, false, None, false))
  }

  /**
   * `handleSubmit` once the server has answered `reply`: the farmers, the
   * rates and the edit form stay, a failed validation adds its summary and
   * nothing else, and otherwise at most the stored record is put first and
   * at most one notice is added.
   */
  function AfterAdd(st: PageState, initial: EntryForm, reply: SaveReply): (r: PageState)
    ensures r.users == st.users && r.fatRates == st.fatRates && r.edit == st.edit
    ensures !FormPasses(st.entry.form) ==> r == st.(notices := st.notices + [ValidationNotice(st.entry.form)])
    ensures r.collections == st.collections || (reply.Saved? && r.collections == [reply.c] + st.collections)
    ensures st.notices <= r.notices && |r.notices| <= |st.notices| + 1
  {
    AddSubmitOutcome(st, initial, AddVerdict(st.entry.form, st.entry.fatRateError, st.users, st.fatRates), reply);
    AddOutcome(st, initial, AddVerdict(st.entry.form, st.entry.fatRateError, st.users, st.fatRates), reply)
  }

  /** What a submission with verdict `v` does to the page. */
  function AddOutcome(st: PageState, initial: EntryForm, v: Verdict, reply: SaveReply): PageState
  {
    match v
    case Rejected(n) => st.(notices := st.notices + (if n.Some? then [n.value] else []))
    case Send(entry) =>
      match reply
      case Saved(c) =>
        Reset(st.(collections := [c] + st.collections), initial)
          .(notices := st.notices + [Notice(Alerts.Success, AddedFor(entry.userName), None)])
      case NoRecord => st
      case Threw(err) =>
        var info := ErrorHandler.ParseError(err, ErrorHandler.DefaultFallback, None);
        if info.validationErrors.Some? then st
        else st.(notices := st.notices + [Notice(Alerts.Error, Fixed(info.message), Some("Failed to Add Collection"))])
  }

  /**
   * `handleEditSubmit` once the server has answered `reply`: the farmers,
   * the rates and the entry form stay, the list keeps its length, and at
   * most one notice is added.
   */
  function AfterEdit(st: PageState, reply: SaveReply): (r: PageState)
    ensures r.users == st.users && r.fatRates == st.fatRates && r.entry == st.entry
    ensures |r.collections| == |st.collections|
    ensures r.collections == st.collections || (reply.Saved? && st.edit.editing.Some? && r.collections == ReplaceById(st.collections, st.edit.editing.value.id, reply.c))
    ensures st.notices <= r.notices && |r.notices| <= |st.notices| + 1
  {
    EditSubmitOutcome(st, EditVerdict(st.edit.editing, st.edit.editForm, st.edit.editFatRateError, st.users, st.fatRates), reply);
    EditOutcome(st, EditVerdict(st.edit.editing, st.edit.editForm, st.edit.editFatRateError, st.users, st.fatRates), reply)
  }

  /** What an edit with verdict `v` does to the page; a sent edit always has a collection being edited. */
  function EditOutcome(st: PageState, v: Verdict, reply: SaveReply): PageState
  {
    match v
    case Rejected(n) => st.(notices := st.notices + (if n.Some? then [n.value] else []))
    case Send(entry) =>
      match reply
      case Saved(c) =>
        var u := FindUser(st.users, c.userId);
        var id := if st.edit.editing.Some? then st.edit.editing.value.id else "";
        st.(collections := ReplaceById(st.collections, id, c), edit := ClosedEdit,
            notices := st.notices + [Notice(Alerts.Success, UpdatedFor(if u.Some? && u.value.name != "" then u.value.name else "farmer"), None)])
      case NoRecord => st
      case Threw(err) =>
        var info := ErrorHandler.ParseError(err, ErrorHandler.DefaultFallback, None);
        st.(notices := st.notices + [Notice(Alerts.Error, Fixed(info.message), Some("Update Failed"))])
  }

  /**
   * A rejected submission adds at most its notice; a stored record goes
   * first in the list, the entry form is reset and closed and a success
   * notice names the farmer; a thrown error adds a failure notice unless it
   * carries validation errors, which the form shows instead. The farmers,
   * the rate table and the edit form never change.
   */
  lemma AddSubmitOutcome(st: PageState, initial: EntryForm, v: Verdict, reply: SaveReply)
    ensures var r := AddOutcome(st, initial, v, reply);
      r.users == st.users && r.fatRates == st.fatRates && r.edit == st.edit &&
      match v
      case Rejected(n) =>
        r == st.(notices := st.notices + (if n.Some? then [n.value] else []))
      case Send(entry) =>
        match reply
        case Saved(c) =>
          r.collections == [c] + st.collections && r.entry == EntryState(initial, false, None, false) &&
          r.notices == st.notices + [Notice(Alerts.Success, AddedFor(entry.userName), None)]
        case NoRecord => r == st
        case Threw(err) =>
          var info := ErrorHandler.ParseError(err, ErrorHandler.DefaultFallback, None);
          r.collections == st.collections && r.entry == st.entry &&
          r.notices == st.notices + (if info.validationErrors.Some? then [] else [Notice(Alerts.Error, Fixed(info.message), Some("Failed to Add Collection"))])
  {
  }

  /**
   * A rejected edit adds at most its notice; a stored record replaces only
   * the collections with the edited id, the edit form closes and the
   * success notice names the farmer, or "farmer"; a thrown error adds an
   * update failure notice. The farmers, the rate table and the entry form
   * never change.
   */
  lemma EditSubmitOutcome(st: PageState, v: Verdict, reply: SaveReply)
    requires v.Send? ==> st.edit.editing.Some?
    ensures var r := EditOutcome(st, v, reply);
      r.users == st.users && r.fatRates == st.fatRates && r.entry == st.entry &&
      match v
      case Rejected(n) =>
        r == st.(notices := st.notices + (if n.Some? then [n.value] else []))
      case Send(entry) =>
        match reply
        case Saved(c) =>
          var u := FindUser(st.users, c.userId);
          r.collections == ReplaceById(st.collections, st.edit.editing.value.id, c) && r.edit == ClosedEdit &&
          r.notices == st.notices + [Notice(Alerts.Success, UpdatedFor(if u.Some? && u.value.name != "" then u.value.name else "farmer"), None)]
        case NoRecord => r == st
        case Threw(err) =>
          r.collections == st.collections && r.edit == st.edit &&
          r.notices == st.notices + [Notice(Alerts.Error, Fixed(ErrorHandler.ParseError(err, ErrorHandler.DefaultFallback, None).message), Some("Update Failed"))]
  {
  }

  /** The edit checks only send a record while a collection is being edited. */
  lemma EditSendsOnlyWhileEditing(st: PageState)
    ensures EditVerdict(st.edit.editing, st.edit.editForm, st.edit.editFatRateError, st.users, st.fatRates).Send? ==> st.edit.editing.Some?
  {
  }

  class CollectionPage {
    var users: seq<User>
    var collections: seq<Collection>
    var fatRates: seq<FatRate>
    var entry: EntryState
    var edit: EditState
    var notices: seq<Notice>

    /** The page with the entry form at today's date and the current time. */
    constructor(today: string, now: string)
      ensures State() == PageState([], [], [], EntryState(EntryForm("", today, now, "", "", ""), false, None, false), ClosedEdit, [])
    {
      users, collections, fatRates, notices := [], [], [], [];
      entry := EntryState(EntryForm("", today, now, "", "", ""), false, None, false);
      edit := ClosedEdit;
    }

    function State(): PageState
      reads this
    {
      PageState(users, collections, fatRates, entry, edit, notices)
    }

    method Commit(st: PageState)
      modifies this
      ensures State() == st
    {
      users, collections, fatRates, entry, edit, notices := st.users, st.collections, st.fatRates, st.entry, st.edit, st.notices;
    }

    /** The data loaded from the server. */
    method Load(us: seq<User>, cs: seq<Collection>, rates: seq<FatRate>)
      modifies this
      ensures State() == old(State()).(users := us, collections := cs, fatRates := rates)
    {
      users, collections, fatRates := us, cs, rates;
    }

    /** A new liters value in the entry form, followed by the auto-amount effect. */
    method HandleLitersChange(value: string)
      modifies this
      ensures var s := old(State());
        State() == s.(entry := s.entry.(form := AddAutoAmount(s.entry.form.(liters := value), s.entry.isAmountManual, s.fatRates)))
    {
      var next := entry.form.(liters := value);
      entry := entry.(form := AddAutoAmount(next, entry.isAmountManual, fatRates));
    }

    /** `handleFatPercentageChange`, followed by the auto-amount effect. */
    method HandleFatPercentageChange(value: string)
      modifies this
      ensures var s := old(State());
        State() == s.(entry := s.entry.(form := AddAutoAmount(s.entry.form.(fatPercentage := value), s.entry.isAmountManual, s.fatRates),
                                        fatRateError := FatRateErrorFor(value, s.fatRates)))
    {
      var error: Option<real> := None;
      if value != "" {
        var f := JsParseFloat(value);
        if f.Some? {
          var exact := FindExact(fatRates, f.value);
          if exact.None? {
            error := f;
          }
        }
      }
      entry := entry.(form := AddAutoAmount(entry.form.(fatPercentage := value), entry.isAmountManual, fatRates), fatRateError := error);
    }

    /** `handleAmountChange`: typing an amount switches to manual. */
    method HandleAmountChange(value: string)
      modifies this
      ensures var s := old(State()); State() == s.(entry := s.entry.(form := s.entry.form.(amount := value), isAmountManual := true))
    {
      entry := entry.(form := entry.form.(amount := value), isAmountManual := true);
    }

    /** `handleAmountModeToggle`: back to automatic recomputes the amount; to manual keeps it. */
    method HandleAmountModeToggle()
      modifies this
      ensures var s := old(State());
        State() == s.(entry := s.entry.(isAmountManual := !s.entry.isAmountManual,
                                        form := if s.entry.isAmountManual then AddAutoAmount(s.entry.form, false, s.fatRates) else s.entry.form))
    {
      if entry.isAmountManual {
        entry := entry.(isAmountManual := false);
        if entry.form.liters != "" && entry.form.fatPercentage != "" {
          entry := entry.(form := entry.form.(amount := AddAmount(entry.form.liters, entry.form.fatPercentage, fatRates)));
        }
      } else {
        entry := entry.(isAmountManual := true);
      }
    }

    /** `resetForm`, rendered at the date `today` and the time `now`. */
    method ResetForm(today: string, now: string)
      modifies this
      ensures State() == Reset(old(State()), EntryForm("", today, now, "", "", ""))
    {
      entry := EntryState(EntryForm("", today, now, "", "", ""), false, None, false);
    }

    /**
     * `handleSubmit`: run the checks; when they pass, send the record, and
     * on success put the stored record first in the list and reset the
     * form to the date `today` and the time `now` of the render.
     */
    method HandleSubmit(reply: SaveReply, today: string, now: string)
      modifies this
      ensures State() == AfterAdd(old(State()), EntryForm("", today, now, "", "", ""), reply)
    {
      var st := AfterAdd(State(), EntryForm("", today, now, "", "", ""), reply);
      Commit(st);
    }

    /** `handleEditCollection`: open the edit form on a collection, then the edit form's auto-amount effect. */
    method HandleEditCollection(c: Collection, show: real -> string)
      modifies this
      ensures var loaded := EntryForm(c.userId, c.date, c.time, show(c.liters), show(c.fatPercentage), show(c.amount));
        State() == old(State()).(edit := EditState(Some(c), EditAutoAmount(loaded, c.isManuallyEdited, old(fatRates)), c.isManuallyEdited, None, true))
    {
      var loaded := EntryForm(c.userId, c.date, c.time, show(c.liters), show(c.fatPercentage), show(c.amount));
      edit := EditState(Some(c), EditAutoAmount(loaded, c.isManuallyEdited, fatRates), c.isManuallyEdited, None, true);
    }

    /** A new liters value in the edit form, followed by the edit form's auto-amount effect. */
    method HandleEditLitersChange(value: string)
      modifies this
      ensures var s := old(State());
        State() == s.(edit := s.edit.(editForm := EditAutoAmount(s.edit.editForm.(liters := value), s.edit.isEditAmountManual, s.fatRates)))
    {
      var next := edit.editForm.(liters := value);
      edit := edit.(editForm := EditAutoAmount(next, edit.isEditAmountManual, fatRates));
    }

    /** `handleEditFatPercentageChange`, followed by the edit form's auto-amount effect. */
    method HandleEditFatPercentageChange(value: string)
      modifies this
      ensures var s := old(State());
        State() == s.(edit := s.edit.(editForm := EditAutoAmount(s.edit.editForm.(fatPercentage := value), s.edit.isEditAmountManual, s.fatRates),
                                      editFatRateError := FatRateErrorFor(value, s.fatRates)))
    {
      var error: Option<real> := None;
      if value != "" {
        var f := JsParseFloat(value);
        if f.Some? {
          var exact := FindExact(fatRates, f.value);
          if exact.None? {
            error := f;
          }
        }
      }
      edit := edit.(editForm := EditAutoAmount(edit.editForm.(fatPercentage := value), edit.isEditAmountManual, fatRates), editFatRateError := error);
    }

    /** `handleEditAmountChange`. */
    method HandleEditAmountChange(value: string)
      modifies this
      ensures var s := old(State()); State() == s.(edit := s.edit.(editForm := s.edit.editForm.(amount := value), isEditAmountManual := true))
    {
      edit := edit.(editForm := edit.editForm.(amount := value), isEditAmountManual := true);
    }

    /** `handleEditAmountModeToggle`: back to automatic recomputes from the exact rate; to manual keeps the amount. */
    method HandleEditAmountModeToggle()
      modifies this
      ensures var s := old(State());
        State() == s.(edit := s.edit.(isEditAmountManual := !s.edit.isEditAmountManual,
                                      editForm := if s.edit.isEditAmountManual then EditAutoAmount(s.edit.editForm, false, s.fatRates) else s.edit.editForm))
    {
      if edit.isEditAmountManual {
        edit := edit.(isEditAmountManual := false);
        if edit.editForm.liters != "" && edit.editForm.fatPercentage != "" {
          var rate := GetExactRate(fatRates, JsParseFloat(edit.editForm.fatPercentage));
          edit := edit.(editForm := edit.editForm.(amount := AmountText(JsParseFloat(edit.editForm.liters), rate)));
        }
      } else {
        edit := edit.(isEditAmountManual := true);
      }
    }

    /** `resetEditForm`. */
    method ResetEditForm()
      modifies this
      ensures State() == old(State()).(edit := ClosedEdit)
    {
      edit := ClosedEdit;
    }

    /** `handleEditSubmit`: on success only the edited collection is replaced, by the stored record. */
    method HandleEditSubmit(reply: SaveReply)
      modifies this
      ensures State() == AfterEdit(old(State()), reply)
    {
      var st := AfterEdit(State(), reply);
      Commit(st);
    }
  }
}
