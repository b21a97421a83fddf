/**
 * The fat-rate table page: the validators of the rate form, adding a row
 * (or replacing the row with the same fat), editing a row, re-sorting the
 * table by fat after each change, and deleting every row with a fat.
 *
 * The table saved to the server is recorded in `saved`; whether the save
 * failed is a parameter.
 */
module FatRatesPage {
  import opened Common
  import opened Types
  import opened FatRates
  import FormValidation
  import ErrorHandler
  import Alerts

  const FatRangeMessage := "Fat percentage must be between 0.1 and 10"
  const FatTakenMessage := "Fat percentage already exists"
  const RateMessage := "Rate must be greater than 0"

  // ------------------------------------------------------------------
  // Validators
  // ------------------------------------------------------------------

  /** Some row other than the one being edited already has fat `num`. */
  predicate Taken(t: seq<FatRate>, num: real, editing: Option<FatRate>)
  {
    exists k :: 0 <= k < |t| && t[k].fatPercentage == num && (editing.None? || t[k].fatPercentage != editing.value.fatPercentage)
  }

  /** The custom check of the fat field; "" stands for `null`. A NaN passes it. */
  function FatCheck(t: seq<FatRate>, editing: Option<FatRate>, v: FormValidation.Value): (m: string)
    ensures m in {"", FatRangeMessage, FatTakenMessage}
    ensures m == "" <==> (FormValidation.NumberOf(v).None? ||
                          (0.0 < FormValidation.NumberOf(v).value <= 10.0 && !Taken(t, FormValidation.NumberOf(v).value, editing)))
    ensures m == FatRangeMessage <==> FormValidation.NumberOf(v).Some? && !(0.0 < FormValidation.NumberOf(v).value <= 10.0)
  {
    var num := FormValidation.NumberOf(v);
    if num.Some? && (num.value <= 0.0 || num.value > 10.0) then FatRangeMessage
    else if num.Some? && Taken(t, num.value, editing) then FatTakenMessage
    else ""
  }

  /** The custom check of the rate field; a NaN passes it. */
  function RateCheck(v: FormValidation.Value): (m: string)
    ensures m == "" <==> FormValidation.NumberOf(v).None? || FormValidation.NumberOf(v).value > 0.0
    ensures m != "" ==> m == RateMessage
  {
    var num := FormValidation.NumberOf(v);
    if num.Some? && num.value <= 0.0 then RateMessage else ""
  }

  function FatRule(t: seq<FatRate>, editing: Option<FatRate>): FormValidation.Rule
  {
    FormValidation.Rule(true, None, None, None, Some(FormValidation.Bound(0.1, "0.1")), Some(FormValidation.Bound(10.0, "10")),
                        Some((v: FormValidation.Value) => FatCheck(t, editing, v)))
  }

  const RateRule := FormValidation.Rule(true, None, None, None, Some(FormValidation.Bound(0.01, "0.01")), None,
                                        Some((v: FormValidation.Value) => RateCheck(v)))

  /** The form's rules, rebuilt from the current table and the row being edited. */
  function Rules(t: seq<FatRate>, editing: Option<FatRate>): seq<FormValidation.NamedRule>
  {
    [FormValidation.NamedRule("fatPercentage", FatRule(t, editing)), FormValidation.NamedRule("rate", RateRule)]
  }

  /** What `validateForm()` answers. */
  predicate FormPasses(values: map<string, FormValidation.Value>, t: seq<FatRate>, editing: Option<FatRate>)
  {
    FormValidation.Message(Rules(t, editing), values, "fatPercentage") == "" &&
    FormValidation.Message(Rules(t, editing), values, "rate") == ""
  }

  /** A form that passes validation holds a fat no other row has, in (0, 10], and a positive rate (or NaN). */
  lemma AcceptedRow(values: map<string, FormValidation.Value>, t: seq<FatRate>, editing: Option<FatRate>)
    requires FormPasses(values, t, editing)
    ensures var f := FormValidation.NumberOf(FormValidation.ValueOf(values, "fatPercentage"));
      f.Some? ==> 0.0 < f.value <= 10.0 && !Taken(t, f.value, editing)
    ensures var r := FormValidation.NumberOf(FormValidation.ValueOf(values, "rate"));
      r.Some? ==> r.value > 0.0
  {
    var rules := Rules(t, editing);
    var fv := FormValidation.ValueOf(values, "fatPercentage");
    var rv := FormValidation.ValueOf(values, "rate");
    assert FormValidation.RuleFor(rules, "fatPercentage") == Some(FatRule(t, editing));
    assert FormValidation.RuleFor(rules, "rate") == Some(RateRule);
    assert FormValidation.Check(FatRule(t, editing), fv).None?;
    assert FormValidation.Check(RateRule, rv).None?;
    assert FormValidation.CustomMessage(FatRule(t, editing), fv) == FatCheck(t, editing, fv);
    assert FormValidation.CustomMessage(RateRule, rv) == RateCheck(rv);
  }

  // ------------------------------------------------------------------
  // Table operations
  // ------------------------------------------------------------------

  /** Rows ascending by fat. */
  predicate Sorted(t: seq<FatRate>)
  {
    forall i, j :: 0 <= i < j < |t| ==> t[i].fatPercentage <= t[j].fatPercentage
  }

  /** `findIndex` on the fat key: the first row with fat `f`, or -1. */
  function IndexOfFat(t: seq<FatRate>, f: real): (i: int)
    ensures -1 <= i < |t|
    ensures i == -1 <==> forall k :: 0 <= k < |t| ==> t[k].fatPercentage != f
    ensures i >= 0 ==> t[i].fatPercentage == f && forall k :: 0 <= k < i ==> t[k].fatPercentage != f
  {
    if t == [] then -1
    else if t[0].fatPercentage == f then 0
    else
      var i := IndexOfFat(t[1..], f);
      assert forall k :: 1 <= k < |t| ==> t[k] == t[1..][k - 1];
      if i == -1 then -1 else i + 1
  }

  /** Adding a row: a new fat is appended; the first row with an existing fat is replaced in place. */
  function Upsert(t: seq<FatRate>, r: FatRate): (u: seq<FatRate>)
    ensures (forall k :: 0 <= k < |t| ==> t[k].fatPercentage != r.fatPercentage) ==> u == t + [r]
    ensures (exists k :: 0 <= k < |t| && t[k].fatPercentage == r.fatPercentage) ==>
      |u| == |t| && u[IndexOfFat(t, r.fatPercentage)] == r &&
      forall k :: 0 <= k < |t| && k != IndexOfFat(t, r.fatPercentage) ==> u[k] == t[k]
  {
    var i := IndexOfFat(t, r.fatPercentage);
    if i >= 0 then t[i := r] else t + [r]
  }

  /** Editing: every row with the edited fat becomes the new row. */
  function EditRow(t: seq<FatRate>, oldFat: real, r: FatRate): (u: seq<FatRate>)
    ensures |u| == |t|
    ensures forall k :: 0 <= k < |t| ==> u[k] == if t[k].fatPercentage == oldFat then r else t[k]
  {
    seq(|t|, k requires 0 <= k < |t| => if t[k].fatPercentage == oldFat then r else t[k])
  }

  /** The table `handleSubmit` stores: edited or upserted, then sorted by fat. */
  function Submitted(t: seq<FatRate>, editing: Option<FatRate>, r: FatRate): seq<FatRate>
  {
    SortByFat(if editing.Some? then EditRow(t, editing.value.fatPercentage, r) else Upsert(t, r))
  }

  /** `handleDelete`'s filter. */
  function WithoutFat(t: seq<FatRate>, f: real): seq<FatRate>
  {
    Filter(t, (x: FatRate) => x.fatPercentage != f)
  }

  /**
   * Deleting removes exactly the rows with that fat, keeping every other
   * row as many times as it occurred, in order.
   */
  lemma DeleteRemoves(t: seq<FatRate>, f: real)
    ensures forall x :: x in WithoutFat(t, f) <==> x in t && x.fatPercentage != f
    ensures forall x :: multiset(WithoutFat(t, f))[x] == if x.fatPercentage != f then multiset(t)[x] else 0
    ensures IsSubseq(WithoutFat(t, f), t)
  {
    FilterIsSubseq(t, (x: FatRate) => x.fatPercentage != f);
    forall x ensures multiset(WithoutFat(t, f))[x] == if x.fatPercentage != f then multiset(t)[x] else 0 {
      FilterMultiset(t, (x: FatRate) => x.fatPercentage != f, x);
    }
  }

  /** Filtering keeps a table's fats distinct. */
  lemma {:induction false} FilterKeepsDistinct(t: seq<FatRate>, p: FatRate -> bool)
    requires DistinctFats(t)
    ensures DistinctFats(Filter(t, p))
  {
    if t != [] {
      FilterKeepsDistinct(t[1..], p);
      var rest := Filter(t[1..], p);
      if p(t[0]) {
        var u := [t[0]] + rest;
        assert Filter(t, p) == u;
        assert forall k :: 1 <= k < |u| ==> u[k] == rest[k - 1] && u[k] in t[1..];
        assert forall x :: x in t[1..] ==> x.fatPercentage != t[0].fatPercentage;
      }
    }
  }

  /** Filtering keeps a table sorted by fat. */
  lemma {:induction false} FilterKeepsSorted(t: seq<FatRate>, p: FatRate -> bool)
    requires Sorted(t)
    ensures Sorted(Filter(t, p))
  {
    if t != [] {
      assert Sorted(t[1..]) by {
        forall i, j | 0 <= i < j < |t| - 1 ensures t[1..][i].fatPercentage <= t[1..][j].fatPercentage {
          assert t[1..][i] == t[i + 1] && t[1..][j] == t[j + 1];
        }
      }
      FilterKeepsSorted(t[1..], p);
      var rest := Filter(t[1..], p);
      if p(t[0]) {
        var u := [t[0]] + rest;
        assert Filter(t, p) == u;
        forall i, j | 0 <= i < j < |u| ensures u[i].fatPercentage <= u[j].fatPercentage {
          assert u[j] == rest[j - 1] && u[j] in t[1..];
          if i > 0 {
            assert u[i] == rest[i - 1];
          } else {
            var k :| 0 <= k < |t[1..]| && t[1..][k] == u[j];
            assert t[k + 1] == u[j];
          }
        }
      }
    }
  }

  /** Reordering a table keeps its fats distinct. */
  lemma DistinctUnderPermutation(t: seq<FatRate>, s: seq<FatRate>)
    requires multiset(s) == multiset(t) && DistinctFats(t)
    ensures DistinctFats(s)
  {
    forall i, j | 0 <= i < j < |s| ensures s[i].fatPercentage != s[j].fatPercentage {
      if s[i].fatPercentage == s[j].fatPercentage {
        assert s[i] in multiset(t) && s[j] in multiset(t);
        if s[i] == s[j] {
          TwiceCounted(s, i, j);
          var a, b := TwoPositions(t, s[i]);
          assert false;
        } else {
          var a :| 0 <= a < |t| && t[a] == s[i];
          assert false;
        }
      }
    }
  }

  /**
   * A row the fat validator accepts keeps the fats of a table with distinct
   * fats distinct, and the stored table is sorted by fat.
   */
  lemma SubmitKeepsDistinct(t: seq<FatRate>, editing: Option<FatRate>, r: FatRate)
    requires DistinctFats(t) && !Taken(t, r.fatPercentage, editing)
    ensures DistinctFats(Submitted(t, editing, r)) && Sorted(Submitted(t, editing, r))
  {
    var u := if editing.Some? then EditRow(t, editing.value.fatPercentage, r) else Upsert(t, r);
    if editing.Some? {
      var e := editing.value.fatPercentage;
      forall i, j | 0 <= i < j < |u| ensures u[i].fatPercentage != u[j].fatPercentage {
        if t[i].fatPercentage == e {
          assert t[j].fatPercentage != e;
          assert t[j].fatPercentage != r.fatPercentage;
        } else if t[j].fatPercentage == e {
          assert t[i].fatPercentage != r.fatPercentage;
        }
      }
    } else {
      assert forall k :: 0 <= k < |t| ==> t[k].fatPercentage != r.fatPercentage;
      assert u == t + [r];
    }
    DistinctUnderPermutation(u, Submitted(t, editing, r));
  }

  /**
   * With nothing being edited, a validated fat is new, so adding appends
   * exactly one row: the replace-in-place branch of adding is never taken
   * after validation.
   */
  lemma ValidatedAddAppends(t: seq<FatRate>, r: FatRate)
    requires !Taken(t, r.fatPercentage, None)
    ensures Upsert(t, r) == t + [r] && |Submitted(t, None, r)| == |t| + 1
    ensures multiset(Submitted(t, None, r)) == multiset(t) + multiset{r}
  {
  }

  /** Deleting keeps a table's distinct fats and its order, and no row with that fat remains. */
  lemma DeleteKeepsShape(t: seq<FatRate>, f: real)
    ensures DistinctFats(t) ==> DistinctFats(WithoutFat(t, f))
    ensures Sorted(t) ==> Sorted(WithoutFat(t, f))
    ensures forall k :: 0 <= k < |WithoutFat(t, f)| ==> WithoutFat(t, f)[k].fatPercentage != f
  {
    if DistinctFats(t) { FilterKeepsDistinct(t, (x: FatRate) => x.fatPercentage != f); }
    if Sorted(t) { FilterKeepsSorted(t, (x: FatRate) => x.fatPercentage != f); }
    var w := WithoutFat(t, f);
    forall k | 0 <= k < |w| ensures w[k].fatPercentage != f {
      assert w[k] in w;
    }
  }

  // ------------------------------------------------------------------
  // The page
  // ------------------------------------------------------------------

  /**
   * What the page asks the alert context to show; `ValidationFailed` is the
   * form hook's summary of the failing fields, whose effect on the queue is
   * `Alerts.AlertQueue.ShowValidationErrors`.
   */
  datatype Notice =
    | Added(fat: real)
    | Updated(fat: real)
    | Deleted(fat: real)
    | Failed(message: string, title: string)
    | ValidationFailed(errors: seq<Alerts.ValidationError>)

  /** The form's starting values. */
  const InitialValues: map<string, FormValidation.Value> :=
    map["fatPercentage" := FormValidation.Number(0.0), "rate" := FormValidation.Number(0.0)]

  /** Everything the page holds. */
  datatype PageState = PageState(
    fatRates: seq<FatRate>,
    editing: Option<FatRate>,
    isModalOpen: bool,
    values: map<string, FormValidation.Value>,
    saved: seq<seq<FatRate>>,
    notices: seq<Notice>)

  /** The row the form's values describe, when both parse as numbers. */
  function FormRow(values: map<string, FormValidation.Value>): Option<FatRate>
  {
    var f := FormValidation.NumberOf(FormValidation.ValueOf(values, "fatPercentage"));
    var r := FormValidation.NumberOf(FormValidation.ValueOf(values, "rate"));
    if f.Some? && r.Some? then Some(FatRate(f.value, r.value)) else None
  }

  /** The summary the form hook shows when the form fails validation. */
  function ValidationNotice(st: PageState): Notice
  {
    ValidationFailed(FormValidation.Report(Rules(st.fatRates, st.editing), st.values))
  }

  /**
   * `handleSubmit`: a form failing validation only adds its summary;
   * otherwise the edited or added row goes into the table, the table is
   * sorted and saved, and the success message is shown before the save; a
   * failed save keeps the new table and the open form and adds an error.
   * Nothing is saved but the new table, and notices are only added.
   */
  function AfterSubmit(st: PageState, saveError: Option<ErrorHandler.Thrown>): (r: PageState)
    ensures !FormPasses(st.values, st.fatRates, st.editing) ==> r == st.(notices := st.notices + [ValidationNotice(st)])
    ensures r.saved == st.saved || (FormPasses(st.values, st.fatRates, st.editing) && r.saved == st.saved + [r.fatRates])
    ensures st.notices <= r.notices && |r.notices| <= |st.notices| + 2
  {
    if !FormPasses(st.values, st.fatRates, st.editing) then st.(notices := st.notices + [ValidationNotice(st)])
    else if FormRow(st.values).None? then st
    else
      var row := FormRow(st.values).value;
      var isUpdate := st.editing.Some? || IndexOfFat(st.fatRates, row.fatPercentage) >= 0;
      var table := Submitted(st.fatRates, st.editing, row);
      var st' := st.(fatRates := table, saved := st.saved + [table],
                     notices := st.notices + [if isUpdate then Updated(row.fatPercentage) else Added(row.fatPercentage)]);
      match saveError
      case None => st'.(values := InitialValues, isModalOpen := false, editing := None)
      case Some(e) => st'.(notices := st'.notices + [Failed(ErrorHandler.ParseError(e, ErrorHandler.DefaultFallback, None).message, "Failed to Save Fat Rate")])
  }

  /**
   * A form that fails validation changes nothing but the notices, which
   * gain a summary listing at least one failing field.
   */
  lemma SubmitRejected(st: PageState, saveError: Option<ErrorHandler.Thrown>)
    requires !FormPasses(st.values, st.fatRates, st.editing)
    ensures AfterSubmit(st, saveError) == st.(notices := st.notices + [ValidationNotice(st)])
    ensures ValidationNotice(st).errors != []
  {
    var rules := Rules(st.fatRates, st.editing);
    assert rules[0].field == "fatPercentage" && rules[1].field == "rate";
  }

  /** A valid form whose fields do not both read as numbers changes nothing. */
  lemma SubmitUnparsed(st: PageState, saveError: Option<ErrorHandler.Thrown>)
    requires FormPasses(st.values, st.fatRates, st.editing) && FormRow(st.values).None?
    ensures AfterSubmit(st, saveError) == st
  {
  }

  /**
   * A valid form stores the sorted table with the new row, records the save,
   * announces an update when the fat was already there or a row was being
   * edited (an addition otherwise), and closes the form unless the save failed.
   */
  lemma SubmitStored(st: PageState, saveError: Option<ErrorHandler.Thrown>, row: FatRate)
    requires FormPasses(st.values, st.fatRates, st.editing) && FormRow(st.values) == Some(row)
    ensures var r := AfterSubmit(st, saveError);
      var isUpdate := st.editing.Some? || exists k :: 0 <= k < |st.fatRates| && st.fatRates[k].fatPercentage == row.fatPercentage;
      r.fatRates == Submitted(st.fatRates, st.editing, row) &&
      r.saved == st.saved + [r.fatRates] &&
      r.notices == st.notices + [if isUpdate then Updated(row.fatPercentage) else Added(row.fatPercentage)] +
        (if saveError.Some? then [Failed(ErrorHandler.ParseError(saveError.value, ErrorHandler.DefaultFallback, None).message, "Failed to Save Fat Rate")] else []) &&
      (saveError.None? ==> r.values == InitialValues && r.editing.None? && !r.isModalOpen) &&
      (saveError.Some? ==> r.values == st.values && r.editing == st.editing && r.isModalOpen == st.isModalOpen)
  {
    var isUpdate := st.editing.Some? || IndexOfFat(st.fatRates, row.fatPercentage) >= 0;
    assert isUpdate <==> st.editing.Some? || exists k :: 0 <= k < |st.fatRates| && st.fatRates[k].fatPercentage == row.fatPercentage;
  }

  /** Submitting keeps the table's fats distinct and the table sorted by fat. */
  lemma SubmitKeepsTable(st: PageState, saveError: Option<ErrorHandler.Thrown>)
    requires DistinctFats(st.fatRates)
    ensures DistinctFats(AfterSubmit(st, saveError).fatRates)
    ensures AfterSubmit(st, saveError).fatRates != st.fatRates ==> Sorted(AfterSubmit(st, saveError).fatRates)
  {
    if FormPasses(st.values, st.fatRates, st.editing) && FormRow(st.values).Some? {
      var row := FormRow(st.values).value;
      AcceptedRow(st.values, st.fatRates, st.editing);
      SubmitKeepsDistinct(st.fatRates, st.editing, row);
    }
  }

  class RatesPage {
    var fatRates: seq<FatRate>
    var editing: Option<FatRate>
    var isModalOpen: bool
    var values: map<string, FormValidation.Value>
    /** The tables handed to `saveFatRates`, in order. */
    var saved: seq<seq<FatRate>>
    var notices: seq<Notice>

    constructor()
      ensures fatRates == [] && editing.None? && !isModalOpen && values == InitialValues && saved == [] && notices == []
    {
      fatRates, editing, isModalOpen, values, saved, notices := [], None, false, InitialValues, [], [];
    }

    /** The table loaded from the server. */
    method HandleLoaded(rates: seq<FatRate>)
      modifies this
      ensures State() == old(State()).(fatRates := rates)
    {
      fatRates := rates;
    }

    /** A failed load leaves the table and reports the error. */
    method HandleLoadFailed(error: ErrorHandler.Thrown)
      modifies this
      ensures State() == old(State()).(notices := old(notices) + [Failed(ErrorHandler.ParseError(error, ErrorHandler.DefaultFallback, None).message, "Failed to Load Fat Rates")])
    {
      notices := notices + [Failed(ErrorHandler.ParseError(error, ErrorHandler.DefaultFallback, None).message, "Failed to Load Fat Rates")];
    }

    /** The form hook's `handleChange` on one field. */
    method HandleChange(name: string, value: FormValidation.Value)
      modifies this
      ensures State() == old(State()).(values := old(values)[name := value])
    {
      values := values[name := value];
    }

    /** `handleEdit`: the form takes the row's values and the modal opens. */
    method HandleEdit(r: FatRate)
      modifies this
      ensures State() == old(State()).(editing := Some(r), isModalOpen := true,
                                       values := old(values)["fatPercentage" := FormValidation.Number(r.fatPercentage)]["rate" := FormValidation.Number(r.rate)])
    {
      editing := Some(r);
      values := values["fatPercentage" := FormValidation.Number(r.fatPercentage)]["rate" := FormValidation.Number(r.rate)];
      isModalOpen := true;
    }

    /** `handleCloseModal`. */
    method HandleCloseModal()
      modifies this
      ensures State() == old(State()).(values := InitialValues, editing := None, isModalOpen := false)
    {
      values := InitialValues;
      editing := None;
      isModalOpen := false;
    }

    /** The page's state as a value. */
    function State(): PageState
      reads this
    {
      PageState(fatRates, editing, isModalOpen, values, saved, notices)
    }

    /** `handleSubmit`, with the outcome `AfterSubmit` describes. */
    method HandleSubmit(saveError: Option<ErrorHandler.Thrown>)
      modifies this
      ensures State() == AfterSubmit(old(State()), saveError)
    {
      var st := AfterSubmit(State(), saveError);
      Commit(st);
    }

    /** The page's state setters, applied together. */
    method Commit(st: PageState)
      modifies this
      ensures State() == st
    {
      fatRates, editing, isModalOpen, values, saved, notices := st.fatRates, st.editing, st.isModalOpen, st.values, st.saved, st.notices;
    }

    /** `handleDelete`: when confirmed, every row with that fat goes and the rest is saved. */
    method HandleDelete(f: real, confirmed: bool, saveError: Option<ErrorHandler.Thrown>)
      modifies this
      ensures !confirmed ==> State() == old(State())
      ensures confirmed ==>
        State() == old(State()).(
          fatRates := WithoutFat(old(fatRates), f),
          saved := old(saved) + [WithoutFat(old(fatRates), f)],
          notices := old(notices) + [if saveError.None? then Deleted(f)
                                     else Failed(ErrorHandler.ParseError(saveError.value, ErrorHandler.DefaultFallback, None).message, "Failed to Delete Fat Rate")])
    {
      if confirmed {
        fatRates := WithoutFat(fatRates, f);
        saved := saved + [fatRates];
        if saveError.None? {
          notices := notices + [Deleted(f)];
        } else {
          notices := notices + [Failed(ErrorHandler.ParseError(saveError.value, ErrorHandler.DefaultFallback, None).message, "Failed to Delete Fat Rate")];
        }
      }
    }
  }
}
