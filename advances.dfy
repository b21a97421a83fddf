/**
 * The advance ledger page: the search over the ledger, newest first; the
 * totals of advances given and repayments received; and the checks an
 * entry passes before it is sent.
 *
 * The ledger the server sends may hold `null` entries, so an entry is an
 * `Option<Advance>`.  The timestamp built from the form's date and time
 * (through the local time zone) is a parameter.
 */
module Advances {
  import opened Common
  import opened Types
  import opened Numbers
  import ErrorHandler

  type Entry = Option<Advance>

  // ------------------------------------------------------------------
  // Search and order
  // ------------------------------------------------------------------

  /** The search: the lower-cased term occurs in the lower-cased farmer name or description. */
  predicate MatchesSearch(a: Advance, term: string)
  {
    Contains(ToLower(a.userName), ToLower(term)) || Contains(ToLower(a.description), ToLower(term))
  }

  /** The non-null entries matching the search, in ledger order. */
  function Searched(es: seq<Entry>, term: string): (r: seq<Advance>)
    ensures forall a :: a in r <==> Some(a) in es && MatchesSearch(a, term)
  {
    if es == [] then []
    else (if es[0].Some? && MatchesSearch(es[0].value, term) then [es[0].value] else []) + Searched(es[1..], term)
  }

  /** The search keeps each matching advance as many times as the ledger holds it, and no other. */
  lemma {:induction false} SearchedCounts(es: seq<Entry>, term: string, a: Advance)
    ensures multiset(Searched(es, term))[a] == if MatchesSearch(a, term) then multiset(es)[Some(a)] else 0
  {
    if es != [] {
      SearchedCounts(es[1..], term, a);
      assert es == [es[0]] + es[1..];
      assert multiset(es) == multiset([es[0]]) + multiset(es[1..]);
    }
  }

  /** The search does not depend on the case of the term. */
  lemma SearchIgnoresCase(a: Advance, term: string)
    ensures MatchesSearch(a, term) <==> MatchesSearch(a, ToLower(term))
  {
    ToLowerIdempotent(term);
  }

  /** The comparator `dateB - dateA`: `a` may come before `b` when it is not older. */
  predicate NewestFirst(a: Advance, b: Advance)
  {
    StrLe(b.date, a.date)
  }

  lemma NewestFirstIsTotal()
    ensures TotalPreorder(NewestFirst)
  {
    forall a: Advance, b: Advance ensures NewestFirst(a, b) || NewestFirst(b, a) {
      StrLeTotal(a.date, b.date);
    }
    forall a: Advance, b: Advance, c: Advance | NewestFirst(a, b) && NewestFirst(b, c) ensures NewestFirst(a, c) {
      StrLeTrans(c.date, b.date, a.date);
    }
  }

  /** `filteredAdvances`: the matching entries, newest first. */
  function FilteredAdvances(es: seq<Entry>, term: string): (r: seq<Advance>)
    ensures forall a :: a in r <==> Some(a) in es && MatchesSearch(a, term)
    ensures multiset(r) == multiset(Searched(es, term))
    ensures forall a :: multiset(r)[a] == if MatchesSearch(a, term) then multiset(es)[Some(a)] else 0
    ensures forall i, j :: 0 <= i < j < |r| ==> StrLe(r[j].date, r[i].date)
  {
    NewestFirstIsTotal();
    forall a ensures multiset(Searched(es, term))[a] == if MatchesSearch(a, term) then multiset(es)[Some(a)] else 0 {
      SearchedCounts(es, term, a);
    }
    var s := Searched(es, term);
    var r := SortBy(s, NewestFirst);
    forall a ensures a in r <==> a in s { SortByMembers(s, NewestFirst, a); }
    r
  }

  /** An empty search keeps every non-null entry. */
  lemma EmptySearchKeepsAll(es: seq<Entry>)
    ensures forall a :: a in FilteredAdvances(es, "") <==> Some(a) in es
  {
    forall a: Advance ensures MatchesSearch(a, "") { ContainsEmpty(ToLower(a.userName)); }
  }

  // ------------------------------------------------------------------
  // Totals
  // ------------------------------------------------------------------

  /** `advance?.amount || 0`. */
  function AmountOf(e: Entry): real
  {
    if e.Some? then e.value.amount else 0.0
  }

  predicate IsAdvanceGiven(e: Entry) { AmountOf(e) > 0.0 }
  predicate IsRepayment(e: Entry) { AmountOf(e) < 0.0 }
  function RepaidOf(e: Entry): real { Abs(AmountOf(e)) }

  /** `totalAdvances`: the signed sum of the ledger, which is what was given minus what was repaid. */
  function TotalAdvances(es: seq<Entry>): (r: real)
    ensures r == TotalGiven(es) - TotalRepaid(es)
  {
    SignedSumSplits(es);
    SumBy(es, AmountOf)
  }

  /** The signed sum splits into the positive amounts less the sizes of the negative ones. */
  lemma {:induction false} SignedSumSplits(es: seq<Entry>)
    ensures SumBy(es, AmountOf) == SumBy(Filter(es, IsAdvanceGiven), AmountOf) - SumBy(Filter(es, IsRepayment), RepaidOf)
  {
    if es != [] {
      SignedSumSplits(es[1..]);
    }
  }

  /** `totalAdvancesGiven`: the sum of the positive amounts. */
  function TotalGiven(es: seq<Entry>): real
  {
    SumBy(Filter(es, IsAdvanceGiven), AmountOf)
  }

  /** `totalRepaymentsReceived`: the sum of the sizes of the negative amounts. */
  function TotalRepaid(es: seq<Entry>): real
  {
    SumBy(Filter(es, IsRepayment), RepaidOf)
  }

  /**
   * The net balance is what was given minus what was repaid, and both of
   * those are never negative.
   */
  lemma {:induction false} LedgerBalances(es: seq<Entry>)
    ensures TotalAdvances(es) == TotalGiven(es) - TotalRepaid(es)
    ensures TotalGiven(es) >= 0.0 && TotalRepaid(es) >= 0.0
  {
    if es != [] {
      LedgerBalances(es[1..]);
    }
  }

  /** A new first entry moves each total by its own amount. */
  lemma PrependedTotals(a: Advance, es: seq<Entry>)
    ensures TotalAdvances([Some(a)] + es) == a.amount + TotalAdvances(es)
    ensures TotalGiven([Some(a)] + es) == (if a.amount > 0.0 then a.amount else 0.0) + TotalGiven(es)
    ensures TotalRepaid([Some(a)] + es) == (if a.amount < 0.0 then -a.amount else 0.0) + TotalRepaid(es)
  {
    assert ([Some(a)] + es)[1..] == es;
  }

  // ------------------------------------------------------------------
  // Submissions
  // ------------------------------------------------------------------

  datatype AdvanceForm = AdvanceForm(userId: string, amount: string, description: string, date: string, time: string)

  /** The record `addAdvance` is sent. */
  datatype NewAdvance = NewAdvance(userId: string, userName: string, amount: real, date: string, description: string)

  const BadAmount := "Please enter a valid amount (cannot be zero)"
  const UnknownFarmer := "Please select a valid farmer"
  const DeactivatedFarmer := "Cannot add advance for deactivated farmer. Please contact admin to reactivate the account."
  const NoDescription := "Please provide a description"

  /** The checks of `handleSubmit`, in order; `when` is the timestamp built from the form's date and time. */
  function AdvanceVerdict(form: AdvanceForm, users: seq<User>, when: string): (r: Result<NewAdvance, string>)
    ensures r.Err? ==> r.error in {BadAmount, UnknownFarmer, DeactivatedFarmer, NoDescription}
    ensures r.Ok? ==> r.value.amount != 0.0 && r.value.description == Trim(form.description) && r.value.description != ""
  {
    var amount := JsParseFloat(form.amount);
    if amount.None? || amount.value == 0.0 then Err(BadAmount)
    else match FindUser(users, form.userId)
      case None => Err(UnknownFarmer)
      case Some(u) =>
        if u.isActive == Some(false) then Err(DeactivatedFarmer)
        else if Trim(form.description) == "" then Err(NoDescription)
        else Ok(NewAdvance(form.userId, u.name, amount.value, when, Trim(form.description)))
  }

  /** The first failing check decides; an entry is sent exactly when all of them pass. */
  lemma AdvanceGuardOrder(form: AdvanceForm, users: seq<User>, when: string)
    ensures var amount := JsParseFloat(form.amount);
      var r := AdvanceVerdict(form, users, when);
      (amount.None? || amount.value == 0.0 ==> r == Err(BadAmount)) &&
      (amount.Some? && amount.value != 0.0 && FindUser(users, form.userId).None? ==> r == Err(UnknownFarmer)) &&
      (amount.Some? && amount.value != 0.0 && FindUser(users, form.userId).Some? && FindUser(users, form.userId).value.isActive == Some(false) ==>
         r == Err(DeactivatedFarmer)) &&
      (r.Ok? <==> amount.Some? && amount.value != 0.0 && FindUser(users, form.userId).Some? &&
                  FindUser(users, form.userId).value.isActive != Some(false) && Trim(form.description) != "") &&
      (r.Ok? ==> r.value.amount == amount.value && r.value.userName == FindUser(users, form.userId).value.name)
  {
  }

  /** The server's answer to `addAdvance`. */
  datatype AddReply = Added(a: Advance) | NoRecord | Threw(error: ErrorHandler.Thrown)

  const AddFailed := "Failed to add advance. Please try again."
  const LoadFailed := "Failed to load data. Please try again."
  const RefreshFailed := "Failed to refresh data. Please try again."

  function BlankForm(today: string, now: string): AdvanceForm
  {
    AdvanceForm("", "", "", today, now)
  }

  /** What the ledger page holds. */
  datatype PageState = PageState(
    users: seq<User>, advances: seq<Entry>, form: AdvanceForm, error: Option<string>, isModalOpen: bool,
    sent: seq<NewAdvance>)

  /**
   * `handleSubmit`: a failing check sets its message and sends nothing;
   * otherwise the entry is sent, and a stored entry goes first in the
   * ledger and the form is reset.
   */
  function AfterSubmit(st: PageState, when: string, reply: AddReply, today: string, now: string): (r: PageState)
    ensures r.users == st.users
    ensures AdvanceVerdict(st.form, st.users, when).Err? ==> r == st.(error := Some(AdvanceVerdict(st.form, st.users, when).error))
    ensures r.sent == st.sent || (AdvanceVerdict(st.form, st.users, when).Ok? && r.sent == st.sent + [AdvanceVerdict(st.form, st.users, when).value])
    ensures r.advances == st.advances || (reply.Added? && r.advances == [Some(reply.a)] + st.advances)
  {
    match AdvanceVerdict(st.form, st.users, when)
    case Err(m) => st.(error := Some(m))
    case Ok(entry) =>
      var st' := st.(sent := st.sent + [entry], error := None);
      match reply
      case Added(a) => st'.(advances := [Some(a)] + st.advances, form := BlankForm(today, now), isModalOpen := false)
      case NoRecord => st'.(error := Some(AddFailed))
      case Threw(err) => st'.(error := Some(ErrorHandler.ParseError(err, ErrorHandler.DefaultFallback, None).message))
  }

  /** A rejected entry only shows its message: nothing is sent and nothing else changes. */
  lemma SubmitRejected(st: PageState, when: string, reply: AddReply, today: string, now: string)
    requires AdvanceVerdict(st.form, st.users, when).Err?
    ensures AfterSubmit(st, when, reply, today, now) == st.(error := Some(AdvanceVerdict(st.form, st.users, when).error))
  {
  }

  /**
   * An accepted entry is sent; when the server stores it, it goes first in
   * the ledger, each total moves by its amount and the form is cleared.
   */
  lemma SubmitStored(st: PageState, when: string, a: Advance, today: string, now: string)
    requires AdvanceVerdict(st.form, st.users, when).Ok?
    ensures var r := AfterSubmit(st, when, Added(a), today, now);
      r.sent == st.sent + [AdvanceVerdict(st.form, st.users, when).value] && r.users == st.users &&
      r.advances == [Some(a)] + st.advances && r.form == BlankForm(today, now) && r.error.None? && !r.isModalOpen &&
      TotalAdvances(r.advances) == a.amount + TotalAdvances(st.advances)
  {
    PrependedTotals(a, st.advances);
  }

  /** An accepted entry the server does not store is still sent, but the ledger and the form stay and an error shows. */
  lemma SubmitNotStored(st: PageState, when: string, reply: AddReply, today: string, now: string)
    requires AdvanceVerdict(st.form, st.users, when).Ok? && !reply.Added?
    ensures var r := AfterSubmit(st, when, reply, today, now);
      r.sent == st.sent + [AdvanceVerdict(st.form, st.users, when).value] &&
      r == st.(sent := r.sent, error := r.error) && r.error.Some?
  {
  }

  class AdvancePage {
    var users: seq<User>
    var advances: seq<Entry>
    var form: AdvanceForm
    var error: Option<string>
    var isModalOpen: bool
    /** The records handed to `addAdvance`, in order. */
    var sent: seq<NewAdvance>

    constructor(today: string, now: string)
      ensures users == [] && advances == [] && form == BlankForm(today, now) && error.None? && !isModalOpen && sent == []
    {
      users, advances, form, error, isModalOpen, sent := [], [], BlankForm(today, now), None, false, [];
    }

    /** The result of the initial load or of a refresh: the lists, or the failure message. */
    method HandleLoaded(loaded: Option<(seq<User>, seq<Entry>)>, refreshing: bool)
      modifies this
      ensures loaded.Some? ==> State() == old(State()).(users := loaded.value.0, advances := loaded.value.1, error := None)
      ensures loaded.None? ==> State() == old(State()).(error := Some(if refreshing then RefreshFailed else LoadFailed))
    {
      error := None;
      if loaded.Some? {
        users, advances := loaded.value.0, loaded.value.1;
      } else {
        error := Some(if refreshing then RefreshFailed else LoadFailed);
      }
    }

    /** `resetForm`. */
    method ResetForm(today: string, now: string)
      modifies this
      ensures State() == old(State()).(form := BlankForm(today, now), error := None, isModalOpen := false)
    {
      form := BlankForm(today, now);
      error := None;
      isModalOpen := false;
    }

    function State(): PageState
      reads this
    {
      PageState(users, advances, form, error, isModalOpen, sent)
    }

    /** `handleSubmit`, with the outcome `AfterSubmit` describes. */
    method HandleSubmit(when: string, reply: AddReply, today: string, now: string)
      modifies this
      ensures State() == AfterSubmit(old(State()), when, reply, today, now)
    {
      var st := AfterSubmit(State(), when, reply, today, now);
      Commit(st);
    }

    /** Make the page show `st`. */
    method Commit(st: PageState)
      modifies this
      ensures State() == st
    {
      users, advances, form, error, isModalOpen, sent := st.users, st.advances, st.form, st.error, st.isModalOpen, st.sent;
    }
  }
}
