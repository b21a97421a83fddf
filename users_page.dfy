/**
 * The farmers page: the searches over farmers and helpers, the checks the
 * two forms run, the list updates the handlers make after the server
 * answers, the farmer report's range filters and totals, and the zero
 * statistics shown when the server has none.
 *
 * The server's answers and the current time are parameters.  The
 * confirmation dialog is a `confirmed` flag.
 */
module UsersPage {
  import opened Common
  import opened Types
  import FormValidation
  import Alerts
  import ErrorHandler
  import EventBus

  // ------------------------------------------------------------------
  // Searches
  // ------------------------------------------------------------------

  /** The farmer search: the lower-cased term in the lower-cased name or phone number. */
  predicate UserMatches(u: User, term: string)
  {
    Contains(ToLower(u.name), ToLower(term)) || Contains(ToLower(u.phoneNumber), ToLower(term))
  }

  /** `filteredUsers`: the matching farmers, in list order. */
  function FilteredUsers(users: seq<User>, term: string): (r: seq<User>)
    ensures forall u :: u in r <==> u in users && UserMatches(u, term)
    ensures forall u :: multiset(r)[u] == if UserMatches(u, term) then multiset(users)[u] else 0
    ensures IsSubseq(r, users)
  {
    FilterIsSubseq(users, (u: User) => UserMatches(u, term));
    assert forall u :: multiset(Filter(users, (u: User) => UserMatches(u, term)))[u] == if UserMatches(u, term) then multiset(users)[u] else 0 by {
      forall u { FilterMultiset(users, (u: User) => UserMatches(u, term), u); }
    }
    Filter(users, (u: User) => UserMatches(u, term))
  }

  /** The helper search: name and username lower-cased, but the phone number against the term as typed. */
  predicate HelperMatches(h: Helper, term: string)
  {
    Contains(ToLower(h.name), ToLower(term)) || Contains(ToLower(h.username), ToLower(term)) ||
    Contains(h.phoneNumber, term)
  }

  /** `filteredHelpers`: the matching helpers, in list order. */
  function FilteredHelpers(helpers: seq<Helper>, term: string): (r: seq<Helper>)
    ensures forall h :: h in r <==> h in helpers && HelperMatches(h, term)
    ensures forall h :: multiset(r)[h] == if HelperMatches(h, term) then multiset(helpers)[h] else 0
    ensures IsSubseq(r, helpers)
  {
    FilterIsSubseq(helpers, (h: Helper) => HelperMatches(h, term));
    assert forall h :: multiset(Filter(helpers, (h: Helper) => HelperMatches(h, term)))[h] == if HelperMatches(h, term) then multiset(helpers)[h] else 0 by {
      forall h { FilterMultiset(helpers, (h: Helper) => HelperMatches(h, term), h); }
    }
    Filter(helpers, (h: Helper) => HelperMatches(h, term))
  }

  /** An empty search lists every farmer and every helper, in order. */
  lemma EmptySearchKeepsAll(users: seq<User>, helpers: seq<Helper>)
    ensures FilteredUsers(users, "") == users
    ensures FilteredHelpers(helpers, "") == helpers
  {
    forall k | 0 <= k < |users| ensures UserMatches(users[k], "") { ContainsEmpty(ToLower(users[k].name)); }
    FilterKeepsAll(users, (u: User) => UserMatches(u, ""));
    forall k | 0 <= k < |helpers| ensures HelperMatches(helpers[k], "") { ContainsEmpty(ToLower(helpers[k].name)); }
    FilterKeepsAll(helpers, (h: Helper) => HelperMatches(h, ""));
  }

  /** The farmer search does not depend on the case of the term. */
  lemma UserSearchIgnoresCase(users: seq<User>, term: string)
    ensures FilteredUsers(users, term) == FilteredUsers(users, ToLower(term))
  {
    ToLowerIdempotent(term);
    FilterSame(users, (u: User) => UserMatches(u, term), (u: User) => UserMatches(u, ToLower(term)));
  }

  // ------------------------------------------------------------------
  // Form checks
  // ------------------------------------------------------------------

  /** A character of `[\d\s\-\(\)]`. */
  predicate PhoneChar(c: char)
  {
    ('0' <= c <= '9') || IsSpace(c) || c == '-' || c == '(' || c == ')'
  }

  predicate PhoneBody(s: string)
  {
    10 <= |s| <= 15 && forall k :: 0 <= k < |s| ==> PhoneChar(s[k])
  }

  /** `/^[\+]?[\d\s\-\(\)]{10,15}$/`: an optional plus sign, then 10 to 15 digits, spaces, dashes or brackets. */
  predicate PhoneShape(s: string)
  {
    PhoneBody(s) || (s != [] && s[0] == '+' && PhoneBody(s[1..]))
  }

  /** `/^[a-zA-Z0-9_]+$/`. */
  predicate UsernameShape(s: string)
  {
    s != [] && forall k :: 0 <= k < |s| ==> IsUpper(s[k]) || IsLower(s[k]) || ('0' <= s[k] <= '9') || s[k] == '_'
  }

  const PhoneMessage := "Please enter a valid phone number"
  const UsernameMessage := "Username can only contain letters, numbers, and underscores"

  /** The phone number's custom check: the same expression as its pattern. */
  function PhoneCustom(v: FormValidation.Value): string
  {
    if v.Text? && v.s != "" && !PhoneShape(v.s) then PhoneMessage else ""
  }

  function UsernameCustom(v: FormValidation.Value): string
  {
    if v.Text? && v.s != "" && !UsernameShape(v.s) then UsernameMessage else ""
  }

  /** A required text field with length limits and nothing else. */
  function Sized(minLength: nat, maxLength: Option<nat>): FormValidation.Rule
  {
    FormValidation.Rule(true, Some(minLength), maxLength, None, None, None, None)
  }

  const PhoneRule := FormValidation.Rule(true, None, None, Some((s: string) => PhoneShape(s)), None, None, Some(PhoneCustom))
  const UsernameRule := FormValidation.Rule(true, Some(3), Some(50), Some((s: string) => UsernameShape(s)), None, None, Some(UsernameCustom))

  const UserRules: seq<FormValidation.NamedRule> := [
    FormValidation.NamedRule("name", Sized(2, Some(100))),
    FormValidation.NamedRule("phoneNumber", PhoneRule),
    FormValidation.NamedRule("address", Sized(5, Some(500)))
  ]

  const HelperRules: seq<FormValidation.NamedRule> := [
    FormValidation.NamedRule("name", Sized(2, Some(100))),
    FormValidation.NamedRule("username", UsernameRule),
    FormValidation.NamedRule("password", Sized(6, None)),
    FormValidation.NamedRule("phoneNumber", PhoneRule)
  ]

  datatype UserForm = UserForm(name: string, phoneNumber: string, address: string)
  datatype HelperForm = HelperForm(name: string, username: string, password: string, phoneNumber: string)

  const BlankUserForm := UserForm("", "", "")
  const BlankHelperForm := HelperForm("", "", "", "")

  /** A text that is not blank to `required`. */
  predicate Filled(s: string)
  {
    s != "" && Trim(s) != ""
  }

  /** What a required field with length limits accepts. */
  lemma SizedVerdict(minLength: nat, maxLength: Option<nat>, s: string)
    requires minLength > 0 && (maxLength.Some? ==> maxLength.value > 0)
    ensures FormValidation.Check(Sized(minLength, maxLength), FormValidation.Text(s)).None? <==>
            Filled(s) && minLength <= |s| && (maxLength.Some? ==> |s| <= maxLength.value)
  {
    var r := Sized(minLength, maxLength);
    var v := FormValidation.Text(s);
    assert !FormValidation.Mismatch(r, s) && !FormValidation.BelowMin(r, v) && !FormValidation.AboveMax(r, v);
    assert !FormValidation.CustomFails(r, v);
    assert FormValidation.Missing(v) <==> !Filled(s);
  }

  /**
   * The phone number passes exactly when it is filled in and has the
   * pattern's shape; the custom check repeats the pattern, so its message
   * is never the one reported.
   */
  lemma PhoneVerdict(s: string)
    ensures FormValidation.Check(PhoneRule, FormValidation.Text(s)).None? <==> Filled(s) && PhoneShape(s)
    ensures FormValidation.Check(PhoneRule, FormValidation.Text(s)) != Some(FormValidation.Custom(PhoneMessage))
  {
    PatternVerdict(PhoneRule, s);
  }

  /** The same holds for the helper's username, which must also be 3 to 50 characters long. */
  lemma UsernameVerdict(s: string)
    ensures FormValidation.Check(UsernameRule, FormValidation.Text(s)).None? <==> Filled(s) && 3 <= |s| <= 50 && UsernameShape(s)
    ensures FormValidation.Check(UsernameRule, FormValidation.Text(s)) != Some(FormValidation.Custom(UsernameMessage))
  {
    PatternVerdict(UsernameRule, s);
  }

  /**
   * A required rule with a pattern, no numeric bounds and a custom check
   * that fails only where the pattern fails: it accepts exactly the filled
   * texts within the length limits that match the pattern, and never
   * reports the custom message.
   */
  lemma PatternVerdict(r: FormValidation.Rule, s: string)
    requires r.required && r.pattern.Some? && r.min.None? && r.max.None? && r.custom.Some?
    requires (r.minLength.Some? ==> r.minLength.value > 0) && (r.maxLength.Some? ==> r.maxLength.value > 0)
    requires r.pattern.value(s) ==> r.custom.value(FormValidation.Text(s)) == ""
    ensures FormValidation.Check(r, FormValidation.Text(s)).None? <==>
      Filled(s) && (r.minLength.Some? ==> r.minLength.value <= |s|) && (r.maxLength.Some? ==> |s| <= r.maxLength.value) &&
      r.pattern.value(s)
    ensures forall m :: FormValidation.Check(r, FormValidation.Text(s)) != Some(FormValidation.Custom(m))
  {
    var v := FormValidation.Text(s);
    assert !FormValidation.BelowMin(r, v) && !FormValidation.AboveMax(r, v);
    assert FormValidation.Missing(v) <==> !Filled(s);
    assert FormValidation.Mismatch(r, s) <==> !r.pattern.value(s);
    var c := FormValidation.Check(r, v);
    if !Filled(s) {
      assert c == Some(FormValidation.IsRequired);
    } else if FormValidation.TooShort(r, s) {
      assert c == Some(FormValidation.ShorterThan(r.minLength.value));
    } else if FormValidation.TooLong(r, s) {
      assert c == Some(FormValidation.LongerThan(r.maxLength.value));
    } else if !r.pattern.value(s) {
      assert c == Some(FormValidation.BadFormat);
    } else {
      assert !FormValidation.CustomFails(r, v);
      assert c.None?;
    }
  }

  function UserFormValues(f: UserForm): map<string, FormValidation.Value>
  {
    map["name" := FormValidation.Text(f.name), "phoneNumber" := FormValidation.Text(f.phoneNumber),
        "address" := FormValidation.Text(f.address)]
  }

  function HelperFormValues(f: HelperForm): map<string, FormValidation.Value>
  {
    map["name" := FormValidation.Text(f.name), "username" := FormValidation.Text(f.username),
        "password" := FormValidation.Text(f.password), "phoneNumber" := FormValidation.Text(f.phoneNumber)]
  }

  /** What `validateForm()` answers for the farmer form. */
  predicate UserFormPasses(f: UserForm)
  {
    forall i :: 0 <= i < |UserRules| ==> FormValidation.Message(UserRules, UserFormValues(f), UserRules[i].field) == ""
  }

  predicate HelperFormPasses(f: HelperForm)
  {
    forall i :: 0 <= i < |HelperRules| ==> FormValidation.Message(HelperRules, HelperFormValues(f), HelperRules[i].field) == ""
  }

  /** The rule of the first entry for a field is the one `validationRules[name]` finds. */
  lemma {:induction false} RuleForAt(rules: seq<FormValidation.NamedRule>, k: nat)
    requires k < |rules|
    requires forall j :: 0 <= j < k ==> rules[j].field != rules[k].field
    ensures FormValidation.RuleFor(rules, rules[k].field) == Some(rules[k].rule)
  {
    if k > 0 {
      RuleForAt(rules[1..], k - 1);
    }
  }

  /** The `k`-th ruled field records no message exactly when its value passes its rule. */
  lemma FieldAt(rules: seq<FormValidation.NamedRule>, values: map<string, FormValidation.Value>, k: nat, v: FormValidation.Value)
    requires k < |rules|
    requires forall j :: 0 <= j < k ==> rules[j].field != rules[k].field
    requires FormValidation.ValueOf(values, rules[k].field) == v
    ensures FormValidation.Message(rules, values, rules[k].field) == "" <==> FormValidation.Check(rules[k].rule, v).None?
  {
    RuleForAt(rules, k);
  }

  /** All three ruled fields pass exactly when each of them does. */
  lemma ThreeFields(rules: seq<FormValidation.NamedRule>, vs: map<string, FormValidation.Value>)
    requires |rules| == 3
    ensures (forall i :: 0 <= i < |rules| ==> FormValidation.Message(rules, vs, rules[i].field) == "") <==>
      FormValidation.Message(rules, vs, rules[0].field) == "" &&
      FormValidation.Message(rules, vs, rules[1].field) == "" &&
      FormValidation.Message(rules, vs, rules[2].field) == ""
  {
    var m := FormValidation.MessageFn(rules, vs);
    AllBlank(FormValidation.Names(rules), m);
  }

  /** All four ruled fields pass exactly when each of them does. */
  lemma FourFields(rules: seq<FormValidation.NamedRule>, vs: map<string, FormValidation.Value>)
    requires |rules| == 4
    ensures (forall i :: 0 <= i < |rules| ==> FormValidation.Message(rules, vs, rules[i].field) == "") <==>
      FormValidation.Message(rules, vs, rules[0].field) == "" &&
      FormValidation.Message(rules, vs, rules[1].field) == "" &&
      FormValidation.Message(rules, vs, rules[2].field) == "" &&
      FormValidation.Message(rules, vs, rules[3].field) == ""
  {
    var names, m := FormValidation.Names(rules), FormValidation.MessageFn(rules, vs);
    AllBlank(names, m);
    FormValidation.AllFieldsPass(rules, vs);
    assert m(names[0]) == FormValidation.Message(rules, vs, rules[0].field);
    assert m(names[1]) == FormValidation.Message(rules, vs, rules[1].field);
    assert m(names[2]) == FormValidation.Message(rules, vs, rules[2].field);
    assert m(names[3]) == FormValidation.Message(rules, vs, rules[3].field);
  }

  /** Three or four messages are all blank exactly when each one is. */
  lemma AllBlank(names: seq<string>, m: string -> string)
    requires 3 <= |names| <= 4
    ensures (forall i :: 0 <= i < |names| ==> m(names[i]) == "") <==>
      m(names[0]) == "" && m(names[1]) == "" && m(names[2]) == "" && (|names| == 4 ==> m(names[3]) == "")
  {
    if m(names[0]) == "" && m(names[1]) == "" && m(names[2]) == "" && (|names| == 4 ==> m(names[3]) == "") {
      forall i | 0 <= i < |names| ensures m(names[i]) == "" {
        if i == 0 {} else if i == 1 {} else if i == 2 {} else {}
      }
    }
  }

  /** Each of distinct ruled fields records no message exactly when its value passes the field's rule. */
  lemma EachFieldAt(rules: seq<FormValidation.NamedRule>, vs: map<string, FormValidation.Value>, vals: seq<FormValidation.Value>)
    requires |vals| == |rules|
    requires forall i, j :: 0 <= i < j < |rules| ==> rules[i].field != rules[j].field
    requires forall i :: 0 <= i < |rules| ==> FormValidation.ValueOf(vs, rules[i].field) == vals[i]
    ensures forall i :: 0 <= i < |rules| ==>
      (FormValidation.Message(rules, vs, rules[i].field) == "" <==> FormValidation.Check(rules[i].rule, vals[i]).None?)
  {
    forall i | 0 <= i < |rules|
      ensures FormValidation.Message(rules, vs, rules[i].field) == "" <==> FormValidation.Check(rules[i].rule, vals[i]).None?
    {
      FieldAt(rules, vs, i, vals[i]);
    }
  }

  /** Three distinct ruled fields pass exactly when each value passes its field's rule. */
  lemma ThreeRuled(rules: seq<FormValidation.NamedRule>, vs: map<string, FormValidation.Value>, a: FormValidation.Value, b: FormValidation.Value, c: FormValidation.Value)
    requires |rules| == 3
    requires rules[0].field != rules[1].field && rules[0].field != rules[2].field && rules[1].field != rules[2].field
    requires FormValidation.ValueOf(vs, rules[0].field) == a && FormValidation.ValueOf(vs, rules[1].field) == b
    requires FormValidation.ValueOf(vs, rules[2].field) == c
    ensures (forall i :: 0 <= i < |rules| ==> FormValidation.Message(rules, vs, rules[i].field) == "") <==>
      FormValidation.Check(rules[0].rule, a).None? && FormValidation.Check(rules[1].rule, b).None? &&
      FormValidation.Check(rules[2].rule, c).None?
  {
    EachFieldAt(rules, vs, [a, b, c]);
    ThreeFields(rules, vs);
  }

  /** Four distinct ruled fields pass exactly when each value passes its field's rule. */
  lemma FourRuled(rules: seq<FormValidation.NamedRule>, vs: map<string, FormValidation.Value>,
                  a: FormValidation.Value, b: FormValidation.Value, c: FormValidation.Value, d: FormValidation.Value)
    requires |rules| == 4
    requires rules[0].field != rules[1].field && rules[0].field != rules[2].field && rules[1].field != rules[2].field
    requires rules[0].field != rules[3].field && rules[1].field != rules[3].field && rules[2].field != rules[3].field
    requires FormValidation.ValueOf(vs, rules[0].field) == a && FormValidation.ValueOf(vs, rules[1].field) == b
    requires FormValidation.ValueOf(vs, rules[2].field) == c && FormValidation.ValueOf(vs, rules[3].field) == d
    ensures (forall i :: 0 <= i < |rules| ==> FormValidation.Message(rules, vs, rules[i].field) == "") <==>
      FormValidation.Check(rules[0].rule, a).None? && FormValidation.Check(rules[1].rule, b).None? &&
      FormValidation.Check(rules[2].rule, c).None? && FormValidation.Check(rules[3].rule, d).None?
  {
    EachFieldAt(rules, vs, [a, b, c, d]);
    FourFields(rules, vs);
  }

  /** The farmer form passes exactly when each of its fields passes its own rule. */
  lemma UserFormFields(f: UserForm)
    ensures UserFormPasses(f) <==>
      FormValidation.Check(Sized(2, Some(100)), FormValidation.Text(f.name)).None? &&
      FormValidation.Check(PhoneRule, FormValidation.Text(f.phoneNumber)).None? &&
      FormValidation.Check(Sized(5, Some(500)), FormValidation.Text(f.address)).None?
  {
    ThreeRuled(UserRules, UserFormValues(f), FormValidation.Text(f.name), FormValidation.Text(f.phoneNumber), FormValidation.Text(f.address));
  }

  /** The farmer form is sent exactly when its three fields meet their rules. */
  lemma UserFormVerdict(f: UserForm)
    ensures UserFormPasses(f) <==>
      Filled(f.name) && 2 <= |f.name| <= 100 &&
      Filled(f.phoneNumber) && PhoneShape(f.phoneNumber) &&
      Filled(f.address) && 5 <= |f.address| <= 500
  {
    UserFormFields(f);
    SizedVerdict(2, Some(100), f.name);
    PhoneVerdict(f.phoneNumber);
    SizedVerdict(5, Some(500), f.address);
  }

  /** The helper form passes exactly when each of its fields passes its own rule. */
  lemma HelperFormFields(f: HelperForm)
    ensures HelperFormPasses(f) <==>
      FormValidation.Check(Sized(2, Some(100)), FormValidation.Text(f.name)).None? &&
      FormValidation.Check(UsernameRule, FormValidation.Text(f.username)).None? &&
      FormValidation.Check(Sized(6, None), FormValidation.Text(f.password)).None? &&
      FormValidation.Check(PhoneRule, FormValidation.Text(f.phoneNumber)).None?
  {
    FourRuled(HelperRules, HelperFormValues(f), FormValidation.Text(f.name), FormValidation.Text(f.username),
              FormValidation.Text(f.password), FormValidation.Text(f.phoneNumber));
  }

  /** The helper form is sent exactly when its four fields meet their rules. */
  lemma HelperFormVerdict(f: HelperForm)
    ensures HelperFormPasses(f) <==>
      Filled(f.name) && 2 <= |f.name| <= 100 &&
      Filled(f.username) && 3 <= |f.username| <= 50 && UsernameShape(f.username) &&
      Filled(f.password) && 6 <= |f.password| &&
      Filled(f.phoneNumber) && PhoneShape(f.phoneNumber)
  {
    HelperFormFields(f);
    SizedVerdict(2, Some(100), f.name);
    UsernameVerdict(f.username);
    SizedVerdict(6, None, f.password);
    PhoneVerdict(f.phoneNumber);
  }

  // ------------------------------------------------------------------
  // List updates
  // ------------------------------------------------------------------

  /** `list.map(x => x.id === id ? f(x) : x)`. */
  function UpdateById<T>(s: seq<T>, idOf: T -> string, id: string, f: T -> T): (r: seq<T>)
    ensures |r| == |s|
    ensures forall k :: 0 <= k < |s| ==> r[k] == if idOf(s[k]) == id then f(s[k]) else s[k]
  {
    if s == [] then [] else [if idOf(s[0]) == id then f(s[0]) else s[0]] + UpdateById(s[1..], idOf, id, f)
  }

  /** `list.filter(x => x.id !== id)`. */
  function RemoveById<T(!new)>(s: seq<T>, idOf: T -> string, id: string): (r: seq<T>)
    ensures forall x :: x in r <==> x in s && idOf(x) != id
    ensures forall x :: multiset(r)[x] == if idOf(x) != id then multiset(s)[x] else 0
    ensures IsSubseq(r, s)
  {
    FilterIsSubseq(s, (x: T) => idOf(x) != id);
    assert forall x :: multiset(Filter(s, (x: T) => idOf(x) != id))[x] == if idOf(x) != id then multiset(s)[x] else 0 by {
      forall x { FilterMultiset(s, (x: T) => idOf(x) != id, x); }
    }
    Filter(s, (x: T) => idOf(x) != id)
  }

  function UserId(u: User): string { u.id }
  function HelperId(h: Helper): string { h.id }

  const AdminReason := "Deactivated by admin"

  /** The deactivated copy of a farmer, stamped with the time `now`. */
  function Deactivated(u: User, now: string): (r: User)
    ensures r.isActive == Some(false) && r.deactivatedAt == Some(now) && r.deactivationReason == Some(AdminReason)
    ensures r.(isActive := u.isActive, deactivatedAt := u.deactivatedAt, deactivationReason := u.deactivationReason) == u
  {
    u.(isActive := Some(false), deactivatedAt := Some(now), deactivationReason := Some(AdminReason))
  }

  /** The reactivated copy of a farmer: active, with both deactivation fields cleared. */
  function Reactivated(u: User): (r: User)
    ensures r.isActive == Some(true) && r.deactivatedAt.None? && r.deactivationReason.None?
    ensures r.(isActive := u.isActive, deactivatedAt := u.deactivatedAt, deactivationReason := u.deactivationReason) == u
  {
    u.(isActive := Some(true), deactivatedAt := None, deactivationReason := None)
  }

  /** Reactivating undoes a deactivation of an active farmer with no deactivation record. */
  lemma ReactivateUndoesDeactivate(u: User, now: string)
    requires u.isActive == Some(true) && u.deactivatedAt.None? && u.deactivationReason.None?
    ensures Reactivated(Deactivated(u, now)) == u
  {
  }

  /**
   * A status change alters only the farmers with the target id, and only
   * their status fields; every farmer keeps its place and its id.
   */
  lemma StatusChangeIsLocal(users: seq<User>, id: string, now: string)
    ensures var d := UpdateById(users, UserId, id, (u: User) => Deactivated(u, now));
      |d| == |users| &&
      forall k :: 0 <= k < |users| ==>
        d[k].id == users[k].id && d[k].name == users[k].name && d[k].phoneNumber == users[k].phoneNumber &&
        (users[k].id == id ==> d[k].isActive == Some(false) && d[k].deactivationReason == Some(AdminReason)) &&
        (users[k].id != id ==> d[k] == users[k])
    ensures var a := UpdateById(users, UserId, id, Reactivated);
      |a| == |users| &&
      forall k :: 0 <= k < |users| ==>
        a[k].id == users[k].id &&
        (users[k].id == id ==> a[k].isActive == Some(true) && a[k].deactivatedAt.None? && a[k].deactivationReason.None?) &&
        (users[k].id != id ==> a[k] == users[k])
  {
  }

  /** Removing by id leaves no entry with that id and keeps the others in order. */
  lemma RemoveLeavesNoneWithId(users: seq<User>, id: string)
    ensures forall k :: 0 <= k < |RemoveById(users, UserId, id)| ==> RemoveById(users, UserId, id)[k].id != id
    ensures forall u :: u in users && u.id != id ==> u in RemoveById(users, UserId, id)
  {
    var r := RemoveById(users, UserId, id);
    forall k | 0 <= k < |r| ensures r[k].id != id { assert r[k] in r; }
  }

  /** `list.find(x => x.id === id)?.name || fallback`. */
  function NameOr(users: seq<User>, id: string, fallback: string): (n: string)
    ensures n != "" || fallback == ""
    ensures FindUser(users, id).Some? && FindUser(users, id).value.name != "" ==> n == FindUser(users, id).value.name
  {
    var u := FindUser(users, id);
    if u.Some? && u.value.name != "" then u.value.name else fallback
  }

  /** `helpers.find(h => h.id === id)`: the first helper with that id. */
  function FindHelper(helpers: seq<Helper>, id: string): (r: Option<Helper>)
    ensures r.None? <==> forall k :: 0 <= k < |helpers| ==> helpers[k].id != id
    ensures r.Some? ==> r.value in helpers && r.value.id == id
    ensures r.Some? ==> exists i :: 0 <= i < |helpers| && helpers[i] == r.value && forall k :: 0 <= k < i ==> helpers[k].id != id
  {
    if helpers == [] then None
    else if helpers[0].id == id then Some(helpers[0])
    else
      var r := FindHelper(helpers[1..], id);
      assert forall k :: 1 <= k < |helpers| ==> helpers[k] == helpers[1..][k - 1];
      assert r.Some? ==> exists i :: 0 <= i < |helpers| && helpers[i] == r.value && forall k :: 0 <= k < i ==> helpers[k].id != id by {
        if r.Some? {
          var i :| 0 <= i < |helpers[1..]| && helpers[1..][i] == r.value && forall k :: 0 <= k < i ==> helpers[1..][k].id != id;
          assert helpers[i + 1] == r.value;
        }
      }
      r
  }

  function HelperNameOr(helpers: seq<Helper>, id: string): (n: string)
    ensures n != ""
  {
    var h := FindHelper(helpers, id);
    if h.Some? && h.value.name != "" then h.value.name else "Unknown Helper"
  }

  function Quoted(name: string): string
  {
    "\"" + name + "\""
  }

  // ------------------------------------------------------------------
  // The page
  // ------------------------------------------------------------------

  /**
   * A request to the alert context: `showSuccess` or `showError`, or, for
   * `ValidationFailed`, the form hook's `showValidationErrors`, whose effect
   * on the queue is `Alerts.AlertQueue.ShowValidationErrors`.
   */
  datatype Notice =
    | Notice(kind: Alerts.AlertKind, message: string, title: Option<string>)
    | ValidationFailed(errors: seq<Alerts.ValidationError>)

  /** The summary the form hook shows when the farmer form fails validation. */
  function UserValidationNotice(f: UserForm): Notice
  {
    ValidationFailed(FormValidation.Report(UserRules, UserFormValues(f)))
  }

  /** The summary the form hook shows when the helper form fails validation. */
  function HelperValidationNotice(f: HelperForm): Notice
  {
    ValidationFailed(FormValidation.Report(HelperRules, HelperFormValues(f)))
  }

  function Failure(err: ErrorHandler.Thrown, title: string): Notice
  {
    Notice(Alerts.Error, ErrorHandler.ParseError(err, ErrorHandler.DefaultFallback, None).message, Some(title))
  }

  /** What `addUser` or `updateUser` hands back: the stored farmer, its refusal message, or nothing. */
  datatype UserReply = Stored(user: User) | Refused(message: string) | NoUser

  /** A helper call: the helper sent back, an answer without one, or a thrown error. */
  datatype HelperReply = HelperSent(helper: Helper) | NoHelper | HelperThrew(error: ErrorHandler.Thrown)

  /** A status call (`deactivateUser`, `reactivateUser`, `deleteHelper`): done, not done, or thrown. */
  datatype StatusReply = Done | NotDone | StatusThrew(error: ErrorHandler.Thrown)

  /** `getHelpers`: the list, an answer without one, or a thrown error. */
  datatype HelpersReply = Listed(helpers: seq<Helper>) | NotListed | ListThrew(error: ErrorHandler.Thrown)

  /** Every field of the page at once. */
  datatype Snapshot = Snapshot(
    users: seq<User>,
    helpers: seq<Helper>,
    editingUser: Option<User>,
    isModalOpen: bool,
    userForm: UserForm,
    editingHelper: Option<Helper>,
    isHelperModalOpen: bool,
    helperForm: HelperForm,
    notices: seq<Notice>,
    emitted: seq<string>)

  /**
   * `handleSubmit`: an invalid form sends nothing and only adds its
   * summary; a stored farmer replaces the edited one or is appended, and
   * the form is reset and closed; a refusal or an empty answer shows an
   * error and keeps the form open. Every submission adds exactly one
   * notice, and the helper side of the page never changes.
   */
  function AfterUserSubmit(st: Snapshot, reply: UserReply): (r: Snapshot)
    ensures !UserFormPasses(st.userForm) ==> r == st.(notices := st.notices + [UserValidationNotice(st.userForm)])
    ensures r.helpers == st.helpers && r.editingHelper == st.editingHelper &&
            r.isHelperModalOpen == st.isHelperModalOpen && r.helperForm == st.helperForm
    ensures st.notices <= r.notices && |r.notices| == |st.notices| + 1
    ensures r.users != st.users ==> UserFormPasses(st.userForm) && reply.Stored?
  {
    if !UserFormPasses(st.userForm) then st.(notices := st.notices + [UserValidationNotice(st.userForm)])
    else UserReplied(st, reply)
  }

  /** What a valid farmer form's submission makes of the server's reply. */
  function UserReplied(st: Snapshot, reply: UserReply): (r: Snapshot)
    ensures r.helpers == st.helpers && r.editingHelper == st.editingHelper &&
            r.isHelperModalOpen == st.isHelperModalOpen && r.helperForm == st.helperForm
    ensures st.notices <= r.notices && |r.notices| == |st.notices| + 1
    ensures r.users != st.users ==> reply.Stored?
  {
    var editing := st.editingUser.Some?;
    var title := if editing then "Failed to Update User" else "Failed to Add User";
    match reply
    case Refused(m) => st.(notices := st.notices + [Notice(Alerts.Error, m, Some(title))])
    case NoUser =>
      st.(notices := st.notices + [Notice(Alerts.Error,
        if editing then "Failed to update user - no response from server"
        else "Failed to add user - no response from server", Some(title))])
    case Stored(u) =>
      var st' := if editing then
        st.(users := UpdateById(st.users, UserId, st.editingUser.value.id, (x: User) => u),
            notices := st.notices + [Notice(Alerts.Success, "User " + Quoted(u.name) + " updated successfully!", None)],
            emitted := st.emitted + [EventBus.UserUpdated])
      else
        st.(users := st.users + [u],
            notices := st.notices + [Notice(Alerts.Success, "User " + Quoted(u.name) + " added successfully!", None)],
            emitted := st.emitted + [EventBus.DataRefreshNeeded]);
      st'.(userForm := BlankUserForm, isModalOpen := false, editingUser := None)
  }

  /** An invalid farmer form only adds a summary listing at least one failing field. */
  lemma UserSubmitRejected(st: Snapshot, reply: UserReply)
    requires !UserFormPasses(st.userForm)
    ensures AfterUserSubmit(st, reply) == st.(notices := st.notices + [UserValidationNotice(st.userForm)])
    ensures UserValidationNotice(st.userForm).errors != []
  {
  }

  /**
   * A stored farmer replaces the edited farmer (and nothing else in the
   * list) or is appended, success is announced, the matching event is
   * emitted, and the form is reset and closed; the helpers are untouched.
   */
  lemma UserSubmitStored(st: Snapshot, u: User)
    requires UserFormPasses(st.userForm)
    ensures var r := AfterUserSubmit(st, Stored(u));
      (st.editingUser.Some? ==>
         r.users == UpdateById(st.users, UserId, st.editingUser.value.id, (x: User) => u) &&
         r.emitted == st.emitted + [EventBus.UserUpdated]) &&
      (st.editingUser.None? ==> r.users == st.users + [u] && r.emitted == st.emitted + [EventBus.DataRefreshNeeded]) &&
      r.notices == st.notices + [Notice(Alerts.Success, "User " + Quoted(u.name) +
                                        (if st.editingUser.Some? then " updated successfully!" else " added successfully!"), None)] &&
      r == st.(users := r.users, notices := r.notices, emitted := r.emitted,
               userForm := BlankUserForm, isModalOpen := false, editingUser := None)
  {
  }

  /** A refused or empty answer shows one error under the add or update title and keeps everything else. */
  lemma UserSubmitFailed(st: Snapshot, reply: UserReply)
    requires UserFormPasses(st.userForm) && !reply.Stored?
    ensures var r := AfterUserSubmit(st, reply);
      |r.notices| == |st.notices| + 1 && r.notices[..|st.notices|] == st.notices &&
      r.notices[|st.notices|].kind == Alerts.Error &&
      r.notices[|st.notices|].title == Some(if st.editingUser.Some? then "Failed to Update User" else "Failed to Add User") &&
      (reply.Refused? ==> r.notices[|st.notices|].message == reply.message) &&
      r == st.(notices := r.notices)
  {
  }

  /**
   * `handleHelperSubmit`: an invalid form sends nothing and only adds its
   * summary; a returned helper replaces the edited one or is appended;
   * unless the call threw, the form is reset and closed, also when no
   * helper came back. At most one notice is added, and the farmer side of
   * the page never changes.
   */
  function AfterHelperSubmit(st: Snapshot, reply: HelperReply): (r: Snapshot)
    ensures !HelperFormPasses(st.helperForm) ==> r == st.(notices := st.notices + [HelperValidationNotice(st.helperForm)])
    ensures r.users == st.users && r.editingUser == st.editingUser && r.isModalOpen == st.isModalOpen &&
            r.userForm == st.userForm && r.emitted == st.emitted
    ensures st.notices <= r.notices && |r.notices| <= |st.notices| + 1
    ensures r.helpers != st.helpers ==> HelperFormPasses(st.helperForm) && reply.HelperSent?
  {
    if !HelperFormPasses(st.helperForm) then st.(notices := st.notices + [HelperValidationNotice(st.helperForm)])
    else
      var editing := st.editingHelper.Some?;
      match reply
      case HelperThrew(err) =>
        st.(notices := st.notices + [Failure(err, if editing then "Failed to Update Helper" else "Failed to Create Helper")])
      case NoHelper => st.(helperForm := BlankHelperForm, isHelperModalOpen := false, editingHelper := None)
      case HelperSent(h) =>
        var st' := if editing then
          st.(helpers := UpdateById(st.helpers, HelperId, st.editingHelper.value.id, (x: Helper) => h),
              notices := st.notices + [Notice(Alerts.Success, "Helper " + Quoted(h.name) + " updated successfully!", None)])
        else
          st.(helpers := st.helpers + [h],
              notices := st.notices + [Notice(Alerts.Success, "Helper " + Quoted(h.name) + " created successfully!", None)]);
        st'.(helperForm := BlankHelperForm, isHelperModalOpen := false, editingHelper := None)
  }

  /** An invalid helper form only adds a summary listing at least one failing field. */
  lemma HelperSubmitRejected(st: Snapshot, reply: HelperReply)
    requires !HelperFormPasses(st.helperForm)
    ensures AfterHelperSubmit(st, reply) == st.(notices := st.notices + [HelperValidationNotice(st.helperForm)])
    ensures HelperValidationNotice(st.helperForm).errors != []
  {
  }

  /**
   * A returned helper replaces the edited helper or is appended and success
   * is announced; with or without a helper, an answer that did not throw
   * resets and closes the form; a thrown error only adds its alert.
   */
  lemma HelperSubmitOutcome(st: Snapshot, reply: HelperReply)
    requires HelperFormPasses(st.helperForm)
    ensures var r := AfterHelperSubmit(st, reply);
      (reply.HelperSent? && st.editingHelper.Some? ==>
         r.helpers == UpdateById(st.helpers, HelperId, st.editingHelper.value.id, (x: Helper) => reply.helper) &&
         r.notices == st.notices + [Notice(Alerts.Success, "Helper " + Quoted(reply.helper.name) + " updated successfully!", None)]) &&
      (reply.HelperSent? && st.editingHelper.None? ==>
         r.helpers == st.helpers + [reply.helper] &&
         r.notices == st.notices + [Notice(Alerts.Success, "Helper " + Quoted(reply.helper.name) + " created successfully!", None)]) &&
      (!reply.HelperThrew? ==>
         r == st.(helpers := r.helpers, notices := r.notices, helperForm := BlankHelperForm, isHelperModalOpen := false, editingHelper := None)) &&
      (reply.NoHelper? ==> r.helpers == st.helpers && r.notices == st.notices) &&
      (reply.HelperThrew? ==>
         r == st.(notices := st.notices + [Failure(reply.error, if st.editingHelper.Some? then "Failed to Update Helper" else "Failed to Create Helper")]))
  {
  }

  class UserDirectory {
    var users: seq<User>
    var helpers: seq<Helper>
    var editingUser: Option<User>
    var isModalOpen: bool
    var userForm: UserForm
    var editingHelper: Option<Helper>
    var isHelperModalOpen: bool
    var helperForm: HelperForm
    /** The alerts shown, in order. */
    var notices: seq<Notice>
    /** The events emitted on the event bus, in order. */
    var emitted: seq<string>

    function State(): Snapshot
      reads this
    {
      Snapshot(users, helpers, editingUser, isModalOpen, userForm, editingHelper, isHelperModalOpen, helperForm, notices, emitted)
    }

    constructor()
      ensures State() == Snapshot([], [], None, false, BlankUserForm, None, false, BlankHelperForm, [], [])
    {
      users, helpers, editingUser, isModalOpen, userForm := [], [], None, false, BlankUserForm;
      editingHelper, isHelperModalOpen, helperForm, notices, emitted := None, false, BlankHelperForm, [], [];
    }

    /** `loadUsers`: the list `getUsers` answers, which is empty when the call failed. */
    method HandleUsersLoaded(loaded: seq<User>)
      modifies this
      ensures State() == old(State()).(users := loaded)
    {
      users := loaded;
    }

    /** `loadHelpers`: only for an administrator. */
    method HandleHelpersLoaded(isAdmin: bool, reply: HelpersReply)
      modifies this
      ensures !isAdmin ==> State() == old(State())
      ensures isAdmin ==>
        match reply
        case Listed(hs) => State() == old(State()).(helpers := hs)
        case NotListed => State() == old(State())
        case ListThrew(err) => State() == old(State()).(notices := old(notices) + [Failure(err, "Failed to Load Helpers")])
    {
      if isAdmin {
        match reply
        case Listed(hs) => helpers := hs;
        case NotListed =>
        case ListThrew(err) => notices := notices + [Failure(err, "Failed to Load Helpers")];
      }
    }

    /** `handleOpenModal` and `handleCloseModal`. */
    method SetUserModal(open: bool)
      modifies this
      ensures State() == old(State()).(userForm := BlankUserForm, editingUser := None, isModalOpen := open)
    {
      userForm, editingUser, isModalOpen := BlankUserForm, None, open;
    }

    /** `handleEdit`: the form takes the farmer's fields. */
    method HandleEdit(u: User)
      modifies this
      ensures State() == old(State()).(editingUser := Some(u), userForm := UserForm(u.name, u.phoneNumber, u.address), isModalOpen := true)
    {
      editingUser, userForm, isModalOpen := Some(u), UserForm(u.name, u.phoneNumber, u.address), true;
    }

    /** `handleSubmit`, with the outcome `AfterUserSubmit` describes. */
    method HandleSubmit(reply: UserReply)
      modifies this
      ensures State() == AfterUserSubmit(old(State()), reply)
    {
      var st := AfterUserSubmit(State(), reply);
      Commit(st);
    }

    /** The page's state setters, applied together. */
    method Commit(st: Snapshot)
      modifies this
      ensures State() == st
    {
      users, helpers, editingUser, isModalOpen, userForm := st.users, st.helpers, st.editingUser, st.isModalOpen, st.userForm;
      editingHelper, isHelperModalOpen, helperForm, notices, emitted := st.editingHelper, st.isHelperModalOpen, st.helperForm, st.notices, st.emitted;
    }

    /** `handleDelete`, once the confirmation is answered; `deleteUser` either succeeds or throws. */
    method HandleDelete(id: string, confirmed: bool, error: Option<ErrorHandler.Thrown>)
      modifies this
      ensures !confirmed ==> State() == old(State())
      ensures confirmed && error.None? ==>
        State() == old(State()).(
          users := RemoveById(old(users), UserId, id),
          notices := old(notices) + [Notice(Alerts.Success, "User " + Quoted(NameOr(old(users), id, "Unknown User")) + " deleted successfully.", None)],
          emitted := old(emitted) + [EventBus.UserDeleted])
      ensures confirmed && error.Some? ==>
        State() == old(State()).(notices := old(notices) + [Failure(error.value, "Failed to Delete User")])
    {
      if confirmed {
        var name := NameOr(users, id, "Unknown User");
        if error.None? {
          users := RemoveById(users, UserId, id);
          notices := notices + [Notice(Alerts.Success, "User " + Quoted(name) + " deleted successfully.", None)];
          emitted := emitted + [EventBus.UserDeleted];
        } else {
          notices := notices + [Failure(error.value, "Failed to Delete User")];
        }
      }
    }

    /** `handleDeactivateUser`: only the target farmer changes, to the deactivated copy stamped `now`. */
    method HandleDeactivateUser(userId: string, confirmed: bool, reply: StatusReply, now: string)
      modifies this
      ensures !confirmed || reply.NotDone? ==> State() == old(State())
      ensures confirmed && reply.Done? ==>
        State() == old(State()).(
          users := UpdateById(old(users), UserId, userId, (u: User) => Deactivated(u, now)),
          notices := old(notices) + [Notice(Alerts.Success, "User " + Quoted(NameOr(old(users), userId, "Unknown User")) + " has been deactivated successfully.", None)],
          emitted := old(emitted) + [EventBus.UserDeactivated])
      ensures confirmed && reply.StatusThrew? ==>
        State() == old(State()).(notices := old(notices) + [Failure(reply.error, "Failed to Deactivate User")])
    {
      if confirmed {
        var name := NameOr(users, userId, "Unknown User");
        match reply
        case Done =>
          users := UpdateById(users, UserId, userId, (u: User) => Deactivated(u, now));
          notices := notices + [Notice(Alerts.Success, "User " + Quoted(name) + " has been deactivated successfully.", None)];
          emitted := emitted + [EventBus.UserDeactivated];
        case NotDone =>
        case StatusThrew(err) =>
          notices := notices + [Failure(err, "Failed to Deactivate User")];
      }
    }

    /** `handleReactivateUser`: only the target farmer changes, to the reactivated copy. */
    method HandleReactivateUser(userId: string, confirmed: bool, reply: StatusReply)
      modifies this
      ensures !confirmed || reply.NotDone? ==> State() == old(State())
      ensures confirmed && reply.Done? ==>
        State() == old(State()).(
          users := UpdateById(old(users), UserId, userId, Reactivated),
          notices := old(notices) + [Notice(Alerts.Success, "User " + Quoted(NameOr(old(users), userId, "Unknown User")) + " has been reactivated successfully.", None)],
          emitted := old(emitted) + [EventBus.UserReactivated])
      ensures confirmed && reply.StatusThrew? ==>
        State() == old(State()).(notices := old(notices) + [Failure(reply.error, "Failed to Reactivate User")])
    {
      if confirmed {
        var name := NameOr(users, userId, "Unknown User");
        match reply
        case Done =>
          users := UpdateById(users, UserId, userId, Reactivated);
          notices := notices + [Notice(Alerts.Success, "User " + Quoted(name) + " has been reactivated successfully.", None)];
          emitted := emitted + [EventBus.UserReactivated];
        case NotDone =>
        case StatusThrew(err) =>
          notices := notices + [Failure(err, "Failed to Reactivate User")];
      }
    }

    /** `handleOpenHelperModal` and `handleCloseHelperModal`. */
    method SetHelperModal(open: bool)
      modifies this
      ensures State() == old(State()).(helperForm := BlankHelperForm, editingHelper := None, isHelperModalOpen := open)
    {
      helperForm, editingHelper, isHelperModalOpen := BlankHelperForm, None, open;
    }

    /** `handleHelperEdit`: the form takes the helper's fields, with an empty password. */
    method HandleHelperEdit(h: Helper)
      modifies this
      ensures State() == old(State()).(editingHelper := Some(h), helperForm := HelperForm(h.name, h.username, "", h.phoneNumber), isHelperModalOpen := true)
    {
      editingHelper, helperForm, isHelperModalOpen := Some(h), HelperForm(h.name, h.username, "", h.phoneNumber), true;
    }

    /** `handleHelperSubmit`, with the outcome `AfterHelperSubmit` describes. */
    method HandleHelperSubmit(reply: HelperReply)
      modifies this
      ensures State() == AfterHelperSubmit(old(State()), reply)
    {
      var st := AfterHelperSubmit(State(), reply);
      Commit(st);
    }

    /** `handleHelperDelete`, once the confirmation is answered. */
    method HandleHelperDelete(id: string, confirmed: bool, reply: StatusReply)
      modifies this
      ensures !confirmed || reply.NotDone? ==> State() == old(State())
      ensures confirmed && reply.Done? ==>
        State() == old(State()).(
          helpers := RemoveById(old(helpers), HelperId, id),
          notices := old(notices) + [Notice(Alerts.Success, "Helper " + Quoted(HelperNameOr(old(helpers), id)) + " deleted successfully.", None)])
      ensures confirmed && reply.StatusThrew? ==>
        State() == old(State()).(notices := old(notices) + [Failure(reply.error, "Failed to Delete Helper")])
    {
      if confirmed {
        var name := HelperNameOr(helpers, id);
        match reply
        case Done =>
          helpers := RemoveById(helpers, HelperId, id);
          notices := notices + [Notice(Alerts.Success, "Helper " + Quoted(name) + " deleted successfully.", None)];
        case NotDone =>
        case StatusThrew(err) =>
          notices := notices + [Failure(err, "Failed to Delete Helper")];
      }
    }

    /**
     * `handleExtendHelperPassword` (`toggle` false) and
     * `handleToggleHelperStatus` (`toggle` true): the helper sent back
     * replaces the one with the id.
     */
    method HandleHelperUpdate(id: string, toggle: bool, reply: HelperReply)
      modifies this
      ensures match reply
        case HelperSent(h) =>
          State() == old(State()).(
            helpers := UpdateById(old(helpers), HelperId, id, (x: Helper) => h),
            notices := old(notices) + [Notice(Alerts.Success,
              if !toggle then "Helper password expiry extended by 48 hours!"
              else if h.isActive then "Helper activated successfully!" else "Helper deactivated successfully!", None)])
        case NoHelper => State() == old(State())
        case HelperThrew(err) =>
          State() == old(State()).(notices := old(notices) + [Failure(err, if toggle then "Failed to Toggle Helper Status" else "Failed to Extend Password")])
    {
      match reply
      case HelperSent(h) =>
        helpers := UpdateById(helpers, HelperId, id, (x: Helper) => h);
        notices := notices + [Notice(Alerts.Success,
          if !toggle then "Helper password expiry extended by 48 hours!"
          else if h.isActive then "Helper activated successfully!" else "Helper deactivated successfully!", None)];
      case NoHelper =>
      case HelperThrew(err) =>
        notices := notices + [Failure(err, if toggle then "Failed to Toggle Helper Status" else "Failed to Extend Password")];
    }
  }

  // ------------------------------------------------------------------
  // A farmer's report
  // ------------------------------------------------------------------

  /**
   * The report's filters; None is an unset bound.  Bounds are "YYYY-MM-DD"
   * days and are compared with dates in the order of their text.
   */
  datatype RangeFilters = RangeFilters(
    startDate: Option<string>,
    endDate: Option<string>,
    minAmount: Option<real>,
    maxAmount: Option<real>,
    minFat: Option<real>,
    maxFat: Option<real>)

  const NoFilters := RangeFilters(None, None, None, None, None, None)

  /** The day of a date or of a timestamp: its first ten characters, "YYYY-MM-DD". */
  function DayOf(date: string): (d: string)
    ensures |d| <= |date| && d == date[..|d|]
  {
    if |date| >= 10 then date[..10] else date
  }

  /**
   * From the start of the start day to the end of the end day: a date is
   * kept when it is not before the start bound and its day is not after
   * the end bound.
   */
  predicate WithinDates(f: RangeFilters, date: string)
  {
    (f.startDate.None? || StrLe(f.startDate.value, date)) && (f.endDate.None? || StrLe(DayOf(date), f.endDate.value))
  }

  /** Anything on the end day is kept by the end bound, whatever time of day it carries. */
  lemma EndDayKept(f: RangeFilters, date: string)
    requires f.startDate.None? && f.endDate == Some(DayOf(date))
    ensures WithinDates(f, date)
  {
    StrLeTotal(DayOf(date), DayOf(date));
  }

  predicate KeepsCollection(f: RangeFilters, c: Collection)
  {
    WithinDates(f, c.date) &&
    (f.minAmount.None? || c.amount >= f.minAmount.value) && (f.maxAmount.None? || c.amount <= f.maxAmount.value) &&
    (f.minFat.None? || c.fatPercentage >= f.minFat.value) && (f.maxFat.None? || c.fatPercentage <= f.maxFat.value)
  }

  /** The report's `filteredCollections`. */
  function RangeCollections(cs: seq<Collection>, f: RangeFilters): (r: seq<Collection>)
    ensures forall c :: c in r <==> c in cs && KeepsCollection(f, c)
    ensures IsSubseq(r, cs)
  {
    FilterIsSubseq(cs, (c: Collection) => KeepsCollection(f, c));
    Filter(cs, (c: Collection) => KeepsCollection(f, c))
  }

  /** The report's `filteredAdvances`: the date range only. */
  function RangeAdvances(advances: seq<Advance>, f: RangeFilters): (r: seq<Advance>)
    ensures forall a :: a in r <==> a in advances && WithinDates(f, a.date)
    ensures IsSubseq(r, advances)
  {
    FilterIsSubseq(advances, (a: Advance) => WithinDates(f, a.date));
    Filter(advances, (a: Advance) => WithinDates(f, a.date))
  }

  /** The report keeps each collection and each advance within the bounds as often as it occurs, and drops the rest. */
  lemma RangeKeepsCounts(cs: seq<Collection>, advances: seq<Advance>, f: RangeFilters)
    ensures forall c :: multiset(RangeCollections(cs, f))[c] == if KeepsCollection(f, c) then multiset(cs)[c] else 0
    ensures forall a :: multiset(RangeAdvances(advances, f))[a] == if WithinDates(f, a.date) then multiset(advances)[a] else 0
  {
    forall c ensures multiset(RangeCollections(cs, f))[c] == if KeepsCollection(f, c) then multiset(cs)[c] else 0 {
      FilterMultiset(cs, (c: Collection) => KeepsCollection(f, c), c);
    }
    forall a ensures multiset(RangeAdvances(advances, f))[a] == if WithinDates(f, a.date) then multiset(advances)[a] else 0 {
      FilterMultiset(advances, (a: Advance) => WithinDates(f, a.date), a);
    }
  }

  /** With no bound set, the report keeps every collection and every advance. */
  lemma NoFiltersKeepAll(cs: seq<Collection>, advances: seq<Advance>)
    ensures RangeCollections(cs, NoFilters) == cs
    ensures RangeAdvances(advances, NoFilters) == advances
  {
    FilterKeepsAll(cs, (c: Collection) => KeepsCollection(NoFilters, c));
    FilterKeepsAll(advances, (a: Advance) => WithinDates(NoFilters, a.date));
  }

  /** Setting a bound can only drop collections. */
  lemma TighterFiltersKeepFewer(cs: seq<Collection>, f: RangeFilters, g: RangeFilters)
    requires forall c :: KeepsCollection(g, c) ==> KeepsCollection(f, c)
    ensures IsSubseq(RangeCollections(cs, g), RangeCollections(cs, f))
  {
    FilterNarrows(cs, (c: Collection) => KeepsCollection(g, c), (c: Collection) => KeepsCollection(f, c));
  }

  /** A filter by a stronger predicate keeps a subsequence of the filter by a weaker one. */
  lemma {:induction false} FilterNarrows<T(!new)>(s: seq<T>, p: T -> bool, q: T -> bool)
    requires forall x :: p(x) ==> q(x)
    ensures IsSubseq(Filter(s, p), Filter(s, q))
  {
    if s != [] {
      FilterNarrows(s[1..], p, q);
      if p(s[0]) {
        assert Filter(s, p) == [s[0]] + Filter(s[1..], p);
        assert Filter(s, q) == [s[0]] + Filter(s[1..], q);
        assert ([s[0]] + Filter(s[1..], p))[1..] == Filter(s[1..], p);
        assert ([s[0]] + Filter(s[1..], q))[1..] == Filter(s[1..], q);
      } else if q(s[0]) {
        assert Filter(s, q) == [s[0]] + Filter(s[1..], q);
        IsSubseqSkip(Filter(s, p), Filter(s[1..], q), s[0]);
      }
    }
  }

  function LitersOf(c: Collection): real { c.liters }
  function AmountOf(c: Collection): real { c.amount }
  function FatOf(c: Collection): real { c.fatPercentage }
  function AdvanceOf(a: Advance): real { a.amount }

  /** The report's totals line. */
  datatype RangeTotals = RangeTotals(count: nat, liters: real, amount: real, avgFat: real, advances: real, net: real)

  function RangeTotalsOf(cs: seq<Collection>, advances: seq<Advance>, f: RangeFilters): (t: RangeTotals)
    ensures t.count == |RangeCollections(cs, f)|
    ensures t.liters == SumBy(RangeCollections(cs, f), LitersOf) && t.amount == SumBy(RangeCollections(cs, f), AmountOf)
    ensures t.advances == SumBy(RangeAdvances(advances, f), AdvanceOf)
    ensures t.net == t.amount - t.advances
    ensures t.count == 0 ==> t.liters == 0.0 && t.amount == 0.0 && t.avgFat == 0.0
    ensures t.count > 0 ==> t.avgFat * (t.count as real) == SumBy(RangeCollections(cs, f), FatOf)
  {
    var fc := RangeCollections(cs, f);
    var paid := SumBy(RangeAdvances(advances, f), AdvanceOf);
    var amount := SumBy(fc, AmountOf);
    RangeTotals(|fc|, SumBy(fc, LitersOf), amount, if |fc| > 0 then SumBy(fc, FatOf) / (|fc| as real) else 0.0, paid, amount - paid)
  }



  // ------------------------------------------------------------------
  // Statistics fallback
  // ------------------------------------------------------------------

  datatype UserStats = UserStats(
    totalLiters: real,
    totalAmount: real,
    totalAdvances: real,
    netAmount: real,
    avgFat: real,
    collectionsCount: nat,
    advancesCount: nat,
    collections: seq<Collection>,
    advances: seq<Advance>)

  const ZeroStats := UserStats(0.0, 0.0, 0.0, 0.0, 0.0, 0, 0, [], [])

  /** `getUserStats`: the statistics sent back, or None when the answer had none or the call threw. */
  function UserStatsOf(sent: Option<UserStats>): (s: UserStats)
    ensures sent.None? ==> s == ZeroStats
    ensures sent.Some? ==> s == sent.value
  {
    if sent.Some? then sent.value else ZeroStats
  }

  /** The zero statistics are consistent: no collections, no advances, all figures 0. */
  lemma ZeroStatsConsistent()
    ensures ZeroStats.collectionsCount == |ZeroStats.collections| && ZeroStats.advancesCount == |ZeroStats.advances|
    ensures ZeroStats.netAmount == ZeroStats.totalAmount - ZeroStats.totalAdvances
  {
  }

  /** The card on each farmer: the counts shown, 0 without an id (nothing is fetched then). */
  function CardFigures(userId: string, sent: Option<UserStats>): (r: (nat, real))
    ensures userId == "" || sent.None? ==> r == (0, 0.0)
    ensures userId != "" && sent.Some? ==> r == (sent.value.collectionsCount, sent.value.totalLiters)
  {
    if userId == "" then (0, 0.0) else var s := UserStatsOf(sent); (s.collectionsCount, s.totalLiters)
  }
}
