/**
 * The REST client: how a server reply is turned into a value or a thrown
 * `ApiError`, how document ids are renamed, how the token slot is kept by
 * `login` and `logout`, and how a query string is built.  The transport is
 * an oracle: each request is given the `Exchange` it ends in.
 */
module Api {
  import opened Common
  import opened JsonValue
  import opened Session
  import EventBus

  /** How a request ended: `fetch` itself threw, or the server answered with a status and a body (None when the body is not JSON). */
  datatype Exchange = Unreachable | Answered(status: int, body: Option<Json>)

  datatype ApiError = ApiError(message: string, status: int, response: Json)

  /** What a request throws: the browser's network TypeError, or an ApiError. */
  datatype Failure = FetchFailed | Raised(error: ApiError)

  /** How `handleResponse` classifies an answer. */
  datatype Verdict =
    | Accepted(data: Json)                  // returned, normalized
    | Revoked(notice: Json, error: ApiError) // access-denied: announce, force logout, throw
    | Refused(error: ApiError)              // thrown

  /** What answering a request did besides returning or throwing, in order. */
  datatype Effect =
    | Emitted(event: string, payload: Json, calls: seq<EventBus.Callback>)
    | ForcedLogout

  const AccessDeniedMessage := "Access denied. Admin or user role required."
  const RevokedMessage := "Your access has been revoked. Please contact an administrator for reactivation."
  const InvalidFormatMessage := "Invalid response format"
  const ValidationFailedMessage := "Validation failed"
  const FailedMessage := "An error occurred"

  // ------------------------------------------------------------------
  // normalizeMongoObject
  // ------------------------------------------------------------------

  /**
   * `normalizeMongoObject`: falsy values and primitives as they are,
   * arrays element by element, objects as a copy whose object-valued
   * members are normalized and whose truthy `_id` becomes `id`.  The
   * member values are normalized before the rename here, where the
   * original renames first; the object built is the same, since the new
   * `id` is normalized in both orders.
   */
  function Normalize(j: Json): (r: Json)
    ensures !IsObjectLike(j) ==> r == j
    ensures j.JArr? ==> r.JArr? && |r.items| == |j.items|
    ensures j.JObj? ==> r.JObj?
    decreases j, 1
  {
    if !Truthy(j) then j
    else match j
      case JArr(items) => JArr(seq(|items|, i requires 0 <= i < |items| => Normalize(items[i])))
      case JObj(fs) => JObj(NormalizeObject(fs))
      case _ => j
  }

  /** The members of a normalized object. */
  function NormalizeObject(fs: seq<Field>): seq<Field>
    decreases fs, 1
  {
    var copy := NormalizeMembers(fs);
    var at := KeyIndex(fs, "_id");
    if at < |fs| && Truthy(fs[at].value) then Remove(Put(copy, "id", copy[at].value), "_id")
    else copy
  }

  /** A member value as the key loop leaves it: only object-like values are rewritten. */
  function NormalizeMember(v: Json): Json
    decreases v, 2
  {
    if IsObjectLike(v) then Normalize(v) else v
  }

  function NormalizeMembers(fs: seq<Field>): (r: seq<Field>)
    ensures |r| == |fs|
    ensures forall i :: 0 <= i < |fs| ==> r[i] == Field(fs[i].key, NormalizeMember(fs[i].value))
    decreases fs, 0
  {
    seq(|fs|, i requires 0 <= i < |fs| => Field(fs[i].key, NormalizeMember(fs[i].value)))
  }

  /** The normal form: no object, at any depth, has a truthy `_id`. */
  predicate NoTruthyId(j: Json)
  {
    match j
    case JArr(items) => forall i :: 0 <= i < |items| ==> NoTruthyId(items[i])
    case JObj(fs) => !TruthyAt(Lookup(fs, "_id")) && forall i :: 0 <= i < |fs| ==> NoTruthyId(fs[i].value)
    case _ => true
  }

  /** Falsy values and primitives come back unchanged; arrays keep their length and order. */
  lemma NormalizeShapes(j: Json)
    ensures !Truthy(j) || !IsObjectLike(j) ==> Normalize(j) == j
    ensures j.JArr? ==>
      Normalize(j).JArr? && |Normalize(j).items| == |j.items| &&
      forall i :: 0 <= i < |j.items| ==> Normalize(j).items[i] == Normalize(j.items[i])
    ensures j.JObj? ==> Normalize(j).JObj?
  {
  }

  /** Reading the copy finds the normalized value of the same member. */
  lemma LookupMembers(fs: seq<Field>, k: string)
    ensures Lookup(NormalizeMembers(fs), k) == if Lookup(fs, k).Some? then Some(NormalizeMember(Lookup(fs, k).value)) else None
  {
    KeyIndexSameKeys(fs, NormalizeMembers(fs), k);
  }

  /**
   * An object with a truthy `_id` comes back with `id` holding its
   * (normalized) value and no `_id`; every other key reads as before,
   * normalized.
   */
  lemma NormalizeRenamesId(fs: seq<Field>)
    requires TruthyAt(Lookup(fs, "_id"))
    ensures Get(Normalize(JObj(fs)), "_id") == None
    ensures Get(Normalize(JObj(fs)), "id") == Some(NormalizeMember(Lookup(fs, "_id").value))
    ensures forall k :: k != "id" && k != "_id" ==>
      Get(Normalize(JObj(fs)), k) == if Lookup(fs, k).Some? then Some(NormalizeMember(Lookup(fs, k).value)) else None
  {
    var copy := NormalizeMembers(fs);
    var at := KeyIndex(fs, "_id");
    var p := Put(copy, "id", copy[at].value);
    RenamedObject(fs);
    assert Lookup(Remove(p, "_id"), "id") == Lookup(p, "id");
    forall k | k != "id" && k != "_id"
      ensures Lookup(Remove(p, "_id"), k) == if Lookup(fs, k).Some? then Some(NormalizeMember(Lookup(fs, k).value)) else None
    {
      LookupMembers(fs, k);
      assert Lookup(Remove(p, "_id"), k) == Lookup(p, k) == Lookup(copy, k);
    }
  }

  lemma RenamedObject(fs: seq<Field>)
    requires TruthyAt(Lookup(fs, "_id"))
    ensures KeyIndex(fs, "_id") < |fs|
    ensures var copy := NormalizeMembers(fs);
      Normalize(JObj(fs)) == JObj(Remove(Put(copy, "id", copy[KeyIndex(fs, "_id")].value), "_id"))
      && copy[KeyIndex(fs, "_id")].value == NormalizeMember(Lookup(fs, "_id").value)
  {
    NormalizeObjectCase(fs);
  }

  lemma NormalizeObjectCase(fs: seq<Field>)
    ensures Normalize(JObj(fs)) == JObj(NormalizeObject(fs))
  {
    assert Truthy(JObj(fs));
  }

  /** An object whose `_id` is absent or falsy keeps its keys, in order, and gains no `id`. */
  lemma NormalizeKeepsFalsyId(fs: seq<Field>)
    requires !TruthyAt(Lookup(fs, "_id"))
    ensures Normalize(JObj(fs)) == JObj(NormalizeMembers(fs))
    ensures Keys(Normalize(JObj(fs)).fields) == Keys(fs)
    ensures Get(Normalize(JObj(fs)), "id") == if Lookup(fs, "id").Some? then Some(NormalizeMember(Lookup(fs, "id").value)) else None
  {
    NormalizeObjectCase(fs);
    LookupMembers(fs, "id");
    LookupMembers(fs, "_id");
    KeysOfMembers(fs);
  }

  /** Normalizing the members keeps their keys. */
  lemma KeysOfMembers(fs: seq<Field>)
    ensures Keys(NormalizeMembers(fs)) == Keys(fs)
  {
    var copy := NormalizeMembers(fs);
    assert forall i :: 0 <= i < |fs| ==> copy[i].key == fs[i].key;
  }

  /** What normalization returns is in normal form. */
  lemma {:induction false} NormalizeReachesNormalForm(j: Json)
    ensures NoTruthyId(Normalize(j))
    decreases j, 1
  {
    if Truthy(j) {
      match j
      case JArr(items) =>
        forall i | 0 <= i < |items| ensures NoTruthyId(Normalize(j).items[i]) {
          NormalizeReachesNormalForm(items[i]);
        }
      case JObj(fs) =>
        var copy := NormalizeMembers(fs);
        forall i | 0 <= i < |copy| ensures NoTruthyId(copy[i].value) {
          MemberReachesNormalForm(fs[i].value);
        }
        NormalizeObjectCase(fs);
        ObjectReachesNormalForm(fs);
      case _ =>
    }
  }

  lemma ObjectReachesNormalForm(fs: seq<Field>)
    requires forall i :: 0 <= i < |fs| ==> NoTruthyId(NormalizeMembers(fs)[i].value)
    ensures NoTruthyId(JObj(NormalizeObject(fs)))
  {
    var at := KeyIndex(fs, "_id");
    if at < |fs| && Truthy(fs[at].value) {
      RenamedReachesNormalForm(NormalizeMembers(fs), at);
    } else {
      LookupMembers(fs, "_id");
    }
  }

  lemma RenamedReachesNormalForm(copy: seq<Field>, at: nat)
    requires at < |copy| && forall i :: 0 <= i < |copy| ==> NoTruthyId(copy[i].value)
    ensures NoTruthyId(JObj(Remove(Put(copy, "id", copy[at].value), "_id")))
  {
    var extra := Field("id", copy[at].value);
    var p := Put(copy, "id", copy[at].value);
    ValuesStayNormal(p, copy, extra);
    ValuesStayNormal(Remove(p, "_id"), p, extra);
  }

  /** Members drawn from normal-form members, or the one extra member, are in normal form. */
  lemma ValuesStayNormal(r: seq<Field>, src: seq<Field>, extra: Field)
    requires forall i :: 0 <= i < |src| ==> NoTruthyId(src[i].value)
    requires NoTruthyId(extra.value)
    requires forall i :: 0 <= i < |r| ==> r[i] in src || r[i] == extra
    ensures forall i :: 0 <= i < |r| ==> NoTruthyId(r[i].value)
  {
    forall i | 0 <= i < |r| ensures NoTruthyId(r[i].value) {
      if r[i] != extra {
        var j :| 0 <= j < |src| && src[j] == r[i];
      }
    }
  }

  lemma {:induction false} MemberReachesNormalForm(v: Json)
    ensures NoTruthyId(NormalizeMember(v))
    decreases v, 2
  {
    if IsObjectLike(v) {
      NormalizeReachesNormalForm(v);
    }
  }

  /** Values already in normal form are left exactly as they are. */
  lemma {:induction false} NormalFormIsFixed(j: Json)
    requires NoTruthyId(j)
    ensures Normalize(j) == j
  {
    if Truthy(j) {
      match j
      case JArr(items) =>
        forall i | 0 <= i < |items| ensures Normalize(items[i]) == items[i] {
          NormalFormIsFixed(items[i]);
        }
        assert Normalize(j).items == items;
      case JObj(fs) =>
        forall i | 0 <= i < |fs| ensures NormalizeMember(fs[i].value) == fs[i].value {
          NormalFormIsFixed(fs[i].value);
        }
        assert NormalizeMembers(fs) == fs;
      case _ =>
    }
  }

  /** `normalizeMongoObject` is idempotent. */
  lemma NormalizeIdempotent(j: Json)
    ensures Normalize(Normalize(j)) == Normalize(j)
  {
    NormalizeReachesNormalForm(j);
    NormalFormIsFixed(Normalize(j));
  }

  // ------------------------------------------------------------------
  // handleResponse
  // ------------------------------------------------------------------

  predicate IsOk(status: int) { 200 <= status <= 299 }

  /** The access-denied sentinel: a failed 403 whose message is the role-revocation text. */
  predicate IsRevocation(status: int, body: Json)
  {
    !IsOk(status) && status == 403 && Get(body, "message") == Some(JStr(AccessDeniedMessage))
  }

  /**
   * The classification branches of `handleResponse`, tried in order; `now`
   * is the ISO timestamp of the notice. A body that is not JSON is refused
   * whatever the status; a JSON body is returned, normalized, exactly when
   * the status is 2xx; only a 403 revokes.
   */
  function Classify(status: int, body: Option<Json>, now: string): (r: Verdict)
    ensures body.None? ==> r.Refused? && r.error.message == InvalidFormatMessage && r.error.status == status
    ensures r.Accepted? <==> body.Some? && IsOk(status)
    ensures r.Accepted? ==> r.data == Normalize(body.value)
    ensures r.Revoked? ==> status == 403 && r.error.status == 403
    ensures !r.Accepted? ==> r.error.status == status
  {
    if body.None? then
      Refused(ApiError(InvalidFormatMessage, status, JObj([Field("originalError", JStr("SyntaxError"))])))
    else
      var data := body.value;
      if IsRevocation(status, data) then
        Revoked(
          JObj([Field("message", JStr(AccessDeniedMessage)), Field("status", JNum(status as real)), Field("timestamp", JStr(now))]),
          ApiError(RevokedMessage, status, SpreadWith(data, "accessDenied", JBool(true))))
      else if !IsOk(status) && status == 400 && TruthyAt(Get(data, "errors")) then
        Refused(ApiError(TextOr(Get(data, "message"), ValidationFailedMessage), status,
                         SpreadWith(data, "validationErrors", Get(data, "errors").value)))
      else if !IsOk(status) then
        Refused(ApiError(TextOr(Get(data, "message"), FailedMessage), status, data))
      else
        Accepted(Normalize(data))
  }

  /**
   * Only the sentinel revokes; it throws the revocation text with the body
   * marked `accessDenied: true` and otherwise kept member for member.
   */
  lemma ClassifyRevocation(status: int, body: Option<Json>, now: string)
    ensures Classify(status, body, now).Revoked? <==> body.Some? && IsRevocation(status, body.value)
    ensures Classify(status, body, now).Revoked? ==>
      var e := Classify(status, body, now).error;
      e.message == RevokedMessage && e.status == 403 && Get(e.response, "accessDenied") == Some(JBool(true))
      && (body.value.JObj? ==> forall k :: k != "accessDenied" ==> Get(e.response, k) == Get(body.value, k))
  {
  }

  /**
   * A failed 400 with truthy `errors` throws carrying them as
   * `validationErrors`; any other failure throws the server's message or
   * the fixed default; every success returns the normalized body.
   */
  lemma ClassifyOthers(status: int, data: Json, now: string)
    requires !IsRevocation(status, data)
    ensures !IsOk(status) && status == 400 && TruthyAt(Get(data, "errors")) ==>
      Classify(status, Some(data), now).Refused? &&
      Get(Classify(status, Some(data), now).error.response, "validationErrors") == Get(data, "errors")
    ensures !IsOk(status) && !(status == 400 && TruthyAt(Get(data, "errors"))) ==>
      Classify(status, Some(data), now) == Refused(ApiError(TextOr(Get(data, "message"), FailedMessage), status, data))
    ensures IsOk(status) <==> Classify(status, Some(data), now) == Accepted(Normalize(data))
  {
  }

  /** What a request returns or throws. */
  function Reply(ex: Exchange, now: string): Result<Json, Failure>
  {
    match ex
    case Unreachable => Err(FetchFailed)
    case Answered(status, body) =>
      match Classify(status, body, now)
      case Accepted(d) => Ok(d)
      case Revoked(_, e) => Err(Raised(e))
      case Refused(e) => Err(Raised(e))
  }

  /** Whether the exchange is the access-denied sentinel. */
  predicate Revokes(ex: Exchange)
  {
    ex.Answered? && ex.body.Some? && IsRevocation(ex.status, ex.body.value)
  }

  /** The page reloads the exchange schedules. */
  function ReloadsOf(ex: Exchange): seq<nat>
  {
    if Revokes(ex) then [ReloadDelay] else []
  }

  /** The side effects of the exchange, in order, given the listeners present. */
  function EffectsOf(ex: Exchange, now: string, listeners: seq<EventBus.Callback>): seq<Effect>
  {
    if Revokes(ex) then [Emitted(EventBus.UserAccessDenied, Classify(ex.status, ex.body, now).notice, listeners), ForcedLogout]
    else []
  }

  /**
   * `handleResponse`: classify the answer; for the access-denied sentinel,
   * first announce it on the bus, then force the logout, then throw.
   */
  method HandleResponse(bus: EventBus.Bus, store: Store, status: int, body: Option<Json>, now: string)
      returns (r: Result<Json, ApiError>, trace: seq<Effect>)
    modifies store
    ensures Classify(status, body, now).Accepted? ==> r == Ok(Classify(status, body, now).data)
    ensures !Classify(status, body, now).Accepted? ==> r == Err(Classify(status, body, now).error)
    ensures trace == EffectsOf(Answered(status, body), now, bus.ListenersOf(EventBus.UserAccessDenied))
    ensures Classify(status, body, now).Revoked? ==> store.profile == None && store.token == None
    ensures !Classify(status, body, now).Revoked? ==> store.profile == old(store.profile) && store.token == old(store.token)
    ensures store.reloads == old(store.reloads) + ReloadsOf(Answered(status, body))
  {
    trace := [];
    var v := Classify(status, body, now);
    ClassifyRevocation(status, body, now);
    assert Revokes(Answered(status, body)) <==> v.Revoked?;
    match v
    case Accepted(d) =>
      r := Ok(d);
    case Refused(e) =>
      r := Err(e);
    case Revoked(notice, e) =>
      trace := Revoke(bus, store, notice);
      r := Err(e);
  }

  /** The access-denied branch: announce the notice on the bus, then force the logout. */
  method Revoke(bus: EventBus.Bus, store: Store, notice: Json) returns (trace: seq<Effect>)
    modifies store
    ensures trace == [Emitted(EventBus.UserAccessDenied, notice, bus.ListenersOf(EventBus.UserAccessDenied)), ForcedLogout]
    ensures store.profile == None && store.token == None
    ensures store.reloads == old(store.reloads) + [ReloadDelay]
  {
    var calls := bus.Emit(EventBus.UserAccessDenied);
    trace := [Emitted(EventBus.UserAccessDenied, notice, calls)];
    store.ForceLogout();
    trace := trace + [ForcedLogout];
  }

  /** One request: a network failure throws before any answer is read. */
  method Request(bus: EventBus.Bus, store: Store, ex: Exchange, now: string)
      returns (r: Result<Json, Failure>, trace: seq<Effect>)
    modifies store
    ensures r == Reply(ex, now)
    ensures trace == EffectsOf(ex, now, bus.ListenersOf(EventBus.UserAccessDenied))
    ensures Revokes(ex) ==> store.profile == None && store.token == None
    ensures !Revokes(ex) ==> store.profile == old(store.profile) && store.token == old(store.token)
    ensures store.reloads == old(store.reloads) + ReloadsOf(ex)
  {
    if ex.Unreachable? {
      r, trace := Err(FetchFailed), [];
      return;
    }
    ClassifyRevocation(ex.status, ex.body, now);
    var h;
    h, trace := HandleResponse(bus, store, ex.status, ex.body, now);
    r := if h.Ok? then Ok(h.value) else Err(Raised(h.error));
  }

  /** `response.data?.token`. */
  function TokenIn(reply: Json): Option<Json>
  {
    var data := Get(reply, "data");
    if data.Some? then Get(data.value, "token") else None
  }

  /** The REST `login`: post the credentials and keep a truthy token from the reply. */
  method Login(bus: EventBus.Bus, store: Store, ex: Exchange, now: string)
      returns (r: Result<Json, Failure>, trace: seq<Effect>)
    modifies store
    ensures r == Reply(ex, now)
    ensures trace == EffectsOf(ex, now, bus.ListenersOf(EventBus.UserAccessDenied))
    ensures store.token == (if r.Ok? && TruthyAt(TokenIn(r.value)) then TokenIn(r.value)
                            else if Revokes(ex) then None else old(store.token))
    ensures store.profile == if Revokes(ex) then None else old(store.profile)
    ensures store.reloads == old(store.reloads) + ReloadsOf(ex)
  {
    r, trace := Request(bus, store, ex, now);
    if r.Ok? {
      var t := TokenIn(r.value);
      if TruthyAt(t) {
        store.SaveToken(t.value);
      }
    }
  }

  /** The REST `logout`: the token goes before the request is sent. */
  method Logout(bus: EventBus.Bus, store: Store, ex: Exchange, now: string)
      returns (r: Result<Json, Failure>, trace: seq<Effect>)
    modifies store
    ensures r == Reply(ex, now)
    ensures trace == EffectsOf(ex, now, bus.ListenersOf(EventBus.UserAccessDenied))
    ensures store.token == None
    ensures store.profile == if Revokes(ex) then None else old(store.profile)
    ensures store.reloads == old(store.reloads) + ReloadsOf(ex)
  {
    store.RemoveToken();
    r, trace := Request(bus, store, ex, now);
  }

  // ------------------------------------------------------------------
  // Query strings
  // ------------------------------------------------------------------

  datatype ParamValue = Text(s: string) | Count(n: int)

  /** One entry of the parameter object; None is a key holding `undefined`. */
  datatype QueryParam = QueryParam(key: string, value: Option<ParamValue>)

  /** `String(value)`. */
  function Show(v: ParamValue): string
  {
    match v
    case Text(s) => s
    case Count(n) => IntText(n)
  }

  /** A parameter whose value is not `undefined`. */
  predicate IsDefined(p: QueryParam) { p.value.Some? }

  /** A parameter as the reducer writes it: its key and its value as text. */
  function PairOf(p: QueryParam): (string, string)
  {
    (p.key, if p.value.Some? then Show(p.value.value) else "")
  }

  /** The entries the reducer keeps, as text, in their original order. */
  function DefinedPairs(ps: seq<QueryParam>): (r: seq<(string, string)>)
    ensures |r| <= |ps|
    ensures forall k, v :: (k, v) in r <==>
      exists i :: 0 <= i < |ps| && ps[i].key == k && ps[i].value.Some? && Show(ps[i].value.value) == v
  {
    if ps == [] then []
    else
      var rest := DefinedPairs(ps[1..]);
      assert forall i :: 1 <= i < |ps| ==> ps[i] == ps[1..][i - 1];
      if ps[0].value.Some? then [(ps[0].key, Show(ps[0].value.value))] + rest else rest
  }

  /** The kept entries are the defined parameters, in their order, each with its value as text. */
  lemma {:induction false} DefinedPairsInOrder(ps: seq<QueryParam>)
    ensures |DefinedPairs(ps)| == |Filter(ps, IsDefined)|
    ensures forall j :: 0 <= j < |DefinedPairs(ps)| ==> DefinedPairs(ps)[j] == PairOf(Filter(ps, IsDefined)[j])
  {
    if ps != [] {
      DefinedPairsInOrder(ps[1..]);
      var rest, f := DefinedPairs(ps[1..]), Filter(ps[1..], IsDefined);
      if IsDefined(ps[0]) {
        assert DefinedPairs(ps) == [PairOf(ps[0])] + rest;
        assert Filter(ps, IsDefined) == [ps[0]] + f;
      } else {
        assert DefinedPairs(ps) == rest;
        assert Filter(ps, IsDefined) == f;
      }
    }
  }

  /** `key=value` pairs joined by `&`. */
  function Encode(pairs: seq<(string, string)>): string
  {
    if pairs == [] then ""
    else
      var first := pairs[0].0 + "=" + pairs[0].1;
      if |pairs| == 1 then first else first + "&" + Encode(pairs[1..])
  }

  /** Each pair written as `key=value`. */
  function Entries(pairs: seq<(string, string)>): (r: seq<string>)
    ensures |r| == |pairs| && forall i :: 0 <= i < |pairs| ==> r[i] == pairs[i].0 + "=" + pairs[i].1
  {
    seq(|pairs|, i requires 0 <= i < |pairs| => pairs[i].0 + "=" + pairs[i].1)
  }

  /** Pairs free of `&` are recovered, as `key=value` pieces, by splitting their encoding at `&`. */
  lemma {:induction false} EncodeSplits(pairs: seq<(string, string)>)
    requires pairs != []
    requires forall i :: 0 <= i < |pairs| ==> '&' !in pairs[i].0 && '&' !in pairs[i].1
    ensures Split(Encode(pairs), '&') == Entries(pairs)
  {
    var first := pairs[0].0 + "=" + pairs[0].1;
    assert '&' !in first;
    if |pairs| == 1 {
      SplitAfter(first, "", '&');
      assert first + "" == first;
    } else {
      var t := Encode(pairs[1..]);
      EncodeSplits(pairs[1..]);
      assert first + "&" + t == first + ("&" + t);
      SplitAfter(first, "&" + t, '&');
      assert ("&" + t)[0] == '&' && ("&" + t)[1..] == t;
      assert Split("&" + t, '&') == [""] + Split(t, '&');
      assert first + "" == first;
      assert Entries(pairs) == [first] + Entries(pairs[1..]);
    }
  }

  /**
   * The query string appended to the user list's URL: none without
   * parameters; otherwise `?` followed by the defined parameters, so that
   * with none defined it is `?` alone.
   */
  function QueryString(params: Option<seq<QueryParam>>): (q: string)
    ensures params.None? <==> q == ""
    ensures params.Some? ==> |q| >= 1 && q[0] == '?'
    ensures params.Some? && (forall i :: 0 <= i < |params.value| ==> !IsDefined(params.value[i])) ==> q == "?"
  {
    if params.None? then "" else "?" + Encode(DefinedPairs(params.value))
  }

  /**
   * Read back, a query string whose keys and values hold no `&` lists, after
   * the `?`, one `key=value` piece per defined parameter, in order.
   */
  lemma QueryStringReadsBack(ps: seq<QueryParam>)
    requires exists i :: 0 <= i < |ps| && IsDefined(ps[i])
    requires forall i :: 0 <= i < |ps| ==> '&' !in ps[i].key && '&' !in PairOf(ps[i]).1
    ensures var pieces := Split(QueryString(Some(ps))[1..], '&');
      |pieces| == |Filter(ps, IsDefined)| &&
      forall j :: 0 <= j < |pieces| ==>
        pieces[j] == Filter(ps, IsDefined)[j].key + "=" + PairOf(Filter(ps, IsDefined)[j]).1
  {
    var pairs, f := DefinedPairs(ps), Filter(ps, IsDefined);
    DefinedPairsInOrder(ps);
    DefinedPairsFreeOf(ps);
    var i :| 0 <= i < |ps| && IsDefined(ps[i]);
    assert ps[i] in ps;
    assert pairs != [];
    EncodeSplits(pairs);
    var q := QueryString(Some(ps));
    assert q == "?" + Encode(pairs);
    assert q[1..] == Encode(pairs);
    forall j | 0 <= j < |pairs| ensures Entries(pairs)[j] == f[j].key + "=" + PairOf(f[j]).1 {
      assert pairs[j] == PairOf(f[j]);
    }
  }

  /** Parameters free of `&` give pairs free of `&`. */
  lemma DefinedPairsFreeOf(ps: seq<QueryParam>)
    requires forall i :: 0 <= i < |ps| ==> '&' !in ps[i].key && '&' !in PairOf(ps[i]).1
    ensures forall k :: 0 <= k < |DefinedPairs(ps)| ==> '&' !in DefinedPairs(ps)[k].0 && '&' !in DefinedPairs(ps)[k].1
  {
    var pairs, f := DefinedPairs(ps), Filter(ps, IsDefined);
    DefinedPairsInOrder(ps);
    forall k | 0 <= k < |pairs| ensures '&' !in pairs[k].0 && '&' !in pairs[k].1 {
      assert f[k] in f;
      var m :| 0 <= m < |ps| && ps[m] == f[k];
    }
  }

  /** Parameters left undefined contribute nothing: the string is that of the defined ones alone. */
  lemma {:induction false} UndefinedParamsDropped(ps: seq<QueryParam>, key: string)
    ensures DefinedPairs(ps + [QueryParam(key, None)]) == DefinedPairs(ps)
    ensures QueryString(Some(ps + [QueryParam(key, None)])) == QueryString(Some(ps))
  {
    if ps != [] {
      assert (ps + [QueryParam(key, None)])[1..] == ps[1..] + [QueryParam(key, None)];
      UndefinedParamsDropped(ps[1..], key);
    } else {
      assert ([] + [QueryParam(key, None)])[1..] == [];
    }
  }
}
