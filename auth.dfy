/**
 * The browser-side session: two storage slots, one holding the signed-in
 * profile and one the bearer token, plus the page reloads that a forced
 * logout schedules.  Every role check reads the stored profile only.
 */
module Session {
  import opened Common
  import opened Types
  import opened JsonValue

  /** The storage key of the profile slot. */
  const AuthKey := "msr-milk-center-auth"
  /** The storage key of the token slot. */
  const TokenKey := "auth-token"
  /** Milliseconds a forced logout waits before reloading the page. */
  const ReloadDelay := 100

  /** `user?.role === role`: false when nobody is signed in. */
  predicate HasRole(u: Option<AuthUser>, role: string)
  {
    u.Some? && u.value.role == role
  }

  class Store {
    /** The profile slot; the browser keeps it as JSON text, the model keeps the record it encodes. */
    var profile: Option<AuthUser>
    /** The token slot: the value the server handed out. */
    var token: Option<Json>
    /** Delays of the page reloads scheduled so far, in order. */
    var reloads: seq<nat>

    constructor()
      ensures profile == None && token == None && reloads == []
    {
      profile := None;
      token := None;
      reloads := [];
    }

    /** `getCurrentUser`: the stored profile, if any. */
    function GetCurrentUser(): Option<AuthUser>
      reads this
    {
      profile
    }

    /** `isAuthenticated`: both slots are filled. */
    predicate IsAuthenticated()
      reads this
    {
      profile.Some? && token.Some?
    }

    predicate IsAdmin()
      reads this
    {
      HasRole(GetCurrentUser(), "admin")
    }

    predicate IsUser()
      reads this
    {
      HasRole(GetCurrentUser(), "user")
    }

    predicate IsHelper()
      reads this
    {
      HasRole(GetCurrentUser(), "helper")
    }

    predicate CanAccessAdvancedFeatures()
      reads this
    {
      HasRole(GetCurrentUser(), "admin") || HasRole(GetCurrentUser(), "user")
    }

    predicate CanModifyData()
      reads this
    {
      HasRole(GetCurrentUser(), "admin") || HasRole(GetCurrentUser(), "user")
    }

    method SaveProfile(u: AuthUser)
      modifies this
      ensures profile == Some(u) && token == old(token) && reloads == old(reloads)
    {
      profile := Some(u);
    }

    method SaveToken(t: Json)
      modifies this
      ensures token == Some(t) && profile == old(profile) && reloads == old(reloads)
    {
      token := Some(t);
    }

    method RemoveToken()
      modifies this
      ensures token == None && profile == old(profile) && reloads == old(reloads)
    {
      token := None;
    }

    /** Remove both slots. */
    method ClearSession()
      modifies this
      ensures profile == None && token == None && reloads == old(reloads)
      ensures !IsAuthenticated()
    {
      profile := None;
      token := None;
    }

    /** `forceLogout`: both slots go at once; the reload only comes later. */
    method ForceLogout()
      modifies this
      ensures profile == None && token == None && !IsAuthenticated()
      ensures reloads == old(reloads) + [ReloadDelay]
    {
      ClearSession();
      reloads := reloads + [ReloadDelay];
    }
  }

  /**
   * The capability checks depend on the stored role alone: nobody signed
   * in has none of them, the two feature gates agree and hold exactly for
   * "admin" and "user", and a helper has neither.
   */
  lemma RoleGates(s: Store)
    ensures s.GetCurrentUser().None? ==>
      !s.IsAdmin() && !s.IsUser() && !s.IsHelper() && !s.CanAccessAdvancedFeatures() && !s.CanModifyData()
    ensures s.CanAccessAdvancedFeatures() == s.CanModifyData()
    ensures s.CanModifyData() <==> s.IsAdmin() || s.IsUser()
    ensures s.IsHelper() ==> !s.CanModifyData() && !s.IsAdmin()
    ensures s.IsAdmin() <==> s.GetCurrentUser().Some? && s.GetCurrentUser().value.role == "admin"
  {
  }
}

/**
 * The sign-in service built on the session store and the REST client:
 * `login`, `logout` and `verifyAuth`.
 */
module Auth {
  import opened Common
  import opened Types
  import opened JsonValue
  import opened Session
  import opened Api
  import EventBus

  /** Why `login` threw. */
  datatype LoginFailure =
    | NotAccepted(message: string, statusCode: int, response: Json)  // the server answered without a user
    | RequestFailed(failure: Failure)                                  // the request itself threw

  /** The profile `login` keeps from a reply: `data.user`'s username and role. */
  function ProfileIn(reply: Json): Option<AuthUser>
  {
    var data := Get(reply, "data");
    var user := if data.Some? then Get(data.value, "user") else None;
    if TruthyAt(Get(reply, "success")) && TruthyAt(user) then
      Some(AuthUser(TextOr(Get(user.value, "username"), ""), TextOr(Get(user.value, "role"), "")))
    else None
  }

  /**
   * What `login` returns or throws for a given server reply: a successful
   * sign-in keeps exactly the reply's username and role, a refused one is
   * status 401 and a thrown request is rethrown.
   */
  function LoginOutcome(r: Result<Json, Failure>): (o: Result<AuthUser, LoginFailure>)
    ensures o.Ok? <==> r.Ok? && ProfileIn(r.value).Some?
    ensures o.Ok? ==> o.value == ProfileIn(r.value).value
    ensures r.Ok? && o.Err? ==> o.error.NotAccepted? && o.error.statusCode == 401 && o.error.response == r.value
    ensures r.Err? ==> o == Err(RequestFailed(r.error))
  {
    match r
    case Err(f) => Err(RequestFailed(f))
    case Ok(reply) =>
      match ProfileIn(reply)
      case Some(u) => Ok(u)
      case None => Err(NotAccepted(TextOr(Get(reply, "message"), "Authentication failed"), 401, reply))
  }

  /**
   * `login`: post the credentials; keep a token the reply carries; then
   * keep the profile only when the reply reports success with a user.
   */
  method Login(bus: EventBus.Bus, store: Store, ex: Exchange, now: string)
      returns (r: Result<AuthUser, LoginFailure>, trace: seq<Effect>)
    modifies store
    ensures r == LoginOutcome(Reply(ex, now))
    ensures trace == EffectsOf(ex, now, bus.ListenersOf(EventBus.UserAccessDenied))
    ensures store.profile == if r.Ok? then Some(r.value) else if Revokes(ex) then None else old(store.profile)
    ensures store.token == (if Reply(ex, now).Ok? && TruthyAt(TokenIn(Reply(ex, now).value)) then TokenIn(Reply(ex, now).value)
                            else if Revokes(ex) then None else old(store.token))
    ensures store.reloads == old(store.reloads) + ReloadsOf(ex)
  {
    var reply;
    reply, trace := Api.Login(bus, store, ex, now);
    r := LoginOutcome(reply);
    if r.Ok? {
      store.SaveProfile(r.value);
    }
  }

  /** `logout`: whatever the server does, both slots end up empty. */
  method Logout(bus: EventBus.Bus, store: Store, ex: Exchange, now: string) returns (trace: seq<Effect>)
    modifies store
    ensures store.profile == None && store.token == None && !store.IsAuthenticated()
    ensures store.reloads == old(store.reloads) + ReloadsOf(ex)
    ensures trace == EffectsOf(ex, now, bus.ListenersOf(EventBus.UserAccessDenied))
  {
    var reply;
    reply, trace := Api.Logout(bus, store, ex, now);
    store.ClearSession();
  }

  /**
   * `verifyAuth`: ask the server who is signed in; a thrown request
   * clears both slots and answers false, otherwise the reply's `success`.
   */
  method VerifyAuth(bus: EventBus.Bus, store: Store, ex: Exchange, now: string) returns (ok: bool, trace: seq<Effect>)
    modifies store
    ensures Reply(ex, now).Err? ==> !ok && store.profile == None && store.token == None && !store.IsAuthenticated()
    ensures Reply(ex, now).Ok? ==> ok == TruthyAt(Get(Reply(ex, now).value, "success"))
    ensures Reply(ex, now).Ok? ==> store.profile == old(store.profile) && store.token == old(store.token)
    ensures store.reloads == old(store.reloads) + ReloadsOf(ex)
    ensures trace == EffectsOf(ex, now, bus.ListenersOf(EventBus.UserAccessDenied))
  {
    var reply;
    reply, trace := Request(bus, store, ex, now);
    if reply.Err? {
      store.ClearSession();
      ok := false;
    } else {
      ok := TruthyAt(Get(reply.value, "success"));
    }
  }
}
