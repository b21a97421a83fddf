/**
 * Error classification: what the client makes of a thrown value — its
 * message, its status code, its category and the per-field validation
 * errors it carries — and the titles and messages of the sign-in screen.
 */
module ErrorHandler {
  import opened Common
  import opened JsonValue
  import opened Api

  datatype ErrorKind = Validation | Network | AuthError | ServerError | ClientError | Unknown

  /** One per-field validation error; `kind` is the server's type text or one guessed from the message. */
  datatype FieldError = FieldError(field: string, message: string, kind: string)

  datatype ParsedError = ParsedError(
    message: string,
    validationErrors: Option<seq<FieldError>>,
    statusCode: int,
    kind: ErrorKind,
    context: Option<string>)

  /**
   * A thrown value: an `ApiError` from the REST client, or any other error
   * object with its `name`, `message`, `status` (0 when absent) and, for
   * errors raised by other HTTP libraries, a `response` object.
   */
  datatype Thrown =
    | FromApi(e: ApiError)
    | Plain(name: string, message: string, status: int, response: Option<Json>)

  /** The browser's TypeError for a request that never reached the server. */
  function OfFailure(f: Failure): Thrown
  {
    match f
    case FetchFailed => Plain("TypeError", "Failed to fetch", 0, None)
    case Raised(e) => FromApi(e)
  }

  const DefaultFallback := "An unexpected error occurred"
  const NetworkMessage := "Network error. Please check your connection and try again."
  const TimeoutMessage := "Request timed out. Please try again."

  /** `getErrorTypeFromStatus`. */
  function StatusKind(status: int): (k: ErrorKind)
  {
    if 400 <= status < 500 then
      if status == 401 || status == 403 then AuthError
      else if status == 422 || status == 400 then Validation
      else ClientError
    else if status >= 500 then ServerError
    else if status == 0 then Network
    else Unknown
  }

  /** Every status has one category, and the 4xx band splits exactly into auth, validation and client. */
  lemma StatusKindBands(status: int)
    ensures StatusKind(status) == AuthError <==> status == 401 || status == 403
    ensures StatusKind(status) == Validation <==> status == 400 || status == 422
    ensures StatusKind(status) == ClientError <==> 400 <= status < 500 && status !in {400, 401, 403, 422}
    ensures StatusKind(status) == ServerError <==> status >= 500
    ensures StatusKind(status) == Network <==> status == 0
    ensures StatusKind(status) == Unknown <==> status < 400 && status != 0
  {
  }

  /** `x || fallback` for a status code read from a response object. */
  function StatusOr(v: Option<Json>, fallback: int): int
  {
    if v.Some? && v.value.JNum? && v.value.n != 0.0 then v.value.n.Floor else fallback
  }

  /** `v?.includes(t)` on a string-valued property. */
  predicate Mentions(v: Option<Json>, t: string)
  {
    v.Some? && v.value.JStr? && Contains(v.value.s, t)
  }

  /** `getValidationErrorType`: an explicit type wins, then the message is searched. */
  function ValidationErrorType(err: Json): (t: string)
    ensures TextOr(Get(err, "type"), "") != "" ==> t == TextOr(Get(err, "type"), "")
    ensures TextOr(Get(err, "type"), "") == "" ==>
      t in {"required", "format", "range", "custom"} &&
      (t == "required" <==> Mentions(Get(err, "msg"), "required") || Mentions(Get(err, "message"), "required"))
  {
    var explicit := TextOr(Get(err, "type"), "");
    var msg, message := Get(err, "msg"), Get(err, "message");
    if explicit != "" then explicit
    else if Mentions(msg, "required") || Mentions(message, "required") then "required"
    else if Mentions(msg, "format") || Mentions(message, "format") then "format"
    else if Mentions(msg, "range") || Mentions(message, "between") then "range"
    else "custom"
  }

  // ------------------------------------------------------------------
  // formatFieldName
  // ------------------------------------------------------------------

  /** `.replace(/([A-Z])/g, ' $1')`. */
  function SpaceBeforeCapitals(s: string): (r: string)
    ensures s != [] ==> r != [] && r[|r| - 1] == s[|s| - 1]
  {
    if s == [] then []
    else
      var rest := SpaceBeforeCapitals(s[1..]);
      var head := if IsUpper(s[0]) then [' ', s[0]] else [s[0]];
      assert |s| == 1 ==> rest == [];
      head + rest
  }

  predicate IsLineTerminator(c: char)
  {
    c == '\n' || c == '\r' || c == '\U{2028}' || c == '\U{2029}'
  }

  /** `.replace(/^./, str => str.toUpperCase())`: `.` does not match a line terminator. */
  function CapitalizeFirst(s: string): (r: string)
    ensures |r| == |s|
  {
    if s != [] && !IsLineTerminator(s[0]) then [UpperChar(s[0])] + s[1..] else s
  }

  /** `formatFieldName`: camelCase to "Title Case". */
  function FormatFieldName(field: string): (r: string)
    ensures field == [] ==> r == []
    ensures r == [] || (!IsSpace(r[0]) && !IsSpace(r[|r| - 1]))
  {
    Trim(CapitalizeFirst(SpaceBeforeCapitals(field)))
  }

  function WithoutSpaces(s: string): (r: string)
    ensures forall k :: 0 <= k < |r| ==> r[k] != ' '
  {
    if s == [] then [] else (if s[0] == ' ' then [] else [s[0]]) + WithoutSpaces(s[1..])
  }

  lemma {:induction false} WithoutSpacesAppend(a: string, b: string)
    ensures WithoutSpaces(a + b) == WithoutSpaces(a) + WithoutSpaces(b)
  {
    if a != [] {
      assert (a + b)[1..] == a[1..] + b;
      WithoutSpacesAppend(a[1..], b);
    } else {
      assert a + b == b;
    }
  }

  /** Taking the inserted spaces out again gives back a name that had none. */
  lemma {:induction false} SpacesUndone(s: string)
    requires forall k :: 0 <= k < |s| ==> s[k] != ' '
    ensures WithoutSpaces(SpaceBeforeCapitals(s)) == s
  {
    if s != [] {
      var head := if IsUpper(s[0]) then [' ', s[0]] else [s[0]];
      WithoutSpacesAppend(head, SpaceBeforeCapitals(s[1..]));
      SpacesUndone(s[1..]);
      assert WithoutSpaces(head) == [s[0]] by {
        if IsUpper(s[0]) { assert head[1..] == [s[0]]; }
      }
    }
  }

  /**
   * A camelCase identifier (lower-case first letter, no white space) comes
   * out with a capital first letter and no surrounding blanks, and is the
   * identifier itself, first letter capitalized, once the inserted spaces
   * are taken out.
   */
  lemma FormatFieldNameReadsBack(field: string)
    requires field != [] && IsLower(field[0])
    requires forall k :: 0 <= k < |field| ==> !IsSpace(field[k])
    ensures FormatFieldName(field) != [] && IsUpper(FormatFieldName(field)[0])
    ensures WithoutSpaces(FormatFieldName(field)) == CapitalizeFirst(field)
  {
    var t := SpaceBeforeCapitals(field);
    assert t == [field[0]] + SpaceBeforeCapitals(field[1..]);
    var c := CapitalizeFirst(t);
    assert c == [UpperChar(field[0])] + t[1..];
    assert c[|c| - 1] == (if |c| == 1 then UpperChar(field[0]) else field[|field| - 1]);
    TrimKeeps(c);
    SpacesUndone(field[1..]);
    WithoutSpacesAppend([UpperChar(field[0])], t[1..]);
    assert t[1..] == SpaceBeforeCapitals(field[1..]);
  }

  // ------------------------------------------------------------------
  // parseError
  // ------------------------------------------------------------------

  /** An entry of an `ApiError`'s `errors`: field from path, param, field; message from msg, message. */
  function ApiFieldError(err: Json): FieldError
  {
    FieldError(
      FormatFieldName(TextOr(Get(err, "path"), TextOr(Get(err, "param"), TextOr(Get(err, "field"), "unknown")))),
      TextOr(Get(err, "msg"), TextOr(Get(err, "message"), "Invalid value")),
      ValidationErrorType(err))
  }

  /** An entry of a `response.data.errors`: field from field, path, param; message from message, msg. */
  function DataFieldError(err: Json): FieldError
  {
    FieldError(
      FormatFieldName(TextOr(Get(err, "field"), TextOr(Get(err, "path"), TextOr(Get(err, "param"), "unknown")))),
      TextOr(Get(err, "message"), TextOr(Get(err, "msg"), "Invalid value")),
      ValidationErrorType(err))
  }

  function ApiFieldErrors(items: seq<Json>): (r: seq<FieldError>)
    ensures |r| == |items| && forall i :: 0 <= i < |items| ==> r[i] == ApiFieldError(items[i])
  {
    seq(|items|, i requires 0 <= i < |items| => ApiFieldError(items[i]))
  }

  function DataFieldErrors(items: seq<Json>): (r: seq<FieldError>)
    ensures |r| == |items| && forall i :: 0 <= i < |items| ==> r[i] == DataFieldError(items[i])
  {
    seq(|items|, i requires 0 <= i < |items| => DataFieldError(items[i]))
  }

  /** An array-valued `errors` member, if there is one. */
  function ErrorsArray(v: Json): Option<seq<Json>>
  {
    var errs := Get(v, "errors");
    if errs.Some? && errs.value.JArr? then Some(errs.value.items) else None
  }

  /** `parseError`, its branches tried in order. */
  function ParseError(error: Thrown, fallback: string, context: Option<string>): (r: ParsedError)
    ensures r.context == context
    ensures r.validationErrors.Some? ==> r.kind == Validation
    ensures error.FromApi? ==> r.message == error.e.message && r.statusCode == error.e.status
    ensures error.Plain? && error.response.None? && error.name != "AbortError" && r.statusCode == 0 ==> r.kind == Network
  {
    match error
    case FromApi(e) =>
      var errs := ErrorsArray(e.response);
      if errs.Some? then ParsedError(e.message, Some(ApiFieldErrors(errs.value)), e.status, Validation, context)
      else ParsedError(e.message, None, e.status, StatusKind(e.status), context)
    case Plain(name, message, status, response) =>
      var data := if response.Some? then Get(response.value, "data") else None;
      if TruthyAt(data) then
        var errs := ErrorsArray(data.value);
        if errs.Some? then
          ParsedError(TextOr(Get(data.value, "message"), "Validation failed"), Some(DataFieldErrors(errs.value)),
                      StatusOr(Get(response.value, "status"), 400), Validation, context)
        else
          var code := StatusOr(Get(response.value, "status"), 500);
          ParsedError(TextOr(Get(data.value, "message"), fallback), None, code, StatusKind(code), context)
      else if name == "TypeError" && Contains(message, "fetch") then
        ParsedError(NetworkMessage, None, 0, Network, context)
      else if name == "AbortError" then
        ParsedError(TimeoutMessage, None, 408, Network, context)
      else
        ParsedError(if message != "" then message else fallback, None, if status != 0 then status else 500, Unknown, context)
  }

  /**
   * An `ApiError` keeps its message and status; one whose response holds
   * an `errors` array is a validation error whatever its status, with one
   * field error per entry, and any other is categorized by its status.
   */
  lemma ParseApiError(e: ApiError, fallback: string, context: Option<string>)
    ensures var p := ParseError(FromApi(e), fallback, context);
      p.message == e.message && p.statusCode == e.status && p.context == context &&
      (ErrorsArray(e.response).Some? ==>
         p.kind == Validation && p.validationErrors.Some? &&
         |p.validationErrors.value| == |ErrorsArray(e.response).value|) &&
      (ErrorsArray(e.response).None? ==> p.kind == StatusKind(e.status) && p.validationErrors.None?)
  {
  }

  /** The two branches read a field's name in opposite orders: `path` first for ApiError entries, `field` first otherwise. */
  lemma FieldNamePrecedence(err: Json)
    requires TextOr(Get(err, "path"), "") != "" && TextOr(Get(err, "field"), "") != ""
    ensures ApiFieldError(err).field == FormatFieldName(TextOr(Get(err, "path"), ""))
    ensures DataFieldError(err).field == FormatFieldName(TextOr(Get(err, "field"), ""))
  {
  }

  /** A fetch TypeError is a network error with status 0; an abort is one with status 408; anything else unknown, status defaulting to 500. */
  lemma ParseTransportErrors(name: string, message: string, status: int, fallback: string, context: Option<string>)
    ensures name == "TypeError" && Contains(message, "fetch") ==>
      var p := ParseError(Plain(name, message, status, None), fallback, context);
      p.kind == Network && p.statusCode == 0
    ensures name == "AbortError" ==>
      var p := ParseError(Plain(name, message, status, None), fallback, context);
      p.kind == Network && p.statusCode == 408
    ensures name != "AbortError" && !(name == "TypeError" && Contains(message, "fetch")) ==>
      var p := ParseError(Plain(name, message, status, None), fallback, context);
      p.kind == Unknown && p.statusCode == (if status == 0 then 500 else status) &&
      p.message == (if message == "" then fallback else message)
  {
  }

  /** The request that never reached the server is reported as a network error. */
  lemma FetchFailureIsNetwork(fallback: string, context: Option<string>)
    ensures ParseError(OfFailure(FetchFailed), fallback, context).kind == Network
    ensures ParseError(OfFailure(FetchFailed), fallback, context).statusCode == 0
  {
    assert "Failed to fetch" == "Failed to " + "fetch";
    ContainsSuffix("Failed to ", "fetch");
  }

  lemma {:induction false} ContainsSuffix(a: string, t: string)
    ensures Contains(a + t, t)
  {
    if a != [] {
      assert (a + t)[1..] == a[1..] + t;
      ContainsSuffix(a[1..], t);
    } else {
      assert a + t == t;
    }
  }

  // ------------------------------------------------------------------
  // handleLoginError and the access-denied checks
  // ------------------------------------------------------------------

  datatype LoginError = LoginError(message: string, title: string, statusCode: int)

  // The messages `handleLoginError` falls back on.
  const BadCredentialsMessage := "Invalid username or password. Please check your credentials."
  const DeniedMessage := "Access denied. Your account may be deactivated."
  const RateLimitedMessage := "Too many login attempts. Please try again later."
  const ServerErrorMessage := "Server error occurred. Please try again later or contact support."
  const ConnectionMessage := "Network error. Please check your internet connection and try again."
  const LoginFailedMessage := "Login failed. Please try again."

  /** `handleLoginError`: a title per status; 401, 403 and 429 prefer the parsed message, 500 and 0 never do. */
  function HandleLoginError(error: Thrown): (r: LoginError)
    ensures r.statusCode == ParseError(error, DefaultFallback, Some("login")).statusCode
  {
    LoginErrorOf(ParseError(error, DefaultFallback, Some("login")))
  }

  /** The alert `handleLoginError` builds from the parsed error. */
  function LoginErrorOf(p: ParsedError): (r: LoginError)
    ensures r.statusCode == p.statusCode
  {
    var m := p.message;
    match p.statusCode
    case 401 => LoginError(if m != "" then m else BadCredentialsMessage, "Authentication Failed", 401)
    case 403 => LoginError(if m != "" then m else DeniedMessage, "Access Denied", 403)
    case 429 => LoginError(if m != "" then m else RateLimitedMessage, "Rate Limited", 429)
    case 500 => LoginError(ServerErrorMessage, "Server Error", 500)
    case 0 => LoginError(ConnectionMessage, "Connection Failed", 0)
    case _ => LoginError(if m != "" then m else LoginFailedMessage, "Login Failed", p.statusCode)
  }

  /** The title depends on the status alone, and the message is never empty. */
  lemma LoginErrorTitles(error: Thrown)
    ensures var r := HandleLoginError(error);
      r.message != "" &&
      r.title == match r.statusCode
        case 401 => "Authentication Failed"
        case 403 => "Access Denied"
        case 429 => "Rate Limited"
        case 500 => "Server Error"
        case 0 => "Connection Failed"
        case _ => "Login Failed"
    ensures var r := HandleLoginError(error);
      var m := ParseError(error, DefaultFallback, Some("login")).message;
      (r.statusCode in {401, 403, 429} && m != "" ==> r.message == m) &&
      (r.statusCode == 500 ==> r.message == ServerErrorMessage) &&
      (r.statusCode == 0 ==> r.message == ConnectionMessage)
  {
    LoginTitles(ParseError(error, DefaultFallback, Some("login")));
  }

  /** `LoginErrorTitles` for any parsed error. */
  lemma LoginTitles(p: ParsedError)
    ensures var r := LoginErrorOf(p);
      r.message != "" &&
      r.title == match r.statusCode
        case 401 => "Authentication Failed"
        case 403 => "Access Denied"
        case 429 => "Rate Limited"
        case 500 => "Server Error"
        case 0 => "Connection Failed"
        case _ => "Login Failed"
    ensures var r := LoginErrorOf(p);
      (r.statusCode in {401, 403, 429} && p.message != "" ==> r.message == p.message) &&
      (r.statusCode == 500 ==> r.message == ServerErrorMessage) &&
      (r.statusCode == 0 ==> r.message == ConnectionMessage)
  {
  }

  /** The class's `isAccessDeniedError`: an ApiError with status 403 whose response says `accessDenied: true`. */
  predicate IsAccessDeniedStrict(error: Thrown)
  {
    error.FromApi? && error.e.status == 403 && Get(error.e.response, "accessDenied") == Some(JBool(true))
  }

  /** The module-level `isAccessDeniedError`: the same test, and the parsed category must also be auth. */
  predicate IsAccessDenied(error: Thrown)
  {
    ParseError(error, DefaultFallback, None).kind == AuthError && IsAccessDeniedStrict(error)
  }

  /**
   * A revocation raised by the REST client satisfies the class's check,
   * and the module-level one exactly when the revoked body carries no
   * array of `errors`.
   */
  lemma RevocationIsAccessDenied(status: int, data: Json, now: string)
    requires IsRevocation(status, data)
    ensures IsAccessDeniedStrict(FromApi(Classify(status, Some(data), now).error))
    ensures data.JObj? ==>
      (IsAccessDenied(FromApi(Classify(status, Some(data), now).error)) <==> ErrorsArray(data).None?)
  {
    ClassifyRevocation(status, Some(data), now);
    var e := Classify(status, Some(data), now).error;
    if data.JObj? {
      assert Get(e.response, "errors") == Get(data, "errors");
    }
  }
}
