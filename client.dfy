/**
 * `IGClient`: the session-authenticated request layer. It holds the API key and
 * the session token pair, builds the headers of every call, classifies failed
 * responses into the error taxonomy, rewrites booleans in request bodies,
 * re-authenticates once before guarded operations, and derives profit/loss for
 * open positions.
 */
module Client {
  import opened Common
  import opened Strings
  import opened Exceptions
  import opened Http
  import Utils

  const BaseUrl := "https://demo-api.ig.com/gateway/deal"
  const UserAgent := "IGAPIv2-Python (alpha)"
  const JsonMediaType := "application/json; charset=UTF-8 "
  /** The default API version of every verb. */
  const DefaultVersion := 2

  // ---------------------------------------------------------------------------
  // Session state

  /**
   * The client's fields as one value: the API key, the cached credentials (the
   * last ones supplied, to the constructor or to a login attempt), the
   * identifier of the last successful login and the two session tokens.
   */
  datatype Session = Session(
    apiKey: string,
    identifier: string,
    password: string,
    id: Option<string>,
    securityToken: Option<string>,
    cst: Option<string>)

  /** The `authd` property: both tokens have been set (an empty string counts). */
  predicate Authenticated(s: Session)
  {
    s.securityToken.Some? && s.cst.Some?
  }

  // ---------------------------------------------------------------------------
  // Headers and the VERSION tag

  function BaseHeaders(apiKey: string): map<string, string>
  {
    map["User-Agent" := UserAgent,
        "Content-Type" := JsonMediaType,
        "Accept" := JsonMediaType,
        "X-IG-API-KEY" := apiKey]
  }

  /** `get_headers()`: the token headers are added only when both tokens are truthy. */
  function HeadersFor(s: Session): map<string, string>
  {
    if Truthy(s.securityToken) && Truthy(s.cst) then
      BaseHeaders(s.apiKey)["X-SECURITY-TOKEN" := s.securityToken.value]["CST" := s.cst.value]
    else
      BaseHeaders(s.apiKey)
  }

  /** `str(version)`: the VERSION header of a call. */
  function VersionTag(version: int): string
  {
    IntToString(version)
  }

  /** The headers of a verb call: `get_headers()` plus VERSION. */
  function RequestHeaders(s: Session, version: int): map<string, string>
  {
    HeadersFor(s)["VERSION" := VersionTag(version)]
  }

  /** Every call carries the agent, the JSON media types and the API key. */
  lemma HeadersAlwaysCarryBase(s: Session)
    ensures forall key :: key in BaseHeaders(s.apiKey) ==>
              key in HeadersFor(s) && HeadersFor(s)[key] == BaseHeaders(s.apiKey)[key]
    ensures HeadersFor(s)["X-IG-API-KEY"] == s.apiKey
    ensures HeadersFor(s)["User-Agent"] == UserAgent
    ensures HeadersFor(s)["Content-Type"] == JsonMediaType && HeadersFor(s)["Accept"] == JsonMediaType
  {
  }

  /** The token headers are present exactly when both tokens are truthy, and then carry the tokens. */
  lemma TokenHeadersIffTruthy(s: Session)
    ensures "X-SECURITY-TOKEN" in HeadersFor(s) <==> Truthy(s.securityToken) && Truthy(s.cst)
    ensures "CST" in HeadersFor(s) <==> Truthy(s.securityToken) && Truthy(s.cst)
    ensures "X-SECURITY-TOKEN" in HeadersFor(s) ==>
              HeadersFor(s)["X-SECURITY-TOKEN"] == s.securityToken.value && HeadersFor(s)["CST"] == s.cst.value
    ensures HeadersFor(s).Keys ==
              BaseHeaders(s.apiKey).Keys + (if Truthy(s.securityToken) && Truthy(s.cst) then {"X-SECURITY-TOKEN", "CST"} else {})
  {
  }

  /** An empty token makes `authd` true, yet the calls go out without token headers. */
  lemma EmptyTokenAuthenticatedWithoutTokenHeaders(s: Session)
    requires s.securityToken == Some("") && s.cst.Some?
    ensures Authenticated(s)
    ensures "X-SECURITY-TOKEN" !in HeadersFor(s) && "CST" !in HeadersFor(s)
  {
  }

  /** VERSION is the decimal text of the version, which reads back as that version; nothing else changes. */
  lemma VersionHeaderNamesVersion(s: Session, version: int)
    ensures "VERSION" in RequestHeaders(s, version)
    ensures ParseInt(RequestHeaders(s, version)["VERSION"]) == version
    ensures forall key :: key in HeadersFor(s) && key != "VERSION" ==>
              key in RequestHeaders(s, version) && RequestHeaders(s, version)[key] == HeadersFor(s)[key]
  {
    IntToStringRoundTrip(version);
  }

  /** The two versions the client uses are sent as "1" and "2". */
  lemma VersionTags()
    ensures VersionTag(1) == "1" && VersionTag(DefaultVersion) == "2"
  {
  }

  // ---------------------------------------------------------------------------
  // Response classification

  /** A raised exception: its class and its message. */
  datatype Failure = Failure(kind: ErrorKind, message: string)

  /** What `_get`/`_post` do with a response: return the decoded body or raise. */
  datatype Outcome = Returned(value: Json) | Raised(failure: Failure)

  /** The message `f'Error {status}: {detail}'`. */
  function ErrorText(status: int, detail: string): string
  {
    "Error " + IntToString(status) + ": " + detail
  }

  /** `str(value)` of a decoded errorCode (containers are abbreviated). */
  function PyStr(j: Json): string
  {
    match j
    case JString(s) => s
    case JInt(i) => IntToString(i)
    case JBool(b) => BoolText(b)
    case JNull => "None"
    case JArray(_) => "[...]"
    case JObject(_) => "{...}"
  }

  /** The TypeError message of `value["errorCode"]` on a decoded body that is not a dict. */
  function NotSubscriptable(j: Json): string
  {
    match j
    case JArray(_) => "list indices must be integers or slices, not str"
    case JString(_) => "string indices must be integers, not 'str'"
    case JInt(_) => "'int' object is not subscriptable"
    case JBool(_) => "'bool' object is not subscriptable"
    case JNull => "'NoneType' object is not subscriptable"
    case JObject(_) => ""
  }

  /**
   * The tail of `_get` and `_post`. An ok response returns its decoded body
   * (decoding a non-JSON body raises JSONDecodeError, outside the try). A
   * failed one raises the class mapped from its status with the body's
   * errorCode, or plain Exception with the raw text when the body is not
   * JSON; a decoded body without errorCode lets KeyError escape, and one that
   * is not a dict lets TypeError escape.
   */
  function Classify(resp: Response): (r: Outcome)
    ensures r.Returned? ==> resp.ok && resp.body.Parsed?
    ensures !resp.ok ==> r.Raised?
  {
    if resp.ok then
      match resp.body
      case Parsed(j) => Returned(j)
      case Unparseable(_) => Raised(Failure(JSONDecodeError, ""))
    else
      match resp.body
      case Unparseable(text) => Raised(Failure(Exception, ErrorText(resp.status, text)))
      case Parsed(j) =>
        if !j.JObject? then Raised(Failure(TypeError, NotSubscriptable(j)))
        else if "errorCode" !in j.fields then Raised(Failure(KeyError, "'errorCode'"))
        else Raised(Failure(KindFor(resp.status), ErrorText(resp.status, PyStr(j.fields["errorCode"]))))
  }

  /** An ok response with a JSON body returns that body; a failed response never returns. */
  lemma ClassifyReturnsOnlyOkBodies(resp: Response)
    ensures Classify(resp).Returned? <==> resp.ok && resp.body.Parsed?
    ensures Classify(resp).Returned? ==> Classify(resp).value == resp.body.json
  {
  }

  /** A failed response whose JSON carries errorCode raises the mapped class (or Exception) naming status and code. */
  lemma ClassifyErrorCode(resp: Response, code: Json)
    requires !resp.ok && resp.body.Parsed? && resp.body.json.JObject?
    requires "errorCode" in resp.body.json.fields && resp.body.json.fields["errorCode"] == code
    ensures Classify(resp) == Raised(Failure(KindFor(resp.status), ErrorText(resp.status, PyStr(code))))
    ensures resp.status in StatusCodeExceptions ==> Classify(resp).failure.kind == StatusCodeExceptions[resp.status]
    ensures resp.status !in StatusCodeExceptions ==> Classify(resp).failure.kind == Exception
  {
  }

  /** A failed response with a body that is not JSON raises plain Exception carrying the raw text. */
  lemma ClassifyRawText(resp: Response)
    requires !resp.ok && resp.body.Unparseable?
    ensures Classify(resp).Raised? && Classify(resp).failure.kind == Exception
    ensures Classify(resp).failure.message == "Error " + IntToString(resp.status) + ": " + resp.body.text
  {
  }

  /** A failed response whose JSON dict lacks errorCode lets KeyError escape. */
  lemma ClassifyMissingErrorCode(resp: Response)
    requires !resp.ok && resp.body.Parsed? && resp.body.json.JObject?
    requires "errorCode" !in resp.body.json.fields
    ensures Classify(resp) == Raised(Failure(KeyError, "'errorCode'"))
  {
  }

  /** With the library's own ok flag, every 4xx/5xx status raises, whatever the body. */
  lemma ClassifyFailedStatusRaises(resp: Response)
    requires Consistent(resp) && 400 <= resp.status < 600
    ensures Classify(resp).Raised?
    ensures resp.body.Unparseable? ==> Classify(resp).failure.kind == Exception
  {
  }

  /** With the library's own ok flag, the four mapped statuses raise their own class. */
  lemma ClassifyConsistentResponse(resp: Response)
    requires Consistent(resp) && resp.status in StatusCodeExceptions
    requires resp.body.Parsed? && resp.body.json.JObject? && "errorCode" in resp.body.json.fields
    ensures Classify(resp) ==
              Raised(Failure(StatusCodeExceptions[resp.status],
                             ErrorText(resp.status, PyStr(resp.body.json.fields["errorCode"]))))
  {
    MappedAreClientErrors(resp.status);
  }

  /** A failed 404 whose JSON errorCode is the string "X" raises NotFoundError whose message ends with "X". */
  lemma NotFoundNamesErrorCode(resp: Response, code: string)
    requires !resp.ok && resp.status == 404
    requires resp.body.Parsed? && resp.body.json.JObject?
    requires "errorCode" in resp.body.json.fields && resp.body.json.fields["errorCode"] == JString(code)
    ensures var o := Classify(resp);
            o.Raised? && o.failure.kind == NotFoundError &&
            |code| <= |o.failure.message| &&
            o.failure.message[|o.failure.message| - |code|..] == code
  {
    var m := ErrorText(404, code);
    assert m == ("Error " + IntToString(404) + ": ") + code;
  }

  // The message format can be read back.

  /** Index of the first `c` in `s`, or `|s|`. */
  function IndexOf(s: string, c: char): (k: nat)
    ensures k <= |s|
    ensures k < |s| ==> s[k] == c
    ensures forall j :: 0 <= j < k ==> s[j] != c
    decreases |s|
  {
    if s == [] then 0 else if s[0] == c then 0 else 1 + IndexOf(s[1..], c)
  }

  predicate IsIntText(t: string)
  {
    |t| >= 1 && (t[0] == '-' ==> AllDigits(t[1..])) && (t[0] != '-' ==> AllDigits(t))
  }

  /** Reads `"Error {status}: {detail}"` back into its status and detail. */
  function ParseErrorText(m: string): Option<(int, string)>
  {
    if |m| < 6 || m[..6] != "Error " then None
    else
      var rest := m[6..];
      var k := IndexOf(rest, ':');
      if k + 1 >= |rest| || rest[k + 1] != ' ' || !IsIntText(rest[..k]) then None
      else Some((ParseInt(rest[..k]), rest[k + 2..]))
  }

  /** A failure message names its status and its detail unambiguously. */
  lemma ErrorTextRoundTrip(status: int, detail: string)
    ensures ParseErrorText(ErrorText(status, detail)) == Some((status, detail))
  {
    var digits := IntToString(status);
    var m := ErrorText(status, detail);
    var rest := m[6..];
    assert m[..6] == "Error ";
    assert rest == digits + ": " + detail;
    assert forall j :: 0 <= j < |digits| ==> digits[j] != ':' by {
      forall j | 0 <= j < |digits|
        ensures digits[j] != ':'
      {
        if digits[0] == '-' && j > 0 {
          assert digits[j] == digits[1..][j - 1];
        }
      }
    }
    var k := IndexOf(rest, ':');
    assert rest[|digits|] == ':';
    assert k == |digits|;
    assert rest[..k] == digits;
    assert rest[k + 2..] == detail;
    IntToStringRoundTrip(status);
  }

  // ---------------------------------------------------------------------------
  // Request bodies: the boolean fix

  const NativeTrue := ": true"
  const QuotedTrue := ": \"true\""
  const NativeFalse := ": false"
  const QuotedFalse := ": \"false\""

  /** The serialised body with every `: true` / `: false` turned into a quoted string. */
  function FixBooleans(data: string): (r: string)
    ensures |r| >= |data|
  {
    Replace(Replace(data, NativeTrue, QuotedTrue), NativeFalse, QuotedFalse)
  }

  /** After the fix, neither `: true` nor `: false` occurs anywhere in the body. */
  lemma FixBooleansLeavesNoNativeBooleans(data: string)
    ensures Free(FixBooleans(data), NativeTrue) && Free(FixBooleans(data), NativeFalse)
  {
    var once := Replace(data, NativeTrue, QuotedTrue);
    assert QuotedTrue[..|NativeTrue|] != NativeTrue by { assert QuotedTrue[2] != NativeTrue[2]; }
    assert QuotedFalse[..|NativeTrue|] != NativeTrue by { assert QuotedFalse[2] != NativeTrue[2]; }
    assert QuotedFalse[..|NativeFalse|] != NativeFalse by { assert QuotedFalse[2] != NativeFalse[2]; }
    ReplaceLeavesNoOccurrence(data, NativeTrue, QuotedTrue, NativeTrue);
    ReplaceLeavesNoOccurrence(once, NativeFalse, QuotedFalse, NativeTrue);
    ReplaceLeavesNoOccurrence(once, NativeFalse, QuotedFalse, NativeFalse);
  }

  /** A body without native booleans goes out unchanged. */
  lemma FixBooleansKeepsOtherText(data: string)
    requires Free(data, NativeTrue) && Free(data, NativeFalse)
    ensures FixBooleans(data) == data
  {
    ReplaceAbsent(data, NativeTrue, QuotedTrue);
    ReplaceAbsent(data, NativeFalse, QuotedFalse);
  }

  /** Fixing a fixed body changes nothing. */
  lemma FixBooleansIdempotent(data: string)
    ensures FixBooleans(FixBooleans(data)) == FixBooleans(data)
  {
    FixBooleansLeavesNoNativeBooleans(data);
    FixBooleansKeepsOtherText(FixBooleans(data));
  }

  // ---------------------------------------------------------------------------
  // Login

  /** What `login` does: return a bool, or let KeyError escape for a missing token header. */
  datatype LoginResult = LoginReturned(ok: bool) | LoginRaised(failure: Failure)

  /** The call `login` sends: POST /session with the current headers and the credentials as JSON. */
  function LoginRequest(s: Session, identifier: string, password: string): Request
  {
    Request("post", BaseUrl + "/session", map[], HeadersFor(s),
            Dumps(JObject(map["identifier" := JString(identifier), "password" := JString(password)])))
  }

  /**
   * The effect of `login` given the server's response. The credentials are
   * cached first, whatever follows. On ok, the two token headers are stored in
   * order and then the identifier; a missing header raises KeyError at that
   * point, leaving what was already stored.
   */
  function LoginStep(s: Session, identifier: string, password: string, resp: Response): (Session, LoginResult)
  {
    var tried := s.(identifier := identifier, password := password);
    if !resp.ok then (tried, LoginReturned(false))
    else if "X-SECURITY-TOKEN" !in resp.headers then (tried, LoginRaised(Failure(KeyError, "'x-security-token'")))
    else
      var withToken := tried.(securityToken := Some(resp.headers["X-SECURITY-TOKEN"]));
      if "CST" !in resp.headers then (withToken, LoginRaised(Failure(KeyError, "'cst'")))
      else (withToken.(cst := Some(resp.headers["CST"]), id := Some(identifier)), LoginReturned(true))
  }

  /** An ok login with both token headers stores them and the identifier and returns True. */
  lemma LoginOkStoresTokens(s: Session, identifier: string, password: string, resp: Response)
    requires resp.ok && "X-SECURITY-TOKEN" in resp.headers && "CST" in resp.headers
    ensures LoginStep(s, identifier, password, resp).1 == LoginReturned(true)
    ensures Authenticated(LoginStep(s, identifier, password, resp).0)
    ensures LoginStep(s, identifier, password, resp).0 ==
              s.(identifier := identifier, password := password,
                 securityToken := Some(resp.headers["X-SECURITY-TOKEN"]),
                 cst := Some(resp.headers["CST"]), id := Some(identifier))
  {
  }

  /** A rejected login returns False and leaves tokens and `_id` as they were; only the credentials are cached. */
  lemma LoginRejectedKeepsSession(s: Session, identifier: string, password: string, resp: Response)
    requires !resp.ok
    ensures LoginStep(s, identifier, password, resp) ==
              (s.(identifier := identifier, password := password), LoginReturned(false))
  {
  }

  /** Every login attempt, whatever its outcome, leaves its credentials cached and the API key alone. */
  lemma LoginCachesCredentials(s: Session, identifier: string, password: string, resp: Response)
    ensures LoginStep(s, identifier, password, resp).0.identifier == identifier
    ensures LoginStep(s, identifier, password, resp).0.password == password
    ensures LoginStep(s, identifier, password, resp).0.apiKey == s.apiKey
  {
  }

  /**
   * A login that raises never touches the identifier or the CST, so it never
   * authenticates a session that had no CST; with only the CST header missing
   * it leaves a new security token beside the old CST.
   */
  lemma LoginRaisingDoesNotAuthenticate(s: Session, identifier: string, password: string, resp: Response)
    requires LoginStep(s, identifier, password, resp).1.LoginRaised?
    ensures LoginStep(s, identifier, password, resp).0.id == s.id
    ensures LoginStep(s, identifier, password, resp).0.cst == s.cst
    ensures !Authenticated(s) && s.cst.None? ==> !Authenticated(LoginStep(s, identifier, password, resp).0)
  {
  }

  // ---------------------------------------------------------------------------
  // check_auth

  /** What the wrapped operation produced, or the exception that stopped the wrapper first. */
  datatype Called<R> = Value(value: R) | Interrupted(failure: Failure)

  datatype Checked<A, R> = Checked(state: Session, outcome: Called<R>, trace: seq<Event<A>>)

  /** The login `check_auth` sends on the session `s`: none when authenticated, else the cached credentials. */
  function ReloginRequest(s: Session): Option<Request>
  {
    if Authenticated(s) then None else Some(LoginRequest(s, s.identifier, s.password))
  }

  /**
   * After a login attempt that leaves the session unauthenticated, the next
   * re-login replays exactly the credentials of that attempt.
   */
  lemma ReloginReplaysLastCredentials(s: Session, identifier: string, password: string, resp: Response)
    requires !Authenticated(LoginStep(s, identifier, password, resp).0)
    ensures var after := LoginStep(s, identifier, password, resp).0;
            ReloginRequest(after) == Some(LoginRequest(after, identifier, password))
  {
  }

  /**
   * `check_auth(func)(self, *args)` with login replaying the cached
   * credentials: when unauthenticated, log in once, then run the operation on
   * whatever session results; only an exception from login stops it.
   */
  function CheckAuthSpec<A, R>(s: Session, loginResp: Response, func: (Session, A) -> R, args: A): Checked<A, R>
  {
    if Authenticated(s) then
      Checked(s, Value(func(s, args)), [Invoked(args)])
    else
      var (after, login) := LoginStep(s, s.identifier, s.password, loginResp);
      match login
      case LoginRaised(f) => Checked(after, Interrupted(f), [LoginAttempted])
      case LoginReturned(_) => Checked(after, Value(func(after, args)), [LoginAttempted, Invoked(args)])
  }

  /** Authenticated: no login, the operation runs once on the unchanged session. */
  lemma CheckAuthSkipsLoginWhenAuthenticated<A, R>(s: Session, loginResp: Response, func: (Session, A) -> R, args: A)
    requires Authenticated(s)
    ensures CheckAuthSpec(s, loginResp, func, args) == Checked(s, Value(func(s, args)), [Invoked(args)])
  {
  }

  /**
   * Unauthenticated: exactly one login, then the operation runs whether the
   * login returned True or False, and its result is returned.
   */
  lemma CheckAuthLogsInOnceThenRuns<A, R>(s: Session, loginResp: Response, func: (Session, A) -> R, args: A)
    requires !Authenticated(s)
    requires !LoginStep(s, s.identifier, s.password, loginResp).1.LoginRaised?
    ensures CheckAuthSpec(s, loginResp, func, args).trace == [LoginAttempted, Invoked(args)]
    ensures CheckAuthSpec(s, loginResp, func, args).outcome ==
              Value(func(LoginStep(s, s.identifier, s.password, loginResp).0, args))
  {
  }

  /** A rejected re-login still runs the operation, on the unchanged session, so its own error surfaces. */
  lemma CheckAuthRejectedLoginStillRuns<A, R>(s: Session, loginResp: Response, func: (Session, A) -> R, args: A)
    requires !Authenticated(s) && !loginResp.ok
    ensures CheckAuthSpec(s, loginResp, func, args) ==
              Checked(s, Value(func(s, args)), [LoginAttempted, Invoked(args)])
  {
  }

  /**
   * Unlike `check_auth`, `req_auth` neither logs in nor runs the operation on an
   * unauthenticated session; on an authenticated one both run it once, unchanged.
   */
  lemma CheckAuthVersusReqAuth<A, R>(s: Session, loginResp: Response, func: (Session, A) -> R, args: A)
    ensures var guarded := Utils.ReqAuth(Authenticated, s, (t: Session, a: A) => (t, func(t, a)), args);
            var checked := CheckAuthSpec(s, loginResp, func, args);
            (!Authenticated(s) ==> LoginAttempted in checked.trace && LoginAttempted !in guarded.trace &&
                                   guarded.value.None? && guarded.state == s) &&
            (Authenticated(s) ==> checked.trace == guarded.trace && guarded.value == Some(checked.outcome.value))
  {
  }

  /**
   * The operation `get_positions` wraps: `self.get('/positions')`. Its outcome
   * is the classification of the server's answer `resp`.
   */
  function GetPositionsOp(resp: Response): (Session, ()) -> Outcome
  {
    (s: Session, u: ()) => Classify(resp)
  }

  /** `check_auth` as written calls `self.login()` without the two arguments login requires. */
  function CheckAuthAsWritten<A, R>(s: Session, func: (Session, A) -> R, args: A): Checked<A, R>
  {
    if Authenticated(s) then
      Checked(s, Value(func(s, args)), [Invoked(args)])
    else
      Checked(s, Interrupted(Failure(TypeError,
        "IGClient.login() missing 2 required positional arguments: 'identifier' and 'password'")), [LoginAttempted])
  }

  /** As written, every guarded operation on an unauthenticated client raises TypeError and never runs. */
  lemma CheckAuthAsWrittenNeverRunsUnauthenticated<A, R>(s: Session, func: (Session, A) -> R, args: A)
    requires !Authenticated(s)
    ensures CheckAuthAsWritten(s, func, args).outcome.Interrupted?
    ensures CheckAuthAsWritten(s, func, args).outcome.failure.kind == TypeError
    ensures Invoked(args) !in CheckAuthAsWritten(s, func, args).trace
  {
  }

  // ---------------------------------------------------------------------------
  // Construction

  /** `IGClient(*args)` as written: `__init__(self, api_key)` accepts exactly one argument. */
  function NewClientAsWritten(args: seq<string>): Option<Failure>
  {
    if |args| == 1 then None
    else if args == [] then
      Some(Failure(TypeError, "IGClient.__init__() missing 1 required positional argument: 'api_key'"))
    else Some(Failure(TypeError, "IGClient.__init__() takes 2 positional arguments but " +
                                 IntToString(|args| + 1) + " were given"))
  }

  /** The front end's three-argument construction raises TypeError as written. */
  lemma ThreeArgumentConstructionFails(apiKey: string, identifier: string, password: string)
    ensures NewClientAsWritten([apiKey, identifier, password]).Some?
    ensures NewClientAsWritten([apiKey, identifier, password]).value.kind == TypeError
    ensures NewClientAsWritten([apiKey]) == None
  {
  }

  // ---------------------------------------------------------------------------
  // Profit/loss

  datatype ProfitLoss = Unavailable | Amount(value: real)  // '-' or a number

  /** The fields of one position record the derivation reads, and its profitloss entry. */
  datatype Position = Position(
    direction: string,
    level: real,
    marketStatus: string,
    bid: real,
    offer: real,
    profitloss: Option<ProfitLoss>)

  /** One position after the loop body of `get_positions_profitloss`. */
  function WithProfitLoss(p: Position): (r: Position)
    ensures r.(profitloss := p.profitloss) == p
  {
    if p.marketStatus == "CLOSED" then p.(profitloss := Some(Unavailable))
    else if p.direction == "BUY" then p.(profitloss := Some(Amount(p.bid - p.level)))
    else if p.direction == "SELL" then p.(profitloss := Some(Amount(p.level - p.offer)))
    else p
  }

  /** The loop of `get_positions_profitloss`: every position record is updated in place. */
  method AnnotateProfitLoss(positions: array<Position>)
    modifies positions
    ensures forall i :: 0 <= i < positions.Length ==> positions[i] == WithProfitLoss(old(positions[i]))
  {
    var i := 0;
    while i < positions.Length
      invariant 0 <= i <= positions.Length
      invariant forall k :: 0 <= k < i ==> positions[k] == WithProfitLoss(old(positions[k]))
      invariant forall k :: i <= k < positions.Length ==> positions[k] == old(positions[k])
    {
      var position := positions[i];
      if position.marketStatus == "CLOSED" {
        position := position.(profitloss := Some(Unavailable));
      } else if position.direction == "BUY" {
        position := position.(profitloss := Some(Amount(position.bid - position.level)));
      } else if position.direction == "SELL" {
        position := position.(profitloss := Some(Amount(position.level - position.offer)));
      }
      positions[i] := position;
      i := i + 1;
    }
  }

  /** A closed market reports '-' whatever the direction. */
  lemma ClosedMarketIsUnavailable(p: Position)
    requires p.marketStatus == "CLOSED"
    ensures WithProfitLoss(p).profitloss == Some(Unavailable)
  {
  }

  /** Open BUY earns bid − level, open SELL earns level − offer: a gain exactly when the price moved their way. */
  lemma ProfitLossSign(p: Position)
    requires p.marketStatus != "CLOSED"
    ensures p.direction == "BUY" ==>
              WithProfitLoss(p).profitloss == Some(Amount(p.bid - p.level)) &&
              (WithProfitLoss(p).profitloss.value.value > 0.0 <==> p.bid > p.level)
    ensures p.direction == "SELL" ==>
              WithProfitLoss(p).profitloss == Some(Amount(p.level - p.offer)) &&
              (WithProfitLoss(p).profitloss.value.value > 0.0 <==> p.offer < p.level)
    ensures p.direction != "BUY" && p.direction != "SELL" ==> WithProfitLoss(p) == p
  {
  }

  /** Only the profitloss entry ever changes, and deriving twice equals deriving once. */
  lemma ProfitLossTouchesOnlyItsEntry(p: Position)
    ensures WithProfitLoss(p).(profitloss := p.profitloss) == p
    ensures WithProfitLoss(WithProfitLoss(p)) == WithProfitLoss(p)
  {
  }

  /** BUY at 100 against bid 105 earns 5; SELL at 100 against offer 107 earns −7. */
  lemma ProfitLossExamples()
    ensures WithProfitLoss(Position("BUY", 100.0, "TRADEABLE", 105.0, 107.0, None)).profitloss == Some(Amount(5.0))
    ensures WithProfitLoss(Position("SELL", 100.0, "TRADEABLE", 105.0, 107.0, None)).profitloss == Some(Amount(-7.0))
  {
  }

  // ---------------------------------------------------------------------------
  // The client object

  class IGClient {
    const apiKey: string
    /** The last credentials supplied, to the constructor or to `login`; re-login replays them. */
    var identifier: string
    var password: string
    var id: Option<string>
    var securityToken: Option<string>
    var cst: Option<string>

    function State(): Session
      reads this
    {
      Session(apiKey, identifier, password, id, securityToken, cst)
    }

    /** The `authd` property. */
    predicate Authd()
      reads this
    {
      Authenticated(State())
    }

    /** A new client holds the key and the credentials and no session. */
    constructor (apiKey: string, identifier: string, password: string)
      ensures State() == Session(apiKey, identifier, password, None, None, None)
      ensures !Authd()
    {
      this.apiKey := apiKey;
      this.identifier := identifier;
      this.password := password;
      id := None;
      securityToken := None;
      cst := None;
    }

    /** `get_headers()`. */
    method GetHeaders() returns (headers: map<string, string>)
      ensures headers == HeadersFor(State())
    {
      headers := BaseHeaders(apiKey);
      if Truthy(securityToken) && Truthy(cst) {
        headers := headers["X-SECURITY-TOKEN" := securityToken.value];
        headers := headers["CST" := cst.value];
      }
    }

    /** `login(identifier, password)`, given the server's response to the call it sends. */
    method Login(identifier: string, password: string, resp: Response) returns (request: Request, result: LoginResult)
      modifies this
      ensures request == LoginRequest(old(State()), identifier, password)
      ensures (State(), result) == LoginStep(old(State()), identifier, password, resp)
    {
      this.identifier := identifier;
      this.password := password;
      var headers := GetHeaders();
      request := Request("post", BaseUrl + "/session", map[], headers,
                         Dumps(JObject(map["identifier" := JString(identifier), "password" := JString(password)])));
      if !resp.ok {
        return request, LoginReturned(false);
      }
      if "X-SECURITY-TOKEN" !in resp.headers {
        return request, LoginRaised(Failure(KeyError, "'x-security-token'"));
      }
      securityToken := Some(resp.headers["X-SECURITY-TOKEN"]);
      if "CST" !in resp.headers {
        return request, LoginRaised(Failure(KeyError, "'cst'"));
      }
      cst := Some(resp.headers["CST"]);
      this.id := Some(identifier);
      result := LoginReturned(true);
    }

    /** `_get(method, endpoint, params, version)`: only 'get' and 'delete' pass its assertion. */
    method RawGet(verb: string, endpoint: string, params: map<string, string>, version: int, resp: Response)
      returns (request: Option<Request>, outcome: Outcome)
      ensures verb == "get" || verb == "delete" ==>
                request == Some(Request(verb, BaseUrl + endpoint, params, RequestHeaders(State(), version), NoData)) &&
                outcome == Classify(resp)
      ensures verb != "get" && verb != "delete" ==>
                request == None && outcome == Raised(Failure(AssertionError, ""))
    {
      if verb != "get" && verb != "delete" {
        return None, Raised(Failure(AssertionError, ""));
      }
      var headers := GetHeaders();
      headers := headers["VERSION" := VersionTag(version)];
      request := Some(Request(verb, BaseUrl + endpoint, params, headers, NoData));
      outcome := Classify(resp);
    }

    /**
     * `_post(method, endpoint, params, data, version)`, with `data` already
     * serialised by `json.dumps`: only 'post' and 'put' pass its assertion, and
     * the body goes out with its booleans quoted.
     */
    method RawPost(verb: string, endpoint: string, params: map<string, string>, data: string, version: int, resp: Response)
      returns (request: Option<Request>, outcome: Outcome)
      ensures verb == "post" || verb == "put" ==>
                request == Some(Request(verb, BaseUrl + endpoint, params, RequestHeaders(State(), version),
                                        Serialized(FixBooleans(data)))) &&
                outcome == Classify(resp)
      ensures verb != "post" && verb != "put" ==>
                request == None && outcome == Raised(Failure(AssertionError, ""))
    {
      if verb != "post" && verb != "put" {
        return None, Raised(Failure(AssertionError, ""));
      }
      var headers := GetHeaders();
      headers := headers["VERSION" := VersionTag(version)];
      var body := Replace(data, NativeTrue, QuotedTrue);
      body := Replace(body, NativeFalse, QuotedFalse);
      request := Some(Request(verb, BaseUrl + endpoint, params, headers, Serialized(body)));
      outcome := Classify(resp);
    }

    /** `get(endpoint, params, version)`: the caller's version (2 by default) goes in VERSION. */
    method Get(endpoint: string, params: map<string, string>, version: int, resp: Response)
      returns (request: Request, outcome: Outcome)
      ensures request == Request("get", BaseUrl + endpoint, params, RequestHeaders(State(), version), NoData)
      ensures request.headers["VERSION"] == VersionTag(version)
      ensures outcome == Classify(resp)
    {
      var sent;
      sent, outcome := RawGet("get", endpoint, params, version, resp);
      request := sent.value;
    }

    /** `delete(endpoint, params)`: always version 2. */
    method Delete(endpoint: string, params: map<string, string>, resp: Response)
      returns (request: Request, outcome: Outcome)
      ensures request == Request("delete", BaseUrl + endpoint, params, RequestHeaders(State(), DefaultVersion), NoData)
      ensures request.headers["VERSION"] == "2"
      ensures outcome == Classify(resp)
    {
      var sent;
      sent, outcome := RawGet("delete", endpoint, params, DefaultVersion, resp);
      request := sent.value;
    }

    /** `post(endpoint, params, data)`: always version 2, booleans quoted. */
    method Post(endpoint: string, params: map<string, string>, data: string, resp: Response)
      returns (request: Request, outcome: Outcome)
      ensures request == Request("post", BaseUrl + endpoint, params, RequestHeaders(State(), DefaultVersion),
                                 Serialized(FixBooleans(data)))
      ensures request.headers["VERSION"] == "2"
      ensures Free(request.data.text, NativeTrue) && Free(request.data.text, NativeFalse)
      ensures outcome == Classify(resp)
    {
      var sent;
      sent, outcome := RawPost("post", endpoint, params, data, DefaultVersion, resp);
      request := sent.value;
      FixBooleansLeavesNoNativeBooleans(data);
    }

    /** `put(endpoint, params, data)`: always version 2, booleans quoted. */
    method Put(endpoint: string, params: map<string, string>, data: string, resp: Response)
      returns (request: Request, outcome: Outcome)
      ensures request == Request("put", BaseUrl + endpoint, params, RequestHeaders(State(), DefaultVersion),
                                 Serialized(FixBooleans(data)))
      ensures request.headers["VERSION"] == "2"
      ensures Free(request.data.text, NativeTrue) && Free(request.data.text, NativeFalse)
      ensures outcome == Classify(resp)
    {
      var sent;
      sent, outcome := RawPost("put", endpoint, params, data, DefaultVersion, resp);
      request := sent.value;
      FixBooleansLeavesNoNativeBooleans(data);
    }

    /**
     * A `check_auth`-wrapped operation: re-login with the cached credentials
     * when unauthenticated (the server's answer to that login is `loginResp`),
     * then run the operation on the resulting session.
     */
    method CheckAuth<A, R>(loginResp: Response, func: (Session, A) -> R, args: A)
      returns (loginRequest: Option<Request>, result: Checked<A, R>)
      modifies this
      ensures result == CheckAuthSpec(old(State()), loginResp, func, args)
      ensures State() == result.state
      ensures loginRequest == ReloginRequest(old(State()))
    {
      var trace: seq<Event<A>> := [];
      loginRequest := None;
      if !Authd() {
        var sent, login := Login(identifier, password, loginResp);
        loginRequest := Some(sent);
        trace := [LoginAttempted];
        if login.LoginRaised? {
          return loginRequest, Checked(State(), Interrupted(login.failure), trace);
        }
      }
      var value := func(State(), args);
      result := Checked(State(), Value(value), trace + [Invoked(args)]);
    }
  }
}
