/**
 * `IGCLI`: the deterministic parts of the terminal front end — bootstrap from
 * the three credentials, the status-bar text, the dispatch of a typed command
 * line on its first word, and appending to the log pane.
 */
module Cli {
  import opened Common
  import opened Strings
  import opened Exceptions
  import opened Http
  import Client

  /** The `__api_key` field: first the environment value, later whatever `set_api` stores (a word list). */
  datatype ApiKey = FromEnv(value: Option<string>) | Words(words: seq<string>)

  /** `IGClient.cli_hooks`: the client attributes a command line may call by name. */
  const CliHooks := ["authd", "get_positions"]

  /** The three credentials are all present and non-empty. */
  predicate Bootstraps(apiKey: Option<string>, id: Option<string>, password: Option<string>)
  {
    Truthy(apiKey) && Truthy(id) && Truthy(password)
  }

  // ---------------------------------------------------------------------------
  // Status bar

  /** `str(x)` for an optional string. */
  function OptionText(x: Option<string>): string
  {
    if x.Some? then x.value else "None"
  }

  function StatusText(authd: bool, id: Option<string>): string
  {
    "Status | " + (if authd then "Online | ID: " + OptionText(id) else "Offline |")
  }

  /** Offline reads "Status | Offline |"; online names the identifier; the two never coincide. */
  lemma StatusReportsConnection(id: Option<string>, other: Option<string>)
    ensures StatusText(false, id) == "Status | Offline |"
    ensures id.Some? ==> StatusText(true, id) == "Status | Online | ID: " + id.value
    ensures StatusText(true, id) != StatusText(false, other)
  {
    assert StatusText(true, id)[10] == 'n';
    assert StatusText(false, other)[10] == 'f';
  }

  // ---------------------------------------------------------------------------
  // Command dispatch

  /** What the first word of a command line selects. */
  datatype Command =
    | Blank                        // no words at all
    | SetApiKey(key: seq<string>)  // api <words...>
    | OpenConfig                   // config
    | UpdatePositions              // update
    | Other(name: string)          // a hook name or an unknown command

  function CommandOf(text: string): Command
  {
    var args := Split(text);
    if args == [] then Blank
    else if args[0] == "api" then SetApiKey(args[1..])
    else if args[0] == "config" then OpenConfig
    else if args[0] == "update" then UpdatePositions
    else Other(args[0])
  }

  /** The result of calling a hook: `str(result)`, or the exception it raised. */
  datatype HookResult = HookReturned(text: string) | HookRaised(failure: Client.Failure)

  /** The `authd` hook as the front end evidently means it: report the flag as text. */
  function AuthdHook(authd: bool): HookResult
  {
    HookReturned(BoolText(authd))
  }

  /** As written, `getattr(client, 'authd')()` calls the property's bool value. */
  function AuthdHookAsWritten(authd: bool): HookResult
  {
    HookRaised(Client.Failure(TypeError, "'bool' object is not callable"))
  }

  /** As written, the `authd` hook fails for every client state; the corrected hook never fails and names the state. */
  lemma AuthdHookComparison(authd: bool)
    ensures AuthdHookAsWritten(authd).HookRaised? && AuthdHookAsWritten(authd).failure.kind == TypeError
    ensures AuthdHook(authd).HookReturned?
    ensures AuthdHook(authd).text == "True" <==> authd
  {
  }

  /** What `parse` reached: nothing, a dispatched command, or an exception that escaped it. */
  datatype ParseOutcome = Ignored | Dispatched(command: Command) | Crashed(failure: Client.Failure)

  /**
   * The outcome of one command line, the line it appends to the log, if any,
   * and the front end's client afterwards (None when there is no client).
   */
  datatype Reply = Reply(outcome: ParseOutcome, line: Option<string>, client: Option<Client.Session>)

  /** `str(result)` of what a wrapped client operation gave, or the exception that escaped it. */
  function HookOf(outcome: Client.Called<Client.Outcome>): HookResult
  {
    if outcome.Interrupted? then HookRaised(outcome.failure)
    else if outcome.value.Raised? then HookRaised(outcome.value.failure)
    else HookReturned(Client.PyStr(outcome.value.value))
  }

  /**
   * The `get_positions` hook on the client session `s`: the `check_auth`
   * wrapper around `get('/positions')`, with `loginResp` the server's answer to
   * the re-login and `positionsResp` its answer to the GET.
   */
  function PositionsHook(s: Client.Session, loginResp: Response, positionsResp: Response): (Client.Session, HookResult)
  {
    var checked := Client.CheckAuthSpec(s, loginResp, Client.GetPositionsOp(positionsResp), ());
    (checked.state, HookOf(checked.outcome))
  }

  /** `parse(buf)` on the line `text`, with `client` the state of the front end's client, if it has one. */
  function ParseReply(text: string, client: Option<Client.Session>, loginResp: Response, positionsResp: Response): (r: Reply)
    ensures r.outcome.Ignored? <==> CommandOf(text).Blank?
    ensures r.line.Some? ==> r.outcome.Dispatched?
  {
    match CommandOf(text)
    case Blank => Reply(Ignored, None, client)
    case SetApiKey(key) => Reply(Dispatched(SetApiKey(key)), Some("Added api key"), client)
    case OpenConfig => Reply(Dispatched(OpenConfig), None, client)
    case UpdatePositions =>
      if client.None? then
        Reply(Crashed(Client.Failure(AttributeError, "'NoneType' object has no attribute 'get_positions_profitloss'")),
              None, None)
      else
        var (after, result) := PositionsHook(client.value, loginResp, positionsResp);
        if result.HookRaised? then Reply(Crashed(result.failure), None, Some(after))
        else Reply(Dispatched(UpdatePositions), None, Some(after))
    case Other(name) =>
      if client.None? then
        Reply(Crashed(Client.Failure(AttributeError, "'NoneType' object has no attribute 'cli_hooks'")), None, None)
      else if name in CliHooks then
        var (after, result) :=
          if name == "authd" then (client.value, AuthdHook(Client.Authenticated(client.value)))
          else PositionsHook(client.value, loginResp, positionsResp);
        match result
        case HookRaised(f) => Reply(Crashed(f), None, Some(after))
        case HookReturned(line) => Reply(Dispatched(Other(name)), Some(line), Some(after))
      else
        Reply(Dispatched(Other(name)), Some("Unrecognised command: " + text), client)
  }

  /** A line of whitespace only does nothing at all. */
  lemma BlankLineDoesNothing(text: string, client: Option<Client.Session>, loginResp: Response, positionsResp: Response)
    ensures AllSpace(text) <==> CommandOf(text) == Blank
    ensures AllSpace(text) ==> ParseReply(text, client, loginResp, positionsResp) == Reply(Ignored, None, client)
  {
    SplitEmptyIffBlank(text);
  }

  /** `api k1 k2 ...` stores the remaining words, as a list, and logs "Added api key". */
  lemma ApiStoresRemainingWords(text: string, client: Option<Client.Session>, loginResp: Response, positionsResp: Response)
    requires Split(text) != [] && Split(text)[0] == "api"
    ensures ParseReply(text, client, loginResp, positionsResp) ==
              Reply(Dispatched(SetApiKey(Split(text)[1..])), Some("Added api key"), client)
  {
  }

  /** Any other first word is a whole word of the line: non-empty and without whitespace. */
  lemma CommandNameIsAWord(text: string)
    requires CommandOf(text).Other?
    ensures CommandOf(text).name != [] && NoSpace(CommandOf(text).name)
    ensures CommandOf(text).name !in {"api", "config", "update"}
  {
    SplitTokensAreWords(text);
  }

  /** An unknown command, with a client, logs "Unrecognised command: " and the whole line. */
  lemma UnknownCommandIsReported(text: string, s: Client.Session, loginResp: Response, positionsResp: Response)
    requires CommandOf(text).Other? && CommandOf(text).name !in CliHooks
    ensures ParseReply(text, Some(s), loginResp, positionsResp) ==
              Reply(Dispatched(CommandOf(text)), Some("Unrecognised command: " + text), Some(s))
  {
  }

  /**
   * The `authd` hook logs the client's flag and changes nothing. The
   * `get_positions` hook runs under `check_auth`: the client becomes the
   * session it leaves, its decoded result is logged, and an exception from the
   * re-login or the GET escapes and logs nothing.
   */
  lemma HooksAreInvoked(text: string, s: Client.Session, loginResp: Response, positionsResp: Response)
    requires CommandOf(text).Other? && CommandOf(text).name in CliHooks
    ensures CommandOf(text).name == "authd" ==>
              ParseReply(text, Some(s), loginResp, positionsResp) ==
              Reply(Dispatched(CommandOf(text)), Some(BoolText(Client.Authenticated(s))), Some(s))
    ensures var checked := Client.CheckAuthSpec(s, loginResp, Client.GetPositionsOp(positionsResp), ());
            var reply := ParseReply(text, Some(s), loginResp, positionsResp);
            CommandOf(text).name == "get_positions" ==>
              reply.client == Some(checked.state) &&
              (checked.outcome.Interrupted? ==> reply == Reply(Crashed(checked.outcome.failure), None, Some(checked.state))) &&
              (checked.outcome.Value? && checked.outcome.value.Raised? ==>
                 reply == Reply(Crashed(checked.outcome.value.failure), None, Some(checked.state))) &&
              (checked.outcome.Value? && checked.outcome.value.Returned? ==>
                 reply == Reply(Dispatched(CommandOf(text)), Some(Client.PyStr(checked.outcome.value.value)), Some(checked.state)))
  {
  }

  /**
   * `get_positions` on an unauthenticated client, whose re-login the server
   * accepts, leaves the client logged in with the returned tokens, so that a
   * following `authd` logs "True".
   */
  lemma GetPositionsLogsTheClientIn(getText: string, authdText: string, s: Client.Session,
                                    loginResp: Response, positionsResp: Response,
                                    laterLogin: Response, laterPositions: Response)
    requires CommandOf(getText) == Other("get_positions") && CommandOf(authdText) == Other("authd")
    requires !Client.Authenticated(s)
    requires loginResp.ok && "X-SECURITY-TOKEN" in loginResp.headers && "CST" in loginResp.headers
    ensures var first := ParseReply(getText, Some(s), loginResp, positionsResp);
            first.client.Some? &&
            first.client.value.securityToken == Some(loginResp.headers["X-SECURITY-TOKEN"]) &&
            first.client.value.cst == Some(loginResp.headers["CST"]) &&
            first.client.value.id == Some(s.identifier) &&
            ParseReply(authdText, first.client, laterLogin, laterPositions).line == Some("True")
  {
    Client.LoginOkStoresTokens(s, s.identifier, s.password, loginResp);
  }

  /** Without a client, `update` and every command other than api and config raise AttributeError. */
  lemma NoClientCrashesOnOtherCommands(text: string, loginResp: Response, positionsResp: Response)
    requires CommandOf(text).Other? || CommandOf(text).UpdatePositions?
    ensures ParseReply(text, None, loginResp, positionsResp).outcome.Crashed?
    ensures ParseReply(text, None, loginResp, positionsResp).outcome.failure.kind == AttributeError
    ensures ParseReply(text, None, loginResp, positionsResp).line == None
  {
  }

  /**
   * `update` fetches the positions through the same `check_auth`-wrapped
   * `get_positions` as the hook: the client takes the session it leaves, and an
   * exception from the re-login or the GET escapes. Nothing goes to the log.
   */
  lemma UpdateFetchesPositionsLikeTheHook(text: string, s: Client.Session, loginResp: Response, positionsResp: Response)
    requires CommandOf(text).UpdatePositions?
    ensures var (after, result) := PositionsHook(s, loginResp, positionsResp);
            var reply := ParseReply(text, Some(s), loginResp, positionsResp);
            reply.client == Some(after) && reply.line == None &&
            (result.HookRaised? <==> reply.outcome.Crashed?) &&
            (result.HookRaised? ==> reply.outcome.failure == result.failure)
  {
  }

  /** Only the two commands that fetch positions can change the client; every other line leaves it as it was. */
  lemma OnlyPositionCommandsTouchTheClient(text: string, client: Option<Client.Session>,
                                           loginResp: Response, positionsResp: Response)
    requires CommandOf(text) != Other("get_positions") && CommandOf(text) != UpdatePositions
    ensures ParseReply(text, client, loginResp, positionsResp).client == client
  {
  }

  /** `parse` raises AttributeError exactly for a command it sends to a missing client. */
  lemma AttributeErrorOnlyWithoutClient(text: string, client: Option<Client.Session>,
                                        loginResp: Response, positionsResp: Response)
    ensures var reply := ParseReply(text, client, loginResp, positionsResp);
            (reply.outcome.Crashed? && reply.outcome.failure.kind == AttributeError) <==>
            (client.None? && (CommandOf(text).Other? || CommandOf(text).UpdatePositions?))
  {
  }

  // ---------------------------------------------------------------------------
  // The front-end object

  class IGCLI {
    var authd: bool
    var apiKey: ApiKey
    var id: Option<string>
    var password: Option<string>
    var client: Client.IGClient?
    /** The log pane's document: its text and cursor position. */
    var logText: string
    var cursor: nat

    /** A client exists exactly when the front end calls itself authenticated, which needs an identifier. */
    predicate Valid()
      reads this
    {
      (client != null) == authd && (authd ==> Truthy(id))
    }

    /** The client's state as a session value, None when there is no client. */
    function ClientSession(): Option<Client.Session>
      reads this, client
    {
      if client == null then None else Some(client.State())
    }

    /**
     * The constructor, given the three environment variables: a client is made,
     * and the front end marked authenticated, exactly when all three are present
     * and non-empty.
     */
    constructor (envApiKey: Option<string>, envId: Option<string>, envPassword: Option<string>)
      ensures Valid()
      ensures authd == Bootstraps(envApiKey, envId, envPassword)
      ensures client != null ==> fresh(client) && !client.Authd() &&
                                 client.State() == Client.Session(envApiKey.value, envId.value, envPassword.value,
                                                                  None, None, None)
      ensures apiKey == FromEnv(envApiKey) && id == envId && password == envPassword
      ensures logText == "" && cursor == 0
    {
      apiKey := FromEnv(envApiKey);
      id := envId;
      password := envPassword;
      logText := "";
      cursor := 0;
      if Truthy(envApiKey) && Truthy(envId) && Truthy(envPassword) {
        client := new Client.IGClient(envApiKey.value, envId.value, envPassword.value);
        authd := true;
      } else {
        client := null;
        authd := false;
      }
    }

    /** The `status` property. */
    function Status(): (s: string)
      reads this
      ensures |s| > 9 && s[..9] == "Status | "
    {
      StatusText(authd, id)
    }

    /** `append_logging(text)`: the text goes on a new line and the cursor to the end. */
    method AppendLogging(text: string)
      modifies this`logText, this`cursor
      ensures logText == old(logText) + "\n" + text
      ensures cursor == |logText|
    {
      logText := logText + "\n" + text;
      cursor := |logText|;
    }

    /** `set_api(api_key)`. */
    method SetApi(words: seq<string>)
      modifies this`apiKey
      ensures apiKey == Words(words)
    {
      apiKey := Words(words);
    }

    /**
     * `parse(buf)` on the line `text`. `loginResp` and `positionsResp` are the
     * server's answers to the re-login and to the GET that the `get_positions`
     * hook may send.
     */
    method Parse(text: string, loginResp: Response, positionsResp: Response) returns (outcome: ParseOutcome)
      requires Valid()
      modifies this`logText, this`cursor, this`apiKey, client
      ensures Valid()
      ensures var reply := ParseReply(text, old(ClientSession()), loginResp, positionsResp);
              outcome == reply.outcome && ClientSession() == reply.client &&
              (reply.line.Some? ==> logText == old(logText) + "\n" + reply.line.value && cursor == |logText|) &&
              (reply.line.None? ==> logText == old(logText) && cursor == old(cursor))
      ensures apiKey == if CommandOf(text).SetApiKey? then Words(CommandOf(text).key) else old(apiKey)
      ensures (outcome.Crashed? && outcome.failure.kind == AttributeError) <==>
              (!authd && (CommandOf(text).Other? || CommandOf(text).UpdatePositions?))
    {
      AttributeErrorOnlyWithoutClient(text, ClientSession(), loginResp, positionsResp);
      var args := Split(text);
      if args == [] {
        return Ignored;
      }
      if args[0] == "api" {
        SetApi(args[1..]);
        AppendLogging("Added api key");
        return Dispatched(SetApiKey(args[1..]));
      } else if args[0] == "config" {
        return Dispatched(OpenConfig);
      } else if args[0] == "update" {
        if client == null {
          return Crashed(Client.Failure(AttributeError, "'NoneType' object has no attribute 'get_positions_profitloss'"));
        }
        var _, checked := client.CheckAuth(loginResp, Client.GetPositionsOp(positionsResp), ());
        var result := HookOf(checked.outcome);
        if result.HookRaised? {
          return Crashed(result.failure);
        }
        return Dispatched(UpdatePositions);
      }
      if client == null {
        return Crashed(Client.Failure(AttributeError, "'NoneType' object has no attribute 'cli_hooks'"));
      }
      if args[0] in CliHooks {
        var result;
        if args[0] == "authd" {
          result := AuthdHook(client.Authd());
        } else {
          var _, checked := client.CheckAuth(loginResp, Client.GetPositionsOp(positionsResp), ());
          result := HookOf(checked.outcome);
        }
        if result.HookRaised? {
          return Crashed(result.failure);
        }
        AppendLogging(result.text);
      } else {
        AppendLogging("Unrecognised command: " + text);
      }
      outcome := Dispatched(Other(args[0]));
    }
  }
}
