# IGAPI-Python request layer, in Dafny

A model of the session-authenticated core of the IG trading-API client and of
the deterministic parts of its terminal front end:

- `IGClient` (`client.dfy`, module `Client`). It holds the API key, the
  session token pair (`X-SECURITY-TOKEN`, `CST`) and the identifier of the
  last login. It builds the headers of every call and the per-verb `VERSION`
  tag. It classifies failed responses into the error taxonomy and quotes
  booleans in request bodies. `check_auth` re-authenticates once before a
  guarded operation, and the profit/loss of open positions is derived in place.
- The error taxonomy (`exceptions.dfy`, module `Exceptions`). This is the fixed
  table from HTTP status to error class, with the client's fallback to plain
  `Exception`.
- The `req_auth` guard (`utils.dfy`, module `Utils`).
- `IGCLI` (`cli.dfy`, module `Cli`). It covers the bootstrap from three
  credentials, the status-bar text, the dispatch of a command line on its first
  word, and appending to the log pane.
- Supporting modules: `common.dfy` (`Option`, the event trace of the guards,
  Python truthiness), `strings.dfy` (`str(int)`, `str.replace`, `str.split()`)
  and `http.dfy` (JSON values and the response and request records).

An HTTP exchange is modelled as values. Each operation takes the server's
response as an input record `Response(ok, status, body, headers)`, with a body
that is either decoded JSON or unparseable text. Each operation returns the
`Request` it would have sent. `ok` is an input, as in the library.
`Http.RequestsOk` gives the library's own rule (false exactly for statuses
400–599), and `Http.Consistent` ties the two together.

The client is a class with `Option<string>` token fields. `State()` views those
fields as a `Session` value. Each method is specified by a function on
`Session` (`HeadersFor`, `LoginStep`, `CheckAuthSpec`), and the properties are
lemmas about those functions.

Where the code differs from what its names suggest, the model follows the code:

- `authd` is true when both tokens are *not None*, so an empty token counts.
  The token headers, however, need both tokens to be *truthy*.
- "ok" is the library's flag, not "2xx".
- A failed login leaves the tokens as they were. It does not clear them.
- An ok response with a non-JSON body raises `JSONDecodeError`. A failed
  response whose JSON lacks `errorCode` lets `KeyError` escape, and one whose
  JSON is not an object lets `TypeError` escape. None of these becomes the
  generic error.
- The front end sets its own `authd` flag to true when the three credentials
  are present, before any login. The status bar therefore reads "Online" for a
  client whose own `authd` is false.
- The body fix is plain text replacement. A `: true` inside a JSON string value
  is rewritten as well.

## Model

| member | source | states |
|---|---|---|
| `Client.IGClient.constructor` | igapi/client.py:20-27 | A new client holds the API key and the credentials and has no id and no tokens, so `authd` is false. This is the three-argument form the front end calls. |
| `Client.IGClient.GetHeaders` | igapi/client.py:85-96 | The headers it builds are exactly `HeadersFor` of the client's current state. |
| `Client.HeadersAlwaysCarryBase` | igapi/client.py:86-92 | Every header set carries User-Agent, Content-Type, Accept (with the trailing space) and `X-IG-API-KEY` = the API key. |
| `Client.TokenHeadersIffTruthy` | igapi/client.py:93-95 | `X-SECURITY-TOKEN` and `CST` are present iff both tokens are truthy, and they then carry the tokens. The key set is exactly the base keys plus these two. |
| `Client.EmptyTokenAuthenticatedWithoutTokenHeaders` | igapi/client.py:29-33 | With an empty security token, `authd` is true yet neither token header is sent. |
| `Client.VersionHeaderNamesVersion` | igapi/client.py:39 | VERSION is added to the headers and reads back (`int`) as the version. Every other header is unchanged. |
| `Client.VersionTags` | igapi/client.py:73-83 | Version 1 is sent as "1" and the default version as "2". |
| `Client.IGClient.RawGet` | igapi/client.py:35-50 | Any verb other than 'get'/'delete' fails the assertion and sends nothing. Otherwise the call goes to base URL + endpoint with the params, the headers plus `VERSION = str(version)` and no body, and the response is classified. |
| `Client.IGClient.RawPost` | igapi/client.py:52-71 | Any verb other than 'post'/'put' fails the assertion. Otherwise the same, with the serialised body after the boolean fix. |
| `Client.IGClient.Get` | igapi/client.py:73-74 | GET with the caller's version in VERSION. |
| `Client.IGClient.Delete` | igapi/client.py:76-77 | DELETE, always VERSION "2". |
| `Client.IGClient.Post` | igapi/client.py:79-80 | POST, always VERSION "2", and the body sent contains no `: true` and no `: false`. |
| `Client.IGClient.Put` | igapi/client.py:82-83 | PUT, always VERSION "2", and the body sent contains no `: true` and no `: false`. |
| `Client.Classify` | igapi/client.py:43-50 | The tail of `_get`/`_post`: a value is returned only for an ok response with a JSON body, and a failed response always raises. |
| `Client.ClassifyReturnsOnlyOkBodies` | igapi/client.py:43-44 | A call returns a value iff the response is ok with a JSON body, and the value is that body. |
| `Client.ClassifyErrorCode` | igapi/client.py:45-48 | A failed response with a JSON `errorCode` raises `status_code_exceptions.get(status, Exception)` with message `Error {status}: {errorCode}`. |
| `Client.ClassifyRawText` | igapi/client.py:49-50 | A failed response with a non-JSON body raises plain Exception with `Error {status}: {raw text}`. |
| `Client.ClassifyMissingErrorCode` | igapi/client.py:46 | A failed response whose JSON object lacks `errorCode` lets KeyError('errorCode') escape. |
| `Client.ClassifyFailedStatusRaises` | igapi/client.py:43-50 | When `ok` is the library's flag, every 4xx or 5xx status raises, whatever the body. A non-JSON body raises plain Exception. |
| `Client.ClassifyConsistentResponse` | igapi/client.py:64-69 | When `ok` is the library's flag, each of the four mapped statuses with a JSON object body carrying `errorCode` raises its own class, naming the code. |
| `Client.NotFoundNamesErrorCode` | igapi/client.py:47-48 | A failed 404 whose JSON object carries errorCode "X", among any other fields, raises NotFoundError whose message ends with "X". |
| `Client.ErrorTextRoundTrip` | igapi/client.py:48 | The message `Error {status}: {detail}` reads back as exactly that status and detail. |
| `Client.FixBooleans` | igapi/client.py:59 | The two chained replaces; the body only grows, since each replacement is longer than its pattern. |
| `Client.FixBooleansLeavesNoNativeBooleans` | igapi/client.py:57-59 | After the fix no `: true` and no `: false` remains anywhere in the body. |
| `Client.FixBooleansKeepsOtherText` | igapi/client.py:59 | A body with no `: true` and no `: false` is sent unchanged. |
| `Client.FixBooleansIdempotent` | igapi/client.py:59 | Fixing an already fixed body changes nothing. |
| `Client.IGClient.Login` | igapi/client.py:98-106 | Sends POST /session with the current headers and the credentials as JSON. The new state and result are `LoginStep` of the old state, the credentials and the response. |
| `Client.LoginOkStoresTokens` | igapi/client.py:101-105 | An ok response with both headers stores `X-SECURITY-TOKEN`, `CST` and the identifier, authenticates and returns True. |
| `Client.LoginRejectedKeepsSession` | igapi/client.py:101-106 | A non-ok response returns False with tokens and `_id` unchanged. Only the attempted credentials are cached. |
| `Client.LoginCachesCredentials` | igapi/client.py:98-106 | Every login attempt caches its identifier and password, whatever the response, and leaves the API key alone. |
| `Client.LoginRaisingDoesNotAuthenticate` | igapi/client.py:102-104 | A missing token header raises KeyError before `_id` and CST are set. It never authenticates a session that had no CST. |
| `Client.IGClient.CheckAuth` | igapi/client.py:9-14 | The result and new state are `CheckAuthSpec` of the old state. The login request is sent iff the client was unauthenticated, and it carries the cached credentials (`ReloginRequest`). |
| `Client.ReloginReplaysLastCredentials` | igapi/client.py:12 | After a login attempt that leaves the client unauthenticated, the next re-login sends exactly that attempt's credentials. |
| `Client.CheckAuthSkipsLoginWhenAuthenticated` | igapi/client.py:11-13 | Authenticated: no login, and the operation runs once on the unchanged session. |
| `Client.CheckAuthLogsInOnceThenRuns` | igapi/client.py:11-13 | Unauthenticated: exactly one login, then the operation runs on the resulting session whatever login returned, and its result is returned. |
| `Client.CheckAuthRejectedLoginStillRuns` | igapi/client.py:12-13 | A rejected re-login still runs the operation, on the unchanged session. |
| `Client.CheckAuthVersusReqAuth` | igapi/utils.py:5-9 | Unauthenticated: `check_auth` logs in, while `req_auth` neither logs in, returns anything, nor changes the object. Authenticated: the two behave alike. |
| `Client.CheckAuthAsWrittenNeverRunsUnauthenticated` | igapi/client.py:12 | As written, an unauthenticated guarded call raises TypeError and the operation never runs. |
| `Client.ThreeArgumentConstructionFails` | igapi/client.py:20 | As written, `IGClient(key, id, password)` raises TypeError, and only one argument is accepted. |
| `Client.WithProfitLoss` | igapi/client.py:118-126 | One pass of the loop body: the record is unchanged except for its profitloss entry. |
| `Client.AnnotateProfitLoss` | igapi/client.py:117-127 | Each position record in the list is replaced in place by its derived form. Length and order are kept. |
| `Client.ClosedMarketIsUnavailable` | igapi/client.py:118-119 | A CLOSED market gets profitloss '-'. |
| `Client.ProfitLossSign` | igapi/client.py:120-126 | Open BUY gets bid − level, open SELL gets level − offer, each positive iff the price moved the trader's way. Any other direction leaves the record unchanged. |
| `Client.ProfitLossTouchesOnlyItsEntry` | igapi/client.py:117-126 | Only the profitloss entry changes, and deriving twice equals deriving once. |
| `Client.ProfitLossExamples` | igapi/client.py:121-126 | BUY at 100 with bid 105 gives 5. SELL at 100 with offer 107 gives −7. |
| `Exceptions.MappedStatuses` | app/IGAPI-Python/exceptions.py:13-18 | The table's keys are exactly 400, 401, 403 and 404. |
| `Exceptions.MappedKinds` | app/IGAPI-Python/exceptions.py:14-17 | 400→BadRequestError, 401→UnauthorisedError, 403→ForbiddenError, 404→NotFoundError. |
| `Exceptions.UnmappedFallsBack` | igapi/client.py:47 | Every other status falls back to plain Exception. |
| `Exceptions.MappingInjective` | app/IGAPI-Python/exceptions.py:1-18 | Distinct mapped statuses give distinct classes. |
| `Exceptions.MappedAreClientErrors` | app/IGAPI-Python/exceptions.py:13-18 | Every mapped status is a 4xx code. |
| `Exceptions.StatusRoundTrip` | app/IGAPI-Python/exceptions.py:13-18 | The table and `StatusOf` are inverse on the four classes. Unmapped statuses map to a class with no status. |
| `Utils.ReqAuth` | igapi/utils.py:3-10 | One guarded call records exactly one event and returns a value iff the object is authenticated. |
| `Utils.UnauthenticatedCallIsRefused` | igapi/utils.py:6-8 | Unauthenticated: returns None, never invokes the operation, and leaves the object unchanged. |
| `Utils.AuthenticatedCallPassesThrough` | igapi/utils.py:9 | Authenticated: invokes the operation exactly once with the same arguments and returns its result unchanged. |
| `Utils.WarnsIffUnauthenticated` | igapi/utils.py:6-7 | The warning is logged iff the call is unauthenticated. |
| `Utils.NeverLogsIn` | igapi/utils.py:5-10 | The guard never attempts a login. |
| `Strings.IntToStringRoundTrip` | igapi/client.py:39 | `int(str(v)) == v`, so the VERSION text names exactly one version. |
| `Strings.SplitTokensAreWords` | igapi/cli.py:125 | Every token of `split()` is non-empty and contains no whitespace. |
| `Strings.SplitKeepsEveryOtherCharacter` | igapi/cli.py:125 | Gluing the tokens back together gives exactly the non-whitespace characters, in order. |
| `Strings.SplitEmptyIffBlank` | igapi/cli.py:125-126 | `split()` is empty iff the line is all whitespace. |
| `Cli.IGCLI.constructor` | igapi/cli.py:49-60 | `authd` is true, and a fresh unauthenticated client exists, iff the API key, id and password are all present and non-empty. Otherwise there is no client and `authd` is false. |
| `Cli.IGCLI.Status` | igapi/cli.py:113-120 | The status bar text always starts with "Status \| " (then `StatusText`, proved in the next row). |
| `Cli.StatusReportsConnection` | igapi/cli.py:113-120 | Offline reads "Status \| Offline \|". Online reads "Status \| Online \| ID: " + id. The two never coincide. |
| `Cli.ParseReply` | igapi/cli.py:123-138 | `parse` as a function of the line and the client's state: nothing happens exactly for a line with no words, and a line is logged only for a dispatched command. |
| `Cli.BlankLineDoesNothing` | igapi/cli.py:125-126 | A line with no tokens dispatches nothing and logs nothing, and such lines are exactly the all-whitespace ones. |
| `Cli.ApiStoresRemainingWords` | igapi/cli.py:127-129 | `api ...` stores the remaining tokens as a list and logs "Added api key". |
| `Cli.CommandNameIsAWord` | igapi/cli.py:125-134 | Any other first token is a non-empty word, distinct from api, config and update. |
| `Cli.UnknownCommandIsReported` | igapi/cli.py:137-138 | A first token that is not a hook logs "Unrecognised command: " + the whole line. |
| `Cli.HooksAreInvoked` | igapi/cli.py:135-136 | `authd` logs `str(client.authd)` and changes nothing. `get_positions` runs under `check_auth`: the client takes the session it leaves, `str()` of the decoded result is logged (containers abbreviated), and an exception from the re-login or the GET escapes and logs nothing. |
| `Cli.GetPositionsLogsTheClientIn` | igapi/cli.py:135-136 | On an unauthenticated client whose re-login is accepted, `get_positions` stores the returned tokens and the identifier, and a following `authd` logs "True". |
| `Cli.UpdateFetchesPositionsLikeTheHook` | igapi/cli.py:158-160 | `update` fetches the positions through the `check_auth`-wrapped `get_positions`. The client takes the session that call leaves, an exception from the re-login or the GET escapes, and nothing is logged. |
| `Cli.OnlyPositionCommandsTouchTheClient` | igapi/cli.py:123-138 | Every line other than `get_positions` and `update` leaves the client's session as it was. |
| `Cli.AttributeErrorOnlyWithoutClient` | igapi/cli.py:135 | `parse` raises AttributeError exactly when there is no client and the first word is not api or config. |
| `Cli.NoClientCrashesOnOtherCommands` | igapi/cli.py:135 | Without a client, `update` and any command other than api and config raise AttributeError. |
| `Cli.AuthdHookComparison` | igapi/cli.py:136 | As written, the `authd` hook raises TypeError in every state. The corrected hook returns "True" iff authenticated. |
| `Cli.IGCLI.AppendLogging` | igapi/cli.py:141-144 | The log text becomes old + "\n" + text, with the cursor at its end. |
| `Cli.IGCLI.SetApi` | igapi/cli.py:147-148 | The API key field becomes the given word list. |
| `Cli.IGCLI.Parse` | igapi/cli.py:123-138 | Keeps `Valid`. The outcome, the logged line and the client's new state are `ParseReply` of the line and the client's old state. The API key changes only for `api`. AttributeError escapes exactly when the front end is not authenticated and the command goes to the client (`update` or a hook or unknown command). |

## Findings

| source | as written | input that shows it | evidently intended | confidence | as-written member | corrected member |
|---|---|---|---|---|---|---|
| igapi/client.py:12 | `check_auth` calls `self.login()` with no arguments, but `login` requires `identifier` and `password` | any `check_auth`-wrapped call (e.g. `get_positions`) on a client that is not authenticated | log in once with the cached credentials, then run the operation | high, not executed | `Client.CheckAuthAsWrittenNeverRunsUnauthenticated` | `Client.CheckAuthLogsInOnceThenRuns` |
| igapi/cli.py:55 | `IGClient(api_key, id, password)`, but `IGClient.__init__` takes only `api_key` (igapi/client.py:20) | `IG_API_KEY`, `IG_ID` and `IG_PWD` all set | a client constructed with the three credentials, unauthenticated until it logs in | high, not executed | `Client.ThreeArgumentConstructionFails` | `Client.IGClient.constructor` |
| igapi/cli.py:136 | `getattr(self.client, 'authd')()` calls the value of the `authd` property, a bool | the command line `authd` | log `str(client.authd)` | high, not executed | `Cli.AuthdHookComparison` | `Cli.HooksAreInvoked` |

The corrected forms are the ones the rest of the model uses. The client caches
the last credentials supplied, to the three-argument constructor or to any login
attempt, whether it succeeded or not. `IGClient.CheckAuth` replays those. This
caching is a choice of the model: the code as written caches nothing, so the
code offers no policy to follow. `IGCLI.Parse` logs `str(authd)` for the
`authd` hook. For both the `get_positions` hook and `update` it runs
`get_positions` through the corrected `check_auth`, so either command can log
the front end's client in.

## Left out

- The HTTP calls themselves (`requests.get/post/put/delete`) and the network. The response is an input, and connection failures and timeouts are not modelled.
- `json.dumps` and `r.json()` internals. Request bodies for `post`/`put` are taken already serialised. The login body is recorded as the JSON value given to `json.dumps`. JSON numbers are integers only.
- `Classify`: the JSONDecodeError raised for an ok response with a non-JSON body carries the decoder's diagnostic. That diagnostic is not modelled, and the message is left empty.
- `PyStr`: `str()` of an errorCode that is a JSON list or object is abbreviated to `[...]` / `{...}` instead of Python's repr.
- `Cli.HooksAreInvoked`: the log line of the `get_positions` hook is `PyStr` of the decoded result, so a dict or list result is logged as `{...}` / `[...]` rather than its full repr. A `map` has no insertion order to render.
- Response headers are an exact-key map. The library's case-insensitive header lookup is not modelled. The KeyError messages of `login` carry the lower-cased key, as that lookup raises them.
- `AnnotateProfitLoss`: models the loop of `get_positions_profitloss` (igapi/client.py:117-126) on decoded position records. It does not model the `/positions` fetch, `['positions']`, the per-field dictionary lookups (and their KeyErrors), or IEEE floats. Prices are exact reals.
- The other domain operations (igapi/client.py:108-259) are not modelled one by one: `get_accounts`, `get_position`, `add_position`, `get_activity`, `get_last_activity`, `get_transactions`, `get_working_orders`, `add_working_order`, `edit_working_order`, `delete_working_order`, `get_markets`, `get_market`, `search_market`, `get_prices`, `get_prices_date`, `get_client_sentiment`, `get_client_sentiment_related` and `get_application`. Each makes one verb call, under `check_auth` except `get_accounts`, with a path, params and body built from its arguments. `get_last_activity` also indexes `['activities'][0]` of the result of `get_activity`, and `get_prices_date` takes its default dates from the wall clock.
- `RepeatTimer`, the `stop_threads` event, the `__call__` start-up and `__del__` (igapi/cli.py:28-42, 190-206). This is thread scheduling and is not modelled.
- The prompt_toolkit layout, styles, key bindings and the event-loop set-up (igapi/cli.py:6-23, 62-110). These are UI.
- `config` (igapi/cli.py:152-154) builds a `Dialog` that is never imported. The model records only that `config` was dispatched.
- `update_positions` (igapi/cli.py:158-182): the model covers its positions fetch, that is, the `check_auth` re-login, the GET and the AttributeError when there is no client. It does not cover the `['positions']` lookup, the profit/loss pass over the result, or the `.2f` formatting into the positions pane, so the exceptions these steps raise are not modelled. They include KeyError('positions') for a result without that key, and KeyError('profitloss') for a direction other than BUY or SELL. They also include a TypeError from `'-' > 0` for a position in a CLOSED market (igapi/cli.py:172). `Dispatched(UpdatePositions)` means the fetch returned.
- `GetPositionsOp`: the GET that `get_positions` sends is represented only by its classified outcome. Its request record, whose headers would carry the session left by the re-login, is not produced.
- Logging calls. The `req_auth` warning is an event in the call trace.
- The relative import `.exceptions` (igapi/client.py:6) names a module beside the client, while the taxonomy shown lives in app/IGAPI-Python/exceptions.py. The model uses that file's table.
