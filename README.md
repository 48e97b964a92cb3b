# A verified model of the go-practice3 request pipeline

This project models the core of the `go-practice3` service in Dafny. The service
is a small HTTP API.

- **Configuration.** `Load` reads its settings from the environment. Every
  setting has a default except `API_KEY`, whose absence aborts start-up.
- **Logging.** The leveled logger has a process-wide threshold. DEBUG, INFO and
  WARN lines go to standard output and ERROR lines to standard error.
- **Locale resolution.** Three message bundles exist: `en`, `ru` and `kk`. A
  request's bundle is chosen from the primary tag of its `Accept-Language`
  header. The fallback locale is set at start-up.
- **API-key gate.** It logs every request. A wrong `X-API-Key` header gets 401
  with the localized `Unauthorized` message. A matching key forwards the request
  unchanged to the wrapped handler.
- **Resource handlers.**
  - `GetUser` answers 200 with the parsed `id`, or 400 with `InvalidID`.
  - `CreateUser` answers 201 echoing the name, or 400 with `InvalidName`.

The files follow the source's packages:

| file | models |
|---|---|
| `wrappers.dfy` | `Option` and `Result` |
| `text.dfy` | the part of Go's `strings` the service uses |
| `strconv.dfy` | `strconv.Atoi`/`Itoa` on a 64-bit `int` |
| `i18n.dfy` | `internal/i18n` |
| `logging.dfy` | `internal/logger` |
| `http.dfy` | requests, responses, and a recording `ResponseWriter` |
| `handlers.dfy` | `internal/handlers` |
| `middleware.dfy` | `internal/middleware` |
| `config.dfy` | `internal/config` |

**Package state.** The source keeps state in package-level variables. The model
turns each such package into a class.

- `I18n.Catalog` holds `defaultLang`.
- `Logging.Logger` holds:
  - the threshold;
  - whether `Init` has created the output handles;
  - the lines written to each stream.
- `Http.ResponseWriter` records the header map, the statuses and the bodies it
  receives.

**Specification and proofs.** Each handler is specified by a pure function that
returns an `Outcome`:

- the log calls made before the response is written;
- the response (content type, status, body);
- the log calls made after it.

`Handlers.Performed` states what a call did to the logger and the writer:

- every log call passed through the threshold to its stream;
- the writer received the JSON content type, one status and one body.

The handler methods and the gate's method are proved to perform exactly their
`Outcome`. The lemmas then state the service's promises about those functions.

**Accepted ids.** `GetUser` accepts every 64-bit integer that `strconv.Atoi`
accepts, negative ones and a leading `+` included.
`Handlers.GetUserAcceptsEveryInt` states that.

## Model

| member | source | states |
|---|---|---|
| `Text.LowerChar` | internal/i18n/i18n.go:40 | ASCII capitals, KELVIN SIGN and the capital I with dot above become their ASCII lower-case letters; every other character is kept; no result is one of those capitals |
| `Text.ToLower` | internal/i18n/i18n.go:40 | the result has the input's length and is the input lower-cased character by character |
| `Text.ToLowerIdempotent` | internal/i18n/i18n.go:62 | lower-casing twice is lower-casing once |
| `Text.ToLowerKeepsNonLetters` | internal/i18n/i18n.go:56-62 | a character that is not a letter occurs in the lower-cased string exactly when it occurs in the input |
| `Text.TrimSpace` | internal/i18n/i18n.go:55 | the result is the slice after the leading white space; only white space follows it; it neither starts nor ends with white space |
| `Text.TrimSpaceIdempotent` | internal/i18n/i18n.go:55 | trimming a trimmed string changes nothing |
| `Text.IndexOf` | internal/i18n/i18n.go:56 | the result is -1 exactly when the character is absent; otherwise it is the first position holding the character |
| `Text.Before` | internal/i18n/i18n.go:56-61 | the result is a prefix without the character; when the character occurs, it is the character that follows the prefix; when it does not, the result is the whole string |
| `Text.IndexOfLower` | internal/i18n/i18n.go:56-62 | lower-casing does not move the first `;` or `-`, nor any other character that is not a letter |
| `Text.BeforeOfLower` | internal/i18n/i18n.go:56-62 | cutting at `;` or `-` and lower-casing give the same result in either order |
| `Text.Split` | internal/i18n/i18n.go:53 | there is at least one piece, and the first piece is the text before the first separator |
| `Text.SplitPiecesLackSeparator` | internal/i18n/i18n.go:53 | no piece contains the separator |
| `Text.JoinSplit` | internal/i18n/i18n.go:53 | joining the pieces with the separator gives back the input |
| `Text.SplitCons` | internal/i18n/i18n.go:53 | a separator-free head, the separator and a rest split into the head followed by the pieces of the rest |
| `Text.SplitJoin` | internal/i18n/i18n.go:53 | splitting a join of separator-free pieces gives back the pieces |
| `Strconv.Atoi` | internal/handlers/user.go:24 | a parsed value lies in the 64-bit `int` range |
| `Strconv.NatDigits` | internal/handlers/user.go:33 | the rendering is a non-empty digit string without a leading zero whose value is the number |
| `Strconv.Itoa` | internal/handlers/user.go:33 | the rendering is non-empty, starts with `-` exactly for negative numbers, and its digits are the canonical digits of the absolute value; a non-negative number is rendered by its digits alone, with no `+` |
| `Strconv.AtoiExactly` | internal/handlers/user.go:24 | `Atoi(s)` is `n` exactly when `n` is in range and `s` is an optional sign, any number of zeros and the canonical digits of `n`, with `-` required for a negative `n` and allowed only when `n` is not positive |
| `Strconv.AtoiCanonical` | internal/handlers/user.go:24 | an accepted string is some zeros and the canonical digits of its value after a fitting sign |
| `Strconv.AtoiOfPadded` | internal/handlers/user.go:24 | some zeros and the canonical digits of an `int`, after a fitting sign, are accepted |
| `Strconv.AtoiLeadingZeros` | internal/handlers/user.go:24 | `"007"` gives 7 and `"-0"` gives 0 |
| `Strconv.AtoiItoa` | internal/handlers/user.go:24 | every 64-bit `int` survives the round trip through its decimal rendering |
| `Strconv.AtoiPlusItoa` | internal/handlers/user.go:24 | a leading `+` on a non-negative number is accepted |
| `Strconv.AtoiRejectsOutOfRange` | internal/handlers/user.go:24-25 | the rendering of a number outside the 64-bit range is refused |
| `Strconv.AtoiRejectsMalformed` | internal/handlers/user.go:24-25 | the empty string, a lone sign, and a non-digit after the sign are refused |
| `Strconv.AtoiRejectsSpace` | internal/handlers/user.go:24-25 | a string that starts or ends with a white-space character, as `unicode.IsSpace` defines it, is refused |
| `I18n.BundlesComplete` | internal/i18n/i18n.go:13-29 | each of `en`, `ru`, `kk` has non-empty `Unauthorized`, `InvalidID` and `InvalidName` |
| `I18n.Lookup` | internal/i18n/i18n.go:46 | indexing the table with a key of the table gives that key's bundle, which is complete; any other code gives the zero bundle |
| `I18n.Catalog.constructor` | internal/i18n/i18n.go:5 | before `Init` the fallback locale is the empty string |
| `I18n.Catalog.Init` | internal/i18n/i18n.go:31-37 | the fallback becomes the lower-cased argument when the table has it, `en` otherwise, and is a key of the table |
| `I18n.Catalog.Get` | internal/i18n/i18n.go:39-47 | a code whose lower-case form is in the table yields that bundle; any other code, `""` included, yields the fallback's entry |
| `I18n.GetIgnoresCase` | internal/i18n/i18n.go:40 | codes equal up to ASCII case give the same bundle |
| `I18n.GetUpperCase` | internal/i18n/i18n.go:39-45 | `Get("RU") == Get("ru")`, the Russian bundle |
| `I18n.GetKelvinSign` | internal/i18n/i18n.go:39-45 | two KELVIN SIGNs select the `kk` bundle, as Go's lower-casing maps that sign to `k` |
| `I18n.GetAfterInit` | internal/i18n/i18n.go:39-46 | after `Init`, every code resolves to a complete bundle of the table, and a code the table lacks resolves to the fallback locale's own bundle |
| `I18n.GetBeforeInit` | internal/i18n/i18n.go:46 | before `Init`, an unsupported or empty code resolves to the zero bundle with empty messages |
| `I18n.ParseAcceptLanguage` | internal/i18n/i18n.go:49-65 | has no contract of its own; its result is stated by `I18n.ParsedTagShape`, `I18n.ParseSteps` and `I18n.PrimaryTag` |
| `I18n.ParsedTagShape` | internal/i18n/i18n.go:49-65 | an empty value gives `""`; the result never contains `,`, `;` or `-` and is lower-case |
| `I18n.ParseSteps` | internal/i18n/i18n.go:53-62 | a non-empty value is split at `,`, trimmed, cut at `;`, cut at `-` and lower-cased, in that order |
| `I18n.PrimaryTag` | internal/i18n/i18n.go:53-62 | a value starting with a tag, followed by nothing, a subtag, a parameter or the next item, yields the lower-cased tag |
| `I18n.LowerTag` | internal/i18n/i18n.go:53-62 | a lower-case tag in that position parses to itself |
| `I18n.ParseRegionAndQuality` | internal/i18n/i18n.go:49-65 | `"en-US,fr;q=0.9"` yields `"en"` |
| `I18n.ParseUpperCase` | internal/i18n/i18n.go:62 | `"RU"` yields `"ru"` |
| `I18n.ParseIdempotent` | internal/i18n/i18n.go:49-65 | a result without white space at its ends parses to itself |
| `I18n.ParseKeepsSpaceBeforeParameter` | internal/i18n/i18n.go:55-58 | trimming happens before the `;` cut, so white space before a parameter stays in the tag |
| `I18n.ParseQuotedSpaceExample` | internal/i18n/i18n.go:55-58 | `"ru ;q=0.9"` yields `"ru "` |
| `Logging.LevelsStrictlyOrdered` | internal/logger/logger.go:11-16 | DEBUG < INFO < WARN < ERROR, and the rank identifies the level |
| `Logging.ParseLevel` | internal/logger/logger.go:32-43 | the selected threshold is INFO or the level whose name the lower-cased input is |
| `Logging.ParseLevelName` | internal/logger/logger.go:32-40 | each level is selected by its name in any mix of ASCII case |
| `Logging.ParseLevelDefault` | internal/logger/logger.go:41-42 | any other name selects INFO |
| `Logging.ParseLevelExamples` | internal/logger/logger.go:32-43 | `"WARN"` gives WARN, `"Debug"` gives DEBUG, `"trace"` gives INFO |
| `Logging.Stdout` | internal/logger/logger.go:46-62 | standard output receives at most one line per call |
| `Logging.Stderr` | internal/logger/logger.go:64-68 | the error stream receives at most one line per call |
| `Logging.StdoutMembers` | internal/logger/logger.go:46-62 | standard output receives exactly the calls at or above the threshold that are not ERROR |
| `Logging.StderrMembers` | internal/logger/logger.go:64-68 | the error stream receives exactly the ERROR calls, whatever the threshold |
| `Logging.StdoutAppend` | internal/logger/logger.go:46-62 | filtering a sequence of calls is filtering each part, in order |
| `Logging.StderrAppend` | internal/logger/logger.go:64-68 | the same for the error stream |
| `Logging.OneCall` | internal/logger/logger.go:46-68 | one call writes one line, on its level's stream, when its level is enabled, and nothing otherwise |
| `Logging.ErrorAlwaysEmitted` | internal/logger/logger.go:64-68 | an ERROR call is written to the error stream under every threshold |
| `Logging.Logger.constructor` | internal/logger/logger.go:18-24 | before `Init` there are no handles, the threshold is DEBUG (Go's zero value), and both streams are empty |
| `Logging.Logger.Init` | internal/logger/logger.go:26-44 | the handles exist, the threshold is the parsed level, and nothing is written |
| `Logging.Logger.Debug` | internal/logger/logger.go:46-50 | standard output grows by the DEBUG line exactly when DEBUG is enabled |
| `Logging.Logger.Info` | internal/logger/logger.go:52-56 | standard output grows by the INFO line exactly when INFO is enabled |
| `Logging.Logger.Warn` | internal/logger/logger.go:58-62 | standard output grows by the WARN line exactly when WARN is enabled |
| `Logging.Logger.Error` | internal/logger/logger.go:64-68 | the error stream grows by the ERROR line |
| `Http.HeaderValue` | internal/middleware/auth.go:18 | an absent header reads as `""`, a present one as its value |
| `Http.QueryValue` | internal/handlers/user.go:15 | an absent query parameter reads as `""`, a present one as its value |
| `Http.ResponseWriter.SetHeader` | internal/handlers/user.go:18 | the header map is updated at that key |
| `Http.ResponseWriter.WriteHeader` | internal/handlers/user.go:19 | the status is recorded after the earlier ones |
| `Http.ResponseWriter.Encode` | internal/handlers/user.go:20 | the body is recorded after the earlier ones |
| `Http.ResponseWriter.WriteJson` | internal/handlers/user.go:18-20 | the JSON content type, the status and the body are all recorded |
| `Handlers.Localize` | internal/handlers/user.go:12-13 | has no contract of its own: the bundle of the request's `Accept-Language` header, as `GetUser` (user.go:12-13), `CreateUser` (user.go:41-42) and the gate (auth.go:13-14) resolve it; `Handlers.LocalizedComplete` states what it yields |
| `Handlers.LocalizedComplete` | internal/handlers/user.go:12-13 | once the fallback is set, every request is answered from a complete bundle of the table |
| `Handlers.GetUserOutcome` | internal/handlers/user.go:11-38 | the answer is JSON; a parsable `id` gives 200 with that number; otherwise 400 with `InvalidID` after exactly one WARN |
| `Handlers.GetUserAcceptsEveryInt` | internal/handlers/user.go:24-36 | the rendering of every 64-bit `int`, negative ones included, gives 200 with that number; so does a `+` before a non-negative one |
| `Handlers.GetUserMissingId` | internal/handlers/user.go:15-22 | a missing `id` gives 400 with `InvalidID` after the one WARN `GetUser: missing id parameter` |
| `Handlers.GetUserLogOrder` | internal/handlers/user.go:33-37 | success logs one DEBUG before the answer and one INFO after it; the error paths log no INFO |
| `Handlers.CreateUserOutcome` | internal/handlers/user.go:40-69 | an undecodable body gives 400 `InvalidName` after one ERROR; an empty name gives 400 `InvalidName` after one WARN; a name gives 201 echoing it |
| `Handlers.CreateUserDecodeFailureAlwaysLogged` | internal/handlers/user.go:48-61 | a decode failure reaches the error stream under every threshold, while the empty-name WARN is suppressed by an ERROR threshold |
| `Handlers.CreateUserLogOrder` | internal/handlers/user.go:64-68 | success logs one DEBUG before the answer and one INFO after it |
| `Handlers.HandlerExamples` | internal/handlers/user.go:11-69 | with the English bundle, `id=42` gives 200 with 42; `""` and `"abc"` give 400 `invalid id`; `Alice` gives 201; an empty name gives 400 `invalid name` |
| `Handlers.GetUser` | internal/handlers/user.go:11-15 | the call performs the `GetUserOutcome` of the request's bundle and `id` on the logger and the writer |
| `Handlers.AnswerGetUser` | internal/handlers/user.go:15-37 | with the bundle chosen, the logger and the writer receive exactly `GetUserOutcome` |
| `Handlers.CreateUser` | internal/handlers/user.go:40-48 | the call performs the `CreateUserOutcome` of the request's bundle and decoded body |
| `Handlers.AnswerCreateUser` | internal/handlers/user.go:48-68 | with the bundle chosen, the logger and the writer receive exactly `CreateUserOutcome` |
| `Middleware.AuthMiddleware` | internal/middleware/auth.go:10-11 | the decorator puts a gate holding the expected key in front of the handler it is given |
| `Middleware.Dispatch` | internal/middleware/auth.go:10-31 | every answer, from the gate or from a handler behind it, is JSON |
| `Middleware.DispatchStatus` | internal/middleware/auth.go:16-28 | every answer is 200, 201, 400 or 401, and a gate's first log call is the INFO request line |
| `Middleware.RejectsWrongKey` | internal/middleware/auth.go:16-25 | a wrong key gives 401 with `Unauthorized` after exactly the INFO request line and one WARN, and nothing after |
| `Middleware.NextNeverReached` | internal/middleware/auth.go:18-25 | behind a wrong key the outcome does not depend on the wrapped handler |
| `Middleware.ForwardsOnMatch` | internal/middleware/auth.go:27-28 | the right key gives the wrapped handler's answer, with its log calls after the INFO request line and the DEBUG line |
| `Middleware.MissingKeyRejected` | internal/middleware/auth.go:18-19 | an absent `X-API-Key` is refused whenever the expected key is non-empty |
| `Middleware.HandlersNever401` | internal/handlers/user.go:11-69 | the resource handlers never answer 401 themselves |
| `Middleware.GuardedUnauthorizedIff` | internal/middleware/auth.go:18-25 | in front of a resource handler the answer is 401 exactly when the key differs |
| `Middleware.ErrorsFromOneBundle` | internal/middleware/auth.go:13-14 | every error message sent, by the gate or a handler, is a message of the one bundle the request resolves to |
| `Middleware.AuthorizedGetUser` | internal/middleware/auth.go:27-28 | end to end: with the right key, `GET` with the rendering of an `int` gives 200 with that number |
| `Middleware.Serve` | internal/middleware/auth.go:12-14 | serving a request with any mounted handler performs its `Dispatch` outcome under the request's bundle |
| `Middleware.Answer` | internal/middleware/auth.go:28 | a mounted handler answering with a given bundle performs its `Dispatch` outcome |
| `Middleware.Authenticate` | internal/middleware/auth.go:12-29 | the gate's call performs exactly the `Dispatch` outcome of the guarded handler on the logger and the writer |
| `Middleware.Gate` | internal/middleware/auth.go:16-29 | with the bundle resolved, the gate performs the guarded handler's `Dispatch` outcome |
| `Middleware.Refuse` | internal/middleware/auth.go:16-25 | a wrong key logs the request line and the WARN line and answers 401, as `Dispatch` states |
| `Middleware.Admit` | internal/middleware/auth.go:16-28 | the right key (lines 16-18, then 27-28; the refusal at 19-25 is `Middleware.Refuse`) logs the request line and the DEBUG line, then the inner handler answers, as `Dispatch` states |
| `Config.GetEnv` | internal/config/config.go:42-47 | a present non-empty value wins; an unset or empty one gives the default; the result is empty only when the default is |
| `Config.EmptyIsUnset` | internal/config/config.go:43 | a variable set to `""` reads exactly as an unset one |
| `Config.OtherKeyIrrelevant` | internal/config/config.go:42-47 | setting or clearing another variable does not change what a key reads as |
| `Config.Config.Address` | internal/config/config.go:38-40 | the address is the host, a `:`, then the port |
| `Config.Load` | internal/config/config.go:18-36 | loading succeeds exactly when `API_KEY` is set and non-empty, and then carries that key and, for each other setting, its variable read through `GetEnv` with the setting's default; otherwise it fails with the fatal message |
| `Config.LoadedIsComplete` | internal/config/config.go:23-35 | a loaded configuration has no empty setting |
| `Config.LoadDefaults` | internal/config/config.go:23-29 | with only `API_KEY` set the settings are `info`, `en`, `localhost`, `8080`, and the address is `localhost:8080` |
| `Config.LoadOverrides` | internal/config/config.go:24-28 | a non-empty variable overrides its default |
| `Config.LoadFieldsIndependent` | internal/config/config.go:24-28 | each setting depends only on its own variable |

## Left out

- Reading `.env` through `godotenv.Load` is not modelled, nor is its "file not found" warning. `Config.Load` takes the environment as a map.
- `log.Fatal` exits the process. The model returns `Err` with the fatal message instead.
- Log line formatting is not modelled: the timestamp, the `[LEVEL] ` prefix, and `Printf` verb expansion. A line is its level and its already formatted message. `%d` is rendered with `Itoa`.
- The JSON wire format is not modelled. That covers encoding, decoding, and the encoder's trailing newline.
  - A decoded request body is either `Malformed` with the error text or `Decoded` with the name. A missing or null `name` decodes to `""`.
  - Response bodies are records.
- `net/http` plumbing is not modelled: routing, repeated `WriteHeader` calls, and concurrent serving. `RemoteAddr` is an opaque string.
- Header names are kept in canonical form only. The gate's `X-API-Key` is looked up as its canonical form `X-Api-Key`, as `Header.Get` does; canonicalizing an arbitrary name is not modelled.
- Handlers.Performed: keeps the two log streams and the writer's records apart, so it does not order log lines against response writes. That order is stated only by the split of an `Outcome` into the calls before the answer and the calls after it.
- Text.ToLower: lower-cases the ASCII letters, KELVIN SIGN (to `k`) and the capital I with dot above (to `i`). Those are the only characters whose lower-case form in Go is an ASCII letter. Every other non-ASCII letter is kept, whereas Go lower-cases it. So `ParseAcceptLanguage` keeps such letters in upper case. `Get` and the level names still resolve as in Go, because every key and every level name is ASCII.
- Text.IndexOf: counts characters, whereas Go's `strings.Index` counts bytes. The index is used only to slice the same string, so the resulting strings are the same.
- Strconv.Atoi: assumes a 64-bit `int`. It does not tell a syntax error from a range error; the handlers treat both the same.
- Logging.Stdout: states only a length bound in its own contract. Its contents are stated by `Logging.StdoutMembers` and `Logging.StdoutAppend`.
- Logging.Stderr: states only a length bound in its own contract. Its contents are stated by `Logging.StderrMembers` and `Logging.StderrAppend`.
- The handler behind a gate (`Middleware.Handler`) is one of the service's own handlers (possibly gated again), not an arbitrary `http.Handler`. `Middleware.DispatchStatus`'s set of statuses holds only under that restriction.
- Middleware.Dispatch: states only the content type in its own contract. The statuses are stated by `Middleware.DispatchStatus`.
- Logging.Logger.Debug, Info, Warn and Error, and every handler and gate method, require `ready`. A log call before `logger.Init` panics in Go on a nil `*log.Logger`; that path is not modelled.
- Middleware.Admit: hands the gate's bundle to the inner handler instead of resolving it again. In the source each layer resolves it from the same `Accept-Language` header with the same catalog, and no serving method modifies the catalog, so the two agree.
- The concurrency safety of `log.Logger` is not modelled.
- The database checker `cmd/verify/main.go` is not part of this model. Every outcome there depends on a live database.
- The migration runner `cmd/migrate/main.go` is not part of this model. Its behaviour lives in an external library.
- The server entry point that wires `config.Load`, `logger.Init`, `i18n.Init` and the middleware together is not part of this model.
