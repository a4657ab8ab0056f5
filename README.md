# http-middlewares in Dafny

This project models the decision and formatting logic of three groups of Go
HTTP middleware and proves properties of that model:

- **requestid**: the correlation-ID wrapper. An inbound ID in the configured
  header (default `X-Request-ID`) is reused verbatim. Otherwise the wrapper
  generates `{hostname}-{pid}-{salt}-{counter:012d}`, adds it to the response
  header and publishes it in the request context. The process prefix is
  built once at start-up: a host-name fallback, then base64 of 20 random
  bytes with `+` and `/` stripped, retried until at least 16 characters
  remain, of which the first 10 form the salt. The counter is a `uint64`.
- **authj / authc**: the Casbin authorizers. The policy engine's
  `(allowed, err)` answer for `(subject, path, method)` either forwards the
  request unchanged, or ends it with a JSON error body: 500 on an engine
  error, 403 on a denial. authj takes the subject from a private context
  key; authc takes it from an injected function.
- **gzap**: the access-log and panic-recovery wrappers. They share one
  set of functional options: time format, UTC, custom fields, and a
  disable flag read when the wrapper is applied. `Logger` writes one info
  record with a fixed field order after the handler returns. `Recovery`
  classifies a panic as a broken connection or not. It logs a reduced or a
  full error record, the full one with an optional stack field, and
  writes 500.

Layout, one module per file:

| file | module | contents |
|---|---|---|
| `wrappers.dfy` | `Wrappers` | `Option` |
| `text.dfy` | `Text` | ASCII character classes, `ToLower`, substring search, character removal (`strings.NewReplacer` with empty replacements) |
| `decimal.dfy` | `Decimal` | `%d` and `%0<w>d` rendering with a parser proved to invert it |
| `base64.dfy` | `Base64` | RFC 4648 section 4 standard encoding with padding |
| `ctx.dfy` | `Ctx` | `context.WithValue` chains and `Value` lookup |
| `http.dfy` | `Http` | canonical header keys, `Header.Get/Add/Set`, requests, a response writer whose first `WriteHeader`/`Write` commits status and header |
| `requestid.dfy` | `RequestId` | prefix construction, the ID generator (a class with a counter), the options and the handler (a class) |
| `authz.dfy` | `Authz` | the decision shared by both authorizers, the JSON body, `renderJSON` |
| `authj.dfy`, `authc.dfy` | `Authj`, `Authc` | the two subject sources and handlers |
| `gzap.dfy` | `Gzap` | panic values and their classification, options, log records, handler chains and their effects |

Four behaviours of the code that are easy to misread:

- A Logger/Recovery pair logs *both* an error record and an info record
  for a panicking request when Logger is registered outside Recovery, as
  the bundled example program does (`Gzap.LoggerOutsideRecovery`). Only
  Recovery outside Logger gives exactly one error record
  (`Gzap.RecoveryOutsideLogger`).
- Recovery writes only the status 500 and no JSON body. That 500 is
  ignored when the handler committed a status before panicking
  (`Gzap.Serve`).
- The correlation-ID wrapper is not idempotent. A second instance reads the
  *request* header, so when the first generated an ID, the second
  generates another and shadows it in the context (`RequestId.Config.Serve`).
- The authorizers' error body reaches the client without the JSON
  Content-Type (see Findings). The handlers in the model use the corrected
  order.

## Model

| member | source | states |
|---|---|---|
| `Text.RemoveAll` | requestid/requestid.go:113 | the result is no longer than the input, and every kept character comes from the input and is not one of the removed ones |
| `Text.RemoveAllConcat` | requestid/requestid.go:113 | stripping distributes over concatenation |
| `Decimal.Format` | requestid/requestid.go:116 | `%d` prints at least one digit and only digits |
| `Decimal.ParseFormat` | requestid/requestid.go:116 | `%d` is injective: reading the numeral back gives the number |
| `Decimal.PadZero` | requestid/requestid.go:125 | `%012d` prints only digits |
| `Decimal.PadZeroRoundTrip` | requestid/requestid.go:125 | `%0<w>d` has at least `w` characters, exactly `w` when the number fits, and reads back as the number |
| `Decimal.PadZeroInjective` | requestid/requestid.go:125 | distinct counters print distinct zero-padded numerals |
| `Decimal.FormatLength` | requestid/requestid.go:125 | a number below 10^k prints in at most k digits |
| `Base64.Encode` | requestid/requestid.go:112 | the encoding has exactly 4 characters per started 3-byte group |
| `Base64.Symbol` | requestid/requestid.go:112 | every 6-bit value maps to a letter, a digit, `+` or `/` |
| `Base64.EncodeShape` | requestid/requestid.go:112 | the encoding has 4 symbols per started 3-byte group: alphabet symbols, then at most two `=` at the very end |
| `Ctx.LookupExtend` | requestid/requestid.go:67 | a derived context reads the newest value under a key, and a key no later pair uses reads what the parent held |
| `Http.CanonicalKey` | requestid/requestid.go:62 | header-key canonicalisation keeps the length |
| `Http.CanonicalKeyCaseInsensitive` | requestid/requestid.go:62 | header names that differ only in ASCII letter case have the same canonical key |
| `Http.CanonicalWordsConcat` | requestid/requestid.go:62 | canonicalising a concatenation: the second part starts a word exactly when the first ends with a hyphen |
| `Http.GetCaseInsensitive` | requestid/requestid.go:62-65 | a value added or set under one spelling of a header name is read back under any other spelling |
| `Http.CanonicalRequestIdKey` | requestid/requestid.go:53 | "X-Request-ID" is canonicalised to "X-Request-Id" |
| `Http.ResponseWriter.constructor` | authj/authj.go:49 | a fresh writer has no header, no status and no body |
| `Http.ResponseWriter.WriteHeader` | authj/authj.go:50 | the first status written wins and commits the header as it stands; later calls change nothing |
| `Http.ResponseWriter.Write` | authj/authj.go:56 | writing commits status 200 when no status was written and appends to the body |
| `Http.ResponseWriter.SetHeader` | authj/authj.go:51 | `Header().Set` replaces the values under the key and touches nothing committed |
| `Http.ResponseWriter.AddHeader` | requestid/requestid.go:65 | `Header().Add` appends a value under the key and touches nothing committed |
| `RequestId.DefaultHeaderCanonical` | requestid/requestid.go:53 | the default header is stored under the canonical spelling "X-Request-Id" |
| `RequestId.DefaultHeaderAnySpelling` | requestid/requestid.go:53-62 | an inbound header spelled "x-request-id" is found under the default name |
| `RequestId.Hostname` | requestid/requestid.go:104-107 | the host name is never empty: a failed or empty lookup gives "localhost" |
| `RequestId.Stripped` | requestid/requestid.go:111-113 | one attempt's text has no `+` or `/` and is no longer than its base64 encoding |
| `RequestId.MakePrefix` | requestid/requestid.go:116 | the prefix is the host name, a hyphen, the pid's numeral reading back as the pid, and a trailing hyphen, with the exact length |
| `RequestId.SaltIsAlphanumeric` | requestid/requestid.go:108-116 | an attempt that is long enough gives 10 salt characters that are all base62 alphanumerics, so no `+`, `/` or `=` padding |
| `RequestId.PrefixShape` | requestid/requestid.go:116 | the prefix starts with the host name and a hyphen, and ends with the 10 salt characters between two hyphens |
| `RequestId.Init` | requestid/requestid.go:103-117 | the loop succeeds exactly when some attempt is long enough; the prefix is built from the first such attempt and has the shape above |
| `RequestId.FormatId` | requestid/requestid.go:125 | an ID starts with the prefix and has at least 12 more characters |
| `RequestId.IdShape` | requestid/requestid.go:124-126 | an ID is the prefix followed by at least 12 digits that read back as the counter, exactly 12 below 10^12 |
| `RequestId.IdsDistinct` | requestid/requestid.go:125 | for one prefix, distinct counter values give distinct IDs |
| `RequestId.SuccessiveIdsDistinct` | requestid/requestid.go:125 | any two of the next 2^64 increments of the wrapping counter give distinct IDs |
| `RequestId.Generator.constructor` | requestid/requestid.go:83-84 | the counter starts at 0 |
| `RequestId.Generator.Next` | requestid/requestid.go:124-126 | the counter goes up by exactly one modulo 2^64, and the ID is the prefix and the new counter value zero-padded |
| `RequestId.AppliedLastWins` | requestid/requestid.go:52-58 | each setting takes the value of the last option that sets it, or keeps its default when none does |
| `RequestId.Config.constructor` | requestid/requestid.go:51-58 | the configuration is the defaults ("X-Request-ID", the default generator) with the options applied in order |
| `RequestId.Config.Apply` | requestid/requestid.go:56-58 | the option loop leaves exactly the fold of the options over the previous settings |
| `RequestId.Config.Serve` | requestid/requestid.go:60-69 | a non-empty inbound ID is published verbatim, with no generator call and no response header; otherwise exactly one ID is generated, added to the response header and published; the status and body are untouched |
| `RequestId.FromRequestId` | requestid/requestid.go:75-81 | nothing published reads as "", and a non-empty result is the string stored under the private key |
| `RequestId.FromRequestIdDownstream` | requestid/requestid.go:75-81 | downstream code reads back exactly the published ID whatever other keys were added since, and reads "" when none was published |
| `Authz.Decide` | authj/authj.go:22-38 | only `(true, no error)` forwards, and forwards the request unchanged; an engine error gives 500 whatever `allowed` says; a plain denial gives 403; the body code equals the status |
| `Authz.Escape` | authj/authj.go:52 | escaping never shortens the message |
| `Authz.Json` | authj/authj.go:52 | the body is a JSON object starting with the "code" key and ending with the closing quote of the message, at least 22 characters longer than the message |
| `Authz.EscapePlain` | authj/authj.go:52 | a message without `"` or `\` is marshalled verbatim |
| `Authz.ServerErrorJson` | authj/authj.go:24-27 | a 500 body is `{"code":500,"message":"…"}` with the message verbatim |
| `Authz.ForbiddenJson` | authj/authj.go:31-34 | a 403 body is `{"code":403,"message":"…"}` with the message verbatim |
| `Authz.ValidationErrorOnTheWire` | authj/authj.go:24-27 | the exact bytes of the 500 body |
| `Authz.DeniedOnTheWire` | authj/authj.go:31-34 | the exact bytes of the 403 body |
| `Authz.RenderJsonAsWritten` | authj/authj.go:49-60 | status first, then the Content-Type header change, then the body; the committed header is the one before the change |
| `Authz.RenderJson` | authj/authj.go:49-60 | the corrected order: the committed header carries the JSON Content-Type |
| `Authz.ContentTypeLostAsWritten` | authj/authj.go:50-51 | on a fresh writer, the as-written order commits no Content-Type |
| `Authz.ContentTypeSent` | authj/authj.go:50-51 | on a fresh writer, the corrected order commits `application/json; charset=utf-8` |
| `Authz.Respond` | authj/authj.go:23-38 | a forwarded request leaves the writer untouched; a rejection writes the decided status, the JSON Content-Type and the JSON body, and does not forward |
| `Authj.ContextWithSubject` | authj/authj.go:64-66 | the child context holds the subject under the private key, and every other key reads as in the parent |
| `Authj.Subject` | authj/authj.go:44-47 | with nothing stored under the private key the subject is ""; a non-empty subject is the string stored there |
| `Authj.SubjectAfterContextWithSubject` | authj/authj.go:44-47 | the stored subject is what the authorizer reads, even after other middleware extended the context; with nothing stored it reads "" after any extension |
| `Authj.Authorize` | authj/authj.go:20-39 | forward exactly when the engine answers `(true, no error)` for (subject, path, method); a rejection is 500 exactly when the engine erred |
| `Authj.ServeHttp` | authj/authj.go:18-41 | the request reaches `next` unchanged exactly when authorized and the writer is then untouched; otherwise the decided status, the JSON Content-Type (committed with the status when nothing was committed before) and the JSON body are written |
| `Authc.Authorize` | authc.go:25-44 | as for authj, with the subject from the injected function |
| `Authc.OnlyTheTripleMatters` | authc.go:27 | two authorizers whose subject and engine agree on this request decide it alike |
| `Authc.ServeHttp` | authc.go:21-46 | as for authj's handler: untouched writer on forwarding; otherwise decided status, JSON Content-Type and JSON body |
| `Gzap.IsBrokenPipe` | gzap/gzap.go:134-142 | the definition: a network operation error directly wrapping a system-call error whose lowercased text, call name included, contains "broken pipe" or "connection reset by peer" |
| `Gzap.NotBrokenPipeUnlessDirect` | gzap/gzap.go:135-136 | a system-call error wrapped a level deeper, a bare one, or an operation error around anything else is never a broken pipe |
| `Gzap.BrokenPipeInSyscallName` | gzap/gzap.go:137 | the phrase is also recognised in the system call's name, since the examined text is the call name, a colon and the error |
| `Gzap.BrokenPipeAnyCase` | gzap/gzap.go:137-138 | the phrase is recognised in the error text in any letter case |
| `Gzap.BrokenPipeLowercase` | gzap/gzap.go:137 | an error text already containing "broken pipe" is recognised |
| `Gzap.CustomValues` | gzap/gzap.go:101-103 | each custom field is evaluated on the request, in configured order |
| `Gzap.TimeFormatLastWins` | gzap/gzap.go:22-27 | the last WithTimeFormat wins, else RFC 3339 with nanoseconds stays |
| `Gzap.UtcLastWins` | gzap/gzap.go:29-34 | the last WithUTC wins, else local time stays |
| `Gzap.CustomFieldsLastWins` | gzap/gzap.go:36-41 | the last WithCustomFields replaces the whole list, and earlier lists are not kept |
| `Gzap.DisableLastWins` | gzap/gzap.go:43-48 | the last WithDisable flag wins, else the fresh default flag stays |
| `Gzap.Flag.constructor` | gzap/gzap.go:66 | a new flag holds the given value |
| `Gzap.Config.constructor` | gzap/gzap.go:62-71 | defaults (RFC 3339 with nanoseconds, local time, a fresh unset flag, no custom fields), then the options in order |
| `Gzap.Config.Apply` | gzap/gzap.go:69-71 | the option loop leaves exactly the fold of the options over the previous settings |
| `Gzap.Config.WrapLogger` | gzap/gzap.go:72-75 | when the flag is set at wrap time the handler comes back unchanged, otherwise it is wrapped with the current settings |
| `Gzap.Config.WrapRecovery` | gzap/gzap.go:125-128 | the same disable bypass for Recovery |
| `Gzap.AccessFields` | gzap/gzap.go:91-103 | eight fields in the order status, method, path, query, ip, user-agent, time, latency, then the custom fields; path and query are captured before the handler ran, and the rest is read from the request as the handler left it |
| `Gzap.CustomFieldsLoop` | gzap/gzap.go:101-103 | the append loop over the custom fields yields each one evaluated on the request, in configured order |
| `Gzap.BuildAccessFields` | gzap/gzap.go:91-103 | the append loop builds exactly that list |
| `Gzap.RecoveryRecord` | gzap/gzap.go:144-169 | a broken pipe gives a record under the request path with exactly the error and the request dump; any other panic gives "[Recovery from panic]" with time, error and request, then the custom fields, then the stack exactly when enabled |
| `Gzap.BuildRecoveryRecord` | gzap/gzap.go:144-169 | the append loop builds exactly that record |
| `Gzap.Serve` | gzap/gzap.go:72-176 | a chain ends in a panic exactly when the handler panicked and no Recovery is present, passing the same value on; the request left behind is the handler's; after a caught panic the status is 500 unless one was committed earlier |
| `Gzap.ServeLog` | gzap/gzap.go:77-173 | a chain only appends to the log: one error record exactly when a panic was caught, one info record per Logger after a normal return, and nothing when a panic escapes |
| `Gzap.RecoveryOutsideLogger` | gzap/gzap.go:129-173 | with Recovery outside Logger, a panic gives the single error record, a 500 and a normal return |
| `Gzap.LoggerOutsideRecovery` | gzap/gzap.go:77-104 | with Logger outside Recovery, a panic gives the error record followed by an info record whose status is the 500 |

## Findings

| source | as written | input that shows it | evidently intended | confidence | as-written member | corrected member |
|---|---|---|---|---|---|---|
| authj/authj.go:50-51 | `renderJSON` calls `WriteHeader` before setting `Content-Type`. A response writer commits its header at `WriteHeader`, and later changes have no effect. | A request the engine denies, on a writer nothing was written to yet. The committed header has no Content-Type, so the JSON body goes out with a sniffed type. | Set the Content-Type, then write the status, then the body, so the 403/500 body is sent as `application/json; charset=utf-8` | high, not executed | `Authz.ContentTypeLostAsWritten` | `Authz.ContentTypeSent` |
| authc.go:49-50 | The same order in authc's copy of `renderJSON`. | The same input. | The same order as above. | high, not executed | `Authz.ContentTypeLostAsWritten` | `Authz.ContentTypeSent` |

## Left out

- I/O and the process environment are parameters: the host-name lookup,
  the process id, the random bytes, the clock, time formatting, the client
  address, the request dump and the stack trace.
- `RequestId.Init`: the random source is a finite sequence of 20-byte
  draws, and the result is `None` when it runs out. The source retries
  forever, so non-termination on an adversarial random source is not
  modelled.
- Atomicity: the request counter and the disable flag are read and updated
  sequentially. Concurrent requests are not modelled.
- A custom generator given with `WithNextRequestID` is modelled as another
  counter-and-prefix generator. Arbitrary Go functions are not modelled.
- The policy engine is an uninterpreted function from
  (subject, path, method) to `(allowed, err)`. Policy evaluation,
  including wildcards and roles, is not modelled.
- `Authz.Json`: only `"` and `\` are escaped. JSON escaping of control
  characters and the HTML escaping of `<`, `>` and `&` are not modelled;
  none occurs in the fixed messages.
- `Authz.Respond`, `Authj.ServeHttp`, `Authc.ServeHttp`: these use the
  corrected `renderJSON`, as the Findings say. A failed `json.Marshal` or
  `Write`, each of which panics in the source, is not modelled.
- `Http.ResponseWriter`: content sniffing on the first `Write`, the 1xx
  status rules and trailers are not modelled.
- `Http.CanonicalKeyCaseInsensitive`: stated for header names made of token characters only; a key with any other character is kept as written, so case then matters.
- `Text.ToLower`: lower-casing is ASCII-only. Unicode case mapping is not
  modelled.
- `Gzap.Serve`: the chain is evaluated on values, not through a response
  writer object. All wrappers in one chain share one set of clock readings
  and one stack trace. A panic is an explicit outcome of the application
  handler. `panic(nil)`, panics raised by the wrappers themselves and
  middleware other than Logger and Recovery are not modelled.
- `Gzap.Fault`: only the shapes the classification tells apart are kept:
  a network operation error, a system-call error and any other value.
  The textual rendering of `zap.Any` is not modelled.
- zap's encoders and sinks: records are values with a level, a message
  and an ordered field list.
- The example program under `gzap/_example` only wires a server together.
- The rate limiter wraps a library that is not part of this model.
- The no-cache middleware's source is not part of this model.
