# Lune net server dispatch and builtin names, modelled in Dafny

This project models two pieces of sequential logic from the Lune runtime.

- **The net server's request handling** (`NetServiceInner::call` in `packages/lib/src/lua/net/server.rs`).
  - Each request is routed to the HTTP handler or to the WebSocket handler.
  - On the HTTP path the request becomes the script's read-only request table. Its query string is split on `&` and `=`, and its headers are converted to text.
  - The handler's outcome (a string, a table, an error, or another value) becomes the status, headers and body of the reply.
  - On the WebSocket path a background task is registered with the task scheduler. The spawned session task later releases it.
- **The builtin-library names** (`LuneBuiltin` in `src/lune/builtins/mod.rs`): the five libraries, their fixed names, and the parser. The parser trims the text, lower-cases it (ASCII only) and matches it against the names.

Files:

- `wrappers.dfy`: `Option` and `Result`.
- `str_ops.dfy`: the Rust string operations the core calls: `split`, `split_once`, `trim` and `to_ascii_lowercase`. Each has a reference characterisation: split is the inverse of join, `split_once` cuts at the first separator, and `trim` removes exactly the surrounding whitespace. Whitespace is the full Unicode White_Space set that `char::is_whitespace` uses.
- `builtins.dfy`: `LuneBuiltin`, `Name`, `FromStr` and their round trip.
- `net_server.dfy`:
  - the request, the request view and the response;
  - the query parser and the header conversion;
  - the response builder's rules and the classifier;
  - the header loop as a method with a loop;
  - the dispatch decision;
  - the task scheduler as a class holding the count of outstanding background tasks and a ghost log of the calls it received;
  - the WebSocket path as methods.
- `server_examples.dfy`: worked examples, proved on the model.

Foreign decisions enter the model as parameters:
- whether a request is an upgrade request;
- what the WebSocket library's upgrade returns;
- whether the handshake, the socket wrapping and thread creation succeed;
- what `schedule_blocking` returns;
- what the HTTP handler returns, given as a function from the request view to its outcome.

A returned table is modelled by its three keys (`status`, `headers`, `body`). Each key is absent, present, or a value that does not convert. The server reads no other key, so no other key can affect the reply.

The request future can end in three ways:
- `Respond`: a reply;
- `Fail`: a Lua error raised by one of the `?` conversions;
- `Panic`: one of the source's `unwrap`/`expect` calls aborts.

The builder rules come from the http crate. A status is accepted when it is between 100 and 999. A header name must be non-empty and made of token characters (section 3.2.6 of RFC 7230). A header value must not hold a control byte other than tab, or DEL. `HeaderValue::to_str` accepts only visible ASCII and tab.

Four points where the code's behaviour is narrower or different from what one might expect; the model follows the code:
- **Header values.** A request header value that is valid UTF-8 is not enough. The code (`to_str().unwrap()`, server.rs:102) panics on any byte that is not visible ASCII or tab, so a value holding `é` panics too.
- **Releasing the background task.** The release is meant to happen once on every exit path and to carry the session's outcome. The code releases the task only when the handshake, the socket wrapping and thread creation all succeed, and always reports `Ok(())`. See "## Findings".
- **Failing conversions.** The `body` read has a `?` too (server.rs:138), like the `status` and `headers` reads. A body that does not convert fails the request.
- **Normalisation.** `from_str(s)` and `from_str(normalise(s))` agree on every successful parse. Each error quotes its own input, so the two errors differ when `s` is not already in normal form. `FromStrSeesNormalForm` states exactly this.

## Model

| member | source | states |
|---|---|---|
| `Builtins.Normalize` | src/lune/builtins/mod.rs:55 | the text the parser matches is trimmed at both ends and holds no ASCII upper-case letter |
| `StrOps.ToAsciiLowercase` | src/lune/builtins/mod.rs:55 | keeps the length; the result has no ASCII upper-case letter; each char is unchanged or is an upper-case letter moved to its lower-case form |
| `Builtins.UnknownBuiltin` | src/lune/builtins/mod.rs:61 | the message is 26 chars longer than the given text, holds that text verbatim from position 25 on, and ends with a closing `'` |
| `Builtins.UnknownBuiltinPrefix` | src/lune/builtins/mod.rs:61 | the first 25 chars of every message are `Unknown builtin library '`, ending in the opening `'`; with `UnknownBuiltin`'s contract this fixes the whole message |
| `Builtins.Name` | src/lune/builtins/mod.rs:24-32 | each library's name is non-empty and already trimmed and lower case, so the parser can match it |
| `Builtins.NameInjective` | src/lune/builtins/mod.rs:24-32 | the five names are pairwise distinct |
| `Builtins.FromStr` | src/lune/builtins/mod.rs:52-63 | an `Ok(b)` result means `Name(b)` equals the trimmed, lower-cased input; an error means no name matches, and its message is `Unknown builtin library '<s>'` with the untrimmed input |
| `Builtins.NameRoundTrip` | src/lune/builtins/mod.rs:52-63 | parsing the name of any library gives that library back |
| `Builtins.FromStrOkIff` | src/lune/builtins/mod.rs:55-60 | `s` parses to `b` if and only if the normal form of `s` is the name of `b` |
| `Builtins.NormalizeIdempotent` | src/lune/builtins/mod.rs:55 | trimming then lower-casing a second time changes nothing |
| `Builtins.SameNormalFormSameParse` | src/lune/builtins/mod.rs:55 | two inputs with the same normal form both parse or both fail, and when they parse they give the same library |
| `Builtins.FromStrSeesNormalForm` | src/lune/builtins/mod.rs:55-61 | `s` parses exactly when its normal form does, to the same library; when it fails, the normal form's error quotes the normal form, so the two errors differ when `s` is not already in normal form |
| `Builtins.FromStrPaddedUpper` | src/lune/builtins/mod.rs:55-56 | `"  FS "` parses to `Fs` |
| `Builtins.FromStrCapitalised` | src/lune/builtins/mod.rs:55-57 | `"Luau"` parses to `Luau` |
| `Builtins.FromStrUnknownExample` | src/lune/builtins/mod.rs:61 | `" http "` fails with `Unknown builtin library ' http '`, whitespace kept |
| `StrOps.Trim` | src/lune/builtins/mod.rs:55 | the trimmed text neither starts nor ends with whitespace |
| `StrOps.TrimExact` | src/lune/builtins/mod.rs:55 | trimming whitespace + core + whitespace gives exactly the core, whenever the core has no whitespace at its ends |
| `StrOps.Split` | packages/lib/src/lua/net/server.rs:90 | splitting gives at least one segment; no segment contains the separator; joining the segments with it gives back the input |
| `StrOps.SplitJoin` | packages/lib/src/lua/net/server.rs:90 | splitting undoes joining on separator-free segments, so the segment list of a string is unique |
| `StrOps.SplitOnce` | packages/lib/src/lua/net/server.rs:91 | the result is absent if and only if the text has no `=`; otherwise before + `=` + after is the text and before has no `=` |
| `StrOps.SplitOnceAt` | packages/lib/src/lua/net/server.rs:91 | the cut is at the first `=`: after it may hold more `=` |
| `NetServer.ToTable` | packages/lib/src/lua/net/server.rs:84-94 | the table's keys are the pairs' keys, and each key maps to the value of its last pair (insertion-order assumption) |
| `NetServer.QueryText` | packages/lib/src/lua/net/server.rs:86-89 | the query text is empty exactly when the URI has no query or an empty one |
| `NetServer.KeyValuePairs` | packages/lib/src/lua/net/server.rs:91 | no more pairs than segments; every pair is a segment cut at its first `=` with a `=`-free key; every segment holding `=` yields its pair |
| `NetServer.QueryPairs` | packages/lib/src/lua/net/server.rs:86-92 | every query pair is an `&`-separated segment of the query cut at its first `=`; no key or value holds `&`, and no key holds `=` |
| `NetServer.QueryParams` | packages/lib/src/lua/net/server.rs:84-94 | the query table's keys never hold `=` or `&` |
| `NetServer.KeyValuePairsAppend` | packages/lib/src/lua/net/server.rs:90-92 | segments are handled one at a time, so the pairs keep the segments' order and each segment contributes its own pairs (at most one) |
| `NetServer.QueryAbsent` | packages/lib/src/lua/net/server.rs:86-92 | an absent query and an empty query both give an empty table |
| `NetServer.SingleQueryPair` | packages/lib/src/lua/net/server.rs:91 | a single segment `k=v` gives the pair `(k, v)`: the key may be empty and the value may hold `=` |
| `NetServer.QueryRoundTrip` | packages/lib/src/lua/net/server.rs:86-92 | writing pairs as `k=v&...` and parsing the result gives the same pairs in the same order |
| `ServerExamples.QueryExample` | packages/lib/src/lua/net/server.rs:86-94 | `k1=v1&k2=v2&malformed&k3=v3` gives the table holding exactly k1, k2 and k3 |
| `ServerExamples.QueryFirstEqualsExamples` | packages/lib/src/lua/net/server.rs:91 | `a=b=c` gives `a -> "b=c"` and `=v` gives `"" -> "v"` |
| `NetServer.AsciiText` | packages/lib/src/lua/net/server.rs:102 | a visible-ASCII header value converts to text with one char per byte, each char's code equal to its byte |
| `NetServer.HeaderStrings` | packages/lib/src/lua/net/server.rs:97-104 | conversion panics if and only if some header value is not visible ASCII; otherwise it keeps every header, its name and its value's bytes, in order |
| `NetServer.MarshalRequest` | packages/lib/src/lua/net/server.rs:96-114 | building the request view panics if and only if some header value is not visible ASCII |
| `NetServer.HeaderViewRoundTrip` | packages/lib/src/lua/net/server.rs:96-106 | with distinct header names, the view's header table has exactly those names, each with its own value |
| `NetServer.MarshalKeepsRequest` | packages/lib/src/lua/net/server.rs:108-114 | the view's path, method and body are the request's own, and its query table is the parsed query |
| `NetServer.NewBuilder` | packages/lib/src/lua/net/server.rs:128 | a fresh builder has the given status and no headers, and is rejected exactly when the status is outside 100-999 |
| `NetServer.AddHeader` | packages/lib/src/lua/net/server.rs:133 | keeps the status; rejects once the builder, the name or the value is invalid, and stays rejected; otherwise appends the pair at the end |
| `NetServer.Finish` | packages/lib/src/lua/net/server.rs:142 | the reply carries the builder's status and headers and the body exactly when nothing was rejected; otherwise the `unwrap` panics |
| `NetServer.StatusOf` | packages/lib/src/lua/net/server.rs:127 | an absent status is 200; a present one is kept when it fits in `u16`; anything else fails as a status conversion |
| `NetServer.HeadersOf` | packages/lib/src/lua/net/server.rs:130 | no `headers` table means no headers; only a value that is not a table fails, as a headers conversion |
| `NetServer.BodyOf` | packages/lib/src/lua/net/server.rs:137-140 | an absent body is empty; only a value that is not a string fails, as a body conversion |
| `NetServer.ApplyEntries` | packages/lib/src/lua/net/server.rs:130-135 | the header loop fails only as a header-pair conversion; it keeps the status, never un-rejects the builder, and only appends headers |
| `NetServer.ApplyEntriesSpec` | packages/lib/src/lua/net/server.rs:128-135 | the header loop fails on the first pair that does not convert; otherwise it keeps the status and appends every pair in iteration order, and the builder is rejected exactly when the status or some header is invalid |
| `NetServer.TableResponse` | packages/lib/src/lua/net/server.rs:126-143 | a table fails only on a conversion and panics only in the final build; a reply has a valid status (200 when absent) and the table's converted body |
| `NetServer.RespondWithTable` | packages/lib/src/lua/net/server.rs:126-143 | the loop that rebinds the builder per header pair gives exactly the table reply of the functional model |
| `NetServer.TableResponseRespond` | packages/lib/src/lua/net/server.rs:126-143 | a table gets a reply exactly when every field converts and the builder accepts it; the reply has its status or 200, its header pairs in order (or none), and its body or an empty one |
| `NetServer.TableResponseFail` | packages/lib/src/lua/net/server.rs:127-138 | a table fails the request exactly when a status, headers, header-pair or body conversion fails, and only with a conversion error |
| `NetServer.TableResponsePanic` | packages/lib/src/lua/net/server.rs:128-142 | a table panics exactly when everything converts but the builder rejects its status or a header |
| `NetServer.Classify` | packages/lib/src/lua/net/server.rs:118-161 | only a returned table can fail (on a conversion) or panic (in the final build); every reply has a valid status |
| `NetServer.ClassifyString` | packages/lib/src/lua/net/server.rs:120-124 | a returned string gets status 200, exactly one header `Content-Type: text/plain`, and the string's bytes as the body |
| `NetServer.ClassifyFailures` | packages/lib/src/lua/net/server.rs:145-160 | a handler error and a value that is neither a string nor a table get the same reply: 500, no headers, body `Internal Server Error` |
| `NetServer.ClassifyFailsOnlyOnConversion` | packages/lib/src/lua/net/server.rs:118-161 | only a returned table can fail the request (on a conversion) or panic (on a rejected part); every other outcome gets a reply with status 200 or 500 |
| `NetServer.ClassifyEmptyTable` | packages/lib/src/lua/net/server.rs:126-142 | a table with none of the three keys gets 200, no headers and an empty body |
| `ServerExamples.ClassifyTableExample` | packages/lib/src/lua/net/server.rs:126-143 | `{status=404, headers={["X-Test"]="1"}, body="nope"}` gets 404, the single header `X-Test: 1` and body `nope` |
| `NetServer.ServeHttp` | packages/lib/src/lua/net/server.rs:76-161 | the HTTP path panics on header conversion exactly when some header value is not visible ASCII; it fails only on a conversion; every reply has a valid status |
| `NetServer.Dispatch` | packages/lib/src/lua/net/server.rs:42 | a request takes the WebSocket path exactly when it is an upgrade request and a WebSocket handler exists; otherwise it is served by the HTTP path (the routing condition is `TakesUpgradePath`) |
| `NetServer.PlainRequestServedAsHttp` | packages/lib/src/lua/net/server.rs:40-78 | a request that is not an upgrade request is always served by the HTTP handler |
| `NetServer.NoWebSocketHandlerServedAsHttp` | packages/lib/src/lua/net/server.rs:42 | without a WebSocket handler, an upgrade request is served by the HTTP handler exactly as a plain request would be |
| `NetServer.UpgradeIgnoresHttpHandler` | packages/lib/src/lua/net/server.rs:42-72 | an upgrade request to a server with a WebSocket handler takes the upgrade path, and the HTTP handler has no effect on it |
| `NetServer.PollReady` | packages/lib/src/lua/net/server.rs:36-38 | the service always reports ready and never an error |
| `NetServer.TaskScheduler.RegisterBackgroundTask` | packages/lib/src/lua/net/server.rs:56 | registering adds one outstanding task, logs it, and returns a fresh unreleased handle |
| `NetServer.TaskScheduler.ScheduleBlocking` | packages/lib/src/lua/net/server.rs:65-68 | scheduling the handler's thread logs the call, leaves the outstanding count alone, and returns what the scheduler gave |
| `NetServer.TaskScheduler.Unregister` | packages/lib/src/lua/net/server.rs:69 | unregistering an unreleased handle releases it, removes one outstanding task, and logs the reported result |
| `NetServer.Call` | packages/lib/src/lua/net/server.rs:40-76 | follows `Dispatch`: off the upgrade path the reply is the HTTP path's and the scheduler is untouched; on it, a refused upgrade panics before registering anything; otherwise one task is registered before the session is spawned, and the library's reply is returned |
| `NetServer.SessionResult` | packages/lib/src/lua/net/server.rs:60-70 | a session that starts ends with the scheduler's answer; one that does not start ends with the error of its first failing step: the handshake error (line 60), else the socket error (line 61), else the thread error (line 66) |
| `NetServer.SessionEvents` | packages/lib/src/lua/net/server.rs:60-69 | as written, the session touches the scheduler only when it starts, and then schedules the handler first and unregisters last |
| `NetServer.SessionReleasesOnlyWhenStarted` | packages/lib/src/lua/net/server.rs:57-71 | as written, the session releases its task once when the handshake, the socket and the thread all succeed, and otherwise never; a release always reports success |
| `NetServer.RunSession` | packages/lib/src/lua/net/server.rs:57-71 | the spawned task returns the first failing step's error or the scheduler's answer, and the outstanding count drops by one only on the path where all three steps succeed |
| `NetServer.ServeUpgradeSession` | packages/lib/src/lua/net/server.rs:53-72 | on a fresh scheduler the registration comes before any session call, one task is outstanding while the session runs, and afterwards the count is back to zero exactly when the session started, whatever the handler did |
| `NetServer.ReleasingSessionReleasesOnce` | packages/lib/src/lua/net/server.rs:57-71 | the corrected session releases its task exactly once, as its last call, and reports how the session ended |
| `NetServer.RunSessionReleasing` | packages/lib/src/lua/net/server.rs:57-71 | the corrected session returns the same result as the original and always lowers the outstanding count by one |
| `NetServer.ServeUpgradeSessionReleasing` | packages/lib/src/lua/net/server.rs:53-72 | with the corrected session, the count always returns to zero, on every exit path |

## Left out

- The hyper `Service` machinery and its boxed futures. The second `poll_ready` (server.rs:188-190) is the same constant as `PollReady`.
- `NetService::call` (server.rs:192-197). It only clones the two handler keys into a new per-connection service.
- `NetLocalExec` and `spawn_local` (server.rs:57, 200-210). These are executor plumbing. The spawned session is modelled by running `RunSession` after `Call` returns.
- Collecting the body with `to_bytes` (server.rs:81) and its I/O error. The request body is taken as already collected.
- The WebSocket handshake inside hyper_tungstenite (server.rs:12, 42, 49). Whether a request is an upgrade request is a boolean on the request. The upgrade's reply, or its refusal, is a parameter.
- `NetWebSocket`, `create_thread`, `schedule_blocking` and the Lua registry (server.rs:48, 61-68, 82). Their outcomes are parameters. The registry lookups, and the scheduler lookups that `expect` (server.rs:48, 53-55, 62-64), are assumed to succeed: they are wiring errors, not request behaviour. Whether `schedule_blocking` waits for the handler to finish is not part of this model.
- The background-task handle's own type. That type is not part of this model, so neither is a release when the handle is dropped. `BackgroundTask` is released only by an explicit `Unregister`, which is what server.rs:69 does.
- The table builder (server.rs:84-114). Its failures are not modelled, and neither is read-only enforcement. `ToTable` assumes that pairs are inserted in order, so that a later key overwrites an earlier one.
- Lua value conversion details. A field is absent, present, or "does not convert". A present status is an integer: coercion of strings and the truncation of non-integral numbers are not modelled. A number outside 0..65535 does not convert.
- Header-name details of the http crate. Names are not folded to lower case, and the name-length limit is not modelled.
- `LuneBuiltin::create` (builtins/mod.rs:34-49). It calls library constructors that are not part of this model.

## Findings

| source | as written | input that shows it | evidently intended | confidence | as-written member | corrected member |
|---|---|---|---|---|---|---|
| packages/lib/src/lua/net/server.rs:56-71 | The `?` exits at lines 60, 61 and 66 return from the spawned task before `task.unregister` at line 69. The background task registered at line 56 then stays outstanding, and the scheduler never sees the session end. | An upgrade request whose handshake fails, for example because the peer closes the connection during the handshake (`handshake: false`). The count stays at 1 after the session. | The task is released on every exit path, carrying the session's outcome, so the scheduler can finish once the session is over. | medium; not executed | `NetServer.ServeUpgradeSession` (with `NetServer.RunSession`, `NetServer.SessionReleasesOnlyWhenStarted`) | `NetServer.ServeUpgradeSessionReleasing` (with `NetServer.RunSessionReleasing`, `NetServer.ReleasingSessionReleasesOnce`) |
