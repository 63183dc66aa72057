# pplx_sdk streaming core in Dafny

This project is a Dafny model of the core of `pplx_sdk`. The SDK is a Python client for Perplexity's web API. It sends a query as a POST request, reads the Server-Sent-Events reply line by line, and turns the lines into `MessageChunk` records. A stream manager retries and resumes the stream after a fault, and an entries service folds the chunks into an `Entry`. A `Conversation` keeps the history of entries and can be forked. An OpenAI-compatible adapter re-exposes all of this as chat completions.

The model has one module per source file:

| module | file | source |
|---|---|---|
| `Parser` | parser.dfy | `pplx_sdk/streaming/parser.py` |
| `StreamPayload`, `Sse`, `SseLaws` | payload.dfy, sse.dfy, sse_laws.dfy | `pplx_sdk/transport/sse.py` |
| `Manager` | manager.dfy | `pplx_sdk/streaming/manager.py` |
| `Entries` | entries.dfy | `pplx_sdk/domain/entries.py` |
| `Client` | client.dfy | `pplx_sdk/client.py` |
| `Models` | models.dfy | `pplx_sdk/domain/models.py` |
| `Exceptions` | exceptions.dfy | `pplx_sdk/core/exceptions.py` |
| `Http` | http.dfy | `pplx_sdk/transport/http.py` |
| `Retry` | retry.dfy | `pplx_sdk/shared/retry.py` |
| `Auth` | auth.dfy | `pplx_sdk/utils/auth.py` |
| `ChatClient` | chat_client.dfy | `src/pplx_sdk/client.py` |
| `OaiServer` | oai_server.dfy | `pplx_sdk/api/oai_server.py`, `MODEL_MAPPING` of `pplx_sdk/api/oai_models.py` |

Four support modules hold shared definitions:
- `Wrappers`: `Option` and `Result`.
- `Text`: Python's `str.strip`, `lstrip`, `partition`, `split`, `join` and `startswith` over `seq<char>`, with Python's whitespace set.
- `Json`: a JSON value datatype, plus the typed field reads that pydantic performs.
- `Numbers`: `int` to text and back.

The model keeps the source's own form:
- The line loops are methods with loop invariants, each proved equal to a recursive specification function. These are `Sse.ReadEvents`, `Manager.Stream`, `Manager.StreamWithTimeout`, `Entries.Ask`, `Retry.RetryWithBackoff`, `ChatClient.StreamChatComplete` and `OaiServer.GenerateStream`.
- Objects whose fields change are classes: `Http.HttpTransport` (its `client` field), `Client.Conversation` (its `entries` list) and `OaiServer.Adapter` (the cached client).
- Everything else is functions. Lemmas about those functions state the properties.

The outside world is represented by parameters:
- The network is an oracle. The SSE transport is a function from the request to the `Attempt` (chunks, then an optional fault). The manager's transport also receives the attempt number. `Http`'s network maps a request to a reply or a library error. The SSE response is given as its status and its lines, followed by an optional read fault.
- JSON decoding is a function from the text to an optional `Json`.
- The clock is a sequence of readings in milliseconds.
- The sleeps are returned as a sequence of delays in milliseconds.
- The environment is a map.
- Fresh uuids and jitter draws are parameters.

Behaviour of the code worth noting, which the model keeps:
- The `[end]` comment stops reading, but the pending event is still flushed (`sse.py:129`, then `sse.py:143-144`).
- A chunk is `reconnectable` when its cursor is not `None`, so an empty cursor counts (`sse.py:178`).
- The whole line is stripped, not only the space after the colon (`sse.py:115`), and data lines are joined with no separator (`sse.py:121`).
- A blank line with an incomplete accumulator keeps it (`sse.py:120`).
- The manager retries on any exception, not only transport faults (`manager.py:115`).
- With a negative `max_retries`, the manager makes no attempt at all (`manager.py:86`).
- A negative backoff reaches `time.sleep`, which raises `ValueError`: in the manager after the error chunk has been yielded (`manager.py:142-145`), in `retry_with_backoff` after the failed call (`retry.py:85-86`).
- A streamed chat payload that is valid JSON but not an object raises an uncaught `TypeError` that ends the stream (`client.py:100-104`).
- An `extra` entry named `cursor` or `resume_entry_uuids` binds to the SSE transport's parameter of that name when it comes through `stream_ask`, but clashes with the explicit arguments of the manager's call and raises `TypeError` (`entries.py:74-83`, `manager.py:89-100`).
- `Conversation.ask` and `ask_stream` pass `context_uuid` and `parent_entry_uuid` by name next to `**kwargs`, so keyword arguments of either name raise `TypeError` before anything is sent, and the history is unchanged (`pplx_sdk/client.py:247-255` and `:285-293`).
- The entry's status is decided by the last `final_response` or `error` chunk. An `error` after the `final_response` still returns an entry, with status `failed`.
- The entry keeps the cursor of the final response. The text the entry assembler collects is never used; `Entries.Ask` collects it in the same way, and no contract speaks of it.

## Model

| member | source | states |
|---|---|---|
| Parser.BlankLine | pplx_sdk/streaming/parser.py:20-24 | a blank or whitespace-only line parses to (None, None) |
| Parser.CommentLine | pplx_sdk/streaming/parser.py:20-28 | a line whose stripped form starts with `:` parses to ("comment", the rest with leading whitespace removed) |
| Parser.FieldLine | pplx_sdk/streaming/parser.py:31-33 | any other line with a colon gives a non-empty, colon-free field and a value with no surrounding whitespace, and the stripped line is field + ":" + whitespace + value |
| Parser.NoColonLine | pplx_sdk/streaming/parser.py:35 | a non-blank, non-comment line without a colon parses to (None, None) |
| Parser.CommentIsCommentField | pplx_sdk/streaming/parser.py:27-33 | the comment `:x` and the field line `comment:x` parse identically |
| Parser.CommentText | pplx_sdk/streaming/parser.py:27-28 | `:x` parses to ("comment", x trimmed on both sides) |
| Parser.FieldText | pplx_sdk/streaming/parser.py:31-33 | `f:x`, for a trimmed colon-free field, parses to (f, x trimmed on both sides) |
| Parser.ParseSseData | pplx_sdk/streaming/parser.py:38-51 | decodable data gives the decoded value, and anything else gives exactly {"text": data}; it never fails |
| Parser.DataRecoverable | pplx_sdk/streaming/parser.py:47-51 | undecodable data is recoverable as the object's `text` field |
| StreamPayload.PayloadKeys | pplx_sdk/transport/sse.py:76-99 | the payload's keys are the ten base keys, the optional keys that are truthy, and the extra keys |
| StreamPayload.Lookup | pplx_sdk/transport/sse.py:76-99 | an extra key overrides an optional key, which overrides a base key |
| StreamPayload.BaseKept | pplx_sdk/transport/sse.py:76-87 | a base key that no extra key names keeps its base value |
| StreamPayload.PayloadSources | pplx_sdk/transport/sse.py:82 | `sources` is the given list when truthy, else ["web"] |
| StreamPayload.PayloadParent | pplx_sdk/transport/sse.py:89-90 | `parent_entry_uuid` is present iff truthy, with its value |
| StreamPayload.PayloadCursor | pplx_sdk/transport/sse.py:92-93 | `cursor` is present iff truthy, with its value |
| StreamPayload.PayloadResume | pplx_sdk/transport/sse.py:95-96 | `resume_entry_uuids` is present iff the list is non-empty, with its items in order |
| StreamPayload.PayloadArguments | pplx_sdk/transport/sse.py:76-81 | without extra overrides, query, context, frontend id, mode and model preference carry the caller's values |
| StreamPayload.PayloadConstants | pplx_sdk/transport/sse.py:83-86 | without extra overrides, the schematized-API, language, timezone and incognito flags have their fixed values |
| StreamPayload.BuildPayload | pplx_sdk/transport/sse.py:76-99 | the conditional inserts and the final `update` build exactly the payload function |
| Sse.ParseEventChunk | pplx_sdk/transport/sse.py:146-179 | a converted chunk has the event type and the parser's data, each well-known field is read from that data, and it is reconnectable iff its cursor is not None |
| Sse.ParseEventFails | pplx_sdk/transport/sse.py:157-179 | conversion fails iff the data is not an object (AttributeError), or iff a well-known field is neither a string nor null (validation error) |
| Sse.PlainTextEvent | pplx_sdk/transport/sse.py:157-161 | non-JSON data always converts, to a chunk whose text is the data, with no cursor and not reconnectable |
| Sse.Stream | pplx_sdk/transport/sse.py:42-144 | returns the payload sent and the outcome: a refused request or a non-2xx status yields its fault and no chunk, and otherwise the line loop's result |
| Sse.ReadEvents | pplx_sdk/transport/sse.py:111-144 | the imperative line loop yields exactly the chunks of the specification `LinesOutcome` (grouping, `[end]` stop, final flush, read fault) |
| Sse.ReadField | pplx_sdk/transport/sse.py:133-140 | a field line updates the accumulator as `Absorb` says: `event` replaces the type, `data` appends, and anything else changes nothing |
| Sse.FlushPending | pplx_sdk/transport/sse.py:143-144 | the final flush converts one more event iff the accumulator is complete |
| SseLaws.AbsorbMatchesParser | pplx_sdk/transport/sse.py:133-135 | for non-comment lines, the loop's own split agrees with `parse_sse_line` |
| SseLaws.NotDataLine | pplx_sdk/transport/sse.py:118-130 | blank lines and comments are never data lines |
| SseLaws.BlankKeepsIncomplete | pplx_sdk/transport/sse.py:118-124 | a blank line with an incomplete accumulator emits nothing and keeps the type and the buffer |
| SseLaws.CommentTransparent | pplx_sdk/transport/sse.py:126-130 | removing a comment without `[end]` from anywhere in the body changes nothing |
| SseLaws.EndCutsOff | pplx_sdk/transport/sse.py:126-130 | nothing after an `[end]` comment is read, and the scan is marked stopped |
| SseLaws.EndFlushes | pplx_sdk/transport/sse.py:128-144 | at an `[end]` comment the pending event is flushed and the loop stops |
| SseLaws.EndIgnoresRest | pplx_sdk/transport/sse.py:126-144 | after `[end]`, later lines and a later read fault do not change the outcome |
| SseLaws.ScanBound | pplx_sdk/transport/sse.py:111-144 | each event emitted, and a non-empty leftover buffer, uses up a data line of its own |
| SseLaws.ChunkBound | pplx_sdk/transport/sse.py:111-144 | a body yields at most as many chunks as it has data lines |
| SseLaws.EventLineStep | pplx_sdk/transport/sse.py:137-138 | `event: k` sets the pending type to k |
| SseLaws.DataLineStep | pplx_sdk/transport/sse.py:139-140 | `data: d` appends d to the buffer |
| SseLaws.EncodeRoundTrip | pplx_sdk/transport/sse.py:111-144 | events written as `event:`/`data:`/blank lines (type and data stripped and without line breaks) are read back as exactly those events, in order |
| Manager.Stream | pplx_sdk/streaming/manager.py:82-145 | the imperative retry loop yields the chunks, the final fault, the requests sent and the sleeps of the specification `Streamed`: the loop `Retrying`, or at once a `TypeError` when extra names cursor or resume_entry_uuids |
| Manager.Follow | pplx_sdk/streaming/manager.py:104-110 | the per-chunk cursor and resume-list updates compute `TrackAll` |
| Manager.StreamWithTimeout | pplx_sdk/streaming/manager.py:170-183 | the guarded stream passes chunks on until the first late one, then raises the timeout instead of yielding it |
| Manager.AttemptsBound | pplx_sdk/streaming/manager.py:86-120 | the stream is opened at most max_retries+1 times, and at least once unless max_retries is negative |
| Manager.SleepSchedule | pplx_sdk/streaming/manager.py:126-145 | one sleep between consecutive openings, the k-th is retry_backoff_ms * 2^(k-1), and no delay slept is negative |
| Manager.SameQueries | pplx_sdk/streaming/manager.py:89-100 | every opening resends the caller's query, and only the cursor and resume ids vary |
| Manager.FirstRequest | pplx_sdk/streaming/manager.py:82-98 | the first opening carries no cursor and passes the resume ids as None |
| Manager.SingleAttempt | pplx_sdk/streaming/manager.py:122-124 | without reconnection the first fault is re-raised, with no synthetic chunk and no second attempt |
| Manager.StoppingAttempt | pplx_sdk/streaming/manager.py:112-124 | a clean attempt ends the stream; a fault with retries used up, reconnection off or no truthy cursor is re-raised unchanged |
| Manager.AbsorbedFault | pplx_sdk/streaming/manager.py:131-145 | an absorbed fault yields exactly one `error`/`retrying` chunk (no backend id, the fault's text, the retry count, the backoff) between the attempt's chunks and the next attempt's; with a negative backoff that chunk is the last and the sleep's ValueError is raised |
| Manager.FaultIsLastAttempts | pplx_sdk/streaming/manager.py:115-145 | a raised fault is the fault of the last attempt, or, only with a negative retry_backoff_ms, the sleep's ValueError after that failed attempt |
| Manager.BackoffSign | pplx_sdk/streaming/manager.py:127-128 | the backoff is negative iff retry_backoff_ms is |
| Manager.RefusedSleep | pplx_sdk/streaming/manager.py:126-145 | an attempt retried with a negative backoff yields its chunks and the error chunk, then raises ValueError("sleep length must be non-negative"), with no reopening and no sleep |
| Manager.NegativeBackoff | pplx_sdk/streaming/manager.py:86-145 | with a negative retry_backoff_ms the stream is opened at most once, never sleeps, and a fault that would be retried becomes the sleep's ValueError |
| Manager.KeywordClashRaises | pplx_sdk/streaming/manager.py:89-124 | an extra naming cursor or resume_entry_uuids raises TypeError at once: no chunk, no request reaches the transport, no sleep |
| Manager.TrackCursor | pplx_sdk/streaming/manager.py:104-106 | the carried cursor is the latest truthy cursor seen, and it never changes without reconnection |
| Manager.TrackResume | pplx_sdk/streaming/manager.py:108-110 | the resume list extends the old one, stays duplicate-free, and holds exactly the truthy backend ids seen |
| Manager.GuardCutsAtFirstLate | pplx_sdk/streaming/manager.py:170-183 | the guard keeps exactly the chunks before the first late one, unchanged and in order |
| Manager.DefaultTimeoutMessage | pplx_sdk/streaming/manager.py:170-181 | the default budget is 30000 ms, with the message "Stream exceeded timeout of 30.0s" |
| Entries.FrontendUuid | pplx_sdk/domain/entries.py:118-120 | the caller's frontend id when truthy, else a fresh one |
| Entries.StreamAsk | pplx_sdk/domain/entries.py:69-83 | yields exactly what the transport yields for a request with the caller's arguments, no cursor or resume ids of its own, and `extra` as the transport binds it |
| Entries.Forwarded | pplx_sdk/transport/sse.py:51-52 | an extra entry named cursor or resume_entry_uuids is kept iff its value is truthy; every other entry is kept; values are unchanged |
| Entries.AskPayloadExtra | pplx_sdk/transport/sse.py:92-99 | an extra cursor or resume_entry_uuids is in the payload iff truthy, and then unchanged; other non-base extra entries reach the payload unchanged |
| Entries.Build | pplx_sdk/domain/entries.py:173-178 | fails with the no-final-response ValueError iff no backend id was recorded, and otherwise the entry carries the recorded fields |
| Entries.Ask | pplx_sdk/domain/entries.py:118-178 | the imperative fold over the stream computes `AskResult`: the transport's fault, or the folded entry |
| Entries.FoldSummary | pplx_sdk/domain/entries.py:123-171 | after the fold, status is the last verdict, text_completed is set by any final_response, backend id, model and cursor come from the last final_response, and blocks and sources come from the last final_response carrying them |
| Entries.OtherChunksInert | pplx_sdk/domain/entries.py:145-171 | chunks other than final_response and error change nothing |
| Entries.LastFinalExists | pplx_sdk/domain/entries.py:150-159 | there is a last final_response iff some chunk is one |
| Entries.NoFinalResponseRaises | pplx_sdk/domain/entries.py:173-175 | ask raises the ValueError iff no chunk is a final_response, whatever error chunks arrived |
| Entries.AskSuccess | pplx_sdk/domain/entries.py:150-178 | a successful entry has the caller's ids and query, text_completed set, no parent, the last verdict's status, and the last final_response's backend id ("" by default) |
| Entries.AskBlocksAndSources | pplx_sdk/domain/entries.py:161-167 | blocks and sources are those of the last final_response carrying them, else empty |
| Client.BuildHeaders | pplx_sdk/client.py:74-91 | the four base headers, Authorization "Bearer "+token iff the token is truthy, and the caller's headers override |
| Client.BuildHeadersAgree | pplx_sdk/client.py:80-91 | the client and the HTTP transport build the same default headers |
| Client.NewConversationThread | pplx_sdk/client.py:147-158 | the new id, the given title, slug "conv-" + the first 8 characters of the id, private, zero counters |
| Client.ForkTitle | pplx_sdk/client.py:322-331 | "<title> (fork)" when the title is truthy, else "Forked conversation" |
| Client.ForkThread | pplx_sdk/client.py:322-331 | the new id, the fork title, slug "fork-" + the first 8 characters of the id, the original's access |
| Client.ForkOfFork | pplx_sdk/client.py:322-331 | forking a fork appends a second " (fork)" and keeps the access |
| Client.ThreadFor | pplx_sdk/client.py:160-178 | the thread lookup never finds anything, so the result is always ValueError("Thread not found: "+slug) |
| Client.ThreadsGet | pplx_sdk/domain/threads.py:23-36 | the lookup is a stub that finds no thread for any slug or id |
| Client.ParentOf | pplx_sdk/client.py:241-244 | the parent is absent iff the history is empty, and otherwise is the last entry's backend id |
| Client.ParentAfterAppend | pplx_sdk/client.py:280-296 | after an answer is appended, the next question follows up on it |
| Client.Find | pplx_sdk/client.py:317 | `list.index`: the first position holding an equal entry, or none iff absent |
| Client.ForkEntries | pplx_sdk/client.py:311-320 | a prefix of the history: all of it for None, empty for an absent entry, otherwise through the first equal entry |
| Client.ForkFollowsUp | pplx_sdk/client.py:311-320 | a fork at an entry asks its next question as a follow-up of that entry |
| Client.ForkAtLast | pplx_sdk/client.py:311-320 | forking at a latest entry that occurs only once keeps the whole history |
| Client.PerplexityClient.constructor | pplx_sdk/client.py:48-91 | stores the settings and the built headers |
| Client.PerplexityClient.NewConversation | pplx_sdk/client.py:138-158 | a fresh conversation of this client on the new thread, with empty history |
| Client.PerplexityClient.ConversationFromThread | pplx_sdk/client.py:160-178 | always fails with the thread-not-found ValueError |
| Client.Conversation.AskStream | pplx_sdk/client.py:221-255 | the entries service's stream for this thread, with the last entry as parent, or, when the keyword arguments name context_uuid or parent_entry_uuid, a TypeError with nothing sent; the history is untouched |
| Client.Conversation.Ask | pplx_sdk/client.py:257-298 | the entries service's answer with the last entry as parent, or, when the keyword arguments name context_uuid or parent_entry_uuid, a TypeError with nothing sent; on success exactly the entry is appended, and on failure the history is unchanged |
| Client.Conversation.Fork | pplx_sdk/client.py:300-331 | a fresh conversation of the same client, on the fork thread, with the fork prefix; this one is unchanged |
| Models.StatusValueRoundTrip | pplx_sdk/domain/models.py:18-28 | a status round-trips through its value, and exactly the eight values parse |
| Models.SourceTypeRoundTrip | pplx_sdk/domain/models.py:39-47 | a source type round-trips through its value, and exactly the six values parse |
| Models.NewThread | pplx_sdk/domain/models.py:69-81 | a thread has the given fields and zero fork, like and view counts |
| Models.DefaultThread | pplx_sdk/domain/models.py:78-81 | a thread defaults to private access, no title and zero counters |
| Models.DefaultEntry | pplx_sdk/domain/models.py:92-104 | an entry needs its four required fields; text_completed is false, and blocks, sources, query, model, parent and cursor are empty or absent |
| Models.DefaultChunk | pplx_sdk/domain/models.py:113-120 | a chunk given only a type has no status, ids, text or cursor, an empty payload, and is not reconnectable |
| Models.BlocksFromJson | pplx_sdk/domain/models.py:50-55 | parsed blocks correspond item by item to the JSON list |
| Models.AllBlocks | pplx_sdk/domain/models.py:50-55 | all items parse, or some item fails to |
| Models.BlocksRoundTrip | pplx_sdk/domain/models.py:50-55 | blocks written as JSON read back as the same blocks |
| Models.SourceFromJson | pplx_sdk/domain/models.py:58-66 | a parsed source's `type` is one of the SourceType values |
| Models.SourceRoundTrip | pplx_sdk/domain/models.py:58-66 | a source written as JSON reads back as the same source |
| Models.SourcesFromJson | pplx_sdk/domain/models.py:58-66 | parsed sources correspond item by item to the JSON list |
| Models.AllSources | pplx_sdk/domain/models.py:58-66 | all items parse, or some item fails to |
| Exceptions.NewSdkError | pplx_sdk/core/exceptions.py:11-15 | the base error keeps its message; details default to an empty map; it is not a transport error |
| Exceptions.NewTransportError | pplx_sdk/core/exceptions.py:21-30 | a transport error has the given status and body, empty details, and is neither an authentication nor a rate-limit error |
| Exceptions.NewAuthenticationError | pplx_sdk/core/exceptions.py:33-36 | an authentication error is a transport error with the caller's status and body |
| Exceptions.NewRateLimitError | pplx_sdk/core/exceptions.py:42-45 | a rate-limit error is a transport error with status 429, no body, and the given retry_after |
| Exceptions.NewStreamingError | pplx_sdk/core/exceptions.py:48-51 | a streaming error is an SDK error but not a transport error |
| Exceptions.NewValidationError | pplx_sdk/core/exceptions.py:54-57 | a validation error is an SDK error but not a transport error |
| Exceptions.IsInstanceIsAncestry | pplx_sdk/core/exceptions.py:8-57 | `isinstance` holds iff the class is the error's class or one of its ancestors |
| Http.AuthHeaders | pplx_sdk/transport/http.py:48-56 | the four base headers, plus Authorization "Bearer "+token iff the token is truthy |
| Http.Update | pplx_sdk/transport/http.py:58-59 | `dict.update`: the given headers win, and the others stay |
| Http.DefaultHeadersShape | pplx_sdk/transport/http.py:48-61 | the stored defaults: the base headers, Authorization iff a token is given, the caller's headers overriding, and Accept always present |
| Http.StatusError | pplx_sdk/transport/http.py:121-138 | 401 gives AuthenticationError(401, body), 429 without Retry-After gives RateLimitError(None), and any other status gives TransportError with that status and body |
| Http.RequestOutcome | pplx_sdk/transport/http.py:111-140 | success iff a 2xx reply; a library failure gives a TransportError with no status and no body |
| Http.RetryAfterRead | pplx_sdk/transport/http.py:128-133 | a numeric Retry-After is carried by the rate-limit error |
| Http.StatusErrorsAreTransport | pplx_sdk/transport/http.py:121-138 | every error status maps into the transport family with the reply's status, unless a 429's Retry-After is not a number |
| Http.StreamHeaders | pplx_sdk/transport/http.py:167-173 | Accept is always present, and text/event-stream is added only when Accept is missing |
| Http.StreamAcceptUnchanged | pplx_sdk/transport/http.py:51 | the text/event-stream fallback never fires, because the defaults always hold Accept |
| Http.HttpTransport.constructor | pplx_sdk/transport/http.py:44-62 | stores the base URL and the default headers; no client |
| Http.HttpTransport.Enter | pplx_sdk/transport/http.py:64-72 | opens a client with the base URL, the defaults and redirects followed |
| Http.HttpTransport.Exit | pplx_sdk/transport/http.py:74-78 | the client is gone afterwards |
| Http.HttpTransport.Request | pplx_sdk/transport/http.py:104-140 | raises TransportError before sending anything without a client; otherwise sends the defaults merged with the call's headers and maps the exchange; the defaults never change |
| Http.HttpTransport.Stream | pplx_sdk/transport/http.py:164-180 | raises TransportError without a client; otherwise the request with the merged headers and the Accept fallback |
| Retry.CalculateBackoff | pplx_sdk/shared/retry.py:42-52 | without jitter the delay is min(initial * multiplier^attempt, max); with jitter it stays within ±25% of that; it is negative iff that base delay is |
| Retry.JitterBand | pplx_sdk/shared/retry.py:47-50 | the jitter offset is within a quarter of the backoff |
| Retry.BackoffCapped | pplx_sdk/shared/retry.py:42-45 | the unjittered delay never exceeds the cap |
| Retry.BackoffMonotone | pplx_sdk/shared/retry.py:42-45 | with multiplier ≥ 1 the unjittered delay never decreases |
| Retry.DefaultSchedule | pplx_sdk/shared/retry.py:27-31 | with the default config the base delays are 1000, 2000, 4000 and, capped, 30000 ms |
| Retry.RetryWithBackoff | pplx_sdk/shared/retry.py:55-90 | the imperative loop's result, call count and sleeps are those of the specification `Retrying`, with the default config when none is given |
| Retry.CallsAndSleeps | pplx_sdk/shared/retry.py:76-86 | at most max_retries+1 calls, one sleep fewer than calls, the k-th sleep is calculate_backoff(k), and no delay slept is negative |
| Retry.RunOutcome | pplx_sdk/shared/retry.py:76-86 | the first success is returned at once; a raised exception is the last call's, or the sleep's ValueError when that call failed retryably before the last attempt with a negative delay; every earlier call failed retryably with a non-negative delay |
| Retry.NotRetryable | pplx_sdk/shared/retry.py:79 | a non-retryable exception escapes after one call with no sleep |
| Retry.NegativeRetries | pplx_sdk/shared/retry.py:76-90 | with a negative max_retries the function is never called and the fallback assertion fails |
| Retry.Exhausted | pplx_sdk/shared/retry.py:76-86 | a function that always fails retryably is called max_retries+1 times and its last exception is raised, unless a delay before the last attempt is negative, and then the sleep's ValueError is raised |
| Retry.SleepFailsAt | pplx_sdk/shared/retry.py:85-86 | a retryable failure before the last attempt with a negative delay ends the run after that call with ValueError("sleep length must be non-negative") and no sleep |
| Retry.BaseBackoffSign | pplx_sdk/shared/retry.py:42-45 | non-negative initial and maximum delays never give a negative delay; a negative maximum always does |
| Retry.ExhaustedSettings | pplx_sdk/shared/retry.py:27-86 | with non-negative delay settings an always-failing function is called max_retries+1 times; with a negative cap it is called once and the sleep raises |
| Auth.FirstToken | pplx_sdk/utils/auth.py:23-34 | the token of the first segment, left to right, that offers one, or None iff none does |
| Auth.SessionSegment | pplx_sdk/utils/auth.py:26-30 | `key=value` with a session key yields the value, which may itself contain "=" |
| Auth.PaddedSegment | pplx_sdk/utils/auth.py:24 | spaces around a segment do not matter |
| Auth.FirstCookieWins | pplx_sdk/utils/auth.py:23-32 | a cookie string starting with a session cookie yields that cookie's value, whatever follows |
| Auth.ExtractTokenFromHeader | pplx_sdk/utils/auth.py:73-81 | None for a missing or empty header; a header without "Bearer " is returned unchanged |
| Auth.BearerRoundTrip | pplx_sdk/utils/auth.py:77-78 | "Bearer " + t gives back t, for every t including "" |
| Auth.FirstSet | pplx_sdk/utils/auth.py:49-54 | the first non-empty value among the names, in order, or None iff all are unset or empty |
| Auth.EmptyVariableSkipped | pplx_sdk/utils/auth.py:49-52 | an empty PPLX_AUTH_TOKEN does not hide PPLX_SESSION_TOKEN |
| Numbers.ParseInt | pplx_sdk/transport/http.py:132 | int() accepts exactly surrounding whitespace, an optional sign and ASCII digits with single underscores between them; plain digits read as their value |
| Numbers.ParseIntToString | pplx_sdk/transport/http.py:132 | int(str(n)) == n for every integer n |
| Numbers.UnderscoresIgnored | pplx_sdk/transport/http.py:132 | underscores between digits do not change the value |
| Numbers.UnderscoreExamples | pplx_sdk/transport/http.py:132 | "1_000" reads as 1000 |
| Numbers.UnderscoresRefused | pplx_sdk/transport/http.py:132 | "_1", "1_" and "1__0" are refused |
| ChatClient.GetHeaders | src/pplx_sdk/client.py:34-42 | User-Agent and Content-Type always, and Authorization "Bearer "+key iff the key is truthy |
| ChatClient.ChatPayload | src/pplx_sdk/client.py:62-68 | the caller's model when truthy, else the configured default; messages and stream as given |
| ChatClient.DoneLineIsData | src/pplx_sdk/client.py:96-99 | the only data line whose payload is [DONE] is `data: [DONE]` |
| ChatClient.ChunkBound | src/pplx_sdk/client.py:100-104 | at most one chunk per data line before [DONE] |
| ChatClient.DoneCutsOff | src/pplx_sdk/client.py:98-99 | nothing after [DONE] is read |
| ChatClient.IgnoredLine | src/pplx_sdk/client.py:94-97 | empty lines, comments and lines not starting exactly "data: " yield nothing |
| ChatClient.NoSpaceNoData | src/pplx_sdk/client.py:96 | `data:x` without the space is not a data line |
| ChatClient.ReadPayload | src/pplx_sdk/client.py:100-104 | a payload yields a chunk iff it decodes to an object the record accepts; it raises iff it decodes to a non-object, and then a TypeError; otherwise it is skipped |
| ChatClient.OnlyTypeErrorRaised | src/pplx_sdk/client.py:93-104 | the only exception the line loop raises itself is a TypeError |
| ChatClient.SkippedPayload | src/pplx_sdk/client.py:100-104 | a payload that is not JSON, or an object the record rejects, is skipped and the loop goes on |
| ChatClient.NonObjectRaises | src/pplx_sdk/client.py:100-104 | a payload decoding to a list, null, number or string ends the stream with TypeError("argument after ** must be a mapping, not <type>"), reading nothing further |
| ChatClient.FramesRoundTrip | src/pplx_sdk/client.py:96-104 | payloads written as data lines, each an object the record accepts, are read back as their chunks, one each, in order, with no exception |
| ChatClient.StreamChatComplete | src/pplx_sdk/client.py:83-104 | the imperative line loop yields exactly the chunks of `ChatLines` and raises its TypeError if any; a read fault counts only if neither that nor [DONE] came |
| OaiServer.ResolveModel | pplx_sdk/api/oai_server.py:145-151 | known names map through MODEL_MAPPING; an unknown name maps to itself with mode "concise" |
| OaiServer.ResolveModelShape | pplx_sdk/api/oai_models.py:122-153 | every mode is research or concise; the pplx names map to themselves |
| OaiServer.LastUser | pplx_sdk/api/oai_server.py:154-158 | the index of the last "user" message, or none iff there is none |
| OaiServer.ExtractQuery | pplx_sdk/api/oai_server.py:153-161 | the content of the last user message; HTTP 400 iff there is none or it is empty |
| OaiServer.EmptyLastUserFails | pplx_sdk/api/oai_server.py:154-161 | an empty last user message gives 400 even when earlier user messages are non-empty |
| OaiServer.LastUserIsQuery | pplx_sdk/api/oai_server.py:154-161 | the last user message is the query, whatever comes before it |
| OaiServer.CompletionId | pplx_sdk/api/oai_server.py:167 | the id starts with "chatcmpl-" |
| OaiServer.Texts | pplx_sdk/api/oai_server.py:197 | the non-empty texts of the chunks, in order |
| OaiServer.ContentFramesTexts | pplx_sdk/api/oai_server.py:192-210 | one content frame per chunk with non-empty text, carrying that text, in order |
| OaiServer.StreamShape | pplx_sdk/api/oai_server.py:173-230 | role frame first, then the content frames, then stop and [DONE], or a single error frame and no [DONE]; all frames share id, created and model |
| OaiServer.GenerateStream | pplx_sdk/api/oai_server.py:173-230 | the imperative generator emits exactly `StreamFrames` |
| OaiServer.Contents | pplx_sdk/api/oai_server.py:251-253 | the block contents, in order |
| OaiServer.JoinBlocks | pplx_sdk/api/oai_server.py:251-254 | "" for no blocks, and the single content for one block |
| OaiServer.JoinBlocksSplit | pplx_sdk/api/oai_server.py:251-254 | the joined text splits on "\n" back into the block contents |
| OaiServer.CompletionOf | pplx_sdk/api/oai_server.py:241-272 | a successful entry gives the assistant message with the joined text and "stop"; a failure gives HTTP 500 with the fault's text |
| OaiServer.Respond | pplx_sdk/api/oai_server.py:144-272 | a bad query gives 400; otherwise the reply is streamed iff the request asks for streaming |
| OaiServer.Adapter.constructor | pplx_sdk/api/oai_server.py:30 | no client is cached |
| OaiServer.Adapter.GetClient | pplx_sdk/api/oai_server.py:33-56 | a cached client is returned as is; a missing or empty token gives 500 and caches nothing; otherwise a client is built from the environment and cached |
| OaiServer.Adapter.ChatCompletions | pplx_sdk/api/oai_server.py:122-272 | a missing token gives 500 with detail "500: PPLX_AUTH_TOKEN environment variable not set"; with a client, the reply is `Respond` over the client's transport; a cached client is kept |

## Left out

- Network I/O (`httpx`): responses are given as a status, lines and an optional read fault, and transports are oracles. Closing a connection, including on early exit, is not modelled.
- JSON decoding and pydantic validation are a decoding parameter plus typed field reads. Pydantic's coercions (for example a number where a string is expected) are treated as validation errors.
- Floating point: seconds are kept as integer milliseconds, the retry multiplier is a natural number, and `backoff_seconds` is a decimal count of milliseconds. The timeout message is exact only for budgets below 10^15 ms: Python prints the float `ms / 1000.0` in exponent notation from 1e16 s on, and rounds budgets of 16 or more digits.
- Randomness: the jitter is an arbitrary draw in [-1000, 1000] thousandths of the ±25% band, truncated toward zero.
- Clock and sleep: clock readings are inputs, and sleeps are returned as delays rather than performed.
- Generators: streams are finite sequences computed eagerly. Lazy suspension and the consumer breaking early are not modelled.
- The async duplicates (`AsyncPplxClient`, the async parts of the OpenAI layer) apply the same rules as the synchronous code and are not modelled separately.
- `_chat_complete`, the non-streaming POST of `src/pplx_sdk/client.py`, is not modelled beyond its payload. The `**kwargs` extra fields of `Chat` are not modelled either.
- Exceptions.FaultMessage: the text of a record validation error is the name of the offending field; pydantic's multi-line report is not modelled.
- Numbers.ParseInt: non-ASCII decimal digits, which Python's `int` also accepts, are refused.
- ChatClient.NotAMapping: the message omits the name of the callable that CPython puts in front of "argument after ** must be a mapping", which depends on the Python version.
- Manager.KeywordClash: the message omits the callable's name in front of "got multiple values for keyword argument", and when `extra` names both resume arguments the model names `cursor`, while Python names whichever comes first in `extra`.
- Client.ConversationClashFault: the message omits the callable's name, and when the keyword arguments name both the context and the parent the model names `context_uuid`, while Python names whichever comes first.
- Entries.StreamAsk: the keyword arguments named after `stream_ask`'s own parameters can never be in `extra`, since Python binds them to those parameters; the model does not exclude them from its `extra` map.
- Sse.Stream: the message of an HTTP status error is simplified to "HTTP status N"; httpx's own wording is not modelled.
- Dictionary ordering is not modelled: JSON objects and headers are maps.
- The `description` field of MODEL_MAPPING is not modelled, and neither are logging and the `logger.warning` calls.
- Not modelled: the server plumbing (FastAPI app, lifespan, `/v1/health`, `/v1/models`, `StreamingResponse` headers, middleware), the stub services (collections, memories, articles, `save_to_collection`, `to_article`), configuration loading and the example scripts. The thread lookup is modelled only as returning nothing.
- `PerplexityClient.close`, `__enter__` and `__exit__`: closing the underlying HTTP client is I/O.
- Http.HttpTransport.Enter: the timeout given to the client is a float and is not modelled.
- The SSE endpoint path and the request headers of `SSETransport.stream` are not modelled, because the request is given to the oracle as its arguments.
