# Realtime voice pipeline: resilient speech dispatch in Dafny

This project models the dispatch core of a realtime voice gateway. The gateway takes text or audio over a WebSocket or over REST:
- a text request is answered with synthesised speech;
- an audio request is answered with a transcript.

The model is made of pure functions over immutable values. Wall-clock time is an integer `now` in seconds. Everything outside the core is a parameter: the hash behind cache keys, base64 decoding, audio normalisation, sentiment analysis, and what the synthesis endpoint and the speech recogniser do on each attempt.

| file | module | models |
|---|---|---|
| `common.dfy` | `Common` | bytes, `Option`, and the Python string operations used by the core: `strip`, ASCII `lower`, `" ".join`, `str(int)` |
| `errors.dfy` | `Errors` | the exceptions that cross the core, `Attempt` (return or raise), and `str(e)` |
| `config.dfy` | `Config` | the settings defaults, `get_redis_url`, `is_production` |
| `circuit_breaker.dfy` | `CircuitBreaker` | the three-state breaker; each `call` is a step from breaker to verdict and next breaker |
| `breaker_registry.dfy` | `BreakerRegistry` | `MultiServiceCircuitBreaker` |
| `breaker_proofs.dfy` | `BreakerProofs` | invariants of reachable breakers; threshold and recovery behaviour over call sequences |
| `cache.dfy` | `Cache` | the Redis-backed deduplicating audio cache; the store is a map of key to value and expiry |
| `cache_proofs.dfy` | `CacheProofs` | key normalisation, set/get round trip, counter accounting, prefix-scoped clearing |
| `retry.dfy` | `Retry` | the `tenacity` retry decorators: attempt limit, retry filter, reraise or `RetryError` |
| `tts.dfy` | `Tts` | the synthesis client: request frames, frame accumulation, error mapping, retries, `close` |
| `stt.dfy` | `Stt` | the transcription client: segment collection and result assembly, retries, `transcribe_bytes` |
| `gateway.dfy` | `Gateway` | the application: WebSocket loop, REST endpoints, health and stats |
| `gateway_proofs.dfy` | `GatewayProofs` | the cache in front of the breaker; the breaker invariant over a session; one reply per message; repeat requests |

Some behaviours of the code, as modelled:
- A cached empty byte string reads as a miss.
- A `ttl` of `0` selects the default of 3600, like `None` does. A negative `ttl` survives the `or` default, and Redis then rejects the expiry, so `set` reports failure.
- `stop_after_attempt(n)` with `n < 1` still runs one attempt.
- In HALF_OPEN a failure re-opens the breaker and keeps counting failures; the count is not reset.
- The REST TTS endpoint returns a cache hit as stored, without normalisation. A fresh synthesis is returned normalised. The WebSocket path normalises both. `GatewayProofs.RestRepeatReturnsRawAudio` states this.
- The synthesis client retries only WebSocket, connection and timeout errors, and re-raises the last one. The transcription client retries every error and then raises a `RetryError`. So the two clients fail differently: `Tts.Synthesize` and `Stt.Transcribe` state how.

## Model

| member | source | states |
|---|---|---|
| Common.StripSlice | app/services/stt_service.py:74 | `strip()` returns the slice of its input left after removing whitespace at both ends; the removed ends are all whitespace and the result has none at either end |
| Common.TrimLeftShape | app/services/cache_service.py:69 | the left trim keeps the longest suffix that does not start with whitespace, and drops only whitespace |
| Common.TrimRightShape | app/services/cache_service.py:69 | the right trim keeps the longest prefix that does not end with whitespace, and drops only whitespace |
| Common.StripUnique | app/main.py:225 | whenever a string splits into whitespace, a core with no whitespace at either end, and whitespace, `strip()` returns exactly that core |
| Common.StripIgnoresPadding | app/services/cache_service.py:69 | adding whitespace around a string does not change its `strip()` |
| Common.StripIdempotent | app/main.py:130 | stripping an already stripped text changes nothing, so the handlers' strip before the cache's own strip is harmless |
| Common.JoinLength | app/services/stt_service.py:82 | a single-space join is as long as its parts plus one separator between each neighbouring pair |
| Common.IntToStringRoundTrip | app/utils/circuit_breaker.py:84-87 | the decimal rendering of the retry-after seconds parses back to the same number |
| Config.RedisUrl | app/config.py:57-61 | the URL starts with `redis://`; credentials `:pw@` appear exactly when the password is truthy, and an empty password counts as none |
| Config.IsProduction | app/config.py:63-65 | production exactly when debug is off |
| Config.PasswordOnlyAddsCredentials | app/config.py:59-61 | a password inserts the credentials segment after the scheme and changes nothing else in the URL |
| Config.DefaultsUsedByCore | app/config.py:28-44 | the defaults give a 3600 s cache TTL, three retries, a minimum wait no larger than the maximum, production mode, and `redis://localhost:6379/0` |
| CircuitBreaker.Create | app/utils/circuit_breaker.py:31-55 | a new breaker is CLOSED with both counters at zero and no failure time |
| CircuitBreaker.TimeUntilRetry | app/utils/circuit_breaker.py:155-162 | the wait is never negative, is at most the timeout when time has not gone backwards, is zero exactly when a reset may be attempted, and otherwise is exactly the least delay after which a reset may be attempted |
| CircuitBreaker.OnSuccess | app/utils/circuit_breaker.py:102-120 | HALF_OPEN counts the success and closes with both counters cleared at the success threshold; CLOSED clears the failure count; OPEN is untouched |
| CircuitBreaker.OnFailure | app/utils/circuit_breaker.py:122-145 | every failure is counted and time-stamped; HALF_OPEN re-opens with the success count cleared, without clearing the failure count; CLOSED opens exactly when the count reaches the threshold |
| CircuitBreaker.Admit | app/utils/circuit_breaker.py:76-87 | a call is refused exactly when OPEN and the timeout has not passed; an OPEN breaker past its timeout runs the call in HALF_OPEN with the success count cleared |
| CircuitBreaker.Call | app/utils/circuit_breaker.py:62-100 | a refused call changes no field and reports a positive wait; an admitted call returns the operation's value after recording the success on the admitted breaker, or re-raises its own error after recording the failure, stamped with the time the operation finished, and opening when required |
| CircuitBreaker.Reset | app/utils/circuit_breaker.py:164-170 | reset yields exactly the initial breaker for the same configuration |
| CircuitBreaker.GetStatus | app/utils/circuit_breaker.py:172-181 | the counters and failure time as they are; the wait only while OPEN, otherwise 0 |
| BreakerRegistry.GetOrCreate | app/utils/circuit_breaker.py:192-213 | an existing breaker is returned unchanged whatever thresholds are passed; an unknown name gets a new breaker with those thresholds, success threshold 2 and its own name |
| BreakerRegistry.GetOrCreateIdempotent | app/utils/circuit_breaker.py:206-213 | a second request for the same name returns what the first one did |
| BreakerRegistry.ResetAll | app/utils/circuit_breaker.py:219-222 | every registered breaker is back in its initial state with its configuration, and no name is added or removed |
| BreakerRegistry.AllStatus | app/utils/circuit_breaker.py:215-217 | one status per registered name, each exactly the status that breaker reports itself |
| BreakerRegistry.CallThrough | app/utils/circuit_breaker.py:192-213 | a call made on the breaker the registry hands out steps the registered breaker itself; other names keep their breakers; a newly registered breaker always runs the operation |
| BreakerRegistry.StatusSeesCall | app/utils/circuit_breaker.py:206-217 | after a call made through the registry, the status report shows the stepped breaker for that name and the earlier status for every other name |
| BreakerRegistry.ResetAllStatus | app/utils/circuit_breaker.py:215-222 | after resetting all breakers every name reports CLOSED, no counts, no failure time and no wait |
| BreakerProofs.ApplyPreservesInv | app/utils/circuit_breaker.py:62-170 | any call or reset keeps the reachable-state invariant |
| BreakerProofs.ReachableInvariant | app/utils/circuit_breaker.py:52-145 | from a fresh breaker with thresholds of at least one, after any calls: successes are counted only in HALF_OPEN and stay below the success threshold, CLOSED is below the failure threshold, OPEN and HALF_OPEN have reached it and have a failure time |
| BreakerProofs.ConsecutiveFailures | app/utils/circuit_breaker.py:122-145 | from a clean CLOSED breaker, k failed calls give failure count k and the breaker opens exactly when k reaches the failure threshold |
| BreakerProofs.HalfOpenRecovery | app/utils/circuit_breaker.py:102-117 | successes in HALF_OPEN are counted one by one and the success-threshold-th one closes the breaker with both counters cleared |
| BreakerProofs.OpenTimeoutThenRecovery | app/utils/circuit_breaker.py:76-117 | an OPEN breaker whose timeout has passed closes after success-threshold successful calls |
| BreakerProofs.RunSplit | app/utils/circuit_breaker.py:62-100 | running two call sequences one after the other is running their concatenation |
| BreakerProofs.WaitIsLeastDelay | app/utils/circuit_breaker.py:147-162 | a reset may be attempted after a delay exactly when the delay is at least the reported wait, so an OPEN breaker admits a call exactly then |
| BreakerProofs.StatusWaitBounded | app/utils/circuit_breaker.py:172-181 | the reported wait lies between 0 and the timeout |
| Cache.Key | app/services/cache_service.py:57-75 | the key is the `tts:audio:` prefix followed by the digest of the lower-cased, stripped text |
| Cache.Ping | app/services/cache_service.py:47-55 | true exactly when a client exists and answers |
| Cache.Get | app/services/cache_service.py:77-106 | without a client or on a store error: no value and no counter change; otherwise exactly one counter moves, and a live non-empty value is returned as a hit |
| Cache.EffectiveTtl | app/services/cache_service.py:126 | `None` and 0 select the 3600 s default; any other value is kept |
| Cache.Set | app/services/cache_service.py:108-135 | success exactly when a client exists, the store does not fault and the expiry is positive; on success the entry is stored under the key with that expiry; on failure nothing changes; counters never move |
| Cache.Delete | app/services/cache_service.py:137-156 | true exactly when a live key was removed; the key is gone, every other key keeps its entry, and no key is added |
| Cache.ClearAll | app/services/cache_service.py:158-176 | on success exactly the prefixed keys are gone and the others keep their entries, even when nothing matched; failure without a client or on a store error |
| Cache.Size | app/services/cache_service.py:210-226 | the number of live prefixed keys, and 0 without a client or on a store error |
| Cache.GetStats | app/services/cache_service.py:178-208 | the total is hits plus misses; the hit rate is the exact percentage of hits (0 when there were no lookups) and equals the reduction percentage; connected when the info request succeeds |
| CacheProofs.KeyIgnoresCaseAndPadding | app/services/cache_service.py:68-73 | texts that differ only in ASCII case and surrounding whitespace share one key, whatever the digest is |
| CacheProofs.KeyOfStrippedText | app/services/cache_service.py:68-73 | stripping a text before the lookup does not change its key |
| CacheProofs.SetThenGet | app/services/cache_service.py:77-135 | after a successful write of non-empty bytes, a read of any text with the same normalisation before expiry returns those bytes and counts one hit |
| CacheProofs.EmptyValueReadsAsMiss | app/services/cache_service.py:95-102 | a stored empty value is read back as a miss |
| CacheProofs.LookupAccounting | app/services/cache_service.py:87-106 | over any sequence of reads, hits plus misses grow by exactly the number of reads the store answered |
| CacheProofs.SetGrowsSize | app/services/cache_service.py:210-226 | writing a key that was not live adds exactly one to the size |
| CacheProofs.ClearAllEmptiesCache | app/services/cache_service.py:158-176 | after clearing, the size is 0 and non-prefixed keys survive |
| CacheProofs.SetDeleteGet | app/services/cache_service.py:77-156 | an entry written and deleted before it expires reports the deletion, and a later read of the same text misses |
| CacheProofs.DeleteShrinksSize | app/services/cache_service.py:137-226 | deleting a live key lowers the size by exactly one |
| Retry.Limit | app/services/tts_service.py:30 | at least one attempt always runs, and exactly `n` when `n` is at least one |
| Retry.RunFrom | app/services/tts_service.py:29-38 | attempts run in order; every attempt before the last failed with a retryable error; a success is returned as is; a retryable last failure means the limit was reached |
| Retry.Run | app/services/tts_service.py:29-38 | the decorated call: between one and the limit attempts; a failure is the final attempt's error, wrapped in a `RetryError` only when retries ran out without `reraise` |
| Retry.WrappingPolicyOutcome | app/services/stt_service.py:30-33 | under a retry-everything policy without `reraise`, the call succeeds exactly when one of the allowed attempts succeeds, with the value of the first attempt that succeeded, and otherwise raises a `RetryError` around the last attempt's error |
| Tts.RequestFrames | app/services/tts_service.py:55-68 | exactly three frames: the settings frame with text " ", the text asking to trigger generation, and the empty end marker |
| Tts.Accumulate | app/services/tts_service.py:70-83 | the receive loop computes the fold `Gather`: decoded audio fields in order, with missing, null or empty fields skipped, stopping after the first final frame |
| Tts.GatherStopsAtFinal | app/services/tts_service.py:77-79 | frames after the first final frame never affect the result |
| Tts.GatherSkipsEmptyFrame | app/services/tts_service.py:74-76 | a non-final frame without audio can be removed without changing the result |
| Tts.MapError | app/services/tts_service.py:85-91 | a WebSocket error becomes a connection error prefixed "TTS WebSocket error: "; every other error passes through unchanged |
| Tts.TextToSpeech | app/services/tts_service.py:39-91 | a refused connection sends nothing and raises its mapped error; an opened one sends the three frames and leaves the socket closed; the audio is returned when a final frame arrived or the stream closed normally; a broken stream raises its mapped error, and an abnormal close without a final frame raises a connection error; no raw WebSocket error escapes |
| Tts.Synthesize | app/services/tts_service.py:29-91 | one to three attempts; every attempt before the last failed with a connection or timeout error; fewer than three attempts means the last succeeded or failed otherwise; the result is the last attempt's own result, never wrapped |
| Tts.WebSocketFailuresUseEveryAttempt | app/services/tts_service.py:29-91 | when every connection is refused with a WebSocket error, all three attempts run and the third error is raised as a connection error |
| Tts.OtherFailureStopsAtOnce | app/services/tts_service.py:29-91 | an error that is neither a connection nor a timeout error ends the call after the first attempt, raised as it is |
| Tts.SuccessStopsRetrying | app/services/tts_service.py:29-91 | after timed-out attempts, the first attempt whose stream decodes and ends properly is the last one, and its audio is returned |
| Tts.Close | app/services/tts_service.py:93-99 | the socket's close is called exactly when a socket exists and is open; a failure of that close is swallowed |
| Tts.CloseAfterSynthesis | app/services/tts_service.py:45-99 | after a synthesis that connected, `close` has nothing to do; after a successful close, another one is a no-op |
| Stt.Assemble | app/services/stt_service.py:66-87 | one reported segment per input segment, in order, with its text stripped and its timings and scores copied; the text is the single-space join of the stripped texts; language data are copied from the info; no segments give "" |
| Stt.Collect | app/services/stt_service.py:66-87 | the collection loop with its two lists builds exactly `Assemble`'s result |
| Stt.TranscriptLength | app/services/stt_service.py:82 | the transcript is as long as the stripped texts plus one space between each neighbouring pair |
| Stt.RetriedRecognition | app/services/stt_service.py:30-33 | the transcription policy succeeds exactly when one of three recognitions does, with the first successful recognition assembled; otherwise a `RetryError` wraps the third attempt's error |
| Stt.Transcribe | app/services/stt_service.py:30-99 | succeeds exactly when one of the three attempts recognises the audio, returning the first successful recognition assembled; otherwise raises a `RetryError` around the third attempt's error |
| Stt.TranscribeBytes | app/services/stt_service.py:101-126 | exactly the result or error of transcribing the same audio with the same hint |
| Gateway.Lookup | app/main.py:221 | `get` returns the field exactly when the key is present |
| Gateway.LookupOrEmpty | app/main.py:290 | a missing field reads as the empty string |
| Gateway.StrippedField | app/main.py:225 | a missing text is "", a string is stripped, and any other value raises |
| Gateway.Hint | app/main.py:307 | the language hint is the field's string when there is one |
| Gateway.Start | app/main.py:72-82 | the application starts with zeroed cache counters, a fresh breaker (5 failures, 60 s, "TTS Service") and no connections |
| Gateway.AudioOf | app/main.py:260-284 | the reply carries the normalised audio, its duration at 22050 samples per second, the cache flag, and the sentiment of the request text |
| Gateway.Speak | app/main.py:232-286 | a hit answers from the cache and skips the breaker; on a miss the breaker guards synthesis: a refusal or failure gives a "TTS service error: " reply with no cache write, and fresh raw audio is written to the cache and answered as not cached |
| Gateway.Listen | app/main.py:295-345 | decode, transcribe and analyse the transcript; any failure gives a "STT service error: " reply |
| Gateway.HandleMessage | app/main.py:216-354 | non-JSON or non-object input and a non-string text raise out of the loop; empty text and empty audio get their error replies; an unknown type is named in the reply; connections never change |
| Gateway.Loop | app/main.py:215-359 | the first message is handled: its reply is the first reply sent, or its escaping exception ends the loop with no reply and the state it left; a disconnect (or no further event) ends the loop with nothing sent; at most one reply per message; connections unchanged |
| Gateway.LoopContinues | app/main.py:215-354 | after an answered message the loop continues from the state that message left, its replies following that message's reply |
| Gateway.Session | app/main.py:209-362 | the connection id is registered while the loop runs and is removed however it ends |
| Gateway.RestTts | app/main.py:119-156 | empty text is a 400; a hit (only with `use_cache`) is returned as stored and skips the breaker; on a miss the breaker guards synthesis: a refusal or failure is a 500 carrying its message with no cache write, and fresh audio is cached when `use_cache` holds and returned normalised |
| Gateway.RestStt | app/main.py:159-196 | missing or falsy audio is a 400; decode and transcription failures are 500s with the error's message; success returns the transcript and its sentiment |
| Gateway.HealthCheck | app/main.py:91-102 | always healthy, with the connection count, whether the cache answers a ping, and the breaker state |
| Gateway.GetStats | app/main.py:105-116 | the connection count, the cache statistics, and the breaker's state name and failure count |
| GatewayProofs.HitIgnoresSynthesis | app/main.py:234-239 | on a cache hit the reply and the state do not depend on the synthesis endpoint, and the breaker is untouched |
| GatewayProofs.OpenBreakerFailsFast | app/main.py:243-258 | while the breaker is open, a miss is answered with the refusal naming the service and the seconds left, and the breaker is unchanged |
| GatewayProofs.SynthesisThenHit | app/main.py:234-264 | after fresh audio is cached, any text with the same normalisation is answered from the cache with the same normalised audio, without reaching the breaker |
| GatewayProofs.HandleAdvancesBreaker | app/main.py:243-247 | one message moves the breaker by at most one guarded call, whose outcome is the whole retried synthesis |
| GatewayProofs.LoopKeepsBreakerInv | app/main.py:215-354 | the breaker invariant holds throughout a receive loop |
| GatewayProofs.SessionKeepsBreakerInv | app/main.py:209-362 | from start-up, any session leaves a breaker that satisfies the invariant and no registered connection |
| GatewayProofs.EveryMessageAnswered | app/main.py:216-354 | every JSON-object message whose text (if it is a text message) is a string gets exactly one reply, and the loop does not end |
| GatewayProofs.UnreadableEndsLoop | app/main.py:218-221 | input that is not a JSON object ends the loop at once, with no reply and no state change |
| GatewayProofs.OnlySpeechChangesState | app/main.py:289-354 | audio messages, empty text and unknown types leave the cache and the breaker alone |
| GatewayProofs.RestRepeatReturnsRawAudio | app/main.py:137-153 | over REST the first request returns normalised fresh audio and a repeat returns the cached raw bytes |
| GatewayProofs.RestWithoutCacheAlwaysSynthesises | app/main.py:131-148 | with `use_cache` false the cache is untouched and the request reaches the breaker |
| GatewayProofs.TranscriptionPathsAgree | app/main.py:159-196 | for the same audio and hint, REST and the socket both return the same transcript and sentiment, or both fail with the same message |
| GatewayProofs.ReportsAgree | app/main.py:91-116 | health and stats count an open session's connection and report the same breaker state |

## Left out

- Common.Lower: folds ASCII letters only; Python's `str.lower()` covers all of Unicode.
- Cache.Key: the SHA-256 hex digest is the parameter `digest`, and the model relies on no property of it, not even injectivity. Base64 decoding, both of audio frames and of the client's audio field, is also a parameter, and it may fail.
- Cache.Key: texts holding an unpaired surrogate (JSON such as `"\ud800"` decodes to one) are outside the model, since a Dafny string holds only Unicode scalar values. For such a text, encoding it to UTF-8 for the key raises `UnicodeEncodeError`, which is not a `RedisError` and escapes `get`. On the socket that ends the session; over REST it is an unhandled server error. So `GatewayProofs.EveryMessageAnswered` covers only texts the model can represent.
- Network I/O, `asyncio` concurrency and the absence of locks are not modelled. The model runs one handler step at a time.
- The breaker reads the clock with `datetime.now()`. The model uses whole seconds instead. Each guarded call has two instants: the admission check reads the time the call starts, and a failure is stamped with the time the awaited synthesis finished, after all its retries (`World.done`).
- CircuitBreaker.OpenMessage: the retry-after seconds are printed as an integer. The source prints a float rounded with `.0f`, which can show `0s` in the last half second.
- Latencies (`latency_ms`), the backoff waits between retries, and the `round(..., 2)` of the cache hit rate are not modelled. The hit rate is kept exact.
- Gateway.AudioOf: the reply's duration is kept as an exact rational, not as the float the source divides into.
- Audio normalisation and sentiment analysis (`audio_processor`, `sentiment_service`) are parameters that always succeed.
- The lifespan hooks are not modelled: `connect`, `disconnect` and the shutdown `close`. A started application simply has a client or none. The `INFO` command counts in `get_stats` are also left out.
- `detect_language` is not modelled, and neither are the recogniser's own parameters (beam size, VAD).
- Stt.TranscribeBytes: the temporary file and its removal are not modelled.
- Errors.Message: a `RetryError` message omits the future's memory address.
- Tts.TextToSpeech: several failures are not told apart; the attempt's link is just "refused":
  - the connection fails;
  - a frame fails to send after connecting.

  Received frames are JSON objects whose `audio` is a string when present.
- Tts.Close: follows the client's test of the socket's `closed` attribute. The asyncio connection class the client imports may not provide that attribute; then `close` after a connected synthesis would raise `AttributeError`. The model assumes the attribute exists.
- Tts.Synthesize: the client's socket is not threaded across retries. Each attempt starts from no socket.
- Gateway.Hint: a `language` field that is neither a string nor null is passed to the recogniser as no hint.
- Gateway.HandleMessage: a failure to send a reply on the socket is not modelled.
- Gateway.Loop: ends when the event list runs out, as if the client disconnected.
- Config.Defaults: reading settings from the environment, `.env` files and `lru_cache` are not modelled. The core always uses the defaults: the cache TTL, the synthesis policy and the transcription policy are fixed to them.
- The HTML root page, static files, templates and CORS are not modelled.
