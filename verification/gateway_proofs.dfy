/**
 Properties of the application layer across messages and sessions: the
 cache in front of the breaker, the breaker's invariant over a whole
 WebSocket session, one reply per answerable message, and the
 repeat-request behaviour of the two text flows.
 */
module GatewayProofs {
  import opened Common
  import opened Errors
  import CB = CircuitBreaker
  import BP = BreakerProofs
  import Cache
  import CacheProofs
  import Tts
  import opened Gateway

  /** The retried synthesis outcome the breaker would see for `text`. */
  function Synthesis(env: Env, w: World, text: string): Attempt<Bytes>
  {
    Tts.Synthesize(text, w.links, env.decodeFrame).result
  }

  /** A cache hit is answered from the cache whatever the synthesis endpoint
      would do, and leaves the breaker exactly as it was. */
  lemma HitIgnoresSynthesis(app: App, env: Env, w: World, links: nat -> Tts.Link, text: string)
    requires Cache.Get(app.cache, env.digest, text, w.now, w.getFault).value.Some?
    ensures Speak(app, env, w, text) == Speak(app, env, w.(links := links), text)
    ensures Speak(app, env, w, text).app.breaker == app.breaker
    ensures Speak(app, env, w, text).reply.AudioReply? && Speak(app, env, w, text).reply.cached
  {
  }

  /** While the breaker is open and its timeout has not run out, a cache miss
      is answered with the breaker's refusal, naming the service and the
      seconds left, and the breaker is left alone. */
  lemma OpenBreakerFailsFast(app: App, env: Env, w: World, text: string)
    requires app.breaker.state == CB.Open && !CB.ShouldAttemptReset(app.breaker, w.now)
    requires Cache.Get(app.cache, env.digest, text, w.now, w.getFault).value.None?
    ensures var o := Speak(app, env, w, text);
      && o.reply == ErrorReply("TTS service error: "
                               + CB.OpenMessage(app.breaker.config.name, CB.TimeUntilRetry(app.breaker, w.now)))
      && o.app.breaker == app.breaker
  {
    var step := CB.Call(app.breaker, w.now, w.done, Synthesis(env, w, text));
    assert step.verdict == CB.Rejected(CB.TimeUntilRetry(app.breaker, w.now));
  }

  /** Synthesised audio is cached: after a miss whose synthesis returned
      non-empty audio and whose cache write succeeded, any text with the same
      normalisation is answered from the cache until the entry expires, with
      the same normalised audio, and the second request does not reach the
      breaker. */
  lemma SynthesisThenHit(app: App, env: Env, w: World, w2: World, text: string, other: string, audio: Bytes)
    requires app.cache.client.Some? && !w.setFault && !w2.getFault
    requires Cache.Get(app.cache, env.digest, text, w.now, w.getFault).value.None?
    requires CB.Call(app.breaker, w.now, w.done, Synthesis(env, w, text)).verdict == CB.Returned(audio)
    requires |audio| > 0
    requires Cache.Normalize(other) == Cache.Normalize(text)
    requires w2.now < w.done + Cache.EffectiveTtl(None)
    ensures var first := Speak(app, env, w, text);
      var second := Speak(first.app, env, w2, other);
      && first.reply == AudioOf(env, text, audio, false)
      && second.reply.AudioReply? && second.reply.cached
      && second.reply.audio == first.reply.audio
      && second.app.breaker == first.app.breaker
  {
    var lookup := Cache.Get(app.cache, env.digest, text, w.now, w.getFault);
    CacheProofs.SetThenGet(lookup.service, env.digest, text, other, audio, None, w.done, w2.now);
  }

  /** The breaker after one dispatched message is the breaker after at most
      one guarded call: unchanged, or advanced by that call's outcome. */
  lemma HandleAdvancesBreaker(app: App, env: Env, w: World, m: Inbound)
    ensures var after := HandleMessage(app, env, w, m).app.breaker;
      || after == app.breaker
      || (m.Obj? && after == BP.Apply(app.breaker, BP.Invoke(w.now, w.done, Synthesis(env, w, StrippedField(m.fields, "text").value))))
  {
    if m.Obj? && Lookup(m.fields, "type") == Some(Str("text")) {
      var text := StrippedField(m.fields, "text");
      if text.Ok? && text.value != "" {
        var lookup := Cache.Get(app.cache, env.digest, text.value, w.now, w.getFault);
        if lookup.value.None? {
          assert HandleMessage(app, env, w, m).app.breaker
              == CB.Call(app.breaker, w.now, w.done, Synthesis(env, w, text.value)).breaker;
        }
      }
    }
  }

  /** The synthesis breaker keeps its invariant through a whole receive loop. */
  lemma {:induction false} LoopKeepsBreakerInv(app: App, env: Env, events: seq<Event>)
    requires BP.ValidConfig(app.breaker.config) && BP.Inv(app.breaker)
    ensures Loop(app, env, events).app.breaker.config == app.breaker.config
    ensures BP.Inv(Loop(app, env, events).app.breaker)
    decreases |events|
  {
    if |events| > 0 && events[0].Receive? {
      var m, w := events[0].message, events[0].w;
      HandleAdvancesBreaker(app, env, w, m);
      var h := HandleMessage(app, env, w, m);
      if h.app.breaker != app.breaker {
        BP.ApplyPreservesInv(app.breaker, BP.Invoke(w.now, w.done, Synthesis(env, w, StrippedField(m.fields, "text").value)));
      }
      if h.Replied? {
        LoopKeepsBreakerInv(h.app, env, events[1..]);
      }
    }
  }

  /** Starting from a freshly started application, the synthesis breaker
      satisfies its invariant after any WebSocket session, and the connection
      is no longer registered. */
  lemma SessionKeepsBreakerInv(client: Option<Cache.Store>, env: Env, id: int, events: seq<Event>)
    ensures var s := Session(Start(client), env, id, events);
      BP.Inv(s.app.breaker) && s.app.breaker.config == TtsBreakerConfig && s.app.connections == {}
  {
    var app := Start(client);
    LoopKeepsBreakerInv(app.(connections := app.connections + {id}), env, events);
  }

  /** A message the loop can answer: a JSON object whose `text` is a string
      (or absent) whenever its type is "text". */
  predicate Answerable(m: Inbound)
  {
    m.Obj? && (Lookup(m.fields, "type") == Some(Str("text")) ==> StrippedField(m.fields, "text").Ok?)
  }

  /** Every answerable message gets exactly one reply, in order, and the
      loop does not end early. */
  lemma {:induction false} EveryMessageAnswered(app: App, env: Env, events: seq<Event>)
    requires forall i :: 0 <= i < |events| ==> events[i].Receive? && Answerable(events[i].message)
    ensures |Loop(app, env, events).replies| == |events|
    ensures Loop(app, env, events).error == None
    decreases |events|
  {
    if |events| > 0 {
      var h := HandleMessage(app, env, events[0].w, events[0].message);
      assert h.Replied?;
      EveryMessageAnswered(h.app, env, events[1..]);
    }
  }

  /** A message that is not an object, or not JSON, ends the loop at once
      with no reply and nothing changed, whatever follows it. */
  lemma UnreadableEndsLoop(app: App, env: Env, w: World, m: Inbound, rest: seq<Event>)
    requires !m.Obj?
    ensures var s := Loop(app, env, [Receive(m, w)] + rest);
      s.replies == [] && s.app == app && s.error.Some?
  {
    assert ([Receive(m, w)] + rest)[0] == Receive(m, w);
  }

  /** Only a text message with non-empty text can change the application
      state: audio messages, empty messages and messages of any other type
      leave the cache counters, the store and the breaker alone. */
  lemma OnlySpeechChangesState(app: App, env: Env, w: World, m: Inbound)
    requires m.Obj?
    requires Lookup(m.fields, "type") != Some(Str("text")) || StrippedField(m.fields, "text") == Ok("")
    ensures HandleMessage(app, env, w, m).app == app
    ensures HandleMessage(app, env, w, m).Replied?
  {
  }

  /** Over REST, repeating a request for the same text answers the first time
      with normalised synthesised audio and the second time with the cached
      bytes exactly as stored, not normalised. */
  lemma RestRepeatReturnsRawAudio(app: App, env: Env, w: World, w2: World, request: Object, audio: Bytes)
    requires app.cache.client.Some? && !w.setFault && !w2.getFault
    requires "use_cache" !in request
    requires StrippedField(request, "text").Ok? && StrippedField(request, "text").value != ""
    requires Cache.Get(app.cache, env.digest, StrippedField(request, "text").value, w.now, w.getFault).value.None?
    requires CB.Call(app.breaker, w.now, w.done, Synthesis(env, w, StrippedField(request, "text").value)).verdict
             == CB.Returned(audio)
    requires |audio| > 0
    requires w2.now < w.done + Cache.EffectiveTtl(None)
    ensures var first := RestTts(app, env, w, request);
      var second := RestTts(first.app, env, w2, request);
      && first.reply == TtsBody(env.normalize(audio), false, StrippedField(request, "text").value)
      && second.reply == TtsBody(audio, true, StrippedField(request, "text").value)
  {
    var text := StrippedField(request, "text").value;
    var lookup := Cache.Get(app.cache, env.digest, text, w.now, w.getFault);
    CacheProofs.SetThenGet(lookup.service, env.digest, text, text, audio, None, w.done, w2.now);
  }

  /** Over REST with `use_cache` false, the cache is neither read nor written,
      so every request reaches the breaker. */
  lemma RestWithoutCacheAlwaysSynthesises(app: App, env: Env, w: World, request: Object)
    requires "use_cache" in request && !Truthy(request["use_cache"])
    requires StrippedField(request, "text").Ok? && StrippedField(request, "text").value != ""
    ensures var a := RestTts(app, env, w, request);
      && a.app.cache == app.cache
      && a.app.breaker == CB.Call(app.breaker, w.now, w.done, Synthesis(env, w, StrippedField(request, "text").value)).breaker
  {
  }

  /** The REST and WebSocket transcription paths agree: for the same audio
      field and language hint both succeed or both fail, with the same
      transcript and sentiment, or with the same error message (prefixed on
      the socket, a 500 over REST). */
  lemma TranscriptionPathsAgree(app: App, env: Env, w: World, request: Object)
    requires Truthy(LookupOrEmpty(request, "audio_base64"))
    ensures var rest := RestStt(env, w, request);
      var socket := Listen(env, w, LookupOrEmpty(request, "audio_base64"), Hint(request));
      && (rest.SttBody? <==> socket.TranscriptReply?)
      && (rest.SttBody? ==> rest.transcript == socket.transcript && rest.sentiment == socket.sentiment)
      && (rest.HttpError? ==> rest.status == 500 && socket == ErrorReply("STT service error: " + rest.detail))
  {
  }

  /** Health and statistics agree on the breaker, and both count the
      connection of a session in progress. */
  lemma ReportsAgree(app: App, id: int, pingFault: bool, infoFault: bool)
    requires id !in app.connections
    ensures var open := app.(connections := app.connections + {id});
      && HealthCheck(open, pingFault).activeConnections == |app.connections| + 1
      && GetStats(open, infoFault).activeConnections == |app.connections| + 1
      && GetStats(open, infoFault).breakerState == CB.StateValue(HealthCheck(open, pingFault).tts)
  {
  }
}
