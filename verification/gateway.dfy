/**
 The application layer (app/main.py): the `/ws/voice` WebSocket loop that
 dispatches text messages to cached, breaker-guarded synthesis and audio
 messages to transcription, the two REST endpoints, and the health and stats
 reports. The process-wide singletons (the cache service, the synthesis
 breaker and the set of active connection ids) form one immutable `App` value
 that every handler takes and returns.

 What the handlers cannot see is passed in: the collaborators that do not
 change (`Env`: the key digest, base64 decoding, audio normalisation and
 sentiment analysis) and, per message, the `World`: the clock, whether the
 store faults on this lookup or write, what the synthesis endpoint does on
 each retry attempt, and what the recogniser returns on each attempt.
 */
module Gateway {
  import opened Common
  import opened Errors
  import CB = CircuitBreaker
  import Cache
  import Tts
  import Stt

  // ---------------------------------------------------------------------------
  // Inbound JSON
  // ---------------------------------------------------------------------------

  /** A JSON value as the handlers inspect it: a string, or any other value
      with its Python class name, its `str()` rendering and its truthiness
      (`null` is `Other("NoneType", "None", false)`). */
  datatype Value = Str(s: string) | Other(typeName: string, rendered: string, truthy: bool)

  /** A decoded JSON object. */
  type Object = map<string, Value>

  /** `bool(v)`: a string is true when non-empty. */
  predicate Truthy(v: Value)
  {
    match v
    case Str(s) => s != ""
    case Other(_, _, t) => t
  }

  /** `obj.get(key)`. */
  function Lookup(o: Object, key: string): (r: Option<Value>)
    ensures r.Some? <==> key in o
    ensures r.Some? ==> r.value == o[key]
  {
    if key in o then Some(o[key]) else None
  }

  /** `obj.get(key, "")`. */
  function LookupOrEmpty(o: Object, key: string): (v: Value)
    ensures key in o ==> v == o[key]
    ensures key !in o ==> v == Str("")
  {
    if key in o then o[key] else Str("")
  }

  /** `str(v)` of what `obj.get` returned, as an f-string shows it. */
  function Render(v: Option<Value>): string
  {
    match v
    case None => "None"
    case Some(Str(s)) => s
    case Some(Other(_, r, _)) => r
  }

  /** `obj.get(key, "").strip()`: a missing key reads as the empty string; a
      value that is not a string has no `strip` and raises. */
  function StrippedField(o: Object, key: string): (r: Attempt<string>)
    ensures key !in o ==> r == Ok("")
    ensures key in o && o[key].Str? ==> r == Ok(Strip(o[key].s))
    ensures r.Err? <==> key in o && o[key].Other?
  {
    match LookupOrEmpty(o, key)
    case Str(s) => Ok(Strip(s))
    case Other(t, _, _) => Err(OtherError("AttributeError", "'" + t + "' object has no attribute 'strip'"))
  }

  /** The language hint forwarded to the recogniser: the field's string, or
      no hint when it is missing or not a string. */
  function Hint(o: Object): (h: Option<string>)
    ensures h.Some? <==> "language" in o && o["language"].Str?
    ensures h.Some? ==> h.value == o["language"].s
  {
    match Lookup(o, "language")
    case Some(Str(s)) => Some(s)
    case _ => None
  }

  /** What `receive_text()` followed by `json.loads` yields for one message. */
  datatype Inbound =
    /** Text that is not JSON: `json.loads` raises. */
    | Malformed(detail: string)
    /** JSON that is not an object (a list, a number, ...): it has no `get`. */
    | NonObject(typeName: string)
    | Obj(fields: Object)

  // ---------------------------------------------------------------------------
  // State, collaborators and replies
  // ---------------------------------------------------------------------------

  /** The result of `SentimentService.analyze`; `category` is its `label`. */
  datatype Sentiment = Sentiment(polarity: real, subjectivity: real, category: string)

  /** The collaborators outside the core. `b64` is `base64.b64decode` applied
      to the client's field (a non-string or invalid field fails). */
  datatype Env = Env(
    digest: string -> string,
    decodeFrame: string -> Attempt<Bytes>,
    b64: Value -> Attempt<Bytes>,
    normalize: Bytes -> Bytes,
    sentiment: string -> Sentiment)

  /** What the outside world does while one message is handled: `now` is the
      clock when the message is taken up and `done` the clock when a guarded
      synthesis returned or raised (after all its retries). */
  datatype World = World(
    now: int,
    done: int,
    getFault: bool,
    setFault: bool,
    links: nat -> Tts.Link,
    recognize: Stt.Recognizer)

  /** The module-level singletons of the application. */
  datatype App = App(cache: Cache.CacheService, breaker: CB.Breaker, connections: set<int>)

  /** The breaker guarding synthesis: five failures open it for sixty seconds,
      and the default two successes close it again. */
  const TtsBreakerConfig := CB.Config(5, 60, 2, "TTS Service")

  /** The application at start-up, with the cache's client as `connect` left it. */
  function Start(client: Option<Cache.Store>): (app: App)
    ensures app.cache == Cache.CacheService(client, 0, 0)
    ensures app.breaker == CB.Create(TtsBreakerConfig)
    ensures app.connections == {}
  {
    App(Cache.CacheService(client, 0, 0), CB.Create(TtsBreakerConfig), {})
  }

  /** The rate the approximate duration of a reply's audio is computed with. */
  const SampleRate: int := 22050

  /** A message sent back on the WebSocket. */
  datatype Reply =
    | AudioReply(audio: Bytes, duration: real, cached: bool, sentiment: Sentiment)
    | TranscriptReply(transcript: Stt.Transcript, sentiment: Sentiment)
    | ErrorReply(message: string)

  /** An audio reply for `audio` as fetched or synthesised: the normalised
      audio, its approximate duration, and the sentiment of the request text. */
  function AudioOf(env: Env, text: string, audio: Bytes, cached: bool): (r: Reply)
    ensures r.AudioReply? && r.audio == env.normalize(audio) && r.cached == cached
    ensures r.duration * SampleRate as real == |env.normalize(audio)| as real
    ensures r.sentiment == env.sentiment(text)
  {
    var normalized := env.normalize(audio);
    AudioReply(normalized, |normalized| as real / SampleRate as real, cached, env.sentiment(text))
  }

  /** The message of the exception a refused synthesis call raises. */
  function Refusal(b: CB.Breaker, retryAfter: int): string
  {
    Message(CircuitOpen(CB.OpenMessage(b.config.name, retryAfter)))
  }

  // ---------------------------------------------------------------------------
  // The WebSocket text flow
  // ---------------------------------------------------------------------------

  datatype Outcome = Outcome(reply: Reply, app: App)

  /** The text flow for a non-empty stripped text. The cache is consulted
      first; a hit is answered from it without touching the breaker. On a miss
      the breaker guards the retried synthesis: a refusal or a failure becomes
      an error reply, and fresh audio is written to the cache (a failed write
      is ignored) and answered with `cached` false. */
  function Speak(app: App, env: Env, w: World, text: string): (o: Outcome)
    ensures o.app.connections == app.connections
    ensures o.app.cache.client.None? ==> o.app.cache.client == app.cache.client
    ensures var lookup := Cache.Get(app.cache, env.digest, text, w.now, w.getFault);
      && (lookup.value.Some? ==>
            o == Outcome(AudioOf(env, text, lookup.value.value, true), app.(cache := lookup.service)))
      && (lookup.value.None? ==>
            var step := CB.Call(app.breaker, w.now, w.done, Tts.Synthesize(text, w.links, env.decodeFrame).result);
            && o.app.breaker == step.breaker
            && (step.verdict.Rejected? ==>
                  o.reply == ErrorReply("TTS service error: " + Refusal(app.breaker, step.verdict.retryAfter))
                  && o.app.cache == lookup.service)
            && (step.verdict.Raised? ==>
                  o.reply == ErrorReply("TTS service error: " + Message(step.verdict.error))
                  && o.app.cache == lookup.service)
            && (step.verdict.Returned? ==>
                  o.reply == AudioOf(env, text, step.verdict.value, false)
                  && o.app.cache
                     == Cache.Set(lookup.service, env.digest, text, step.verdict.value, None, w.done, w.setFault).service))
  {
    var lookup := Cache.Get(app.cache, env.digest, text, w.now, w.getFault);
    if lookup.value.Some? then
      Outcome(AudioOf(env, text, lookup.value.value, true), app.(cache := lookup.service))
    else
      var step := CB.Call(app.breaker, w.now, w.done, Tts.Synthesize(text, w.links, env.decodeFrame).result);
      var guarded := app.(cache := lookup.service, breaker := step.breaker);
      match step.verdict
      case Rejected(retryAfter) =>
        Outcome(ErrorReply("TTS service error: " + Refusal(app.breaker, retryAfter)), guarded)
      case Raised(e) =>
        Outcome(ErrorReply("TTS service error: " + Message(e)), guarded)
      case Returned(audio) =>
        var stored := Cache.Set(lookup.service, env.digest, text, audio, None, w.done, w.setFault);
        Outcome(AudioOf(env, text, audio, false), guarded.(cache := stored.service))
  }

  // ---------------------------------------------------------------------------
  // The WebSocket audio flow
  // ---------------------------------------------------------------------------

  /** The audio flow for a truthy `audio` field: decode, transcribe with the
      hint, analyse the transcript's sentiment; any exception on the way is
      answered as an STT error. It never changes the application state. */
  function Listen(env: Env, w: World, audio: Value, hint: Option<string>): (r: Reply)
    ensures env.b64(audio).Err? ==> r == ErrorReply("STT service error: " + Message(env.b64(audio).error))
    ensures env.b64(audio).Ok? ==>
      var t := Stt.TranscribeBytes(env.b64(audio).value, hint, w.recognize);
      && (t.Err? ==> r == ErrorReply("STT service error: " + Message(t.error)))
      && (t.Ok? ==> r == TranscriptReply(t.value, env.sentiment(t.value.text)))
  {
    match env.b64(audio)
    case Err(e) => ErrorReply("STT service error: " + Message(e))
    case Ok(bytes) =>
      match Stt.TranscribeBytes(bytes, hint, w.recognize)
      case Err(e) => ErrorReply("STT service error: " + Message(e))
      case Ok(t) => TranscriptReply(t, env.sentiment(t.text))
  }

  // ---------------------------------------------------------------------------
  // One message of the loop
  // ---------------------------------------------------------------------------

  /** The result of one turn of the receive loop: a reply and the loop goes
      on, or an exception that escapes the loop and ends the session. */
  datatype Handled = Replied(reply: Reply, app: App) | Failed(error: Exc, app: App)

  function InvalidType(t: Option<Value>): string
  {
    "Invalid message type: " + Render(t) + ". Expected 'text' or 'audio'"
  }

  /** One turn of the loop. Input that is not a JSON object, and a text
      message whose `text` is not a string, raise out of the loop. A text
      message dispatches to `Speak` unless its stripped text is empty; an
      audio message dispatches to `Listen` unless its `audio` is falsy; any
      other `type` (or none) is answered with an error naming it. Only
      `Speak` changes the application state. */
  function HandleMessage(app: App, env: Env, w: World, m: Inbound): (h: Handled)
    ensures h.app.connections == app.connections
    ensures m.Malformed? ==> h == Failed(OtherError("JSONDecodeError", m.detail), app)
    ensures m.NonObject? ==> h.Failed? && h.app == app
    ensures m.Obj? && Lookup(m.fields, "type") == Some(Str("text")) ==>
      var text := StrippedField(m.fields, "text");
      && (text.Err? ==> h == Failed(text.error, app))
      && (text == Ok("") ==> h == Replied(ErrorReply("Empty text"), app))
      && (text.Ok? && text.value != "" ==>
            var o := Speak(app, env, w, text.value);
            h == Replied(o.reply, o.app))
    ensures m.Obj? && Lookup(m.fields, "type") == Some(Str("audio")) ==>
      var audio := LookupOrEmpty(m.fields, "audio");
      && (!Truthy(audio) ==> h == Replied(ErrorReply("Empty audio data"), app))
      && (Truthy(audio) ==> h == Replied(Listen(env, w, audio, Hint(m.fields)), app))
    ensures m.Obj? && Lookup(m.fields, "type") !in {Some(Str("text")), Some(Str("audio"))} ==>
      h == Replied(ErrorReply(InvalidType(Lookup(m.fields, "type"))), app)
  {
    match m
    case Malformed(d) => Failed(OtherError("JSONDecodeError", d), app)
    case NonObject(t) => Failed(OtherError("AttributeError", "'" + t + "' object has no attribute 'get'"), app)
    case Obj(o) =>
      var messageType := Lookup(o, "type");
      if messageType == Some(Str("text")) then
        match StrippedField(o, "text")
        case Err(e) => Failed(e, app)
        case Ok(text) =>
          if text == "" then Replied(ErrorReply("Empty text"), app)
          else
            var out := Speak(app, env, w, text);
            Replied(out.reply, out.app)
      else if messageType == Some(Str("audio")) then
        var audio := LookupOrEmpty(o, "audio");
        if !Truthy(audio) then Replied(ErrorReply("Empty audio data"), app)
        else Replied(Listen(env, w, audio, Hint(o)), app)
      else
        Replied(ErrorReply(InvalidType(messageType)), app)
  }

  // ---------------------------------------------------------------------------
  // A whole WebSocket session
  // ---------------------------------------------------------------------------

  /** What the client does next: send one message (handled in the world `w`),
      or disconnect. */
  datatype Event = Receive(message: Inbound, w: World) | Disconnect

  /** The replies sent, the state left behind, and the exception that ended
      the loop (none when the client disconnected or stopped sending). */
  datatype Served = Served(replies: seq<Reply>, app: App, error: Option<Exc>)

  /** The receive loop: messages are handled in order until the client
      disconnects or a message raises out of the loop. */
  function Loop(app: App, env: Env, events: seq<Event>): (s: Served)
    ensures s.app.connections == app.connections
    ensures |s.replies| <= |events|
    ensures |events| == 0 || events[0].Disconnect? ==> s == Served([], app, None)
    ensures |events| > 0 && events[0].Receive? ==>
      var h := HandleMessage(app, env, events[0].w, events[0].message);
      && (h.Failed? ==> s == Served([], h.app, Some(h.error)))
      && (h.Replied? ==> |s.replies| >= 1 && s.replies[0] == h.reply)
    decreases |events|
  {
    if |events| == 0 then Served([], app, None)
    else
      match events[0]
      case Disconnect => Served([], app, None)
      case Receive(m, w) =>
        match HandleMessage(app, env, w, m)
        case Failed(e, after) => Served([], after, Some(e))
        case Replied(r, after) =>
          var rest := Loop(after, env, events[1..]);
          Served([r] + rest.replies, rest.app, rest.error)
  }

  /** After a message that was answered, the loop goes on from the state the
      message left: the rest of the replies, the final state and the ending
      are those of the loop over the remaining events. */
  lemma LoopContinues(app: App, env: Env, events: seq<Event>)
    requires |events| > 0 && events[0].Receive?
    requires HandleMessage(app, env, events[0].w, events[0].message).Replied?
    ensures var h := HandleMessage(app, env, events[0].w, events[0].message);
      var rest := Loop(h.app, env, events[1..]);
      Loop(app, env, events) == Served([h.reply] + rest.replies, rest.app, rest.error)
  {
  }

  /** `websocket_endpoint` for the connection `id`: the id is registered for
      the duration of the loop and discarded however the loop ends. */
  function Session(app: App, env: Env, id: int, events: seq<Event>): (s: Served)
    ensures s.app.connections == app.connections - {id}
    ensures var served := Loop(app.(connections := app.connections + {id}), env, events);
      s.replies == served.replies && s.error == served.error
      && s.app.cache == served.app.cache && s.app.breaker == served.app.breaker
  {
    var served := Loop(app.(connections := app.connections + {id}), env, events);
    served.(app := served.app.(connections := served.app.connections - {id}))
  }

  // ---------------------------------------------------------------------------
  // REST endpoints
  // ---------------------------------------------------------------------------

  /** The answer of a REST endpoint: a JSON body, an `HTTPException` the
      handler raised on purpose, or an exception raised outside the handler's
      `try` (which the framework answers with a generic server error). */
  datatype HttpReply =
    | TtsBody(audio: Bytes, cached: bool, text: string)
    | SttBody(transcript: Stt.Transcript, sentiment: Sentiment)
    | HttpError(status: int, detail: string)
    | Unhandled(error: Exc)

  datatype Answered = Answered(reply: HttpReply, app: App)

  /** `POST /api/tts`. The stripped text is required (400). With `use_cache`
      truthy (the default) a cache hit is returned as stored, not normalised;
      otherwise the guarded synthesis runs, its audio is cached when
      `use_cache` is truthy, and is returned normalised. A refusal or failure
      is a 500 carrying the exception's message. */
  function RestTts(app: App, env: Env, w: World, request: Object): (a: Answered)
    ensures a.app.connections == app.connections
    ensures StrippedField(request, "text").Err? ==>
      a == Answered(Unhandled(StrippedField(request, "text").error), app)
    ensures StrippedField(request, "text") == Ok("") ==> a == Answered(HttpError(400, "Text is required"), app)
    ensures "use_cache" in request && !Truthy(request["use_cache"]) ==> a.app.cache == app.cache
    ensures StrippedField(request, "text").Ok? && StrippedField(request, "text").value != "" ==>
      var text := StrippedField(request, "text").value;
      var useCache := "use_cache" !in request || Truthy(request["use_cache"]);
      var lookup :=
        if useCache then Cache.Get(app.cache, env.digest, text, w.now, w.getFault)
        else Cache.Lookup(None, app.cache);
      && (lookup.value.Some? ==> a == Answered(TtsBody(lookup.value.value, true, text), app.(cache := lookup.service)))
      && (lookup.value.None? ==>
            var step := CB.Call(app.breaker, w.now, w.done, Tts.Synthesize(text, w.links, env.decodeFrame).result);
            && a.app.breaker == step.breaker
            && (step.verdict.Rejected? ==>
                  a.reply == HttpError(500, Refusal(app.breaker, step.verdict.retryAfter))
                  && a.app.cache == lookup.service)
            && (step.verdict.Raised? ==>
                  a.reply == HttpError(500, Message(step.verdict.error)) && a.app.cache == lookup.service)
            && (step.verdict.Returned? ==>
                  a.reply == TtsBody(env.normalize(step.verdict.value), false, text)
                  && a.app.cache
                     == if useCache
                        then Cache.Set(lookup.service, env.digest, text, step.verdict.value, None, w.done, w.setFault).service
                        else lookup.service))
    ensures a.reply.TtsBody? && a.reply.cached ==>
      a.reply.text == StrippedField(request, "text").value
      && Cache.Get(app.cache, env.digest, a.reply.text, w.now, w.getFault).value == Some(a.reply.audio)
      && a.app.breaker == app.breaker
    ensures a.reply.TtsBody? && !a.reply.cached ==>
      a.reply.text == StrippedField(request, "text").value
      && exists audio :: a.reply.audio == env.normalize(audio)
           && CB.Call(app.breaker, w.now, w.done, Tts.Synthesize(a.reply.text, w.links, env.decodeFrame).result).verdict
              == CB.Returned(audio)
    ensures a.reply.HttpError? && a.reply.status == 500 ==> a.app.cache.client == app.cache.client
  {
    match StrippedField(request, "text")
    case Err(e) => Answered(Unhandled(e), app)
    case Ok(text) =>
      if text == "" then Answered(HttpError(400, "Text is required"), app)
      else
        var useCache := if "use_cache" in request then Truthy(request["use_cache"]) else true;
        var lookup :=
          if useCache then Cache.Get(app.cache, env.digest, text, w.now, w.getFault)
          else Cache.Lookup(None, app.cache);
        if lookup.value.Some? then
          Answered(TtsBody(lookup.value.value, true, text), app.(cache := lookup.service))
        else
          var step := CB.Call(app.breaker, w.now, w.done, Tts.Synthesize(text, w.links, env.decodeFrame).result);
          var guarded := app.(cache := lookup.service, breaker := step.breaker);
          match step.verdict
          case Rejected(retryAfter) => Answered(HttpError(500, Refusal(app.breaker, retryAfter)), guarded)
          case Raised(e) => Answered(HttpError(500, Message(e)), guarded)
          case Returned(audio) =>
            var cache :=
              if useCache then Cache.Set(lookup.service, env.digest, text, audio, None, w.done, w.setFault).service
              else lookup.service;
            Answered(TtsBody(env.normalize(audio), false, text), guarded.(cache := cache))
  }

  /** `POST /api/stt`. A falsy or missing `audio_base64` is a 400; otherwise
      the audio is decoded and transcribed, and any failure is a 500 carrying
      the exception's message. The application state is not involved. */
  function RestStt(env: Env, w: World, request: Object): (r: HttpReply)
    ensures !Truthy(LookupOrEmpty(request, "audio_base64")) ==> r == HttpError(400, "Audio data is required")
    ensures Truthy(LookupOrEmpty(request, "audio_base64")) ==>
      var audio := LookupOrEmpty(request, "audio_base64");
      && (env.b64(audio).Err? ==> r == HttpError(500, Message(env.b64(audio).error)))
      && (env.b64(audio).Ok? ==>
            var t := Stt.TranscribeBytes(env.b64(audio).value, Hint(request), w.recognize);
            && (t.Err? ==> r == HttpError(500, Message(t.error)))
            && (t.Ok? ==> r == SttBody(t.value, env.sentiment(t.value.text))))
  {
    var audio := LookupOrEmpty(request, "audio_base64");
    if !Truthy(audio) then HttpError(400, "Audio data is required")
    else
      match env.b64(audio)
      case Err(e) => HttpError(500, Message(e))
      case Ok(bytes) =>
        match Stt.TranscribeBytes(bytes, Hint(request), w.recognize)
        case Err(e) => HttpError(500, Message(e))
        case Ok(t) => SttBody(t, env.sentiment(t.text))
  }

  // ---------------------------------------------------------------------------
  // Health and statistics
  // ---------------------------------------------------------------------------

  datatype Health = Health(status: string, activeConnections: nat, cacheUp: bool, tts: CB.CircuitState)

  /** `GET /health`: always "healthy", with the number of open sessions,
      whether the cache answers a ping, and the synthesis breaker's state. */
  function HealthCheck(app: App, pingFault: bool): (h: Health)
    ensures h.status == "healthy"
    ensures h.activeConnections == |app.connections|
    ensures h.cacheUp <==> app.cache.client.Some? && !pingFault
    ensures h.tts == app.breaker.state
  {
    Health("healthy", |app.connections|, Cache.Ping(app.cache, pingFault), app.breaker.state)
  }

  datatype PipelineStats = PipelineStats(
    activeConnections: nat,
    cacheStats: Cache.Stats,
    breakerState: string,
    breakerFailures: nat)

  /** `GET /stats`: the number of open sessions, the cache statistics, and the
      synthesis breaker's state name and failure count. */
  function GetStats(app: App, infoFault: bool): (s: PipelineStats)
    ensures s.activeConnections == |app.connections|
    ensures s.cacheStats.hits == app.cache.hits && s.cacheStats.misses == app.cache.misses
    ensures s.cacheStats.redisConnected <==> app.cache.client.Some? && !infoFault
    ensures s.breakerState == CB.StateValue(app.breaker.state)
    ensures s.breakerFailures == app.breaker.failureCount
  {
    PipelineStats(
      |app.connections|,
      Cache.GetStats(app.cache, infoFault),
      CB.StateValue(app.breaker.state),
      app.breaker.failureCount)
  }
}
