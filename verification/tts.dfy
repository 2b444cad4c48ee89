/**
 The speech-synthesis client (app/services/tts_service.py): the three frames it
 sends, the fold over the frames it receives, the mapping of WebSocket errors,
 the retry policy around the whole call, and `close`. What the remote end does
 is a parameter: the connection is either refused or yields a sequence of
 frames followed by a normal or an abnormal close. Base64 decoding of a frame's
 `audio` field is the parameter `decode`, which may fail.
 */
module Tts {
  import opened Common
  import opened Errors
  import opened Retry
  import Config

  /** One received message. `audio` is `None` when the key is missing or null;
      `isFinal` is the truthiness of the `isFinal` field. */
  datatype Frame =
    | Unparsable(detail: string)
    | Frame(audio: Option<string>, isFinal: bool)

  /** How the stream ends when no final frame stopped the loop. */
  datatype Ending = ClosedNormally | ClosedAbnormally(detail: string)

  /** What the synthesis endpoint does with one connection attempt. */
  datatype Link =
    | Refused(error: Exc)
    | Opened(frames: seq<Frame>, ending: Ending)

  /** One sent message: its `text`, whether it asks to trigger generation,
      and whether it carries the voice and generation settings. */
  datatype OutFrame = OutFrame(text: string, tryTrigger: bool, settings: bool)

  /** The messages sent after connecting: a settings frame whose text is a
      single space, the text itself asking to trigger generation, and the
      empty end-of-input marker, in this order. */
  function RequestFrames(text: string): (fs: seq<OutFrame>)
    ensures |fs| == 3
    ensures fs[0].settings && fs[0].text == " " && !fs[0].tryTrigger
    ensures !fs[1].settings && fs[1].text == text && fs[1].tryTrigger
    ensures !fs[2].settings && fs[2].text == "" && !fs[2].tryTrigger
  {
    [OutFrame(" ", false, true), OutFrame(text, true, false), OutFrame("", false, false)]
  }

  /** An `audio` field that is missing, null or empty contributes nothing. */
  predicate Skipped(audio: Option<string>)
  {
    audio.None? || audio.value == ""
  }

  /** The result of reading frames: the audio so far and whether a final frame
      ended the loop, or the exception that interrupted it. */
  datatype Gathered = Gathered(audio: Bytes, sawFinal: bool) | Broke(error: Exc)

  function Prepend(prefix: Bytes, g: Gathered): Gathered
  {
    match g
    case Gathered(audio, fin) => Gathered(prefix + audio, fin)
    case Broke(e) => Broke(e)
  }

  /** The receive loop as a fold: decoded chunks in order, skipped fields
      ignored, stopping after the first final frame (its audio included). An
      unparsable frame or an undecodable chunk interrupts it. */
  function Gather(frames: seq<Frame>, decode: string -> Attempt<Bytes>): Gathered
  {
    if |frames| == 0 then Gathered([], false)
    else
      match frames[0]
      case Unparsable(d) => Broke(OtherError("JSONDecodeError", d))
      case Frame(audio, fin) =>
        var chunk := if Skipped(audio) then Ok([]) else decode(audio.value);
        match chunk
        case Err(e) => Broke(e)
        case Ok(bytes) =>
          if fin then Gathered(bytes, true) else Prepend(bytes, Gather(frames[1..], decode))
  }

  lemma PrependPrepend(x: Bytes, y: Bytes, g: Gathered)
    ensures Prepend(x, Prepend(y, g)) == Prepend(x + y, g)
  {
  }

  /** The receive loop as the client writes it: chunks appended to a list that
      is joined at the end, with an early exit on the final frame. It computes
      exactly the fold `Gather`. */
  method Accumulate(frames: seq<Frame>, decode: string -> Attempt<Bytes>) returns (g: Gathered)
    ensures g == Gather(frames, decode)
  {
    var chunks: seq<Bytes> := [];
    var i := 0;
    while i < |frames|
      invariant 0 <= i <= |frames|
      invariant Gather(frames, decode) == Prepend(Flatten(chunks), Gather(frames[i..], decode))
    {
      assert frames[i..][0] == frames[i] && frames[i..][1..] == frames[i + 1..];
      var prev := Flatten(chunks);
      match frames[i]
      case Unparsable(d) =>
        return Broke(OtherError("JSONDecodeError", d));
      case Frame(audio, fin) =>
        var bytes: Bytes := [];
        if !Skipped(audio) {
          var chunk := decode(audio.value);
          if chunk.Err? {
            return Broke(chunk.error);
          }
          bytes := chunk.value;
          chunks := chunks + [bytes];
        }
        assert Flatten(chunks) == prev + bytes;
        if fin {
          return Gathered(Flatten(chunks), true);
        }
        PrependPrepend(prev, bytes, Gather(frames[i + 1..], decode));
      i := i + 1;
    }
    return Gathered(Flatten(chunks), false);
  }

  /** Frames after the first final frame are never read: whatever follows a
      final frame leaves the result unchanged. */
  lemma {:induction false} GatherStopsAtFinal(prefix: seq<Frame>, rest: seq<Frame>, decode: string -> Attempt<Bytes>)
    requires |prefix| > 0 && prefix[|prefix| - 1].Frame? && prefix[|prefix| - 1].isFinal
    ensures Gather(prefix + rest, decode) == Gather(prefix, decode)
    decreases |prefix|
  {
    assert (prefix + rest)[0] == prefix[0];
    if |prefix| > 1 {
      assert (prefix + rest)[1..] == prefix[1..] + rest;
      GatherStopsAtFinal(prefix[1..], rest, decode);
    }
  }

  /** A non-final frame whose audio is missing, null or empty can be removed
      without changing the result. */
  lemma {:induction false} GatherSkipsEmptyFrame(a: seq<Frame>, f: Frame, b: seq<Frame>, decode: string -> Attempt<Bytes>)
    requires f.Frame? && Skipped(f.audio) && !f.isFinal
    ensures Gather(a + [f] + b, decode) == Gather(a + b, decode)
    decreases |a|
  {
    if |a| == 0 {
      assert a + [f] + b == [f] + b && ([f] + b)[1..] == b && a + b == b;
    } else {
      assert (a + [f] + b)[0] == a[0] && (a + b)[0] == a[0];
      assert (a + [f] + b)[1..] == a[1..] + [f] + b;
      assert (a + b)[1..] == a[1..] + b;
      GatherSkipsEmptyFrame(a[1..], f, b, decode);
    }
  }

  /** The client's handler: a WebSocket exception becomes a connection error
      with a fixed prefix; every other exception propagates unchanged. */
  function MapError(e: Exc): (r: Exc)
    ensures e.WebSocketError? ==> r == ConnectionFailure("TTS WebSocket error: " + e.detail)
    ensures !e.WebSocketError? ==> r == e
  {
    if e.WebSocketError? then ConnectionFailure("TTS WebSocket error: " + e.detail) else e
  }

  /** The client's socket as `close` sees it. */
  datatype Socket = NoSocket | Live(closed: bool)

  datatype Synthesis = Synthesis(result: Attempt<Bytes>, sent: seq<OutFrame>, ws: Socket)

  /** One (un-retried) `text_to_speech` call. */
  function TextToSpeech(ws: Socket, text: string, link: Link, decode: string -> Attempt<Bytes>): (s: Synthesis)
    ensures link.Refused? ==> s.sent == [] && s.ws == ws
    ensures link.Opened? ==> s.sent == RequestFrames(text) && s.ws == Live(true)
    ensures s.result.Err? ==> !s.result.error.WebSocketError?
    ensures link.Refused? ==> s.result == Err(MapError(link.error))
    ensures link.Opened? && Gather(link.frames, decode).Broke? ==>
      s.result == Err(MapError(Gather(link.frames, decode).error))
    ensures link.Opened? && link.ending.ClosedAbnormally?
            && Gather(link.frames, decode).Gathered? && !Gather(link.frames, decode).sawFinal ==>
      s.result == Err(ConnectionFailure("TTS WebSocket error: " + link.ending.detail))
    ensures link.Opened? && Gather(link.frames, decode).Gathered? && Gather(link.frames, decode).sawFinal ==>
      s.result == Ok(Gather(link.frames, decode).audio)
    ensures link.Opened? && link.ending.ClosedNormally? && Gather(link.frames, decode).Gathered? ==>
      s.result == Ok(Gather(link.frames, decode).audio)
  {
    match link
    case Refused(e) => Synthesis(Err(MapError(e)), [], ws)
    case Opened(frames, ending) =>
      var result :=
        match Gather(frames, decode)
        case Broke(e) => Err(MapError(e))
        case Gathered(audio, fin) =>
          if fin || ending.ClosedNormally? then Ok(audio)
          else Err(MapError(WebSocketError(ending.detail)));
      Synthesis(result, RequestFrames(text), Live(true))
  }

  /** The decorator on `text_to_speech`: `MAX_RETRIES` attempts, retrying
      only WebSocket, connection and timeout errors, re-raising the last. */
  const Policy := Retry.Policy(Config.Defaults.maxRetries, TransientOnly, true)

  /** The retried synthesis of `text`, the connection of attempt `i` being
      `links(i)`: a success is the audio of the attempt that succeeded, and a
      failure is always the last attempt's own error, unwrapped (never a
      `RetryError`) and never a raw WebSocket exception. Every attempt before
      the last failed with a connection or timeout error; the attempts stop at
      the first success or the first other error, or after the third. */
  function Synthesize(text: string, links: nat -> Link, decode: string -> Attempt<Bytes>): (r: Retried<Bytes>)
    ensures 1 <= r.attempts <= 3
    ensures forall j :: 0 <= j < r.attempts - 1 ==>
      TextToSpeech(NoSocket, text, links(j), decode).result.Err?
      && Retryable(TransientOnly, TextToSpeech(NoSocket, text, links(j), decode).result.error)
    ensures r.attempts < 3 ==> r.result.Ok? || !Retryable(TransientOnly, r.result.error)
    ensures r.result.Ok? ==> r.result == TextToSpeech(NoSocket, text, links(r.attempts - 1), decode).result
    ensures r.result.Err? ==>
      && r.result == TextToSpeech(NoSocket, text, links(r.attempts - 1), decode).result
      && !r.result.error.WebSocketError?
      && (r.result.error.ConnectionFailure? || r.result.error.TimedOut? ==> r.attempts == 3)
  {
    Run(Policy, i => TextToSpeech(NoSocket, text, links(i), decode).result)
  }

  datatype Closing = Closing(ws: Socket, invoked: bool)

  /** `close`: the socket's `close` runs only when a socket exists and is not
      already closed; an exception from it is swallowed. */
  function Close(ws: Socket, closeFails: bool): (c: Closing)
    ensures c.invoked <==> ws == Live(false)
    ensures !c.invoked ==> c.ws == ws
    ensures c.invoked && !closeFails ==> c.ws == Live(true)
  {
    match ws
    case Live(false) => Closing(if closeFails then ws else Live(true), true)
    case _ => Closing(ws, false)
  }

  /** The socket a synthesis leaves behind is already closed (the connection
      is a context manager), so a later `close` never calls the socket's
      `close`; and once a `close` went through, another one is a no-op. */
  lemma CloseAfterSynthesis(ws: Socket, text: string, link: Link, decode: string -> Attempt<Bytes>, fails: bool)
    ensures link.Opened? ==> !Close(TextToSpeech(ws, text, link, decode).ws, fails).invoked
    ensures ws == Live(false) ==> !Close(Close(ws, false).ws, fails).invoked
  {
  }

  /** A WebSocket failure is retried as a connection error: when every
      attempt's connection is refused with a WebSocket error, all three
      attempts run and the third one's error is raised as a connection error. */
  lemma WebSocketFailuresUseEveryAttempt(text: string, links: nat -> Link, decode: string -> Attempt<Bytes>)
    requires forall i :: 0 <= i < 3 ==> links(i).Refused? && links(i).error.WebSocketError?
    ensures Synthesize(text, links, decode).attempts == 3
    ensures Synthesize(text, links, decode).result
         == Err(ConnectionFailure("TTS WebSocket error: " + links(2).error.detail))
  {
    var r := Synthesize(text, links, decode);
    assert TextToSpeech(NoSocket, text, links(r.attempts - 1), decode).result.Err?;
  }

  /** An error that is neither a connection nor a timeout error (an
      unparsable frame, say) is not retried: the first attempt's error is
      raised as it is. */
  lemma OtherFailureStopsAtOnce(text: string, links: nat -> Link, decode: string -> Attempt<Bytes>)
    requires TextToSpeech(NoSocket, text, links(0), decode).result.Err?
    requires !Retryable(TransientOnly, TextToSpeech(NoSocket, text, links(0), decode).result.error)
    ensures Synthesize(text, links, decode).attempts == 1
    ensures Synthesize(text, links, decode).result == TextToSpeech(NoSocket, text, links(0), decode).result
  {
  }

  /** A stream whose frames decode and that ends with a final frame or a
      normal close succeeds on that attempt: the attempts stop there and its
      audio is returned. */
  lemma SuccessStopsRetrying(text: string, links: nat -> Link, decode: string -> Attempt<Bytes>, k: nat)
    requires k < 3
    requires forall j :: 0 <= j < k ==> links(j).Refused? && links(j).error.TimedOut?
    requires links(k).Opened? && Gather(links(k).frames, decode).Gathered?
    requires Gather(links(k).frames, decode).sawFinal || links(k).ending.ClosedNormally?
    ensures Synthesize(text, links, decode).attempts == k + 1
    ensures Synthesize(text, links, decode).result == Ok(Gather(links(k).frames, decode).audio)
  {
  }
}
