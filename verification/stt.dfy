/**
 The transcription client (app/services/stt_service.py): turning the
 recogniser's segments and detected-language info into the transcript
 returned to callers, the retry policy around it, and the byte-input entry
 point. The recogniser itself is a parameter; its floating-point outputs are
 carried through as `real`s without arithmetic.
 */
module Stt {
  import opened Common
  import opened Errors
  import opened Retry
  import Config

  datatype Segment = Segment(start: real, end: real, text: string, avgLogprob: real, noSpeechProb: real)

  datatype Info = Info(language: string, languageProbability: real, duration: real)

  /** What the recogniser produces for one audio file. */
  datatype Recognition = Recognition(segments: seq<Segment>, info: Info)

  datatype Transcript = Transcript(
    text: string,
    language: string,
    languageProbability: real,
    duration: real,
    segments: seq<Segment>)

  /** The texts of the segments, in order. */
  function Texts(segments: seq<Segment>): (ts: seq<string>)
    ensures |ts| == |segments|
    ensures forall i :: 0 <= i < |segments| ==> ts[i] == segments[i].text
  {
    seq(|segments|, i requires 0 <= i < |segments| => segments[i].text)
  }

  /** A segment as reported: its text stripped, every other field copied. */
  function Cleaned(s: Segment): Segment
  {
    s.(text := Strip(s.text))
  }

  function CleanAll(segments: seq<Segment>): (cs: seq<Segment>)
    ensures |cs| == |segments|
    ensures forall i :: 0 <= i < |segments| ==> cs[i] == Cleaned(segments[i])
  {
    seq(|segments|, i requires 0 <= i < |segments| => Cleaned(segments[i]))
  }

  /** The result assembly of `transcribe`: one reported segment per input
      segment in order, each with its text stripped and its timings and scores
      copied; the transcript text is the single-space join of those stripped
      texts; language, its probability and duration come from the info. */
  function Assemble(r: Recognition): (t: Transcript)
    ensures |t.segments| == |r.segments|
    ensures forall i :: 0 <= i < |r.segments| ==>
      && t.segments[i].text == Strip(r.segments[i].text)
      && t.segments[i].start == r.segments[i].start && t.segments[i].end == r.segments[i].end
      && t.segments[i].avgLogprob == r.segments[i].avgLogprob
      && t.segments[i].noSpeechProb == r.segments[i].noSpeechProb
    ensures t.text == Join(" ", Texts(t.segments))
    ensures |r.segments| == 0 ==> t.text == "" && t.segments == []
    ensures t.language == r.info.language && t.languageProbability == r.info.languageProbability
    ensures t.duration == r.info.duration
  {
    var segs := CleanAll(r.segments);
    Transcript(Join(" ", Texts(segs)), r.info.language, r.info.languageProbability, r.info.duration, segs)
  }

  /** The collection loop as the service writes it: two lists built side by
      side, the texts joined at the end. It yields exactly `Assemble`. */
  method Collect(r: Recognition) returns (t: Transcript)
    ensures t == Assemble(r)
  {
    var segmentsList: seq<Segment> := [];
    var fullText: seq<string> := [];
    for i := 0 to |r.segments|
      invariant |segmentsList| == i && |fullText| == i
      invariant forall j :: 0 <= j < i ==> segmentsList[j] == Cleaned(r.segments[j])
      invariant forall j :: 0 <= j < i ==> fullText[j] == segmentsList[j].text
    {
      var cleaned := Cleaned(r.segments[i]);
      segmentsList := segmentsList + [cleaned];
      fullText := fullText + [cleaned.text];
    }
    assert segmentsList == CleanAll(r.segments);
    assert fullText == Texts(segmentsList);
    t := Transcript(Join(" ", fullText), r.info.language, r.info.languageProbability, r.info.duration, segmentsList);
  }

  /** The transcript text is as long as the stripped segment texts plus one
      space between each pair of neighbours. */
  lemma TranscriptLength(r: Recognition)
    requires |r.segments| > 0
    ensures |Assemble(r).text| == TotalLength(Texts(Assemble(r).segments)) + |r.segments| - 1
  {
    JoinLength(" ", Texts(Assemble(r).segments));
  }

  /** The decorator on `transcribe`: `MAX_RETRIES` attempts, every exception
      retried, and a `RetryError` raised once they are used up. */
  const Policy := Retry.Policy(Config.Defaults.maxRetries, AnyError, false)

  /** The recogniser: its outcome for the given audio and language hint on
      attempt number `i`. */
  type Recognizer = (Bytes, Option<string>, nat) -> Attempt<Recognition>

  function Lift(a: Attempt<Recognition>): Attempt<Transcript>
  {
    match a
    case Ok(r) => Ok(Assemble(r))
    case Err(e) => Err(e)
  }

  /** `transcribe` of an audio file holding `audio`: the first successful
      recognition within three attempts, assembled; if all three fail, a
      `RetryError` wrapping the third attempt's error. */
  function Transcribe(audio: Bytes, language: Option<string>, recognize: Recognizer): (r: Attempt<Transcript>)
    ensures r.Ok? <==> exists i :: 0 <= i < 3 && recognize(audio, language, i).Ok?
    ensures r.Ok? ==>
      exists i :: 0 <= i < 3 && FirstRecognised(recognize, audio, language, i)
        && r.value == Assemble(recognize(audio, language, i).value)
    ensures r.Err? ==>
      recognize(audio, language, 2).Err? && r.error == RetryExhausted(recognize(audio, language, 2).error)
  {
    var attempt := (i: nat) => Lift(recognize(audio, language, i));
    RetriedRecognition(attempt, audio, language, recognize);
    Run(Policy, attempt).result
  }

  /** Recognition attempt `i` is the first one that succeeded. */
  predicate FirstRecognised(recognize: Recognizer, audio: Bytes, language: Option<string>, i: nat)
  {
    recognize(audio, language, i).Ok? && forall j :: 0 <= j < i ==> recognize(audio, language, j).Err?
  }

  /** What the transcription policy makes of the lifted recogniser outcomes. */
  lemma RetriedRecognition(attempt: nat -> Attempt<Transcript>, audio: Bytes, language: Option<string>,
                           recognize: Recognizer)
    requires forall i :: attempt(i) == Lift(recognize(audio, language, i))
    ensures var r := Run(Policy, attempt).result;
      && (r.Ok? <==> exists i :: 0 <= i < 3 && recognize(audio, language, i).Ok?)
      && (r.Ok? ==>
            exists i :: 0 <= i < 3 && FirstRecognised(recognize, audio, language, i)
              && r.value == Assemble(recognize(audio, language, i).value))
      && (r.Err? ==>
            recognize(audio, language, 2).Err? && r.error == RetryExhausted(recognize(audio, language, 2).error))
  {
    assert Limit(Policy) == 3;
    WrappingPolicyOutcome(Policy, attempt);
    var r := Run(Policy, attempt).result;
    if r.Ok? {
      var i :| 0 <= i < 3 && FirstOk(attempt, i) && attempt(i) == r;
      forall j | 0 <= j < i
        ensures recognize(audio, language, j).Err?
      {
        assert attempt(j).Err?;
      }
      assert FirstRecognised(recognize, audio, language, i);
    } else {
      forall i | 0 <= i < 3
        ensures recognize(audio, language, i).Err?
      {
        assert attempt(i).Err?;
      }
    }
  }

  /** `transcribe_bytes`: the bytes go to a temporary file that is transcribed
      with the same language hint; its result or error is passed through. */
  function TranscribeBytes(audio: Bytes, language: Option<string>, recognize: Recognizer): (r: Attempt<Transcript>)
    ensures r == Transcribe(audio, language, recognize)
  {
    Transcribe(audio, language, recognize)
  }
}
