/** The errors the transcription services surface, the lower-level errors a
    streaming provider throws, and the classifier between the two. */
module Errors {
  import opened Text
  import opened Models

  /** The user-facing error taxonomy (`STTError`), restricted to the cases
      the transcription services construct. */
  datatype STTError =
    | TranscriptionError(message: string)
    | NetworkError(message: string)
    | AudioProcessingError(message: string)
    | InvalidModel

  /** Errors thrown by a realtime provider or session (`StreamingError`). */
  datatype StreamingError =
    | ConnectionFailed(message: string)
    | SessionError(message: string)
    | AudioStreamError(message: string)
    | InvalidConfiguration
    | PartialResultsError(message: string)

  /** Anything a provider call, a session or an audio stream can throw: an
      `STTError`, a `StreamingError`, or some other error of which only its
      `localizedDescription` is observable. */
  datatype Failure =
    | Stt(err: STTError)
    | Streaming(streamingError: StreamingError, description: string)
    | Other(description: string)

  /** The outcome of a call that either returns a value or throws. */
  datatype Attempt<T> = Ok(value: T) | Threw(failure: Failure)

  function MessageOf(e: STTError): Option<string> {
    match e
    case TranscriptionError(m) => Some(m)
    case NetworkError(m) => Some(m)
    case AudioProcessingError(m) => Some(m)
    case InvalidModel => None
  }

  /** The message a thrown error carries, if any. */
  function FailureMessage(f: Failure): Option<string> {
    match f
    case Stt(e) => MessageOf(e)
    case Streaming(se, _) =>
      if se.InvalidConfiguration? then None else Some(se.message)
    case Other(d) => Some(d)
  }

  const PromptTooLongMessage: string := "System prompt too long"

  /** The provider's session error about an over-long prompt field. */
  predicate IsPromptTooLong(f: Failure) {
    f.Streaming? && f.streamingError.SessionError?
    && Contains(f.streamingError.message, "string too long")
    && Contains(f.streamingError.message, "prompt")
  }

  /** `convertToSTTError` of the streaming service: total over every thrown
      error. `STTError`s pass through; each streaming error maps to the
      category of its kind; anything else becomes a transcription error.
      Messages are carried over unchanged, except that an over-long-prompt
      session error is reported with a fixed message. */
  function ConvertToSTTError(f: Failure): (r: STTError)
    ensures f.Stt? ==> r == f.err
    ensures r.NetworkError? <==>
      (f.Stt? && f.err.NetworkError?) || (f.Streaming? && f.streamingError.ConnectionFailed?)
    ensures r.AudioProcessingError? <==>
      (f.Stt? && f.err.AudioProcessingError?) || (f.Streaming? && f.streamingError.AudioStreamError?)
    ensures r.InvalidModel? <==>
      (f.Stt? && f.err.InvalidModel?) || (f.Streaming? && f.streamingError.InvalidConfiguration?)
    ensures r.TranscriptionError? <==>
      (f.Stt? && f.err.TranscriptionError?) || f.Other?
      || (f.Streaming? && (f.streamingError.SessionError? || f.streamingError.PartialResultsError?))
    ensures IsPromptTooLong(f) ==> r == TranscriptionError(PromptTooLongMessage)
    ensures !IsPromptTooLong(f) ==> MessageOf(r) == FailureMessage(f)
  {
    match f
    case Stt(e) => e
    case Streaming(se, _) =>
      (match se
       case ConnectionFailed(m) => NetworkError(m)
       case SessionError(m) =>
         if Contains(m, "string too long") && Contains(m, "prompt")
         then TranscriptionError(PromptTooLongMessage)
         else TranscriptionError(m)
       case AudioStreamError(m) => AudioProcessingError(m)
       case InvalidConfiguration => InvalidModel
       case PartialResultsError(m) => TranscriptionError(m))
    case Other(d) => TranscriptionError(d)
  }

  /** The batch service's conversion
      (`error as? STTError ?? .transcriptionError(error.localizedDescription)`):
      an `STTError` passes through, anything else becomes a transcription
      error carrying its description. */
  function RestErrorOf(f: Failure): (r: STTError)
    ensures f.Stt? ==> r == f.err
    ensures !f.Stt? ==> r.TranscriptionError? && r.message == f.description
  {
    if f.Stt? then f.err else TranscriptionError(f.description)
  }

  /** Both services agree on `STTError`s and on errors of unknown type; they
      differ only on streaming errors, which the batch service reports by
      description. */
  lemma ClassifiersAgree(f: Failure)
    ensures !f.Streaming? ==> RestErrorOf(f) == ConvertToSTTError(f)
    ensures f.Streaming? ==> RestErrorOf(f).TranscriptionError?
  {
  }

  /** Classifying an already classified error changes nothing. */
  lemma ConvertIdempotent(f: Failure)
    ensures ConvertToSTTError(Stt(ConvertToSTTError(f))) == ConvertToSTTError(f)
  {
  }

  /** A session error whose message mentions the prompt and then says the
      string is too long (the shape of the provider's rejection of an
      over-long transcription prompt) is reported with the fixed
      prompt-too-long message, not the provider's own text. */
  lemma {:induction false} PromptTooLongDetected(pre: string, mid: string, post: string, d: string)
    ensures ConvertToSTTError(Streaming(SessionError(pre + "prompt" + mid + "string too long" + post), d))
            == TranscriptionError(PromptTooLongMessage)
  {
    var m := pre + "prompt" + mid + "string too long" + post;
    var i := |pre|;
    var j := |pre| + 6 + |mid|;
    assert m[i..i + 6] == "prompt";
    assert m[j..j + 15] == "string too long";
    assert OccursAt(m, "prompt", i);
    ContainsAt(m, "prompt", i);
    assert OccursAt(m, "string too long", j);
    ContainsAt(m, "string too long", j);
  }

  /** A session error mentioning only one of the two phrases keeps the
      provider's message. */
  lemma {:induction false} SessionErrorWithoutPromptKeepsMessage(m: string)
    requires !Contains(m, "prompt")
    ensures ConvertToSTTError(Streaming(SessionError(m), m)) == TranscriptionError(m)
  {
  }
}
