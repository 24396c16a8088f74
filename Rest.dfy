/** The batch transcription service (`RestTranscriptionService`): the whole
    recording goes to the provider in one request, the trimmed result is
    injected, and a failure is reported with a retry offer when enough of
    the attempt was kept.

    The provider, the text injector and the notification manager are not
    modelled; the calls the service makes into them are recorded in
    `events`. What the provider answers is an input (`RestScript`), and the
    validity window of a retry context is a boolean supplied with the retry
    request. */
module Rest {
  import opened Text
  import opened Models
  import opened Errors

  /** The snapshot a failed attempt offers for a retry. Its creation time is
      not modelled; whether it is still valid comes with the request. */
  datatype RetryContext = RetryContext(
    audioData: AudioChunk,
    config: ProviderConfig,
    originalError: STTError,
    providerType: ProviderType)

  /** A call the service makes into a collaborator. */
  datatype Event =
    | ValidationRequested(config: ProviderConfig)
    | TranscribeRequested(config: ProviderConfig, stream: seq<AudioChunk>)
    | TextInjected(text: string, replace: Option<string>)
    | ErrorNotified(error: STTError, retry: Option<RetryContext>)

  /** A launched transcription task that has not run yet: a first attempt on
      a captured audio stream, or a retry on a replayed one. */
  datatype Task =
    | Initial(audio: seq<AudioChunk>, config: ProviderConfig)
    | Retry(audio: seq<AudioChunk>, config: ProviderConfig)

  /** What one task's collaborators do: whether validation throws, what the
      provider returns, and whether the captured audio stream, after
      yielding its chunks, ends by throwing. A replayed stream never throws,
      so a retry ignores `streamEnd`. */
  datatype RestScript = RestScript(
    validation: Option<Failure>,
    result: Attempt<string>,
    streamEnd: Option<Failure>)

  // ---------------------------------------------------------------------
  // Audio

  /** The bytes of a sequence of chunks, in order. */
  function Concat(chunks: seq<AudioChunk>): AudioChunk {
    if chunks == [] then [] else Concat(chunks[..|chunks| - 1]) + chunks[|chunks| - 1]
  }

  lemma {:induction false} ConcatAppend(a: seq<AudioChunk>, b: seq<AudioChunk>)
    ensures Concat(a + b) == Concat(a) + Concat(b)
    decreases |b|
  {
    if b == [] {
      assert a + b == a;
    } else {
      var n := |b| - 1;
      assert (a + b)[..|a + b| - 1] == a + b[..n];
      assert (a + b)[|a + b| - 1] == b[n];
      ConcatAppend(a, b[..n]);
    }
  }

  /** The pass-through of `collectAudioAndTranscribe`: every chunk of the
      stream is appended to the collected audio and handed on to the
      provider, once and in order. */
  method CollectAudio(stream: seq<AudioChunk>) returns (audioData: AudioChunk, forwarded: seq<AudioChunk>)
    ensures audioData == Concat(stream)
    ensures forwarded == stream
  {
    audioData, forwarded := [], [];
    var i := 0;
    while i < |stream|
      invariant 0 <= i <= |stream|
      invariant audioData == Concat(stream[..i])
      invariant forwarded == stream[..i]
    {
      var chunk := stream[i];
      audioData := audioData + chunk;
      forwarded := forwarded + [chunk];
      i := i + 1;
      assert stream[..i][..i - 1] == stream[..i - 1];
    }
    assert stream[..i] == stream;
  }

  /** The collected audio holds exactly the bytes of the chunks. */
  lemma {:induction false} CollectedLength(stream: seq<AudioChunk>)
    ensures |Concat(stream)| == TotalLength(stream)
    decreases |stream|
  {
    if stream != [] {
      CollectedLength(stream[..|stream| - 1]);
    }
  }

  function TotalLength(chunks: seq<AudioChunk>): nat {
    if chunks == [] then 0 else TotalLength(chunks[..|chunks| - 1]) + |chunks[|chunks| - 1]|
  }

  /** `createStreamFromData`: a stream yielding the stored data as its one
      chunk. */
  function CreateStreamFromData(data: AudioChunk): (r: seq<AudioChunk>)
    ensures |r| == 1
    ensures Concat(r) == data
  {
    assert [data][..0] == [];
    [data]
  }

  /** Replaying collected audio gives the provider the same bytes the
      original stream carried. */
  lemma ReplayRoundTrip(stream: seq<AudioChunk>)
    ensures Concat(CreateStreamFromData(Concat(stream))) == Concat(stream)
  {
  }

  // ---------------------------------------------------------------------
  // Pure rules

  /** The text a new injection replaces: none after nothing was injected,
      otherwise the previously injected text. */
  function ReplaceTarget(lastInjected: string): (r: Option<string>)
    ensures r.None? <==> lastInjected == []
    ensures r.Some? ==> r.value == lastInjected
  {
    if lastInjected == [] then None else Some(lastInjected)
  }

  /** The retry context for `error`: present exactly when the audio, the
      configuration and the provider type of the attempt were all kept, and
      then holding them unchanged. */
  function MakeRetryContext(audio: Option<AudioChunk>, config: Option<ProviderConfig>,
                            providerType: Option<ProviderType>, error: STTError): (r: Option<RetryContext>)
    ensures r.Some? <==> audio.Some? && config.Some? && providerType.Some?
    ensures r.Some? ==>
      r.value.audioData == audio.value && r.value.config == config.value
      && r.value.providerType == providerType.value && r.value.originalError == error
  {
    if audio.Some? && config.Some? && providerType.Some?
    then Some(RetryContext(audio.value, config.value, error, providerType.value))
    else None
  }

  /** How a task ends: the first collaborator call that throws, or the
      provider's result trimmed of whitespace. */
  function Outcome(task: Task, sc: RestScript): Attempt<string> {
    if sc.validation.Some? then Threw(sc.validation.value)
    else if sc.result.Threw? then Threw(sc.result.failure)
    else if task.Initial? && sc.streamEnd.Some? then Threw(sc.streamEnd.value)
    else Ok(Trim(sc.result.value))
  }

  /** The calls one task makes, `lastInjected` being the text injected
      before it ran. No failure is ever reported with a retry context: the
      audio of an attempt is kept only once the provider has succeeded, and
      success discards it again. */
  function TaskLog(task: Task, sc: RestScript, lastInjected: string): seq<Event> {
    [ValidationRequested(task.config)]
    + (if sc.validation.Some? then [] else [TranscribeRequested(task.config, task.audio)])
    + OutcomeEvents(Outcome(task, sc), lastInjected)
  }

  /** The calls that end a task: the error report, or the injection of a
      non-empty result. */
  function OutcomeEvents(outcome: Attempt<string>, lastInjected: string): seq<Event> {
    match outcome
    case Threw(f) => [ErrorNotified(RestErrorOf(f), None)]
    case Ok(t) => if t == [] then [] else [TextInjected(t, ReplaceTarget(lastInjected))]
  }

  /** Whatever a task injects is non-empty and already trimmed. */
  lemma InjectionsAreTrimmed(task: Task, sc: RestScript, lastInjected: string)
    ensures forall e :: e in TaskLog(task, sc, lastInjected) && e.TextInjected? ==>
      e.text != [] && Trim(e.text) == e.text
  {
    var log := TaskLog(task, sc, lastInjected);
    var pre := [ValidationRequested(task.config)]
      + (if sc.validation.Some? then [] else [TranscribeRequested(task.config, task.audio)]);
    forall e | e in log && e.TextInjected? ensures e.text != [] && Trim(e.text) == e.text {
      assert e !in pre;
      var t := Outcome(task, sc).value;
      assert e == TextInjected(t, ReplaceTarget(lastInjected));
      TrimIdempotent(sc.result.value);
    }
  }

  /** The fields of the service a task can change, other than its flag,
      its pending task and its event log. */
  datatype Observed = Observed(
    currentText: string,
    lastTranscription: string,
    lastInjectedText: string,
    error: Option<STTError>,
    currentConfig: Option<ProviderConfig>,
    currentProviderType: Option<ProviderType>)

  /** The state after a task ends. Success shows the trimmed result, makes a
      non-empty result the last and the last injected transcription, and
      discards the configuration kept for a retry; failure records the
      error. */
  function AfterTask(task: Task, sc: RestScript, s: Observed): Observed {
    AfterOutcome(Outcome(task, sc), s)
  }

  function AfterOutcome(outcome: Attempt<string>, s: Observed): Observed {
    match outcome
    case Ok(t) =>
      if t == [] then s.(currentText := t, currentConfig := None, currentProviderType := None)
      else s.(currentText := t, lastTranscription := t, lastInjectedText := t,
              currentConfig := None, currentProviderType := None)
    case Threw(f) => s.(error := Some(RestErrorOf(f)))
  }

  /** After success the shown text is the provider's trimmed result, the
      error is left as it was and nothing is kept for a retry; a non-empty
      result is also the last transcription. */
  lemma SuccessDiscardsRetryData(task: Task, sc: RestScript, s: Observed)
    requires sc.validation.None? && sc.result.Ok? && (task.Retry? || sc.streamEnd.None?)
    ensures var r := AfterTask(task, sc, s);
      && r.currentText == Trim(sc.result.value)
      && r.error == s.error
      && r.currentConfig.None? && r.currentProviderType.None?
      && (r.currentText != [] ==> r.lastTranscription == r.currentText == r.lastInjectedText)
      && (r.currentText == [] ==> r.lastTranscription == s.lastTranscription)
  {
    var t := Trim(sc.result.value);
    assert Outcome(task, sc) == Ok(t);
    assert AfterTask(task, sc, s) == AfterOutcome(Ok(t), s);
  }

  /** After failure the error is the classified failure and nothing else
      changes: the shown text, the last transcription and the kept
      configuration survive. */
  lemma FailureKeepsState(task: Task, sc: RestScript, s: Observed)
    requires Outcome(task, sc).Threw?
    ensures AfterTask(task, sc, s) == s.(error := Some(RestErrorOf(Outcome(task, sc).failure)))
  {
  }

  /** A first attempt starts with nothing injected, so it never asks the
      injector to replace text. */
  lemma InitialAttemptNeverReplaces(audio: seq<AudioChunk>, config: ProviderConfig, sc: RestScript)
    ensures forall e :: e in TaskLog(Initial(audio, config), sc, []) && e.TextInjected? ==> e.replace.None?
  {
  }

  /** A configuration that fails validation is never sent to the provider;
      the failure is reported with the validation error. */
  lemma ValidationFailureSkipsProvider(task: Task, sc: RestScript, lastInjected: string)
    requires sc.validation.Some?
    ensures TaskLog(task, sc, lastInjected)
      == [ValidationRequested(task.config), ErrorNotified(RestErrorOf(sc.validation.value), None)]
  {
  }

  // ---------------------------------------------------------------------
  // The service

  class RestTranscriptionService {
    var currentText: string
    var lastTranscription: string
    var isTranscribing: bool
    var error: Option<STTError>
    /** The type of the configured provider, if any. */
    var provider: Option<ProviderType>
    var pendingTask: Option<Task>
    var lastInjectedText: string
    var currentAudioData: Option<AudioChunk>
    var currentConfig: Option<ProviderConfig>
    var currentProviderType: Option<ProviderType>
    var events: seq<Event>

    /** Between calls no audio is kept for a retry, and a pending first
        attempt starts with nothing injected. */
    function Snapshot(): Observed
      reads this
    {
      Observed(currentText, lastTranscription, lastInjectedText, error, currentConfig, currentProviderType)
    }

    ghost predicate Valid()
      reads this
    {
      currentAudioData.None?
      && (pendingTask.Some? && pendingTask.value.Initial? ==> lastInjectedText == [])
    }

    constructor ()
      ensures Valid()
      ensures currentText == [] && lastTranscription == [] && !isTranscribing && error == None
      ensures provider == None && pendingTask == None && lastInjectedText == []
      ensures currentConfig == None && currentProviderType == None && events == []
    {
      currentText, lastTranscription, isTranscribing, error := [], [], false, None;
      provider, pendingTask, lastInjectedText := None, None, [];
      currentAudioData, currentConfig, currentProviderType := None, None, None;
      events := [];
    }

    method SetProvider(p: ProviderType)
      modifies this`provider
      ensures provider == Some(p)
    {
      provider := Some(p);
    }

    /** Without a provider only `error` is set. Otherwise any pending task is
        cancelled, the service is marked transcribing with no error, no live
        text and nothing injected yet, the configuration and provider type
        are kept for a retry, and a first attempt on `audio` is launched. */
    method StartTranscription(audio: seq<AudioChunk>, config: ProviderConfig)
      requires Valid()
      modifies this
      ensures Valid()
      ensures old(provider).None? ==>
        && error == Some(TranscriptionError("No provider configured"))
        && isTranscribing == old(isTranscribing) && currentText == old(currentText)
        && lastInjectedText == old(lastInjectedText) && pendingTask == old(pendingTask)
        && currentConfig == old(currentConfig) && currentProviderType == old(currentProviderType)
      ensures old(provider).Some? ==>
        && isTranscribing && error == None && currentText == [] && lastInjectedText == []
        && currentConfig == Some(config) && currentProviderType == provider
        && pendingTask == Some(Initial(audio, config))
      ensures provider == old(provider) && lastTranscription == old(lastTranscription)
      ensures events == old(events)
    {
      if provider.None? {
        error := Some(TranscriptionError("No provider configured"));
        return;
      }
      isTranscribing := true;
      error := None;
      currentText := [];
      lastInjectedText := [];
      currentConfig := Some(config);
      currentProviderType := provider;
      pendingTask := Some(Initial(audio, config));
    }

    /** Runs the pending task to its end, its collaborators behaving as `sc`
        says. Whatever happens, the service is no longer transcribing
        afterwards. Success shows the trimmed result, injects it when it is
        non-empty and discards the retry data; failure records the error and
        reports it. */
    method RunPendingTask(sc: RestScript)
      requires Valid() && pendingTask.Some?
      modifies this
      ensures Valid()
      ensures var task := old(pendingTask).value;
        events == old(events) + TaskLog(task, sc, old(lastInjectedText))
      ensures pendingTask == None && !isTranscribing
      ensures Snapshot() == AfterTask(old(pendingTask).value, sc, old(Snapshot()))
      ensures provider == old(provider)
    {
      var task := pendingTask.value;
      pendingTask := None;
      match task
      case Initial(audio, config) => RunInitialAttempt(audio, config, sc);
      case Retry(audio, config) => RunRetryAttempt(audio, config, sc);
    }

    /** The body of a first attempt's task. */
    method RunInitialAttempt(audio: seq<AudioChunk>, config: ProviderConfig, sc: RestScript)
      requires currentAudioData.None?
      modifies this`events, this`error, this`isTranscribing, this`currentText,
               this`lastTranscription, this`lastInjectedText, this`currentAudioData,
               this`currentConfig, this`currentProviderType
      ensures currentAudioData.None? && !isTranscribing
      ensures events == old(events) + TaskLog(Initial(audio, config), sc, old(lastInjectedText))
      ensures Snapshot() == AfterTask(Initial(audio, config), sc, old(Snapshot()))
    {
      events := events + [ValidationRequested(config)];
      var outcome: Attempt<string>;
      var collected: Option<AudioChunk> := None;
      if sc.validation.Some? {
        outcome := Threw(sc.validation.value);
      } else {
        var audioData, forwarded := CollectAudio(audio);
        collected := Some(audioData);
        events := events + [TranscribeRequested(config, forwarded)];
        if sc.result.Threw? {
          outcome := Threw(sc.result.failure);
        } else if sc.streamEnd.Some? {
          outcome := Threw(sc.streamEnd.value);
        } else {
          outcome := Ok(Trim(sc.result.value));
        }
      }
      assert outcome == Outcome(Initial(audio, config), sc);
      FinishAttempt(outcome, collected);
      isTranscribing := false;
    }

    /** The body of a retry's task. */
    method RunRetryAttempt(audio: seq<AudioChunk>, config: ProviderConfig, sc: RestScript)
      requires currentAudioData.None?
      modifies this`events, this`error, this`isTranscribing, this`currentText,
               this`lastTranscription, this`lastInjectedText, this`currentAudioData,
               this`currentConfig, this`currentProviderType
      ensures currentAudioData.None? && !isTranscribing
      ensures events == old(events) + TaskLog(Retry(audio, config), sc, old(lastInjectedText))
      ensures Snapshot() == AfterTask(Retry(audio, config), sc, old(Snapshot()))
    {
      events := events + [ValidationRequested(config)];
      var outcome: Attempt<string>;
      if sc.validation.Some? {
        outcome := Threw(sc.validation.value);
      } else {
        events := events + [TranscribeRequested(config, audio)];
        if sc.result.Threw? {
          outcome := Threw(sc.result.failure);
        } else {
          outcome := Ok(Trim(sc.result.value));
        }
      }
      assert outcome == Outcome(Retry(audio, config), sc);
      FinishAttempt(outcome, None);
      isTranscribing := false;
    }

    /** The end of a task: a failure is classified and reported; success
        keeps the collected audio (a retry collects none), handles the
        result and discards the retry data. */
    method FinishAttempt(outcome: Attempt<string>, collected: Option<AudioChunk>)
      requires currentAudioData.None?
      modifies this`events, this`error, this`isTranscribing, this`currentText,
               this`lastTranscription, this`lastInjectedText, this`currentAudioData,
               this`currentConfig, this`currentProviderType
      ensures currentAudioData.None?
      ensures events == old(events) + OutcomeEvents(outcome, old(lastInjectedText))
      ensures Snapshot() == AfterOutcome(outcome, old(Snapshot()))
    {
      match outcome
      case Threw(f) =>
        HandleErrorWithNotification(RestErrorOf(f));
      case Ok(finalText) =>
        if collected.Some? {
          currentAudioData := collected;
        }
        HandleSuccessfulTranscription(finalText);
        if collected.Some? {
          isTranscribing := false;
        }
        ClearRetryContext();
    }

    /** Cancels the pending task and clears the flag. */
    method StopTranscription()
      requires Valid()
      modifies this`pendingTask, this`isTranscribing
      ensures Valid()
      ensures pendingTask == None && !isTranscribing
    {
      pendingTask := None;
      isTranscribing := false;
    }

    /** Shows `finalText`; non-empty text becomes the last transcription and
        is injected, replacing the previously injected text if there is one,
        and becomes the text a later injection replaces. */
    method HandleSuccessfulTranscription(finalText: string)
      modifies this`currentText, this`lastTranscription, this`lastInjectedText, this`events
      ensures currentText == finalText
      ensures finalText != [] ==>
        && lastTranscription == finalText && lastInjectedText == finalText
        && events == old(events) + [TextInjected(finalText, ReplaceTarget(old(lastInjectedText)))]
      ensures finalText == [] ==>
        && lastTranscription == old(lastTranscription) && lastInjectedText == old(lastInjectedText)
        && events == old(events)
    {
      currentText := finalText;
      if finalText != [] {
        lastTranscription := finalText;
        var replaceText := if lastInjectedText == [] then None else Some(lastInjectedText);
        events := events + [TextInjected(finalText, replaceText)];
        lastInjectedText := finalText;
      }
    }

    /** Records the error, clears the flag and reports the error, with a
        retry context when the attempt's audio, configuration and provider
        type were all kept. */
    method HandleErrorWithNotification(e: STTError)
      modifies this`error, this`isTranscribing, this`events
      ensures error == Some(e) && !isTranscribing
      ensures events == old(events)
        + [ErrorNotified(e, MakeRetryContext(currentAudioData, currentConfig, currentProviderType, e))]
    {
      error := Some(e);
      isTranscribing := false;
      var retryContext: Option<RetryContext> := None;
      if currentAudioData.Some? && currentConfig.Some? && currentProviderType.Some? {
        retryContext := Some(RetryContext(currentAudioData.value, currentConfig.value, e, currentProviderType.value));
      }
      events := events + [ErrorNotified(e, retryContext)];
    }

    /** A retry request is ignored when the context is no longer valid, when
        a transcription is running, when no provider is configured, or when
        the provider differs from the context's. Otherwise a retry on the
        context's audio, replayed as a single chunk, is launched with its
        configuration. */
    method HandleRetryRequest(ctx: RetryContext, contextValid: bool)
      requires Valid()
      modifies this
      ensures Valid()
      ensures !contextValid || old(isTranscribing) || old(provider) != Some(ctx.providerType) ==>
        unchanged(this)
      ensures contextValid && !old(isTranscribing) && old(provider) == Some(ctx.providerType) ==>
        && pendingTask == Some(Retry(CreateStreamFromData(ctx.audioData), ctx.config))
        && isTranscribing && error == None && currentText == []
        && currentConfig == Some(ctx.config) && currentProviderType == Some(ctx.providerType)
        && lastInjectedText == old(lastInjectedText) && lastTranscription == old(lastTranscription)
        && events == old(events) && provider == old(provider)
    {
      if !contextValid {
        return;
      }
      if isTranscribing {
        return;
      }
      var audioStream := CreateStreamFromData(ctx.audioData);
      StartTranscriptionFromRetry(audioStream, ctx.config, ctx.providerType);
    }

    /** Ignored unless the configured provider is of `providerType`;
        otherwise keeps the configuration for a further retry, cancels any
        pending task, marks the service transcribing with no error and no
        live text, and launches the retry. The previously injected text is
        kept, so the retry's result replaces it. */
    method StartTranscriptionFromRetry(audio: seq<AudioChunk>, config: ProviderConfig, providerType: ProviderType)
      requires Valid()
      modifies this
      ensures Valid()
      ensures old(provider) != Some(providerType) ==> unchanged(this)
      ensures old(provider) == Some(providerType) ==>
        && pendingTask == Some(Retry(audio, config))
        && isTranscribing && error == None && currentText == []
        && currentConfig == Some(config) && currentProviderType == Some(providerType)
        && lastInjectedText == old(lastInjectedText) && lastTranscription == old(lastTranscription)
        && events == old(events) && provider == old(provider)
    {
      if provider != Some(providerType) {
        return;
      }
      currentConfig := Some(config);
      currentProviderType := Some(providerType);
      isTranscribing := true;
      error := None;
      currentText := [];
      pendingTask := Some(Retry(audio, config));
    }

    method ClearRetryContext()
      modifies this`currentAudioData, this`currentConfig, this`currentProviderType
      ensures currentAudioData == None && currentConfig == None && currentProviderType == None
    {
      currentAudioData := None;
      currentConfig := None;
      currentProviderType := None;
    }

    /** Whether there is a last transcription to put on the clipboard. */
    method CopyLastTranscriptionToClipboard() returns (copied: bool)
      ensures copied <==> lastTranscription != []
    {
      if lastTranscription == [] {
        return false;
      }
      return true;
    }
  }
}
