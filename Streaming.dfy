/** The realtime transcription orchestrator (`StreamingTranscriptionService`).

    Its collaborators (the provider, the live session, the audio streaming
    queue, the partial-results manager, the text injector and the
    notification manager) are not modelled; every call the service makes
    into them is recorded, in order, in the event log `events`. What a
    collaborator answers is an input: the outcomes of one transcription
    task are given as a `TaskScript`, and the partial-results manager's two
    queries are functions of the partial chunks it has processed since its
    last reset, fixed when the service is created. */
module Streaming {
  import opened Text
  import opened Models
  import opened Errors

  /** A live session with the provider, known by its identity. */
  datatype Session = Session(id: nat)

  /** A call the service makes into a collaborator. */
  datatype Event =
    | PartialResultsReset
    | QueueReset
    | ValidationRequested(config: ProviderConfig)
    | SessionRequested(config: ProviderConfig)
    | ConfirmationHandlerInstalled(session: Session)
    | ListeningStarted(session: Session)
    | QueueConfigured(session: Session)
    | PartialResultsProcessorStarted(session: Session)
    | ChunkStreamed(chunk: AudioChunk)
    | FinishRequested(session: Session)
    | TextInjected(text: string)
    | ErrorShown(error: STTError)
    | SessionCleanedUp(session: Session)

  /** A launched transcription task: the captured audio stream's chunks
      and the configuration it was started with. */
  datatype StreamingTask = StreamingTask(audio: seq<AudioChunk>, config: ProviderConfig)

  /** The audio streaming queue throwing `failure` when handed the chunk at
      `index`. */
  datatype Rejection = Rejection(index: nat, failure: Failure)

  /** What one transcription task's collaborators do: whether config
      validation throws, what starting the session gives, whether starting to
      listen throws, whether the queue rejects a chunk, whether the audio
      stream ends by throwing after its chunks, and whether the provider's
      final call throws. */
  datatype TaskScript = TaskScript(
    validation: Option<Failure>,
    session: Attempt<Session>,
    listening: Option<Failure>,
    rejection: Option<Rejection>,
    audioEnd: Option<Failure>,
    finish: Option<Failure>)

  /** The queue rejects one of the chunks of `audio`. */
  predicate Rejected(audio: seq<AudioChunk>, rejection: Option<Rejection>) {
    rejection.Some? && rejection.value.index < |audio|
  }

  /** The chunks handed to the queue: all of them, or those up to and
      including the one it rejects. */
  function Sent(audio: seq<AudioChunk>, rejection: Option<Rejection>): seq<AudioChunk> {
    if Rejected(audio, rejection) then audio[..rejection.value.index + 1] else audio
  }

  /** The error that ends the forwarding loop, if any: the queue's rejection
      of a chunk, otherwise the audio stream's own. */
  function StreamFailure(audio: seq<AudioChunk>, sc: TaskScript): Option<Failure> {
    if Rejected(audio, sc.rejection) then Some(sc.rejection.value.failure) else sc.audioEnd
  }

  function ChunkEvents(chunks: seq<AudioChunk>): seq<Event> {
    seq(|chunks|, i requires 0 <= i < |chunks| => ChunkStreamed(chunks[i]))
  }

  /** The calls one transcription task makes, in order, up to the first
      collaborator that throws. */
  function TaskLog(t: StreamingTask, sc: TaskScript): seq<Event> {
    [PartialResultsReset, QueueReset, ValidationRequested(t.config)]
    + (if sc.validation.Some? then [] else SessionLog(t, sc))
  }

  /** The calls from requesting the session on. */
  function SessionLog(t: StreamingTask, sc: TaskScript): seq<Event> {
    [SessionRequested(t.config)]
    + match sc.session
      case Threw(_) => []
      case Ok(s) => ListenLog(s, t.audio, sc)
  }

  /** The calls from installing the confirmation handler on. */
  function ListenLog(s: Session, audio: seq<AudioChunk>, sc: TaskScript): seq<Event> {
    [ConfirmationHandlerInstalled(s), ListeningStarted(s)]
    + if sc.listening.Some? then [] else StreamLog(s, audio, sc)
  }

  /** The calls from configuring the queue on. */
  function StreamLog(s: Session, audio: seq<AudioChunk>, sc: TaskScript): seq<Event> {
    [QueueConfigured(s), PartialResultsProcessorStarted(s)] + ChunkEvents(Sent(audio, sc.rejection))
    + if StreamFailure(audio, sc).Some? then [] else [FinishRequested(s)]
  }

  /** The error that ends a transcription task, if any: the first
      collaborator call that throws. */
  function TaskFailure(t: StreamingTask, sc: TaskScript): Option<Failure> {
    if sc.validation.Some? then sc.validation
    else if sc.session.Threw? then Some(sc.session.failure)
    else if sc.listening.Some? then sc.listening
    else if StreamFailure(t.audio, sc).Some? then StreamFailure(t.audio, sc)
    else sc.finish
  }

  /** The setup of a task got as far as forwarding audio. */
  predicate SetupSucceeds(sc: TaskScript) {
    sc.validation.None? && sc.session.Ok? && sc.listening.None?
  }

  function ErrorEvents(t: StreamingTask, sc: TaskScript): seq<Event> {
    if TaskFailure(t, sc).Some? then [ErrorShown(ConvertToSTTError(TaskFailure(t, sc).value))] else []
  }

  // ---------------------------------------------------------------------
  // Properties of a task's calls

  /** The kind of a call, ignoring its arguments. */
  datatype Step =
    | ResetPartials | ResetQueue | Validate | RequestSession | InstallConfirmation
    | StartListening | ConfigureQueue | StartPartials | Forward | Finish
    | Inject | ShowError | Cleanup

  function StepOf(e: Event): Step {
    match e
    case PartialResultsReset => ResetPartials
    case QueueReset => ResetQueue
    case ValidationRequested(_) => Validate
    case SessionRequested(_) => RequestSession
    case ConfirmationHandlerInstalled(_) => InstallConfirmation
    case ListeningStarted(_) => StartListening
    case QueueConfigured(_) => ConfigureQueue
    case PartialResultsProcessorStarted(_) => StartPartials
    case ChunkStreamed(_) => Forward
    case FinishRequested(_) => Finish
    case TextInjected(_) => Inject
    case ErrorShown(_) => ShowError
    case SessionCleanedUp(_) => Cleanup
  }

  /** In `log`, every call of kind `b` comes after some call of kind `a`. */
  predicate Precedes(log: seq<Event>, a: Step, b: Step) {
    forall j :: 0 <= j < |log| && StepOf(log[j]) == b ==>
      exists i :: 0 <= i < j && StepOf(log[i]) == a
  }

  /** The kind of the `j`-th call of a task that forwards `n` chunks. */
  function StepAt(j: nat, n: nat): Step {
    if j == 0 then ResetPartials
    else if j == 1 then ResetQueue
    else if j == 2 then Validate
    else if j == 3 then RequestSession
    else if j == 4 then InstallConfirmation
    else if j == 5 then StartListening
    else if j == 6 then ConfigureQueue
    else if j == 7 then StartPartials
    else if j < 8 + n then Forward
    else Finish
  }

  lemma StreamLogShape(s: Session, audio: seq<AudioChunk>, sc: TaskScript)
    ensures forall j :: 0 <= j < |StreamLog(s, audio, sc)| ==>
      StepOf(StreamLog(s, audio, sc)[j]) == StepAt(j + 6, |Sent(audio, sc.rejection)|)
  {
    var n := |Sent(audio, sc.rejection)|;
    var head := [QueueConfigured(s), PartialResultsProcessorStarted(s)] + ChunkEvents(Sent(audio, sc.rejection));
    var log := StreamLog(s, audio, sc);
    forall j | 0 <= j < |log| ensures StepOf(log[j]) == StepAt(j + 6, n) {
      if j < 2 {
        assert log[j] == head[j];
      } else if j < 2 + n {
        assert log[j] == head[j] == ChunkEvents(Sent(audio, sc.rejection))[j - 2];
      } else {
        assert log[j] == FinishRequested(s);
      }
    }
  }

  lemma ListenLogShape(s: Session, audio: seq<AudioChunk>, sc: TaskScript)
    ensures forall j :: 0 <= j < |ListenLog(s, audio, sc)| ==>
      StepOf(ListenLog(s, audio, sc)[j]) == StepAt(j + 4, |Sent(audio, sc.rejection)|)
  {
    if sc.listening.None? {
      StreamLogShape(s, audio, sc);
      var log := ListenLog(s, audio, sc);
      forall j | 2 <= j < |log| ensures StepOf(log[j]) == StepAt(j + 4, |Sent(audio, sc.rejection)|) {
        assert log[j] == StreamLog(s, audio, sc)[j - 2];
      }
    }
  }

  lemma SessionLogShape(t: StreamingTask, sc: TaskScript)
    ensures forall j :: 0 <= j < |SessionLog(t, sc)| ==>
      StepOf(SessionLog(t, sc)[j]) == StepAt(j + 3, |Sent(t.audio, sc.rejection)|)
  {
    if sc.session.Ok? {
      var s := sc.session.value;
      ListenLogShape(s, t.audio, sc);
      var log := SessionLog(t, sc);
      forall j | 1 <= j < |log| ensures StepOf(log[j]) == StepAt(j + 3, |Sent(t.audio, sc.rejection)|) {
        assert log[j] == ListenLog(s, t.audio, sc)[j - 1];
      }
    }
  }

  lemma TaskLogShape(t: StreamingTask, sc: TaskScript)
    ensures forall j :: 0 <= j < |TaskLog(t, sc)| ==>
      StepOf(TaskLog(t, sc)[j]) == StepAt(j, |Sent(t.audio, sc.rejection)|)
  {
    if sc.validation.None? {
      SessionLogShape(t, sc);
      var log := TaskLog(t, sc);
      forall j | 3 <= j < |log| ensures StepOf(log[j]) == StepAt(j, |Sent(t.audio, sc.rejection)|) {
        assert log[j] == SessionLog(t, sc)[j - 3];
      }
    }
  }

  /** The index of the first call of kind `st` in a task that gets that
      far; every call of that kind comes at or after it. */
  function FirstIndex(st: Step): nat {
    match st
    case ResetPartials => 0
    case ResetQueue => 1
    case Validate => 2
    case RequestSession => 3
    case InstallConfirmation => 4
    case StartListening => 5
    case ConfigureQueue => 6
    case StartPartials => 7
    case _ => 8
  }

  lemma StepAtFirstIndex(j: nat, n: nat)
    ensures FirstIndex(StepAt(j, n)) <= j
  {
  }

  lemma ShapePrecedes(log: seq<Event>, n: nat, a: Step, b: Step)
    requires forall j :: 0 <= j < |log| ==> StepOf(log[j]) == StepAt(j, n)
    requires FirstIndex(a) < 8 && FirstIndex(a) < FirstIndex(b)
    ensures Precedes(log, a, b)
  {
    forall j | 0 <= j < |log| && StepOf(log[j]) == b
      ensures exists i :: 0 <= i < j && StepOf(log[i]) == a
    {
      StepAtFirstIndex(j, n);
      var i := FirstIndex(a);
      assert StepOf(log[i]) == a;
    }
  }

  /** The fixed setup order of a transcription task: the partial results and
      the queue are reset and the configuration validated before a session
      is requested; the confirmation handler is installed before listening
      starts; the queue is configured and the partial-results processor
      started before any audio is forwarded or the session finished. */
  lemma SetupOrder(t: StreamingTask, sc: TaskScript)
    ensures var log := TaskLog(t, sc);
      && Precedes(log, ResetPartials, ResetQueue)
      && Precedes(log, ResetQueue, Validate)
      && Precedes(log, Validate, RequestSession)
      && Precedes(log, RequestSession, InstallConfirmation)
      && Precedes(log, InstallConfirmation, StartListening)
      && Precedes(log, StartListening, ConfigureQueue)
      && Precedes(log, ConfigureQueue, StartPartials)
      && Precedes(log, StartPartials, Forward)
      && Precedes(log, StartPartials, Finish)
  {
    var log, n := TaskLog(t, sc), |Sent(t.audio, sc.rejection)|;
    TaskLogShape(t, sc);
    ShapePrecedes(log, n, ResetPartials, ResetQueue);
    ShapePrecedes(log, n, ResetQueue, Validate);
    ShapePrecedes(log, n, Validate, RequestSession);
    ShapePrecedes(log, n, RequestSession, InstallConfirmation);
    ShapePrecedes(log, n, InstallConfirmation, StartListening);
    ShapePrecedes(log, n, StartListening, ConfigureQueue);
    ShapePrecedes(log, n, ConfigureQueue, StartPartials);
    ShapePrecedes(log, n, StartPartials, Forward);
    ShapePrecedes(log, n, StartPartials, Finish);
  }

  /** A configuration that fails validation stops the transcription task before any
      session is requested and before any audio is forwarded; the error
      reported is the classified validation error. */
  lemma ValidationFailureStopsTask(t: StreamingTask, sc: TaskScript)
    requires sc.validation.Some?
    ensures forall e :: e in TaskLog(t, sc) ==> !e.SessionRequested? && !e.ChunkStreamed?
    ensures ErrorEvents(t, sc) == [ErrorShown(ConvertToSTTError(sc.validation.value))]
  {
  }

  /** The audio chunks forwarded to the queue, in the order forwarded. */
  function Forwarded(log: seq<Event>): seq<AudioChunk> {
    if log == [] then []
    else
      var last := log[|log| - 1];
      Forwarded(log[..|log| - 1]) + (if last.ChunkStreamed? then [last.chunk] else [])
  }

  lemma {:induction false} ForwardedAppend(a: seq<Event>, b: seq<Event>)
    ensures Forwarded(a + b) == Forwarded(a) + Forwarded(b)
    decreases |b|
  {
    if b != [] {
      var n := |b| - 1;
      assert (a + b)[..|a + b| - 1] == a + b[..n];
      assert (a + b)[|a + b| - 1] == b[n];
      ForwardedAppend(a, b[..n]);
    } else {
      assert a + b == a;
    }
  }

  lemma {:induction false} ForwardedChunks(chunks: seq<AudioChunk>)
    ensures Forwarded(ChunkEvents(chunks)) == chunks
    decreases |chunks|
  {
    if chunks != [] {
      var n := |chunks| - 1;
      assert ChunkEvents(chunks)[..n] == ChunkEvents(chunks[..n]);
      ForwardedChunks(chunks[..n]);
      assert chunks == chunks[..n] + [chunks[n]];
    }
  }

  lemma {:induction false} ForwardedNone(log: seq<Event>)
    requires forall e :: e in log ==> !e.ChunkStreamed?
    ensures Forwarded(log) == []
    decreases |log|
  {
    if log != [] {
      assert log[|log| - 1] in log;
      ForwardedNone(log[..|log| - 1]);
    }
  }

  lemma StreamLogForwards(s: Session, audio: seq<AudioChunk>, sc: TaskScript)
    ensures Forwarded(StreamLog(s, audio, sc)) == Sent(audio, sc.rejection)
  {
    var sent := Sent(audio, sc.rejection);
    var pre := [QueueConfigured(s), PartialResultsProcessorStarted(s)];
    var chunks := ChunkEvents(sent);
    var post: seq<Event> := if StreamFailure(audio, sc).Some? then [] else [FinishRequested(s)];
    assert StreamLog(s, audio, sc) == (pre + chunks) + post;
    ForwardedNone(pre);
    ForwardedNone(post);
    ForwardedChunks(sent);
    ForwardedAppend(pre, chunks);
    assert Forwarded(pre + chunks) == sent;
    ForwardedAppend(pre + chunks, post);
  }

  /** Once the setup succeeds, the chunks of the captured audio are
      forwarded once each and in arrival order: all of them, or, when the
      queue rejects one, those up to and including that one. None is
      forwarded otherwise. */
  lemma ChunksForwardedExactlyOnce(t: StreamingTask, sc: TaskScript)
    ensures Forwarded(TaskLog(t, sc)) ==
      if !SetupSucceeds(sc) then []
      else if Rejected(t.audio, sc.rejection) then t.audio[..sc.rejection.value.index + 1]
      else t.audio
  {
    TaskLogForwards(t, sc);
  }

  /** The chunks a task forwards are those its stream sends, once the setup
      succeeds. */
  lemma TaskLogForwards(t: StreamingTask, sc: TaskScript)
    ensures Forwarded(TaskLog(t, sc)) == if SetupSucceeds(sc) then Sent(t.audio, sc.rejection) else []
  {
    var pre := [PartialResultsReset, QueueReset, ValidationRequested(t.config)];
    ForwardedNone(pre);
    if sc.validation.Some? {
      ForwardedNone(TaskLog(t, sc));
      return;
    }
    ForwardedAppend(pre, SessionLog(t, sc));
    ForwardedNone([SessionRequested(t.config)]);
    if sc.session.Threw? {
      ForwardedNone(SessionLog(t, sc));
      return;
    }
    var s := sc.session.value;
    ForwardedAppend([SessionRequested(t.config)], ListenLog(s, t.audio, sc));
    var listen := [ConfirmationHandlerInstalled(s), ListeningStarted(s)];
    ForwardedNone(listen);
    if sc.listening.Some? {
      ForwardedNone(ListenLog(s, t.audio, sc));
      return;
    }
    ForwardedAppend(listen, StreamLog(s, t.audio, sc));
    StreamLogForwards(s, t.audio, sc);
  }

  /** A chunk the queue rejects ends the task: the session is never
      finished, and the rejection is the error shown. */
  lemma RejectionEndsTask(t: StreamingTask, sc: TaskScript)
    requires SetupSucceeds(sc) && Rejected(t.audio, sc.rejection)
    ensures forall e :: e in TaskLog(t, sc) ==> !e.FinishRequested?
    ensures ErrorEvents(t, sc) == [ErrorShown(ConvertToSTTError(sc.rejection.value.failure))]
  {
    var s := sc.session.value;
    var chunks := ChunkEvents(Sent(t.audio, sc.rejection));
    assert StreamLog(s, t.audio, sc) == [QueueConfigured(s), PartialResultsProcessorStarted(s)] + chunks;
    assert forall e :: e in chunks ==> e.ChunkStreamed?;
  }

  // ---------------------------------------------------------------------
  // Partial results

  /** What processing the last chunk of `seen` (all the partial chunks the
      manager has processed so far) injects: the final transcription, when
      that chunk is final and the transcription is non-empty. */
  function StepInjection(final: seq<TranscriptionChunk> -> string,
                         seen: seq<TranscriptionChunk>): seq<string>
  {
    if seen != [] && seen[|seen| - 1].isFinal && final(seen) != [] then [final(seen)] else []
  }

  /** The texts injected while processing `partials`, the manager having
      processed `prior` before, given its final transcription query
      `final`. */
  function Injections(final: seq<TranscriptionChunk> -> string,
                      prior: seq<TranscriptionChunk>,
                      partials: seq<TranscriptionChunk>): seq<string>
  {
    if partials == [] then []
    else Injections(final, prior, partials[..|partials| - 1]) + StepInjection(final, prior + partials)
  }

  function InjectionEvents(texts: seq<string>): seq<Event> {
    seq(|texts|, i requires 0 <= i < |texts| => TextInjected(texts[i]))
  }

  lemma InjectionEventsAppend(a: seq<string>, b: seq<string>)
    ensures InjectionEvents(a + b) == InjectionEvents(a) + InjectionEvents(b)
  {
  }

  function LastOr(texts: seq<string>, default: string): string {
    if texts == [] then default else texts[|texts| - 1]
  }

  lemma LastOrAppend(a: seq<string>, b: seq<string>, default: string)
    ensures LastOr(a + b, default) == LastOr(b, LastOr(a, default))
  {
    if b == [] {
      assert a + b == a;
    } else {
      assert (a + b)[|a + b| - 1] == b[|b| - 1];
    }
  }

  /** The part of the service's state that processing partial results
      changes; `seen` is every chunk the partial-results manager has
      processed. */
  datatype PartialsState = PartialsState(
    seen: seq<TranscriptionChunk>,
    currentText: string,
    lastTranscription: string,
    events: seq<Event>,
    isTranscribing: bool,
    isStreamingActive: bool,
    currentSession: Option<Session>)

  /** Processing one partial chunk, given the manager's two queries. */
  function ChunkStep(complete: seq<TranscriptionChunk> -> string,
                     final: seq<TranscriptionChunk> -> string,
                     v: PartialsState, chunk: TranscriptionChunk): PartialsState
  {
    var seen := v.seen + [chunk];
    var step := StepInjection(final, seen);
    PartialsState(seen, complete(seen), LastOr(step, v.lastTranscription),
                  v.events + InjectionEvents(step),
                  v.isTranscribing && step == [], v.isStreamingActive && step == [],
                  if step == [] then v.currentSession else None)
  }

  /** Processing `partials` one after another. */
  function ProcessAll(complete: seq<TranscriptionChunk> -> string,
                      final: seq<TranscriptionChunk> -> string,
                      v: PartialsState, partials: seq<TranscriptionChunk>): PartialsState
  {
    if partials == [] then v
    else ChunkStep(complete, final, ProcessAll(complete, final, v, partials[..|partials| - 1]),
                   partials[|partials| - 1])
  }

  /** `r` is what processing `partials` from `v` should leave: the manager
      has seen them all, in order; the live text is the complete
      transcription; the texts injected are `Injections`, the last of them
      is the last transcription; and after any injection both flags are
      cleared and the session is let go. */
  predicate ProcessedFrom(complete: seq<TranscriptionChunk> -> string,
                          final: seq<TranscriptionChunk> -> string,
                          v: PartialsState, partials: seq<TranscriptionChunk>, r: PartialsState)
  {
    var injected := Injections(final, v.seen, partials);
    && r.seen == v.seen + partials
    && r.currentText == (if partials == [] then v.currentText else complete(r.seen))
    && r.events == v.events + InjectionEvents(injected)
    && r.lastTranscription == LastOr(injected, v.lastTranscription)
    && r.isTranscribing == (v.isTranscribing && injected == [])
    && r.isStreamingActive == (v.isStreamingActive && injected == [])
    && r.currentSession == (if injected == [] then v.currentSession else None)
  }

  /** One more chunk keeps `ProcessedFrom`. */
  lemma ChunkStepProcesses(complete: seq<TranscriptionChunk> -> string,
                           final: seq<TranscriptionChunk> -> string,
                           v: PartialsState, init: seq<TranscriptionChunk>, chunk: TranscriptionChunk,
                           r0: PartialsState)
    requires ProcessedFrom(complete, final, v, init, r0)
    ensures ProcessedFrom(complete, final, v, init + [chunk], ChunkStep(complete, final, r0, chunk))
  {
    var partials := init + [chunk];
    var r := ChunkStep(complete, final, r0, chunk);
    assert partials[..|partials| - 1] == init;
    var before := Injections(final, v.seen, init);
    assert r.seen == v.seen + partials;
    var step := StepInjection(final, r.seen);
    assert Injections(final, v.seen, partials) == before + step;
    InjectionEventsAppend(before, step);
    LastOrAppend(before, step, v.lastTranscription);
  }

  /** Processing `partials` one after another does what `ProcessedFrom`
      says. */
  lemma {:induction false} ProcessAllSpec(complete: seq<TranscriptionChunk> -> string,
                                          final: seq<TranscriptionChunk> -> string,
                                          v: PartialsState, partials: seq<TranscriptionChunk>)
    ensures ProcessedFrom(complete, final, v, partials, ProcessAll(complete, final, v, partials))
    decreases |partials|
  {
    if partials == [] {
      assert v.seen + partials == v.seen;
    } else {
      var n := |partials| - 1;
      var init, r0 := partials[..n], ProcessAll(complete, final, v, partials[..n]);
      ProcessAllSpec(complete, final, v, init);
      ChunkStepProcesses(complete, final, v, init, partials[n], r0);
      assert init + [partials[n]] == partials;
      assert ProcessAll(complete, final, v, partials) == ChunkStep(complete, final, r0, partials[n]);
    }
  }

  /** Partial chunks none of which is final never inject anything. */
  lemma {:induction false} NonFinalNeverInjects(final: seq<TranscriptionChunk> -> string,
                                                prior: seq<TranscriptionChunk>,
                                                partials: seq<TranscriptionChunk>)
    requires forall i :: 0 <= i < |partials| ==> !partials[i].isFinal
    ensures Injections(final, prior, partials) == []
    decreases |partials|
  {
    if partials != [] {
      NonFinalNeverInjects(final, prior, partials[..|partials| - 1]);
    }
  }

  /** A stream whose only final chunk is its last injects exactly once: the
      final transcription after that chunk, when it is non-empty; and
      nothing at all when it is empty. */
  lemma FinalChunkInjectsOnce(final: seq<TranscriptionChunk> -> string,
                              prior: seq<TranscriptionChunk>,
                              partials: seq<TranscriptionChunk>)
    requires |partials| > 0 && partials[|partials| - 1].isFinal
    requires forall i :: 0 <= i < |partials| - 1 ==> !partials[i].isFinal
    ensures final(prior + partials) != [] ==>
      Injections(final, prior, partials) == [final(prior + partials)]
    ensures final(prior + partials) == [] ==> Injections(final, prior, partials) == []
  {
    NonFinalNeverInjects(final, prior, partials[..|partials| - 1]);
    assert partials[|partials| - 1] == (prior + partials)[|prior + partials| - 1];
  }

  /** Every injected text is non-empty. */
  lemma {:induction false} InjectionsNonEmpty(final: seq<TranscriptionChunk> -> string,
                                              prior: seq<TranscriptionChunk>,
                                              partials: seq<TranscriptionChunk>)
    ensures forall t :: t in Injections(final, prior, partials) ==> t != []
    decreases |partials|
  {
    if partials != [] {
      InjectionsNonEmpty(final, prior, partials[..|partials| - 1]);
    }
  }

  // ---------------------------------------------------------------------
  // The service

  class StreamingTranscriptionService {
    var currentText: string
    var lastTranscription: string
    var isTranscribing: bool
    var isStreamingActive: bool
    var error: Option<STTError>
    var provider: Option<ProviderType>
    var currentSession: Option<Session>
    var currentConfig: Option<ProviderConfig>
    var currentProviderType: Option<ProviderType>
    /** The launched transcription task that has not run yet, with the
        audio stream and configuration it captured; cancelling it drops it. */
    var pendingTask: Option<StreamingTask>
    /** The session whose partial results a processor has been started for. */
    var partialsProcessor: Option<Session>
    /** The partial chunks the partial-results manager has processed since
        its last reset. */
    var partialsSeen: seq<TranscriptionChunk>
    var events: seq<Event>
    /** The partial-results manager's `getCompleteTranscription()` and
        `getFinalTranscription()`, as functions of `partialsSeen`. */
    const completeTranscription: seq<TranscriptionChunk> -> string
    const finalTranscription: seq<TranscriptionChunk> -> string

    constructor (complete: seq<TranscriptionChunk> -> string, final: seq<TranscriptionChunk> -> string)
      ensures completeTranscription == complete && finalTranscription == final
      ensures currentText == [] && lastTranscription == []
      ensures !isTranscribing && !isStreamingActive && error == None
      ensures provider == None && currentSession == None
      ensures currentConfig == None && currentProviderType == None
      ensures pendingTask == None && partialsProcessor == None
      ensures partialsSeen == [] && events == []
    {
      completeTranscription, finalTranscription := complete, final;
      currentText, lastTranscription := [], [];
      isTranscribing, isStreamingActive, error := false, false, None;
      provider, currentSession := None, None;
      currentConfig, currentProviderType := None, None;
      pendingTask, partialsProcessor := None, None;
      partialsSeen, events := [], [];
    }

    method SetProvider(p: ProviderType)
      modifies this`provider
      ensures provider == Some(p)
    {
      provider := Some(p);
    }

    /** Without a provider only `error` is set. Otherwise any pending task is
        cancelled, both flags are raised, the error and the live text are
        cleared, the configuration and provider type are kept for a retry,
        and a task is launched on `audio` for `config`. */
    method StartTranscription(audio: seq<AudioChunk>, config: ProviderConfig)
      modifies this`error, this`isTranscribing, this`isStreamingActive, this`currentText,
               this`currentConfig, this`currentProviderType, this`pendingTask
      ensures old(provider).None? ==>
        && error == Some(TranscriptionError("No streaming provider configured"))
        && isTranscribing == old(isTranscribing) && isStreamingActive == old(isStreamingActive)
        && currentText == old(currentText) && currentConfig == old(currentConfig)
        && currentProviderType == old(currentProviderType) && pendingTask == old(pendingTask)
      ensures old(provider).Some? ==>
        && isTranscribing && isStreamingActive && error == None && currentText == []
        && currentConfig == Some(config) && currentProviderType == provider
        && pendingTask == Some(StreamingTask(audio, config))
    {
      if provider.None? {
        error := Some(TranscriptionError("No streaming provider configured"));
        return;
      }
      isTranscribing := true;
      isStreamingActive := true;
      error := None;
      currentText := [];
      currentConfig := Some(config);
      currentProviderType := provider;
      pendingTask := Some(StreamingTask(audio, config));
    }

    /** Runs the pending transcription task to its end, its collaborators
        behaving as `sc` says. The calls made are exactly `TaskLog`, followed
        by the classified error when some call throws; a failure sets `error`
        and clears both flags; success leaves the flags to the
        partial-results processor. */
    method RunTranscriptionTask(sc: TaskScript)
      requires pendingTask.Some?
      modifies this`pendingTask, this`partialsSeen, this`events, this`currentSession,
               this`partialsProcessor, this`error, this`isTranscribing, this`isStreamingActive
      ensures var t := old(pendingTask).value;
        events == old(events) + TaskLog(t, sc) + ErrorEvents(t, sc)
      ensures pendingTask == None && partialsSeen == []
      ensures currentSession ==
        if sc.validation.None? && sc.session.Ok? then Some(sc.session.value) else old(currentSession)
      ensures partialsProcessor ==
        if SetupSucceeds(sc) then Some(sc.session.value) else old(partialsProcessor)
      ensures var t := old(pendingTask).value;
        TaskFailure(t, sc).Some? ==>
        error == Some(ConvertToSTTError(TaskFailure(t, sc).value)) && !isTranscribing && !isStreamingActive
      ensures TaskFailure(old(pendingTask).value, sc).None? ==>
        error == old(error) && isTranscribing == old(isTranscribing)
        && isStreamingActive == old(isStreamingActive)
    {
      ghost var start := events;
      var task := pendingTask.value;
      pendingTask := None;
      // Reset the partial results and the queue, then validate.
      partialsSeen := [];
      var setup := [PartialResultsReset, QueueReset, ValidationRequested(task.config)];
      events := events + setup;
      var failure := sc.validation;
      if failure.None? {
        failure := ProcessStreamingTranscription(task, sc);
        AppendAssociates(start, setup, SessionLog(task, sc));
      }
      assert events == start + TaskLog(task, sc);
      if failure.Some? {
        HandleError(ConvertToSTTError(failure.value));
      } else {
        assert events + ErrorEvents(task, sc) == events;
      }
    }

    /** Steps 1 to 7 of a task: establish the session, install the
        confirmation handler, start listening, configure the queue, start the
        partial-results processor, forward the audio, finish. Returns the
        first error thrown. */
    method ProcessStreamingTranscription(task: StreamingTask, sc: TaskScript) returns (failure: Option<Failure>)
      requires sc.validation.None?
      modifies this`events, this`currentSession, this`partialsProcessor
      ensures failure == TaskFailure(task, sc)
      ensures events == old(events) + SessionLog(task, sc)
      ensures currentSession == if sc.session.Ok? then Some(sc.session.value) else old(currentSession)
      ensures partialsProcessor ==
        if SetupSucceeds(sc) then Some(sc.session.value) else old(partialsProcessor)
    {
      ghost var start := events;
      events := events + [SessionRequested(task.config)];
      if sc.session.Threw? {
        return Some(sc.session.failure);
      }
      var session := sc.session.value;
      currentSession := Some(session);
      failure := ListenAndStream(session, task, sc);
      AppendAssociates(start, [SessionRequested(task.config)], ListenLog(session, task.audio, sc));
    }

    /** Steps 2 to 7, once the session is established: install the
        confirmation handler, start listening and, unless that throws, stream
        the task's audio. Returns the first error thrown. */
    method ListenAndStream(session: Session, task: StreamingTask, sc: TaskScript) returns (failure: Option<Failure>)
      requires sc.validation.None? && sc.session.Ok?
      modifies this`events, this`partialsProcessor
      ensures failure == TaskFailure(task, sc)
      ensures events == old(events) + ListenLog(session, task.audio, sc)
      ensures partialsProcessor == if sc.listening.None? then Some(session) else old(partialsProcessor)
    {
      ghost var start := events;
      var listen := [ConfirmationHandlerInstalled(session), ListeningStarted(session)];
      events := events + [ConfirmationHandlerInstalled(session)];
      events := events + [ListeningStarted(session)];
      AppendAssociates(start, [ConfirmationHandlerInstalled(session)], [ListeningStarted(session)]);
      if sc.listening.Some? {
        return sc.listening;
      }
      failure := StreamAudio(session, task.audio, sc);
      AppendAssociates(start, listen, StreamLog(session, task.audio, sc));
      if failure.None? {
        failure := sc.finish;
      }
    }

    /** Steps 4 to 7: configure the queue, start the partial-results
        processor, forward the audio and, unless the queue or the audio
        stream threw, finish the session. Returns what was thrown. */
    method StreamAudio(session: Session, audio: seq<AudioChunk>, sc: TaskScript) returns (failure: Option<Failure>)
      modifies this`events, this`partialsProcessor
      ensures failure == StreamFailure(audio, sc)
      ensures events == old(events) + StreamLog(session, audio, sc)
      ensures partialsProcessor == Some(session)
    {
      ghost var start := events;
      events := events + [QueueConfigured(session)];
      StartPartialResultsProcessor(session);
      ghost var pre := [QueueConfigured(session), PartialResultsProcessorStarted(session)];
      AppendAssociates(start, [QueueConfigured(session)], [PartialResultsProcessorStarted(session)]);
      var chunkCount;
      chunkCount, failure := ProcessAudioStream(audio, sc.rejection);
      ghost var sent := ChunkEvents(Sent(audio, sc.rejection));
      AppendAssociates(start, pre, sent);
      if failure.None? {
        failure := sc.audioEnd;
      }
      if failure.None? {
        events := events + [FinishRequested(session)];
        AppendAssociates(start, pre + sent, [FinishRequested(session)]);
      } else {
        assert pre + sent + [] == pre + sent;
      }
    }

    method StartPartialResultsProcessor(session: Session)
      modifies this`events, this`partialsProcessor
      ensures events == old(events) + [PartialResultsProcessorStarted(session)]
      ensures partialsProcessor == Some(session)
    {
      events := events + [PartialResultsProcessorStarted(session)];
      partialsProcessor := Some(session);
    }

    /** Passes the chunks of the audio stream to the queue, once each and in
        arrival order, counting them, until the queue rejects one as
        `rejection` says; returns the count and the queue's error. */
    method ProcessAudioStream(audio: seq<AudioChunk>, rejection: Option<Rejection>)
      returns (chunkCount: nat, failure: Option<Failure>)
      modifies this`events
      ensures chunkCount == |Sent(audio, rejection)|
      ensures events == old(events) + ChunkEvents(Sent(audio, rejection))
      ensures failure == if Rejected(audio, rejection) then Some(rejection.value.failure) else None
    {
      chunkCount, failure := 0, None;
      while chunkCount < |audio| && failure.None?
        invariant chunkCount <= |audio|
        invariant events == old(events) + ChunkEvents(audio[..chunkCount])
        invariant failure.None? ==> !(rejection.Some? && rejection.value.index < chunkCount)
        invariant failure.Some? ==>
          rejection.Some? && chunkCount == rejection.value.index + 1 && failure == Some(rejection.value.failure)
      {
        var chunk := audio[chunkCount];
        chunkCount := chunkCount + 1;
        events := events + [ChunkStreamed(chunk)];
        assert ChunkEvents(audio[..chunkCount]) == ChunkEvents(audio[..chunkCount - 1]) + [ChunkStreamed(chunk)];
        if rejection.Some? && rejection.value.index == chunkCount - 1 {
          failure := Some(rejection.value.failure);
        }
      }
      assert audio[..chunkCount] == Sent(audio, rejection);
    }

    /** The state processing partial results changes. */
    function PartialsView(): PartialsState
      reads this
    {
      PartialsState(partialsSeen, currentText, lastTranscription, events,
                    isTranscribing, isStreamingActive, currentSession)
    }

    /** Consumes a session's partial results, one chunk at a time. */
    method ProcessPartialResults(partials: seq<TranscriptionChunk>)
      requires partialsProcessor.Some?
      modifies this`partialsSeen, this`currentText, this`lastTranscription, this`events,
               this`isTranscribing, this`isStreamingActive, this`currentSession
      ensures PartialsView() == ProcessAll(completeTranscription, finalTranscription, old(PartialsView()), partials)
      ensures partialsSeen == old(partialsSeen) + partials
      ensures currentText == (if partials == [] then old(currentText) else completeTranscription(partialsSeen))
      ensures var injected := Injections(finalTranscription, old(partialsSeen), partials);
        && events == old(events) + InjectionEvents(injected)
        && lastTranscription == LastOr(injected, old(lastTranscription))
        && isTranscribing == (old(isTranscribing) && injected == [])
        && isStreamingActive == (old(isStreamingActive) && injected == [])
        && currentSession == (if injected == [] then old(currentSession) else None)
    {
      ghost var start := PartialsView();
      var i := 0;
      while i < |partials|
        invariant 0 <= i <= |partials|
        invariant PartialsView() == ProcessAll(completeTranscription, finalTranscription, start, partials[..i])
      {
        ProcessPartialChunk(partials[i]);
        assert partials[..i + 1][..i] == partials[..i];
        i := i + 1;
      }
      assert partials[..i] == partials;
      ProcessAllSpec(completeTranscription, finalTranscription, start, partials);
    }

    /** Processes one partial chunk: the manager takes it and the live text
        becomes its complete transcription. A final chunk whose final
        transcription is non-empty injects that text, records it as the last
        transcription, clears both flags and lets the session go. */
    method ProcessPartialChunk(chunk: TranscriptionChunk)
      modifies this`partialsSeen, this`currentText, this`lastTranscription, this`events,
               this`isTranscribing, this`isStreamingActive, this`currentSession
      ensures PartialsView() == ChunkStep(completeTranscription, finalTranscription, old(PartialsView()), chunk)
    {
      partialsSeen := partialsSeen + [chunk];
      if chunk.isFinal {
        var finalTranscript := finalTranscription(partialsSeen);
        if finalTranscript != [] {
          HandleSuccessfulTranscription(finalTranscript);
          isTranscribing := false;
          isStreamingActive := false;
          currentSession := None;
        }
      }
      currentText := completeTranscription(partialsSeen);
    }

    /** Shows and injects the final text: the partial-results manager's final
        transcription, or the trimmed argument when that is empty. Non-empty
        text becomes the last transcription and is injected once. */
    method HandleSuccessfulTranscription(finalText: string)
      modifies this`currentText, this`lastTranscription, this`events
      ensures var text := if finalTranscription(partialsSeen) != [] then finalTranscription(partialsSeen)
                          else Trim(finalText);
        && currentText == text
        && (text != [] ==> lastTranscription == text && events == old(events) + [TextInjected(text)])
        && (text == [] ==> lastTranscription == old(lastTranscription) && events == old(events))
    {
      var processedFinalText := finalTranscription(partialsSeen);
      var textToInject := if processedFinalText == [] then Trim(finalText) else processedFinalText;
      currentText := textToInject;
      if textToInject != [] {
        lastTranscription := textToInject;
        events := events + [TextInjected(textToInject)];
      }
    }

    /** Records the error, clears both flags and shows the error. */
    method HandleError(e: STTError)
      modifies this`error, this`isTranscribing, this`isStreamingActive, this`events
      ensures error == Some(e) && !isTranscribing && !isStreamingActive
      ensures events == old(events) + [ErrorShown(e)]
    {
      error := Some(e);
      isTranscribing := false;
      isStreamingActive := false;
      events := events + [ErrorShown(e)];
    }

    /** Cancels the pending task, clears both flags, and cleans up and drops
        the current session, if there is one. */
    method StopTranscription()
      modifies this`pendingTask, this`isTranscribing, this`isStreamingActive,
               this`currentSession, this`events
      ensures pendingTask == None && !isTranscribing && !isStreamingActive && currentSession == None
      ensures events == old(events) + (if old(currentSession).Some? then [SessionCleanedUp(old(currentSession).value)] else [])
    {
      pendingTask := None;
      isTranscribing := false;
      isStreamingActive := false;
      if currentSession.Some? {
        events := events + [SessionCleanedUp(currentSession.value)];
        currentSession := None;
      }
    }

    /** Whether there is a last transcription to put on the clipboard. */
    method CopyLastTranscriptionToClipboard() returns (copied: bool)
      ensures copied <==> lastTranscription != []
    {
      if lastTranscription == [] {
        return false;
      }
      return true;
    }
  }
}
