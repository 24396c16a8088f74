/** The application state (`AppState`): settings, the recording flag and its
    guards, which transcription service a recording goes to, and which
    service's last transcription is shown or copied. Audio capture, the
    microphone permission and the settings store are inputs; alerts are
    recorded in a log instead of being shown. */
module App {
  import opened Models
  import opened Errors
  import opened Recording
  import opened Keys
  import Rest
  import Streaming
  import Hotkeys

  const MaxSystemPromptLength: nat := 1024
  const TranscriptionLanguage: string := "en"

  /** The system prompt after its length limit is enforced: prompts within
      the limit are kept, longer ones are cut to the limit. */
  function ClampSystemPrompt(s: string): (r: string)
    ensures |r| <= MaxSystemPromptLength
    ensures r <= s
    ensures |s| <= MaxSystemPromptLength ==> r == s
    ensures |s| > MaxSystemPromptLength ==> |r| == MaxSystemPromptLength
  {
    if |s| > MaxSystemPromptLength then s[..MaxSystemPromptLength] else s
  }

  /** Clamping a prompt that was already clamped changes nothing. */
  lemma ClampIdempotent(s: string)
    ensures ClampSystemPrompt(ClampSystemPrompt(s)) == ClampSystemPrompt(s)
  {
  }

  /** Whether a recording is transcribed by the streaming service: only when
      real-time mode is on and the selected model is a real-time model. */
  function UseStreaming(useRealtime: bool, p: ProviderType, model: string): (r: bool)
    ensures r <==> useRealtime && model in RealtimeModels(p)
  {
    useRealtime && SupportsRealtimeStreaming(p) && SupportsRealtime(p, model)
  }

  /** The service reported as active: the streaming one whenever real-time
      mode is on, whatever the model. */
  function ActiveIsStreaming(useRealtime: bool, p: ProviderType): (r: bool)
    ensures r <==> useRealtime
  {
    useRealtime && SupportsRealtimeStreaming(p)
  }

  /** A recording that streams is reported as active on the streaming
      service, but the converse fails: with real-time mode on and a stored
      model outside the catalogue, the streaming service is reported as
      active while recordings go to the REST service. */
  lemma ActiveServiceIgnoresModel(p: ProviderType, model: string)
    ensures UseStreaming(true, p, model) ==> ActiveIsStreaming(true, p)
    ensures model !in AllModels(p) ==> ActiveIsStreaming(true, p) && !UseStreaming(true, p, model)
  {
    CatalogueFacts(p);
    AllModelsValue(p);
  }

  /** The last transcription offered to the user: the streaming service's
      when it has one, otherwise the REST service's. */
  function LastTranscription(streamingLast: string, restLast: string): (r: string)
    ensures r in {streamingLast, restLast}
    ensures streamingLast != [] ==> r == streamingLast
    ensures r == [] <==> streamingLast == [] && restLast == []
  {
    if streamingLast != [] then streamingLast else restLast
  }

  /** The configuration a recording is transcribed with: the selected
      model, the system prompt unless it is empty, English. */
  function RecordingConfig(apiKey: string, model: string, systemPrompt: string): (r: ProviderConfig)
    ensures r.apiKey == apiKey && r.model == model && r.language == Some(TranscriptionLanguage)
    ensures r.systemPrompt.Some? <==> systemPrompt != []
    ensures r.systemPrompt.Some? ==> r.systemPrompt.value == systemPrompt
    ensures r.keywords == None
  {
    ProviderConfig(apiKey, model, if systemPrompt != [] then Some(systemPrompt) else None,
                   Some(TranscriptionLanguage), None)
  }

  /** The recording mode read back from the settings, `Toggle` when none
      was stored or the stored name is unknown. */
  function StoredRecordingMode(stored: Option<string>): (r: RecordingMode)
    ensures stored.Some? && ModeFromRaw(stored.value).Some? ==> r == ModeFromRaw(stored.value).value
    ensures stored.None? || ModeFromRaw(stored.value).None? ==> r == Toggle
  {
    if stored.Some? && ModeFromRaw(stored.value).Some? then ModeFromRaw(stored.value).value else Toggle
  }

  datatype Alert =
    | ApiKeyRequired
    | MicrophoneAccessRequired
    | RecordingFailed(description: Option<string>)
    | NoTextAvailable
    | TranscriptionShown(text: string)

  /** The alert that refuses to start recording, checked in order: no key,
      no microphone permission, then a capture that fails to start. */
  function StartRefusal(hasKey: bool, permissionGranted: bool, capture: Attempt<seq<AudioChunk>>): (r: Option<Alert>)
    ensures r.None? <==> hasKey && permissionGranted && capture.Ok?
    ensures !hasKey ==> r == Some(ApiKeyRequired)
    ensures hasKey && !permissionGranted ==> r == Some(MicrophoneAccessRequired)
    ensures hasKey && permissionGranted && capture.Threw? ==>
      r == Some(RecordingFailed(FailureMessage(capture.failure)))
  {
    if !hasKey then Some(ApiKeyRequired)
    else if !permissionGranted then Some(MicrophoneAccessRequired)
    else if capture.Threw? then Some(RecordingFailed(FailureMessage(capture.failure)))
    else None
  }

  class AppState {
    var systemPrompt: string
    var useRealtime: bool
    var recordingMode: RecordingMode
    var isRecording: bool
    var isMainAppInitialized: bool
    /** The after-launch setup was scheduled and has not run yet. */
    var launchSetupPending: bool
    /** Whether audio capture is running. */
    var captureRunning: bool
    /** Every alert shown, in order. */
    var alerts: seq<Alert>
    const rest: Rest.RestTranscriptionService
    const streaming: Streaming.StreamingTranscriptionService
    const hotkeys: Hotkeys.SimpleHotkeyManager
    const keys: APIKeyManager

    /** Both services have the OpenAI provider, each component keeps its own
        invariant, and the prompt is within its limit. */
    ghost predicate Valid()
      reads this, rest, streaming, hotkeys
    {
      && rest.Valid() && hotkeys.Valid()
      && rest.provider == Some(OpenAI) && streaming.provider == Some(OpenAI)
      && |systemPrompt| <= MaxSystemPromptLength
      && (launchSetupPending ==> isMainAppInitialized)
    }

    /** `isProcessing`, kept in step with both services' `isTranscribing`
        flags: some service is transcribing. */
    predicate IsProcessing()
      reads this, rest, streaming
    {
      rest.isTranscribing || streaming.isTranscribing
    }

    /** Loads the stored settings, gives both services the OpenAI provider,
        and initializes the application when onboarding was completed. */
    constructor (storedPrompt: Option<string>, storedUseRealtime: bool, storedMode: Option<string>,
                 onboardingCompleted: bool,
                 keychain: map<string, string>, defaults: map<string, string>,
                 recordingShortcut: Option<Hotkeys.Shortcut>, copyShortcut: Option<Hotkeys.Shortcut>,
                 complete: seq<TranscriptionChunk> -> string, final: seq<TranscriptionChunk> -> string)
      ensures Valid()
      ensures systemPrompt == ClampSystemPrompt(if storedPrompt.Some? then storedPrompt.value else "")
      ensures useRealtime == storedUseRealtime
      ensures recordingMode == StoredRecordingMode(storedMode)
      ensures !isRecording && !captureRunning && alerts == []
      ensures isMainAppInitialized == onboardingCompleted && launchSetupPending == onboardingCompleted
      ensures !IsProcessing()
      ensures keys.keychain == keychain && keys.defaults == defaults
      ensures !hotkeys.isEnabled
    {
      var restService := new Rest.RestTranscriptionService();
      var streamingService := new Streaming.StreamingTranscriptionService(complete, final);
      restService.SetProvider(OpenAI);
      streamingService.SetProvider(OpenAI);
      rest, streaming := restService, streamingService;
      hotkeys := new Hotkeys.SimpleHotkeyManager(recordingShortcut, copyShortcut);
      keys := new APIKeyManager(keychain, defaults);
      systemPrompt := ClampSystemPrompt(if storedPrompt.Some? then storedPrompt.value else "");
      useRealtime := storedUseRealtime;
      recordingMode := StoredRecordingMode(storedMode);
      isRecording, isMainAppInitialized, launchSetupPending := false, false, false;
      captureRunning := false;
      alerts := [];
      new;
      if onboardingCompleted {
        InitializeMainApp();
      }
    }

    /** The first call marks the application initialized and schedules the
        after-launch setup; later calls do nothing. */
    method InitializeMainApp()
      requires Valid()
      modifies this`isMainAppInitialized, this`launchSetupPending
      ensures Valid()
      ensures old(isMainAppInitialized) ==> unchanged(this)
      ensures !old(isMainAppInitialized) ==> isMainAppInitialized && launchSetupPending
    {
      if isMainAppInitialized {
        return;
      }
      isMainAppInitialized := true;
      launchSetupPending := true;
    }

    /** The after-launch setup: registers the hotkeys for the current
        recording mode. */
    method InitializeAfterLaunch()
      requires Valid() && launchSetupPending
      modifies this`launchSetupPending, hotkeys
      ensures Valid() && !launchSetupPending
      ensures hotkeys.isEnabled
      ensures hotkeys.recordingKeyDown == (if recordingMode == Toggle then Hotkeys.ToggleRecording else Hotkeys.StartRecording)
      ensures hotkeys.recordingKeyUp == (if recordingMode == Toggle then Hotkeys.NoAction else Hotkeys.StopRecording)
      ensures hotkeys.copyKeyDown ==
        (if hotkeys.currentCopyHotkeyString != Hotkeys.NoHotkeySet then Hotkeys.CopyLastTranscription else Hotkeys.NoAction)
    {
      hotkeys.RegisterHotkey(recordingMode);
      launchSetupPending := false;
    }

    method SetSystemPrompt(s: string)
      requires Valid()
      modifies this`systemPrompt
      ensures Valid()
      ensures systemPrompt == ClampSystemPrompt(s)
    {
      systemPrompt := ClampSystemPrompt(s);
    }

    method SetUseRealtime(b: bool)
      modifies this`useRealtime
      ensures useRealtime == b
    {
      useRealtime := b;
    }

    /** Changes the mode; once the application is initialized the hotkeys
        are unregistered and registered again for the new mode, before that
        they are left alone. */
    method SetRecordingMode(m: RecordingMode)
      requires Valid()
      modifies this`recordingMode, hotkeys
      ensures Valid()
      ensures recordingMode == m
      ensures !isMainAppInitialized ==> unchanged(hotkeys)
      ensures isMainAppInitialized ==>
        && hotkeys.isEnabled
        && hotkeys.recordingKeyDown == (if m == Toggle then Hotkeys.ToggleRecording else Hotkeys.StartRecording)
        && hotkeys.recordingKeyUp == (if m == Toggle then Hotkeys.NoAction else Hotkeys.StopRecording)
        && hotkeys.copyKeyDown ==
           (if hotkeys.currentCopyHotkeyString != Hotkeys.NoHotkeySet then Hotkeys.CopyLastTranscription else Hotkeys.NoAction)
    {
      recordingMode := m;
      if isMainAppInitialized {
        hotkeys.UnregisterHotkey();
        hotkeys.RegisterHotkey(m);
      }
    }

    /** Stops recording if it is on, starts it otherwise. */
    method ToggleRecording(permissionGranted: bool, capture: Attempt<seq<AudioChunk>>)
      requires Valid()
      modifies this`isRecording, this`captureRunning, this`alerts, rest, streaming
      ensures Valid()
      ensures old(isRecording) ==>
        && !isRecording && !captureRunning && alerts == old(alerts)
        && unchanged(rest) && unchanged(streaming)
      ensures var refusal := StartRefusal(keys.HasAPIKey(OpenAI), permissionGranted, capture);
        !old(isRecording) && refusal.Some? ==>
        && alerts == old(alerts) + [refusal.value]
        && !isRecording && captureRunning == old(captureRunning)
        && unchanged(rest) && unchanged(streaming)
      ensures !old(isRecording) && keys.HasAPIKey(OpenAI) && permissionGranted && capture.Ok? ==>
        && isRecording && captureRunning && alerts == old(alerts) && IsProcessing()
        && var config := RecordingConfig(keys.GetCurrentAPIKey().value, keys.SelectedModel(), systemPrompt);
        && (UseStreaming(useRealtime, OpenAI, keys.SelectedModel()) ==>
              && streaming.pendingTask == Some(Streaming.StreamingTask(capture.value, config))
              && streaming.isTranscribing && unchanged(rest))
        && (!UseStreaming(useRealtime, OpenAI, keys.SelectedModel()) ==>
              && rest.pendingTask == Some(Rest.Initial(capture.value, config))
              && rest.isTranscribing && unchanged(streaming))
    {
      if isRecording {
        StopRecording();
      } else {
        StartRecording(permissionGranted, capture);
      }
    }

    /** Checks for a key, then for microphone permission, then starts the
        capture (which may throw) and reads the key; then starts the chosen
        service on the capture's audio and only then sets `isRecording`.
        Each failed step shows its alert and leaves `isRecording` and both
        services as they were. */
    method StartRecording(permissionGranted: bool, capture: Attempt<seq<AudioChunk>>)
      requires Valid()
      modifies this`isRecording, this`captureRunning, this`alerts, rest, streaming
      ensures Valid()
      ensures var refusal := StartRefusal(keys.HasAPIKey(OpenAI), permissionGranted, capture);
        refusal.Some? ==>
        && alerts == old(alerts) + [refusal.value]
        && isRecording == old(isRecording) && captureRunning == old(captureRunning)
        && unchanged(rest) && unchanged(streaming)
      ensures keys.HasAPIKey(OpenAI) && permissionGranted && capture.Ok? ==>
        && isRecording && captureRunning && alerts == old(alerts) && IsProcessing()
        && var config := RecordingConfig(keys.GetCurrentAPIKey().value, keys.SelectedModel(), systemPrompt);
        && (UseStreaming(useRealtime, OpenAI, keys.SelectedModel()) ==>
              && streaming.pendingTask == Some(Streaming.StreamingTask(capture.value, config)) && streaming.isTranscribing
              && unchanged(rest))
        && (!UseStreaming(useRealtime, OpenAI, keys.SelectedModel()) ==>
              && rest.pendingTask == Some(Rest.Initial(capture.value, config)) && rest.isTranscribing
              && unchanged(streaming))
    {
      if !keys.HasAPIKey(OpenAI) {
        alerts := alerts + [ApiKeyRequired];
        return;
      }
      if !permissionGranted {
        alerts := alerts + [MicrophoneAccessRequired];
        return;
      }
      if capture.Threw? {
        alerts := alerts + [RecordingFailed(FailureMessage(capture.failure))];
        return;
      }
      BeginRecording(capture.value);
    }

    /** The part of `StartRecording` after its checks: starts the capture,
        reads the key, starts the service the settings choose on the
        capture's audio (leaving the other as it was) and sets
        `isRecording`. */
    method BeginRecording(audio: seq<AudioChunk>)
      requires Valid() && keys.HasAPIKey(OpenAI)
      modifies this`isRecording, this`captureRunning, rest, streaming
      ensures Valid() && isRecording && captureRunning && IsProcessing()
      ensures var config := RecordingConfig(keys.GetCurrentAPIKey().value, keys.SelectedModel(), systemPrompt);
        && (UseStreaming(useRealtime, OpenAI, keys.SelectedModel()) ==>
              streaming.pendingTask == Some(Streaming.StreamingTask(audio, config)) && streaming.isTranscribing && unchanged(rest))
        && (!UseStreaming(useRealtime, OpenAI, keys.SelectedModel()) ==>
              rest.pendingTask == Some(Rest.Initial(audio, config)) && rest.isTranscribing && unchanged(streaming))
    {
      captureRunning := true;
      var apiKey := keys.GetCurrentAPIKey();
      if apiKey.None? {
        // The source's "API Key Error" alert: unreachable here, since the
        // key was found above and OpenAI is the selected provider.
        assert false;
      }
      var config := RecordingConfig(apiKey.value, keys.SelectedModel(), systemPrompt);
      StartService(UseStreaming(useRealtime, OpenAI, keys.SelectedModel()), audio, config);
      isRecording := true;
    }

    /** Starts the streaming service when `useStreaming`, the REST service on
        `audio` otherwise; the other is left as it was. */
    method StartService(useStreaming: bool, audio: seq<AudioChunk>, config: ProviderConfig)
      requires Valid()
      modifies rest, streaming
      ensures Valid() && IsProcessing()
      ensures useStreaming ==> streaming.pendingTask == Some(Streaming.StreamingTask(audio, config)) && streaming.isTranscribing && unchanged(rest)
      ensures !useStreaming ==>
        rest.pendingTask == Some(Rest.Initial(audio, config)) && rest.isTranscribing && unchanged(streaming)
    {
      if useStreaming {
        streaming.StartTranscription(audio, config);
      } else {
        rest.StartTranscription(audio, config);
      }
    }

    /** Stops the capture and clears `isRecording`; the transcription in
        progress is not cancelled, so it can finish on the audio collected. */
    method StopRecording()
      modifies this`isRecording, this`captureRunning
      ensures !isRecording && !captureRunning
      ensures unchanged(rest) && unchanged(streaming) && IsProcessing() == old(IsProcessing())
    {
      captureRunning := false;
      isRecording := false;
    }

    /** Shows the preferred last transcription, or says there is none. */
    method ShowLastTranscription()
      modifies this`alerts
      ensures var t := LastTranscription(streaming.lastTranscription, rest.lastTranscription);
        alerts == old(alerts) + [if t != [] then TranscriptionShown(t) else NoTextAvailable]
    {
      var t := LastTranscription(streaming.lastTranscription, rest.lastTranscription);
      if t != [] {
        alerts := alerts + [TranscriptionShown(t)];
      } else {
        alerts := alerts + [NoTextAvailable];
      }
    }

    /** Copies the streaming service's last transcription if it has one,
        otherwise the REST service's, otherwise shows that there is none.
        Returns the text copied. */
    method CopyLastTranscription() returns (copied: Option<string>)
      modifies this`alerts
      ensures var t := LastTranscription(streaming.lastTranscription, rest.lastTranscription);
        copied == if t != [] then Some(t) else None
      ensures alerts == old(alerts) + (if copied.None? then [NoTextAvailable] else [])
    {
      var restLast := rest.lastTranscription;
      var streamingLast := streaming.lastTranscription;
      var ok := false;
      if streamingLast != [] {
        ok := streaming.CopyLastTranscriptionToClipboard();
      }
      if ok {
        return Some(streamingLast);
      }
      if restLast != [] {
        ok := rest.CopyLastTranscriptionToClipboard();
      }
      if ok {
        return Some(restLast);
      }
      alerts := alerts + [NoTextAvailable];
      return None;
    }
  }
}
