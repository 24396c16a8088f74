# Narro transcription core, modelled in Dafny

Narro is a macOS menu-bar app. It records speech, has it transcribed by
OpenAI, and types the transcript into the frontmost application. This
project models its core and proves properties of that model:

- **the batch service** (`RestTranscriptionService`): it collects the whole
  recording, sends it to the provider in one request, trims the answer and
  injects it. A failure is reported with a retry offer when the attempt's
  audio was kept.
- **the streaming service** (`StreamingTranscriptionService`): it sets up a
  real-time session in a fixed order, forwards audio chunks one by one,
  shows partial results, and injects the final transcript as soon as it
  arrives.
- **the models**: the provider catalogue (REST and real-time model lists, the
  sorted list of all models), transcription chunks and provider
  configurations, and the error types with their classification.
- **the hotkey manager** (`SimpleHotkeyManager`): display strings for
  shortcuts, and the handler table for toggle and hold recording modes.
- **the application state** (`AppState`, `APIKeyManager`): the
  system-prompt length limit, the choice between streaming and batch, the
  recording flag and its guards, initialisation, the "processing" flag, which
  service's last transcription is offered, and key and model storage.

Modules, one per file:

| file | module | contents |
|---|---|---|
| Text.dfy | `Text` | whitespace trim, substring search, ASCII lower-casing |
| Models.dfy | `Models` | chunks, configurations, provider catalogue, sorted deduplication |
| Errors.dfy | `Errors` | `STTError`, `StreamingError`, thrown failures, error classification |
| Streaming.dfy | `Streaming` | the streaming service class and its call-log specification |
| Rest.dfy | `Rest` | the batch service class, audio collection and replay, retry contexts |
| Recording.dfy | `Recording` | `RecordingMode` |
| Hotkeys.dfy | `Hotkeys` | key and shortcut display strings, the hotkey manager class |
| Keys.dfy | `Keys` | the API-key manager class |
| App.dfy | `App` | the application-state class and its pure decisions |

How the model handles what it cannot see:

- **Asynchronous tasks.** A service's `startTranscription` does its
  synchronous part and records the transcription task it launched in `pendingTask`.
  The task carries the captured audio and the configuration, so both
  services work on the chunks the capture produced.
  Running that task is a separate method (`RunTranscriptionTask`,
  `RunPendingTask`). Cancelling a task means dropping the pending one.
- **Collaborators** (provider, session, audio queue, partial-results
  manager, text injector, notification manager). Each call the service makes
  into one of them is recorded, in order, in the class's `events` log.
- **Outcomes of collaborator calls** (a validation failure, what the
  provider returns, the audio queue rejecting a chunk, a stream that throws)
  are inputs: a `TaskScript` or a `RestScript`.
- **The partial-results manager's two queries** are functions of the chunks
  it has seen, supplied when the service is constructed.
- **Alerts** are appended to a log.
- **The keychain and the user defaults** are maps.

## Model

| member | source | states |
|---|---|---|
| Text.Trim | NarroApp/VTS/Services/RestTranscriptionService.swift:124 | the result has no whitespace at either end, and it is what remains after cutting only whitespace from both ends of the input |
| Text.TrimIdempotent | NarroApp/VTS/Services/RestTranscriptionService.swift:124 | trimming a trimmed text changes nothing |
| Text.TrimAllWhitespace | NarroApp/VTS/Services/RestTranscriptionService.swift:124 | a text made only of whitespace trims to the empty string |
| Text.Lower | VTSApp/VTSApp.swift:91 | lower-casing keeps the length and lowers each character |
| Models.NewChunk | VTSApp/VTS/Models/TranscriptionModels.swift:8-12 | a chunk holds the text and the finality it was made with |
| Models.ChunkDefaultIsNotFinal | VTSApp/VTS/Models/TranscriptionModels.swift:8 | a chunk made without saying otherwise is not final |
| Models.NewConfig | VTSApp/VTS/Models/TranscriptionModels.swift:23-30 | a configuration holds the key and model it was made with |
| Models.ConfigDefaultsAreNil | VTSApp/VTS/Models/TranscriptionModels.swift:23 | system prompt, language and keywords default to nil |
| Models.ProviderFromRaw | VTSApp/VTS/Models/TranscriptionModels.swift:33-34 | a provider parsed from a name has that name as its raw value |
| Models.RawValueRoundTrip | VTSApp/VTS/Models/TranscriptionModels.swift:33-34 | every provider is recovered from its raw value |
| Models.AllProviders | VTSApp/VTS/Models/TranscriptionModels.swift:33 | the list of all providers contains every provider |
| Models.SupportsRealtimeStreaming | VTSApp/VTS/Models/TranscriptionModels.swift:55-57 | a provider streams exactly when some model of it supports real time |
| Models.SupportsRealtime | VTSApp/VTS/Models/TranscriptionModels.swift:49-51 | a model supports real time exactly when it is one of the REST models, since the two lists hold the same names |
| Models.AllModels | VTSApp/VTS/Models/TranscriptionModels.swift:45-47 | all models are strictly ascending (so duplicate-free) and are exactly the union of the REST and real-time models |
| Models.SortedSet | VTSApp/VTS/Models/TranscriptionModels.swift:46 | sorting a set of names gives a strictly ascending list of the same names |
| Models.Insert | VTSApp/VTS/Models/TranscriptionModels.swift:46 | inserting into an ascending list keeps it ascending and adds exactly the new name |
| Models.AscendingUnique | VTSApp/VTS/Models/TranscriptionModels.swift:46 | two strictly ascending lists with the same elements are equal, so the sorted list is determined by the set |
| Models.AllModelsValue | VTSApp/VTS/Models/TranscriptionModels.swift:45-47 | all models are gpt-4o-mini-transcribe, gpt-4o-transcribe, whisper-1, in that order |
| Models.CatalogueFacts | VTSApp/VTS/Models/TranscriptionModels.swift:36-57 | there are three models; every REST model supports real time; a model supports real time exactly when it is in the catalogue; the provider streams |
| Errors.ConvertToSTTError | VTSApp/VTS/Services/StreamingTranscriptionService.swift:307-332 | an `STTError` is kept; a connection failure becomes a network error and an audio-stream failure an audio-processing error, each with its message; a session error that mentions both "string too long" and "prompt" becomes "System prompt too long"; everything else is a transcription error with its message |
| Errors.RestErrorOf | NarroApp/VTS/Services/RestTranscriptionService.swift:141 | an `STTError` is kept; anything else becomes a transcription error carrying its description |
| Errors.ClassifiersAgree | NarroApp/VTS/Services/RestTranscriptionService.swift:141 | the two services classify every failure that is not a streaming error in the same way |
| Errors.ConvertIdempotent | VTSApp/VTS/Services/StreamingTranscriptionService.swift:308-310 | classifying an already classified error changes nothing |
| Errors.PromptTooLongDetected | VTSApp/VTS/Services/StreamingTranscriptionService.swift:316-321 | a session error whose message has "prompt" before "string too long" is reported as "System prompt too long" |
| Errors.SessionErrorWithoutPromptKeepsMessage | VTSApp/VTS/Services/StreamingTranscriptionService.swift:316-321 | a session error that does not mention "prompt" keeps its message |
| Streaming.StreamingTranscriptionService.constructor | VTSApp/VTS/Services/StreamingTranscriptionService.swift:28-48 | the service starts idle: no text, no error, no provider, no session, nothing logged |
| Streaming.StreamingTranscriptionService.SetProvider | VTSApp/VTS/Services/StreamingTranscriptionService.swift:71-73 | the provider is the one given |
| Streaming.StreamingTranscriptionService.StartTranscription | VTSApp/VTS/Services/StreamingTranscriptionService.swift:74-96 | without a provider only `error` is set; otherwise both flags are raised, the error and live text are cleared, the configuration and provider type are kept, and a task carrying the captured audio and the configuration is launched |
| Streaming.StreamingTranscriptionService.RunTranscriptionTask | VTSApp/VTS/Services/StreamingTranscriptionService.swift:96-124 | the calls made are exactly `TaskLog` of the launched task (its configuration and its captured audio) followed by the classified error when a call throws or the queue rejects a chunk; a failure sets `error` and clears both flags; success leaves the flags to the partial-results processor |
| Streaming.StreamingTranscriptionService.ProcessStreamingTranscription | VTSApp/VTS/Services/StreamingTranscriptionService.swift:144-192 | the calls from requesting the session on are exactly `SessionLog`; the first failure is returned |
| Streaming.StreamingTranscriptionService.StartPartialResultsProcessor | VTSApp/VTS/Services/StreamingTranscriptionService.swift:226-229 | the processor is started on the given session |
| Streaming.StreamingTranscriptionService.ListenAndStream | VTSApp/VTS/Services/StreamingTranscriptionService.swift:155-189 | once the session exists the calls made are exactly `ListenLog`: confirmation handler, listening, then the streaming steps unless listening threw; the first failure is returned |
| Streaming.StreamingTranscriptionService.StreamAudio | VTSApp/VTS/Services/StreamingTranscriptionService.swift:171-189 | the calls made are exactly `StreamLog`: queue configured, processor started, the chunks of the given audio forwarded up to and including one the queue rejects, and the session finished unless the queue or the audio stream threw; the failure returned is the queue's rejection, else the stream's error |
| Streaming.StreamingTranscriptionService.ProcessAudioStream | VTSApp/VTS/Services/StreamingTranscriptionService.swift:207-224 | the chunks are forwarded once each and in order until the queue rejects one; the count is the number forwarded, which is the whole audio when nothing is rejected and stops at the rejected chunk otherwise, and the rejection is returned |
| Streaming.StreamingTranscriptionService.ProcessPartialResults | VTSApp/VTS/Services/StreamingTranscriptionService.swift:226-261 | all partial chunks are seen in order; the live text is the complete transcription; the texts injected are `Injections`; after an injection the flags are cleared and the session is dropped |
| Streaming.StreamingTranscriptionService.ProcessPartialChunk | VTSApp/VTS/Services/StreamingTranscriptionService.swift:229-255 | one chunk moves the state as `ChunkStep` says: the chunk is recorded, the live text becomes the complete transcription, and a final chunk with a non-empty final transcription injects it, clears both flags and drops the session |
| Streaming.ChunkStepProcesses | VTSApp/VTS/Services/StreamingTranscriptionService.swift:229-255 | one more chunk keeps the processed state in line with the whole list of chunks seen: its injections are the earlier ones followed by this chunk's |
| Streaming.ProcessAllSpec | VTSApp/VTS/Services/StreamingTranscriptionService.swift:229-255 | processing chunks one after another leaves every chunk seen in order, the live text as the complete transcription, exactly the texts of `Injections` injected with the last of them as last transcription, and the flags cleared and the session dropped after any injection |
| Streaming.StreamingTranscriptionService.HandleSuccessfulTranscription | VTSApp/VTS/Services/StreamingTranscriptionService.swift:263-283 | the text is the manager's final transcription, or the trimmed argument when that is empty; it becomes the live text, and a non-empty one becomes the last transcription and is injected once |
| Streaming.StreamingTranscriptionService.HandleError | VTSApp/VTS/Services/StreamingTranscriptionService.swift:285-292 | the error is recorded and shown, and both flags are cleared |
| Streaming.StreamingTranscriptionService.StopTranscription | VTSApp/VTS/Services/StreamingTranscriptionService.swift:127-140 | both flags end false and there is no session; an existing session is cleaned up |
| Streaming.StreamingTranscriptionService.CopyLastTranscriptionToClipboard | VTSApp/VTS/Services/StreamingTranscriptionService.swift:294-303 | returns false exactly when there is no last transcription |
| Streaming.SetupOrder | VTSApp/VTS/Services/StreamingTranscriptionService.swift:152-179 | partials are reset before the queue, the queue before validation, and validation before the session request; the confirmation handler is installed before listening starts; the queue is configured and the partials processor started before any chunk is forwarded or the session finished |
| Streaming.ValidationFailureStopsTask | VTSApp/VTS/Services/StreamingTranscriptionService.swift:99-119 | a configuration that fails validation means no session is requested and no chunk is forwarded, and the classified validation error is shown |
| Streaming.ChunksForwardedExactlyOnce | VTSApp/VTS/Services/StreamingTranscriptionService.swift:207-221 | once the setup succeeds the chunks forwarded are exactly the task's captured audio in order, or its prefix ending at chunk k when the queue rejects chunk k; if the setup fails none is forwarded |
| Streaming.RejectionEndsTask | VTSApp/VTS/Services/StreamingTranscriptionService.swift:214-221 | when the queue rejects a chunk the session is never asked to finish and the rejection, classified, is the one error shown |
| Streaming.NonFinalNeverInjects | VTSApp/VTS/Services/StreamingTranscriptionService.swift:233-252 | partial chunks none of which is final inject nothing |
| Streaming.FinalChunkInjectsOnce | VTSApp/VTS/Services/StreamingTranscriptionService.swift:233-249 | a final last chunk injects the final transcription exactly once when that is non-empty, and nothing when it is empty |
| Streaming.InjectionsNonEmpty | VTSApp/VTS/Services/StreamingTranscriptionService.swift:237-239 | every injected text is non-empty |
| Rest.CollectAudio | NarroApp/VTS/Services/RestTranscriptionService.swift:186-213 | the collected audio is the concatenation of the chunks, and the provider is handed every chunk once and in order |
| Rest.CollectedLength | NarroApp/VTS/Services/RestTranscriptionService.swift:191-201 | the collected audio holds exactly as many bytes as the chunks |
| Rest.CreateStreamFromData | NarroApp/VTS/Services/RestTranscriptionService.swift:320-325 | the replay stream yields one chunk carrying the stored data |
| Rest.ReplayRoundTrip | NarroApp/VTS/Services/RestTranscriptionService.swift:320-325 | replaying collected audio carries the same bytes as the original stream |
| Rest.ReplaceTarget | NarroApp/VTS/Services/RestTranscriptionService.swift:172 | nothing is replaced after nothing was injected; otherwise the previously injected text is |
| Rest.MakeRetryContext | NarroApp/VTS/Services/RestTranscriptionService.swift:222-233 | a retry context exists exactly when audio, configuration and provider type were all kept, and it holds them unchanged |
| Rest.InjectionsAreTrimmed | NarroApp/VTS/Services/RestTranscriptionService.swift:124-128 | every injected text is non-empty and already trimmed |
| Rest.SuccessDiscardsRetryData | NarroApp/VTS/Services/RestTranscriptionService.swift:119-136 | after success the live text is the trimmed result, the error is untouched, the retry configuration is discarded, and a non-empty result is the last and last injected transcription |
| Rest.FailureKeepsState | NarroApp/VTS/Services/RestTranscriptionService.swift:138-144 | after a failure only the error changes, to the classified failure |
| Rest.InitialAttemptNeverReplaces | NarroApp/VTS/Services/RestTranscriptionService.swift:93 | a first attempt never asks the injector to replace text |
| Rest.ValidationFailureSkipsProvider | NarroApp/VTS/Services/RestTranscriptionService.swift:107-108 | a configuration that fails validation is never sent to the provider, and the validation error is reported |
| Rest.RestTranscriptionService.constructor | NarroApp/VTS/Services/RestTranscriptionService.swift:29-43 | the service starts idle, with nothing kept for a retry |
| Rest.RestTranscriptionService.SetProvider | NarroApp/VTS/Services/RestTranscriptionService.swift:75-77 | the provider is the one given |
| Rest.RestTranscriptionService.StartTranscription | NarroApp/VTS/Services/RestTranscriptionService.swift:79-101 | without a provider only `error` is set; otherwise the service is transcribing with no error, no live text and nothing injected, keeps the configuration and provider type, and launches a first attempt |
| Rest.RestTranscriptionService.RunPendingTask | NarroApp/VTS/Services/RestTranscriptionService.swift:101-145 | the calls made are exactly `TaskLog`, the new state is `AfterTask`, and the service is no longer transcribing |
| Rest.RestTranscriptionService.RunInitialAttempt | NarroApp/VTS/Services/RestTranscriptionService.swift:101-145 | a first attempt validates, collects and transcribes, and ends as `Outcome` says |
| Rest.RestTranscriptionService.RunRetryAttempt | NarroApp/VTS/Services/RestTranscriptionService.swift:285-316 | a retry validates and transcribes the replayed audio, and ends as `Outcome` says |
| Rest.RestTranscriptionService.FinishAttempt | NarroApp/VTS/Services/RestTranscriptionService.swift:118-143 | success handles the text and discards the retry data; failure reports the classified error |
| Rest.RestTranscriptionService.StopTranscription | NarroApp/VTS/Services/RestTranscriptionService.swift:148-152 | the pending task is dropped and the service is not transcribing |
| Rest.RestTranscriptionService.HandleSuccessfulTranscription | NarroApp/VTS/Services/RestTranscriptionService.swift:161-182 | the text is shown; a non-empty text becomes the last transcription and is injected, replacing the previous injection if any |
| Rest.RestTranscriptionService.HandleErrorWithNotification | NarroApp/VTS/Services/RestTranscriptionService.swift:217-239 | the error is recorded, the service stops transcribing, and the error is reported with the retry context built from what was kept |
| Rest.RestTranscriptionService.HandleRetryRequest | NarroApp/VTS/Services/RestTranscriptionService.swift:243-265 | an expired context, a transcription in progress or a different provider changes nothing; otherwise a retry on the replayed audio is started |
| Rest.RestTranscriptionService.StartTranscriptionFromRetry | NarroApp/VTS/Services/RestTranscriptionService.swift:267-291 | a missing or different provider changes nothing; otherwise the service is transcribing with no error and no live text, keeps the configuration, and launches a retry, keeping the last injected text |
| Rest.RestTranscriptionService.ClearRetryContext | NarroApp/VTS/Services/RestTranscriptionService.swift:327-331 | audio, configuration and provider type are all discarded |
| Rest.RestTranscriptionService.CopyLastTranscriptionToClipboard | NarroApp/VTS/Services/RestTranscriptionService.swift:333-342 | returns false exactly when there is no last transcription |
| Recording.ModeFromRaw | VTSApp/VTSApp.swift:7-9 | a mode parsed from a name has that name as its raw value |
| Recording.ModeRawValueRoundTrip | VTSApp/VTSApp.swift:7-9 | every mode is recovered from its raw value |
| Hotkeys.KeyToDisplayString | NarroApp/SimpleHotkeyManager.swift:114-266 | every label is non-empty and starts with no modifier symbol; keys not listed show as "(unknown)" |
| Hotkeys.KeyLabelShapes | NarroApp/SimpleHotkeyManager.swift:114-266 | a letter shows as its own capital, a digit as its own digit, and F1 to F12 as "F" followed by the decimal digits of their number, without a leading zero |
| Hotkeys.KeyLabelRoundTrip | NarroApp/SimpleHotkeyManager.swift:114-261 | every listed key is recovered from its label |
| Hotkeys.UnknownLabelNamesNoKey | NarroApp/SimpleHotkeyManager.swift:263-265 | "(unknown)" is the label of no listed key |
| Hotkeys.KeyLabelsDistinct | NarroApp/SimpleHotkeyManager.swift:114-261 | listed keys have distinct labels, none of them "(unknown)" |
| Hotkeys.ModifierSymbolsFacts | NarroApp/SimpleHotkeyManager.swift:92-103 | the symbols are those of the shown modifiers, in the order control, option, shift, command, each at most once |
| Hotkeys.ModifierSymbolsRanked | NarroApp/SimpleHotkeyManager.swift:92-103 | the symbols are modifier symbols in strictly increasing display order |
| Hotkeys.ModifierSymbolsShowFlags | NarroApp/SimpleHotkeyManager.swift:92-103 | a modifier's symbol appears exactly when its flag is set |
| Hotkeys.ModifierSymbolsDetermineFlags | NarroApp/SimpleHotkeyManager.swift:92-103 | equal symbol strings mean the same shown modifiers |
| Hotkeys.DisplayDeterminesShortcut | NarroApp/SimpleHotkeyManager.swift:84-112 | two shortcuts with listed keys and equal display strings have the same key and the same shown modifiers |
| Hotkeys.CopyPlaceholderIsNotFormatted | NarroApp/SimpleHotkeyManager.swift:20 | no shortcut is displayed as the copy placeholder "⌥⌘⇧C", which puts command before shift |
| Hotkeys.CommandNeverBeforeShift | NarroApp/SimpleHotkeyManager.swift:98-103 | the modifier symbols are never option, command, shift |
| Hotkeys.HotkeyDisplayString | NarroApp/SimpleHotkeyManager.swift:84-112 | the string built step by step is the fallback without a shortcut, else the modifier symbols followed by the key's label |
| Hotkeys.BoundAfterAppend | NarroApp/SimpleHotkeyManager.swift:276-310 | binding one list after another leaves what the second list binds on top of the first |
| Hotkeys.ClearAllClears | NarroApp/SimpleHotkeyManager.swift:278-280 | clearing leaves every slot empty |
| Hotkeys.RegisterTable | NarroApp/SimpleHotkeyManager.swift:276-310 | after registering, in toggle mode key-down toggles and key-up does nothing; in hold mode key-down starts and key-up stops; copy key-down copies exactly when a copy shortcut is set |
| Hotkeys.SimpleHotkeyManager.constructor | NarroApp/SimpleHotkeyManager.swift:29-36 | the manager starts disabled, with both strings computed from the stored shortcuts |
| Hotkeys.SimpleHotkeyManager.UpdateCurrentHotkeyString | NarroApp/SimpleHotkeyManager.swift:52-57 | the recording string is recomputed and written only when it changed |
| Hotkeys.SimpleHotkeyManager.UpdateCurrentCopyHotkeyString | NarroApp/SimpleHotkeyManager.swift:60-65 | the copy string is recomputed and written only when it changed |
| Hotkeys.SimpleHotkeyManager.Bind | NarroApp/SimpleHotkeyManager.swift:278-310 | one handler slot is set and the others are untouched |
| Hotkeys.SimpleHotkeyManager.RegisterHotkey | NarroApp/SimpleHotkeyManager.swift:269-314 | the handler table is the one `RegisterTable` describes, and the manager is enabled |
| Hotkeys.SimpleHotkeyManager.ClearHandlers | NarroApp/SimpleHotkeyManager.swift:278-280 | all three handlers are bound to nothing, in that order, and nothing else changes |
| Hotkeys.SimpleHotkeyManager.UnregisterHotkey | NarroApp/SimpleHotkeyManager.swift:316-329 | when disabled nothing changes; otherwise all three handlers are cleared and the manager is disabled |
| Keys.KeyIdentifier | VTSApp/VTSApp.swift:91 | a provider's keychain entry is its raw name in lower case |
| Keys.OpenAIKeyIdentifier | VTSApp/VTSApp.swift:91 | the OpenAI key lives under "openai" |
| Keys.SelectedProviderOf | VTSApp/VTSApp.swift:138-145 | the stored provider when it names one; OpenAI when none is stored or the stored name is not a provider |
| Keys.SelectedModelOf | VTSApp/VTSApp.swift:151-154 | the stored model, otherwise the selected provider's first REST model |
| Keys.DefaultSelection | VTSApp/VTSApp.swift:138-154 | with nothing stored the selection is OpenAI with whisper-1 |
| Keys.SelectionRoundTrip | VTSApp/VTSApp.swift:146-148 | a provider that was selected is read back |
| Keys.StoreThenGet | VTSApp/VTSApp.swift:90-115 | a stored key is found again under its entry, and a deleted one is gone |
| Keys.APIKeyManager.constructor | VTSApp/VTSApp.swift:77-85 | the manager starts on the given keychain and defaults |
| Keys.APIKeyManager.StoreAPIKey | VTSApp/VTSApp.swift:90-98 | the key replaces any earlier one under the provider's entry, and the update counter goes up |
| Keys.APIKeyManager.GetAPIKey | VTSApp/VTSApp.swift:101-104 | the key under the provider's entry, if there is one |
| Keys.APIKeyManager.HasAPIKey | VTSApp/VTSApp.swift:117-124 | a provider has a key exactly when its keychain entry exists |
| Keys.APIKeyManager.DeleteAPIKey | VTSApp/VTSApp.swift:107-115 | the provider's entry is removed, and the update counter goes up |
| Keys.APIKeyManager.GetCurrentAPIKey | VTSApp/VTSApp.swift:127-129 | there is a current key exactly when the selected provider has one |
| Keys.APIKeyManager.ConfiguredProviders | VTSApp/VTSApp.swift:132-134 | a provider is listed exactly when it has a key, in catalogue order |
| Keys.APIKeyManager.SetSelectedProvider | VTSApp/VTSApp.swift:146-148 | the provider's raw name is stored and read back as the selection |
| Keys.APIKeyManager.SetSelectedModel | VTSApp/VTSApp.swift:155-157 | the model is stored and read back as the selection |
| App.ClampSystemPrompt | VTSApp/VTSApp.swift:200-210 | the prompt is at most 1024 characters and a prefix of the input; a prompt within the limit is kept and a longer one is cut to exactly 1024 |
| App.ClampIdempotent | VTSApp/VTSApp.swift:204-206 | clamping twice is clamping once |
| App.UseStreaming | VTSApp/VTSApp.swift:496 | a recording streams exactly when real-time mode is on and the selected model is a real-time model |
| App.ActiveIsStreaming | VTSApp/VTSApp.swift:257-263 | the streaming service is reported active exactly when real-time mode is on |
| App.ActiveServiceIgnoresModel | VTSApp/VTSApp.swift:257-263 | a streaming recording is reported as streaming, but with a model outside the catalogue the streaming service is reported active while recordings go to the batch service |
| App.LastTranscription | VTSApp/VTSApp.swift:551 | the streaming service's last transcription when it has one, otherwise the batch service's; empty only when both are |
| App.RecordingConfig | VTSApp/VTSApp.swift:488-493 | the configuration has the key, the selected model, the system prompt unless it is empty, and English |
| App.StoredRecordingMode | VTSApp/VTSApp.swift:644-649 | the stored mode when it names one, toggle when none is stored or the stored name is unknown |
| App.StartRefusal | VTSApp/VTSApp.swift:461-522 | recording is refused exactly when the key is missing, permission is missing or the capture fails, checked in that order; the alerts are "API key required", "microphone access required", and "Recording Failed" carrying the capture failure's message |
| App.AppState.constructor | VTSApp/VTSApp.swift:281-292 | the settings are loaded (the prompt clamped), both services get the provider, nothing is recording or processing, and the app is initialised exactly when onboarding was completed |
| App.AppState.InitializeMainApp | VTSApp/VTSApp.swift:294-302 | the first call initialises and schedules the after-launch setup; later calls change nothing |
| App.AppState.InitializeAfterLaunch | VTSApp/VTSApp.swift:371-379 | the hotkeys are registered for the current recording mode, and copy key-down copies exactly when a copy shortcut is set |
| App.AppState.SetSystemPrompt | VTSApp/VTSApp.swift:202-210 | the stored prompt is the clamped input |
| App.AppState.SetUseRealtime | VTSApp/VTSApp.swift:211-215 | the setting is the value given |
| App.AppState.SetRecordingMode | VTSApp/VTSApp.swift:216-225 | once the app is initialised the hotkeys are registered again for the new mode, with the copy binding exactly when a copy shortcut is set; before that they are left alone |
| App.AppState.ToggleRecording | VTSApp/VTSApp.swift:453-459 | when recording, it stops without an alert and without touching either service; otherwise it does what `StartRecording` does: a refusal shows its alert and changes nothing else, and a start runs the chosen service on the captured audio |
| App.AppState.StartRecording | VTSApp/VTSApp.swift:461-523 | a missing key, missing permission or failed capture shows its alert and leaves the flag and both services unchanged; otherwise the chosen service is started on the captured audio with the recording configuration, the app is processing, and only then is `isRecording` set |
| App.AppState.BeginRecording | VTSApp/VTSApp.swift:478-515 | once the checks pass the capture runs, the service the settings choose is started on the captured audio with the recording configuration, the app is processing, and `isRecording` is set |
| App.AppState.StartService | VTSApp/VTSApp.swift:500-513 | the streaming service or the REST service, as chosen, is started on the same audio and configuration, the other is left as it was, and the app is processing |
| App.AppState.StopRecording | VTSApp/VTSApp.swift:525-531 | capture stops and `isRecording` is cleared without touching either service, so whether the app is processing is unchanged |
| App.AppState.ShowLastTranscription | VTSApp/VTSApp.swift:545-560 | the preferred last transcription is shown, or "No Text Available" when there is none |
| App.AppState.CopyLastTranscription | VTSApp/VTSApp.swift:562-575 | the text copied is the preferred last transcription; with none, "No Text Available" is shown |

## Left out

- Concurrency. Swift tasks, `@MainActor` hops, cancellation races and the
  detached background cleanup are flattened into a pending task that a
  separate method runs to its end. A task cancelled mid-way is modelled as
  never having run.
- The provider, the real-time session, the audio queue, the partial-results
  manager, the text injector and the notification manager. Their sources are
  not part of this model. Calls into them are logged. What they return or
  throw is an input, including the index of the chunk the audio queue
  rejects, if any.
- The real-time session's confirmation callback and the queue's buffering
  until confirmation. Only the order of the setup calls is modelled.
- The partial-results stream ending by throwing. The processor only logs
  that error, which is the same as a stream that ends there.
- Whether the batch provider returns when the captured audio stream throws.
  The model assumes that a stream error ends the attempt with that error.
- Timestamps, the `temperature` field (a float), analytics, logging, and
  retry-context expiry. Expiry is supplied as a boolean with the retry
  request.
- Text injection into other applications, the pasteboard and `NSAlert`.
  Copying reports only its boolean result. Alerts are logged. The Copy and
  OK buttons of the last-transcription dialog are not modelled.
- The batch service's `streamPartials` parameter, which nothing reads, and
  its private `handleError`, which nothing calls.
- Keychain and user-defaults errors. Without them, and with OpenAI as the
  only provider, the key found by the first guard of `startRecording` is
  always read back. So its "API Key Error" alert, and the "Recording Failed"
  alert of a throwing key read, cannot occur; `App.AppState.StartRecording`
  asserts that branch dead.
- Keys.APIKeyManager.StoreAPIKey: the update counter is bumped at once; the
  source bumps it later, on the main queue.
- Text.Lower: lower-cases ASCII letters only. Foundation's `lowercased()`
  is Unicode-aware. The only name it is applied to, "OpenAI", is ASCII.
- App.ClampSystemPrompt: counts Unicode scalars. Swift's `count` counts
  grapheme clusters, so prompts with combining characters are clamped at a
  different point.
- The `KeyboardShortcuts` library. Whether a new `onKeyDown` handler
  replaces or adds to the old one is not modelled. The three handler slots
  are a table, and each registration overwrites a slot.
- The hotkey manager's one-second refresh timer. The update methods are the
  operations it calls.
- The status bar, onboarding, launch at login, the settings window, the
  device manager, audio levels and the writes of settings back to the user
  defaults.
- The `STTError` type holds only the cases the services construct (network,
  audio processing, transcription and invalid model). A provider throwing
  another `STTError` case is not represented; the enum's source is not part
  of this model.
- `objectWillChange` forwarding. The `isProcessing` sink is modelled as the
  derived predicate `App.AppState.IsProcessing`.

Where the code and its intended behaviour differ, the model follows the code:

- A session error about a too-long prompt becomes a transcription error
  reading "System prompt too long". There is no separate error case.
- On the streaming path, a successful transcription never calls the
  session's cleanup. The background cleanup only drops the session.
- A final streaming chunk whose final transcription is empty leaves both
  flags raised.
- Streaming `startTranscription` does not clean up a previous session.
- On the batch path a retry context is never created. The attempt's audio
  is stored only after the provider has answered, and success clears it at
  once. So every reported error carries no retry context. This is the
  `currentAudioData.None?` conjunct of `Rest.RestTranscriptionService.Valid`.
- A batch retry does not reset the last injected text, so a retry's result
  replaces the earlier injection.
- F13 to F20 are displayed as "(unknown)".
- The initial copy-hotkey string "⌥⌘⇧C" is not a string the formatter can
  produce: `Hotkeys.CopyPlaceholderIsNotFormatted`.
- `activeTranscriptionService` ignores the selected model, unlike the choice
  made when recording starts: `App.ActiveServiceIgnoresModel`.
