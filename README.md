# SilverCare core, modelled in Dafny

SilverCare is an elder-care web app. The senior's phone offers chat, reminders, alarms, a live video call with the assistant, a fall alarm, a proof-of-medication recorder and a weather/news reader. A guardian dashboard mirrors what the senior is doing. This project models the deterministic logic inside those screens:

- the gapless playback scheduler of the live call, with its barge-in flush, status machine and cleanup (`LiveCall`);
- translation lookup with `{name}` placeholder substitution and the persisted language (`LanguageContext`);
- reminder and alarm list updates, the once-a-second alarm trigger and the route switch (`App`);
- the medication-capture workflow: a four-state machine, a five-second countdown, a finisher that runs at most once, and a log of ten entries at most (`MedicationCapture`);
- the emergency countdown and the phone-number priority (`EmergencyAlert`);
- chat turns over an append-only log (`Chat`);
- the guardian's derivations, the heartbeat rule and the read-only mirror (`GuardianDashboard`, `SeniorViewMirror`);
- camera acquisition with fallback, and device cycling (`RoleDetection`);
- the weather/news load decision (`WeatherNewsView`);
- API-key selection, masking and the mapping of service results (`GeminiService`).

Each screen is one module. Values the source rebuilds (lists, records, sync data) are datatypes, and operations on them are functions with lemmas. Each component that updates state step by step is a class. Its fields are the component's state and refs, and its methods are the effects and handlers. An `await` splits a handler into two methods, and the awaited outcome is a parameter of the second. The one exception is the role-detection screen's `initCamera`: it is one method, whose awaited outcomes are all parameters (see Left out). Timers are explicit tick methods.

Shared modules:

- `Wrappers` holds `Option` and `Result`.
- `Types` holds the records and enums of `types.ts`.
- `Storage` is `localStorage` as a class over a `map<string, string>`.
- `Text` holds the JavaScript string semantics the code relies on. Examples:
  - `trim` and its whitespace set;
  - `substring` clamping its arguments;
  - `replace` with a string pattern, which replaces only the first occurrence;
  - `Number.prototype.toString` for the natural numbers that `Date.now()` returns.

JavaScript truthiness of an optional string (`undefined` and `""` are falsy) is `Types.Truthy`.

Three quirks are modelled as the code behaves, not as it was probably meant:

- `recorder.onstop` was installed by the render that started recording. It therefore saves the snapshot of that render, which is the one from before the new snapshot. A normal recording is saved with `evidenceImage` equal to `""` (`MedicationCapture.NormalRecording`).
- A message that carries both audio and `interrupted` schedules its chunk and then stops it within the same handler.
- `t` replaces only the first occurrence of each placeholder.

### Behaviour a reader would expect that the code does not have

The model follows the code in each case.

- Ending a call would be expected to release the camera and microphone. The live call's cleanup never stops the stream's tracks, and a stream granted after the cleanup ran is kept as well; see Findings.
- Nothing should be sent once a call has ended. The frame interval and the session outlive a call that ends while connecting; see Findings.
- A call has no closed state of its own. The component has only `connecting`, `active` and `error`, and a close is handed to its parent through `onEnd`.
- Camera acquisition on the role-detection screen asks for video only. It asks for the chosen camera, retries once with `{video: true}`, and keeps no flag for a missing microphone.
- A flush sets `nextStartTime` to 0 rather than to the current time. The next chunk then starts at the clock through the `max`, so both choices play it at the same moment (`LiveCall.ChunkAfterFlushStartsNow`).
- `types.ts` declares constants for a wake-word dialogue, silence segmentation and clause-by-clause speech, but no source file implements them.

## Model

| member | source | states |
|---|---|---|
| Text.TrimStart | services/geminiService.ts:17-18 | `trim`'s leading half: the result is a suffix of the input. The part removed is whitespace, and the result does not start with whitespace. |
| Text.TrimEnd | services/geminiService.ts:17-18 | `trim`'s trailing half: the result is a prefix of the input. The part removed is whitespace, and the result does not end with whitespace. |
| Text.TrimEndBlank | components/Chat.tsx:20 | Trimming the end leaves nothing exactly when the text is all whitespace. |
| Text.TrimEmptyIffBlank | components/Chat.tsx:20 | `s.trim()` is empty (falsy) exactly when every character of `s` is whitespace. |
| Text.Trim | services/geminiService.ts:18 | This is the reference rule; `Text.TrimShape` and `Text.TrimEmptyIffBlank` state what follows from it. |
| Text.TrimShape | services/geminiService.ts:18 | The trimmed key is no longer than the input, and it neither starts nor ends with whitespace. |
| Text.IndexOf | contexts/LanguageContext.tsx:720 | The position found is an occurrence with none before it; "not found" means there is no occurrence anywhere. |
| Text.ReplaceFirst | contexts/LanguageContext.tsx:720 | This is the reference rule; `Text.ReplaceFirstSpec` states what follows from it. |
| Text.ReplaceFirstSpec | contexts/LanguageContext.tsx:720 | `replace` with a string pattern rewrites only the first occurrence; with no occurrence the text is returned unchanged. |
| Text.Prefix | services/geminiService.ts:46-47 | `substring(0, 6)` gives the first six characters, or the whole string when it is shorter. |
| Text.SuffixFrom | services/geminiService.ts:46-47 | `substring(len - 4)` clamps: a negative start gives the whole string, and a start past the end gives "". |
| Text.NatToString | App.tsx:42 | `Date.now().toString()` is a non-empty string of decimal digits without a leading zero. |
| Text.NatToStringRoundTrip | App.tsx:42 | Parsing the decimal id back gives the number it was made from. |
| Text.NatToStringInjective | components/Chat.tsx:23-34 | Different clock values give different message and record ids. |
| Storage.LocalStorage.GetItem | services/geminiService.ts:43 | `getItem` returns the stored value when the key is present, and null otherwise. |
| Storage.LocalStorage.SetItem | services/geminiService.ts:18 | `setItem` stores the value under the key; every other key keeps its value. |
| GeminiService.SaveUserApiKey | services/geminiService.ts:16-22 | Succeeds exactly when the trimmed key is non-empty, and then stores the trimmed key. Otherwise storage is left unchanged. |
| GeminiService.SaveAcceptsExactlyNonBlank | services/geminiService.ts:17 | A key is accepted exactly when it is not all whitespace. |
| GeminiService.ActiveApiKey | services/geminiService.ts:27-29 | Uses the stored key if it is non-empty, else the environment key if that is non-empty. It is "" exactly when neither is set. |
| GeminiService.SavedKeyIsActive | services/geminiService.ts:16-29 | A saved key becomes the active key, whatever the environment holds. |
| GeminiService.Mask | services/geminiService.ts:46-47 | This is the reference rule; `GeminiService.MaskOfLongKey` and `GeminiService.MaskOfShortKey` state what follows from it. |
| GeminiService.MaskOfLongKey | services/geminiService.ts:46-47 | For a key of ten characters or more, the display is the first six characters, "...", then the last four (13 characters in all). |
| GeminiService.MaskOfShortKey | services/geminiService.ts:46-47 | For a key under four characters, both `substring` calls return the whole key. |
| GeminiService.GetApiKeyStatus | services/geminiService.ts:42-50 | This is the reference rule; `GeminiService.StatusAgreesWithActiveKey` states what follows from it. |
| GeminiService.StatusAgreesWithActiveKey | services/geminiService.ts:42-50 | Reports configured exactly when there is an active key, and then displays that key masked; with no key the display is "无". |
| GeminiService.GetAI | services/geminiService.ts:34-40 | Fails with NO_API_KEY exactly on the empty key. |
| GeminiService.GetGeminiResponse | services/geminiService.ts:52-66 | This is the reference rule; `GeminiService.GeminiResponseMapping` and `Chat.ReplyForServiceOutcome` state what follows from it. |
| GeminiService.GeminiResponseMapping | services/geminiService.ts:52-66 | Maps the outcomes: text if there is any, the ask-again message for empty text, "ERROR_NO_KEY" for a missing key or a NO_API_KEY error, and the reconnect message for any other error. The reply is never empty. |
| GeminiService.DescribeImage | services/geminiService.ts:68-104 | This is the reference rule; `GeminiService.ImageCallsMapping` states what follows from it. |
| GeminiService.ExplainEverything | services/geminiService.ts:68-85 | This is the reference rule; `GeminiService.ImageCallsMapping` states what follows from it. |
| GeminiService.IdentifyPerson | services/geminiService.ts:87-104 | This is the reference rule; `GeminiService.ImageCallsMapping` states what follows from it. |
| GeminiService.ImageCallsMapping | services/geminiService.ts:68-104 | `explainEverything` and `identifyPerson` each return the text, their own default for empty text, or their fixed fallback for a missing key or any error. They never return "". |
| GeminiService.PlayTTS | services/geminiService.ts:106-134 | This is the reference rule; `GeminiService.PlayTTSReportsPlayback` states what follows from it. |
| GeminiService.PlayTTSReportsPlayback | services/geminiService.ts:106-134 | Returns true exactly when there is a key, the response carried audio and playback started. Otherwise it returns false, including on an exception. |
| LanguageContext.ParseLanguage | contexts/LanguageContext.tsx:706 | A stored string is accepted only when it is the code of one of the three languages. |
| LanguageContext.LanguageCodeRoundTrip | contexts/LanguageContext.tsx:704-714 | Parsing a language's code gives that language back; any string other than `zh-CN`, `zh-TW` or `en` is rejected. |
| LanguageContext.AdoptSaved | contexts/LanguageContext.tsx:704-709 | A valid saved language replaces the current one; a missing or invalid value keeps it. This is the reference rule; `LanguageContext.PersistedLanguageRestores` states what follows from it. |
| LanguageContext.PersistedLanguageRestores | contexts/LanguageContext.tsx:704-714 | The value `setLanguage` stores is adopted on the next load. |
| LanguageContext.Lookup | contexts/LanguageContext.tsx:717 | Returns the current language's entry when present and non-empty; otherwise the key itself. This is the reference rule; `LanguageContext.TranslationWithoutParams` states what follows from it. |
| LanguageContext.Placeholder | contexts/LanguageContext.tsx:720 | `{k}` is the name wrapped in braces. |
| LanguageContext.Translation | contexts/LanguageContext.tsx:716-724 | This is the reference rule; `LanguageContext.TranslationWithoutParams` and `LanguageContext.LanguageProvider.T` state what follows from it. |
| LanguageContext.TranslationWithoutParams | contexts/LanguageContext.tsx:716-724 | Without params, or with an empty params object, `t` returns exactly the lookup result. |
| LanguageContext.NoBraceNoPlaceholder | contexts/LanguageContext.tsx:719-721 | A text without `{` contains no placeholder. |
| LanguageContext.AbsentPlaceholderUnchanged | contexts/LanguageContext.tsx:719-721 | A param whose placeholder does not occur leaves the text unchanged. |
| LanguageContext.SingleParamReplacesFirst | contexts/LanguageContext.tsx:719-721 | A param replaces its first `{k}` with `String(v)` and keeps the text before and after it. |
| LanguageContext.PlaceholderAtFirstBrace | contexts/LanguageContext.tsx:719-721 | When the placeholder sits at the text's first `{`, that is where the value goes. |
| LanguageContext.ApplyParams | contexts/LanguageContext.tsx:719-721 | This is the reference rule; `LanguageContext.ApplyParamsInOrder` and `LanguageContext.SingleParamReplacesFirst` state what follows from it. |
| LanguageContext.ApplyParamsInOrder | contexts/LanguageContext.tsx:719-721 | Params apply one entry at a time in entry order: applying a list equals applying its first part to the text, then the rest to the result. |
| LanguageContext.AlarmCountEnglish | contexts/LanguageContext.tsx:628 | The English `alarm_config_count` with `{count: 1}` reads "1 alarm(s) set". |
| LanguageContext.AlarmCountChinese | contexts/LanguageContext.tsx:182 | The zh-CN entry has no placeholder and is returned as written. |
| LanguageContext.LanguageProvider.constructor | contexts/LanguageContext.tsx:702 | The language starts as zh-CN. |
| LanguageContext.LanguageProvider.LoadSaved | contexts/LanguageContext.tsx:704-709 | The mount effect adopts the stored language exactly as `AdoptSaved` decides. |
| LanguageContext.LanguageProvider.SetLanguage | contexts/LanguageContext.tsx:711-714 | Afterwards the current language and the stored value are both `l`; no other stored key changes. |
| LanguageContext.LanguageProvider.T | contexts/LanguageContext.tsx:716-724 | The loop over param entries computes the lookup followed by the first-occurrence replacements, in entry order. |
| LanguageContext.RestoreAfterSet | contexts/LanguageContext.tsx:704-714 | A provider mounted over the storage that `setLanguage(l)` wrote starts in `l`. |
| LanguageContext.UseLanguage | contexts/LanguageContext.tsx:733-739 | Outside a provider, fails with the source's message; inside, returns that provider's context. |
| App.ToggleReminder | App.tsx:39 | Same length; each reminder with that id has `completed` flipped; every other reminder is unchanged. |
| App.ToggleReminderOnlyFlipsMatching | App.tsx:39 | Only `completed` changes, and only on matching reminders; id, time, title, kind and order stay. Toggling twice restores the list. |
| App.ToggleAlarm | App.tsx:40 | Same length; each alarm with that id has `enabled` flipped; every other alarm is unchanged. |
| App.ToggleAlarmTwiceIsIdentity | App.tsx:40 | `enabled` changes exactly on matching alarms, every other field stays, and toggling twice is the identity. |
| App.DeleteAlarm | App.tsx:41 | The result holds exactly the alarms with another id, and it is no longer than the input. |
| App.DeleteAlarmKeepsOrder | App.tsx:41 | Deletion works element by element and distributes over concatenation, so the kept alarms stay in their original order. |
| App.DeleteAbsentIsIdentity | App.tsx:41 | Deleting an id no alarm carries leaves the list as it is. |
| App.AddAlarm | App.tsx:42 | Appends one enabled alarm with the given id, time and label; the old alarms stay in front, unchanged. |
| App.FirstFiring | App.tsx:33 | `Array.find`: the index found is an enabled alarm set for this minute, with no such alarm before it. "None" means no alarm fires. |
| App.TriggeredIsEnabledAndDue | App.tsx:32-33 | The triggered alarm is in the list, enabled and due now; nothing triggers exactly when no enabled alarm is due. |
| App.AlarmTick | App.tsx:29-37 | This is the reference rule; `App.AlarmTickReplacesOnlyOnNewId` and `App.DismissedAlarmRefiresSameMinute` state what follows from it. |
| App.AlarmTickReplacesOnlyOnNewId | App.tsx:34 | The active alarm changes only to the triggered one, and only when none is active or the active one has another id. |
| App.Dismiss | App.tsx:61 | This is the reference rule; `App.DismissedAlarmRefiresSameMinute` states what follows from it. |
| App.DismissedAlarmRefiresSameMinute | App.tsx:29-37 | As written: after the overlay's dismiss (App.tsx:61) clears the alarm, the next tick in the same minute raises the same alarm again. |
| App.AlarmTickOnce | App.tsx:29-37 | This is the reference rule; `App.DismissedAlarmStaysQuiet` states what follows from it. |
| App.DismissedAlarmStaysQuiet | App.tsx:33-34 | Corrected tick: after a dismiss, an alarm that fired stays quiet for the rest of its minute. In any minute where it has not fired yet, the tick agrees with the original. |
| App.RenderView | App.tsx:44-56 | This is the reference rule; `App.UnhandledRoutesRenderHome` states what follows from it. |
| App.UnhandledRoutesRenderHome | App.tsx:44-56 | The home screen is rendered exactly for HOME and for the routes without a case of their own. |
| LiveCall.Max | components/LiveCall.tsx:60 | `Math.max`: at least both arguments, and equal to one of them. |
| LiveCall.Initial | components/LiveCall.tsx:17-18 | The initial refs (time 0, no sources) satisfy the scheduler invariant. |
| LiveCall.Enqueue | components/LiveCall.tsx:60-67 | This is the reference rule; `LiveCall.EnqueueSchedulesAfterPrevious` and `LiveCall.EnqueuePreservesValid` state what follows from it. |
| LiveCall.EnqueueSchedulesAfterPrevious | components/LiveCall.tsx:60-67 | A chunk starts no earlier than the clock and no earlier than the previous chunk's end. `nextStartTime` becomes its end, and its source is added to the active set. |
| LiveCall.EnqueuePreservesValid | components/LiveCall.tsx:60-66 | Scheduling keeps the invariant: back to back since the last flush, with the next start at the last end. |
| LiveCall.Ended | components/LiveCall.tsx:68 | This is the reference rule; `LiveCall.EndedRemovesOnlyThatSource` states what follows from it. |
| LiveCall.EndedRemovesOnlyThatSource | components/LiveCall.tsx:68 | A natural end removes exactly that source from the active set; the timeline is unchanged. |
| LiveCall.Interrupt | components/LiveCall.tsx:70-74 | This is the reference rule; `LiveCall.InterruptFlushesIdempotently` states what follows from it. |
| LiveCall.InterruptFlushesIdempotently | components/LiveCall.tsx:70-74 | An interrupt stops every active source, empties the set and sets the time to 0. Applying it twice equals applying it once. |
| LiveCall.ChunkAfterFlushStartsNow | components/LiveCall.tsx:60-74 | After a flush, the next chunk starts at the current time, not after the stopped chunks. |
| LiveCall.MessageWithoutAudioLeavesScheduler | components/LiveCall.tsx:56-75 | A message with no audio, or one arriving without an output context, changes the scheduler only through its interrupt flag. |
| LiveCall.AudioThenInterruptInOneMessage | components/LiveCall.tsx:58-74 | A message with both audio and `interrupted` ends with an empty active set, and the next chunk starts at the clock. |
| LiveCall.HandleMessage | components/LiveCall.tsx:56-75 | This is the reference rule; `LiveCall.HandleMessagePreservesValid` and `LiveCall.AudioThenInterruptInOneMessage` state what follows from it. |
| LiveCall.HandleMessagePreservesValid | components/LiveCall.tsx:56-75 | Every message keeps the scheduler invariant. |
| LiveCall.ChainOrdered | components/LiveCall.tsx:65-66 | If each chunk ends before the next one starts, then every earlier chunk ends before any later one starts. |
| LiveCall.ScheduledChunksDoNotOverlap | components/LiveCall.tsx:60-66 | Since the last flush, no two scheduled chunks overlap, and they play in scheduling order. |
| LiveCall.LiveCallSession.constructor | components/LiveCall.tsx:11-18 | Starts in `connecting` with empty refs; nothing is acquired. |
| LiveCall.LiveCallSession.Mount | components/LiveCall.tsx:20-26 | With no API key, the status becomes `error` and no media is requested. Otherwise the media request starts. |
| LiveCall.LiveCallSession.MediaResolvedAsWritten | components/LiveCall.tsx:28-104 | As written: on success, the tracks go live, the output context exists and `connect` is awaited, even after the cleanup ran. A rejection goes through the catch to `error`. |
| LiveCall.LiveCallSession.MediaResolved | components/LiveCall.tsx:28-104 | Corrected: the same as written while mounted; a stream granted after the cleanup is stopped at once and the call goes no further. |
| LiveCall.LiveCallSession.SessionResolvedAsWritten | components/LiveCall.tsx:86-99 | As written: once connected, the session is stored and the frame interval starts, even after the cleanup ran. A rejection sets `error`. |
| LiveCall.LiveCallSession.SessionResolved | components/LiveCall.tsx:86-99 | Corrected: the same as written, except that a session arriving after the cleanup is closed and starts no interval. |
| LiveCall.LiveCallSession.OnOpen | components/LiveCall.tsx:40-41 | `onopen` sets `active` and changes nothing else. |
| LiveCall.LiveCallSession.OnError | components/LiveCall.tsx:77 | `onerror` sets `error` and changes nothing else. |
| LiveCall.LiveCallSession.OnMessage | components/LiveCall.tsx:56-75 | `onmessage` keeps the invariant and leaves the connection as it was. Its result is the scheduler transition (chunk first, then interrupt). |
| LiveCall.LiveCallSession.ScheduleChunk | components/LiveCall.tsx:58-68 | Takes the max, starts the chunk, advances `nextStartTime` and adds the source, as `Enqueue` does. |
| LiveCall.LiveCallSession.StopAll | components/LiveCall.tsx:70-74 | Stops all sources, clears the set and resets the time, as `Interrupt` does. |
| LiveCall.LiveCallSession.OnEnded | components/LiveCall.tsx:68 | `onended` deletes exactly that source. |
| LiveCall.LiveCallSession.FrameTick | components/LiveCall.tsx:89-98 | A frame is sent exactly when the elements are attached and a session is stored. |
| LiveCall.LiveCallSession.CleanupAsWritten | components/LiveCall.tsx:109-114 | As written: clears the interval, closes the session and the output context, and stops every active source. The camera and microphone tracks stay live. |
| LiveCall.LiveCallSession.Cleanup | components/LiveCall.tsx:109-114 | Corrected: the same as written, and the tracks are stopped as well. |
| LiveCall.CallWithoutKey | components/LiveCall.tsx:22-26 | With no key, the call is in `error` and never requests media. |
| LiveCall.BargeInScenario | components/LiveCall.tsx:56-75 | Over a whole call, two chunks play back to back and a barge-in stops both. The next chunk starts at the clock. |
| LiveCall.CleanupLeavesTracksLive | components/LiveCall.tsx:109-114 | As written: after a normal call ends, the tracks are still live. |
| LiveCall.CleanupReleasesTracks | components/LiveCall.tsx:109-114 | Corrected: after the call ends, the tracks are stopped, no interval runs and the session is closed. |
| LiveCall.EarlyEndLeaksInterval | components/LiveCall.tsx:86-114 | As written: a call that ends while connecting is left with a running frame interval and an open session. |
| LiveCall.EarlyEndReleasesSession | components/LiveCall.tsx:86-114 | Corrected: after an early end, no interval runs, no session stays open and the tracks are stopped. |
| LiveCall.MediaAfterEndLeaksTracks | components/LiveCall.tsx:28-31 | As written: a call that ends before `getUserMedia` resolves gets its stream afterwards, and the tracks stay live even with the corrected cleanup. |
| LiveCall.MediaAfterEndReleasesTracks | components/LiveCall.tsx:28-31 | Corrected: a stream that arrives after the end is stopped, and no session is opened. |
| LiveCall.EndReleasesTracksInEitherOrder | components/LiveCall.tsx:28-114 | Corrected: whether the cleanup runs before or after the media grant, the call ends with the tracks stopped, no interval and no open session. |
| MedicationCapture.Rank | components/MedicationCapture.tsx:20 | Numbers the statuses in their order: preview, recording, processing, success. |
| MedicationCapture.FirstSupported | components/MedicationCapture.tsx:102 | `find`: the result is a supported entry with no supported entry before it. There is no result exactly when no entry is supported. |
| MedicationCapture.MimeTypePreference | components/MedicationCapture.tsx:97-104 | The format is VP8 WebM if supported, else WebM, else MP4, else the recorder's default. |
| MedicationCapture.PrependTruncate | components/MedicationCapture.tsx:185 | The new log holds one more entry than the old one, capped at ten. |
| MedicationCapture.PrependTruncateKeepsNewest | components/MedicationCapture.tsx:184-186 | The new record comes first and older ones follow in stored order. An entry is dropped only from the end, and only past ten. |
| MedicationCapture.TwoSavesNewestFirst | components/MedicationCapture.tsx:184-186 | After two saves, the later record is first, then the earlier, then the oldest entries. |
| MedicationCapture.MakeRecord | components/MedicationCapture.tsx:172-181 | `evidenceImage` is the snapshot, or "" when there is none, and `isVideoUploaded` is set exactly when video data is present. The record is verified, and its id is the clock's decimal string. |
| MedicationCapture.Capture.constructor | components/MedicationCapture.tsx:20-26 | Preview with a countdown of 5, no snapshot, stream, recorder or chunks; the finisher has not run. |
| MedicationCapture.Capture.CameraResolved | components/MedicationCapture.tsx:29-46 | A granted camera stores the live stream; a refusal leaves everything as it was. |
| MedicationCapture.Capture.HandleStart | components/MedicationCapture.tsx:74-122 | Enters recording with the countdown at 5, stores the snapshot and empties the chunks. The recorder uses the first supported format. Its `onstop` sees the snapshot from before this start. |
| MedicationCapture.Capture.OnDataAvailable | components/MedicationCapture.tsx:106-108 | Keeps only chunks of non-zero size, in arrival order; nothing else changes. |
| MedicationCapture.Capture.CountdownStep | components/MedicationCapture.tsx:61-72 | While recording, a positive countdown goes down by one. At 0, `stopRecording` runs. The status never moves backwards. |
| MedicationCapture.Capture.StopRecording | components/MedicationCapture.tsx:124-140 | Enters processing and arms the two-second safety net. It then either asks an active recorder to stop, or runs the finisher when there is no recorder or `stop` throws. |
| MedicationCapture.Capture.OnStop | components/MedicationCapture.tsx:110-113 | `onstop` runs the finisher with the snapshot its closure captured. |
| MedicationCapture.Capture.SafetyTimer | components/MedicationCapture.tsx:137-139 | The safety net runs the finisher with the current snapshot; after an earlier finish it does nothing. |
| MedicationCapture.Capture.FinishProcess | components/MedicationCapture.tsx:143-167 | The body runs at most once, whichever path calls it. With chunks and a blob, it starts the reader. Otherwise it saves at once without video. |
| MedicationCapture.Capture.OnReadEnd | components/MedicationCapture.tsx:155-158 | A successful read saves the record with the video, prepended to the log. A failed read leaves `result` null, so the handler throws before saving: the status stays processing, no record is made and the log is unchanged. |
| MedicationCapture.Capture.SaveAndExit | components/MedicationCapture.tsx:169-186 | Success. The record is built as `MakeRecord` says, and the log is that record prepended and truncated to ten. It is saved exactly once. |
| MedicationCapture.Capture.Unmount | components/MedicationCapture.tsx:52-57 | The cleanup stops the stream's tracks. |
| MedicationCapture.NormalRecording | components/MedicationCapture.tsx:74-186 | In a full recording, the finisher runs once and the record is saved once with its video. The stored log is that record alone. Its image is "", because `onstop` saw the state from before the snapshot. |
| MedicationCapture.FailedReadStaysProcessing | components/MedicationCapture.tsx:137-158 | When the reader fails, nothing is ever saved: the later safety net finds the finisher's flag set and does nothing, so the screen stays in processing. |
| MedicationCapture.NoRecorderPath | components/MedicationCapture.tsx:124-166 | With no recorder, stopping saves the current snapshot without video, exactly once. |
| EmergencyAlert.ChoosePhone | components/EmergencyAlert.tsx:14-25 | The saved emergency number if non-empty, else the saved family number if non-empty, else "666". This is the reference rule; `EmergencyAlert.ChosenPhoneIsNeverEmpty` states what follows from it. |
| EmergencyAlert.ChosenPhoneIsNeverEmpty | components/EmergencyAlert.tsx:14-25 | The shown number is never empty, and it is one of the stored numbers or the default. |
| EmergencyAlert.CountdownNext | components/EmergencyAlert.tsx:49-56 | A count above one goes down by one. Any other count becomes 0 and starts the call. This is the reference rule; `EmergencyAlert.CallStartsOnThirdTick` states what follows from it. |
| EmergencyAlert.CallStartsOnThirdTick | components/EmergencyAlert.tsx:10-56 | From 3, the first two ticks only count down, and the third starts the call. |
| EmergencyAlert.Alert.constructor | components/EmergencyAlert.tsx:10-14 | Starts at 3 seconds, not calling, showing the default number. |
| EmergencyAlert.Alert.Mount | components/EmergencyAlert.tsx:16-57 | Shows the number `ChoosePhone` picks and starts the interval. |
| EmergencyAlert.Alert.Tick | components/EmergencyAlert.tsx:48-57 | Applies `CountdownNext`; the tick that reaches 0 clears the interval and starts the call exactly once. |
| EmergencyAlert.Alert.StartEmergencyCall | components/EmergencyAlert.tsx:64-65 | Sets `isCalling`, and counts one started call. |
| EmergencyAlert.Alert.Unmount | components/EmergencyAlert.tsx:61 | The cleanup clears the interval. |
| EmergencyAlert.Alert.Render | components/EmergencyAlert.tsx:81-88 | The calling screen shows, with the number, exactly when calling; otherwise it is the countdown screen. |
| EmergencyAlert.FullCountdown | components/EmergencyAlert.tsx:16-88 | Three ticks after mounting, the calling screen shows the chosen number. The call started once, and no interval runs. |
| Chat.DisplayedReply | components/Chat.tsx:29-32 | The "ERROR_NO_KEY" sentinel is shown as the configure-key warning; any other result is shown as it is. This is the reference rule; `Chat.ReplyForServiceOutcome` states what follows from it. |
| Chat.ReplyForServiceOutcome | components/Chat.tsx:27-39 | With the service's mapping: without a key, the warning is shown and nothing is spoken. The reply shown is never empty and never the raw sentinel. |
| Chat.ChatScreen.constructor | components/Chat.tsx:7-9 | The log is the single assistant greeting with id "1". |
| Chat.ChatScreen.Type | components/Chat.tsx:10 | Only the input changes. |
| Chat.ChatScreen.Send | components/Chat.tsx:18-25 | A blank input, or a request in flight, changes nothing. Otherwise the untrimmed input is appended as a user message, the input is cleared and loading is set. |
| Chat.ChatScreen.Receive | components/Chat.tsx:27-39 | Appends exactly one assistant message, clears loading, and speaks the reply unless it was the sentinel. The log keeps alternating. |
| Chat.OneTurn | components/Chat.tsx:18-40 | A second send during a request is refused; a whole turn adds exactly the user's message and one reply. |
| SeniorViewMirror.EffectiveRoute | components/SeniorViewMirror.tsx:22 | A missing `current_route` is HOME. This is the reference rule; `SeniorViewMirror.MirrorClassification` states what follows from it. |
| SeniorViewMirror.Mirror | components/SeniorViewMirror.tsx:12-97 | This is the reference rule; `SeniorViewMirror.MirrorClassification` states what follows from it. |
| SeniorViewMirror.MirrorClassification | components/SeniorViewMirror.tsx:12-97 | Null data gives only the placeholder. With data, the badge follows the strict 15-second heartbeat rule, and exactly one panel renders: home, reminders or the other module. |
| SeniorViewMirror.ReminderMarks | components/SeniorViewMirror.tsx:77-89 | Reminder #1 and #2 show as done exactly when "1" or "2" is among the completed ids; "10" marks neither. |
| SeniorViewMirror.ModuleTextEnglish | components/SeniorViewMirror.tsx:95 | In English, the other-module panel reads "Senior is using: " followed by the route's value. |
| GuardianDashboard.IsOnline | components/GuardianDashboard.tsx:27 | This is the reference rule; `GuardianDashboard.OnlineAgreesWithMirror` states what follows from it. |
| GuardianDashboard.OnlineAgreesWithMirror | components/GuardianDashboard.tsx:27 | Online needs data and a heartbeat less than 15000 ms old (exactly 15000 is offline), and it agrees with the mirror's badge. |
| GuardianDashboard.ShowsFallOverlay | components/GuardianDashboard.tsx:38 | This is the reference rule; `GuardianDashboard.FallOverlayGating` states what follows from it. |
| GuardianDashboard.FallOverlayGating | components/GuardianDashboard.tsx:38-57 | The fall overlay shows exactly when `is_falling` is true, whatever the heartbeat, so also for an offline elder. |
| GuardianDashboard.VisibleLogs | components/GuardianDashboard.tsx:152 | `slice(0, 10)`: the first ten logs, or all of them when there are fewer, in stored order. |
| GuardianDashboard.VisibleLogsArePrefix | components/GuardianDashboard.tsx:152 | At most ten logs are shown, each in its stored position, and none is dropped while there are ten or fewer. |
| GuardianDashboard.RenderMedPanel | components/GuardianDashboard.tsx:109-112 | An empty record list shows the placeholder; otherwise the cards show every record. |
| GuardianDashboard.TapTargetOf | components/GuardianDashboard.tsx:115-118 | This is the reference rule; `GuardianDashboard.VideoOverImage` states what follows from it. |
| GuardianDashboard.VideoOverImage | components/GuardianDashboard.tsx:115-118 | A tap selects the video if present, else the image if present, else nothing. |
| GuardianDashboard.TapOnCapturedRecord | components/GuardianDashboard.tsx:115-118 | A record saved with video opens that video. One saved with neither video nor snapshot opens nothing. |
| GuardianDashboard.Dashboard.constructor | components/GuardianDashboard.tsx:15-17 | No data, logs or records; offline; nothing selected. |
| GuardianDashboard.Dashboard.Refresh | components/GuardianDashboard.tsx:19-28 | Stores the three values read, and sets online by the heartbeat rule. The selections are kept. |
| GuardianDashboard.Dashboard.TapRecord | components/GuardianDashboard.tsx:115-118 | Sets the video or the image that `TapTargetOf` chooses; the other selection and all data stay. |
| GuardianDashboard.Dashboard.CloseImage | components/GuardianDashboard.tsx:187 | Clears the selected image only. |
| GuardianDashboard.Dashboard.CloseVideo | components/GuardianDashboard.tsx:203 | Clears the selected video only. |
| GuardianDashboard.Dashboard.Overlay | components/GuardianDashboard.tsx:186-209 | The video overlay shows whenever a video is selected. The image overlay shows only when an image and no video is selected. |
| GuardianDashboard.CloseVideoRevealsImage | components/GuardianDashboard.tsx:186-203 | Closing a video opened over a selected image brings the image preview back. |
| RoleDetection.VideoInputs | components/RoleDetection.tsx:27 | Exactly the devices of kind `videoinput`, no more of them than the enumeration listed. |
| RoleDetection.VideoInputsKeepsOrder | components/RoleDetection.tsx:27 | `filter` works element by element and distributes over concatenation, so the cameras keep their enumeration order and repetitions, and an index names the same camera in both lists. |
| RoleDetection.AllCamerasKept | components/RoleDetection.tsx:27 | A list of cameras only passes the filter unchanged. |
| RoleDetection.ConstraintFor | components/RoleDetection.tsx:35-40 | Asks for the exact deviceId at the index when a device with a non-empty id exists there; otherwise any camera. This is the reference rule; `RoleDetection.AcquisitionRules` states what follows from it. |
| RoleDetection.Acquire | components/RoleDetection.tsx:26-54 | This is the reference rule; `RoleDetection.AcquisitionRules` states what follows from it. |
| RoleDetection.AcquisitionRules | components/RoleDetection.tsx:26-54 | No stream is requested when enumeration fails or finds no camera. Otherwise the chosen camera is requested, and one `{video: true}` retry follows only if that request failed. The run fails on an enumeration failure or a failed retry. |
| RoleDetection.NextIndex | components/RoleDetection.tsx:65 | The next index stays below the device count. |
| RoleDetection.NextIndexStep | components/RoleDetection.tsx:65 | `(i + 1) % n` is `i + 1`, wrapping to 0 after the last camera. |
| RoleDetection.SwitchTimesWraps | components/RoleDetection.tsx:64-68 | After `k <= n` switches from `i`, the index is `i + k`, wrapped once past the end. |
| RoleDetection.SwitchingCycles | components/RoleDetection.tsx:64-68 | Switching stays in range, walks the cameras in order and returns to the start after `n` switches. |
| RoleDetection.RoleOf | components/RoleDetection.tsx:81-86 | ELDERLY exactly when the role is `elderly`, CHILD for anything else; never undetermined. |
| RoleDetection.Detector.constructor | components/RoleDetection.tsx:15-17 | No devices, index 0, no error, no stream, not scanning. |
| RoleDetection.Detector.InitCamera | components/RoleDetection.tsx:20-55 | The stream attached before the call is stopped whatever the outcome, and only that one. The requests are exactly those `Acquire` makes. A success attaches a new, live stream and keeps the error; no camera gives `camera_not_found` and a failure `camera_auth_error`, with the old stream still attached but stopped. The device list becomes the video inputs. For runs that do not overlap and that complete while the screen is shown, at most one granted stream is live. |
| RoleDetection.Detector.SwitchCamera | components/RoleDetection.tsx:64-68 | With more than one device, it moves to the next index, modulo the count, and then has exactly the effect of `initCamera` at that index: the old stream stopped, the requests, the new stream, the error and the device list. |
| RoleDetection.Detector.BeginScan | components/RoleDetection.tsx:70-80 | A scan starts exactly when the elements are ready and none is running. |
| RoleDetection.Detector.FinishScan | components/RoleDetection.tsx:80-88 | Reports the mapped role and clears `isScanning`. |
| RoleDetection.Detector.UnmountAsWritten | components/RoleDetection.tsx:59-61 | As written: by the time the cleanup runs, React has cleared the video element's ref, so the optional chain stops and no track is stopped. The stopped set and the liveness of the attached stream are unchanged. |
| RoleDetection.Detector.Unmount | components/RoleDetection.tsx:59-61 | Corrected: the cleanup reaches the stream through a reference of its own and stops it, so every granted stream is stopped. |
| RoleDetection.LeaveScreenLeavesCameraLive | components/RoleDetection.tsx:20-61 | As written: mount with a camera granted, then leave the screen. The camera stream stays live. |
| RoleDetection.LeaveScreenStopsCamera | components/RoleDetection.tsx:20-61 | Corrected: the same mount and leave stops the camera, and no granted stream is live. |
| RoleDetection.SwitchThenLeave | components/RoleDetection.tsx:20-68 | Corrected: mounting, switching to a second camera and leaving: two streams were granted, the first was stopped when the second was requested, and none is live at the end. |
| RoleDetection.ScanWhileScanning | components/RoleDetection.tsx:70-89 | A second scan during a running one is ignored, and the scan ends with the mapped role and `isScanning` false. |
| WeatherNewsView.GetStepText | components/WeatherNewsView.tsx:92-98 | Locating gives the locating text. Fetching gives `statusMsg` when it is non-empty, else the default text. Done gives "". Texts are per language. This is the reference rule; `WeatherNewsView.StepTextEmptyIffDone` states what follows from it. |
| WeatherNewsView.StepTextEmptyIffDone | components/WeatherNewsView.tsx:92-98 | The step text is empty exactly when loading is done. |
| WeatherNewsView.Decide | components/WeatherNewsView.tsx:24-43 | Order of checks: a cache hit first, then an exhausted quota, then locating. This is the reference rule; `WeatherNewsView.CacheBeforeQuota` states what follows from it. |
| WeatherNewsView.CacheBeforeQuota | components/WeatherNewsView.tsx:24-40 | A cache hit wins whatever the quota. Locating happens exactly with no cache and quota left. |
| WeatherNewsView.FetchCoordinates | components/WeatherNewsView.tsx:58-64 | A failed position falls back to latitude and longitude 0. This is the reference rule; `WeatherNewsView.LeaveDuringFetch` states what follows from it. |
| WeatherNewsView.WeatherView.constructor | components/WeatherNewsView.tsx:13-18 | The initial state: locating, with no content, error or status. |
| WeatherNewsView.WeatherView.Begin | components/WeatherNewsView.tsx:20-56 | A cache hit shows and speaks the cached text, done and from cache. An exhausted quota sets the language's quota message and done. Otherwise it starts locating with the error cleared. |
| WeatherNewsView.WeatherView.PositionResolved | components/WeatherNewsView.tsx:58-69 | After unmount, nothing changes. Otherwise it moves to fetching and requests the position's coordinates, or 0 and 0. |
| WeatherNewsView.WeatherView.FetchResolved | components/WeatherNewsView.tsx:69-85 | After unmount, nothing changes. On success: the content, `statusMsg` or "", done, not from cache, and speech when the text is non-empty. A failure gives the language's connection error and done. |
| WeatherNewsView.WeatherView.Unmount | components/WeatherNewsView.tsx:89 | Clears the mounted flag; nothing shown changes. |
| WeatherNewsView.WeatherView.StepText | components/WeatherNewsView.tsx:92-98 | The shown step text is empty exactly when done. |
| WeatherNewsView.LeaveDuringFetch | components/WeatherNewsView.tsx:66-71 | Leaving while the fetch is in flight: the fetch for 0 and 0 was sent, but the screen stays in fetching with no content and says nothing. |

## Left out

- The audio codec (`utils/audioUtils`: `encode`, `decode`, `decodeAudioData`) is not part of this model. A decoded chunk is only its duration.
- The float to Int16 PCM conversion of the microphone data (components/LiveCall.tsx:48-49) is floating point and is left out, with the rest of the capture processor.
- The capture processor's mute check reads the `isMuted` of the first render, so the mute toggle never reaches it. Muting is not modelled.
- SDK, network and media calls are inputs: `ai.live.connect`, `generateContent`, `getUserMedia`, `enumerateDevices`, `MediaRecorder`, `FileReader`, canvas/JPEG capture and geolocation. Each outcome is a parameter of the method that continues after it.
- AudioContext time and chunk durations are non-negative reals, not IEEE doubles.
- Each `onmessage` is handled atomically. The runtime may interleave the `await` between the max and `start`; that interleaving is not modelled.
- RoleDetection.Detector.InitCamera is modelled as one step that nothing can interleave with, although `initCamera` awaits three times (components/RoleDetection.tsx:26, 44 and 47). Two source behaviours are therefore not captured. (a) If the screen is left while `getUserMedia` is pending, the granted stream is neither attached (line 50 finds no element) nor ever stopped. (b) If the camera is switched twice before the first grant, both runs stop the same old stream and both attach a new one, so the first new stream is overwritten without being stopped. The model's at-most-one-live-stream invariant holds only for runs that do not overlap and that complete while the screen is shown.
- Interleavings of the other async steps are not modelled. Each await is a separate method, called in one order by the scenario methods.
- Intervals and timeouts are explicit tick methods: the alarm interval, the dashboard's 5-second refresh, the emergency countdown, the capture countdown and the safety net. Wall-clock timing is not modelled.
- `onclose` only calls the parent's `onEnd`, which changes the route. It is left to the parent.
- `toLocaleTimeString` (the alarm's HH:MM string and the record's time text) is an input string.
- `Date.now()` is read several times in `saveAndExit`; the model reads it once.
- `JSON.parse`/`JSON.stringify` of the stored med log is not modelled. The log is a sequence of records.
- The `addSafetyLog` and `playTTS` calls of the capture screen are not modelled, and neither are the 1.5-second `onComplete` delay and the forced-mode prompt.
- EmergencyAlert.Alert.Render: it states what is displayed. The interval calls the first render's `startEmergencyCall`, which dials the initial "666" and speaks without a location. The dialled number and the location text (`toFixed(4)`) are left out.
- The capture loop of the live call and its 16 kHz input context are not modelled; only the frame interval is.
- LanguageContext.SingleParamReplacesFirst: JavaScript `replace` also interprets `$` patterns in the replacement string. The model inserts `String(v)` literally, which differs only for values containing `$`.
- LanguageContext.ApplyParamsInOrder: entry order is the order of the params list. `Object.entries` moves integer-like keys to the front; that reordering is not modelled.
- `String(v)` of a param is modelled for strings and integers only; floats are left out.
- Text.Prefix, Text.SuffixFrom, Text.TrimStart and Text.TrimEnd count code points, as Dafny strings do. JavaScript's `length` and `substring` count UTF-16 code units. The two differ only for characters outside the Basic Multilingual Plane, such as emoji in an API key; the key mask (`GeminiService.MaskOfLongKey`) is exact only for keys without them.
- The roughly 670 translation strings are not copied. The table is a parameter, and the lemmas that need an entry require it.
- The grounding chunks of the weather/news view are not modelled; they only pass through.
- `analyzeUserRole` throwing leaves `isScanning` true in the source. The model takes the role as the awaited result and does not model that exception.
- `DataSyncManager`, `getSafetyLogs`, `addSafetyLog`, `analyzeUserRole`, `fetchWeatherOrNews`, `checkQuotaStatus` and `getCachedData` are imported by the screens but not defined in any file shown. Their results are inputs.
- Fall detection (components/FallMonitor.tsx) is left out: float sensor readings, DeviceMotion events and a cooldown timer. So is the float animation of components/VoiceRipple.tsx.
- The presentational screens (Home, Reminders, Alarm, AlarmOverlay, FamilyWall, Health, Guardian, VisionAssistant, TestCenter, Navigation) are left out; they hold no logic beyond rendering.
- The wake-word dialogue, silence segmentation and streamed clause-by-clause speech are not implemented in the source. `types.ts` only declares their constants, so they are not modelled.

## Findings

| source | as written | input that shows it | evidently intended | confidence | as-written member | corrected member |
|---|---|---|---|---|---|---|
| App.tsx:29-37 | The once-a-second interval raises the alarm again whenever none is active, and `onDismiss` (App.tsx:61) clears the active alarm. | An enabled alarm for 07:30, dismissed at 07:30:10; the tick at 07:30:11 shows it again, and so on every second until 07:31. | A dismissed alarm stays quiet for the rest of its minute. | not executed | App.DismissedAlarmRefiresSameMinute | App.DismissedAlarmStaysQuiet |
| components/RoleDetection.tsx:59-61 | The effect's cleanup stops the tracks through `videoRef.current?.srcObject`. React clears the element's ref before it runs the cleanups of a screen that is removed, so nothing is stopped. | Open the role-detection screen, grant the camera, then pick a role or leave: the camera stays on. | Leaving the screen stops the camera. | not executed | RoleDetection.LeaveScreenLeavesCameraLive | RoleDetection.LeaveScreenStopsCamera |
| components/LiveCall.tsx:109-114 | The cleanup clears the interval, closes the session and the output context, and stops the playing sources. It never stops the `getUserMedia` stream's tracks. | Any call that got the camera and microphone and then ends: both tracks stay live. | Ending the call releases the camera and microphone. | not executed | LiveCall.CleanupLeavesTracksLive | LiveCall.CleanupReleasesTracks |
| components/LiveCall.tsx:28-31 | After `await getUserMedia`, the stream is attached and the call goes on without checking whether the cleanup already ran. | Leave the call screen while the browser is still asking for camera access, then grant it: the camera and microphone stay live, and fixing the cleanup alone does not help. | A stream granted after the call ended is stopped at once. | not executed | LiveCall.MediaAfterEndLeaksTracks | LiveCall.MediaAfterEndReleasesTracks |
| components/LiveCall.tsx:86-99 | After `await sessionPromise`, the session is stored and the frame interval is started without checking whether the cleanup already ran. | Leave the call screen after media access is granted but before the session connects: the interval keeps running and the session stays open. | A session that connects after the call ended is closed, and no interval starts. | not executed | LiveCall.EarlyEndLeaksInterval | LiveCall.EarlyEndReleasesSession |
