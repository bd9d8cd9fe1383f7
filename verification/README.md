# Reeman TTS speech core: a Dafny model

This project models the speech core of the Reeman TTS Android application. It
has three parts:

- **`TTSManager`** drives the platform text-to-speech engine. It initialises
  the engine for Thai (`th_TH`), applies the configured rate and pitch, and
  submits utterances with `QUEUE_FLUSH` (`speak`) or `QUEUE_ADD`
  (`speakQueue`). It forwards rate and pitch changes, stops and shuts the
  engine down, and relays the engine's `onStart`/`onDone`/`onError`
  notifications to the application's listeners.
- **`Logger`** filters messages against the configured level and formats
  them as `[TIMESTAMP] [LEVEL] [COMPONENT] Message`.
- **`Config.validate()`** checks the shipped constants once at start-up.

Files and modules:

| file | module | contents |
|---|---|---|
| `wrappers.dfy` | `Wrappers` | `Option`, standing for Kotlin's nullable values |
| `kotlin_text.dfy` | `KotlinText` | `String.isBlank()` and the decimal rendering of an `Int`, with a parser proving the rendering injective |
| `config.dfy` | `Config` | the constants the core reads; `validate()` over arbitrary settings |
| `logger.dfy` | `Logger` | levels, `shouldLog`, `formatMessage`, the gate in `log`, and a line parser that inverts the format |
| `tts_manager.dfy` | `TtsManager` | the session record and one pure transition per operation, engine callback and notification |
| `tts_session.dfy` | `TtsSession` | events, runs of events, the invariant every run keeps, and concrete sessions |

## How the manager is modelled

The manager's mutable fields become one immutable record, `Session`. It holds
whether an engine handle exists (`tts != null`), `isInitialized`, `isSpeaking`,
`currentStatus` and the four nullable listeners. A listener is stored as the
identity of the lambda the application supplied.

Every operation is a function from a `Session`, plus the operation's
arguments, to the new `Session` and a **trace**. The trace lists, in order,
the engine calls made (`Commands`) and the listener invocations made
(`Invocations`). What the engine answers is an input of the transition:

- the init status;
- the result of `setLanguage`;
- the result of `speak`.

Android's result codes are the platform's own values:

- `SUCCESS` = 0;
- `LANG_MISSING_DATA` = -1;
- `LANG_NOT_SUPPORTED` = -2;
- `ERROR_SYNTHESIS` … `ERROR_NOT_INSTALLED_YET` = -3 … -9.

Kotlin's safe call `tts?.f()` becomes "an engine call only when a handle
exists". So does its consequence: `tts?.setLanguage(...)` on a missing handle
yields `null`, which falls into the success branch of `handleInitSuccess`.
`speak` and `speakQueue` return a `SpeakVerdict` that names the branch taken:
not initialised, blank text, accepted or refused. The Kotlin `Boolean` is
`verdict.Returned()`.

The model keeps no map of utterances in flight, because the code has none. A
per-utterance error sets status `ERROR` but leaves `isInitialized` alone. A
second `initialize` is not refused. The rate and pitch setters store nothing:
they either forward the value or refuse it. Each of the following is stated
as a lemma:

- after `initialize` on a ready manager, `isReady()` stays true while the
  status reads INITIALIZING;
- after an init failure during speech, `isSpeaking()` is true while the
  status reads ERROR;
- when `shutdown` comes before the engine's init callback, the session ends
  up ready with no engine, even if the language would have been refused.

## Model

| member | source | states |
|---|---|---|
| `TtsManager.Initialize` | app/src/main/java/com/factory/reemantts/tts/TTSManager.kt:48-60 | Stated through the accessors `Session.IsReady`, `Session.IsSpeaking` and `Session.GetStatus` (`isReady()`, `isSpeaking()` and `getStatus()`, TTSManager.kt:267-277), which read the fields directly. Status becomes INITIALIZING and the completion callback is stored. A new engine is created, and no other engine call is made (the previous engine is not shut down). `isReady()` and `isSpeaking()` keep their values, so re-initialising a ready manager leaves it ready. |
| `TtsManager.HandleInitFailure` | app/src/main/java/com/factory/reemantts/tts/TTSManager.kt:99-104 | An engine init failure yields status ERROR and not ready. The stored completion callback is invoked exactly once, with `false`. No engine call is made. The handle, `isSpeaking` and the listeners are unchanged. |
| `TtsManager.LanguageRefused` | app/src/main/java/com/factory/reemantts/tts/TTSManager.kt:69-81 | When Thai has missing data or no support, the state is the same as after an init failure. The only engine call is the `setLanguage(th_TH)` request, and the completion callback hears `false`. |
| `TtsManager.LanguageAccepted` | app/src/main/java/com/factory/reemantts/tts/TTSManager.kt:82-95 | Any other language result leads to these engine calls, in order: setLanguage, rate 0.9f, pitch 1.0f, progress-listener registration. The session becomes ready and IDLE, and the completion callback hears `true` exactly once. |
| `TtsManager.HandleInitSuccess` | app/src/main/java/com/factory/reemantts/tts/TTSManager.kt:62-97 | The result is ready exactly when it is not the case that a handle exists and the language is unavailable. The status is IDLE when ready and ERROR otherwise. The callback hears that same readiness. The first engine call is always `setLanguage(th_TH)`. Without a handle no engine call is made. |
| `TtsManager.OnInitResult` | app/src/main/java/com/factory/reemantts/tts/TTSManager.kt:53-59 | A non-SUCCESS init status takes the failure path and SUCCESS takes the success path. Readiness afterwards holds exactly when the status is SUCCESS and the language is not refused. |
| `TtsManager.Submit` | app/src/main/java/com/factory/reemantts/tts/TTSManager.kt:168-192 | The not-initialised check comes before the blank-text check. Each check refuses the request with no engine call. The call returns true exactly when the manager is ready, the text is not blank, a handle exists and the engine answers SUCCESS. The session state never changes. |
| `TtsManager.Speak` | app/src/main/java/com/factory/reemantts/tts/TTSManager.kt:167-193 | The call returns true exactly when the manager is ready, the text is not blank, a handle exists and the engine answers SUCCESS. A request that is not ready or is blank makes no engine call. Without a handle no engine call is made either. Otherwise it makes exactly one `speak(text, QUEUE_FLUSH, id)` call. The state is unchanged and no listener is invoked. |
| `TtsManager.SpeakQueue` | app/src/main/java/com/factory/reemantts/tts/TTSManager.kt:201-227 | The same as `Speak`, but the engine call uses QUEUE_ADD. |
| `TtsManager.Stop` | app/src/main/java/com/factory/reemantts/tts/TTSManager.kt:232-237 | Afterwards the session is not speaking and the status is IDLE, whatever it was before. Readiness, the handle and the listeners are kept. The engine is asked to stop only when a handle exists. |
| `TtsManager.SetSpeechRate` | app/src/main/java/com/factory/reemantts/tts/TTSManager.kt:243-250 | The rate is forwarded to the engine only when it lies in [0.5, 2.0] and a handle exists. An out-of-range rate produces no effect at all. The session state never changes. |
| `TtsManager.SetPitch` | app/src/main/java/com/factory/reemantts/tts/TTSManager.kt:256-263 | The same as `SetSpeechRate`, for the pitch. |
| `TtsManager.OnStart` | app/src/main/java/com/factory/reemantts/tts/TTSManager.kt:108-115 | A null id changes nothing and invokes nothing. Otherwise the session is speaking with status SPEAKING, and the start listener, if set, hears the id exactly once. |
| `TtsManager.OnDone` | app/src/main/java/com/factory/reemantts/tts/TTSManager.kt:117-124 | A null id changes nothing and invokes nothing. Otherwise the session is not speaking with status IDLE, and the done listener, if set, hears the id exactly once. |
| `TtsManager.ReportError` | app/src/main/java/com/factory/reemantts/tts/TTSManager.kt:126-144 | A null id changes nothing and invokes nothing. Otherwise the session is not speaking with status ERROR, readiness is kept, and the error listener, if set, hears the id and the message. |
| `TtsManager.OnErrorDeprecated` | app/src/main/java/com/factory/reemantts/tts/TTSManager.kt:126-134 | A null id changes nothing and invokes nothing. Otherwise the error listener, if set, hears the id with "Unknown error" exactly once. The session is not speaking and in ERROR, and everything else (readiness, handle, listeners) is kept. No engine call is made. |
| `TtsManager.OnError` | app/src/main/java/com/factory/reemantts/tts/TTSManager.kt:136-144 | A null id changes nothing and invokes nothing. Otherwise the error listener, if set, hears the id with `getErrorMessage(code)` exactly once. The session is not speaking and in ERROR, and everything else is kept. No engine call is made. |
| `TtsManager.ErrorMessage` | app/src/main/java/com/factory/reemantts/tts/TTSManager.kt:148-159 | Each of the seven named engine error codes (-3 … -9) maps to its fixed text. Every other code maps to "Unknown error (code: N)", with N written the way Kotlin renders an `Int`. |
| `TtsManager.ErrorMessageInjective` | app/src/main/java/com/factory/reemantts/tts/TTSManager.kt:148-159 | Two codes with the same message are the same code, so the error listener can always tell which code was reported. |
| `TtsManager.Shutdown` | app/src/main/java/com/factory/reemantts/tts/TTSManager.kt:305-313 | Afterwards there is no handle, the session is not ready, not speaking and IDLE, and the listeners are kept. The engine calls, made only when a handle existed, are exactly stop followed by shutdown. |
| `TtsManager.ShutdownIdempotent` | app/src/main/java/com/factory/reemantts/tts/TTSManager.kt:305-313 | A second shutdown gives the same state as the first and makes no call at all. |
| `KotlinText.IntToString` | app/src/main/java/com/factory/reemantts/tts/TTSManager.kt:157 | The rendering of the code in the fallback message starts with `-` exactly for negative codes, and otherwise consists of decimal digits. |
| `KotlinText.IntToStringInjective` | app/src/main/java/com/factory/reemantts/tts/TTSManager.kt:157 | The rendering can be parsed back to the integer, so distinct codes give distinct renderings. |
| `TtsSession.Apply` | app/src/main/java/com/factory/reemantts/tts/TTSManager.kt:167-176 | For any event, a speak request to a manager that is not ready returns false with an empty trace. Only the engine's init callback can make such a manager ready. |
| `TtsSession.Run` | app/src/main/java/com/factory/reemantts/tts/TTSManager.kt:167-227 | A sequence of events yields exactly one Boolean result per `speak`/`speakQueue` call in it. |
| `TtsSession.RunPreservesConsistent` | app/src/main/java/com/factory/reemantts/tts/TTSManager.kt:106-146 | Over any sequence of events, the status is SPEAKING only while `isSpeaking` is set, and INITIALIZING only while a handle exists. |
| `TtsSession.ReachableIsConsistent` | app/src/main/java/com/factory/reemantts/tts/TTSManager.kt:25-42 | Every state reachable from a new manager satisfies that invariant. |
| `TtsSession.NotReadyNeverSpeaks` | app/src/main/java/com/factory/reemantts/tts/TTSManager.kt:167-176 | From a manager that is not ready, no sequence of events without an init callback submits any utterance to the engine. Every speak request in it returns false, and the manager stays not ready. |
| `TtsSession.ShutDownStaysSilent` | app/src/main/java/com/factory/reemantts/tts/TTSManager.kt:305-313 | After shutdown, and until `initialize` or an init callback arrives, no engine call of any kind is made. Every speak request returns false. |
| `TtsSession.SpeakModesDifferOnlyInQueueMode` | app/src/main/java/com/factory/reemantts/tts/TTSManager.kt:184-218 | `speak` and `speakQueue` give the same state, the same verdict and traces of the same length. Their only engine call differs only in QUEUE_FLUSH versus QUEUE_ADD. |
| `TtsSession.ReinitializeWhileReady` | app/src/main/java/com/factory/reemantts/tts/TTSManager.kt:48-51 | After `initialize` on a ready manager with an engine, `isReady()` is true and the status is INITIALIZING. A non-blank speak request is still accepted. |
| `TtsSession.UtteranceErrorKeepsSessionUsable` | app/src/main/java/com/factory/reemantts/tts/TTSManager.kt:136-144 | After a per-utterance error the status is ERROR, yet the next non-blank speak request is submitted and accepted. |
| `TtsSession.InitFailureWhileSpeaking` | app/src/main/java/com/factory/reemantts/tts/TTSManager.kt:48-104 | If `initialize` is called during speech and the engine then fails, `isSpeaking()` is true while the status is ERROR and the manager is not ready. |
| `TtsSession.StopIdempotent` | app/src/main/java/com/factory/reemantts/tts/TTSManager.kt:232-237 | A second `stop()` gives the same state and the same engine calls as the first. |
| `TtsSession.HelloScenario` | app/src/main/java/com/factory/reemantts/tts/TTSManager.kt:62-124 | Initialise, speak "hello" as "u1", then start and done. The engine is configured, `onComplete(true)` is called, the utterance is submitted with QUEUE_FLUSH and the call returns true. `onStart("u1")` gives SPEAKING and `onDone("u1")` gives IDLE, each reaching its listener. |
| `TtsSession.MissingLanguageScenario` | app/src/main/java/com/factory/reemantts/tts/TTSManager.kt:62-81 | When Thai data is missing, `onComplete(false)` is called, the manager is not ready with status ERROR, and a later `speak` is refused with no engine call. |
| `TtsSession.ShutdownBeforeInitCallbackScenario` | app/src/main/java/com/factory/reemantts/tts/TTSManager.kt:66-95 | A shutdown before the init callback leaves `isReady()` true with no handle and `onComplete(true)` called. A later `speak` returns false with no engine call. |
| `Logger.ShouldLog` | app/src/main/java/com/factory/reemantts/utils/Logger.kt:22-30 | Filtering is a threshold: a message passes exactly when its severity is at least the configured one. Unrecognised configurations behave like DEBUG. |
| `Logger.DebugLogsEverything` | app/src/main/java/com/factory/reemantts/utils/Logger.kt:24 | Under "DEBUG" every level is logged. |
| `Logger.InfoDropsOnlyDebug` | app/src/main/java/com/factory/reemantts/utils/Logger.kt:25 | Under "INFO" a level is logged exactly when it is not DEBUG. |
| `Logger.WarnKeepsWarnAndError` | app/src/main/java/com/factory/reemantts/utils/Logger.kt:26-27 | Under "WARN" exactly WARN and ERROR are logged. Under "ERROR" exactly ERROR is logged. |
| `Logger.UnrecognisedLevelLogsEverything` | app/src/main/java/com/factory/reemantts/utils/Logger.kt:28 | Any other configured string logs every level. |
| `Logger.FilterIsMonotone` | app/src/main/java/com/factory/reemantts/utils/Logger.kt:18-30 | ERROR passes under every configuration. Whatever passes at one severity passes at every higher one. |
| `Logger.ShippedLevelLogsEverything` | app/src/main/java/com/factory/reemantts/utils/Config.kt:19 | The shipped `LOG_LEVEL` filters nothing. |
| `Logger.Format` | app/src/main/java/com/factory/reemantts/utils/Logger.kt:32-35 | The line opens with `[` and the timestamp, ends with the message, and is nine characters longer than the four fields together. Its partner `Logger.FormatParses` proves that the fields can be read back. |
| `Logger.FormatParses` | app/src/main/java/com/factory/reemantts/utils/Logger.kt:32-35 | A formatted line can be read back into its timestamp, level, component and message whenever the timestamp and the component contain no `]`. |
| `Logger.Log` | app/src/main/java/com/factory/reemantts/utils/Logger.kt:37-60 | A filtered message writes nothing. Otherwise the formatted line is written at the message's own priority under `LOG_TAG`, followed by one line that reads "Exception: " and the throwable, exactly when a throwable is attached. |
| `Logger.ExceptionCall` | app/src/main/java/com/factory/reemantts/utils/Logger.kt:45-57 | An attached throwable gives exactly one "Exception: " line at the message's priority under `LOG_TAG`. Without a throwable there is none. |
| `Logger.LoggedLineReadsBack` | app/src/main/java/com/factory/reemantts/utils/Logger.kt:37-40 | The first line `log` writes for a message that passes the filter reads back to that message's fields. |
| `Config.FirstFailure` | app/src/main/java/com/factory/reemantts/utils/Config.kt:38-54 | The checks run in the order rate, pitch, delay, and the first failing check is the one reported. No failure is reported exactly when all three checks pass. |
| `Config.Validate` | app/src/main/java/com/factory/reemantts/utils/Config.kt:38-54 | The result is false when the rate is outside [0.5, 2.0], false when the pitch is outside it, and false when the delay is below 1000. It is true exactly when all three checks pass. |
| `Config.RateReportedFirst` | app/src/main/java/com/factory/reemantts/utils/Config.kt:39-43 | A bad rate is reported as the rate, whatever the pitch and the delay are. |
| `Config.ShippedConfigIsValid` | app/src/main/java/com/factory/reemantts/utils/Config.kt:11-15 | The shipped settings pass validation: rate 0.9f (its exact single-precision value), pitch 1.0f and delay 5000 ms. |

## Behaviour the code does not have

- An out-of-range rate or pitch is refused, and no previous value is kept, because the manager stores none: it either forwards the value to the engine or drops it.
- A per-utterance error does not leave the status as it was: it becomes ERROR, and only `isInitialized` stays true.
- A second `initialize` is not refused while one is in progress: another engine is created, and the first is not shut down.
- Utterances in flight are not tracked. Notifications are handled whatever their id, and only a null id is ignored.
- `speak` gives no failure reason: it returns a `Boolean`. The model's `SpeakVerdict` records only which branch was taken.
- The speaking flag and the status are independent fields, not one state. Combinations such as "speaking" with status ERROR are reachable (`TtsSession.InitFailureWhileSpeaking`).

## Left out

- The engine itself (synthesis, audio output, locale data, the asynchronous binding to the engine service) is not modelled. Its answers are inputs and its calls are trace entries.
- Concurrency between the caller's thread and the engine's notification thread is not modelled. The code does not synchronise the two, so notifications are sequential events and any interleaving is one sequence of them.
- The log lines `TTSManager` writes through `Logger.TTS` are not in the trace. They do not affect control flow. The `speak` branch that their messages distinguish is kept as `SpeakVerdict`.
- The default utterance id `UUID.randomUUID()` is not generated. The id is always a parameter.
- `Bundle` parameter packing is not modelled. Only the utterance id it carries reaches the engine call.
- The wall clock and `SimpleDateFormat` are not modelled. The timestamp text is a parameter of `Logger.Format`.
- `android.util.Log` itself is not modelled. Its calls are returned as `LogCall` records.
- The `Logger` convenience wrappers (`debug`, `info`, …, `Logger.TTS`, `Logger.WebSocket`, …) are not modelled, because they only fix the component and level passed to `log`.
- Rate and pitch are real numbers, so NaN and infinities are not modelled. Kotlin's range test rejects them, which is the same branch as any other out-of-range value.
- The setters `setOnSpeakStartListener`, `setOnSpeakDoneListener` and `setOnErrorListener` are events of `TtsSession.Apply` rather than functions of their own. They only overwrite one listener.
- The configuration constants the core never reads (server URL, device id, notification channel, queue size, timeouts, heartbeat) are not modelled.
- `MainActivity.kt` is not part of this model. It is UI glue: views, toasts, `runOnUiThread` and the 20-line on-screen log.
- `TtsManager.HandleInitSuccess`: its contract gives only the first engine call and the empty no-handle case. The full command list of each branch is stated by `TtsManager.LanguageRefused` and `TtsManager.LanguageAccepted`.
