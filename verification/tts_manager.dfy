/**
  The speech-session controller (`TTSManager`): a wrapper around the platform
  text-to-speech engine that initialises it for Thai, submits utterances in
  flush or append mode, forwards rate and pitch changes, and relays the
  engine's per-utterance notifications to the application's listeners.

  The manager's mutable fields become the immutable `Session` record and
  every public operation, engine callback and progress notification becomes
  a pure transition. What the engine answers (the init status, the result of
  `setLanguage`, the result of `speak`) is an input of the transition; what
  the manager asks of the engine, and which listener it invokes with what, is
  its output trace.
 */
module TtsManager {

  import opened Wrappers
  import Config
  import KotlinText

  // Result codes of the platform `TextToSpeech` API that the manager tests.

  /** `TextToSpeech.SUCCESS` (init status and `speak` result). */
  const EngineSuccess: int := 0
  /** `TextToSpeech.LANG_MISSING_DATA`, a result of `setLanguage`. */
  const LangMissingData: int := -1
  /** `TextToSpeech.LANG_NOT_SUPPORTED`, a result of `setLanguage`. */
  const LangNotSupported: int := -2
  /** `TextToSpeech.LANG_AVAILABLE`, a result of `setLanguage`. */
  const LangAvailable: int := 0

  // Per-utterance error codes of `UtteranceProgressListener.onError`.
  const ErrorSynthesis: int := -3
  const ErrorService: int := -4
  const ErrorOutput: int := -5
  const ErrorNetwork: int := -6
  const ErrorNetworkTimeout: int := -7
  const ErrorInvalidRequest: int := -8
  const ErrorNotInstalledYet: int := -9

  /** `SpeechStatus`. */
  datatype SpeechStatus = Idle | Initializing | Speaking | Error

  /** The identity of a lambda the application handed to the manager. */
  type CallbackId = nat

  /** The four nullable listener fields; `None` is a listener never set. */
  datatype Listeners = Listeners(
    onInit: Option<CallbackId>,
    onStart: Option<CallbackId>,
    onDone: Option<CallbackId>,
    onError: Option<CallbackId>)

  /** The manager's state: whether an engine handle exists (`tts != null`),
      `isInitialized`, `isSpeaking`, `currentStatus` and the listeners. */
  datatype Session = Session(
    hasEngine: bool,
    initialized: bool,
    speaking: bool,
    status: SpeechStatus,
    listeners: Listeners)
  {
    /** `isSpeaking()`. */
    predicate IsSpeaking() {
      speaking
    }

    /** `isReady()`. */
    predicate IsReady() {
      initialized
    }

    /** `getStatus()`. */
    function GetStatus(): SpeechStatus {
      status
    }
  }

  /** A newly constructed manager: no engine, nothing set. */
  const NewSession: Session :=
    Session(false, false, false, Idle, Listeners(None, None, None, None))

  /** A `java.util.Locale` by language and country. */
  datatype Locale = Locale(language: string, country: string)

  /** `Locale("th", "TH")`, the only language the manager configures. */
  const Thai: Locale := Locale("th", "TH")

  /** `TextToSpeech.QUEUE_FLUSH` and `TextToSpeech.QUEUE_ADD`. */
  datatype QueueMode = QueueFlush | QueueAdd

  /** A call the manager makes on the engine. */
  datatype EngineCommand =
    | CreateEngine
    | SetLanguage(locale: Locale)
    | SetEngineRate(rate: real)
    | SetEnginePitch(pitch: real)
    | RegisterProgressListener
    | EngineSpeak(text: string, mode: QueueMode, utteranceId: string)
    | EngineStop
    | EngineShutdown

  /** What a listener is invoked with: `onComplete(success)`, the start and
      done listeners' utterance id, the error listener's id and message. */
  datatype Notice =
    | InitResult(success: bool)
    | Started(utteranceId: string)
    | Done(utteranceId: string)
    | Failed(utteranceId: string, message: string)

  /** One observable effect of a transition: an engine call, or an
      invocation of one of the application's listeners. */
  datatype Effect =
    | Command(command: EngineCommand)
    | Invoked(callback: CallbackId, notice: Notice)

  /** The new state and the effects, in order, of a transition. */
  datatype Step = Step(state: Session, trace: seq<Effect>)

  /** Which branch of `speak`/`speakQueue` was taken. The Kotlin function
      returns `true` exactly for `EngineAccepted`. */
  datatype SpeakVerdict = NotInitialized | BlankText | EngineAccepted | EngineRefused {
    predicate Returned() {
      EngineAccepted?
    }
  }

  /** A `speak`/`speakQueue` call: state, effects and the branch taken. */
  datatype SpeakStep = SpeakStep(state: Session, trace: seq<Effect>, verdict: SpeakVerdict)

  /** The engine calls in a trace, in order. */
  function Commands(trace: seq<Effect>): seq<EngineCommand>
    decreases |trace|
  {
    if trace == [] then []
    else (if trace[0].Command? then [trace[0].command] else []) + Commands(trace[1..])
  }

  /** The listener invocations in a trace, in order. */
  function Invocations(trace: seq<Effect>): seq<Effect>
    decreases |trace|
  {
    if trace == [] then []
    else (if trace[0].Command? then [] else [trace[0]]) + Invocations(trace[1..])
  }

  /** Filtering a concatenation filters each part. */
  lemma CommandsAppend(a: seq<Effect>, b: seq<Effect>)
    ensures Commands(a + b) == Commands(a) + Commands(b)
    ensures Invocations(a + b) == Invocations(a) + Invocations(b)
  {
    CommandsOfAppend(a, b);
    InvocationsOfAppend(a, b);
  }

  lemma {:induction false} CommandsOfAppend(a: seq<Effect>, b: seq<Effect>)
    ensures Commands(a + b) == Commands(a) + Commands(b)
    decreases |a|
  {
    if a == [] {
      assert a + b == b;
    } else {
      var ab := a + b;
      assert ab[0] == a[0];
      assert ab[1..] == a[1..] + b;
      CommandsOfAppend(a[1..], b);
      var head := if a[0].Command? then [a[0].command] else [];
      assert Commands(ab) == head + Commands(a[1..] + b);
      assert Commands(a) == head + Commands(a[1..]);
    }
  }

  lemma {:induction false} InvocationsOfAppend(a: seq<Effect>, b: seq<Effect>)
    ensures Invocations(a + b) == Invocations(a) + Invocations(b)
    decreases |a|
  {
    if a == [] {
      assert a + b == b;
    } else {
      var ab := a + b;
      assert ab[0] == a[0];
      assert ab[1..] == a[1..] + b;
      InvocationsOfAppend(a[1..], b);
      var head := if a[0].Command? then [] else [a[0]];
      assert Invocations(ab) == head + Invocations(a[1..] + b);
      assert Invocations(a) == head + Invocations(a[1..]);
    }
  }

  /** Prefixing one engine call adds it to the commands and leaves the
      invocations alone. */
  lemma CommandsCons(c: EngineCommand, t: seq<Effect>)
    ensures Commands([Command(c)] + t) == [c] + Commands(t)
    ensures Invocations([Command(c)] + t) == Invocations(t)
  {
  }

  /** Kotlin's `tts?.call()`: the call is made only when a handle exists. */
  function OnEngine(s: Session, c: EngineCommand): (t: seq<Effect>)
    ensures Commands(t) == (if s.hasEngine then [c] else [])
    ensures Invocations(t) == []
  {
    if s.hasEngine then [Command(c)] else []
  }

  /** Kotlin's `listener?.invoke(...)`: an invocation only when set. */
  function Invoke(listener: Option<CallbackId>, notice: Notice): (t: seq<Effect>)
    ensures Commands(t) == [] && Invocations(t) == t
    ensures t == (if listener.Some? then [Invoked(listener.value, notice)] else [])
  {
    match listener
    case Some(cb) => [Invoked(cb, notice)]
    case None => []
  }

  /** `initialize(onComplete)`: status becomes INITIALIZING, the completion
      callback is stored and a new engine is created; `isInitialized` and
      `isSpeaking` are left as they were. */
  function Initialize(s: Session, onComplete: CallbackId): (r: Step)
    ensures r.state.status == Initializing && r.state.hasEngine
    ensures r.state.listeners.onInit == Some(onComplete)
    ensures r.state.IsReady() == s.IsReady() && r.state.IsSpeaking() == s.IsSpeaking()
    ensures r.state.listeners.(onInit := s.listeners.onInit) == s.listeners
    ensures Commands(r.trace) == [CreateEngine] && Invocations(r.trace) == []
  {
    Step(s.(status := Initializing, hasEngine := true,
            listeners := s.listeners.(onInit := Some(onComplete))),
         [Command(CreateEngine)])
  }

  /** Whether a `setLanguage` result makes initialisation fail. */
  predicate LanguageUnavailable(langResult: int) {
    langResult == LangMissingData || langResult == LangNotSupported
  }

  /** `handleInitFailure(status)`: status ERROR, not initialised, and the
      stored completion callback told `false` once. No engine call. */
  function HandleInitFailure(s: Session): (r: Step)
    ensures r.state.status == Error && !r.state.IsReady()
    ensures r.state.hasEngine == s.hasEngine && r.state.speaking == s.speaking
    ensures r.state.listeners == s.listeners
    ensures Commands(r.trace) == []
    ensures Invocations(r.trace) ==
              (if s.listeners.onInit.Some? then [Invoked(s.listeners.onInit.value, InitResult(false))] else [])
  {
    Step(s.(status := Error, initialized := false),
         Invoke(s.listeners.onInit, InitResult(false)))
  }

  /** The `LANG_MISSING_DATA` and `LANG_NOT_SUPPORTED` branches of
      `handleInitSuccess()`: Thai was asked for and refused, and the outcome
      is that of a failed initialisation. */
  function LanguageRefused(s: Session): (r: Step)
    requires s.hasEngine
    ensures r.state == HandleInitFailure(s).state
    ensures Commands(r.trace) == [SetLanguage(Thai)]
    ensures Invocations(r.trace) == Invocations(HandleInitFailure(s).trace)
  {
    var fail := HandleInitFailure(s);
    CommandsCons(SetLanguage(Thai), fail.trace);
    Step(fail.state, [Command(SetLanguage(Thai))] + fail.trace)
  }

  /** The `else` branch of `handleInitSuccess()`: the configured rate and
      pitch are applied, the progress listener registered (each only when a
      handle exists), the session marked ready and idle, and the completion
      callback told `true`. */
  function LanguageAccepted(s: Session): (r: Step)
    ensures r.state == s.(initialized := true, status := Idle)
    ensures Commands(r.trace) ==
              (if s.hasEngine
               then [SetLanguage(Thai), SetEngineRate(Config.SpeechRate),
                     SetEnginePitch(Config.SpeechPitch), RegisterProgressListener]
               else [])
    ensures Invocations(r.trace) ==
              (if s.listeners.onInit.Some? then [Invoked(s.listeners.onInit.value, InitResult(true))] else [])
  {
    var notify := Invoke(s.listeners.onInit, InitResult(true));
    if !s.hasEngine then
      Step(s.(initialized := true, status := Idle), notify)
    else
      var t3 := [Command(RegisterProgressListener)] + notify;
      var t2 := [Command(SetEnginePitch(Config.SpeechPitch))] + t3;
      var t1 := [Command(SetEngineRate(Config.SpeechRate))] + t2;
      CommandsCons(RegisterProgressListener, notify);
      CommandsCons(SetEnginePitch(Config.SpeechPitch), t3);
      CommandsCons(SetEngineRate(Config.SpeechRate), t2);
      CommandsCons(SetLanguage(Thai), t1);
      Step(s.(initialized := true, status := Idle), [Command(SetLanguage(Thai))] + t1)
  }

  /** `handleInitSuccess()`. With a handle, the manager asks for Thai and
      `langResult` is what the engine answers: missing data or no support
      fail the initialisation, anything else completes it. Without a handle
      `tts?.setLanguage` yields `null`, which matches neither failure code, so
      the session is marked ready although no engine call was made. */
  function HandleInitSuccess(s: Session, langResult: int): (r: Step)
    ensures r.state.IsReady() <==> !(s.hasEngine && LanguageUnavailable(langResult))
    ensures r.state.status == (if r.state.IsReady() then Idle else Error)
    ensures r.state.hasEngine == s.hasEngine && r.state.speaking == s.speaking
    ensures r.state.listeners == s.listeners
    ensures Invocations(r.trace) ==
              (if s.listeners.onInit.Some?
               then [Invoked(s.listeners.onInit.value, InitResult(r.state.IsReady()))] else [])
    ensures s.hasEngine ==> |Commands(r.trace)| > 0 && Commands(r.trace)[0] == SetLanguage(Thai)
    ensures !s.hasEngine ==> Commands(r.trace) == []
  {
    if s.hasEngine && LanguageUnavailable(langResult) then LanguageRefused(s) else LanguageAccepted(s)
  }

  /** The `TextToSpeech` constructor's init callback with engine status
      `initStatus`; `langResult` is what `setLanguage` will answer. */
  function OnInitResult(s: Session, initStatus: int, langResult: int): (r: Step)
    ensures initStatus != EngineSuccess ==> r == HandleInitFailure(s)
    ensures initStatus == EngineSuccess ==> r == HandleInitSuccess(s, langResult)
    ensures r.state.IsReady() <==>
              initStatus == EngineSuccess && !(s.hasEngine && LanguageUnavailable(langResult))
  {
    if initStatus == EngineSuccess then HandleInitSuccess(s, langResult) else HandleInitFailure(s)
  }

  /** The guarded submission shared by `speak` and `speakQueue`: refused when
      not initialised (checked first), then when the text is blank; otherwise
      handed to the engine, whose answer decides the result. The session
      state is never changed and no listener is invoked. */
  function Submit(s: Session, text: string, utteranceId: string, mode: QueueMode, engineResult: int): (r: SpeakStep)
    ensures r.state == s
    ensures Invocations(r.trace) == []
    ensures !s.IsReady() ==> r.verdict == NotInitialized
    ensures s.IsReady() && KotlinText.IsBlank(text) ==> r.verdict == BlankText
    ensures r.verdict.Returned() <==>
              s.IsReady() && !KotlinText.IsBlank(text) && s.hasEngine && engineResult == EngineSuccess
    ensures Commands(r.trace) ==
              (if s.IsReady() && !KotlinText.IsBlank(text) && s.hasEngine
               then [EngineSpeak(text, mode, utteranceId)] else [])
  {
    if !s.initialized then SpeakStep(s, [], NotInitialized)
    else if KotlinText.IsBlank(text) then SpeakStep(s, [], BlankText)
    else
      var submit := OnEngine(s, EngineSpeak(text, mode, utteranceId));
      // `tts?.speak(...)` is `null` without a handle, which is not SUCCESS.
      var accepted := s.hasEngine && engineResult == EngineSuccess;
      SpeakStep(s, submit, if accepted then EngineAccepted else EngineRefused)
  }

  /** `speak(text, utteranceId)`: a QUEUE_FLUSH submission. It returns true
      exactly when the manager is ready, the text is not blank, a handle
      exists and the engine accepted; it never touches the session's flags or status. */
  function Speak(s: Session, text: string, utteranceId: string, engineResult: int): (r: SpeakStep)
    ensures r.state == s && Invocations(r.trace) == []
    ensures !s.IsReady() || KotlinText.IsBlank(text) ==> r.trace == [] && !r.verdict.Returned()
    ensures s.IsReady() && !KotlinText.IsBlank(text) && s.hasEngine ==>
              r.trace == [Command(EngineSpeak(text, QueueFlush, utteranceId))]
    ensures r.verdict.Returned() <==>
              s.IsReady() && !KotlinText.IsBlank(text) && s.hasEngine && engineResult == EngineSuccess
    ensures !s.hasEngine ==> r.trace == []
  {
    Submit(s, text, utteranceId, QueueFlush, engineResult)
  }

  /** `speakQueue(text, utteranceId)`: the same as `speak` but submitted with
      QUEUE_ADD, behind whatever the engine is already saying. */
  function SpeakQueue(s: Session, text: string, utteranceId: string, engineResult: int): (r: SpeakStep)
    ensures r.state == s && Invocations(r.trace) == []
    ensures !s.IsReady() || KotlinText.IsBlank(text) ==> r.trace == [] && !r.verdict.Returned()
    ensures s.IsReady() && !KotlinText.IsBlank(text) && s.hasEngine ==>
              r.trace == [Command(EngineSpeak(text, QueueAdd, utteranceId))]
    ensures r.verdict.Returned() <==>
              s.IsReady() && !KotlinText.IsBlank(text) && s.hasEngine && engineResult == EngineSuccess
    ensures !s.hasEngine ==> r.trace == []
  {
    Submit(s, text, utteranceId, QueueAdd, engineResult)
  }

  /** `stop()`: asks the engine to stop (if there is one) and records the
      session as idle and silent; readiness is kept. */
  function Stop(s: Session): (r: Step)
    ensures !r.state.IsSpeaking() && r.state.status == Idle
    ensures r.state.IsReady() == s.IsReady()
    ensures r.state.hasEngine == s.hasEngine && r.state.listeners == s.listeners
    ensures Commands(r.trace) == (if s.hasEngine then [EngineStop] else [])
    ensures Invocations(r.trace) == []
  {
    Step(s.(speaking := false, status := Idle), OnEngine(s, EngineStop))
  }

  /** `setSpeechRate(rate)`: the value is forwarded only when it lies in
      0.5..2.0 and a handle exists. The manager itself stores nothing. */
  function SetSpeechRate(s: Session, rate: real): (r: Step)
    ensures r.state == s && Invocations(r.trace) == []
    ensures Commands(r.trace) ==
              (if Config.InSpeechRange(rate) && s.hasEngine then [SetEngineRate(rate)] else [])
    ensures !(0.5 <= rate <= 2.0) ==> r.trace == []
  {
    Step(s, if Config.InSpeechRange(rate) then OnEngine(s, SetEngineRate(rate)) else [])
  }

  /** `setPitch(pitch)`: as `setSpeechRate`, for the pitch. */
  function SetPitch(s: Session, pitch: real): (r: Step)
    ensures r.state == s && Invocations(r.trace) == []
    ensures Commands(r.trace) ==
              (if Config.InSpeechRange(pitch) && s.hasEngine then [SetEnginePitch(pitch)] else [])
    ensures !(0.5 <= pitch <= 2.0) ==> r.trace == []
  {
    Step(s, if Config.InSpeechRange(pitch) then OnEngine(s, SetEnginePitch(pitch)) else [])
  }

  /** The progress listener's `onStart(utteranceId)`. A null id is ignored;
      otherwise the session is speaking and the start listener hears the id. */
  function OnStart(s: Session, utteranceId: Option<string>): (r: Step)
    ensures utteranceId.None? ==> r.state == s && r.trace == []
    ensures utteranceId.Some? ==>
              && r.state == s.(speaking := true, status := Speaking)
              && Commands(r.trace) == []
              && Invocations(r.trace) ==
                   (if s.listeners.onStart.Some?
                    then [Invoked(s.listeners.onStart.value, Started(utteranceId.value))] else [])
  {
    match utteranceId
    case None => Step(s, [])
    case Some(id) =>
      Step(s.(speaking := true, status := Speaking),
           Invoke(s.listeners.onStart, Started(id)))
  }

  /** The progress listener's `onDone(utteranceId)`. A null id is ignored;
      otherwise the session is idle and the done listener hears the id. */
  function OnDone(s: Session, utteranceId: Option<string>): (r: Step)
    ensures utteranceId.None? ==> r.state == s && r.trace == []
    ensures utteranceId.Some? ==>
              && r.state == s.(speaking := false, status := Idle)
              && Commands(r.trace) == []
              && Invocations(r.trace) ==
                   (if s.listeners.onDone.Some?
                    then [Invoked(s.listeners.onDone.value, Done(utteranceId.value))] else [])
  {
    match utteranceId
    case None => Step(s, [])
    case Some(id) =>
      Step(s.(speaking := false, status := Idle),
           Invoke(s.listeners.onDone, Done(id)))
  }

  /** What both `onError` overloads do with a non-null id and a message: the
      session stops speaking and is in ERROR, but stays initialised. */
  function ReportError(s: Session, utteranceId: Option<string>, message: string): (r: Step)
    ensures utteranceId.None? ==> r.state == s && r.trace == []
    ensures utteranceId.Some? ==>
              && r.state == s.(speaking := false, status := Error)
              && r.state.IsReady() == s.IsReady()
              && Commands(r.trace) == []
              && Invocations(r.trace) ==
                   (if s.listeners.onError.Some?
                    then [Invoked(s.listeners.onError.value, Failed(utteranceId.value, message))] else [])
  {
    match utteranceId
    case None => Step(s, [])
    case Some(id) =>
      Step(s.(speaking := false, status := Error),
           Invoke(s.listeners.onError, Failed(id, message)))
  }

  /** The deprecated `onError(utteranceId)`, reporting "Unknown error". */
  function OnErrorDeprecated(s: Session, utteranceId: Option<string>): (r: Step)
    ensures utteranceId.None? ==> r.state == s && r.trace == []
    ensures utteranceId.Some? ==>
              && r.state == s.(speaking := false, status := Error)
              && r.state.IsReady() == s.IsReady()
              && Commands(r.trace) == []
              && Invocations(r.trace) ==
                   (if s.listeners.onError.Some?
                    then [Invoked(s.listeners.onError.value, Failed(utteranceId.value, "Unknown error"))] else [])
  {
    ReportError(s, utteranceId, "Unknown error")
  }

  /** `onError(utteranceId, errorCode)`, reporting `getErrorMessage(errorCode)`. */
  function OnError(s: Session, utteranceId: Option<string>, errorCode: int): (r: Step)
    ensures utteranceId.None? ==> r.state == s && r.trace == []
    ensures utteranceId.Some? ==>
              && r.state == s.(speaking := false, status := Error)
              && r.state.IsReady() == s.IsReady()
              && Commands(r.trace) == []
              && Invocations(r.trace) ==
                   (if s.listeners.onError.Some?
                    then [Invoked(s.listeners.onError.value, Failed(utteranceId.value, ErrorMessage(errorCode)))] else [])
  {
    ReportError(s, utteranceId, ErrorMessage(errorCode))
  }

  /** The seven codes `getErrorMessage` names, ERROR_SYNTHESIS (-3) to
      ERROR_NOT_INSTALLED_YET (-9). */
  predicate NamedErrorCode(errorCode: int) {
    ErrorNotInstalledYet <= errorCode <= ErrorSynthesis
  }

  /** The text `getErrorMessage` prefixes to an unrecognised code. */
  const UnknownCodePrefix: string := "Unknown error (code: "

  /** `getErrorMessage(errorCode)`: a fixed text for each of the seven named
      engine error codes and, for anything else, the code spelled out. */
  function ErrorMessage(errorCode: int): (m: string)
    ensures errorCode == ErrorSynthesis ==> m == "Error during speech synthesis"
    ensures errorCode == ErrorService ==> m == "TTS service error"
    ensures errorCode == ErrorOutput ==> m == "Audio output error"
    ensures errorCode == ErrorNetwork ==> m == "Network error"
    ensures errorCode == ErrorNetworkTimeout ==> m == "Network timeout"
    ensures errorCode == ErrorInvalidRequest ==> m == "Invalid request"
    ensures errorCode == ErrorNotInstalledYet ==> m == "TTS engine not installed"
    ensures !NamedErrorCode(errorCode) ==>
              m == UnknownCodePrefix + KotlinText.IntToString(errorCode) + ")"
  {
    if errorCode == ErrorSynthesis then "Error during speech synthesis"
    else if errorCode == ErrorService then "TTS service error"
    else if errorCode == ErrorOutput then "Audio output error"
    else if errorCode == ErrorNetwork then "Network error"
    else if errorCode == ErrorNetworkTimeout then "Network timeout"
    else if errorCode == ErrorInvalidRequest then "Invalid request"
    else if errorCode == ErrorNotInstalledYet then "TTS engine not installed"
    else UnknownCodePrefix + KotlinText.IntToString(errorCode) + ")"
  }

  /** Only the fallback message starts with `U`. */
  lemma ErrorMessageFirstChar(errorCode: int)
    ensures |ErrorMessage(errorCode)| > 0
    ensures ErrorMessage(errorCode)[0] == 'U' <==> !NamedErrorCode(errorCode)
  {
  }

  /** No two error codes share a message, so the error listener can always
      tell which code the engine reported. */
  lemma ErrorMessageInjective(a: int, b: int)
    requires ErrorMessage(a) == ErrorMessage(b)
    ensures a == b
  {
    ErrorMessageFirstChar(a);
    ErrorMessageFirstChar(b);
    if !NamedErrorCode(a) && !NamedErrorCode(b) {
      var ma := ErrorMessage(a);
      var sa := KotlinText.IntToString(a);
      var sb := KotlinText.IntToString(b);
      assert ma == UnknownCodePrefix + sa + ")";
      assert ma == UnknownCodePrefix + sb + ")";
      assert |sa| == |sb|;
      assert sa == ma[|UnknownCodePrefix|..|UnknownCodePrefix| + |sa|];
      assert sb == ma[|UnknownCodePrefix|..|UnknownCodePrefix| + |sb|];
      KotlinText.IntToStringInjective(a, b);
    }
  }

  /** `shutdown()`: stops and shuts down the engine if there is one, drops the
      handle and leaves the session not ready, silent and idle. Listeners
      are kept. */
  function Shutdown(s: Session): (r: Step)
    ensures !r.state.hasEngine && !r.state.IsReady() && !r.state.IsSpeaking()
    ensures r.state.status == Idle && r.state.listeners == s.listeners
    ensures Commands(r.trace) == (if s.hasEngine then [EngineStop, EngineShutdown] else [])
    ensures Invocations(r.trace) == []
  {
    CommandsAppend(OnEngine(s, EngineStop), OnEngine(s, EngineShutdown));
    Step(s.(hasEngine := false, initialized := false, speaking := false, status := Idle),
         OnEngine(s, EngineStop) + OnEngine(s, EngineShutdown))
  }

  /** Shutting down twice is the same as once, and the second call makes no
      engine call. */
  lemma ShutdownIdempotent(s: Session)
    ensures Shutdown(Shutdown(s).state).state == Shutdown(s).state
    ensures Shutdown(Shutdown(s).state).trace == []
  {
  }
}
