/**
  The manager driven by a sequence of events: the application's calls, the
  engine's init callback and its progress notifications, all delivered one
  after another (the source does not synchronise the two threads, so any
  interleaving is one of these sequences). Properties of whole runs live
  here: what the manager preserves, what it can never do while not ready,
  and concrete sessions: an utterance spoken, Thai data missing, a shutdown
  before the init callback.
 */
module TtsSession {

  import opened Wrappers
  import opened TtsManager
  import KotlinText

  /** Everything that can happen to a manager. Engine answers travel with the
      event that provokes them. */
  datatype Event =
    | InitializeCalled(onComplete: CallbackId)
    | EngineInitDone(initStatus: int, langResult: int)
    | SpeakCalled(text: string, utteranceId: string, engineResult: int)
    | SpeakQueueCalled(text: string, utteranceId: string, engineResult: int)
    | StopCalled
    | SpeechRateSet(rate: real)
    | PitchSet(pitch: real)
    | StartReported(reportedId: Option<string>)
    | DoneReported(reportedId: Option<string>)
    | LegacyErrorReported(reportedId: Option<string>)
    | ErrorReported(reportedId: Option<string>, errorCode: int)
    | StartListenerSet(listener: CallbackId)
    | DoneListenerSet(listener: CallbackId)
    | ErrorListenerSet(listener: CallbackId)
    | ShutdownCalled

  /** A call of `speak` or `speakQueue`. */
  predicate IsSpeakRequest(e: Event) {
    e.SpeakCalled? || e.SpeakQueueCalled?
  }

  /** The state, effects and (for a speak request) the Boolean result of
      one event. */
  datatype Response = Response(state: Session, trace: seq<Effect>, speakResult: Option<bool>)

  function FromStep(r: Step): Response {
    Response(r.state, r.trace, None)
  }

  function FromSpeak(r: SpeakStep): Response {
    Response(r.state, r.trace, Some(r.verdict.Returned()))
  }

  /** One event applied to the manager. */
  function Apply(s: Session, e: Event): (r: Response)
    ensures r.speakResult.Some? <==> IsSpeakRequest(e)
    ensures IsSpeakRequest(e) && !s.IsReady() ==> r.speakResult == Some(false) && r.trace == []
    ensures !e.EngineInitDone? && !s.IsReady() ==> !r.state.IsReady()
  {
    match e
    case InitializeCalled(cb) => FromStep(Initialize(s, cb))
    case EngineInitDone(initStatus, langResult) => FromStep(OnInitResult(s, initStatus, langResult))
    case SpeakCalled(text, id, result) => FromSpeak(Speak(s, text, id, result))
    case SpeakQueueCalled(text, id, result) => FromSpeak(SpeakQueue(s, text, id, result))
    case StopCalled => FromStep(Stop(s))
    case SpeechRateSet(rate) => FromStep(SetSpeechRate(s, rate))
    case PitchSet(pitch) => FromStep(SetPitch(s, pitch))
    case StartReported(id) => FromStep(OnStart(s, id))
    case DoneReported(id) => FromStep(OnDone(s, id))
    case LegacyErrorReported(id) => FromStep(OnErrorDeprecated(s, id))
    case ErrorReported(id, code) => FromStep(OnError(s, id, code))
    case StartListenerSet(cb) => Response(s.(listeners := s.listeners.(onStart := Some(cb))), [], None)
    case DoneListenerSet(cb) => Response(s.(listeners := s.listeners.(onDone := Some(cb))), [], None)
    case ErrorListenerSet(cb) => Response(s.(listeners := s.listeners.(onError := Some(cb))), [], None)
    case ShutdownCalled => FromStep(Shutdown(s))
  }

  /** The outcome of a sequence of events: final state, all effects in order
      and the results of the speak requests in order. */
  datatype Outcome = Outcome(state: Session, trace: seq<Effect>, speakResults: seq<bool>)

  /** How many of `events` are speak requests. */
  function SpeakRequestCount(events: seq<Event>): nat
    decreases |events|
  {
    if events == [] then 0
    else (if IsSpeakRequest(events[0]) then 1 else 0) + SpeakRequestCount(events[1..])
  }

  /** Every speak request in a run, and nothing else, contributes one result. */
  function Run(s: Session, events: seq<Event>): (r: Outcome)
    ensures |r.speakResults| == SpeakRequestCount(events)
    decreases |events|
  {
    if events == [] then Outcome(s, [], [])
    else
      var first := Apply(s, events[0]);
      var rest := Run(first.state, events[1..]);
      Outcome(rest.state,
              first.trace + rest.trace,
              (if first.speakResult.Some? then [first.speakResult.value] else []) + rest.speakResults)
  }

  /** What holds of every manager state reachable from a new manager: the
      status is SPEAKING only while `isSpeaking` is set, and INITIALIZING
      only while an engine handle exists. (Other flag combinations are
      reachable; see the lemmas below.) */
  predicate Consistent(s: Session) {
    && (s.status == Speaking ==> s.speaking)
    && (s.status == Initializing ==> s.hasEngine)
  }

  lemma ApplyPreservesConsistent(s: Session, e: Event)
    requires Consistent(s)
    ensures Consistent(Apply(s, e).state)
  {
  }

  lemma {:induction false} RunPreservesConsistent(s: Session, events: seq<Event>)
    requires Consistent(s)
    ensures Consistent(Run(s, events).state)
    decreases |events|
  {
    if events != [] {
      ApplyPreservesConsistent(s, events[0]);
      RunPreservesConsistent(Apply(s, events[0]).state, events[1..]);
    }
  }

  /** Every state a new manager can reach is consistent. */
  lemma ReachableIsConsistent(events: seq<Event>)
    ensures Consistent(Run(NewSession, events).state)
  {
    RunPreservesConsistent(NewSession, events);
  }

  /** A manager that is not ready stays not ready until the engine reports a
      successful init, and until then no utterance ever reaches the engine
      and every `speak`/`speakQueue` returns false. */
  lemma {:induction false} NotReadyNeverSpeaks(s: Session, events: seq<Event>)
    requires !s.IsReady()
    requires forall i :: 0 <= i < |events| ==> !events[i].EngineInitDone?
    ensures !Run(s, events).state.IsReady()
    ensures forall c :: c in Commands(Run(s, events).trace) ==> !c.EngineSpeak?
    ensures forall i :: 0 <= i < |Run(s, events).speakResults| ==> !Run(s, events).speakResults[i]
    decreases |events|
  {
    if events != [] {
      var first := Apply(s, events[0]);
      NotReadyNeverSpeaks(first.state, events[1..]);
      NoSpeakCommand(s, events[0]);
      CommandsAppend(first.trace, Run(first.state, events[1..]).trace);
    }
  }

  /** An event applied to a manager that is not ready submits no utterance. */
  lemma NoSpeakCommand(s: Session, e: Event)
    requires !s.IsReady() && !e.EngineInitDone?
    ensures forall c :: c in Commands(Apply(s, e).trace) ==> !c.EngineSpeak?
  {
  }

  /** After shutdown, and until `initialize` is called again (or a pending
      init callback arrives), the engine is never called at all and every
      speak request returns false. */
  lemma {:induction false} ShutDownStaysSilent(s: Session, events: seq<Event>)
    requires !s.hasEngine && !s.IsReady()
    requires forall i :: 0 <= i < |events| ==>
               !events[i].InitializeCalled? && !events[i].EngineInitDone?
    ensures Commands(Run(s, events).trace) == []
    ensures !Run(s, events).state.hasEngine && !Run(s, events).state.IsReady()
    ensures forall i :: 0 <= i < |Run(s, events).speakResults| ==> !Run(s, events).speakResults[i]
    decreases |events|
  {
    if events != [] {
      var first := Apply(s, events[0]);
      assert Commands(first.trace) == [];
      ShutDownStaysSilent(first.state, events[1..]);
      CommandsAppend(first.trace, Run(first.state, events[1..]).trace);
    }
  }

  /** `speak` and `speakQueue` behave identically except for the queue mode
      they hand to the engine. */
  lemma SpeakModesDifferOnlyInQueueMode(s: Session, text: string, id: string, engineResult: int)
    ensures Speak(s, text, id, engineResult).state == SpeakQueue(s, text, id, engineResult).state
    ensures Speak(s, text, id, engineResult).verdict == SpeakQueue(s, text, id, engineResult).verdict
    ensures |Speak(s, text, id, engineResult).trace| == |SpeakQueue(s, text, id, engineResult).trace|
    ensures Speak(s, text, id, engineResult).trace != [] ==>
              Speak(s, text, id, engineResult).trace == [Command(EngineSpeak(text, QueueFlush, id))]
              && SpeakQueue(s, text, id, engineResult).trace == [Command(EngineSpeak(text, QueueAdd, id))]
  {
  }

  /** Re-initialising a ready manager keeps `isReady()` true while the
      status reads INITIALIZING, and speech requests are still accepted. */
  lemma ReinitializeWhileReady(s: Session, cb: CallbackId, text: string, id: string)
    requires s.IsReady() && s.hasEngine && !KotlinText.IsBlank(text)
    ensures Initialize(s, cb).state.IsReady()
    ensures Initialize(s, cb).state.GetStatus() == Initializing
    ensures Speak(Initialize(s, cb).state, text, id, EngineSuccess).verdict.Returned()
  {
  }

  /** A per-utterance error leaves the session ready: the status reads
      ERROR, yet the next non-blank request is submitted as usual. */
  lemma UtteranceErrorKeepsSessionUsable(s: Session, id: string, code: int, text: string, next: string)
    requires s.IsReady() && s.hasEngine && !KotlinText.IsBlank(text)
    ensures OnError(s, Some(id), code).state.GetStatus() == Error
    ensures Speak(OnError(s, Some(id), code).state, text, next, EngineSuccess).verdict.Returned()
  {
  }

  /** Calling `initialize` while speech is under way and then having the
      engine fail leaves `isSpeaking()` true with the status ERROR: the
      flags are independent, not one state. */
  lemma InitFailureWhileSpeaking(s: Session, cb: CallbackId, failure: int, langResult: int)
    requires s.IsSpeaking() && failure != EngineSuccess
    ensures var r := OnInitResult(Initialize(s, cb).state, failure, langResult).state;
            r.IsSpeaking() && r.GetStatus() == Error && !r.IsReady()
  {
  }

  /** `stop()` twice is `stop()` once. */
  lemma StopIdempotent(s: Session)
    ensures Stop(Stop(s).state).state == Stop(s).state
    ensures Commands(Stop(Stop(s).state).trace) == Commands(Stop(s).trace)
  {
  }

  // Concrete sessions.

  const Hello: string := "hello"

  lemma HelloIsNotBlank()
    ensures !KotlinText.IsBlank(Hello)
  {
    assert !KotlinText.IsWhitespace(Hello[0]);
  }

  /** Listeners set, initialise, speak "hello" as "u1", hear it start and
      finish. Initialisation configures the engine and reports true; the
      utterance goes to the engine with QUEUE_FLUSH and the call returns
      true; the start notification makes the session SPEAKING and reaches
      the start listener; the done notification makes it IDLE again and
      reaches the done listener. */
  lemma HelloScenario()
    ensures
      var s0 := NewSession.(listeners := Listeners(None, Some(1), Some(2), None));
      var init := Initialize(s0, 0);
      var ready := OnInitResult(init.state, EngineSuccess, LangAvailable);
      var spoken := Speak(ready.state, Hello, "u1", EngineSuccess);
      var started := OnStart(spoken.state, Some("u1"));
      var done := OnDone(started.state, Some("u1"));
      && ready.state.IsReady() && ready.state.GetStatus() == Idle
      && Commands(ready.trace) == [SetLanguage(Thai), SetEngineRate(Config.SpeechRate),
                                   SetEnginePitch(Config.SpeechPitch), RegisterProgressListener]
      && Invocations(ready.trace) == [Invoked(0, InitResult(true))]
      && spoken.verdict.Returned() && spoken.trace == [Command(EngineSpeak(Hello, QueueFlush, "u1"))]
      && started.state.IsSpeaking() && started.state.GetStatus() == Speaking
      && started.trace == [Invoked(1, Started("u1"))]
      && !done.state.IsSpeaking() && done.state.GetStatus() == Idle && done.state.IsReady()
      && done.trace == [Invoked(2, Done("u1"))]
  {
    var listeners := Listeners(None, Some(1), Some(2), None);
    var s0 := NewSession.(listeners := listeners);
    var init := Initialize(s0, 0);
    assert init.state == Session(true, false, false, Initializing, listeners.(onInit := Some(0)));
    var ready := OnInitResult(init.state, EngineSuccess, LangAvailable);
    assert ready.state == Session(true, true, false, Idle, listeners.(onInit := Some(0)));
    HelloIsNotBlank();
    var spoken := Speak(ready.state, Hello, "u1", EngineSuccess);
    assert spoken.state == ready.state;
    var started := OnStart(spoken.state, Some("u1"));
    assert started.state == Session(true, true, true, Speaking, listeners.(onInit := Some(0)));
  }

  /** Thai data missing: initialisation fails with `onComplete(false)`,
      `isReady()` is false and a later `speak` returns false without
      reaching the engine. */
  lemma MissingLanguageScenario()
    ensures
      var init := Initialize(NewSession, 0);
      var failed := OnInitResult(init.state, EngineSuccess, LangMissingData);
      var spoken := Speak(failed.state, Hello, "u1", EngineSuccess);
      && !failed.state.IsReady() && failed.state.GetStatus() == Error
      && Commands(failed.trace) == [SetLanguage(Thai)]
      && Invocations(failed.trace) == [Invoked(0, InitResult(false))]
      && spoken.verdict == NotInitialized && spoken.trace == []
  {
  }

  /** A shutdown between `initialize` and the engine's init callback: the
      handle is gone, so `setLanguage` is never asked and cannot refuse; the
      session ends up ready with no engine, and `speak` then returns false
      (the call on the missing handle yields `null`) without an engine call. */
  lemma ShutdownBeforeInitCallbackScenario()
    ensures
      var init := Initialize(NewSession, 0);
      var down := Shutdown(init.state);
      var late := OnInitResult(down.state, EngineSuccess, LangMissingData);
      var spoken := Speak(late.state, Hello, "u1", EngineSuccess);
      && late.state.IsReady() && !late.state.hasEngine
      && Commands(late.trace) == [] && Invocations(late.trace) == [Invoked(0, InitResult(true))]
      && spoken.verdict == EngineRefused && spoken.trace == []
  {
    HelloIsNotBlank();
  }
}
