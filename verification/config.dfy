/**
  The application's static configuration (`Config`): the shipped constants
  the speech core reads, and the fail-fast `validate()` run once at start-up.

  Floating-point settings are real numbers here. A Kotlin `Float` literal
  denotes the nearest single-precision value, so `0.9f` is written out
  exactly as 15099494 / 2^24; `0.5f`, `1.0f` and `2.0f` are exact already.
 */
module Config {

  import opened Wrappers

  /** Milliseconds between reconnection attempts (`RECONNECT_DELAY = 5000L`). */
  const ReconnectDelay: int := 5000

  /** `SPEECH_RATE = 0.9f`, as the single-precision value it denotes. */
  const SpeechRate: real := 15099494.0 / 16777216.0

  /** `SPEECH_PITCH = 1.0f`. */
  const SpeechPitch: real := 1.0

  /** `LOG_LEVEL = "DEBUG"`: the configured logging threshold. */
  const LogLevel: string := "DEBUG"

  /** `LOG_TAG`: the tag every log line is written under. */
  const LogTag: string := "RemanTTS"

  /** Bounds of the closed range `0.5f..2.0f` used for rate and pitch. */
  const MinSpeechParam: real := 0.5
  const MaxSpeechParam: real := 2.0

  /** Kotlin's `x in 0.5f..2.0f`. */
  predicate InSpeechRange(x: real) {
    MinSpeechParam <= x <= MaxSpeechParam
  }

  /** The smallest reconnect delay `validate()` accepts. */
  const MinReconnectDelay: int := 1000

  /** Which check of `validate()` failed; each one logs its own message. */
  datatype ConfigError = InvalidSpeechRate | InvalidSpeechPitch | InvalidReconnectDelay

  /** The checks of `validate()` in their order (rate, pitch, delay): the
      first one that fails is the one reported, `None` when all pass. */
  function FirstFailure(rate: real, pitch: real, reconnectDelay: int): (r: Option<ConfigError>)
    ensures r == None <==>
              InSpeechRange(rate) && InSpeechRange(pitch) && reconnectDelay >= MinReconnectDelay
    ensures r == Some(InvalidSpeechRate) <==> !InSpeechRange(rate)
    ensures r == Some(InvalidSpeechPitch) <==> InSpeechRange(rate) && !InSpeechRange(pitch)
    ensures r == Some(InvalidReconnectDelay) <==>
              InSpeechRange(rate) && InSpeechRange(pitch) && reconnectDelay < MinReconnectDelay
  {
    if !InSpeechRange(rate) then Some(InvalidSpeechRate)
    else if !InSpeechRange(pitch) then Some(InvalidSpeechPitch)
    else if reconnectDelay < MinReconnectDelay then Some(InvalidReconnectDelay)
    else None
  }

  /** `validate()` over arbitrary settings: true exactly when no check fails. */
  function Validate(rate: real, pitch: real, reconnectDelay: int): (ok: bool)
    ensures !InSpeechRange(rate) ==> !ok
    ensures !InSpeechRange(pitch) ==> !ok
    ensures reconnectDelay < MinReconnectDelay ==> !ok
    ensures ok <==> 0.5 <= rate <= 2.0 && 0.5 <= pitch <= 2.0 && reconnectDelay >= 1000
  {
    FirstFailure(rate, pitch, reconnectDelay).None?
  }

  /** The order of the checks matters only for what is reported: whatever
      the other settings, a bad rate is reported as the rate. */
  lemma RateReportedFirst(rate: real, pitch: real, pitch': real, delay: int, delay': int)
    requires !InSpeechRange(rate)
    ensures FirstFailure(rate, pitch, delay) == FirstFailure(rate, pitch', delay')
    ensures FirstFailure(rate, pitch, delay) == Some(InvalidSpeechRate)
  {
  }

  /** The shipped constants pass `validate()`, so start-up goes ahead. */
  lemma ShippedConfigIsValid()
    ensures Validate(SpeechRate, SpeechPitch, ReconnectDelay)
    ensures FirstFailure(SpeechRate, SpeechPitch, ReconnectDelay) == None
  {
  }
}
