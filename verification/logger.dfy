/**
  The logging utility (`Logger`): severity filtering against the configured
  level, the `[TIMESTAMP] [LEVEL] [COMPONENT] Message` line format, and the
  gate in `log` that writes nothing for a filtered message.

  The wall clock is a parameter: `Format` receives the timestamp text that
  `SimpleDateFormat("yyyy-MM-dd HH:mm:ss")` would have produced. Android's
  `Log.d/i/w/e` become `LogCall` records returned to the caller.
 */
module Logger {

  import opened Wrappers
  import Config

  /** Message severities, in increasing order. */
  datatype Level = Debug | Info | Warn | Error {

    /** Kotlin's `Level.name`. */
    function Name(): string {
      match this
      case Debug => "DEBUG"
      case Info => "INFO"
      case Warn => "WARN"
      case Error => "ERROR"
    }

    /** Position in the order DEBUG < INFO < WARN < ERROR. */
    function Severity(): nat {
      match this
      case Debug => 0
      case Info => 1
      case Warn => 2
      case Error => 3
    }
  }

  /** `Level.valueOf`: the level whose name is `name`, if any. */
  function LevelNamed(name: string): (r: Option<Level>)
    ensures r.Some? ==> r.value.Name() == name
    ensures forall l: Level :: l.Name() == name ==> r == Some(l)
  {
    if name == "DEBUG" then Some(Debug)
    else if name == "INFO" then Some(Info)
    else if name == "WARN" then Some(Warn)
    else if name == "ERROR" then Some(Error)
    else None
  }

  /** The least severity that passes under a configured level string. An
      unrecognised string passes everything, like "DEBUG". */
  function MinSeverity(configured: string): nat {
    match LevelNamed(configured)
    case Some(l) => l.Severity()
    case None => 0
  }

  /** `shouldLog`, with the configured level as a parameter: the `when`
      table over the four recognised strings, logging everything otherwise.
      It is exactly a severity threshold. */
  function ShouldLog(configured: string, level: Level): (r: bool)
    ensures r <==> level.Severity() >= MinSeverity(configured)
  {
    if configured == "DEBUG" then true
    else if configured == "INFO" then level != Debug
    else if configured == "WARN" then level == Warn || level == Error
    else if configured == "ERROR" then level == Error
    else true
  }

  lemma DebugLogsEverything(level: Level)
    ensures ShouldLog("DEBUG", level)
  {
  }

  lemma InfoDropsOnlyDebug(level: Level)
    ensures ShouldLog("INFO", level) <==> level != Debug
  {
  }

  lemma WarnKeepsWarnAndError(level: Level)
    ensures ShouldLog("WARN", level) <==> level in {Warn, Error}
    ensures ShouldLog("ERROR", level) <==> level == Error
  {
  }

  lemma UnrecognisedLevelLogsEverything(configured: string, level: Level)
    requires configured !in ["DEBUG", "INFO", "WARN", "ERROR"]
    ensures ShouldLog(configured, level)
  {
  }

  /** ERROR passes every configuration, and passing is upward closed in
      severity: what passes at one level passes at every higher one. */
  lemma FilterIsMonotone(configured: string, lower: Level, higher: Level)
    requires lower.Severity() <= higher.Severity()
    ensures ShouldLog(configured, Error)
    ensures ShouldLog(configured, lower) ==> ShouldLog(configured, higher)
  {
  }

  /** With the shipped `LOG_LEVEL`, nothing is filtered. */
  lemma ShippedLevelLogsEverything(level: Level)
    ensures ShouldLog(Config.LogLevel, level)
  {
  }

  /** `formatMessage` with the timestamp text as a parameter. The line opens
      with the bracketed timestamp, closes with the message, and adds nine
      characters of brackets and spaces to the four fields; `FormatParses`
      shows that the fields can be read back. */
  function Format(timestamp: string, level: Level, component: string, message: string): (line: string)
    ensures |line| == |timestamp| + |level.Name()| + |component| + |message| + 9
    ensures "[" + timestamp <= line
    ensures line[|line| - |message|..] == message
  {
    "[" + (timestamp + ("] [" + (level.Name() + ("] [" + (component + ("] " + message))))))
  }

  /** One call to `android.util.Log`: its priority, its tag and its text. */
  datatype LogCall = LogCall(priority: Level, tag: string, text: string)

  /** `log`: nothing when the level is filtered out; otherwise the formatted
      line at the message's own priority under `LOG_TAG`, followed by an
      "Exception: " line when a throwable (given by its rendering) is attached. */
  function Log(configured: string, timestamp: string, level: Level, component: string,
               message: string, throwable: Option<string>): (calls: seq<LogCall>)
    ensures calls == [] <==> !ShouldLog(configured, level)
    ensures |calls| <= 2 && (|calls| == 2 <==> ShouldLog(configured, level) && throwable.Some?)
    ensures forall i :: 0 <= i < |calls| ==> calls[i].priority == level && calls[i].tag == Config.LogTag
    ensures calls != [] ==> calls[0].text == Format(timestamp, level, component, message)
    ensures |calls| == 2 ==> calls[1].text == "Exception: " + throwable.value
  {
    if !ShouldLog(configured, level) then []
    else [LogCall(level, Config.LogTag, Format(timestamp, level, component, message))] + ExceptionCall(level, throwable)
  }

  /** The extra `"Exception: "` line `log` writes for an attached throwable. */
  function ExceptionCall(level: Level, throwable: Option<string>): (calls: seq<LogCall>)
    ensures |calls| == (if throwable.Some? then 1 else 0)
    ensures forall i :: 0 <= i < |calls| ==> calls[i].priority == level && calls[i].tag == Config.LogTag
    ensures throwable.Some? ==> calls[0].text == "Exception: " + throwable.value
  {
    match throwable
    case Some(t) => [LogCall(level, Config.LogTag, "Exception: " + t)]
    case None => []
  }

  /** A written log line carries the message's fields recoverably: reading
      the first line back yields the timestamp, level, component and message
      it was built from. */
  lemma LoggedLineReadsBack(configured: string, timestamp: string, level: Level, component: string,
                            message: string, throwable: Option<string>)
    requires ShouldLog(configured, level)
    requires ']' !in timestamp && ']' !in component
    ensures var calls := Log(configured, timestamp, level, component, message, throwable);
            |calls| >= 1 && ParseLine(calls[0].text) == Some(LogLine(timestamp, level, component, message))
  {
    FormatParses(timestamp, level, component, message);
  }

  /** The fields of a formatted line. */
  datatype LogLine = LogLine(timestamp: string, level: Level, component: string, message: string)

  /** The first index at or after `from` where `s` holds `c`, if any. */
  function IndexOf(s: string, c: char, from: nat): (r: Option<nat>)
    requires from <= |s|
    ensures r.Some? ==> from <= r.value < |s| && s[r.value] == c
    ensures r.Some? ==> c !in s[from..r.value]
    ensures r.None? ==> c !in s[from..]
    decreases |s| - from
  {
    if from == |s| then None
    else if s[from] == c then Some(from)
    else IndexOf(s, c, from + 1)
  }

  /** The text after `literal` when `s` starts with it. */
  function Expect(literal: string, s: string): (r: Option<string>)
    ensures r.Some? <==> literal <= s
    ensures r.Some? ==> s == literal + r.value
  {
    if literal <= s then Some(s[|literal|..]) else None
  }

  /** Splits `s` before its first `]`: the field and the rest, which starts
      with `]`. */
  function ReadField(s: string): (r: Option<(string, string)>)
    ensures r.Some? ==> ']' !in r.value.0 && s == r.value.0 + r.value.1
    ensures r.Some? ==> |r.value.1| > 0 && r.value.1[0] == ']'
    ensures r.None? ==> ']' !in s
  {
    match IndexOf(s, ']', 0)
    case None => None
    case Some(e) => Some((s[..e], s[e..]))
  }

  /** `IndexOf` finds the first occurrence: when the `len` characters from
      `from` on avoid `c` and the next one is `c`, that next one is found. */
  lemma IndexOfSkips(s: string, c: char, from: nat, len: nat)
    requires from + len < |s|
    requires c !in s[from..from + len] && s[from + len] == c
    ensures IndexOf(s, c, from) == Some(from + len)
  {
  }

  lemma ReadFieldOf(field: string, rest: string)
    requires ']' !in field && |rest| > 0 && rest[0] == ']'
    ensures ReadField(field + rest) == Some((field, rest))
  {
    var s := field + rest;
    assert s[0..|field|] == field;
    IndexOfSkips(s, ']', 0, |field|);
    assert s[..|field|] == field && s[|field|..] == rest;
  }

  /** Reads a line of the form `[T] [L] [C] M` back into its fields, taking
      T and C up to the first `]` after their opening bracket. */
  function ParseLine(line: string): Option<LogLine> {
    match Expect("[", line)
    case None => None
    case Some(r1) =>
      match ReadField(r1)
      case None => None
      case Some((timestamp, r2)) =>
        match Expect("] [", r2)
        case None => None
        case Some(r3) =>
          match ReadField(r3)
          case None => None
          case Some((name, r4)) =>
            match Expect("] [", r4)
            case None => None
            case Some(r5) =>
              match ReadField(r5)
              case None => None
              case Some((component, r6)) =>
                match Expect("] ", r6)
                case None => None
                case Some(message) =>
                  match LevelNamed(name)
                  case None => None
                  case Some(level) => Some(LogLine(timestamp, level, component, message))
  }

  /** Formatting loses nothing: as long as neither the timestamp nor the
      component contains `]`, the four fields can be read back from the line. */
  lemma FormatParses(timestamp: string, level: Level, component: string, message: string)
    requires ']' !in timestamp && ']' !in component
    ensures ParseLine(Format(timestamp, level, component, message)) ==
            Some(LogLine(timestamp, level, component, message))
  {
    var line := Format(timestamp, level, component, message);
    FieldsParse(timestamp, level.Name(), component, message);
    assert LevelNamed(level.Name()) == Some(level);
  }

  lemma FieldsParse(timestamp: string, name: string, component: string, message: string)
    requires ']' !in timestamp && ']' !in name && ']' !in component
    ensures var r1 := timestamp + ("] [" + (name + ("] [" + (component + ("] " + message)))));
            ParseLine("[" + r1) ==
            (match LevelNamed(name)
             case None => None
             case Some(level) => Some(LogLine(timestamp, level, component, message)))
  {
    var r6 := "] " + message;
    var r5 := component + r6;
    var r4 := "] [" + r5;
    var r3 := name + r4;
    var r2 := "] [" + r3;
    var r1 := timestamp + r2;
    assert Expect("[", "[" + r1) == Some(r1);
    ReadFieldOf(timestamp, r2);
    assert Expect("] [", r2) == Some(r3);
    ReadFieldOf(name, r4);
    assert Expect("] [", r4) == Some(r5);
    ReadFieldOf(component, r6);
    assert Expect("] ", r6) == Some(message);
  }
}
