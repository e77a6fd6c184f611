/**
 * The six NestJS log levels, the threshold test used to gate notifications
 * (logger.service.ts lines 24-26) and the level label written on each line
 * (logger.service.ts line 62).
 */
module Levels {
  import opened Wrappers

  /** NestJS's LogLevel, in its LOG_LEVELS order: verbose < debug < log < warn < error < fatal. */
  datatype LogLevel = Verbose | Debug | Log | Warn | Error | Fatal

  function Name(l: LogLevel): string {
    match l
    case Verbose => "verbose"
    case Debug => "debug"
    case Log => "log"
    case Warn => "warn"
    case Error => "error"
    case Fatal => "fatal"
  }

  /** `LOG_LEVELS.includes(s)`, answering with the level that s names. */
  function Parse(s: string): (r: Option<LogLevel>)
    ensures forall l :: r == Some(l) <==> Name(l) == s
  {
    if s == "verbose" then Some(Verbose)
    else if s == "debug" then Some(Debug)
    else if s == "log" then Some(Log)
    else if s == "warn" then Some(Warn)
    else if s == "error" then Some(Error)
    else if s == "fatal" then Some(Fatal)
    else None
  }

  function Rank(l: LogLevel): nat {
    match l
    case Verbose => 0
    case Debug => 1
    case Log => 2
    case Warn => 3
    case Error => 4
    case Fatal => 5
  }

  /**
   * NestJS's `isLogLevelEnabled(level, [threshold])`: with a single threshold
   * a level is enabled when it is the threshold or ranks above it.
   */
  predicate IsLogLevelEnabled(level: LogLevel, threshold: LogLevel) {
    Rank(level) >= Rank(threshold)
  }

  /** String.prototype.toUpperCase restricted to ASCII letters. */
  function UpperChar(c: char): char {
    if 'a' <= c <= 'z' then (c as int - 32) as char else c
  }

  /**
   * The label written for each level, `logLevel.toUpperCase().padStart(7, " ")`,
   * tabulated; LabelShape states that the table is that expression.
   */
  function Label(l: LogLevel): (r: string)
    ensures |r| == 7
  {
    match l
    case Verbose => "VERBOSE"
    case Debug => "  DEBUG"
    case Log => "    LOG"
    case Warn => "   WARN"
    case Error => "  ERROR"
    case Fatal => "  FATAL"
  }

  /**
   * Every level label is the level name upper-cased and left-padded with
   * spaces to seven characters.
   */
  lemma LabelShape(l: LogLevel)
    ensures |Name(l)| <= 7 && |Label(l)| == 7
    ensures forall i :: 0 <= i < 7 - |Name(l)| ==> Label(l)[i] == ' '
    ensures forall i :: 0 <= i < |Name(l)| ==> Label(l)[7 - |Name(l)| + i] == UpperChar(Name(l)[i])
  {
  }
}
