/** Log levels, log fields and the log record (log.go). */
module Log {
  import opened Wrappers

  /** A Go `LogLevel`: any `int`, of which the first five are named. */
  type LogLevel = int

  const Debug: LogLevel := 0
  const Info: LogLevel := 1
  const Warning: LogLevel := 2
  const Error: LogLevel := 3
  const Fatal: LogLevel := 4

  predicate IsLevel(l: LogLevel)
  {
    Debug <= l <= Fatal
  }

  /** `LogLevel.String`: the upper-case name of a named level, and the empty
      string for every other value. */
  function LevelLabel(l: LogLevel): (s: string)
    ensures s != "" <==> IsLevel(l)
    ensures IsLevel(l) ==> LevelOf(s) == Some(l)
  {
    match l
    case 0 => "DEBUG"
    case 1 => "INFO"
    case 2 => "WARNING"
    case 3 => "ERROR"
    case 4 => "FATAL"
    case _ => ""
  }

  /** The level a label names, the inverse of `LevelLabel` on named levels. */
  function LevelOf(s: string): Option<LogLevel>
  {
    if s == "DEBUG" then Some(Debug)
    else if s == "INFO" then Some(Info)
    else if s == "WARNING" then Some(Warning)
    else if s == "ERROR" then Some(Error)
    else if s == "FATAL" then Some(Fatal)
    else None
  }

  /** Distinct named levels have distinct labels. */
  lemma LevelLabelInjective(a: LogLevel, b: LogLevel)
    requires IsLevel(a) && IsLevel(b) && LevelLabel(a) == LevelLabel(b)
    ensures a == b
  {
    assert LevelOf(LevelLabel(a)) == Some(a);
  }

  /** A Go `LogField`: any `int`, of which the first seven are named. */
  type LogField = int

  const Level: LogField := 0
  const Tags: LogField := 1
  const CallerFile: LogField := 2
  const CallerLine: LogField := 3
  const CallerFunction: LogField := 4
  const Message: LogField := 5
  const Timestamp: LogField := 6

  predicate IsField(f: LogField)
  {
    Level <= f <= Timestamp
  }

  /** `LogField.String`: the column label of a named field, and the empty
      string for every other value. */
  function FieldLabel(f: LogField): (s: string)
    ensures s != "" <==> IsField(f)
    ensures IsField(f) ==> FieldOf(s) == Some(f)
  {
    match f
    case 0 => "level"
    case 1 => "tags"
    case 2 => "caller_file"
    case 3 => "caller_line"
    case 4 => "caller_function"
    case 5 => "message"
    case 6 => "time"
    case _ => ""
  }

  /** The field a column label names, the inverse of `FieldLabel`. */
  function FieldOf(s: string): Option<LogField>
  {
    if s == "level" then Some(Level)
    else if s == "tags" then Some(Tags)
    else if s == "caller_file" then Some(CallerFile)
    else if s == "caller_line" then Some(CallerLine)
    else if s == "caller_function" then Some(CallerFunction)
    else if s == "message" then Some(Message)
    else if s == "time" then Some(Timestamp)
    else None
  }

  lemma FieldLabelInjective(a: LogField, b: LogField)
    requires IsField(a) && IsField(b) && FieldLabel(a) == FieldLabel(b)
    ensures a == b
  {
    assert FieldOf(FieldLabel(a)) == Some(a);
  }

  /** The `log` record. The timestamp is kept as the text it was parsed from:
      date parsing is not part of this model. */
  datatype LogRecord = LogRecord(
    level: LogLevel,
    tags: seq<string>,
    callerFile: string,
    callerLine: int,
    callerFunction: string,
    message: string,
    timestamp: string)
}
