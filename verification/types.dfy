/**
 * The shared vocabulary of the logger: severity levels, log entries and the
 * thrown error value.
 */
module Types {
  import opened Wrappers
  import opened Records

  /** Severity of a log call. Declaration order is the severity order. */
  datatype LogLevel = Debug | Info | Warn | Error

  /** The numeric enum value of a level. */
  function Ordinal(l: LogLevel): (n: nat)
    ensures n < 4
  {
    match l
    case Debug => 0
    case Info => 1
    case Warn => 2
    case Error => 3
  }

  /** The level whose enum value is `n`, if there is one. */
  function FromOrdinal(n: int): (r: Option<LogLevel>)
    ensures r.Some? <==> 0 <= n < 4
    ensures r.Some? ==> Ordinal(r.value) == n
  {
    if n == 0 then Some(Debug)
    else if n == 1 then Some(Info)
    else if n == 2 then Some(Warn)
    else if n == 3 then Some(Error)
    else None
  }

  /** `a` is strictly less severe than `b`. */
  predicate Below(a: LogLevel, b: LogLevel) {
    Ordinal(a) < Ordinal(b)
  }

  lemma OrdinalRoundTrip(l: LogLevel)
    ensures FromOrdinal(Ordinal(l)) == Some(l)
  {
  }

  /** The severity order is a strict total order with DEBUG least and ERROR greatest. */
  lemma LevelOrderIsStrictTotal()
    ensures forall a :: !Below(a, a)
    ensures forall a, b, c :: Below(a, b) && Below(b, c) ==> Below(a, c)
    ensures forall a, b :: a != b ==> Below(a, b) || Below(b, a)
    ensures Below(Debug, Info) && Below(Info, Warn) && Below(Warn, Error)
  {
  }

  /** The enum member name, used as the printed label (`LogLevel[level]`). */
  function Label(l: LogLevel): (s: string)
    ensures |s| > 0
    ensures forall i :: 0 <= i < |s| ==> 'A' <= s[i] <= 'Z'
  {
    match l
    case Debug => "DEBUG"
    case Info => "INFO"
    case Warn => "WARN"
    case Error => "ERROR"
  }

  /** The level named by `s` (`LogLevel[s]` as a reverse lookup). */
  function LevelFromLabel(s: string): Option<LogLevel> {
    if s == "DEBUG" then Some(Debug)
    else if s == "INFO" then Some(Info)
    else if s == "WARN" then Some(Warn)
    else if s == "ERROR" then Some(Error)
    else None
  }

  /** Labels name levels one-to-one. */
  lemma LabelRoundTrip(l: LogLevel, s: string)
    ensures LevelFromLabel(s) == Some(l) <==> Label(l) == s
  {
  }

  /** The three parts of a JavaScript `Error` that the formatters read. */
  datatype ErrorInfo = ErrorInfo(name: string, message: string, stack: string)

  /** One log call's record. The timestamp is already rendered as ISO-8601 text. */
  datatype LogEntry = LogEntry(
    level: LogLevel,
    timestamp: string,
    message: string,
    context: Option<Record>,
    error: Option<ErrorInfo>)

  /** `JSON.stringify(value, null, indent)`, supplied from outside. */
  type Serializer = (Value, nat) -> string

  /** A thrown `TypeError` and its message. */
  datatype TypeError = TypeError(message: string)
}
