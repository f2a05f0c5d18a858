/**
 * The logger: construction with defaulting, the level gate, and one log call as
 * gate -> entry -> format -> transport. A call is modelled by the trace it leaves:
 * the entries handed to the formatter, the strings handed to the transport, and the
 * console writes that result.
 */
module Logging {
  import opened Wrappers
  import opened Records
  import opened Types
  import opened Formatters
  import opened Transports

  /** A property of a configuration object: missing, present but `undefined`, or given. */
  datatype Field<T> = Absent | Undefined | Given(value: T)

  /** A `LoggerConfig` object as a caller may pass it. */
  datatype LoggerConfig = LoggerConfig(
    level: Field<LogLevel>,
    format: Field<Formatter>,
    transport: Field<Transport>,
    context: Field<Record>)

  /**
   * A constructed logger and its resolved configuration. `level` is `None` when the
   * configuration had a `level` key whose value was `undefined`.
   */
  datatype Logger = Logger(level: Option<LogLevel>, format: Formatter, transport: Transport, context: Record)

  const MissingLevelMessage := "Tried to construct Logger instance without log level parameter."

  /** `field || fallback` for object-valued fields: anything given wins. */
  function OrElse<T>(f: Field<T>, fallback: T): T {
    if f.Given? then f.value else fallback
  }

  /** `lg` is what the configuration `c` resolves to: each omitted optional part takes its default. */
  ghost predicate Resolves(c: LoggerConfig, lg: Logger) {
    && (lg.level.Some? <==> c.level.Given?)
    && (c.level.Given? ==> lg.level.value == c.level.value)
    && (if c.format.Given? then lg.format == c.format.value else lg.format == DefaultFormatter)
    && (if c.transport.Given? then lg.transport == c.transport.value else lg.transport == DefaultTransport())
    && (if c.context.Given? then lg.context == c.context.value else lg.context == [])
  }

  /** `new Logger(config)`: throws unless the configuration object exists and has a `level` key. */
  function NewLogger(config: Option<LoggerConfig>): (r: Result<Logger, TypeError>)
    ensures r.Failure? <==> config.None? || config.value.level.Absent?
    ensures r.Failure? ==> r.error == TypeError(MissingLevelMessage)
    ensures r.Success? ==> Resolves(config.value, r.value)
  {
    match config
    case None => Failure(TypeError(MissingLevelMessage))
    case Some(c) =>
      if c.level.Absent? then Failure(TypeError(MissingLevelMessage))
      else
        Success(Logger(
          if c.level.Given? then Some(c.level.value) else None,
          OrElse(c.format, DefaultFormatter),
          OrElse(c.transport, DefaultTransport()),
          OrElse(c.context, [])))
  }

  /** `isLevelEnabled(level)`: `level >= config.level`, false when that level is `undefined`. */
  function IsLevelEnabled(lg: Logger, level: LogLevel): (b: bool)
    ensures lg.level.None? ==> !b
    ensures lg.level.Some? && level == Error ==> b
    ensures level == Debug ==> (b <==> lg.level == Some(Debug))
  {
    lg.level.Some? && Ordinal(level) >= Ordinal(lg.level.value)
  }

  /** With a minimum level set, exactly the levels not below it pass the gate. */
  lemma GateMatchesMinimum(lg: Logger, l: LogLevel)
    requires lg.level.Some?
    ensures IsLevelEnabled(lg, l) <==> !Below(l, lg.level.value)
  {
  }

  /** Whatever passes the gate, every more severe level passes too. */
  lemma GateIsUpwardClosed(lg: Logger, a: LogLevel, b: LogLevel)
    requires IsLevelEnabled(lg, a) && !Below(b, a)
    ensures IsLevelEnabled(lg, b)
  {
  }

  /** One `transport.log(text, level)` call, with the numeric level. */
  datatype Delivery = Delivery(text: string, level: int)

  /** The observable effects of one log call. */
  datatype Trace = Trace(formatted: seq<LogEntry>, delivered: seq<Delivery>, writes: seq<SinkWrite>)

  /** `{ ...base, ...context }`: a fresh object with the base keys, then the call's keys over them. */
  function MergeContext(base: Record, context: Option<Record>): (r: Record)
    ensures r == SpreadReference(base, context.GetOr([]))
  {
    SpreadOntoEmpty(base);
    SpreadMatchesReference(base, context.GetOr([]));
    Spread(Spread([], base), context.GetOr([]))
  }

  /**
   * The private `log(level, message, context?, error?)`, at time `now`: nothing at all below
   * the gate; otherwise one entry whose context merges the call's keys over the base context,
   * formatted once and delivered once with the same level.
   */
  function Log(
    lg: Logger, level: LogLevel, message: string, context: Option<Record>,
    error: Option<ErrorInfo>, now: string, ser: Serializer): (t: Trace)
    ensures !IsLevelEnabled(lg, level) ==> t == Trace([], [], [])
    ensures IsLevelEnabled(lg, level) ==>
              && |t.formatted| == 1
              && t.formatted[0].level == level
              && t.formatted[0].timestamp == now
              && t.formatted[0].message == message
              && t.formatted[0].error == error
              && t.formatted[0].context.Some?
              && t.formatted[0].context.value == SpreadReference(lg.context, context.GetOr([]))
              && t.delivered == [Delivery(Format(lg.format, t.formatted[0], ser), Ordinal(level))]
              && t.writes == [SinkWrite(lg.transport.console, SinkName(level), t.delivered[0].text)]
  {
    if !IsLevelEnabled(lg, level) then Trace([], [], [])
    else
      var entry := LogEntry(level, now, message, Some(MergeContext(lg.context, context)), error);
      var text := Format(lg.format, entry, ser);
      TransportLogAtLevel(lg.transport, text, level);
      Trace([entry], [Delivery(text, Ordinal(level))], TransportLog(lg.transport, text, Ordinal(level)))
  }

  /** The text handed to the transport is the logger's own formatter applied to the entry. */
  lemma DeliveredTextFollowsFormatter(
    lg: Logger, level: LogLevel, message: string, context: Option<Record>,
    error: Option<ErrorInfo>, now: string, ser: Serializer)
    requires IsLevelEnabled(lg, level)
    ensures var e := LogEntry(level, now, message, Some(MergeContext(lg.context, context)), error);
            var text := Log(lg, level, message, context, error, now, ser).delivered[0].text;
            && (lg.format.DefaultFormatter? ==> text == DefaultFormat(e, ser))
            && (lg.format.JSONFormatter? ==> text == JsonFormat(e, lg.format.pretty, ser))
            && (lg.format.CustomFormatter? ==> text == lg.format.render(e))
  {
  }

  /** The merged context keeps every base key, takes every call key, and lets the call win. */
  lemma MergedContextLookup(lg: Logger, level: LogLevel, message: string, context: Option<Record>,
                            error: Option<ErrorInfo>, now: string, ser: Serializer, k: string)
    requires IsLevelEnabled(lg, level)
    ensures Log(lg, level, message, context, error, now, ser).formatted[0].context.value
         == Spread(lg.context, context.GetOr([]))
    ensures Lookup(Log(lg, level, message, context, error, now, ser).formatted[0].context.value, k)
         == if context.Some? && k in Keys(context.value) then Lookup(context.value, k) else Lookup(lg.context, k)
  {
    SpreadMatchesReference(lg.context, context.GetOr([]));
  }

  /** `logger.debug(message, context?)`. */
  function DebugLog(lg: Logger, message: string, context: Option<Record>, now: string, ser: Serializer): (t: Trace)
    ensures t.formatted
         == if IsLevelEnabled(lg, Debug)
            then [LogEntry(Debug, now, message, Some(MergeContext(lg.context, context)), None)]
            else []
    ensures t.writes
         == if IsLevelEnabled(lg, Debug)
            then [SinkWrite(lg.transport.console, "debug", Format(lg.format, t.formatted[0], ser))]
            else []
  {
    Log(lg, Debug, message, context, None, now, ser)
  }

  /** `logger.info(message, context?)`. */
  function InfoLog(lg: Logger, message: string, context: Option<Record>, now: string, ser: Serializer): (t: Trace)
    ensures t.formatted
         == if IsLevelEnabled(lg, Info)
            then [LogEntry(Info, now, message, Some(MergeContext(lg.context, context)), None)]
            else []
    ensures t.writes
         == if IsLevelEnabled(lg, Info)
            then [SinkWrite(lg.transport.console, "info", Format(lg.format, t.formatted[0], ser))]
            else []
  {
    Log(lg, Info, message, context, None, now, ser)
  }

  /** `logger.warn(message, context?)`. */
  function WarnLog(lg: Logger, message: string, context: Option<Record>, now: string, ser: Serializer): (t: Trace)
    ensures t.formatted
         == if IsLevelEnabled(lg, Warn)
            then [LogEntry(Warn, now, message, Some(MergeContext(lg.context, context)), None)]
            else []
    ensures t.writes
         == if IsLevelEnabled(lg, Warn)
            then [SinkWrite(lg.transport.console, "warn", Format(lg.format, t.formatted[0], ser))]
            else []
  {
    Log(lg, Warn, message, context, None, now, ser)
  }

  /** `logger.error(message, context?, error?)`: the only entry point that passes an error on. */
  function ErrorLog(
    lg: Logger, message: string, context: Option<Record>, error: Option<ErrorInfo>,
    now: string, ser: Serializer): (t: Trace)
    ensures t.formatted
         == if IsLevelEnabled(lg, Error)
            then [LogEntry(Error, now, message, Some(MergeContext(lg.context, context)), error)]
            else []
    ensures t.writes
         == if IsLevelEnabled(lg, Error)
            then [SinkWrite(lg.transport.console, "error", Format(lg.format, t.formatted[0], ser))]
            else []
  {
    Log(lg, Error, message, context, error, now, ser)
  }

  /** A call through the public API. */
  datatype Call =
    | DebugCall(message: string, context: Option<Record>)
    | InfoCall(message: string, context: Option<Record>)
    | WarnCall(message: string, context: Option<Record>)
    | ErrorCall(message: string, context: Option<Record>, error: Option<ErrorInfo>)

  function CallLevel(c: Call): LogLevel {
    match c
    case DebugCall(_, _) => Debug
    case InfoCall(_, _) => Info
    case WarnCall(_, _) => Warn
    case ErrorCall(_, _, _) => Error
  }

  /** The error a call passes on: only `error(...)` has one. */
  function CallError(c: Call): Option<ErrorInfo> {
    if c.ErrorCall? then c.error else None
  }

  function Perform(lg: Logger, c: Call, now: string, ser: Serializer): Trace {
    match c
    case DebugCall(m, ctx) => DebugLog(lg, m, ctx, now, ser)
    case InfoCall(m, ctx) => InfoLog(lg, m, ctx, now, ser)
    case WarnCall(m, ctx) => WarnLog(lg, m, ctx, now, ser)
    case ErrorCall(m, ctx, err) => ErrorLog(lg, m, ctx, err, now, ser)
  }

  /**
   * Through the public API an error only ever accompanies an ERROR entry, so neither built-in
   * formatter ever takes its DEBUG branch for an error: the stack never reaches the output.
   */
  lemma StackNeverRendered(lg: Logger, c: Call, now: string, ser: Serializer)
    ensures forall e <- Perform(lg, c, now, ser).formatted ::
              e.error.Some? ==>
                && e.level == Error
                && ErrorSuffix(e.level, e.error) == "\n" + e.error.value.name + ": " + e.error.value.message
                && Keys(ErrorObject(e.level, e.error.value).fields) == ["message", "name"]
  {
  }

  /** A logger whose level was given as `undefined` never formats or writes anything. */
  lemma UndefinedLevelSilences(lg: Logger, c: Call, now: string, ser: Serializer)
    requires lg.level.None?
    ensures Perform(lg, c, now, ser) == Trace([], [], [])
  {
  }

  /** A call is silent exactly below the gate, and otherwise writes once, to its level's method. */
  lemma CallWritesIffEnabled(lg: Logger, c: Call, now: string, ser: Serializer)
    ensures |Perform(lg, c, now, ser).writes| == if IsLevelEnabled(lg, CallLevel(c)) then 1 else 0
    ensures forall w <- Perform(lg, c, now, ser).writes ::
              w.target == lg.transport.console && LevelOfSink(w.sink) == Some(CallLevel(c))
  {
    SinkNameRoundTrip(CallLevel(c));
  }

  /** An enabled public call logs one entry carrying its level, the time, its message, its
      context merged over the logger's and its error, and writes that entry's formatted text
      to its level's method of the logger's console. */
  lemma PublicCallEntry(lg: Logger, c: Call, now: string, ser: Serializer)
    requires IsLevelEnabled(lg, CallLevel(c))
    ensures var e := LogEntry(CallLevel(c), now, c.message, Some(MergeContext(lg.context, c.context)), CallError(c));
            && Perform(lg, c, now, ser).formatted == [e]
            && Perform(lg, c, now, ser).writes
               == [SinkWrite(lg.transport.console, SinkName(CallLevel(c)), Format(lg.format, e, ser))]
  {
  }
}
