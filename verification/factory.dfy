/**
 * `LoggerFactory`: one fixed default configuration, and `createLogger`, which spreads
 * a partial configuration over it and constructs a logger from the result.
 */
module Factory {
  import opened Wrappers
  import opened Types
  import opened Formatters
  import opened Transports
  import opened Logging

  /** `LoggerFactory.defaultConfig`: INFO, the human-readable formatter, the console transport, no context. */
  const DefaultConfig: LoggerConfig :=
    LoggerConfig(Given(Info), Given(DefaultFormatter), Given(DefaultTransport()), Absent)

  /**
   * `{ ...base, ...over }` on configuration objects: every key `over` has replaces `base`'s,
   * including keys whose value is `undefined`. This is the lookup rule of `Records.Spread`
   * applied to the four configuration keys, with `Absent` standing for a key the object does
   * not have. Key order is not modelled here: the logger reads each configuration property
   * by name, so the order is never observable.
   */
  function Overlay(base: LoggerConfig, over: LoggerConfig): (r: LoggerConfig)
    ensures !over.level.Absent? ==> r.level == over.level
    ensures over.level.Absent? ==> r.level == base.level
    ensures !over.format.Absent? ==> r.format == over.format
    ensures over.format.Absent? ==> r.format == base.format
    ensures !over.transport.Absent? ==> r.transport == over.transport
    ensures over.transport.Absent? ==> r.transport == base.transport
    ensures !over.context.Absent? ==> r.context == over.context
    ensures over.context.Absent? ==> r.context == base.context
  {
    LoggerConfig(
      if over.level.Absent? then base.level else over.level,
      if over.format.Absent? then base.format else over.format,
      if over.transport.Absent? then base.transport else over.transport,
      if over.context.Absent? then base.context else over.context)
  }

  /** Overlaying twice with the same configuration changes nothing more. */
  lemma OverlayIdempotent(base: LoggerConfig, over: LoggerConfig)
    ensures Overlay(Overlay(base, over), over) == Overlay(base, over)
  {
  }

  /** `LoggerFactory.createLogger(config?)`. It never throws: the defaults always carry a level key. */
  function CreateLogger(config: Option<LoggerConfig>): (r: Result<Logger, TypeError>)
    ensures r.Success?
    ensures config.None? ==> r.value == Logger(Some(Info), DefaultFormatter, DefaultTransport(), [])
    ensures config.Some? ==> Resolves(Overlay(DefaultConfig, config.value), r.value)
  {
    NewLogger(Some(match config case None => DefaultConfig case Some(c) => Overlay(DefaultConfig, c)))
  }

  /** Supplied fields override the defaults and omitted ones keep them; a level given as
      `undefined` overrides INFO too, leaving a logger that never writes. */
  lemma CreateLoggerFields(c: LoggerConfig)
    ensures c.level.Given? ==> CreateLogger(Some(c)).value.level == Some(c.level.value)
    ensures c.level.Absent? ==> CreateLogger(Some(c)).value.level == Some(Info)
    ensures c.level.Undefined? ==> CreateLogger(Some(c)).value.level == None
    ensures c.format.Given? ==> CreateLogger(Some(c)).value.format == c.format.value
    ensures !c.format.Given? ==> CreateLogger(Some(c)).value.format == DefaultFormatter
    ensures c.transport.Given? ==> CreateLogger(Some(c)).value.transport == c.transport.value
    ensures !c.transport.Given? ==> CreateLogger(Some(c)).value.transport == DefaultTransport()
    ensures c.context.Given? ==> CreateLogger(Some(c)).value.context == c.context.value
    ensures !c.context.Given? ==> CreateLogger(Some(c)).value.context == []
  {
  }

  /** `createLogger()` writes INFO calls to `console.info` as the human-readable line, and
      drops DEBUG calls. */
  lemma DefaultLoggerOutput(message: string, now: string, ser: Serializer)
    ensures InfoLog(CreateLogger(None).value, message, None, now, ser).writes
         == [SinkWrite(GlobalConsole, "info", "[INFO] " + now + " " + message)]
    ensures DebugLog(CreateLogger(None).value, message, None, now, ser).writes == []
  {
    var lg := CreateLogger(None).value;
    var e := LogEntry(Info, now, message, Some(MergeContext(lg.context, None)), None);
    assert MergeContext(lg.context, None) == [];
    DeliveredTextFollowsFormatter(lg, Info, message, None, None, now, ser);
    assert "[INFO] " + now + " " + message == DefaultFormat(e, ser) by {
      assert Details(e.(context := None), ser) == "";
      assert Tag(Info) == "[INFO] ";
    }
  }
}
