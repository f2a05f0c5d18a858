/**
 * The console transport: delivers a rendered string to the console method named
 * after the entry's level. A console object is modelled by the property names the `in`
 * operator finds on it, own or inherited; a write is recorded as (console object, method
 * name, text).
 */
module Transports {
  import opened Wrappers
  import opened Types

  /** An object with console-like methods, identified by `name`; `members` are the property
      names `in` finds on it, own or inherited. */
  datatype ConsoleObject = ConsoleObject(name: string, members: set<string>)

  /** The process-wide `globalThis.console`. */
  const GlobalConsole := ConsoleObject("globalThis.console", {"log", "debug", "info", "warn", "error"})

  const InvalidConsoleMessage := "Tried to construct ConsoleTransport instance with invalid console object."

  /** A `LogTransport`; the console transport is the only one the library ships. */
  datatype Transport = ConsoleTransport(console: ConsoleObject)

  /** One call `target[sink](text)`. */
  datatype SinkWrite = SinkWrite(target: ConsoleObject, sink: string, text: string)

  /** The console method that receives entries of level `l`. */
  function SinkName(l: LogLevel): string {
    match l
    case Debug => "debug"
    case Info => "info"
    case Warn => "warn"
    case Error => "error"
  }

  /** The level a console method serves. */
  function LevelOfSink(sink: string): (r: Option<LogLevel>)
    ensures r.Some? ==> SinkName(r.value) == sink
  {
    if sink == "debug" then Some(Debug)
    else if sink == "info" then Some(Info)
    else if sink == "warn" then Some(Warn)
    else if sink == "error" then Some(Error)
    else None
  }

  /** Each level has its own console method, and every level's method is found again. */
  lemma SinkNameRoundTrip(l: LogLevel)
    ensures LevelOfSink(SinkName(l)) == Some(l)
  {
  }

  /** The object has all four console methods as keys (key presence only). */
  predicate IsConsoleLike(c: ConsoleObject) {
    forall l: LogLevel :: SinkName(l) in c.members
  }

  /** `new ConsoleTransport(console?)`: an omitted argument means the global console. */
  function NewConsoleTransport(console: Option<ConsoleObject>): (r: Result<Transport, TypeError>)
    ensures r.Success? <==> forall m <- ["debug", "info", "warn", "error"] :: m in console.GetOr(GlobalConsole).members
    ensures r.Failure? ==> r.error == TypeError(InvalidConsoleMessage)
    ensures r.Success? ==> r.value.console == console.GetOr(GlobalConsole)
  {
    var c := console.GetOr(GlobalConsole);
    if "debug" !in c.members || "info" !in c.members || "warn" !in c.members || "error" !in c.members then
      Failure(TypeError(InvalidConsoleMessage))
    else
      Success(ConsoleTransport(c))
  }

  /** A console object is accepted exactly when it has all four level methods. */
  lemma AcceptsExactlyConsoleLike(c: ConsoleObject)
    ensures NewConsoleTransport(Some(c)).Success? <==> IsConsoleLike(c)
  {
    if !IsConsoleLike(c) {
      var l: LogLevel :| SinkName(l) !in c.members;
      assert SinkName(l) in ["debug", "info", "warn", "error"];
    } else {
      assert SinkName(Debug) in c.members && SinkName(Info) in c.members;
      assert SinkName(Warn) in c.members && SinkName(Error) in c.members;
    }
  }

  /** `new ConsoleTransport()`. */
  function DefaultTransport(): (t: Transport)
    ensures NewConsoleTransport(None) == Success(t)
  {
    ConsoleTransport(GlobalConsole)
  }

  /**
   * `ConsoleTransport.log(formattedMessage, level)` with the numeric level: the text goes
   * unchanged to the one method named after the level; a number outside the enum writes nothing.
   */
  function TransportLog(t: Transport, formattedMessage: string, level: int): (ws: seq<SinkWrite>)
    ensures |ws| <= 1
    ensures |ws| == 1 <==> FromOrdinal(level).Some?
    ensures forall w <- ws ::
              && w.target == t.console
              && w.text == formattedMessage
              && LevelOfSink(w.sink) == FromOrdinal(level)
  {
    if level == 0 then [SinkWrite(t.console, "debug", formattedMessage)]
    else if level == 1 then [SinkWrite(t.console, "info", formattedMessage)]
    else if level == 2 then [SinkWrite(t.console, "warn", formattedMessage)]
    else if level == 3 then [SinkWrite(t.console, "error", formattedMessage)]
    else []
  }

  /** For each of the four levels the transport writes once, to that level's method. */
  lemma TransportLogAtLevel(t: Transport, text: string, l: LogLevel)
    ensures TransportLog(t, text, Ordinal(l)) == [SinkWrite(t.console, SinkName(l), text)]
  {
  }

  /** A transport built from a valid console writes every message to that same object,
      to the method named after the level. */
  lemma WritesGoToConstructedConsole(c: ConsoleObject, text: string, l: LogLevel)
    requires IsConsoleLike(c)
    ensures NewConsoleTransport(Some(c)).Success?
    ensures TransportLog(NewConsoleTransport(Some(c)).value, text, Ordinal(l))
         == [SinkWrite(c, SinkName(l), text)]
  {
    AcceptsExactlyConsoleLike(c);
  }
}
