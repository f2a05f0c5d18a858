# logger-ts, modelled in Dafny

A model of the `logger-ts` structured-logging library: a logger that gates each call on a
minimum severity, builds a log entry, renders it with a formatter and hands the string to a
transport that writes it to one of four console methods.

The model is functional. Levels, entries, configurations and loggers are immutable
datatypes. A log call is a function that returns its `Trace`, which has three parts:

- the entries handed to the formatter;
- the `(text, level)` pairs handed to the transport;
- the console writes that result.

A call below the gate returns the empty trace.

| module | file | models |
|---|---|---|
| `Wrappers` | wrappers.dfy | `Option` (JavaScript `undefined`) and `Result` (a constructor that may throw) |
| `Records` | records.dfy | plain objects as ordered, duplicate-free key lists; property assignment; object spread |
| `Types` | types.dfy | `LogLevel` with its enum values, order and labels; `LogEntry`; the error value |
| `Formatters` | formatters.dfy | `DefaultFormatter`, `JSONFormatter`, and a parser for each output |
| `Transports` | transports.dfy | `ConsoleTransport`: construction check and level-to-method dispatch |
| `Logging` | logger.dfy | `Logger`: construction and defaulting, the gate, context merge, the four entry points |
| `Factory` | factory.dfy | `LoggerFactory`: default configuration and `createLogger` |

Three things are inputs rather than modelled behaviour:

- The timestamp is an already-rendered ISO-8601 string (`now`).
- The error is three strings: name, message and stack.
- `JSON.stringify(value, null, indent)` is a function parameter `ser: (Value, nat) -> string`.

The model therefore says exactly which fields reach the serialiser, in what order and with
what indent. It says nothing about JSON bytes.

Context objects are ordered lists of key/value pairs with distinct keys, because the
serialiser sees key order. `{ ...a, ...b }` is modelled as the language defines it: copy `a`,
then assign `b`'s properties one by one. It is proved equal to a closed form: `a`'s keys in
place carrying `b`'s value where `b` has the key, followed by `b`'s new keys in `b`'s order.

Configuration properties are three-valued: absent, present but `undefined`, or given. The
distinction matters because the logger checks `'level' in config`, which looks only at key presence.
A configuration `{ level: undefined }` is therefore accepted. The resulting logger never logs,
because `level >= undefined` is false. The factory's spread copies `undefined` values as well,
so `createLogger({ level: undefined })` also builds a logger that never writes
(`Factory.CreateLoggerFields`, `Logging.UndefinedLevelSilences`).

Through the public API only `error(...)` passes an error on, and it logs at ERROR. As a result
neither formatter's DEBUG-with-error branch is reachable through a `Logger`: the stack never
reaches the output (`Logging.StackNeverRendered`). The branches are still modelled, because the
formatters are public and can be called with any entry.

Both constructors throw `TypeError`. The logger's message is "Tried to construct Logger
instance without log level parameter." (lib/logger.ts:21), and the console transport's is
"Tried to construct ConsoleTransport instance with invalid console object."
(lib/transports.ts:23-25). A numeric level outside 0..3 passed to `ConsoleTransport.log` falls
through the `switch` and writes nothing (`Transports.TransportLog`).

## Model

| member | source | states |
|---|---|---|
| `Types.FromOrdinal` | lib/types.ts:5-10 | exactly the numbers 0..3 name a level, and each level's enum value is that number (DEBUG=0, INFO=1, WARN=2, ERROR=3) |
| `Types.OrdinalRoundTrip` | lib/types.ts:5-10 | a level's enum value maps back to the same level |
| `Types.LevelOrderIsStrictTotal` | lib/types.ts:5-10 | the severity order is irreflexive, transitive and total, with DEBUG < INFO < WARN < ERROR |
| `Types.Label` | lib/formatters.ts:15 | a level's printed label is a non-empty upper-case word |
| `Types.LabelRoundTrip` | lib/types.ts:5-10 | labels and levels correspond one-to-one (the label is the enum member name) |
| `Records.Assign` | lib/logger.ts:52 | assigning a property sets that key, leaves every other key's value alone, keeps an existing key's position and appends a new key |
| `Records.Spread` | lib/logger.ts:52 | after `{ ...a, ...b }` every key reads `b`'s value if `b` has it and `a`'s otherwise; the result has no duplicate keys |
| `Records.SpreadMatchesReference` | lib/logger.ts:52 | sequential spreading equals the closed form: `a`'s keys in order with overriding values, then `b`'s new keys in `b`'s order |
| `Records.SpreadOntoEmpty` | lib/logger.ts:52 | spreading an object into an empty literal reproduces it exactly |
| `Formatters.NewJSONFormatter` | lib/formatters.ts:39-41 | the JSON formatter is pretty only when `true` is passed; an omitted flag means compact |
| `Formatters.ContextSuffix` | lib/formatters.ts:16-19 | the context section is empty exactly when the context is absent or has no keys; otherwise it is a newline followed by the context serialised with indent 2 |
| `Formatters.ErrorSuffix` | lib/formatters.ts:20-24 | the error section is empty exactly when there is no error; otherwise it is a newline followed by the stack at DEBUG and by `name: message` at every other level |
| `Formatters.Details` | lib/formatters.ts:16-26 | the text after the first line is empty exactly when there is neither a non-empty context nor an error; without a context it is the error section, and without an error it is the context section |
| `Formatters.DefaultFormat` | lib/formatters.ts:13-27 | the output starts with the `[LABEL] ` tag of the entry's level |
| `Formatters.DefaultFormatRoundTrip` | lib/formatters.ts:26 | the output parses back into the level, timestamp, message and the context-then-error sections, when the timestamp has no space or newline and the message has no newline |
| `Formatters.DefaultFormatLines` | lib/formatters.ts:16-26 | the output spans several lines exactly when the context is non-empty, an error is present, or the timestamp or message contains a newline |
| `Formatters.DefaultFormatBare` | lib/formatters.ts:26 | an entry with neither context nor error prints as `[LABEL] <timestamp> <message>` at every level, whatever the strings contain |
| `Formatters.DefaultFormatExamples` | lib/__tests__/formatters.spec.ts:18-63 | the exact lines for a bare DEBUG entry, an INFO entry with an error (`name: message`) and a DEBUG entry with an error (the stack) |
| `Formatters.DefaultFormatWithContext` | lib/formatters.ts:16-19 | a non-empty context is printed on its own line as the context serialised with indent 2, at every level |
| `Formatters.DefaultFormatErrorAboveDebug` | lib/formatters.ts:20-24 | at INFO, WARN and ERROR an error is printed on its own line as `name: message` |
| `Formatters.DefaultFormatContextThenError` | lib/formatters.ts:26 | at INFO, WARN and ERROR, with both a non-empty context and an error, the context line comes first and the `name: message` line second |
| `Formatters.DefaultFormatContextThenStack` | lib/formatters.ts:21-26 | at DEBUG, with both a non-empty context and an error, the context line comes first and the stack second |
| `Formatters.ErrorObject` | lib/formatters.ts:54-66 | the JSON error object has keys message, stack, name at DEBUG and message, name at every other level |
| `Formatters.JsonRecord` | lib/formatters.ts:49-67 | the JSON record's keys are level, timestamp, message, then context only for a non-empty context, then error only when an error is present |
| `Formatters.PrettyOnlyChangesIndent` | lib/formatters.ts:69 | both JSON variants serialise the same record; pretty output uses indent 2 and compact output uses indent 0 |
| `Formatters.JsonFormat` | lib/formatters.ts:48-70 | the output is the serialisation, with indent 2 when pretty and 0 otherwise, of a record that decodes back to the entry's visible fields |
| `Formatters.Format` | lib/logger.ts:56 | formatting an entry dispatches to the configured formatter: the human-readable line, the JSON output with that formatter's pretty flag, or a custom formatter's own result |
| `Formatters.EmptyContextIsAbsent` | lib/formatters.ts:53 | an empty context object and no context give identical output, in both formatters |
| `Formatters.JsonRecordRoundTrip` | lib/formatters.ts:48-70 | the JSON record decodes back to the entry's level, timestamp, message, non-empty context and error fields, with the stack present exactly at DEBUG |
| `Formatters.JsonFormatSeesOnlyVisible` | lib/formatters.ts:48-70 | two entries that agree on level, timestamp, message, non-empty context and the error fields shown at their level give identical JSON output |
| `Formatters.JsonRecordExamples` | lib/__tests__/formatters.spec.ts:92-149 | the JSON records for a bare DEBUG entry, an INFO entry with an error (no stack) and a DEBUG entry with an error (message, stack, name) |
| `Transports.NewConsoleTransport` | lib/transports.ts:16-29 | construction succeeds exactly when the object (the global console if omitted) has all four properties debug, info, warn and error (own or inherited); otherwise it throws the "invalid console object" TypeError; on success the object is stored unchanged |
| `Transports.AcceptsExactlyConsoleLike` | lib/transports.ts:17-26 | an object is accepted exactly when every level's method name is a property the `in` operator finds on it, own or inherited |
| `Transports.DefaultTransport` | lib/transports.ts:16 | constructing without an argument succeeds and wraps the global console |
| `Transports.SinkNameRoundTrip` | lib/transports.ts:37-50 | each level has its own console method, and the method gives the level back |
| `Transports.TransportLog` | lib/transports.ts:36-51 | at most one write; exactly one when the number is a level; it goes to the stored console, to the method of that level, with the text unchanged |
| `Transports.TransportLogAtLevel` | lib/transports.ts:37-50 | for each of the four levels the transport makes one write, to that level's method |
| `Transports.WritesGoToConstructedConsole` | lib/transports.ts:28 | a transport built from a valid object writes every message to that same object |
| `Logging.NewLogger` | lib/logger.ts:19-29 | construction throws the "without log level parameter" TypeError exactly when there is no config or it has no `level` key; otherwise the level is kept, and a missing format, transport or context becomes the human-readable formatter, the console transport and `{}` |
| `Logging.IsLevelEnabled` | lib/logger.ts:102-104 | a logger whose level is `undefined` enables nothing; with a level set, ERROR is always enabled, and DEBUG is enabled exactly when the minimum is DEBUG |
| `Logging.GateMatchesMinimum` | lib/logger.ts:102-104 | with a minimum level set, a level passes the gate exactly when it is not below the minimum |
| `Logging.GateIsUpwardClosed` | lib/logger.ts:102-104 | if a level passes the gate, every more severe level passes too |
| `Logging.MergeContext` | lib/logger.ts:52 | the entry context is the closed-form spread of the call context over the base context (an omitted call context counts as `{}`) |
| `Logging.Log` | lib/logger.ts:38-58 | below the gate nothing is formatted, delivered or written; otherwise there is exactly one entry with the call's level, time, message, error and merged context, formatted once, delivered once with the same level, and written once to that level's method of the transport's console |
| `Logging.MergedContextLookup` | lib/logger.ts:52 | in the logged entry each key reads the call context's value when the call has that key and the base context's value otherwise |
| `Logging.DeliveredTextFollowsFormatter` | lib/logger.ts:48-57 | the text handed to the transport is the logger's formatter applied to the entry: `DefaultFormat` for the human-readable formatter, `JsonFormat` with its pretty flag for the JSON formatter, the custom formatter's result otherwise |
| `Logging.DebugLog` | lib/logger.ts:65-67 | when DEBUG passes the gate: one entry at DEBUG with the time, the message, the call's context merged over the logger's and no error, and one write of its formatted text to the console's `debug`; otherwise nothing |
| `Logging.InfoLog` | lib/logger.ts:74-76 | when INFO passes the gate: one entry at INFO with the time, the message, the call's context merged over the logger's and no error, and one write of its formatted text to the console's `info`; otherwise nothing |
| `Logging.WarnLog` | lib/logger.ts:83-85 | when WARN passes the gate: one entry at WARN with the time, the message, the call's context merged over the logger's and no error, and one write of its formatted text to the console's `warn`; otherwise nothing |
| `Logging.ErrorLog` | lib/logger.ts:93-95 | when ERROR passes the gate: one entry at ERROR with the time, the message, the call's context merged over the logger's and the given error, and one write of its formatted text to the console's `error`; otherwise nothing |
| `Logging.CallWritesIffEnabled` | lib/logger.ts:44-57 | any public call writes once, to the stored console's method of its level, exactly when its level passes the gate, and writes nothing otherwise |
| `Logging.PublicCallEntry` | lib/logger.ts:48-57 | an enabled public call logs exactly one entry, carrying its level, the time, its message, its context merged over the logger's and its error (only `error(...)` has one), and writes exactly that entry's formatted text to its level's method of the logger's console |
| `Logging.StackNeverRendered` | lib/logger.ts:65-95 | every entry the public API produces with an error is at ERROR level, so it renders as `name: message` and its JSON error object has no stack |
| `Logging.UndefinedLevelSilences` | lib/logger.ts:102-104 | a logger whose level key held `undefined` (accepted at construction, lib/logger.ts:20) fails the `level >= undefined` gate for every call, so it never formats or writes |
| `Factory.Overlay` | lib/factory.ts:26 | every key the partial configuration has (even one holding `undefined`) replaces the default; absent keys keep the default |
| `Factory.OverlayIdempotent` | lib/factory.ts:26 | applying the same partial configuration twice gives the same configuration as once |
| `Factory.CreateLogger` | lib/factory.ts:14-27 | `createLogger` never throws; with no argument the logger has level INFO, the human-readable formatter, the console transport and context `{}`; otherwise it is what the overlaid configuration resolves to |
| `Factory.CreateLoggerFields` | lib/factory.ts:25-27 | each supplied field overrides its default and each omitted one keeps it; a level given as `undefined` leaves the logger without a level |
| `Factory.DefaultLoggerOutput` | lib/factory.ts:14-27 | a logger from `createLogger()` writes an INFO call without context to `console.info` as `[INFO] <time> <message>`, and writes nothing for a DEBUG call |

## Left out

- Real console I/O: a console object is a name and the set of property names `in` finds on it, and a write is recorded as `(object, method, text)`. `globalThis.console` is a constant that has the four methods.
- `Date` and `toISOString`: the timestamp is an input string, and clock reads are not modelled.
- The internals of `JSON.stringify`: escaping, whitespace layout, and dropping `undefined` members are not modelled; the serialiser is an uninterpreted parameter. The JSON formatter's output is therefore characterised by the record and indent it passes, not by its bytes.
- How a JavaScript `Error` builds its `name`, `message` and `stack`: these are three input strings. An `undefined` stack is not modelled; the human-readable formatter would print it as `undefined`.
- Numeric levels outside the enum: these are modelled only where the transport receives a number. `LogLevel[x]` for such values, and a logger configured with one, are not modelled.
- User-written transports: only the console transport is modelled. The logger's trace still records every `transport.log` call it makes.
- Object identity: the factory shares one formatter instance and one transport instance across all loggers it creates. The model works with values, not instances.
- The key order of integer-like property names: JavaScript enumerates these first, in numeric order. Context keys are kept in insertion order.
- Configuration values that are truthy but not objects (for example `new Logger(1)`): these throw inside the `in` operator with the engine's own message. Falsy values such as `new Logger(0)` are caught by `!config` and are modelled as a missing configuration.
- A `level` of `null`: it passes the `'level' in config` check, and `level >= null` compares against 0, so every call is enabled. Configured levels are either a `LogLevel` or `undefined` here.
- `new ConsoleTransport(null)`: the `in` operator throws a `TypeError` whose message is the engine's, not the "invalid console object" one. An omitted or `undefined` argument takes the global console and is modelled.
- Exceptions thrown by a sink or a custom formatter: these propagate to the caller.
- Transports built without the constructor: a `Logger` or configuration may hold a `ConsoleTransport` whose console object lacks a level method, which the constructor (lib/transports.ts:17-26) would reject. Every transport obtained through `NewConsoleTransport` or `DefaultTransport` is console-like (`Transports.AcceptsExactlyConsoleLike`), so every method `TransportLog` can write to is one the object has.
- `vite.config.ts` and `lib/index.ts`: these are build configuration and re-exports only.
- `Formatters.DefaultFormat`: its own contract states only the `[LABEL] ` prefix. The sections after the message are stated by `ContextSuffix`, `ErrorSuffix` and `Details`. The complete line is stated by `DefaultFormatBare`, `DefaultFormatExamples`, `DefaultFormatWithContext`, `DefaultFormatErrorAboveDebug`, `DefaultFormatContextThenError` and `DefaultFormatContextThenStack`, which together cover every shape of entry (an empty context prints like none, by `EmptyContextIsAbsent`).
- `Formatters.DefaultFormatRoundTrip`: the round trip is stated only for timestamps without spaces or newlines and messages without newlines. Otherwise the line cannot be split unambiguously.
