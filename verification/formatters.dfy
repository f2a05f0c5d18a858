/**
 * The two built-in formatters: the human-readable line and the JSON record.
 * Both are pure functions of the entry (and, for JSON, of the pretty flag).
 */
module Formatters {
  import opened Wrappers
  import opened Records
  import opened Types

  /** A `LogFormatter`: one of the two built-in ones, or any caller-supplied rendering. */
  datatype Formatter =
    | DefaultFormatter
    | JSONFormatter(pretty: bool)
    | CustomFormatter(render: LogEntry -> string)

  /** `new JSONFormatter(pretty?)`: an omitted flag means compact output. */
  function NewJSONFormatter(pretty: Option<bool>): (f: Formatter)
    ensures f.JSONFormatter?
    ensures f.pretty <==> pretty == Some(true)
  {
    JSONFormatter(pretty.GetOr(false))
  }

  /** The entry carries a context object with at least one key. */
  predicate HasContext(context: Option<Record>) {
    context.Some? && |context.value| > 0
  }

  /* ----- DefaultFormatter ----- */

  /** The line prefix `[LABEL] `. */
  function Tag(l: LogLevel): string {
    "[" + Label(l) + "] "
  }

  /** The context section: empty, or a newline and the context serialised with indent 2. */
  function ContextSuffix(context: Option<Record>, ser: Serializer): (s: string)
    ensures s == "" <==> !HasContext(context)
    ensures s != "" ==> s[0] == '\n'
    ensures HasContext(context) ==> s == "\n" + ser(Obj(context.value), 2)
  {
    if HasContext(context) then "\n" + ser(Obj(context.value), 2) else ""
  }

  /** The error section: empty, the stack at DEBUG, otherwise `name: message`. */
  function ErrorSuffix(level: LogLevel, error: Option<ErrorInfo>): (s: string)
    ensures s == "" <==> error.None?
    ensures s != "" ==> s[0] == '\n'
    ensures error.Some? && level == Debug ==> s == "\n" + error.value.stack
    ensures error.Some? && level != Debug ==> s == "\n" + error.value.name + ": " + error.value.message
  {
    match error
    case None => ""
    case Some(err) =>
      if level == Debug then "\n" + err.stack else "\n" + err.name + ": " + err.message
  }

  /** Everything after the first line: the context section, then the error section. */
  function Details(e: LogEntry, ser: Serializer): (s: string)
    ensures s == "" <==> !HasContext(e.context) && e.error.None?
    ensures s != "" ==> s[0] == '\n'
    ensures !HasContext(e.context) ==> s == ErrorSuffix(e.level, e.error)
    ensures e.error.None? ==> s == ContextSuffix(e.context, ser)
  {
    ContextSuffix(e.context, ser) + ErrorSuffix(e.level, e.error)
  }

  /** `DefaultFormatter.format`. */
  function DefaultFormat(e: LogEntry, ser: Serializer): (s: string)
    ensures Tag(e.level) <= s
  {
    Tag(e.level) + e.timestamp + " " + e.message + Details(e, ser)
  }

  /* ----- Reading a human-readable line back ----- */

  /** Position of the first `c` in `s`, or `|s|` when there is none. */
  function IndexOf(s: string, c: char): (i: nat)
    ensures i <= |s|
    ensures i < |s| ==> s[i] == c
    ensures forall j :: 0 <= j < i ==> s[j] != c
  {
    if s == [] then 0
    else if s[0] == c then 0
    else 1 + IndexOf(s[1..], c)
  }

  lemma {:induction false} IndexOfStopsAt(a: string, b: string, c: char)
    requires c !in a
    requires b == [] || b[0] == c
    ensures IndexOf(a + b, c) == |a|
    decreases |a|
  {
    if a == [] {
      assert a + b == b;
    } else {
      assert (a + b)[0] == a[0];
      assert (a + b)[1..] == a[1..] + b;
      IndexOfStopsAt(a[1..], b, c);
    }
  }

  /** The level whose tag starts `s`. */
  function LevelOfTag(s: string): (r: Option<LogLevel>)
    ensures r.Some? ==> Tag(r.value) <= s
  {
    if Tag(Debug) <= s then Some(Debug)
    else if Tag(Info) <= s then Some(Info)
    else if Tag(Warn) <= s then Some(Warn)
    else if Tag(Error) <= s then Some(Error)
    else None
  }

  lemma LevelOfTagRecovers(l: LogLevel, rest: string)
    ensures LevelOfTag(Tag(l) + rest) == Some(l)
  {
    var s := Tag(l) + rest;
    assert s[1] == Label(l)[0];
    forall m: LogLevel | m != l
      ensures !(Tag(m) <= s)
    {
      assert Tag(m)[1] == Label(m)[0];
    }
  }

  /** The parts of a human-readable log line. */
  datatype HumanLine = HumanLine(level: LogLevel, timestamp: string, message: string, details: string)

  /**
   * Splits a human-readable line: the tag, the timestamp up to the first space,
   * the message up to the first newline, and the remaining sections.
   */
  function ParseHuman(s: string): Option<HumanLine> {
    match LevelOfTag(s)
    case None => None
    case Some(l) =>
      var t := s[|Tag(l)|..];
      var i := IndexOf(t, ' ');
      if i == |t| then None
      else
        var u := t[i + 1..];
        var j := IndexOf(u, '\n');
        Some(HumanLine(l, t[..i], u[..j], u[j..]))
  }

  /**
   * Any line assembled as tag, timestamp, space, message and a section string that is empty
   * or starts with a newline parses back into those four parts, provided the timestamp has
   * no space or newline and the message has no newline.
   */
  lemma ParseHumanLine(l: LogLevel, ts: string, msg: string, d: string)
    requires ' ' !in ts && '\n' !in ts && '\n' !in msg
    requires d == "" || d[0] == '\n'
    ensures ParseHuman(Tag(l) + (ts + (" " + (msg + d)))) == Some(HumanLine(l, ts, msg, d))
  {
    var u := msg + d;
    var t := ts + (" " + u);
    var s := Tag(l) + t;
    LevelOfTagRecovers(l, t);
    assert s[|Tag(l)|..] == t;
    SplitsAt(ts, " " + u, ' ');
    assert t[|ts| + 1..] == (" " + u)[1..] == u;
    SplitsAt(msg, d, '\n');
  }

  /** Searching `a + b` for a `c` that `a` lacks and `b` starts with splits it back into `a` and `b`. */
  lemma SplitsAt(a: string, b: string, c: char)
    requires c !in a
    requires b == [] || b[0] == c
    ensures IndexOf(a + b, c) == |a|
    ensures (a + b)[..|a|] == a && (a + b)[|a|..] == b
  {
    IndexOfStopsAt(a, b, c);
  }

  /**
   * A human-readable line gives back the level, timestamp, message and sections it was built
   * from, whenever the timestamp has no space or newline (true of ISO-8601 text) and the
   * message has no newline.
   */
  lemma DefaultFormatRoundTrip(e: LogEntry, ser: Serializer)
    requires ' ' !in e.timestamp && '\n' !in e.timestamp
    requires '\n' !in e.message
    ensures ParseHuman(DefaultFormat(e, ser))
         == Some(HumanLine(e.level, e.timestamp, e.message, Details(e, ser)))
  {
    var d := Details(e, ser);
    var tag, ts, msg := Tag(e.level), e.timestamp, e.message;
    assert DefaultFormat(e, ser) == tag + (ts + (" " + (msg + d)));
    ParseHumanLine(e.level, ts, msg, d);
  }

  /** The output is a single line exactly when neither section is present and the
      timestamp and message are single lines. */
  lemma DefaultFormatLines(e: LogEntry, ser: Serializer)
    ensures '\n' in DefaultFormat(e, ser)
        <==> '\n' in e.timestamp || '\n' in e.message || HasContext(e.context) || e.error.Some?
  {
  }

  /* ----- JSONFormatter ----- */

  /** The `error` object: message, stack, name at DEBUG; message, name otherwise. */
  function ErrorObject(level: LogLevel, err: ErrorInfo): (v: Value)
    ensures v.Obj?
    ensures Keys(v.fields) == if level == Debug then ["message", "stack", "name"] else ["message", "name"]
  {
    var message, stack, name := ("message", Str(err.message)), ("stack", Str(err.stack)), ("name", Str(err.name));
    KeysPointwise([message, stack, name]);
    KeysPointwise([message, name]);
    if level == Debug then
      Obj([("message", Str(err.message)), ("stack", Str(err.stack)), ("name", Str(err.name))])
    else
      Obj([("message", Str(err.message)), ("name", Str(err.name))])
  }

  /** The object handed to the serialiser by `JSONFormatter.format`. */
  function JsonRecord(e: LogEntry): (v: Value)
    ensures v.Obj?
    ensures Keys(v.fields)
         == ["level", "timestamp", "message"]
            + (if HasContext(e.context) then ["context"] else [])
            + (if e.error.Some? then ["error"] else [])
  {
    var head := [("level", Str(Label(e.level))), ("timestamp", Str(e.timestamp)), ("message", Str(e.message))];
    var context := if HasContext(e.context) then [("context", Obj(e.context.value))] else [];
    var error := if e.error.Some? then [("error", ErrorObject(e.level, e.error.value))] else [];
    KeysPointwise(head);
    KeysOfConcat(head, context);
    KeysOfConcat(head + context, error);
    Obj(head + context + error)
  }

  /** The serialiser indent: 2 when pretty, 0 (compact) otherwise. */
  function Indent(pretty: bool): (n: nat)
    ensures pretty ==> n == 2
    ensures !pretty ==> n == 0
  {
    if pretty then 2 else 0
  }

  /** `JSONFormatter.format`. */
  function JsonFormat(e: LogEntry, pretty: bool, ser: Serializer): (r: string)
    ensures exists v :: DecodeRecord(v) == Some(Visible(e)) && r == ser(v, Indent(pretty))
  {
    JsonRecordRoundTrip(e);
    ser(JsonRecord(e), Indent(pretty))
  }

  /** `LogFormatter.format` for any formatter. */
  function Format(f: Formatter, e: LogEntry, ser: Serializer): (r: string)
    ensures f.DefaultFormatter? ==> r == DefaultFormat(e, ser)
    ensures f.JSONFormatter? ==> r == JsonFormat(e, f.pretty, ser)
    ensures f.CustomFormatter? ==> r == f.render(e)
  {
    match f
    case DefaultFormatter => DefaultFormat(e, ser)
    case JSONFormatter(pretty) => JsonFormat(e, pretty, ser)
    case CustomFormatter(render) => render(e)
  }

  /** An empty context object renders exactly like no context, in both built-in formatters. */
  lemma EmptyContextIsAbsent(e: LogEntry, pretty: bool, ser: Serializer)
    ensures DefaultFormat(e.(context := Some([])), ser) == DefaultFormat(e.(context := None), ser)
    ensures JsonFormat(e.(context := Some([])), pretty, ser) == JsonFormat(e.(context := None), pretty, ser)
  {
  }

  /** The pretty flag changes only the indent handed to the serialiser, never the record. */
  lemma PrettyOnlyChangesIndent(e: LogEntry, ser: Serializer)
    ensures JsonFormat(e, true, ser) == ser(JsonRecord(e), 2)
    ensures JsonFormat(e, false, ser) == ser(JsonRecord(e), 0)
  {
  }

  /** An entry with neither context nor error prints as tag, timestamp, a space and the message,
      at every level and for any strings. */
  lemma DefaultFormatBare(l: LogLevel, ts: string, msg: string, ser: Serializer)
    ensures DefaultFormat(LogEntry(l, ts, msg, None, None), ser) == Tag(l) + ts + " " + msg
  {
  }

  /** Human-readable lines for the entry shapes the formatter's own tests exercise. */
  lemma DefaultFormatExamples(ts: string, msg: string, err: ErrorInfo, ser: Serializer)
    ensures DefaultFormat(LogEntry(Debug, ts, msg, None, None), ser) == "[DEBUG] " + ts + " " + msg
    ensures DefaultFormat(LogEntry(Info, ts, msg, None, Some(err)), ser)
         == "[INFO] " + ts + " " + msg + "\n" + err.name + ": " + err.message
    ensures DefaultFormat(LogEntry(Debug, ts, msg, None, Some(err)), ser)
         == "[DEBUG] " + ts + " " + msg + "\n" + err.stack
  {
    // The tags as literals: the label of each level, bracketed and followed by a space.
    assert Tag(Debug) == "[DEBUG] ";
    assert Tag(Info) == "[INFO] ";
    DefaultFormatBare(Debug, ts, msg, ser);
    DefaultFormatErrorAboveDebug(Info, ts, msg, err, ser);
  }

  /** A non-empty context is printed as its serialisation with indent 2, on its own line. */
  lemma DefaultFormatWithContext(l: LogLevel, ts: string, msg: string, ctx: Record, ser: Serializer)
    requires |ctx| > 0
    ensures DefaultFormat(LogEntry(l, ts, msg, Some(ctx), None), ser)
         == Tag(l) + ts + " " + msg + "\n" + ser(Obj(ctx), 2)
  {
  }

  /** Every level but DEBUG prints an error as `name: message`. */
  lemma DefaultFormatErrorAboveDebug(l: LogLevel, ts: string, msg: string, err: ErrorInfo, ser: Serializer)
    requires l != Debug
    ensures DefaultFormat(LogEntry(l, ts, msg, None, Some(err)), ser)
         == Tag(l) + ts + " " + msg + "\n" + err.name + ": " + err.message
  {
  }

  /** With both sections, the context comes first and the error second. */
  lemma DefaultFormatContextThenError(l: LogLevel, ts: string, msg: string, ctx: Record, err: ErrorInfo, ser: Serializer)
    requires |ctx| > 0 && l != Debug
    ensures DefaultFormat(LogEntry(l, ts, msg, Some(ctx), Some(err)), ser)
         == Tag(l) + ts + " " + msg + "\n" + ser(Obj(ctx), 2) + "\n" + err.name + ": " + err.message
  {
  }

  /** At DEBUG the stack follows the context line. */
  lemma DefaultFormatContextThenStack(ts: string, msg: string, ctx: Record, err: ErrorInfo, ser: Serializer)
    requires |ctx| > 0
    ensures DefaultFormat(LogEntry(Debug, ts, msg, Some(ctx), Some(err)), ser)
         == "[DEBUG] " + ts + " " + msg + "\n" + ser(Obj(ctx), 2) + "\n" + err.stack
  {
  }

  /** JSON records for the entry shapes the formatter's own tests exercise. */
  lemma JsonRecordExamples(ts: string, msg: string, err: ErrorInfo)
    ensures JsonRecord(LogEntry(Debug, ts, msg, None, None))
         == Obj([("level", Str("DEBUG")), ("timestamp", Str(ts)), ("message", Str(msg))])
    ensures JsonRecord(LogEntry(Info, ts, msg, None, Some(err)))
         == Obj([("level", Str("INFO")), ("timestamp", Str(ts)), ("message", Str(msg)),
                 ("error", Obj([("message", Str(err.message)), ("name", Str(err.name))]))])
    ensures JsonRecord(LogEntry(Debug, ts, msg, None, Some(err)))
         == Obj([("level", Str("DEBUG")), ("timestamp", Str(ts)), ("message", Str(msg)),
                 ("error", Obj([("message", Str(err.message)), ("stack", Str(err.stack)),
                                ("name", Str(err.name))]))])
  {
  }

  /* ----- Reading a JSON record back ----- */

  /** The error fields a JSON record keeps: the stack only at DEBUG. */
  datatype ErrorView = ErrorView(message: string, stack: Option<string>, name: string)

  /** What of an entry survives into the JSON record. */
  datatype RecordView = RecordView(
    level: LogLevel,
    timestamp: string,
    message: string,
    context: Option<Record>,
    error: Option<ErrorView>)

  /** The part of `e` the JSON formatter keeps: no empty context, no stack above DEBUG. */
  function Visible(e: LogEntry): RecordView {
    RecordView(
      e.level, e.timestamp, e.message,
      if HasContext(e.context) then e.context else None,
      match e.error
      case None => None
      case Some(err) =>
        Some(ErrorView(err.message, if e.level == Debug then Some(err.stack) else None, err.name)))
  }

  function DecodeError(v: Value): Option<ErrorView> {
    if !v.Obj? then None
    else
      var fs := v.fields;
      if |fs| == 3 && fs[0].0 == "message" && fs[0].1.Str? && fs[1].0 == "stack" && fs[1].1.Str?
         && fs[2].0 == "name" && fs[2].1.Str?
      then Some(ErrorView(fs[0].1.s, Some(fs[1].1.s), fs[2].1.s))
      else if |fs| == 2 && fs[0].0 == "message" && fs[0].1.Str? && fs[1].0 == "name" && fs[1].1.Str?
      then Some(ErrorView(fs[0].1.s, None, fs[1].1.s))
      else None
  }

  /** The optional `context` and `error` members after the three fixed ones. */
  function DecodeOptional(fs: Fields): Option<(Option<Record>, Option<ErrorView>)> {
    if fs == [] then Some((None, None))
    else if fs[0].0 == "context" && fs[0].1.Obj? && |fs[0].1.fields| > 0 && UniqueKeys(fs[0].1.fields) then
      var context: Record := fs[0].1.fields;
      if |fs| == 1 then Some((Some(context), None))
      else if |fs| == 2 && fs[1].0 == "error" && DecodeError(fs[1].1).Some? then
        Some((Some(context), DecodeError(fs[1].1)))
      else None
    else if |fs| == 1 && fs[0].0 == "error" && DecodeError(fs[0].1).Some? then
      Some((None, DecodeError(fs[0].1)))
    else None
  }

  /** Reads a JSON log record back into the parts it carries. */
  function DecodeRecord(v: Value): Option<RecordView> {
    if !v.Obj? || |v.fields| < 3 then None
    else
      var fs := v.fields;
      if fs[0].0 != "level" || !fs[0].1.Str? || LevelFromLabel(fs[0].1.s).None?
         || fs[1].0 != "timestamp" || !fs[1].1.Str?
         || fs[2].0 != "message" || !fs[2].1.Str?
      then None
      else
        match DecodeOptional(fs[3..])
        case None => None
        case Some((context, error)) =>
          Some(RecordView(LevelFromLabel(fs[0].1.s).value, fs[1].1.s, fs[2].1.s, context, error))
  }

  /** The JSON record determines exactly the visible part of the entry. */
  lemma JsonRecordRoundTrip(e: LogEntry)
    ensures DecodeRecord(JsonRecord(e)) == Some(Visible(e))
  {
    LabelRoundTrip(e.level, Label(e.level));
  }

  /** Entries that agree on their visible part give the same JSON output: a stack above DEBUG
      and an empty context make no difference. */
  lemma JsonFormatSeesOnlyVisible(e1: LogEntry, e2: LogEntry, pretty: bool, ser: Serializer)
    requires Visible(e1) == Visible(e2)
    ensures JsonFormat(e1, pretty, ser) == JsonFormat(e2, pretty, ser)
  {
    JsonRecordRoundTrip(e1);
    JsonRecordRoundTrip(e2);
    assert JsonRecord(e1) == JsonRecord(e2);
  }
}
