/**
 * The logging facade (log/log.go): building a logger from a validated configuration, the
 * process-wide active logger, and the bridge that tags a logger with the trace and span ids
 * of a context.
 *
 * zap itself (encoding, level filtering, the writes) is not modelled: a logger is the value
 * that records which encoder, which writers, which minimum level and which fields it has.
 */
module Log {
  import opened Wrappers
  import opened Config
  import Agent = Trace

  // ---------------------------------------------------------------- levels

  datatype Level = Debug | Info | Warn | Error

  function LevelName(l: Level): string
  {
    match l
    case Debug => "debug"
    case Info => "info"
    case Warn => "warn"
    case Error => "error"
  }

  /** `zapcore.Level.UnmarshalText`, restricted to the four names the configuration admits. */
  function ParseLevel(s: string): (r: Option<Level>)
    ensures r.Some? <==> ValidLevel(s)
    ensures r.Some? ==> LevelName(r.value) == s
  {
    if s == "debug" then Some(Debug)
    else if s == "info" then Some(Info)
    else if s == "warn" then Some(Warn)
    else if s == "error" then Some(Error)
    else None
  }

  /** Parsing is the inverse of naming. */
  lemma ParseLevelName(l: Level)
    ensures ParseLevel(LevelName(l)) == Some(l)
  {
  }

  // ---------------------------------------------------------------- writers and options

  /** The identity of a caller-supplied `io.Writer`. */
  type WriterId = nat

  /** A write target: the rotating file of the configuration, standard output, or a caller's writer. */
  datatype Writer = File | Stdout | Extra(id: WriterId)

  /** `WithWriter(w)`; `None` is a nil writer. */
  datatype LogOption = WithWriter(w: Option<WriterId>)

  /** The `options` record that the options update. */
  datatype Options = Options(w: Option<WriterId>)

  const NoOptions := Options(None)

  /** Applying one option overwrites the writer. */
  function ApplyOption(opt: LogOption, o: Options): Options
  {
    match opt
    case WithWriter(w) => o.(w := w)
  }

  /** The options applied in order, starting from the zero record. */
  function Fold(opts: seq<LogOption>): Options
    decreases |opts|
  {
    if opts == [] then NoOptions
    else ApplyOption(opts[|opts| - 1], Fold(opts[..|opts| - 1]))
  }

  /** The last `WithWriter` wins, even a nil one; with no options there is no extra writer. */
  lemma LastWriterWins(opts: seq<LogOption>)
    ensures Fold(opts).w == if opts == [] then None else opts[|opts| - 1].w
  {
  }

  /** The loop of `NewLogger` that applies the options one after another. */
  method ApplyOptions(opts: seq<LogOption>) returns (o: Options)
    ensures o == Fold(opts)
    ensures o.w == if opts == [] then None else opts[|opts| - 1].w
  {
    o := NoOptions;
    var i := 0;
    while i < |opts|
      invariant 0 <= i <= |opts|
      invariant o == Fold(opts[..i])
    {
      assert opts[..i + 1][..i] == opts[..i];
      o := ApplyOption(opts[i], o);
      i := i + 1;
    }
    assert opts[..i] == opts;
  }

  /** The writers that `Mode` selects. */
  function ModeWriters(mode: string): seq<Writer>
  {
    if mode == "file" then [File]
    else if mode == "console" then [Stdout]
    else [File, Stdout]
  }

  /** The writers of a new logger: those of the mode, then the extra writer if there is one. */
  function SinkWriters(mode: string, extra: Option<WriterId>): seq<Writer>
  {
    ModeWriters(mode) + (if extra.Some? then [Extra(extra.value)] else [])
  }

  /** Mode `file` writes only to the file, `console` only to standard output, anything else to both, file first. */
  lemma ModeSelectsWriters(mode: string)
    ensures mode == "file" ==> SinkWriters(mode, None) == [File]
    ensures mode == "console" ==> SinkWriters(mode, None) == [Stdout]
    ensures mode != "file" && mode != "console" ==> SinkWriters(mode, None) == [File, Stdout]
  {
  }

  /** After validation the only mode other than `file` and `console` is the empty one. */
  lemma ValidDefaultModeIsEmpty(mode: string)
    requires ValidMode(mode) && mode != "file" && mode != "console"
    ensures mode == ""
    ensures SinkWriters(mode, None) == [File, Stdout]
  {
  }

  /** An extra writer comes last, after the writers of the mode, whatever the mode. */
  lemma ExtraWriterLast(mode: string, x: WriterId)
    ensures SinkWriters(mode, Some(x)) == SinkWriters(mode, None) + [Extra(x)]
    ensures SinkWriters(mode, Some(x))[|SinkWriters(mode, Some(x))| - 1] == Extra(x)
    ensures Extra(x) !in SinkWriters(mode, None)
  {
  }

  /** A console logger never writes to the file; a file logger never writes to standard output. */
  lemma ModeExcludesWriters(mode: string, extra: Option<WriterId>)
    ensures mode == "console" ==> File !in SinkWriters(mode, extra)
    ensures mode == "file" ==> Stdout !in SinkWriters(mode, extra)
    ensures mode != "console" ==> File in SinkWriters(mode, extra)
    ensures mode != "file" ==> Stdout in SinkWriters(mode, extra)
  {
  }

  // ---------------------------------------------------------------- encoders and loggers

  /** The JSON encoder with zap's production settings, or the console encoder with its development settings. */
  datatype Encoder = Json | Console

  /** The encoder `Format` selects; `None` is the `unknown format` branch. */
  function EncoderFor(format: string): (r: Option<Encoder>)
    ensures r.Some? <==> ValidFormat(format)
    ensures r == Some(Json) <==> format == "json"
    ensures r == Some(Console) <==> format == "text"
  {
    if format == "json" then Some(Json)
    else if format == "text" then Some(Console)
    else None
  }

  /** A structured field; the facade only adds string fields. */
  datatype Field = Field(key: string, value: string)

  /** A zap core: encoder, the writers it fans out to, and the minimum level. */
  datatype Core = Core(encoder: Encoder, writers: seq<Writer>, level: Level)

  /** A logger: its core, its accumulated fields, and the `AddStacktrace` / `AddCaller` options. */
  datatype Logger = Logger(core: Core, fields: seq<Field>, stacktraceFrom: Option<Level>, addCaller: bool)
  {
    /** zap's `Logger.With`: a child logger with more fields; the receiver is not changed. */
    function With(fs: seq<Field>): Logger
    {
      this.(fields := fields + fs)
    }
  }

  /** The logger in place before any `NewLogger`: development console encoder on standard output at `info`. */
  const DefaultLogger := Logger(Core(Console, [Stdout], Info), [], None, false)

  /** Why `NewLogger` refused a configuration. */
  datatype InitError = InvalidConfig | BadLevel(level: string) | UnknownFormat(format: string)

  /** The logger `NewLogger` installs for a configuration and options, or the error it returns. */
  function Build(c: Config, opts: seq<LogOption>): Result<Logger, InitError>
  {
    if !Valid(c) then Err(InvalidConfig)
    else match ParseLevel(c.level)
      case None => Err(BadLevel(c.level))
      case Some(level) =>
        match EncoderFor(c.format)
        case None => Err(UnknownFormat(c.format))
        case Some(encoder) =>
          Ok(Logger(Core(encoder, SinkWriters(c.mode, Fold(opts).w), level), [], Some(Error), true))
  }

  /**
   * A configuration is accepted exactly when it validates: after validation the level always
   * parses and the `unknown format` branch cannot be reached.
   */
  lemma BuildOkIffValid(c: Config, opts: seq<LogOption>)
    ensures Build(c, opts).Ok? <==> Valid(c)
    ensures Build(c, opts).Err? ==> Build(c, opts).error == InvalidConfig
  {
  }

  /** What a built logger is made of, in the terms of the configuration. */
  lemma BuiltLogger(c: Config, opts: seq<LogOption>)
    requires Valid(c)
    ensures Build(c, opts).Ok?
    ensures LevelName(Build(c, opts).value.core.level) == c.level
    ensures Build(c, opts).value.core.encoder == (if c.format == "json" then Json else Console)
    ensures Build(c, opts).value.core.writers == SinkWriters(c.mode, Fold(opts).w)
    ensures Build(c, opts).value.fields == []
  {
  }

  /** The configuration in the package's test: a debug console logger with an extra writer. */
  lemma ConsoleWithExtraWriter(t: Trace, file: FileSink, x: WriterId)
    requires ValidTrace(t)
    ensures Build(Config(t, "debug", "text", "console", file), [WithWriter(Some(x))])
         == Ok(Logger(Core(Console, [Stdout, Extra(x)], Debug), [], Some(Error), true))
  {
    var c := Config(t, "debug", "text", "console", file);
    assert Valid(c);
    assert Fold([WithWriter(Some(x))]) == Options(Some(x));
    assert SinkWriters(c.mode, Some(x)) == [Stdout, Extra(x)];
  }

  // ---------------------------------------------------------------- context bridge

  /** The span context of a `context.Context`: the hex strings of its valid trace and span ids. */
  datatype SpanContext = SpanContext(traceId: Option<string>, spanId: Option<string>)

  /** A valid trace id is 16 bytes (32 hex digits), a valid span id 8 bytes (16 hex digits). */
  ghost predicate WellFormed(ctx: SpanContext)
  {
    (ctx.traceId.Some? ==> |ctx.traceId.value| == 32) && (ctx.spanId.Some? ==> |ctx.spanId.value| == 16)
  }

  function SpanIdFromContext(ctx: SpanContext): (id: string)
    ensures ctx.spanId.None? ==> id == ""
    ensures ctx.spanId.Some? ==> id == ctx.spanId.value
    ensures WellFormed(ctx) ==> (id == "" <==> ctx.spanId.None?)
  {
    if ctx.spanId.Some? then ctx.spanId.value else ""
  }

  function TraceIdFromContext(ctx: SpanContext): (id: string)
    ensures ctx.traceId.None? ==> id == ""
    ensures ctx.traceId.Some? ==> id == ctx.traceId.value
    ensures WellFormed(ctx) ==> (id == "" <==> ctx.traceId.None?)
  {
    if ctx.traceId.Some? then ctx.traceId.value else ""
  }

  /** `WithContext` on a given base logger: add `traceId` then `spanId`, unless either is empty. */
  function AttachSpan(base: Logger, ctx: SpanContext): (l: Logger)
    ensures l.core == base.core && l.stacktraceFrom == base.stacktraceFrom && l.addCaller == base.addCaller
    ensures l == base <==> SpanIdFromContext(ctx) == "" || TraceIdFromContext(ctx) == ""
    ensures l != base ==> l.fields == base.fields + [Field("traceId", TraceIdFromContext(ctx)), Field("spanId", SpanIdFromContext(ctx))]
  {
    var spanId := SpanIdFromContext(ctx);
    var traceId := TraceIdFromContext(ctx);
    if spanId == "" || traceId == "" then base
    else base.With([Field("traceId", traceId), Field("spanId", spanId)])
  }

  /** For a real span context: the base logger comes back exactly when a trace or span id is missing. */
  lemma AttachSpanWellFormed(base: Logger, ctx: SpanContext)
    requires WellFormed(ctx)
    ensures AttachSpan(base, ctx) == base <==> ctx.traceId.None? || ctx.spanId.None?
    ensures ctx.traceId.Some? && ctx.spanId.Some? ==>
      AttachSpan(base, ctx).fields == base.fields + [Field("traceId", ctx.traceId.value), Field("spanId", ctx.spanId.value)]
  {
  }

  // ---------------------------------------------------------------- the registry

  /** The process-wide active logger, together with the tracing agent that `NewLogger` starts. */
  class Registry {
    var active: Logger
    const tracing: Agent.Agent

    constructor (tracing: Agent.Agent)
      ensures active == DefaultLogger && this.tracing == tracing
    {
      active := DefaultLogger;
      this.tracing := tracing;
    }

    /** `log()`: the active logger. */
    function Log(): (l: Logger)
      reads this
      ensures l == active
    {
      active
    }

    /** `SetLog`: replace the active logger. */
    method SetLog(l: Logger)
      modifies this
      ensures Log() == l
      ensures tracing.State() == old(tracing.State())
    {
      active := l;
    }

    /** `With`: builds a child logger and discards it, so the active logger stays as it was. */
    method With(fields: seq<Field>)
      ensures Log() == old(Log())
    {
      var _ := active.With(fields);
    }

    /** `WithContext`: the active logger tagged with the ids of the context. */
    function WithContext(ctx: SpanContext): (r: Logger)
      reads this
      ensures r.core == active.core
      ensures WellFormed(ctx) ==> (r == active <==> ctx.traceId.None? || ctx.spanId.None?)
      ensures WellFormed(ctx) && ctx.traceId.Some? && ctx.spanId.Some? ==>
        r == active.With([Field("traceId", ctx.traceId.value), Field("spanId", ctx.spanId.value)])
    {
      AttachSpan(active, ctx)
    }

    /**
     * `NewLogger`: validate, parse the level, pick the writers, apply the options, pick the
     * encoder, install the new logger, then start the tracing agent. An error changes nothing;
     * once validation passes the tracing outcome cannot make it fail.
     */
    method NewLogger(c: Config, opts: seq<LogOption>, exporterOk: bool) returns (err: Option<InitError>)
      modifies this, tracing
      ensures err.None? <==> Valid(c)
      ensures err.None? ==> Build(c, opts) == Ok(active)
      ensures err.None? ==> tracing.State() == Agent.Step(old(tracing.State()), c.trace, exporterOk)
      ensures err.Some? ==> Build(c, opts) == Err(err.value)
      ensures err.Some? ==> active == old(active) && tracing.State() == old(tracing.State())
    {
      if !Valid(c) {
        return Some(InvalidConfig);
      }
      var level := ParseLevel(c.level);
      if level.None? {
        return Some(BadLevel(c.level));
      }

      var w: seq<Writer> := [];
      if c.mode == "file" {
        w := w + [File];
      } else if c.mode == "console" {
        w := w + [Stdout];
      } else {
        w := w + [File, Stdout];
      }
      assert w == ModeWriters(c.mode);

      var o := ApplyOptions(opts);
      if o.w.Some? {
        w := w + [Extra(o.w.value)];
      }
      assert w == SinkWriters(c.mode, Fold(opts).w);

      var encoder: Encoder;
      if c.format == "json" {
        encoder := Json;
      } else if c.format == "text" {
        encoder := Console;
      } else {
        return Some(UnknownFormat(c.format));
      }
      active := Logger(Core(encoder, w, level.value), [], Some(Error), true);

      tracing.StartAgent(c.trace, exporterOk);
      return None;
    }
  }
}
