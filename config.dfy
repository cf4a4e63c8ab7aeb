/**
 * The declarative configuration of the facade (config/config.go) and the validity
 * predicate that its `validate:"..."` struct tags define.
 *
 * A tag of the form `eq=a|eq=b|eq=` is a list of alternatives: the field is valid when it
 * equals one of them (`eq=` admits the empty string). A field without a tag is unconstrained.
 */
module Config {

  /** The `float64` sampling ratio, kept as its IEEE-754 bit pattern: it is carried, never interpreted. */
  datatype Sampler = Sampler(bits: bv64)

  /** The embedded rotating-file settings (lumberjack); they carry no validation tag. */
  datatype FileSink = FileSink(
    filename: string, maxSize: int, maxAge: int, maxBackups: int, localTime: bool, compress: bool)

  /** Tracing configuration: service name, collector endpoint, sampling ratio and exporter kind. */
  datatype Trace = Trace(name: string, endpoint: string, sampler: Sampler, batcher: string)

  /** The whole configuration; `trace` is the embedded `Trace`, `file` the embedded lumberjack logger. */
  datatype Config = Config(trace: Trace, level: string, format: string, mode: string, file: FileSink)

  /** The alternatives of an `eq=...|eq=...` tag, in the order written. */
  type Tag = seq<string>

  const LevelTag: Tag := ["debug", "info", "warn", "error"]
  const FormatTag: Tag := ["text", "json"]
  const ModeTag: Tag := ["file", "console", ""]
  const BatcherTag: Tag := ["jaeger", "zipkin", ""]

  /** Whether `v` passes the tag: the alternatives are tried left to right. */
  function Satisfies(tag: Tag, v: string): (ok: bool)
    ensures ok <==> v in tag
  {
    if tag == [] then false
    else v == tag[0] || Satisfies(tag[1..], v)
  }

  predicate ValidLevel(level: string) { Satisfies(LevelTag, level) }
  predicate ValidFormat(format: string) { Satisfies(FormatTag, format) }
  predicate ValidMode(mode: string) { Satisfies(ModeTag, mode) }
  predicate ValidBatcher(batcher: string) { Satisfies(BatcherTag, batcher) }

  /** `Trace` has a tag on `Batcher` only. */
  predicate ValidTrace(t: Trace) { ValidBatcher(t.batcher) }

  /** Struct validation walks the embedded `Trace` as well as the tagged fields of `Config`. */
  predicate Valid(c: Config) {
    ValidTrace(c.trace) && ValidLevel(c.level) && ValidFormat(c.format) && ValidMode(c.mode)
  }

  lemma LevelValidity(level: string)
    ensures ValidLevel(level) <==> level == "debug" || level == "info" || level == "warn" || level == "error"
  {
  }

  lemma FormatValidity(format: string)
    ensures ValidFormat(format) <==> format == "text" || format == "json"
  {
  }

  lemma ModeValidity(mode: string)
    ensures ValidMode(mode) <==> mode == "file" || mode == "console" || mode == ""
  {
  }

  lemma BatcherValidity(batcher: string)
    ensures ValidBatcher(batcher) <==> batcher == "jaeger" || batcher == "zipkin" || batcher == ""
  {
  }

  /**
   * Validation constrains the four tagged fields and nothing else: the service name, the
   * endpoint, the sampler and the file settings may be replaced freely.
   */
  lemma UntaggedFieldsUnconstrained(c: Config, name: string, endpoint: string, sampler: Sampler, file: FileSink)
    ensures Valid(c) <==>
      Valid(c.(trace := c.trace.(name := name, endpoint := endpoint, sampler := sampler), file := file))
  {
  }

  /** A non-empty endpoint does not force a known exporter: an empty `Batcher` still validates. */
  lemma EndpointWithoutBatcherValid(c: Config, endpoint: string)
    requires ValidLevel(c.level) && ValidFormat(c.format) && ValidMode(c.mode)
    ensures Valid(c.(trace := c.trace.(endpoint := endpoint, batcher := "")))
  {
  }
}
