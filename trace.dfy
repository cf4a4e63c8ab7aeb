/**
 * The tracing agent (trace/trace.go): a process-wide registry of the collector endpoints for
 * which tracing has been started, plus the name of the current tracer.
 *
 * The OpenTelemetry SDK (sampler, resource, batcher, propagator, error handler) is not modelled;
 * whether the foreign `jaeger.New` / `zipkin.New` constructor succeeds is the parameter
 * `exporterOk` of each call.
 */
module Trace {
  import opened Wrappers
  import opened Config

  const Jaeger := "jaeger"
  const Zipkin := "zipkin"

  /** The name of the tracer before any agent has started (`otel.Tracer("zap-plus")`). */
  const DefaultTracer := "zap-plus"

  /** A span exporter bound to a collector endpoint. */
  datatype Exporter = JaegerExporter(endpoint: string) | ZipkinExporter(endpoint: string)

  /** Why no exporter was built: an unsupported `Batcher` (wrapping `ErrUnknownExporter`), or a failed foreign constructor. */
  datatype ExporterError = UnknownExporter(batcher: string) | ConstructionFailed(batcher: string)

  /** `createExporter`: dispatch on the exporter kind. */
  function CreateExporter(t: Trace, exporterOk: bool): (r: Result<Exporter, ExporterError>)
    ensures r.Ok? <==> (t.batcher == Jaeger || t.batcher == Zipkin) && exporterOk
    ensures r.Ok? ==> r.value.endpoint == t.endpoint
    ensures r.Ok? ==> (r.value.JaegerExporter? <==> t.batcher == Jaeger)
    ensures t.batcher != Jaeger && t.batcher != Zipkin ==> r == Err(UnknownExporter(t.batcher))
  {
    if t.batcher == Jaeger then
      if exporterOk then Ok(JaegerExporter(t.endpoint)) else Err(ConstructionFailed(t.batcher))
    else if t.batcher == Zipkin then
      if exporterOk then Ok(ZipkinExporter(t.endpoint)) else Err(ConstructionFailed(t.batcher))
    else
      Err(UnknownExporter(t.batcher))
  }

  /**
   * `startAgent`: with an endpoint, an exporter must be built and is then batched; without one the
   * provider has no exporter. The result is the batched exporter, if any.
   */
  function StartProvider(t: Trace, exporterOk: bool): (r: Result<Option<Exporter>, ExporterError>)
    ensures t.endpoint == "" ==> r == Ok(None)
    ensures t.endpoint != "" ==> (r.Ok? <==> CreateExporter(t, exporterOk).Ok?)
    ensures t.endpoint != "" && r.Ok? ==> r.value == Some(CreateExporter(t, exporterOk).value)
    ensures t.endpoint != "" && r.Err? ==> r.error == CreateExporter(t, exporterOk).error
    ensures r.Ok? && r.value.Some? ==> r.value.value.endpoint == t.endpoint
  {
    if |t.endpoint| > 0 then
      match CreateExporter(t, exporterOk)
      case Err(e) => Err(e)
      case Ok(exp) => Ok(Some(exp))
    else
      Ok(None)
  }

  /** The agent's state: the endpoints already started (they are never removed) and the tracer name. */
  datatype AgentState = AgentState(agents: set<string>, tracer: string)

  const Initial := AgentState({}, DefaultTracer)

  /** One `StartAgent` call, as a function of the state before it. */
  function Step(s: AgentState, t: Trace, exporterOk: bool): AgentState
  {
    if t.endpoint in s.agents then s
    else if StartProvider(t, exporterOk).Err? then s
    else AgentState(s.agents + {t.endpoint}, t.name)
  }

  /** Whether the call starts tracing (its endpoint is new and `startAgent` succeeds). */
  predicate Starts(s: AgentState, t: Trace, exporterOk: bool)
  {
    t.endpoint !in s.agents && StartProvider(t, exporterOk).Ok?
  }

  /** A call either changes nothing or records its endpoint and renames the tracer, and only grows the set. */
  lemma StepEffect(s: AgentState, t: Trace, exporterOk: bool)
    ensures Starts(s, t, exporterOk) ==> Step(s, t, exporterOk) == AgentState(s.agents + {t.endpoint}, t.name)
    ensures !Starts(s, t, exporterOk) ==> Step(s, t, exporterOk) == s
    ensures s.agents <= Step(s, t, exporterOk).agents <= s.agents + {t.endpoint}
    ensures t.endpoint in Step(s, t, exporterOk).agents <==> t.endpoint in s.agents || Starts(s, t, exporterOk)
  {
  }

  /** An endpoint already recorded makes the call a no-op: neither the set nor the tracer changes. */
  lemma KnownEndpointNoop(s: AgentState, t: Trace, exporterOk: bool)
    requires t.endpoint in s.agents
    ensures Step(s, t, exporterOk) == s
  {
  }

  /** A failed start records nothing, so a later call with the same endpoint tries again and can succeed. */
  lemma FailureAllowsRetry(s: AgentState, t: Trace)
    requires t.endpoint !in s.agents
    requires t.batcher == Jaeger || t.batcher == Zipkin
    ensures Step(s, t, false) == s || t.endpoint == ""
    ensures t.endpoint in Step(Step(s, t, false), t, true).agents
    ensures Step(Step(s, t, false), t, true).tracer == t.name
  {
  }

  /** Calling twice in a row with the same configuration and outcome leaves the state of one call. */
  lemma StepIdempotent(s: AgentState, t: Trace, exporterOk: bool)
    ensures Step(Step(s, t, exporterOk), t, exporterOk) == Step(s, t, exporterOk)
  {
  }

  /** After a successful start, no later outcome of the same call changes anything. */
  lemma StartedStaysStarted(s: AgentState, t: Trace, exporterOk: bool, laterOk: bool)
    requires Starts(s, t, exporterOk)
    ensures Step(Step(s, t, exporterOk), t, laterOk) == Step(s, t, exporterOk)
  {
  }

  /** With no endpoint no exporter is built, so the call always succeeds and `""` is recorded. */
  lemma EmptyEndpointRecorded(s: AgentState, t: Trace, exporterOk: bool)
    requires t.endpoint == ""
    ensures "" in Step(s, t, exporterOk).agents
    ensures "" !in s.agents ==> Step(s, t, exporterOk).tracer == t.name
  {
  }

  /** A validated trace config with an endpoint but no exporter kind never starts, whatever the constructors do. */
  lemma EndpointWithoutBatcherNeverRecorded(s: AgentState, t: Trace, exporterOk: bool)
    requires ValidTrace(t) && t.endpoint != "" && t.batcher == ""
    ensures StartProvider(t, exporterOk) == Err(UnknownExporter(""))
    ensures t.endpoint in Step(s, t, exporterOk).agents <==> t.endpoint in s.agents
  {
  }

  /** A sequence of `StartAgent` calls, each with its configuration and its constructor outcome. */
  function Run(s: AgentState, calls: seq<(Trace, bool)>): AgentState
    decreases |calls|
  {
    if calls == [] then s
    else Run(Step(s, calls[0].0, calls[0].1), calls[1..])
  }

  /**
   * Over any sequence of calls the set of endpoints only grows, and every endpoint in it was
   * either there before or is the endpoint of some call.
   */
  lemma {:induction false} RunMonotone(s: AgentState, calls: seq<(Trace, bool)>)
    ensures s.agents <= Run(s, calls).agents
    ensures forall e :: e in Run(s, calls).agents ==> e in s.agents || exists i :: 0 <= i < |calls| && calls[i].0.endpoint == e
    decreases |calls|
  {
    if calls != [] {
      var s' := Step(s, calls[0].0, calls[0].1);
      RunMonotone(s', calls[1..]);
      forall e | e in Run(s, calls).agents
        ensures e in s.agents || exists i :: 0 <= i < |calls| && calls[i].0.endpoint == e
      {
        if e !in s.agents {
          if e in s'.agents {
            assert calls[0].0.endpoint == e;
          } else {
            var j :| 0 <= j < |calls[1..]| && calls[1..][j].0.endpoint == e;
            assert calls[j + 1].0.endpoint == e;
          }
        }
      }
    }
  }

  /** Once an endpoint is recorded, every later sequence of calls keeps it and none of them restarts it. */
  lemma {:induction false} RecordedStaysRecorded(s: AgentState, e: string, calls: seq<(Trace, bool)>)
    requires e in s.agents
    requires forall i :: 0 <= i < |calls| ==> calls[i].0.endpoint == e
    ensures Run(s, calls) == s
    decreases |calls|
  {
    if calls != [] {
      RecordedStaysRecorded(s, e, calls[1..]);
    }
  }

  /** The process-wide agent registry: the `agents` set and the current `tracer`. */
  class Agent {
    var agents: set<string>
    var tracer: string

    constructor ()
      ensures State() == Initial
    {
      agents := {};
      tracer := DefaultTracer;
    }

    function State(): AgentState
      reads this
    {
      AgentState(agents, tracer)
    }

    /** `StartAgent`: start tracing for a new endpoint; a failure is swallowed and not recorded. */
    method StartAgent(t: Trace, exporterOk: bool)
      modifies this
      ensures State() == Step(old(State()), t, exporterOk)
      ensures old(agents) <= agents
    {
      if t.endpoint in agents {
        return;
      }
      var started := StartProvider(t, exporterOk);
      if started.Err? {
        return;
      }
      tracer := t.name;
      agents := agents + {t.endpoint};
    }
  }
}
