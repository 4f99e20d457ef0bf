/**
 * The tracer's object layer: the scope that binds a span, the scope manager that
 * holds the active scope, and the tracer that builds its process tags and codec
 * registry and starts spans. Scope, ScopeManager, Span and Tracer refer to one
 * another, so they share one module.
 */
module Tracing {
  import opened Wrappers
  import opened References
  import opened TracerConfig
  import Dicts

  /** The exceptions the core raises. */
  datatype PyError =
    | UnboundLocalError(variable: string)
    | AttributeError(attribute: string)

  /** The `(exc_type, exc_val, exc_tb)` triple a `with` block hands to `__exit__`. */
  datatype ExcInfo = ExcInfo(excType: Option<string>, excVal: Option<string>, excTb: Option<string>)

  /** The `child_of` argument of `start_span`: nothing, a span, or a span context. */
  datatype Parent = NoParent | ParentSpan(span: Span) | ParentContext(context: SpanContext)

  /** The arguments `Tracer.start_span` hands on to the base class's `start_span`. */
  datatype SpanRequest = SpanRequest(
    operationName: Option<string>,
    childOf: Parent,
    references: Option<seq<Reference>>,
    tags: Option<map<string, TagValue>>,
    startTime: Option<real>)

  /** What the tracer hands to the reporter's `set_process`. */
  datatype ProcessInfo = ProcessInfo(serviceName: string, tags: map<string, TagValue>, maxLength: nat)

  /**
   * A span. The span class is not part of this model: a span keeps the tracer,
   * context, name, tags and start time it was built with, and records every call
   * of its error hook `_on_error`.
   */
  class Span {
    const tracer: Tracer?
    const context: SpanContext
    const operationName: Option<string>
    const tags: Option<map<string, TagValue>>
    const startTime: Option<real>
    var errorHookCalls: seq<ExcInfo>

    constructor(tracer: Tracer?, context: SpanContext, operationName: Option<string>,
                tags: Option<map<string, TagValue>> := None, startTime: Option<real> := None)
      ensures this.tracer == tracer && this.context == context && this.operationName == operationName
      ensures this.tags == tags && this.startTime == startTime
      ensures errorHookCalls == []
    {
      this.tracer := tracer;
      this.context := context;
      this.operationName := operationName;
      this.tags := tags;
      this.startTime := startTime;
      errorHookCalls := [];
    }

    /** `span._on_error(exc_type, exc_val, exc_tb)`. */
    method OnError(exc: ExcInfo)
      modifies this
      ensures errorHookCalls == old(errorHookCalls) + [exc]
    {
      errorHookCalls := errorHookCalls + [exc];
    }
  }

  /** The reporter, reduced to the process description it was given. */
  class Reporter {
    var process: Option<ProcessInfo>

    constructor()
      ensures process == None
    {
      process := None;
    }

    /** `reporter.set_process(service_name, tags, max_length)`. */
    method SetProcess(serviceName: string, tags: map<string, TagValue>, maxLength: nat)
      modifies this
      ensures process == Some(ProcessInfo(serviceName, tags, maxLength))
    {
      process := Some(ProcessInfo(serviceName, tags, maxLength));
    }
  }

  /** The throttler, reduced to the client id it was given. */
  class Throttler {
    var clientId: Option<int>

    constructor()
      ensures clientId == None
    {
      clientId := None;
    }

    /** `throttler._set_client_id(client_id)`. */
    method SetClientId(id: int)
      modifies this
      ensures clientId == Some(id)
    {
      clientId := Some(id);
    }
  }

  /**
   * `Scope(manager, span, close_on_finish=True)`: binds a span to the manager
   * that issued it. None of the three is ever reassigned.
   */
  class Scope {
    const manager: ScopeManager
    const span: Span
    const closeOnFinish: bool

    constructor(manager: ScopeManager, span: Span, closeOnFinish: bool := true)
      ensures this.manager == manager && this.span == span && this.closeOnFinish == closeOnFinish
    {
      this.manager := manager;
      this.span := span;
      this.closeOnFinish := closeOnFinish;
    }

    /**
     * `close()`: with `close_on_finish` set it does nothing; otherwise it assigns
     * `None` to the manager's `active`, a property without a setter, which raises.
     * Either way no state changes.
     */
    method Close() returns (r: Outcome<PyError>)
      ensures r == Pass <==> closeOnFinish
      ensures r != Pass ==> r == Fail(AttributeError("active"))
    {
      if !closeOnFinish {
        r := Fail(AttributeError("active"));
      } else {
        r := Pass;
      }
    }

    /** `__enter__`: the value bound by `with ... as scope` is the scope itself. */
    method Enter() returns (s: Scope)
      ensures s == this
    {
      s := this;
    }

    /**
     * `__exit__(exc_type, exc_val, exc_tb)`: first hands the triple to the span's
     * error hook, on a normal exit too, then closes; the hook has run even when
     * closing raises.
     */
    method Exit(exc: ExcInfo) returns (r: Outcome<PyError>)
      modifies span
      ensures span.errorHookCalls == old(span.errorHookCalls) + [exc]
      ensures r == Pass <==> closeOnFinish
      ensures r != Pass ==> r == Fail(AttributeError("active"))
    {
      span.OnError(exc);
      r := Close();
    }
  }

  /**
   * `ScopeManager(span=None, scope=None)`: holds one span and one scope, fixed at
   * construction. No method assigns either field, so the active scope never
   * changes: there is no stack of activations.
   */
  class ScopeManager {
    const span: Span
    var scope: Scope?

    ghost predicate Valid()
      reads this
    {
      scope != null
    }

    constructor(span: Span? := null, scope: Scope? := null)
      ensures Valid()
      ensures span != null ==> this.span == span
      ensures span == null ==>
                fresh(this.span) && this.span.tracer == null
                && this.span.context == EmptyContext && this.span.operationName == Some("None")
      ensures scope != null ==> this.scope == scope
      ensures scope == null ==>
                fresh(this.scope) && this.scope.manager == this
                && this.scope.span == this.span && this.scope.closeOnFinish
    {
      if span != null {
        this.span := span;
      } else {
        this.span := new Span(null, EmptyContext, Some("None"));
      }
      new;
      if scope != null {
        this.scope := scope;
      } else {
        this.scope := new Scope(this, this.span);
      }
    }

    /** `active`: the stored scope, on every call. */
    function Active(): (s: Scope)
      requires Valid()
      reads this
      ensures s == scope
    {
      scope
    }

    /** `activate(span, finish_on_close)`: ignores both arguments and returns the active scope. */
    function Activate(span: Span, finishOnClose: bool): (s: Scope)
      requires Valid()
      reads this
      ensures s == Active()
    {
      scope
    }
  }

  /** The tracer: its options, process tags, codec registry and scope manager. */
  class Tracer {
    const serviceName: string
    const reporter: Reporter
    /** What the base class's `start_span` makes the new span's context. */
    const parentStartSpan: SpanRequest -> SpanContext
    const debugIdHeader: string
    const oneSpanPerRpc: bool
    const maxTagValueLength: nat
    const maxTraceIdBits: nat
    const throttler: Throttler?
    var codecs: map<Format, Codec>
    var tags: map<string, TagValue>
    var scopeManager: ScopeManager?

    ghost predicate Valid()
      reads this, scopeManager
    {
      scopeManager != null && scopeManager.Valid()
    }

    /**
     * `Tracer(service_name, reporter, sampler, ...)`: builds the codec registry and
     * the process tags in place, hands the client id to the throttler, the process
     * to the reporter, and finally installs a scope manager around a span named
     * "main".
     */
    constructor(serviceName: string, reporter: Reporter, parentStartSpan: SpanRequest -> SpanContext,
                env: Environment,
                traceIdHeader: string := TraceIdHeader,
                generate128bitTraceId: bool := false,
                baggageHeaderPrefix: string := BaggageHeaderPrefix,
                debugIdHeader: string := DebugIdHeaderKey,
                oneSpanPerRpc: bool := false,
                extraCodecs: map<Format, Codec> := map[],
                tags: map<string, TagValue> := map[],
                maxTagValueLength: nat := MaxTagValueLength,
                throttler: Throttler? := null)
      requires 0 <= env.clientIdDraw <= SysMaxSize
      modifies reporter, throttler
      ensures Valid()
      ensures this.serviceName == serviceName && this.reporter == reporter && this.parentStartSpan == parentStartSpan
      ensures this.debugIdHeader == debugIdHeader && this.oneSpanPerRpc == oneSpanPerRpc
      ensures this.maxTagValueLength == maxTagValueLength && this.throttler == throttler
      ensures maxTraceIdBits == MaxTraceIdBits(generate128bitTraceId)
      ensures codecs == CodecRegistry(traceIdHeader, baggageHeaderPrefix, debugIdHeader, extraCodecs)
      ensures this.tags == ProcessTags(tags, env, throttler != null)
      ensures throttler != null ==> throttler.clientId == Some(env.clientIdDraw)
      ensures reporter.process == Some(ProcessInfo(serviceName, this.tags, maxTagValueLength))
      ensures fresh(scopeManager) && fresh(scopeManager.scope)
      ensures scopeManager.scope.manager == scopeManager && scopeManager.scope.closeOnFinish
      ensures ActiveSpan() == scopeManager.span
      ensures fresh(ActiveSpan()) && ActiveSpan().tracer == this && ActiveSpan().operationName == Some("main")
      ensures ActiveSpan().context == parentStartSpan(SpanRequest(Some("main"), NoParent, None, None, None))
    {
      this.serviceName := serviceName;
      this.reporter := reporter;
      this.parentStartSpan := parentStartSpan;
      this.debugIdHeader := debugIdHeader;
      this.oneSpanPerRpc := oneSpanPerRpc;
      this.maxTagValueLength := maxTagValueLength;
      maxTraceIdBits := MaxTraceIdBits(generate128bitTraceId);

      var registry := RegisterCodecs(traceIdHeader, baggageHeaderPrefix, debugIdHeader, extraCodecs);
      codecs := registry;
      this.throttler := throttler;
      var processTags := BuildProcessTags(tags, env, throttler);
      this.tags := processTags;

      reporter.SetProcess(serviceName, processTags, maxTagValueLength);
      new;

      var main := StartSpan(Some("main"));
      scopeManager := new ScopeManager(main.value, null);
    }

    /**
     * Lines building `self.codecs`: the four default codecs, then
     * `update(extra_codecs)` when any are given.
     */
    static method RegisterCodecs(traceIdHeader: string, baggageHeaderPrefix: string, debugIdHeader: string,
                                 extraCodecs: map<Format, Codec>)
      returns (registry: map<Format, Codec>)
      ensures registry == CodecRegistry(traceIdHeader, baggageHeaderPrefix, debugIdHeader, extraCodecs)
    {
      registry := DefaultCodecs(traceIdHeader, baggageHeaderPrefix, debugIdHeader);
      if extraCodecs != map[] {
        registry := Dicts.Update(registry, extraCodecs);
      }
    }

    /**
     * Lines building `self.tags` in place: the version tag, `update(tags)` when any
     * are given, the IP and the hostname where missing or `None` (a failed hostname
     * lookup is logged and skipped), and the client id, which is also handed to the
     * throttler, when there is one.
     */
    static method BuildProcessTags(callerTags: map<string, TagValue>, env: Environment, throttler: Throttler?)
      returns (processTags: map<string, TagValue>)
      modifies throttler
      ensures processTags == ProcessTags(callerTags, env, throttler != null)
      ensures throttler != null ==> throttler.clientId == Some(env.clientIdDraw)
    {
      processTags := map[VersionTagKey := Text(env.clientVersion)];
      if callerTags != map[] {
        processTags := Dicts.Update(processTags, callerTags);
      }
      if MissingOrNone(processTags, IpTagKey) {
        processTags := processTags[IpTagKey := env.localIp];
      }
      if MissingOrNone(processTags, HostnameTagKey) {
        match env.hostname
        case Some(hostname) => processTags := processTags[HostnameTagKey := Text(hostname)];
        case None =>
      }
      if throttler != null {
        var clientId := env.clientIdDraw;
        throttler.SetClientId(clientId);
        processTags := processTags[ClientUuidTagKey := Number(clientId)];
      }
    }

    /** `active_span`: the span of the manager's active scope, which is never `None`. */
    function ActiveSpan(): (s: Span)
      requires Valid()
      reads this, scopeManager
      ensures s == scopeManager.Active().span
    {
      scopeManager.scope.span
    }

    /**
     * `start_span(...)`: with `ignore_active_span` the local `span` is never bound
     * and the return raises; otherwise the base class starts the span from the
     * same arguments.
     */
    method StartSpan(operationName: Option<string> := None, childOf: Parent := NoParent,
                     references: Option<seq<Reference>> := None,
                     tags: Option<map<string, TagValue>> := None, startTime: Option<real> := None,
                     ignoreActiveSpan: bool := false)
      returns (r: Result<Span, PyError>)
      ensures r.Failure? <==> ignoreActiveSpan
      ensures r.Failure? ==> r.error == UnboundLocalError("span")
      ensures r.Success? ==>
                fresh(r.value) && r.value.tracer == this
                && r.value.operationName == operationName && r.value.tags == tags && r.value.startTime == startTime
                && r.value.context == parentStartSpan(SpanRequest(operationName, childOf, references, tags, startTime))
                && r.value.errorHookCalls == []
    {
      if ignoreActiveSpan {
        r := Failure(UnboundLocalError("span"));
      } else {
        var span := new Span(this, parentStartSpan(SpanRequest(operationName, childOf, references, tags, startTime)),
                             operationName, tags, startTime);
        r := Success(span);
      }
    }

    /**
     * `start_active_span(...)`: starts a span from the name, parent and references
     * only (tags, start time, `ignore_active_span` and `finish_on_close` are dropped)
     * and wraps it in a new scope of this tracer's manager, leaving the manager's
     * active scope as it was.
     */
    method StartActiveSpan(operationName: Option<string>, childOf: Parent := NoParent,
                           references: Option<seq<Reference>> := None,
                           tags: Option<map<string, TagValue>> := None, startTime: Option<real> := None,
                           ignoreActiveSpan: bool := false, finishOnClose: bool := true)
      returns (scope: Scope)
      requires Valid()
      ensures fresh(scope) && fresh(scope.span)
      ensures scope.manager == scopeManager && scope.closeOnFinish
      ensures scope.span.tracer == this && scope.span.operationName == operationName
      ensures scope.span.tags == None && scope.span.startTime == None
      ensures scope.span.context == parentStartSpan(SpanRequest(operationName, childOf, references, None, None))
      ensures Valid() && ActiveSpan() == old(ActiveSpan())
    {
      var started := StartSpan(operationName, childOf, references);
      scope := new Scope(scopeManager, started.value);
    }

    /**
     * `start_child_span(parent_span, operation_name, tags, start_time)`: asks the
     * parent span's own tracer to start a span whose parent is `parent_span`; a
     * span without a tracer has no `start_span` to call.
     */
    method StartChildSpan(parentSpan: Span, operationName: Option<string>,
                          tags: Option<map<string, TagValue>> := None, startTime: Option<real> := None)
      returns (r: Result<Span, PyError>)
      ensures r.Failure? <==> parentSpan.tracer == null
      ensures r.Failure? ==> r.error == AttributeError("start_span")
      ensures r.Success? ==>
                fresh(r.value) && r.value.tracer == parentSpan.tracer
                && r.value.operationName == operationName && r.value.tags == tags && r.value.startTime == startTime
                && r.value.context == parentSpan.tracer.parentStartSpan(
                     SpanRequest(operationName, ParentSpan(parentSpan), None, tags, startTime))
    {
      if parentSpan.tracer == null {
        r := Failure(AttributeError("start_span"));
      } else {
        r := parentSpan.tracer.StartSpan(operationName, ParentSpan(parentSpan), None, tags, startTime);
      }
    }
  }
}
