# Jaeger tracer: configuration and scoping layer

This project models the configuration and scoping layer of the Python Jaeger
tracing client, as written in `jaeger_client/tracer_2.py`, `jaeger_client/scope.py`
and `jaeger_client/scope_manager.py`, and proves what that code does.

- **Tracer construction.** The constructor builds the process tags and the codec
  registry in place. The tags start from the client version tag. The caller's tags
  are merged over it, and the caller wins. The IP and hostname tags are filled only
  where still missing or `None`, and a failed hostname lookup leaves the key as
  the caller left it (absent, or `None`).
  A client-id tag is written, and handed to the throttler, only when a throttler
  is given. The registry holds the text-map, HTTP-header, binary and Zipkin codecs,
  and the caller's extra codecs override or extend it. Both are specified by pure
  functions (`TracerConfig.ProcessTags`, `TracerConfig.CodecRegistry`) whose
  contracts characterise them key by key. The imperative construction is proved
  against them. `dict.update` is modelled as the keyed loop Python performs
  (`Dicts.Update`).
- **Tracer helpers.** `active_span`, `start_span`, which raises when
  `ignore_active_span` is set because its local `span` is never bound,
  `start_active_span`, which drops the tags, the start time and `finish_on_close`
  and does not touch the manager, and `start_child_span`, which delegates to the
  parent span's own tracer.
- **References.** `child_of` and `follows_from` build immutable `(type, context)`
  pairs. A reference with a `None` context is one a tracer must ignore. The code
  that consumes references is the base class's `start_span`, which is not part of
  this model, so that rule is stated only as the predicate `MustIgnore`.
- **Scope and ScopeManager, as written.** The manager holds one span and one scope,
  both fixed at construction. `activate` returns that scope whatever its arguments,
  and `active` returns it on every call: there is no stack of activations.
  `Scope.close` does nothing when `close_on_finish` is set. Otherwise it assigns to
  the manager's read-only `active` property, which raises `AttributeError`.
  `__exit__` runs the span's error hook first, on a normal exit too, and then closes.

Python `None` is `Option.None` or a `null` reference. An exception is the `Failure`
or `Fail` side of a `Result` or `Outcome`. A dictionary is a `map`. A caller's
`None` and an empty dictionary are both the empty map, because the source treats
both as false and skips the update.

Outside inputs are parameters. `Environment` carries the client version string,
the result of `local_ip()`, the outcome of `socket.gethostname()` (`None` when it
raised `socket.error`) and the number `random.randint(0, sys.maxsize)` drew. The
base class's `start_span` is the function field `Tracer.parentStartSpan`. It gives
the new span's context from the arguments it is handed. The span, reporter and
throttler classes are not part of this model. `Span`, `Reporter` and `Throttler`
are stand-ins that keep what the core hands to them: a span's construction
arguments and its error-hook calls, the reporter's process description, and the
throttler's client id.

The keys and defaults come from `constants.py`, and the format names from the
OpenTracing `Format` class and the Zipkin codec module. None of those files is part
of this model. Their values are those of the released client: `jaeger.version`,
`ip`, `hostname`, `client-uuid`, `uber-trace-id`, `uberctx-`, `jaeger-debug-id`,
1024, 64 and 128 bits, `text_map`, `http_headers`, `binary` and `zipkin-span-format`.

## Model

| member | source | states |
|---|---|---|
| `Dicts.Update` | jaeger_client/tracer_2.py:59-65 | `dict.update`: the result has the keys of both maps; the other map's value wins on every key it has; every other key keeps its value |
| `References.ChildOf` | jaeger_client/tracer_2.py:234-246 | builds a reference of type `child_of` (never `follows_from`) whose context is the argument, `None` by default; it must be ignored exactly when that context is `None` |
| `References.FollowsFrom` | jaeger_client/tracer_2.py:249-261 | builds a reference of type `follows_from` (never `child_of`) whose context is the argument, `None` by default; it must be ignored exactly when that context is `None` |
| `References.HelpersAreDistinguishable` | jaeger_client/tracer_2.py:205-212 | the two reference types are different strings, so `child_of` and `follows_from` never build the same reference, and each helper is one-to-one in its context |
| `TracerConfig.ProcessTags` | jaeger_client/tracer_2.py:61-81 | the version key holds the caller's value if given, else the client version; the IP is `local_ip()` exactly when the caller's is missing or `None`; the hostname likewise, and a failed lookup leaves it as the caller left it; the client id is present with the drawn value when there is a throttler, and otherwise only if the caller gave it; every other key is exactly the caller's |
| `TracerConfig.ProcessTagsIdempotent` | jaeger_client/tracer_2.py:61-81 | defaults only fill gaps: building the tags again from a tracer's own tags in the same environment returns them unchanged |
| `TracerConfig.SuppliedTagsAreKept` | jaeger_client/tracer_2.py:61-75 | when the caller gives the version, a non-`None` IP and a non-`None` hostname, and there is no throttler, the tags are exactly the caller's, whatever the environment |
| `TracerConfig.CodecRegistry` | jaeger_client/tracer_2.py:43-60 | the registry has the four default formats plus the extra ones; an extra codec wins for its format; a default format not overridden holds its default codec: text map without URL encoding, HTTP headers with it, both with the same headers and prefix, then binary and Zipkin |
| `TracerConfig.MaxTraceIdBits` | jaeger_client/tracer_2.py:41-42 | trace ids are 128 bits wide exactly when 128-bit ids are asked for, and 64 bits otherwise |
| `Tracing.Tracer.RegisterCodecs` | jaeger_client/tracer_2.py:43-60 | building the registry step by step (defaults, then `update` when extras are given) yields `CodecRegistry` |
| `Tracing.Tracer.BuildProcessTags` | jaeger_client/tracer_2.py:61-81 | building the tags in place step by step yields `ProcessTags`, and the throttler, when given, receives the same client id as the tag |
| `Tracing.Tracer.constructor` | jaeger_client/tracer_2.py:20-89 | every option is stored, with the defaults when omitted; codecs and tags are as specified above; the reporter receives the service name, those tags and the maximum tag length; the scope manager is new and its active scope wraps a new span named `main` of this tracer |
| `Tracing.Tracer.ActiveSpan` | jaeger_client/tracer_2.py:98-107 | the active span is the span of the manager's active scope; that scope is never `None`, so the `None` branch is never taken |
| `Tracing.Tracer.StartSpan` | jaeger_client/tracer_2.py:158-170 | fails with `UnboundLocalError` exactly when `ignore_active_span` is set; otherwise returns a new span of this tracer built by the base class from the same arguments |
| `Tracing.Tracer.StartActiveSpan` | jaeger_client/tracer_2.py:109-156 | returns a new scope of this tracer's manager with `close_on_finish` set, around a new span started from the name, parent and references only; tags, start time, `ignore_active_span` and `finish_on_close` are dropped; the active span is unchanged |
| `Tracing.Tracer.StartChildSpan` | jaeger_client/tracer_2.py:172-202 | asks the parent span's own tracer for a span whose `child_of` is the parent span, with the given name, tags and start time; fails with `AttributeError` when the parent span has no tracer |
| `Tracing.Scope.constructor` | jaeger_client/scope.py:16-35 | `span` and `manager` are exactly the constructor arguments and, being constants, never change; `close_on_finish` defaults to true |
| `Tracing.Scope.Close` | jaeger_client/scope.py:37-44 | succeeds exactly when `close_on_finish` is set; otherwise the write to the manager's read-only `active` raises `AttributeError`; nothing is modified either way |
| `Tracing.Scope.Enter` | jaeger_client/scope.py:46-48 | returns the scope itself |
| `Tracing.Scope.Exit` | jaeger_client/scope.py:50-58 | the span's error hook receives the exception triple, also on a normal exit, and then the outcome is that of `close` |
| `Tracing.ScopeManager.constructor` | jaeger_client/scope_manager.py:11-16 | a given span or scope is stored as given; without a span the manager makes a placeholder span with no tracer, an empty context and the name `None`; without a scope it makes one over its span, with itself as manager |
| `Tracing.ScopeManager.Active` | jaeger_client/scope_manager.py:30-41 | returns the stored scope; as no method of the manager writes its fields, every call returns the same object |
| `Tracing.ScopeManager.Activate` | jaeger_client/scope_manager.py:18-28 | ignores its arguments and returns the same scope as `active`, changing nothing |

## Left out

- Tracer metrics: the metrics factory and the `TracerMetrics` counters are pass-through to a factory with no logic of their own.
- The sampler: it is only stored by the constructor.
- Seeding the tracer's random generator from the clock and the process id: this is floating point, time and randomness. The client id is the `Environment.clientIdDraw` input.
- `socket.gethostname()`, `local_ip()` and the logging of a failed lookup: external I/O. Only their results are inputs.
- `Tracing.Tracer.StartSpan`: the base class's `start_span` is not part of this model. The model keeps the arguments it receives and the context it returns as a function of them. Its use of the active scope, random ids and sampling is not modelled.
- The span class's parameter order: `span.py` is not part of this model. The placeholder built by `ScopeManager` with `Span(None, SpanContext(), 'None')` is read as (tracer, context, operation name), which gives no tracer and an empty context. A `Span(context, tracer, operation_name)` order would instead give a `None` context and a `SpanContext` as the tracer.
- The span class: the error hook `_on_error` is only recorded, not what it does to the span's tags and logs.
- `Tracing.Tracer.constructor`: the reporter's `set_process` receives the tag map as a value. The Python dictionary object it shares with the tracer is not modelled as aliased.
- `Tracing.Scope.Close`: the manager argument is typed `ScopeManager`, so the model covers only managers whose `active` has no setter, which is every manager in this code.
- Thread- or task-local active scopes and a stack of activations: the code implements neither.
- The demo entry point `main.py`: environment variables, configuration loading and an event loop, with no stated behaviour.
