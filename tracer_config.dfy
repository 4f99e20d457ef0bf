/**
 * What the tracer's constructor computes from its options: the process tags it
 * reports for the service, the registry of propagation codecs, and the width of
 * trace ids. These are the specifications the constructor in module Tracing is
 * proved against.
 */
module TracerConfig {
  import opened Wrappers

  // Keys of the process tags (constants.py, which is not part of this model).
  const VersionTagKey: string := "jaeger.version"
  const IpTagKey: string := "ip"
  const HostnameTagKey: string := "hostname"
  const ClientUuidTagKey: string := "client-uuid"

  // Defaults of the constructor's options (constants.py).
  const TraceIdHeader: string := "uber-trace-id"
  const BaggageHeaderPrefix: string := "uberctx-"
  const DebugIdHeaderKey: string := "jaeger-debug-id"
  const MaxTagValueLength: nat := 1024
  const MaxIdBits: nat := 64
  const MaxTraceIdBitsWide: nat := 128

  /** `sys.maxsize` on a 64-bit interpreter: the upper bound of the client-id draw. */
  const SysMaxSize: int := 0x7fff_ffff_ffff_ffff

  // Propagation formats, by their string values (opentracing.Format and ZipkinSpanFormat).
  type Format = string
  const TextMap: Format := "text_map"
  const HttpHeaders: Format := "http_headers"
  const Binary: Format := "binary"
  const ZipkinSpanFormat: Format := "zipkin-span-format"

  /** A tag value: Python's `None`, a string, an integer or a boolean. */
  datatype TagValue = NoneValue | Text(s: string) | Number(n: int) | Flag(b: bool)

  /**
   * A codec object. The codec classes are not part of this model; the text codec
   * keeps the options it was built with, and a codec supplied by the caller is an
   * opaque token.
   */
  datatype Codec =
    | TextCodec(urlEncoding: bool, traceIdHeader: string, baggageHeaderPrefix: string, debugIdHeader: string)
    | BinaryCodec
    | ZipkinCodec
    | CustomCodec(token: nat)

  /**
   * What the constructor learns from outside: the client version string, the result
   * of `local_ip()`, the result of `socket.gethostname()` (`None` when it raised
   * `socket.error`), and the number `random.randint(0, sys.maxsize)` drew.
   */
  datatype Environment = Environment(
    clientVersion: string,
    localIp: TagValue,
    hostname: Option<string>,
    clientIdDraw: int)

  /** `d.get(key) is None`: the key is missing or maps to `None`. */
  predicate MissingOrNone(d: map<string, TagValue>, key: string) {
    key !in d || d[key] == NoneValue
  }

  /** The keys the constructor fills in on its own. */
  predicate Reserved(key: string) {
    key == VersionTagKey || key == IpTagKey || key == HostnameTagKey || key == ClientUuidTagKey
  }

  /**
   * The process tags of a tracer built with caller tags `callerTags` in `env`,
   * with a throttler iff `hasThrottler`: the version tag, overridden by the
   * caller's tags; then the IP and the hostname, each only where still missing
   * or `None`; then the client id when a throttler is given.
   */
  function ProcessTags(callerTags: map<string, TagValue>, env: Environment, hasThrottler: bool): (r: map<string, TagValue>)
    // the caller's value for the version key wins over the client version
    ensures VersionTagKey in r
    ensures r[VersionTagKey] == if VersionTagKey in callerTags then callerTags[VersionTagKey] else Text(env.clientVersion)
    // the IP is looked up exactly when the caller left it missing or None
    ensures IpTagKey in r
    ensures r[IpTagKey] == if MissingOrNone(callerTags, IpTagKey) then env.localIp else callerTags[IpTagKey]
    // the hostname likewise; a failed lookup leaves the key as the caller left it
    ensures HostnameTagKey in r <==> HostnameTagKey in callerTags || env.hostname.Some?
    ensures !MissingOrNone(callerTags, HostnameTagKey) ==> r[HostnameTagKey] == callerTags[HostnameTagKey]
    ensures MissingOrNone(callerTags, HostnameTagKey) && env.hostname.Some? ==> r[HostnameTagKey] == Text(env.hostname.value)
    ensures MissingOrNone(callerTags, HostnameTagKey) && env.hostname.None? && HostnameTagKey in r ==> r[HostnameTagKey] == NoneValue
    // the client id is written iff there is a throttler
    ensures hasThrottler ==> ClientUuidTagKey in r && r[ClientUuidTagKey] == Number(env.clientIdDraw)
    ensures !hasThrottler ==> (ClientUuidTagKey in r <==> ClientUuidTagKey in callerTags)
    ensures !hasThrottler && ClientUuidTagKey in callerTags ==> r[ClientUuidTagKey] == callerTags[ClientUuidTagKey]
    // every other key is exactly the caller's
    ensures forall k :: !Reserved(k) ==> (k in r <==> k in callerTags)
    ensures forall k :: !Reserved(k) && k in r ==> r[k] == callerTags[k]
  {
    var versioned := map[VersionTagKey := Text(env.clientVersion)] + callerTags;
    var withIp := if MissingOrNone(versioned, IpTagKey) then versioned[IpTagKey := env.localIp] else versioned;
    var withHost :=
      if MissingOrNone(withIp, HostnameTagKey) && env.hostname.Some?
      then withIp[HostnameTagKey := Text(env.hostname.value)]
      else withIp;
    if hasThrottler then withHost[ClientUuidTagKey := Number(env.clientIdDraw)] else withHost
  }

  /** The four codecs every tracer registers. */
  function DefaultCodecs(traceIdHeader: string, baggageHeaderPrefix: string, debugIdHeader: string): map<Format, Codec> {
    map[
      TextMap := TextCodec(false, traceIdHeader, baggageHeaderPrefix, debugIdHeader),
      HttpHeaders := TextCodec(true, traceIdHeader, baggageHeaderPrefix, debugIdHeader),
      Binary := BinaryCodec,
      ZipkinSpanFormat := ZipkinCodec]
  }

  /**
   * The codec registry: the four default formats, then the caller's extra codecs,
   * which replace a default of the same format or add a format.
   */
  function CodecRegistry(traceIdHeader: string, baggageHeaderPrefix: string, debugIdHeader: string,
                         extraCodecs: map<Format, Codec>): (r: map<Format, Codec>)
    ensures r.Keys == {TextMap, HttpHeaders, Binary, ZipkinSpanFormat} + extraCodecs.Keys
    ensures forall f :: f in extraCodecs ==> r[f] == extraCodecs[f]
    ensures TextMap !in extraCodecs ==> r[TextMap] == TextCodec(false, traceIdHeader, baggageHeaderPrefix, debugIdHeader)
    ensures HttpHeaders !in extraCodecs ==> r[HttpHeaders] == TextCodec(true, traceIdHeader, baggageHeaderPrefix, debugIdHeader)
    ensures Binary !in extraCodecs ==> r[Binary] == BinaryCodec
    ensures ZipkinSpanFormat !in extraCodecs ==> r[ZipkinSpanFormat] == ZipkinCodec
  {
    DefaultCodecs(traceIdHeader, baggageHeaderPrefix, debugIdHeader) + extraCodecs
  }

  /** The width of trace ids: 128 bits when asked for, 64 otherwise. */
  function MaxTraceIdBits(generate128bitTraceId: bool): (bits: nat)
    ensures bits == MaxIdBits || bits == MaxTraceIdBitsWide
    ensures bits == MaxTraceIdBitsWide <==> generate128bitTraceId
  {
    if generate128bitTraceId then MaxTraceIdBitsWide else MaxIdBits
  }

  /**
   * Defaults only fill gaps: building the tags again from a tracer's own tags, in
   * the same environment, gives the same tags.
   */
  lemma ProcessTagsIdempotent(callerTags: map<string, TagValue>, env: Environment, hasThrottler: bool)
    ensures ProcessTags(ProcessTags(callerTags, env, hasThrottler), env, hasThrottler)
         == ProcessTags(callerTags, env, hasThrottler)
  {
  }

  /**
   * When the caller supplies the version, the IP and the hostname, and there is no
   * throttler, the environment is never consulted and the tags are the caller's.
   */
  lemma SuppliedTagsAreKept(callerTags: map<string, TagValue>, env: Environment)
    requires VersionTagKey in callerTags
    requires !MissingOrNone(callerTags, IpTagKey) && !MissingOrNone(callerTags, HostnameTagKey)
    ensures ProcessTags(callerTags, env, false) == callerTags
  {
  }
}
