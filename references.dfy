/**
 * References between spans, as in the "References between Spans" section of the
 * OpenTracing semantic specification: an immutable pair of a reference type and
 * the span context it points at.
 */
module References {
  import opened Wrappers

  /**
   * The identity a span carries across process boundaries. The class that defines
   * it (span_context.py) is not part of this model; only its fields are kept.
   */
  datatype SpanContext = SpanContext(
    traceId: Option<nat>,
    spanId: Option<nat>,
    parentId: Option<nat>,
    flags: nat,
    baggage: map<string, string>)

  /** The context built with no arguments: no ids, no flags, no baggage. */
  const EmptyContext: SpanContext := SpanContext(None, None, None, 0, map[])

  /** The two reference types, by their string values. */
  const ChildOfType: string := "child_of"
  const FollowsFromType: string := "follows_from"

  /** `Reference(type, referenced_context)`, a named tuple. */
  datatype Reference = Reference(refType: string, referencedContext: Option<SpanContext>)

  /** A tracer must skip a reference whose context is `None`. */
  predicate MustIgnore(r: Reference) {
    r.referencedContext.None?
  }

  /** `child_of(referenced_context=None)`. */
  function ChildOf(referencedContext: Option<SpanContext> := None): (r: Reference)
    ensures r.refType == ChildOfType && r.refType != FollowsFromType
    ensures r.referencedContext == referencedContext
    ensures MustIgnore(r) <==> referencedContext == None
  {
    Reference(ChildOfType, referencedContext)
  }

  /** `follows_from(referenced_context=None)`. */
  function FollowsFrom(referencedContext: Option<SpanContext> := None): (r: Reference)
    ensures r.refType == FollowsFromType && r.refType != ChildOfType
    ensures r.referencedContext == referencedContext
    ensures MustIgnore(r) <==> referencedContext == None
  {
    Reference(FollowsFromType, referencedContext)
  }

  /**
   * The two helpers never build the same reference, and each is one-to-one in its
   * context: a reference tells which helper built it and from which context.
   */
  lemma HelpersAreDistinguishable(c: Option<SpanContext>, d: Option<SpanContext>)
    ensures ChildOf(c) != FollowsFrom(d)
    ensures ChildOf(c) == ChildOf(d) <==> c == d
    ensures FollowsFrom(c) == FollowsFrom(d) <==> c == d
  {
  }
}
