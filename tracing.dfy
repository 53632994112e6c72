/** The tracer of pkg/observability/tracing.go. Identifiers are generated from
    clock readings passed in as parameters, the sampler is a predicate on
    trace ids, and a context is the chain of spans attached to it. */
module Tracing {
  import opened Wrappers
  import opened Strings

  datatype SpanStatus = StatusOK | StatusError

  datatype SpanEvent = SpanEvent(time: int, name: string, message: string, tags: map<string, string>)

  class Span {
    var traceId: string
    const spanId: string
    var parentId: string
    const name: string
    const startTime: int
    var endTime: int
    var tags: map<string, string>
    var events: seq<SpanEvent>
    var status: SpanStatus

    /** A span as `StartSpan` builds it before applying any option. */
    constructor (traceId: string, spanId: string, name: string, startTime: int)
      ensures this.traceId == traceId && this.spanId == spanId && this.name == name && this.startTime == startTime
      ensures parentId == "" && endTime == 0 && tags == map[] && events == [] && status == StatusOK
    {
      this.traceId := traceId;
      this.spanId := spanId;
      parentId := "";
      this.name := name;
      this.startTime := startTime;
      endTime := 0;
      tags := map[];
      events := [];
      status := StatusOK;
    }
  }

  /** The options `WithParent` and `WithTags` build. */
  datatype SpanOption = WithParent(parent: Span?) | WithTags(tags: map<string, string>)

  /** A context: the background, or one carrying a span. */
  datatype Context = Background | WithSpan(outer: Context, span: Span)

  /** The fields options may change. */
  datatype SpanHead = SpanHead(traceId: string, parentId: string, tags: map<string, string>)

  /** The spans options read. */
  function Parents(opts: seq<SpanOption>): set<Span>
  {
    set o | o in opts && o.WithParent? && o.parent != null :: o.parent
  }

  /** The effect of one option: a parent lends its trace and becomes the
      parent (a nil parent does nothing); tags are added, replacing equal keys. */
  function Effect(h: SpanHead, o: SpanOption): (r: SpanHead)
    reads if o.WithParent? && o.parent != null then {o.parent} else {}
    ensures o.WithParent? && o.parent == null ==> r == h
    ensures o.WithParent? && o.parent != null ==> r == h.(traceId := o.parent.traceId, parentId := o.parent.spanId)
    ensures o.WithTags? ==> r.traceId == h.traceId && r.parentId == h.parentId && r.tags.Keys == h.tags.Keys + o.tags.Keys
    ensures o.WithTags? ==> forall k | k in r.tags :: r.tags[k] == if k in o.tags then o.tags[k] else h.tags[k]
  {
    match o
    case WithParent(p) => if p == null then h else h.(traceId := p.traceId, parentId := p.spanId)
    case WithTags(t) => h.(tags := h.tags + t)
  }

  /** The options applied in order. */
  function ApplyAll(h: SpanHead, opts: seq<SpanOption>): SpanHead
    reads Parents(opts)
    decreases |opts|
  {
    if opts == [] then h else ApplyAll(Effect(h, opts[0]), opts[1..])
  }

  /** Options apply in order: a later parent wins over an earlier one, and a
      tag option after a parent option keeps the parent's trace. */
  lemma ParentThenTags(h: SpanHead, p: Span, t: map<string, string>)
    ensures ApplyAll(h, [WithParent(p), WithTags(t)]).traceId == p.traceId
    ensures ApplyAll(h, [WithParent(p), WithTags(t)]).parentId == p.spanId
    ensures ApplyAll(h, [WithParent(p), WithTags(t)]).tags == h.tags + t
  {
    var opts := [WithParent(p), WithTags(t)];
    assert opts[1..] == [WithTags(t)] && [WithTags(t)][1..] == [];
    var h1 := Effect(h, WithParent(p));
    assert ApplyAll(h, opts) == ApplyAll(h1, [WithTags(t)]);
    assert ApplyAll(h1, [WithTags(t)]) == ApplyAll(Effect(h1, WithTags(t)), []);
  }

  /** The trace id `generateTraceID` forms from a clock reading. */
  function TraceIdAt(clock: nat): string
  {
    "trace-" + NatToString(clock)
  }

  /** The span id `generateSpanID` forms from a clock reading. */
  function SpanIdAt(clock: nat): string
  {
    "span-" + NatToString(clock)
  }

  /** Ids generated at different clock readings differ. */
  lemma SpanIdsDistinct(c1: nat, c2: nat)
    requires c1 != c2
    ensures SpanIdAt(c1) != SpanIdAt(c2)
  {
    var prefix := "span-";
    if SpanIdAt(c1) == SpanIdAt(c2) {
      assert SpanIdAt(c1)[|prefix|..] == NatToString(c1);
      assert SpanIdAt(c2)[|prefix|..] == NatToString(c2);
      NatToStringRoundTrip(c1);
      NatToStringRoundTrip(c2);
    }
  }

  class Tracer {
    var spans: map<string, Span>
    const sampler: string -> bool

    /** `NewTracer(sampler)`. */
    constructor (sampler: string -> bool)
      ensures spans == map[] && this.sampler == sampler
    {
      spans := map[];
      this.sampler := sampler;
    }

    /** `StartSpan(ctx, name, opts...)`: builds the span, applies the options
        in order, and only then asks the sampler about the resulting trace id;
        an unsampled span is dropped and the context returned as it was. The
        clock readings feed the id generators and the start time. */
    method StartSpan(ctx: Context, name: string, traceClock: nat, spanClock: nat, now: int, opts: seq<SpanOption>)
      returns (span: Span?, ctxOut: Context)
      modifies this
      ensures var h := ApplyAll(SpanHead(TraceIdAt(traceClock), "", map[]), opts);
        (span == null <==> !sampler(h.traceId))
        && (span == null ==> ctxOut == ctx && spans == old(spans))
        && (span != null ==>
              fresh(span) && span.name == name && span.spanId == SpanIdAt(spanClock) && span.startTime == now
              && span.traceId == h.traceId && span.parentId == h.parentId && span.tags == h.tags
              && span.status == StatusOK && span.events == [] && span.endTime == 0
              && spans == old(spans)[span.spanId := span] && ctxOut == WithSpan(ctx, span))
    {
      var s := new Span(TraceIdAt(traceClock), SpanIdAt(spanClock), name, now);
      var i := 0;
      while i < |opts|
        invariant 0 <= i <= |opts|
        invariant s.spanId == SpanIdAt(spanClock) && s.name == name && s.startTime == now
        invariant s.status == StatusOK && s.events == [] && s.endTime == 0
        invariant ApplyAll(SpanHead(s.traceId, s.parentId, s.tags), opts[i..]) ==
                  ApplyAll(SpanHead(TraceIdAt(traceClock), "", map[]), opts)
        invariant spans == old(spans) && fresh(s) && s !in Parents(opts)
        modifies s
      {
        assert opts[i..][0] == opts[i] && opts[i..][1..] == opts[i + 1..];
        assert Parents(opts[i + 1..]) <= Parents(opts[i..]);
        ApplyOption(s, opts[i]);
        i := i + 1;
      }
      if !sampler(s.traceId) {
        return null, ctx;
      }
      spans := spans[s.spanId := s];
      return s, WithSpan(ctx, s);
    }

    /** `EndSpan(span)`: stamps the end time; nothing for a nil span. */
    method EndSpan(span: Span?, now: int)
      modifies span
      ensures span != null ==> span.endTime == now
      ensures span != null ==> unchanged(span`traceId, span`parentId, span`tags, span`events, span`status)
    {
      if span != null {
        span.endTime := now;
      }
    }

    /** `AddEvent(span, name, message, tags)`: appends one event; nothing for a
        nil span. */
    method AddEvent(span: Span?, name: string, message: string, tags: map<string, string>, now: int)
      modifies span
      ensures span != null ==> span.events == old(span.events) + [SpanEvent(now, name, message, tags)]
      ensures span != null ==> unchanged(span`traceId, span`parentId, span`endTime, span`tags, span`status)
    {
      if span != null {
        span.events := span.events + [SpanEvent(now, name, message, tags)];
      }
    }

    /** `SetError(span, err)`: marks the span failed and tags it with the
        error's text; nothing for a nil span. */
    method SetError(span: Span?, err: Error)
      modifies span
      ensures span != null ==> span.status == StatusError && span.tags == old(span.tags)["error" := Message(err)]
      ensures span != null ==> unchanged(span`traceId, span`parentId, span`endTime, span`events)
    {
      if span != null {
        span.status := StatusError;
        span.tags := span.tags["error" := Message(err)];
      }
    }
  }

  /** Applies one option to a span under construction. */
  method ApplyOption(s: Span, o: SpanOption)
    requires !(o.WithParent? && o.parent == s)
    modifies s
    ensures SpanHead(s.traceId, s.parentId, s.tags) == Effect(old(SpanHead(s.traceId, s.parentId, s.tags)), o)
    ensures s.status == old(s.status) && s.events == old(s.events) && s.endTime == old(s.endTime)
  {
    match o
    case WithParent(p) =>
      if p != null {
        s.parentId := p.spanId;
        s.traceId := p.traceId;
      }
    case WithTags(t) =>
      s.tags := s.tags + t;
  }
}
