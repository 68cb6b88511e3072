/** Spans, and the size limit that the encoder enforces on each of them. */
module Spans {
  import opened Basics
  import opened HashKeys

  datatype KeyValue =
    | BoolValue(key: string, vBool: bool)
    | StringValue(key: string, vStr: string)
    | IntValue(key: string, vInt64: int)

  datatype Log = Log(fields: seq<KeyValue>)

  /**
   * A span's value. `id` names one occurrence handed to the exporter, `traceID`
   * is the printed trace ID and `fields` stands for everything that is never rewritten.
   */
  datatype Span = Span(id: nat, traceID: string, fields: string, tags: seq<KeyValue>, logs: seq<Log>)

  /** The library calls the encoder depends on: any deterministic functions. */
  datatype Codec = Codec(
    md5: string -> Digest,
    marshalSize: Span -> Option<nat>,
    marshalList: seq<Span> -> Option<seq<byte>>,
    compress: seq<byte> -> Option<seq<byte>>)

  datatype EncodeResult =
    | Fits(span: Span, size: nat)
    | Rejected(span: Span)

  function TruncationTags(size: nat): seq<KeyValue> {
    [ BoolValue("omnition.truncated", true),
      StringValue("omnition.truncated.reason", "unsupported size"),
      IntValue("omnition.truncated.size", size) ]
  }

  function Truncate(span: Span, size: nat): Span {
    span.(tags := TruncationTags(size), logs := [])
  }

  /** tryEncodeSpan: measure, cut once if too big, measure again. */
  function TryEncode(codec: Codec, limit: nat, span: Span): EncodeResult {
    match codec.marshalSize(span)
    case None => Rejected(span)
    case Some(size) =>
      if size <= limit then Fits(span, size)
      else
        var cut := Truncate(span, size);
        match codec.marshalSize(cut)
        case None => Rejected(cut)
        case Some(newSize) => if newSize <= limit then Fits(cut, newSize) else Rejected(cut)
  }

  /** The span encodes within the limit as it stands. */
  predicate WithinLimit(codec: Codec, limit: nat, span: Span) {
    codec.marshalSize(span).Some? && codec.marshalSize(span).value <= limit
  }

  predicate SameIdentity(a: Span, b: Span) {
    a.id == b.id && a.traceID == b.traceID && a.fields == b.fields
  }

  /**
   * The result fits and a span that fits is left alone, so a retried span is
   * never cut twice nor newly dropped for its size. Its identity, and with it
   * its shard, survives in either outcome.
   */
  lemma TryEncodeIsStable(codec: Codec, limit: nat, span: Span)
    ensures var r := TryEncode(codec, limit, span);
      && SameIdentity(span, r.span)
      && (r.Fits? ==> WithinLimit(codec, limit, r.span) && r.size == codec.marshalSize(r.span).value)
      && (r.Fits? ==> TryEncode(codec, limit, r.span) == r)
      && (r.Fits? && r.span != span ==> !WithinLimit(codec, limit, span))
  {
  }

  /**
   * What the size limit makes of a span, stated on the sizes that the codec
   * reports. A span within the limit is left alone. One that is too big keeps its identity,
   * loses its logs, and has its tags replaced by the three that tell of the
   * cut and of the size before it; what is then still too big, or cannot be marshalled, is rejected as it stands.
   */
  ghost predicate LimitEnforced(codec: Codec, limit: nat, span: Span, r: EncodeResult) {
    match codec.marshalSize(span)
    case None => r == Rejected(span)
    case Some(size) =>
      if size <= limit then r == Fits(span, size)
      else
        var cut := Span(span.id, span.traceID, span.fields,
                        [BoolValue("omnition.truncated", true),
                         StringValue("omnition.truncated.reason", "unsupported size"),
                         IntValue("omnition.truncated.size", size)],
                        []);
        match codec.marshalSize(cut)
        case None => r == Rejected(cut)
        case Some(newSize) => r == if newSize <= limit then Fits(cut, newSize) else Rejected(cut)
  }

  /** The cut of a span of this size. */
  ghost predicate IsCutOf(span: Span, size: nat, cut: Span) {
    && SameIdentity(span, cut) && cut.logs == []
    && cut.tags == [BoolValue("omnition.truncated", true),
                    StringValue("omnition.truncated.reason", "unsupported size"),
                    IntValue("omnition.truncated.size", size)]
  }

  /**
   * A span is accepted exactly if it is within the limit, or can be marshalled
   * and its cut is within the limit; what comes back is the span or its cut.
   */
  lemma SizeLimitExactly(codec: Codec, limit: nat, span: Span)
    ensures LimitEnforced(codec, limit, span, TryEncode(codec, limit, span))
    ensures TryEncode(codec, limit, span).Fits? <==>
      || WithinLimit(codec, limit, span)
      || (codec.marshalSize(span).Some?
          && exists cut :: IsCutOf(span, codec.marshalSize(span).value, cut) && WithinLimit(codec, limit, cut))
    ensures var r := TryEncode(codec, limit, span);
      r.span == span || (codec.marshalSize(span).Some? && IsCutOf(span, codec.marshalSize(span).value, r.span))
  {
    if codec.marshalSize(span).Some? {
      var size := codec.marshalSize(span).value;
      assert IsCutOf(span, size, Truncate(span, size));
      assert forall cut :: IsCutOf(span, size, cut) ==> cut == Truncate(span, size);
    }
  }

  /** Sum of the sizes that the codec reports. */
  function SpanSize(codec: Codec): Span -> int {
    (span: Span) => match codec.marshalSize(span) case None => 0 case Some(n) => n
  }

  function TotalSize(codec: Codec, spans: seq<Span>): int {
    Sum(spans, SpanSize(codec))
  }

  /** How often the occurrence x stands in a list. */
  function Count(spans: seq<Span>, x: nat): nat {
    if spans == [] then 0
    else (if spans[0].id == x then 1 else 0) + Count(spans[1..], x)
  }

  lemma {:induction false} CountAppend(a: seq<Span>, b: seq<Span>, x: nat)
    ensures Count(a + b, x) == Count(a, x) + Count(b, x)
  {
    if a == [] {
      assert a + b == b;
    } else {
      assert (a + b)[1..] == a[1..] + b;
      CountAppend(a[1..], b, x);
    }
  }
}
