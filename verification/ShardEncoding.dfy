/**
 * The batcher of one shard (shard_encoder.go): its critical sections as
 * functions on its protected state, and the encoder object itself.
 */
module ShardEncoding {
  import opened Basics
  import opened ShardingConfig
  import opened Spans

  datatype EncoderErrorCode = ErrEncoderStopped | ErrEncodingFailed

  datatype EncodedRecord = EncodedRecord(data: seq<byte>, partitionKey: string, spanCount: nat, uncompressedBytes: nat)

  datatype Limits = Limits(codec: Codec, maxRecordSize: nat, maxAllowedSizePerSpan: nat)

  /** The state that the encoder's mutex protects, and the stop flag it does not. */
  datatype Batcher = Batcher(shard: Shard, pending: seq<Span>, accumulatedSize: nat, stopped: bool)

  /** The two callbacks, called after the lock is released. */
  datatype Callback =
    | RecordReady(record: EncodedRecord, spans: seq<Span>, shard: Shard)
    | SpanProcessFail(spans: seq<Span>, code: EncoderErrorCode)

  function NewBatcher(shard: Shard): Batcher {
    Batcher(shard, [], 0, false)
  }

  function ShardOf(b: Batcher): Shard { b.shard }

  function PendingCount(x: nat): Batcher -> int {
    (b: Batcher) => Count(b.pending, x)
  }

  // ---------- critical sections ----------

  function Accumulate(b: Batcher, span: Span, size: nat): Batcher {
    b.(pending := b.pending + [span], accumulatedSize := (b.accumulatedSize + size) % UINT_MODULUS)
  }

  function ClearAccumulated(b: Batcher): Batcher {
    b.(pending := [], accumulatedSize := 0)
  }

  predicate NeedsFlush(limits: Limits, b: Batcher) {
    b.accumulatedSize >= limits.maxRecordSize
  }

  datatype AppendResult = Refused | Appended(needFlush: bool)

  /** The locked part of accumulateEncodedSpan. */
  function AppendSection(limits: Limits, b: Batcher, span: Span, size: nat): (Batcher, AppendResult) {
    if b.stopped then (b, Refused)
    else var b' := Accumulate(b, span, size); (b', Appended(NeedsFlush(limits, b')))
  }

  /** What Flush reports for a non-empty batch, given the stop flag it read. */
  function BatchOutcome(limits: Limits, b: Batcher, sawStopped: bool): (cb: Callback)
    requires b.pending != []
    ensures cb.spans == b.pending
  {
    if sawStopped then SpanProcessFail(b.pending, ErrEncoderStopped)
    else match limits.codec.marshalList(b.pending)
      case None => SpanProcessFail(b.pending, ErrEncodingFailed)
      case Some(encoded) =>
        match limits.codec.compress(encoded)
        case None => SpanProcessFail(b.pending, ErrEncodingFailed)
        case Some(compressed) =>
          RecordReady(EncodedRecord(compressed, b.pending[0].traceID, |b.pending|, |encoded|), b.pending, b.shard)
  }

  /** The locked part of Flush and the callback that follows it, if any. */
  function FlushSection(limits: Limits, b: Batcher): (Batcher, Option<Callback>) {
    if b.pending == [] then (b, None)
    else (ClearAccumulated(b), Some(BatchOutcome(limits, b, b.stopped)))
  }

  function StopSection(b: Batcher): Batcher {
    b.(stopped := true)
  }

  /** A whole call of Encode with nobody else running. */
  function EncodeCall(limits: Limits, b: Batcher, span: Span): (Batcher, seq<Callback>) {
    match TryEncode(limits.codec, limits.maxAllowedSizePerSpan, span)
    case Rejected(s) => (b, [SpanProcessFail([s], ErrEncodingFailed)])
    case Fits(s, size) =>
      var (b', r) := AppendSection(limits, b, s, size);
      if r.Refused? then (b', [SpanProcessFail([s], ErrEncoderStopped)])
      else if r.needFlush then FlushCall(limits, b')
      else (b', [])
  }

  function FlushCall(limits: Limits, b: Batcher): (Batcher, seq<Callback>) {
    var (b', cb) := FlushSection(limits, b);
    (b', if cb.None? then [] else [cb.value])
  }

  // ---------- what the sections keep ----------

  /** The spans carried by a list of callbacks, in order. */
  function Reported(cbs: seq<Callback>): seq<Span> {
    if cbs == [] then [] else cbs[0].spans + Reported(cbs[1..])
  }

  /** Every pending span fits its limit, lies in the shard and is counted once in accumulatedSize. */
  ghost predicate BatcherInv(limits: Limits, b: Batcher) {
    && (forall s <- b.pending :: WithinLimit(limits.codec, limits.maxAllowedSizePerSpan, s))
    && b.accumulatedSize == TotalSize(limits.codec, b.pending) % UINT_MODULUS
  }

  lemma AccumulateKeepsInv(limits: Limits, b: Batcher, span: Span, size: nat)
    requires BatcherInv(limits, b)
    requires TryEncode(limits.codec, limits.maxAllowedSizePerSpan, span) == Fits(span, size)
    ensures BatcherInv(limits, Accumulate(b, span, size))
    ensures TotalSize(limits.codec, Accumulate(b, span, size).pending) == TotalSize(limits.codec, b.pending) + size
  {
    var f := SpanSize(limits.codec);
    SumAppend(b.pending, [span], f);
    assert Sum([span], f) == size;
    var total := TotalSize(limits.codec, b.pending);
    SumNonNegative(b.pending, f);
    assert (total % UINT_MODULUS + size) % UINT_MODULUS == (total + size) % UINT_MODULUS;
  }

  /**
   * What onRecordReady receives: a non-empty batch whose count, key and data
   * agree with its spans, for the shard of this encoder.
   */
  ghost predicate RecordMatchesSpans(limits: Limits, record: EncodedRecord, spans: seq<Span>) {
    && spans != []
    && record.spanCount == |spans|
    && record.partitionKey == spans[0].traceID
    && limits.codec.marshalList(spans).Some?
    && limits.codec.compress(limits.codec.marshalList(spans).value) == Some(record.data)
    && record.uncompressedBytes == |limits.codec.marshalList(spans).value|
  }

  /** The library calls let the batch through. */
  predicate Encodes(limits: Limits, batch: seq<Span>) {
    && limits.codec.marshalList(batch).Some?
    && limits.codec.compress(limits.codec.marshalList(batch).value).Some?
  }

  /**
   * What a flush reports of a batch, given the stop flag it read: all of its
   * spans, as those of a stopped encoder exactly if the flag was set, and
   * otherwise as a record exactly if the batch can be marshalled and compressed. This leaves
   * one callback for each batch and flag.
   */
  ghost predicate ReportsBatch(limits: Limits, shard: Shard, batch: seq<Span>, sawStopped: bool, cb: Callback) {
    && cb.spans == batch
    && (cb == SpanProcessFail(batch, ErrEncoderStopped) <==> sawStopped)
    && (!sawStopped ==> (cb.RecordReady? <==> Encodes(limits, batch)))
    && (cb.RecordReady? ==> cb.shard == shard && RecordMatchesSpans(limits, cb.record, batch))
  }

  lemma FlushReportsPending(limits: Limits, b: Batcher)
    ensures var (b', cb) := FlushSection(limits, b);
      && b' == b.(pending := [], accumulatedSize := if b.pending == [] then b.accumulatedSize else 0)
      && (cb.None? <==> b.pending == [])
      && (cb.Some? ==> ReportsBatch(limits, b.shard, b.pending, b.stopped, cb.value))
  {
  }

  /** A flush that has read the flag goes by it, whatever happens to the flag afterwards. */
  lemma OutcomeReports(limits: Limits, b: Batcher, sawStopped: bool)
    requires b.pending != []
    ensures ReportsBatch(limits, b.shard, b.pending, sawStopped, BatchOutcome(limits, b, sawStopped))
  {
  }

  /** There is only one callback that reports a batch. */
  lemma ReportIsUnique(limits: Limits, shard: Shard, batch: seq<Span>, sawStopped: bool, a: Callback, b: Callback)
    requires batch != []
    requires ReportsBatch(limits, shard, batch, sawStopped, a) && ReportsBatch(limits, shard, batch, sawStopped, b)
    ensures a == b
  {
    if a.RecordReady? {
      assert a.record == b.record;
    } else {
      assert a.code == b.code && a.spans == b.spans;
    }
  }

  /**
   * One call with nobody else running: how the batch changes, and which
   * callbacks are made. A span that the limit rejects, or that meets a stopped
   * encoder, is reported alone, each with its own code, and the batch is untouched. Otherwise it
   * is appended, and the whole batch is reported if the counter has reached the record size.
   */
  ghost predicate SpanEncoded(limits: Limits, b: Batcher, span: Span, b': Batcher, cbs: seq<Callback>) {
    exists r :: LimitEnforced(limits.codec, limits.maxAllowedSizePerSpan, span, r) &&
      if r.Rejected? then b' == b && cbs == [SpanProcessFail([r.span], ErrEncodingFailed)]
      else if b.stopped then b' == b && cbs == [SpanProcessFail([r.span], ErrEncoderStopped)]
      else if (b.accumulatedSize + r.size) % UINT_MODULUS >= limits.maxRecordSize then
        && b' == b.(pending := [], accumulatedSize := 0)
        && |cbs| == 1 && ReportsBatch(limits, b.shard, b.pending + [r.span], false, cbs[0])
      else
        && b' == b.(pending := b.pending + [r.span], accumulatedSize := (b.accumulatedSize + r.size) % UINT_MODULUS)
        && cbs == []
  }

  /**
   * One call with nobody else running loses and duplicates nothing. A span that
   * cannot be encoded, or that meets a stopped encoder, is reported alone and
   * the batch is untouched; otherwise the spans reported, followed by those
   * still pending, are the pending ones followed by the new one.
   */
  lemma EncodeAccountsForEverySpan(limits: Limits, b: Batcher, span: Span)
    ensures var (b', cbs) := EncodeCall(limits, b, span);
      var r := TryEncode(limits.codec, limits.maxAllowedSizePerSpan, span);
      if r.Rejected? || b.stopped then b' == b && Reported(cbs) == [r.span]
      else Reported(cbs) + b'.pending == b.pending + [r.span]
    ensures var (b', cbs) := EncodeCall(limits, b, span); SpanEncoded(limits, b, span, b', cbs)
  {
    var cbs := EncodeCall(limits, b, span).1;
    if cbs != [] {
      assert Reported(cbs) == cbs[0].spans + Reported(cbs[1..]);
    }
    SizeLimitExactly(limits.codec, limits.maxAllowedSizePerSpan, span);
    hide TryEncode, LimitEnforced, RecordMatchesSpans;
    assert LimitEnforced(limits.codec, limits.maxAllowedSizePerSpan, span,
                         TryEncode(limits.codec, limits.maxAllowedSizePerSpan, span));
  }

  /**
   * While the unsigned sum does not wrap, appending a span flushes the batch
   * exactly if the sizes of its spans, the new one included, reach the record size.
   */
  lemma FlushesAtThresholdExactly(limits: Limits, b: Batcher, span: Span)
    requires BatcherInv(limits, b) && !b.stopped
    requires WithinLimit(limits.codec, limits.maxAllowedSizePerSpan, span)
    requires TotalSize(limits.codec, b.pending + [span]) < UINT_MODULUS
    ensures var (b', cbs) := EncodeCall(limits, b, span);
      && (cbs == [] <==> TotalSize(limits.codec, b.pending + [span]) < limits.maxRecordSize)
      && (cbs == [] ==> b'.pending == b.pending + [span])
      && (cbs != [] ==> b'.pending == [] && |cbs| == 1 && cbs[0].spans == b.pending + [span])
  {
    var size := limits.codec.marshalSize(span).value;
    AccumulateKeepsInv(limits, b, span, size);
    SumNonNegative(b.pending, SpanSize(limits.codec));
  }

  // ---------- the encoder object ----------

  /** A span as the caller holds it: tags and logs are rewritten in place when it is too big. */
  class SpanObject {
    const id: nat
    const traceID: string
    const fields: string
    var tags: seq<KeyValue>
    var logs: seq<Log>

    constructor (id: nat, traceID: string, fields: string, tags: seq<KeyValue>, logs: seq<Log>)
      ensures Value() == Span(id, traceID, fields, tags, logs)
    {
      this.id, this.traceID, this.fields, this.tags, this.logs := id, traceID, fields, tags, logs;
    }

    function Value(): Span
      reads this
    {
      Span(id, traceID, fields, tags, logs)
    }
  }

  function Values(spans: seq<SpanObject>): seq<Span>
    reads spans
  {
    seq(|spans|, i requires 0 <= i < |spans| reads spans => spans[i].Value())
  }

  class ShardEncoder {
    const limits: Limits
    const shard: Shard
    var spans: seq<SpanObject>
    var accumulatedSize: nat
    var stopped: bool
    /** The done channel has been closed. */
    var done: bool
    /** The flusher has been started. */
    var started: bool
    /** Every callback made so far. */
    var callbacks: seq<Callback>

    constructor (limits: Limits, shard: Shard)
      ensures this.limits == limits && View() == NewBatcher(shard) && callbacks == [] && !started && Valid()
    {
      this.limits, this.shard := limits, shard;
      spans, accumulatedSize, stopped, done, started, callbacks := [], 0, false, false, false, [];
    }

    function View(): Batcher
      reads this, spans
    {
      Batcher(shard, Values(spans), accumulatedSize, stopped)
    }

    /** Between calls the batch is below the record limit, so the size counter never wrapped. */
    ghost predicate Valid()
      reads this, spans
    {
      && done == stopped
      && BatcherInv(limits, View())
      && (0 < limits.maxRecordSize && limits.maxRecordSize + limits.maxAllowedSizePerSpan <= UINT_MODULUS ==>
            TotalSize(limits.codec, Values(spans)) == accumulatedSize < limits.maxRecordSize)
    }

    method Start()
      modifies this`started
      ensures started
    {
      started := true;
    }

    /** Closes the channel only if nobody has done so. */
    method Stop()
      requires Valid()
      modifies this`stopped, this`done
      ensures Valid() && done && View() == StopSection(old(View()))
    {
      if !stopped {
        stopped := true;
        done := true;
      }
    }

    method Clear()
      modifies this`spans, this`accumulatedSize
      ensures spans == [] && View() == ClearAccumulated(old(View()))
    {
      spans, accumulatedSize := [], 0;
    }

    /** Clears the batch and reports it, with the lock released in between. */
    method Emit(cb: Callback)
      requires done == stopped && spans != [] && cb == BatchOutcome(limits, View(), stopped)
      modifies this`spans, this`accumulatedSize, this`callbacks
      ensures Valid() && spans == []
      ensures View() == FlushCall(limits, old(View())).0
      ensures callbacks == old(callbacks) + FlushCall(limits, old(View())).1
      ensures callbacks == old(callbacks) + [cb]
      ensures ReportsBatch(limits, shard, old(Values(spans)), stopped, cb)
    {
      OutcomeReports(limits, View(), stopped);
      hide BatchOutcome, ReportsBatch;
      Clear();
      callbacks := callbacks + [cb];
    }

    method Flush()
      requires done == stopped && BatcherInv(limits, View())
      modifies this`spans, this`accumulatedSize, this`callbacks
      ensures Valid() && spans == []
      ensures View() == FlushCall(limits, old(View())).0
      ensures callbacks == old(callbacks) + FlushCall(limits, old(View())).1
      ensures old(spans) == [] ==> callbacks == old(callbacks)
      ensures old(spans) != [] ==>
        && |callbacks| == |old(callbacks)| + 1 && callbacks[..|old(callbacks)|] == old(callbacks)
        && ReportsBatch(limits, shard, old(Values(spans)), stopped, callbacks[|old(callbacks)|])
    {
      hide WithinLimit, ReportsBatch;
      if |spans| == 0 {
        return;
      }
      hide FlushCall, BatcherInv;
      var batch := Values(spans);
      if stopped {
        Emit(SpanProcessFail(batch, ErrEncoderStopped));
        return;
      }
      var encoded := limits.codec.marshalList(batch);
      if encoded.None? {
        Emit(SpanProcessFail(batch, ErrEncodingFailed));
        return;
      }
      var compressed := limits.codec.compress(encoded.value);
      if compressed.None? {
        Emit(SpanProcessFail(batch, ErrEncodingFailed));
        return;
      }
      var record := EncodedRecord(compressed.value, batch[0].traceID, |batch|, |encoded.value|);
      Emit(RecordReady(record, batch, shard));
    }

    /** Cuts the span in place if it is too big; reports it and returns None if it cannot be encoded. */
    method TryEncodeSpan(span: SpanObject) returns (size: Option<nat>)
      modifies span, this`callbacks
      ensures var r := TryEncode(limits.codec, limits.maxAllowedSizePerSpan, old(span.Value()));
        && span.Value() == r.span
        && size == (if r.Fits? then Some(r.size) else None)
        && callbacks == old(callbacks) + if r.Fits? then [] else [SpanProcessFail([r.span], ErrEncodingFailed)]
      ensures LimitEnforced(limits.codec, limits.maxAllowedSizePerSpan, old(span.Value()),
                            if size.Some? then Fits(span.Value(), size.value) else Rejected(span.Value()))
    {
      SizeLimitExactly(limits.codec, limits.maxAllowedSizePerSpan, span.Value());
      hide LimitEnforced;
      size := limits.codec.marshalSize(span.Value());
      if size.Some? && size.value > limits.maxAllowedSizePerSpan {
        span.tags := TruncationTags(size.value);
        span.logs := [];
        size := limits.codec.marshalSize(span.Value());
        if size.Some? && size.value > limits.maxAllowedSizePerSpan {
          size := None;
        }
      }
      if size.None? {
        callbacks := callbacks + [SpanProcessFail([span.Value()], ErrEncodingFailed)];
      }
    }

    method AccumulateEncodedSpan(span: SpanObject, size: nat)
      requires Valid()
      requires TryEncode(limits.codec, limits.maxAllowedSizePerSpan, span.Value()) == Fits(span.Value(), size)
      modifies this`spans, this`accumulatedSize, this`callbacks
      ensures Valid()
      ensures View() == EncodeCall(limits, old(View()), span.Value()).0
      ensures callbacks == old(callbacks) + EncodeCall(limits, old(View()), span.Value()).1
      ensures spans <= old(spans) + [span]
    {
      if stopped {
        callbacks := callbacks + [SpanProcessFail([span.Value()], ErrEncoderStopped)];
        return;
      }
      ghost var before := View();
      AccumulateKeepsInv(limits, before, span.Value(), size);
      spans := spans + [span];
      accumulatedSize := (accumulatedSize + size) % UINT_MODULUS;
      assert View() == Accumulate(before, span.Value(), size);
      if accumulatedSize >= limits.maxRecordSize {
        Flush();
      }
    }

    /**
     * Encode. A span object that is already pending fits its limit, so encoding
     * it again leaves the pending batch as it was.
     */
    method Encode(span: SpanObject) returns (size: nat)
      requires Valid()
      modifies this`spans, this`accumulatedSize, this`callbacks, span
      ensures Valid()
      ensures span.Value() == TryEncode(limits.codec, limits.maxAllowedSizePerSpan, old(span.Value())).span
      ensures View() == EncodeCall(limits, old(View()), old(span.Value())).0
      ensures callbacks == old(callbacks) + EncodeCall(limits, old(View()), old(span.Value())).1
      ensures spans <= old(spans) + [span]
      ensures SpanEncoded(limits, old(View()), old(span.Value()), View(), callbacks[|old(callbacks)|..])
    {
      EncodeAccountsForEverySpan(limits, View(), span.Value());
      hide SpanEncoded, EncodeCall;
      ghost var before := Values(spans);
      assert forall i | 0 <= i < |spans| :: spans[i] == span ==> before[i] == span.Value() && before[i] in before;
      TryEncodeIsStable(limits.codec, limits.maxAllowedSizePerSpan, span.Value());
      var encoded := TryEncodeSpan(span);
      assert Values(spans) == before;
      if encoded.None? {
        return 0;
      }
      AccumulateEncodedSpan(span, encoded.value);
      return encoded.value;
    }
  }
}
