/** The encoder object (encoder.go): its flags, queue, configuration and lookup. */
module Encoding {
  import opened Basics
  import opened HashKeys
  import opened ShardingConfig
  import opened Spans
  import opened ShardEncoding
  import ConfigMailbox

  // ---------- one batch, with one worker running ----------

  /** What the span objects hold. One object may stand several times in a batch, or be pending already. */
  type Store = map<SpanObject, Span>

  /** One span: its owner encodes it, or it is reported because it has none. */
  function ProcessOne(limits: Limits, bs: seq<Batcher>, span: Span): (r: (seq<Batcher>, Span, seq<Callback>))
    ensures Map(r.0, ShardOf) == Map(bs, ShardOf)
  {
    match FindShard(Map(bs, ShardOf), PartitionKeyToHashKey(limits.codec.md5, span.traceID))
    case None => (bs, span, [SpanProcessFail([span], ErrEncodingFailed)])
    case Some(k) =>
      if k >= |bs| then (bs, span, [])
      else
        var (b, made) := EncodeCall(limits, bs[k], span);
        assert b.shard == bs[k].shard;
        (bs[k := b], TryEncode(limits.codec, limits.maxAllowedSizePerSpan, span).span, made)
  }

  /** The big-endian value of all bytes of the digest lies in the shard's range. */
  predicate HoldsDigest(shard: Shard, digest: Digest) {
    shard.startingHashKey <= SetBytes(digest) <= shard.endingHashKey
  }

  /** The encoder's range holds the digest of the span's trace ID. */
  predicate InRange(limits: Limits, b: Batcher, span: Span) {
    HoldsDigest(b.shard, limits.codec.md5(span.traceID))
  }

  /** What the size limit leaves in the span object. */
  ghost predicate RewrittenTo(limits: Limits, span: Span, span': Span) {
    exists r :: LimitEnforced(limits.codec, limits.maxAllowedSizePerSpan, span, r) && span' == r.span
  }

  /**
   * What becomes of one span: the first encoder whose range holds its digest encodes it
   * and all others stay as they are; if there is none, the span is reported as
   * impossible to encode, and left as it is.
   */
  ghost predicate Dispatched(limits: Limits, bs: seq<Batcher>, span: Span, bs': seq<Batcher>, span': Span,
          made: seq<Callback>) {
    && |bs'| == |bs|
    && ((forall b <- bs :: !InRange(limits, b, span)) ==>
          bs' == bs && span' == span && made == [SpanProcessFail([span], ErrEncodingFailed)])
    && (forall k | 0 <= k < |bs| && InRange(limits, bs[k], span)
          && (forall j | 0 <= j < k :: !InRange(limits, bs[j], span)) ::
          && SpanEncoded(limits, bs[k], span, bs'[k], made) && bs' == bs[k := bs'[k]]
          && RewrittenTo(limits, span, span'))
  }

  lemma OwnersByRange(limits: Limits, bs: seq<Batcher>, span: Span)
    ensures match FindShard(Map(bs, ShardOf), PartitionKeyToHashKey(limits.codec.md5, span.traceID))
            case None => forall b <- bs :: !InRange(limits, b, span)
            case Some(k) =>
              && k < |bs| && InRange(limits, bs[k], span)
              && forall j | 0 <= j < k :: !InRange(limits, bs[j], span)
  {
    var shards := Map(bs, ShardOf);
    KeyIsLookedUpByDigest(shards, limits.codec.md5, span.traceID);
    forall b | b in bs ensures b.shard in shards {
      var i :| 0 <= i < |bs| && bs[i] == b;
      assert shards[i] == b.shard;
    }
  }

  lemma FirstOwnerTakesSpan(limits: Limits, bs: seq<Batcher>, span: Span)
    ensures var (bs', span', made) := ProcessOne(limits, bs, span); Dispatched(limits, bs, span, bs', span', made)
  {
    OwnersByRange(limits, bs, span);
    SizeLimitExactly(limits.codec, limits.maxAllowedSizePerSpan, span);
    hide FindShard, EncodeCall, SpanEncoded, TryEncode, IsCutOf, LimitEnforced, InRange;
    assert RewrittenTo(limits, span, TryEncode(limits.codec, limits.maxAllowedSizePerSpan, span).span);
    match FindShard(Map(bs, ShardOf), PartitionKeyToHashKey(limits.codec.md5, span.traceID))
    case None =>
    case Some(k) => EncodeAccountsForEverySpan(limits, bs[k], span);
  }

  /** processSpanBatch: the encoders and the objects afterwards, and the callbacks made. */
  function ProcessCall(limits: Limits, bs: seq<Batcher>, spans: seq<SpanObject>, store: Store): (r: (seq<Batcher>,
          Store, seq<Callback>))
    requires forall o <- spans :: o in store
    ensures r.1.Keys == store.Keys
  {
    if spans == [] then (bs, store, [])
    else
      var o := spans[|spans| - 1];
      var (done, held, cbs) := ProcessCall(limits, bs, spans[..|spans| - 1], store);
      var (bs', span, made) := ProcessOne(limits, done, held[o]);
      (bs', held[o := span], cbs + made)
  }

  lemma {:induction false} ReportedAppend(a: seq<Callback>, b: seq<Callback>)
    ensures Reported(a + b) == Reported(a) + Reported(b)
  {
    if a == [] {
      assert a + b == b;
    } else {
      assert (a + b)[1..] == a[1..] + b;
      ReportedAppend(a[1..], b);
    }
  }

  lemma OneSpanAccounted(limits: Limits, b: Batcher, span: Span, x: nat)
    ensures var (b', made) := EncodeCall(limits, b, span);
      Count(b'.pending, x) + Count(Reported(made), x) == Count(b.pending, x) + Count([span], x)
  {
    var (b', made) := EncodeCall(limits, b, span);
    var r := TryEncode(limits.codec, limits.maxAllowedSizePerSpan, span);
    EncodeAccountsForEverySpan(limits, b, span);
    TryEncodeIsStable(limits.codec, limits.maxAllowedSizePerSpan, span);
    assert Count([r.span], x) == Count([span], x);
    hide Count, EncodeCall, TryEncode, Reported;
    CountAppend(Reported(made), b'.pending, x);
    CountAppend(b.pending, [r.span], x);
  }

  lemma OneSpanProcessed(limits: Limits, bs: seq<Batcher>, span: Span, x: nat)
    ensures var (bs', span', made) := ProcessOne(limits, bs, span);
      && Sum(bs', PendingCount(x)) + Count(Reported(made), x) == Sum(bs, PendingCount(x)) + Count([span], x)
      && span'.id == span.id
  {
    var key := PartitionKeyToHashKey(limits.codec.md5, span.traceID);
    TryEncodeIsStable(limits.codec, limits.maxAllowedSizePerSpan, span);
    FindShardFinds(Map(bs, ShardOf), key);
    match FindShard(Map(bs, ShardOf), key)
    case None =>
      assert Reported([SpanProcessFail([span], ErrEncodingFailed)]) == [span];
    case Some(k) =>
      OneSpanAccounted(limits, bs[k], span, x);
      SumUpdate(bs, k, EncodeCall(limits, bs[k], span).0, PendingCount(x));
  }

  /** How often the occurrence x stands in a batch of objects. */
  function Occurrences(spans: seq<SpanObject>, x: nat): nat {
    if spans == [] then 0
    else Occurrences(spans[..|spans| - 1], x) + if spans[|spans| - 1].id == x then 1 else 0
  }

  ghost predicate KeepsIds(store: Store) {
    forall o <- store :: store[o].id == o.id
  }

  /**
   * Every span of a batch ends up pending in an encoder or reported, once for
   * each time it stands in the batch, and no other span moves except by being reported.
   */
  lemma {:induction false} BatchAccountsForEverySpan(limits: Limits, bs: seq<Batcher>, spans: seq<SpanObject>,
          store: Store, x: nat)
    requires KeepsIds(store) && forall o <- spans :: o in store
    ensures var (bs', store', cbs) := ProcessCall(limits, bs, spans, store);
      && Sum(bs', PendingCount(x)) + Count(Reported(cbs), x) == Sum(bs, PendingCount(x)) + Occurrences(spans, x)
      && KeepsIds(store')
  {
    if spans != [] {
      var init, o := spans[..|spans| - 1], spans[|spans| - 1];
      BatchAccountsForEverySpan(limits, bs, init, store, x);
      var (done, held, cbs) := ProcessCall(limits, bs, init, store);
      var (_, _, made) := ProcessOne(limits, done, held[o]);
      OneSpanProcessed(limits, done, held[o], x);
      OneCount(held[o], x);
      ReportedAppend(cbs, made);
      CountAppend(Reported(cbs), Reported(made), x);
    }
  }

  lemma OneCount(span: Span, x: nat)
    ensures Count([span], x) == if span.id == x then 1 else 0
  {
  }

  // ---------- the object ----------

  ghost function Held(spans: seq<SpanObject>): (store: Store)
    reads spans
    ensures KeepsIds(store) && store.Keys == set o | o in spans
  {
    map o | o in spans :: o.Value()
  }

  class Encoder {
    const md5: string -> Digest
    const numWorkers: nat
    var configChangeRequest: Option<Config>
    var configChangeStopped: bool
    var processorAsleep: bool
    ghost var history: ConfigMailbox.Mailbox
    /** Batches waiting for a worker; the channel holds at most numWorkers of them. */
    var spanBatchesToProcess: seq<seq<Span>>
    /** The WaitGroup that counts batches from enqueueing to the end of processing. */
    var spansToProcess: nat
    var isStopping: bool
    /** The current list of shard encoders. */
    var shardEncoders: seq<ShardEncoder>

    constructor (md5: string -> Digest, numWorkers: nat)
      ensures this.md5 == md5 && this.numWorkers == numWorkers
      ensures Mailbox() == ConfigMailbox.EMPTY_MAILBOX && Valid()
      ensures spanBatchesToProcess == [] && spansToProcess == 0 && !isStopping && shardEncoders == []
    {
      this.md5, this.numWorkers := md5, numWorkers;
      configChangeRequest, configChangeStopped, processorAsleep := None, false, false;
      history := ConfigMailbox.EMPTY_MAILBOX;
      spanBatchesToProcess, spansToProcess, isStopping, shardEncoders := [], 0, false, [];
    }

    ghost function Mailbox(): ConfigMailbox.Mailbox
      reads this
    {
      history.(request := configChangeRequest, stopped := configChangeStopped, asleep := processorAsleep)
    }

    ghost predicate Valid()
      reads this
    {
      ConfigMailbox.MailboxInv(Mailbox())
    }

    method SetConfig(config: Option<Config>)
      requires Valid()
      modifies this`configChangeRequest, this`processorAsleep, this`history
      ensures Valid() && Mailbox() == ConfigMailbox.SetConfig(old(Mailbox()), config)
    {
      ConfigMailbox.SetConfigKeepsInv(Mailbox(), config);
      history := ConfigMailbox.SetConfig(Mailbox(), config);
      configChangeRequest := config;
      processorAsleep := false;
    }

    /** One turn of the wait loop of processConfigChanges, with the mutex held. */
    method CheckConfigChange() returns (next: ConfigMailbox.Check)
      requires Valid() && !processorAsleep
      modifies this`configChangeRequest, this`processorAsleep, this`history
      ensures Valid()
      ensures (Mailbox(), next) == ConfigMailbox.CheckMailbox(old(Mailbox()))
    {
      ConfigMailbox.CheckKeepsInv(Mailbox());
      history := ConfigMailbox.CheckMailbox(Mailbox()).0;
      if configChangeRequest.None? && !configChangeStopped {
        processorAsleep := true;
        return ConfigMailbox.Sleep;
      }
      if configChangeStopped {
        return ConfigMailbox.Exit;
      }
      var newConfig := configChangeRequest.value;
      configChangeRequest := None;
      return ConfigMailbox.Take(newConfig);
    }

    /** EncodeSpans up to the point where it may block: refused, queued, or counted and still waiting for room. */
    method EncodeSpans(spans: seq<Span>) returns (accepted: bool, queued: bool)
      modifies this`spanBatchesToProcess, this`spansToProcess
      ensures accepted == !isStopping
      ensures queued == (accepted && |old(spanBatchesToProcess)| < numWorkers)
      ensures spansToProcess == old(spansToProcess) + if accepted then 1 else 0
      ensures spanBatchesToProcess == old(spanBatchesToProcess) + if queued then [spans] else []
    {
      if isStopping {
        return false, false;
      }
      spansToProcess := spansToProcess + 1;
      if |spanBatchesToProcess| >= numWorkers {
        return true, false;
      }
      spanBatchesToProcess := spanBatchesToProcess + [spans];
      return true, true;
    }

    /** The shards of the current list, in list order. */
    function Shards(): seq<Shard>
      reads this
    {
      seq(|shardEncoders|, i requires 0 <= i < |shardEncoders| reads this => shardEncoders[i].shard)
    }

    /** The scan of getShardEncoder finds the first encoder whose shard contains the key's hash. */
    method GetShardEncoder(partitionKey: string) returns (se: Option<ShardEncoder>)
      ensures match FindShard(Shards(), PartitionKeyToHashKey(md5, partitionKey))
              case None => se == None
              case Some(i) => i < |shardEncoders| && se == Some(shardEncoders[i])
      ensures se.Some? ==>
        se.value in shardEncoders && HoldsDigest(se.value.shard, md5(partitionKey))
      ensures se.None? ==> forall e <- shardEncoders :: !HoldsDigest(e.shard, md5(partitionKey))
    {
      ghost var key := PartitionKeyToHashKey(md5, partitionKey);
      FindShardFinds(Shards(), key);
      for i := 0 to |shardEncoders|
        invariant forall j | 0 <= j < i :: !Contains(Shards()[j], key)
        invariant forall j | 0 <= j < i :: !HoldsDigest(shardEncoders[j].shard, md5(partitionKey))
      {
        if BelongsToShard(md5, shardEncoders[i].shard, partitionKey) {
          assert Contains(Shards()[i], key) && Shards()[i] in Shards();
          return Some(shardEncoders[i]);
        }
      }
      return None;
    }

    ghost function Views(): seq<Batcher>
      reads *
    {
      seq(|shardEncoders|, i requires 0 <= i < |shardEncoders|
        reads * => shardEncoders[i].View())
    }

    /** The encoders of the list are distinct, in order, and share their limits. */
    ghost predicate Ready(limits: Limits)
      reads *
    {
      && (forall i, j | 0 <= i < j < |shardEncoders| :: shardEncoders[i] != shardEncoders[j])
      && (forall se <- shardEncoders :: se.Valid() && se.limits == limits)
    }

    /** The body of the loop of processSpanBatch. A span that is pending somewhere fits, so it is not rewritten. */
    method ProcessSpan(span: SpanObject, limits: Limits) returns (made: seq<Callback>)
      requires Ready(limits) && limits.codec.md5 == md5
      modifies shardEncoders, span
      ensures Ready(limits)
      ensures (Views(), span.Value(), made) == ProcessOne(limits, old(Views()), old(span.Value()))
    {
      hide FindShard, EncodeCall, TryEncode, BatcherInv, TotalSize, NewBatcher, HoldsDigest, SpanEncoded;
      ghost var before := Views();
      assert Map(before, ShardOf) == Shards();
      var se := GetShardEncoder(span.traceID);
      if se.None? {
        return [SpanProcessFail([span.Value()], ErrEncodingFailed)];
      }
      ghost var k := FindShard(Shards(), PartitionKeyToHashKey(md5, span.traceID)).value;
      var known := |se.value.callbacks|;
      PendingIsStable(limits, span);
      var _ := se.value.Encode(span);
      made := se.value.callbacks[known..];
      assert forall i | 0 <= i < |shardEncoders| && i != k :: shardEncoders[i].View() == before[i];
      assert Views() == before[k := se.value.View()];
    }

    /** One turn of the loop, which leaves the other objects of the batch alone. */
    method ProcessNext(ghost spans: seq<SpanObject>, span: SpanObject, limits: Limits) returns (made: seq<Callback>)
      requires Ready(limits) && limits.codec.md5 == md5 && span in spans
      modifies shardEncoders, span
      ensures Ready(limits)
      ensures var (bs', value, cbs) := ProcessOne(limits, old(Views()), old(Held(spans))[span]);
        Views() == bs' && made == cbs && Held(spans) == old(Held(spans))[span := value]
      ensures Dispatched(limits, old(Views()), old(span.Value()), Views(), span.Value(), made)
    {
      FirstOwnerTakesSpan(limits, Views(), span.Value());
      hide ProcessOne, Views, Ready, Dispatched;
      ghost var held := Held(spans);
      made := ProcessSpan(span, limits);
      assert forall o <- spans :: o != span ==> o.Value() == held[o];
    }

    lemma PendingIsStable(limits: Limits, span: SpanObject)
      requires Ready(limits)
      ensures forall se <- shardEncoders :: span in se.spans ==>
        TryEncode(limits.codec, limits.maxAllowedSizePerSpan, span.Value()).span == span.Value()
    {
      forall se | se in shardEncoders && span in se.spans
        ensures TryEncode(limits.codec, limits.maxAllowedSizePerSpan, span.Value()).span == span.Value()
      {
        var i :| 0 <= i < |se.spans| && se.spans[i] == span;
        assert se.View().pending[i] == span.Value();
        assert span.Value() in se.View().pending;
      }
    }

    /** Counts a batch as processed, which touches no encoder. */
    method BatchDone(ghost limits: Limits)
      requires Ready(limits) && spansToProcess > 0
      modifies this`spansToProcess
      ensures spansToProcess == old(spansToProcess) - 1
      ensures Views() == old(Views()) && Ready(limits)
    {
      spansToProcess := spansToProcess - 1;
    }

    /**
     * processSpanBatch with nobody else running: each span goes to the encoder
     * that owns its key, or is reported when there is none. `made` lists the callbacks.
     */
    method ProcessSpanBatch(spans: seq<SpanObject>, limits: Limits) returns (made: seq<Callback>)
      requires Ready(limits) && limits.codec.md5 == md5 && spansToProcess > 0
      modifies this`spansToProcess, shardEncoders, spans
      ensures Ready(limits)
      ensures (Views(), Held(spans), made) == ProcessCall(limits, old(Views()), spans, old(Held(spans)))
      ensures spansToProcess == old(spansToProcess) - 1
    {
      hide ProcessOne, Views, Ready, Held;
      made := [];
      ghost var views, store := Views(), Held(spans);
      for n := 0 to |spans|
        invariant Ready(limits)
        invariant shardEncoders == old(shardEncoders) && spansToProcess == old(spansToProcess)
        invariant (Views(), Held(spans), made) == ProcessCall(limits, views, spans[..n], store)
      {
        assert spans[..n + 1][..n] == spans[..n] && spans[..n + 1][n] == spans[n];
        var reported := ProcessNext(spans, spans[n], limits);
        made := made + reported;
      }
      assert spans[..|spans|] == spans;
      BatchDone(limits);
    }

    /** stopShardEncoders: every encoder of the current list is told to stop. */
    method StopShardEncoders()
      requires forall se <- shardEncoders :: se.Valid()
      modifies shardEncoders
      ensures forall se <- shardEncoders :: se.Valid() && se.View() == StopSection(old(se.View()))
    {
      for i := 0 to |shardEncoders|
        invariant forall se <- shardEncoders :: se.Valid()
        invariant forall se <- shardEncoders ::
          se.View() == old(se.View()) || se.View() == StopSection(old(se.View()))
        invariant forall j | 0 <= j < i :: shardEncoders[j].View() == StopSection(old(shardEncoders[j].View()))
      {
        shardEncoders[i].Stop();
      }
    }

    /** startShardEncoders: one fresh encoder per shard, each is started, then the list is swapped. */
    method StartShardEncoders(shards: seq<Shard>, limits: Limits)
      modifies this`shardEncoders
      ensures Shards() == shards
      ensures forall i | 0 <= i < |shardEncoders| ::
        && fresh(shardEncoders[i]) && shardEncoders[i].Valid() && shardEncoders[i].View() == NewBatcher(shards[i])
        && shardEncoders[i].started && shardEncoders[i].limits == limits
      ensures Ready(limits)
    {
      hide BatcherInv, TotalSize;
      var encoders: seq<ShardEncoder> := [];
      for i := 0 to |shards|
        invariant |encoders| == i
        invariant forall j, k | 0 <= j < k < i :: encoders[j] != encoders[k]
        invariant forall j | 0 <= j < i :: fresh(encoders[j])
        invariant forall j | 0 <= j < i :: encoders[j].Valid() && encoders[j].View() == NewBatcher(shards[j])
        invariant forall j | 0 <= j < i :: encoders[j].limits == limits
      {
        var se := new ShardEncoder(limits, shards[i]);
        encoders := encoders + [se];
      }
      for i := 0 to |encoders|
        invariant forall j | 0 <= j < |encoders| :: encoders[j].Valid() && encoders[j].View() == NewBatcher(shards[j])
        invariant forall j | 0 <= j < i :: encoders[j].started
      {
        encoders[i].Start();
      }
      shardEncoders := encoders;
    }
  }
}
