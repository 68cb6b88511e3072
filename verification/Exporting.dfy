/**
 * The exporter's retry queue and the callbacks that feed it (exporter.go), and
 * the unary client that turns replies into those callbacks (client_unary.go).
 */
module Exporting {
  import opened Basics
  import opened ShardingConfig
  import opened Spans
  import opened ShardEncoding
  import opened Server

  /** Batches that the retry queue can hold. */
  const RETRY_QUEUE_SIZE: nat := 10000

  datatype SendErrorCode = ErrFailedRetryable | ErrFailedNotRetryable

  datatype DropCode = RetryQueueFull | FatalEncodingError | ExportResponseNotRetryable | SendErrNotRetryable

  datatype Drop = Drop(code: DropCode, spans: seq<Span>)

  datatype RequestToSend = RequestToSend(exportRequest: ExportRequest, originalSpans: seq<Span>)

  /** Where spans go when the exporter learns their fate. */
  datatype Outbox = Outbox(
    retry: seq<seq<Span>>,      // spansToRetry
    dropped: seq<Drop>,         // counted by OnDropSpans
    delivered: seq<Span>,       // answered SUCCESS
    forgotten: seq<Span>)       // released without being counted anywhere

  // ---------- exporter.go ----------

  /** resendSpans: never blocks, drops when the queue is full. */
  function ResendSpans(o: Outbox, spans: seq<Span>): Outbox {
    if |o.retry| < RETRY_QUEUE_SIZE then o.(retry := o.retry + [spans])
    else DropSpans(o, RetryQueueFull, spans)
  }

  function DropSpans(o: Outbox, code: DropCode, spans: seq<Span>): Outbox {
    o.(dropped := o.dropped + [Drop(code, spans)])
  }

  function OnSpanProcessFail(o: Outbox, spans: seq<Span>, code: EncoderErrorCode): Outbox {
    match code
    case ErrEncoderStopped => ResendSpans(o, spans)
    case ErrEncodingFailed => DropSpans(o, FatalEncodingError, spans)
  }

  function OnSendFail(o: Outbox, spans: seq<Span>, code: SendErrorCode): Outbox {
    match code
    case ErrFailedRetryable => ResendSpans(o, spans)
    case ErrFailedNotRetryable => DropSpans(o, SendErrNotRetryable, spans)
  }

  /** An unknown result code matches no case, so its spans are neither retried nor counted. */
  function OnSendResponse(o: Outbox, spans: seq<Span>, code: ResultCode): Outbox {
    match code
    case SUCCESS => o.(delivered := o.delivered + spans)
    case FAILED_NOT_RETRYABLE => DropSpans(o, ExportResponseNotRetryable, spans)
    case FAILED_RETRYABLE => ResendSpans(o, spans)
    case SHARD_CONFIG_MISMATCH => ResendSpans(o, spans)
    case UNRECOGNIZED(_) => o.(forgotten := o.forgotten + spans)
  }

  // ---------- client_unary.go ----------

  predicate AsksForRetry(d: ErrorDetail) {
    d.RetryInfo? && (d.seconds > 0 || d.nanos > 0)
  }

  function SendErrorOf(details: seq<ErrorDetail>): SendErrorCode {
    if exists d <- details :: AsksForRetry(d) then ErrFailedRetryable else ErrFailedNotRetryable
  }

  /** sendRequest once the reply is known. */
  function OnReply(o: Outbox, spans: seq<Span>, reply: Reply): Outbox {
    match reply
    case Answer(response) => OnSendResponse(o, spans, response.resultCode)
    case RpcError(details) => OnSendFail(o, spans, SendErrorOf(details))
  }

  predicate MismatchReply(reply: Reply) {
    reply.Answer? && reply.response.resultCode.SHARD_CONFIG_MISMATCH?
  }

  /** What a reply hands to the encoder: the configuration of a mismatch, nil included, and nothing else. */
  function ConfigsOf(reply: Reply): seq<Option<Config>> {
    if MismatchReply(reply) then [reply.response.shardingConfig] else []
  }

  /** The reply sends the spans back to the encoder. */
  predicate Retryable(reply: Reply) {
    match reply
    case Answer(response) => response.resultCode.FAILED_RETRYABLE? || response.resultCode.SHARD_CONFIG_MISMATCH?
    case RpcError(details) => SendErrorOf(details).ErrFailedRetryable?
  }

  // ---------- where the spans of one callback end up ----------

  function BatchCount(x: nat): seq<Span> -> int {
    (batch: seq<Span>) => Count(batch, x)
  }

  function DropCount(x: nat): Drop -> int {
    (d: Drop) => Count(d.spans, x)
  }

  function Settled(o: Outbox, x: nat): int {
    Count(o.delivered, x) + Sum(o.dropped, DropCount(x)) + Count(o.forgotten, x)
  }

  function OutboxCount(o: Outbox, x: nat): int {
    Sum(o.retry, BatchCount(x)) + Settled(o, x)
  }

  lemma ResendAccounts(o: Outbox, spans: seq<Span>, x: nat)
    ensures OutboxCount(ResendSpans(o, spans), x) == OutboxCount(o, x) + Count(spans, x)
    ensures Settled(ResendSpans(o, spans), x) == Settled(o, x) + if |o.retry| < RETRY_QUEUE_SIZE then 0
      else Count(spans, x)
  {
    SumAppend(o.retry, [spans], BatchCount(x));
    assert Sum([spans], BatchCount(x)) == Count(spans, x);
    DropAccounts(o, RetryQueueFull, spans, x);
  }

  lemma DropAccounts(o: Outbox, code: DropCode, spans: seq<Span>, x: nat)
    ensures Settled(DropSpans(o, code, spans), x) == Settled(o, x) + Count(spans, x)
  {
    SumAppend(o.dropped, [Drop(code, spans)], DropCount(x));
    assert Sum([Drop(code, spans)], DropCount(x)) == Count(spans, x);
  }

  /**
   * Spans turned away by a stopped encoder are tried again, and only a full
   * retry queue settles them; spans that cannot be encoded are settled at once. None is
   * taken for delivered.
   */
  lemma ProcessFailAccounts(o: Outbox, spans: seq<Span>, code: EncoderErrorCode, x: nat)
    ensures OutboxCount(OnSpanProcessFail(o, spans, code), x) == OutboxCount(o, x) + Count(spans, x)
    ensures Settled(OnSpanProcessFail(o, spans, code), x)
      == Settled(o, x) + if code.ErrEncodingFailed? || |o.retry| >= RETRY_QUEUE_SIZE then Count(spans, x) else 0
    ensures OnSpanProcessFail(o, spans, code).delivered == o.delivered
  {
    ResendAccounts(o, spans, x);
    DropAccounts(o, FatalEncodingError, spans, x);
  }

  predicate Successful(reply: Reply) {
    reply.Answer? && reply.response.resultCode.SUCCESS?
  }

  /**
   * Whatever the reply, its spans land in exactly one place. They are settled
   * for good unless the reply asks for another attempt and the retry queue has
   * room, and they count as delivered exactly when it reports success.
   */
  lemma ReplyAccounts(o: Outbox, spans: seq<Span>, reply: Reply, x: nat)
    ensures OutboxCount(OnReply(o, spans, reply), x) == OutboxCount(o, x) + Count(spans, x)
    ensures Settled(OnReply(o, spans, reply), x)
      == Settled(o, x) + if Retryable(reply) && |o.retry| < RETRY_QUEUE_SIZE then 0 else Count(spans, x)
    ensures Count(OnReply(o, spans, reply).delivered, x) == Count(o.delivered, x) + if Successful(reply)
      then Count(spans, x) else 0
  {
    match reply
    case RpcError(details) =>
      ResendAccounts(o, spans, x);
      DropAccounts(o, SendErrNotRetryable, spans, x);
    case Answer(response) =>
      match response.resultCode {
        case SUCCESS => CountAppend(o.delivered, spans, x);
        case UNRECOGNIZED(_) => CountAppend(o.forgotten, spans, x);
        case FAILED_NOT_RETRYABLE => DropAccounts(o, ExportResponseNotRetryable, spans, x);
        case _ => ResendAccounts(o, spans, x);
      }
  }

  // ---------- the fate of one batch, place by place ----------

  /** The batch waits for retry, or is counted as dropped if 10000 batches wait already. */
  ghost predicate SentBack(o: Outbox, spans: seq<Span>, o': Outbox) {
    if |o.retry| < 10_000 then o' == o.(retry := o.retry + [spans])
    else o' == o.(dropped := o.dropped + [Drop(RetryQueueFull, spans)])
  }

  ghost predicate CountedAs(o: Outbox, spans: seq<Span>, code: DropCode, o': Outbox) {
    o' == o.(dropped := o.dropped + [Drop(code, spans)])
  }

  /** Some detail of the failed call tells the client to wait, be it for less than a second. */
  ghost predicate Throttles(details: seq<ErrorDetail>) {
    exists d <- details :: d.RetryInfo? && (d.seconds > 0 || d.nanos > 0)
  }

  /** What a reply makes of its batch: nothing else in the outbox changes. */
  ghost predicate RepliedAs(o: Outbox, spans: seq<Span>, reply: Reply, o': Outbox) {
    match reply
    case RpcError(details) =>
      if Throttles(details) then SentBack(o, spans, o') else CountedAs(o, spans, SendErrNotRetryable, o')
    case Answer(response) =>
      match response.resultCode
      case SUCCESS => o' == o.(delivered := o.delivered + spans)
      case FAILED_NOT_RETRYABLE => CountedAs(o, spans, ExportResponseNotRetryable, o')
      case FAILED_RETRYABLE => SentBack(o, spans, o')
      case SHARD_CONFIG_MISMATCH => SentBack(o, spans, o')
      case UNRECOGNIZED(_) => o' == o.(forgotten := o.forgotten + spans)
  }

  ghost predicate FailedAs(o: Outbox, spans: seq<Span>, code: EncoderErrorCode, o': Outbox) {
    match code
    case ErrEncoderStopped => SentBack(o, spans, o')
    case ErrEncodingFailed => CountedAs(o, spans, FatalEncodingError, o')
  }

  /** Each reply and each failure of an encoder settles its batch in the one place that its code calls for. */
  lemma OutcomesExactly(o: Outbox, spans: seq<Span>, reply: Reply, code: EncoderErrorCode)
    ensures RepliedAs(o, spans, reply, OnReply(o, spans, reply))
    ensures FailedAs(o, spans, code, OnSpanProcessFail(o, spans, code))
    ensures SentBack(o, spans, ResendSpans(o, spans))
  {
    if reply.RpcError? {
      assert Throttles(reply.details) <==> exists d <- reply.details :: AsksForRetry(d);
    }
  }

  /**
   * With room in the retry queue a failed call is tried again exactly if one of
   * its details is a positive retry delay, in seconds or in nanoseconds, and is
   * otherwise counted as dropped.
   */
  lemma RetriedExactlyIfThrottled(o: Outbox, spans: seq<Span>, details: seq<ErrorDetail>)
    requires |o.retry| < RETRY_QUEUE_SIZE
    ensures var o' := OnReply(o, spans, RpcError(details));
      && (o'.retry == o.retry + [spans] && o'.dropped == o.dropped <==> Throttles(details))
      && (o'.retry == o.retry && o'.dropped == o.dropped + [Drop(SendErrNotRetryable, spans)] <==> !Throttles(details))
      && o'.delivered == o.delivered && o'.forgotten == o.forgotten
  {
    OutcomesExactly(o, spans, RpcError(details), ErrEncodingFailed);
    assert |o.retry + [spans]| != |o.retry|;
  }

  // ---------- the objects ----------

  class Exporter {
    var spansToRetry: seq<seq<Span>>
    var dropped: seq<Drop>
    var delivered: seq<Span>
    var forgotten: seq<Span>
    /** Configurations passed on to the encoder. */
    var configsSet: seq<Option<Config>>

    constructor ()
      ensures View() == Outbox([], [], [], []) && configsSet == []
    {
      spansToRetry, dropped, delivered, forgotten, configsSet := [], [], [], [], [];
    }

    function View(): Outbox
      reads this
    {
      Outbox(spansToRetry, dropped, delivered, forgotten)
    }

    method Resend(spans: seq<Span>)
      modifies this`spansToRetry, this`dropped
      ensures View() == ResendSpans(old(View()), spans)
      ensures |old(spansToRetry)| <= RETRY_QUEUE_SIZE ==> |spansToRetry| <= RETRY_QUEUE_SIZE
    {
      if |spansToRetry| < RETRY_QUEUE_SIZE {
        spansToRetry := spansToRetry + [spans];
      } else {
        dropped := dropped + [Drop(RetryQueueFull, spans)];
      }
    }

    method SpanProcessFailed(spans: seq<Span>, code: EncoderErrorCode)
      modifies this`spansToRetry, this`dropped
      ensures View() == OnSpanProcessFail(old(View()), spans, code)
      ensures FailedAs(old(View()), spans, code, View())
    {
      OutcomesExactly(View(), spans, RpcError([]), code);
      match code {
        case ErrEncoderStopped => Resend(spans);
        case ErrEncodingFailed => dropped := dropped + [Drop(FatalEncodingError, spans)];
      }
    }

    /** A mismatch hands the new configuration to the encoder before the spans are queued again. */
    method SendResponded(spans: seq<Span>, response: ExportResponse)
      modifies this
      ensures View() == OnSendResponse(old(View()), spans, response.resultCode)
      ensures configsSet == old(configsSet) + if response.resultCode.SHARD_CONFIG_MISMATCH?
        then [response.shardingConfig] else []
      ensures RepliedAs(old(View()), spans, Answer(response), View())
    {
      OutcomesExactly(View(), spans, Answer(response), ErrEncodingFailed);
      match response.resultCode {
        case SUCCESS => delivered := delivered + spans;
        case FAILED_NOT_RETRYABLE => dropped := dropped + [Drop(ExportResponseNotRetryable, spans)];
        case FAILED_RETRYABLE => Resend(spans);
        case SHARD_CONFIG_MISMATCH =>
          configsSet := configsSet + [response.shardingConfig];
          Resend(spans);
        case UNRECOGNIZED(_) => forgotten := forgotten + spans;
      }
    }

    method SendFailed(spans: seq<Span>, code: SendErrorCode)
      modifies this`spansToRetry, this`dropped
      ensures View() == OnSendFail(old(View()), spans, code)
    {
      match code {
        case ErrFailedNotRetryable => dropped := dropped + [Drop(SendErrNotRetryable, spans)];
        case ErrFailedRetryable => Resend(spans);
      }
    }
  }

  class ClientUnary {
    /** Where replies are reported: the callbacks given to Connect. */
    var exporter: Exporter?
    /** Capacity of the queue and number of senders; none before Connect. */
    var sendConcurrency: nat
    var requestsToSend: seq<RequestToSend>
    var done: bool

    constructor ()
      ensures exporter == null && sendConcurrency == 0 && requestsToSend == [] && !done
    {
      exporter, sendConcurrency, requestsToSend, done := null, 0, [], false;
    }

    /** Connect once dialling has succeeded; a failed dial changes nothing. */
    method Connect(sendConcurrency: nat, exporter: Exporter, dialled: bool) returns (ok: bool)
      modifies this`exporter, this`sendConcurrency, this`requestsToSend
      ensures ok == dialled
      ensures ok ==> this.exporter == exporter && this.sendConcurrency == sendConcurrency && requestsToSend == []
      ensures !ok ==> unchanged(this)
    {
      if !dialled {
        return false;
      }
      this.exporter, this.sendConcurrency, requestsToSend := exporter, sendConcurrency, [];
      return true;
    }

    /** Requests that are not sent yet stay where they are. */
    method Shutdown()
      modifies this`done
      ensures done && requestsToSend == old(requestsToSend)
    {
      done := true;
    }

    /** Queues the record for its shard; false where the source would block on a full queue. */
    method Send(record: EncodedRecord, originalSpans: seq<Span>, shard: ShardDefinition) returns (queued: bool)
      modifies this`requestsToSend
      ensures queued == (|old(requestsToSend)| < sendConcurrency)
      ensures requestsToSend == old(requestsToSend)
        + if queued then [RequestToSend(ExportRequest(record, shard), originalSpans)] else []
    {
      queued := |requestsToSend| < sendConcurrency;
      if queued {
        requestsToSend := requestsToSend + [RequestToSend(ExportRequest(record, shard), originalSpans)];
      }
    }

    /** The tail of sendRequest: exactly one of the two callbacks runs, once. */
    method HandleReply(pr: RequestToSend, reply: Reply)
      requires exporter != null
      modifies exporter
      ensures exporter.View() == OnReply(old(exporter.View()), pr.originalSpans, reply)
      ensures exporter.configsSet == old(exporter.configsSet) + ConfigsOf(reply)
      ensures RepliedAs(old(exporter.View()), pr.originalSpans, reply, exporter.View())
    {
      OutcomesExactly(exporter.View(), pr.originalSpans, reply, ErrEncodingFailed);
      match reply {
        case Answer(response) => exporter.SendResponded(pr.originalSpans, response);
        case RpcError(details) =>
          for i := 0 to |details|
            invariant forall j | 0 <= j < i :: !AsksForRetry(details[j])
            invariant exporter.View() == old(exporter.View()) && exporter.configsSet == old(exporter.configsSet)
          {
            if details[i].RetryInfo? && (details[i].seconds > 0 || details[i].nanos > 0) {
              assert details[i] in details && AsksForRetry(details[i]);
              exporter.SendFailed(pr.originalSpans, ErrFailedRetryable);
              return;
            }
          }
          exporter.SendFailed(pr.originalSpans, ErrFailedNotRetryable);
      }
    }

    /**
     * sendRequest against the mock server. An unavailable server throttles, so the batch
     * waits for retry while there is room; a request for a shard that the
     * server does not have brings its configuration, and the batch waits as well.
     */
    method SendRequest(pr: RequestToSend, server: MockServer, headersOk: bool, unavailable: bool)
      requires exporter != null
      modifies exporter, server
      ensures headersOk && unavailable ==>
        SentBack(old(exporter.View()), pr.originalSpans, exporter.View()) && server.requests == old(server.requests)
      ensures !headersOk ==> CountedAs(old(exporter.View()), pr.originalSpans, SendErrNotRetryable, exporter.View())
      ensures headersOk && !unavailable && !ShardIsPartOfConfig(pr.exportRequest.shard, old(server.config)) ==>
        && SentBack(old(exporter.View()), pr.originalSpans, exporter.View())
        && exporter.configsSet == old(exporter.configsSet) + [Some(old(server.config))]
      ensures headersOk && !unavailable && ShardIsPartOfConfig(pr.exportRequest.shard, old(server.config)) ==>
        && server.requests == old(server.requests) + [pr.exportRequest]
        && RepliedAs(old(exporter.View()), pr.originalSpans,
                     Answer(ExportResponse(old(server.nextResponseCode), old(server.nextResponseShardingConfig))),
                     exporter.View())
    {
      hide ShardIsPartOfConfig;
      var reply := server.Export(pr.exportRequest, headersOk, unavailable);
      if headersOk && unavailable {
        assert reply.details[0] in reply.details;
      }
      HandleReply(pr, reply);
    }
  }
}
