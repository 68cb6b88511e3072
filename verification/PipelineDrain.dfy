/**
 * Draining: while the live encoders serve the server's current shards, every
 * step that moves work lowers a rank, and the pipeline can be emptied in a bounded number of steps.
 */
module PipelineDrain {
  import opened Basics
  import opened ShardingConfig
  import opened Spans
  import opened ShardEncoding
  import opened Server
  import opened Exporting
  import opened ConfigMailbox
  import opened Pipeline
  import opened PipelineRouting
  import opened PipelineAccounting
  import opened PipelineHistory
  import opened PipelineProgress

  // ---------- the phase ----------

  /** Which shard definitions count as stale. */
  type Staleness = ShardDefinition -> bool

  /** Those that are not part of the server's current configuration. */
  function Outdated(configs: seq<Config>): Staleness {
    (d: ShardDefinition) => !ShardIsPartOfConfig(d, Latest(configs))
  }

  /** The reply settles its spans: it asks for no retry and its code is one the client knows. */
  predicate Settling(reply: Reply) {
    !Retryable(reply) && !Unknown(reply)
  }

  /** Replaced encoders are stopped; live ones are not, and serve no stale shard. */
  ghost predicate EncodersStable(stale: Staleness, ses: seq<Batcher>, lo: nat) {
    forall j | 0 <= j < |ses| :: if j < lo then ses[j].stopped else !ses[j].stopped && !stale(ses[j].shard.origin)
  }

  ghost predicate SharedStable(stale: Staleness, sh: Shared) {
    sh.ctl.stopPc.NotStopping? && FlagsOk(sh.ctl) && EncodersStable(stale, sh.ses, sh.lo)
  }

  predicate ThreadStable(pc: Pc) {
    pc.Replied? ==> !Unknown(pc.reply)
  }

  /**
   * Not stopping, and the live encoders serve the server's current shards.
   * Anything stale may be left over: spans in replaced encoders, requests and
   * callbacks for old shards, rejections in hand, configurations waiting to be applied.
   */
  ghost predicate Stable(st: Settings, stale: Staleness, s: State) {
    && Inv(st, s)
    && SharedStable(stale, s.sh)
    && forall pc <- s.threads :: ThreadStable(pc)
  }

  /** Calls reach the server, which knows every shard that is not stale, and settles what it has recorded. */
  predicate Smooth(stale: Staleness, sh: Shared, pc: Pc, ch: Choice) {
    && !ch.Fail?
    && (ch.Respond? ==> Settling(ch.reply))
    && (pc.InFlight? && !stale(pc.req.exportRequest.shard) ==>
      ShardIsPartOfConfig(pc.req.exportRequest.shard, CurrentConfig(sh)))
  }

  // ---------- rank ----------

  /** Weight of a batch that is still to be sharded: a share for itself and one for each of its spans. */
  function BatchRank(share: nat): seq<Span> -> int {
    (batch: seq<Span>) => share + 11 * |batch|
  }

  function AfterRank(after: After): int {
    if after.NextSpan? then 1 + 11 * |after.rest| else 0
  }

  /** Spans on their way to the server, unless they are for a stale shard: those will be sharded anew. */
  function CarriedRank(stale: Staleness, shard: ShardDefinition, spans: seq<Span>, steps: nat): int {
    if stale(shard) then 6 + steps + 11 * |spans| else steps * |spans|
  }

  function CallbackRank(stale: Staleness, cb: Callback): int {
    match cb
    case RecordReady(_, spans, shard) => CarriedRank(stale, shard.origin, spans, 6)
    case SpanProcessFail(spans, code) => if code.ErrEncoderStopped? then 7 + 11 * |spans| else 6 * |spans|
  }

  function CallerRank(pc: Pc): int {
    match pc
    case Entering(batch, _) => 5 + 11 * |batch|
    case Counting(batch, _) => 4 + 11 * |batch|
    case Enqueuing(batch, _) => 3 + 11 * |batch|
    case _ => 0
  }

  function WorkerRank(lo: nat, pc: Pc): int {
    match pc
    case Picking(rest) => 1 + 11 * |rest|
    case Routed(_, se, rest) => (if se < lo then 21 else 11) + 11 * |rest|
    case Sized(_, _, se, rest) => (if se < lo then 20 else 10) + 11 * |rest|
    case _ => 0
  }

  function FlushRank(stale: Staleness, pc: Pc): int {
    match pc
    case Flushing(_, after) => AfterRank(after) + if after.NextSpan? then 1 else 0
    case Calling(cb, after) => AfterRank(after) + CallbackRank(stale, cb)
    case _ => 0
  }

  function SenderRank(stale: Staleness, pc: Pc): int {
    match pc
    case InFlight(req) => CarriedRank(stale, req.exportRequest.shard, req.originalSpans, 4)
    case Mismatched(req) => 9 + 11 * |req.originalSpans|
    case Admitted(req, _) => 3 * |req.originalSpans|
    case Recorded(req) => 2 * |req.originalSpans|
    case Replied(req, reply, _) => if Retryable(reply) then 8 + 11 * |req.originalSpans| else |req.originalSpans|
    case Resending(spans) => 7 + 11 * |spans|
    case _ => 0
  }

  function PcRank(stale: Staleness, lo: nat): Pc -> int {
    (pc: Pc) =>
      if CallerPc(pc) then CallerRank(pc)
      else if WorkerPc(pc) then WorkerRank(lo, pc)
      else if FlushPc(pc) then FlushRank(stale, pc)
      else SenderRank(stale, pc)
  }

  function PendingRank(): Batcher -> int {
    (b: Batcher) => if b.pending == [] then 0 else if b.stopped then 8 + 11 * |b.pending| else 7 * |b.pending|
  }

  function RequestRank(stale: Staleness): RequestToSend -> int {
    (req: RequestToSend) => CarriedRank(stale, req.exportRequest.shard, req.originalSpans, 5)
  }

  function SharedRank(stale: Staleness, sh: Shared): int {
    Sum(sh.queue, BatchRank(2)) + Sum(sh.out.retry, BatchRank(6)) + Sum(sh.ses, PendingRank()) + Sum(sh.requests,
      RequestRank(stale))
  }

  function Rank(stale: Staleness, s: State): int {
    SharedRank(stale, s.sh) + Sum(s.threads, PcRank(stale, s.sh.lo))
  }

  /** The thread moves a span, a batch or a worker's turn; a flusher's tick alone does not. */
  predicate Moves(sh: Shared, pc: Pc) {
    Busy(sh, pc) && !pc.FlusherLoop?
  }

  /** What a step of the phase leaves as it was. */
  ghost predicate KeepsPhase(stale: Staleness, sh: Shared, sh': Shared) {
    && SharedStable(stale, sh')
    && sh'.lo == sh.lo && sh'.configs == sh.configs && sh'.cfgPc == sh.cfgPc && |sh'.ses| == |sh.ses|
    && sh'.out.forgotten == sh.out.forgotten
  }

  /** A smooth step keeps the phase and never raises the rank; a moving step lowers it. */
  ghost predicate Sinks(stale: Staleness, sh: Shared, pc: Pc, sh': Shared, pc': Pc) {
    && KeepsPhase(stale, sh, sh') && ThreadStable(pc')
    && SharedRank(stale, sh') + PcRank(stale, sh.lo)(pc')
       <= SharedRank(stale, sh) + PcRank(stale, sh.lo)(pc) - (if Moves(sh, pc) then 1 else 0)
  }

  /** Books that hold no work: intake, records, the WaitGroup, the mailbox and the drain counter. */
  lemma OnlyBooks(stale: Staleness, sh: Shared, sh': Shared)
    requires SharedStable(stale, sh)
    requires sh' == sh.(admitted := sh'.admitted, records := sh'.records, wg := sh'.wg, mail := sh'.mail,
                        ctl := sh.ctl.(draining := sh'.ctl.draining))
    ensures KeepsPhase(stale, sh, sh') && SharedRank(stale, sh') == SharedRank(stale, sh)
  {
  }

  /** The thread goes on with less to do and writes at most to the books. */
  lemma BooksSink(stale: Staleness, sh: Shared, pc: Pc, sh': Shared, pc': Pc)
    requires SharedStable(stale, sh) && KeepsPhase(stale, sh, sh') && SharedRank(stale, sh') == SharedRank(stale, sh)
    requires ThreadStable(pc') && PcRank(stale, sh.lo)(pc') < PcRank(stale, sh.lo)(pc)
    ensures Sinks(stale, sh, pc, sh', pc')
  {
    hide SharedRank, PcRank, KeepsPhase, Busy;
  }

  lemma NobodyIsToldToStop(stale: Staleness, sh: Shared)
    requires SharedStable(stale, sh)
    ensures !sh.ctl.exporterDone && !sh.ctl.stopping && !sh.ctl.hardStop && !sh.ctl.clientDone
  {
  }

  // ---------- callers ----------

  lemma CallerSinks(st: Settings, stale: Staleness, sh: Shared, pc: Pc, ch: Choice)
    requires SharedStable(stale, sh) && CallerAct(st, sh, pc, ch).Some?
    ensures var (sh', pc') := CallerAct(st, sh, pc, ch).value; Sinks(stale, sh, pc, sh', pc')
  {
    if pc.Enqueuing? { EnqueuingSinks(st, stale, sh, pc, ch); }
    else if pc.RetryLoop? { RetrySinks(st, stale, sh, ch); }
    else { EnteringSinks(st, stale, sh, pc, ch); }
    hide CallerAct, Sinks;
  }

  lemma EnteringSinks(st: Settings, stale: Staleness, sh: Shared, pc: Pc, ch: Choice)
    requires SharedStable(stale, sh) && !pc.Enqueuing? && !pc.RetryLoop? && CallerAct(st, sh, pc, ch).Some?
    ensures var (sh', pc') := CallerAct(st, sh, pc, ch).value; Sinks(stale, sh, pc, sh', pc')
  {
    hide SharedStable, SharedRank, KeepsPhase, Sinks, PcRank;
    NobodyIsToldToStop(stale, sh);
    var (sh', pc') := CallerAct(st, sh, pc, ch).value;
    OnlyBooks(stale, sh, sh');
    EnteringRank(stale, sh.lo, pc, pc');
    BooksSink(stale, sh, pc, sh', pc');
  }

  lemma EnteringRank(stale: Staleness, lo: nat, pc: Pc, pc': Pc)
    requires (pc.Entering? && pc'.Counting?) || (pc.Counting? && pc'.Enqueuing?)
    requires pc.batch == pc'.batch
    ensures ThreadStable(pc') && PcRank(stale, lo)(pc') < PcRank(stale, lo)(pc)
  {
  }

  lemma Enqueued(stale: Staleness, sh: Shared, batch: seq<Span>)
    requires SharedStable(stale, sh)
    ensures var sh' := sh.(queue := sh.queue + [batch]);
      KeepsPhase(stale, sh, sh') && SharedRank(stale, sh') == SharedRank(stale, sh) + 2 + 11 * |batch|
  {
    SumSnoc(sh.queue, batch, BatchRank(2));
    hide EncodersStable, Sum;
  }

  lemma EnqueuingSinks(st: Settings, stale: Staleness, sh: Shared, pc: Pc, ch: Choice)
    requires SharedStable(stale, sh) && pc.Enqueuing? && CallerAct(st, sh, pc, ch).Some?
    ensures var (sh', pc') := CallerAct(st, sh, pc, ch).value; Sinks(stale, sh, pc, sh', pc')
  {
    hide SharedStable, SharedRank, KeepsPhase;
    Enqueued(stale, sh, pc.batch);
  }

  lemma SumTail<T>(xs: seq<T>, f: T -> int)
    requires xs != []
    ensures Sum(xs, f) == f(xs[0]) + Sum(xs[1..], f)
  {
  }

  lemma RetrySinks(st: Settings, stale: Staleness, sh: Shared, ch: Choice)
    requires SharedStable(stale, sh) && CallerAct(st, sh, RetryLoop, ch).Some?
    ensures var (sh', pc') := CallerAct(st, sh, RetryLoop, ch).value; Sinks(stale, sh, RetryLoop, sh', pc')
  {
    hide EncodersStable, Sum;
    if sh.out.retry != [] { SumTail(sh.out.retry, BatchRank(6)); }
  }

  // ---------- workers ----------

  /** A batcher is replaced by one with the same shard and the same stop flag. */
  lemma UpdatePending(stale: Staleness, sh: Shared, se: nat, b: Batcher)
    requires SharedStable(stale, sh) && se < |sh.ses| && b.shard == sh.ses[se].shard && b.stopped == sh.ses[se].stopped
    ensures var sh' := sh.(ses := sh.ses[se := b]);
      && SharedStable(stale, sh')
      && SharedRank(stale, sh') == SharedRank(stale, sh) - PendingRank()(sh.ses[se]) + PendingRank()(b)
  {
    SumUpdate(sh.ses, se, b, PendingRank());
  }

  /** What the phase says of one encoder. */
  lemma LiveOrStopped(stale: Staleness, sh: Shared, se: nat)
    requires SharedStable(stale, sh) && se < |sh.ses|
    ensures sh.ses[se].stopped <==> se < sh.lo
    ensures sh.lo <= se ==> !stale(sh.ses[se].shard.origin)
  {
  }

  lemma SizedSinks(st: Settings, stale: Staleness, sh: Shared, pc: Pc, ch: Choice)
    requires SharedStable(stale, sh) && pc.Sized? && pc.se < |sh.ses|
    ensures var (sh', pc') := WorkerAct(st, sh, pc, ch).value; Sinks(stale, sh, pc, sh', pc')
  {
    hide SharedStable, SharedRank, PcRank, PendingRank, AppendSection, Busy;
    LiveOrStopped(stale, sh, pc.se);
    AppendedRank(st, stale, sh, pc, ch);
    UpdatePending(stale, sh, pc.se, AppendSection(st.limits, sh.ses[pc.se], pc.span, pc.size).0);
  }

  /** What a worker adds to the pending spans it takes from its own weight. */
  lemma AppendedRank(st: Settings, stale: Staleness, sh: Shared, pc: Pc, ch: Choice)
    requires pc.Sized? && pc.se < |sh.ses| && (sh.ses[pc.se].stopped <==> pc.se < sh.lo)
    ensures var b, pc' := AppendSection(st.limits, sh.ses[pc.se], pc.span, pc.size).0, WorkerAct(st, sh, pc,
      ch).value.1;
      && b.shard == sh.ses[pc.se].shard && b.stopped == sh.ses[pc.se].stopped && ThreadStable(pc')
      && PendingRank()(b) + PcRank(stale, sh.lo)(pc') < PendingRank()(sh.ses[pc.se]) + PcRank(stale, sh.lo)(pc)
  {
    hide CallerRank, SenderRank, FindShard, TryEncode, CurrentShards;
  }

  lemma WorkerSinks(st: Settings, stale: Staleness, sh: Shared, pc: Pc, ch: Choice)
    requires SharedStable(stale, sh) && SharedInv(st, sh) && PcInv(st, sh, pc) && WorkerAct(st, sh, pc, ch).Some?
    ensures var (sh', pc') := WorkerAct(st, sh, pc, ch).value; Sinks(stale, sh, pc, sh', pc')
  {
    hide WorkerAct, Sinks, SharedStable, SharedInv;
    match pc
    case WorkerLoop => TakingSinks(st, stale, sh, ch);
    case Picking(_) => PickingSinks(st, stale, sh, pc, ch);
    case Routed(_, _, _) => RoutedSinks(st, stale, sh, pc, ch);
    case Sized(_, _, _, _) => SizedSinks(st, stale, sh, pc, ch);
    case _ => NoOtherWorkerActs(st, sh, pc, ch);
  }

  lemma NoOtherWorkerActs(st: Settings, sh: Shared, pc: Pc, ch: Choice)
    requires WorkerAct(st, sh, pc, ch).Some?
    ensures pc.WorkerLoop? || pc.Picking? || pc.Routed? || pc.Sized?
  {
  }

  lemma TakingSinks(st: Settings, stale: Staleness, sh: Shared, ch: Choice)
    requires SharedStable(stale, sh) && WorkerAct(st, sh, WorkerLoop, ch).Some?
    ensures var (sh', pc') := WorkerAct(st, sh, WorkerLoop, ch).value; Sinks(stale, sh, WorkerLoop, sh', pc')
  {
    hide EncodersStable, Sum;
    if sh.queue != [] { SumTail(sh.queue, BatchRank(2)); }
  }

  lemma RoutedSinks(st: Settings, stale: Staleness, sh: Shared, pc: Pc, ch: Choice)
    requires SharedStable(stale, sh) && pc.Routed?
    ensures var (sh', pc') := WorkerAct(st, sh, pc, ch).value; Sinks(stale, sh, pc, sh', pc')
  {
    hide SharedStable, SharedRank, TryEncode;
  }

  lemma PickingSinks(st: Settings, stale: Staleness, sh: Shared, pc: Pc, ch: Choice)
    requires SharedStable(stale, sh) && pc.Picking?
    ensures var (sh', pc') := WorkerAct(st, sh, pc, ch).value; Sinks(stale, sh, pc, sh', pc')
  {
    hide SharedStable, SharedRank, KeepsPhase, Sinks, PcRank, FindShard, CurrentShards;
    var (sh', pc') := WorkerAct(st, sh, pc, ch).value;
    OnlyBooks(stale, sh, sh');
    PickedRank(st, stale, sh, pc, ch);
    BooksSink(stale, sh, pc, sh', pc');
  }

  lemma PickedRank(st: Settings, stale: Staleness, sh: Shared, pc: Pc, ch: Choice)
    requires pc.Picking?
    ensures var pc' := WorkerAct(st, sh, pc, ch).value.1;
      ThreadStable(pc') && PcRank(stale, sh.lo)(pc') < PcRank(stale, sh.lo)(pc)
  {
    hide PcRank, FindShard, CurrentShards;
    var pc' := WorkerAct(st, sh, pc, ch).value.1;
    PickedStep(st, sh, pc, ch);
    LeftToPick(stale, sh.lo, pc, pc');
  }

  lemma LeftToPick(stale: Staleness, lo: nat, pc: Pc, pc': Pc)
    requires pc.Picking?
    requires pc.rest == [] ==> pc' == WorkerLoop
    requires pc.rest != [] ==>
      || pc' == Calling(SpanProcessFail([pc.rest[0]], ErrEncodingFailed), NextSpan(pc.rest[1..]))
      || (pc'.Routed? && lo <= pc'.se && pc'.rest == pc.rest[1..])
    ensures ThreadStable(pc') && PcRank(stale, lo)(pc') < PcRank(stale, lo)(pc)
  {
    if pc'.Calling? { assert PcRank(stale, lo)(pc') == 1 + 11 * |pc.rest[1..]| + 6; }
  }

  lemma PickedStep(st: Settings, sh: Shared, pc: Pc, ch: Choice)
    requires pc.Picking?
    ensures var pc' := WorkerAct(st, sh, pc, ch).value.1;
      && (pc.rest == [] ==> pc' == WorkerLoop)
      && (pc.rest != [] ==>
            || pc' == Calling(SpanProcessFail([pc.rest[0]], ErrEncodingFailed), NextSpan(pc.rest[1..]))
            || (pc'.Routed? && sh.lo <= pc'.se && pc'.rest == pc.rest[1..]))
  {
    hide FindShard, CurrentShards;
  }

  // ---------- flushes and callbacks ----------

  lemma ResumedRank(stale: Staleness, lo: nat, after: After)
    ensures PcRank(stale, lo)(Resume(after)) == AfterRank(after) && ThreadStable(Resume(after))
  {
  }

  /** What a flush takes from the pending spans it puts into a lighter callback. */
  lemma FlushedRank(st: Settings, stale: Staleness, b: Batcher)
    requires b.pending != [] && (b.stopped || !stale(b.shard.origin))
    ensures var (b', cb) := FlushSection(st.limits, b);
      && b'.shard == b.shard && b'.stopped == b.stopped
      && cb.Some? && CallbackRank(stale, cb.value) + PendingRank()(b') < PendingRank()(b)
  {
  }

  lemma FlushingSinks(st: Settings, stale: Staleness, sh: Shared, pc: Pc, ch: Choice)
    requires SharedStable(stale, sh) && pc.Flushing? && pc.se < |sh.ses|
    ensures var (sh', pc') := FlushAct(st, sh, pc, ch).value; Sinks(stale, sh, pc, sh', pc')
  {
    hide SharedStable, SharedRank, CallerRank, WorkerRank, SenderRank, BatchOutcome;
    ResumedRank(stale, sh.lo, pc.after);
    LiveOrStopped(stale, sh, pc.se);
    if sh.ses[pc.se].pending == [] {
      assert sh.ses[pc.se := sh.ses[pc.se]] == sh.ses;
    } else {
      FlushedRank(st, stale, sh.ses[pc.se]);
      UpdatePending(stale, sh, pc.se, FlushSection(st.limits, sh.ses[pc.se]).0);
      hide FlushSection, PendingRank, CallbackRank;
    }
  }

  lemma Requested(stale: Staleness, sh: Shared, req: RequestToSend)
    requires SharedStable(stale, sh)
    ensures var sh' := sh.(requests := sh.requests + [req]);
      KeepsPhase(stale, sh, sh') && SharedRank(stale, sh') == SharedRank(stale, sh) + RequestRank(stale)(req)
  {
    SumSnoc(sh.requests, req, RequestRank(stale));
    hide EncodersStable, Sum;
  }

  lemma SendingSinks(st: Settings, stale: Staleness, sh: Shared, pc: Pc, ch: Choice)
    requires SharedStable(stale, sh) && pc.Calling? && PcInv(st, sh, pc) && FlushAct(st, sh, pc, ch).Some?
    requires pc.cb.RecordReady?
    ensures var (sh', pc') := FlushAct(st, sh, pc, ch).value; Sinks(stale, sh, pc, sh', pc')
  {
    hide SharedStable, SharedRank, KeepsPhase, Placed;
    Requested(stale, sh, RequestToSend(ExportRequest(pc.cb.record, pc.cb.shard.origin), pc.cb.spans));
    ResumedRank(stale, sh.lo, pc.after);
  }

  /** Spans queued again, or dropped for want of room, add at most the weight of a batch. */
  lemma ResentRank(o: Outbox, spans: seq<Span>)
    ensures Sum(ResendSpans(o, spans).retry, BatchRank(6)) <= Sum(o.retry, BatchRank(6)) + 6 + 11 * |spans|
    ensures ResendSpans(o, spans).forgotten == o.forgotten
  {
    SumSnoc(o.retry, spans, BatchRank(6));
  }

  /** Failures of stopped encoders go back to the retry queue; the others are final. */
  lemma FailingSinks(st: Settings, stale: Staleness, sh: Shared, pc: Pc, ch: Choice)
    requires SharedStable(stale, sh) && pc.Calling? && PcInv(st, sh, pc) && FlushAct(st, sh, pc, ch).Some?
    requires pc.cb.SpanProcessFail?
    ensures var (sh', pc') := FlushAct(st, sh, pc, ch).value; Sinks(stale, sh, pc, sh', pc')
  {
    hide SharedStable, SharedRank, KeepsPhase, Sum, ResendSpans, AllFit;
    ResentRank(sh.out, pc.cb.spans);
    ResumedRank(stale, sh.lo, pc.after);
    Answered(stale, sh, OnSpanProcessFail(sh.out, pc.cb.spans, pc.cb.code), sh.mail);
  }

  lemma FlushSinks(st: Settings, stale: Staleness, sh: Shared, pc: Pc, ch: Choice)
    requires SharedStable(stale, sh) && PcInv(st, sh, pc) && FlushAct(st, sh, pc, ch).Some?
    ensures var (sh', pc') := FlushAct(st, sh, pc, ch).value; Sinks(stale, sh, pc, sh', pc')
  {
    if pc.Flushing? { FlushingSinks(st, stale, sh, pc, ch); }
    else if pc.Calling? && pc.cb.RecordReady? { SendingSinks(st, stale, sh, pc, ch); }
    else if pc.Calling? { FailingSinks(st, stale, sh, pc, ch); }
    else { ControlIsNoWork(st, stale, sh, pc, ch); }
    hide FlushAct;
  }

  /** A tick, or the end of a drain. */
  lemma ControlIsNoWork(st: Settings, stale: Staleness, sh: Shared, pc: Pc, ch: Choice)
    requires SharedStable(stale, sh) && !pc.Flushing? && !pc.Calling? && FlushAct(st, sh, pc, ch).Some?
    ensures var (sh', pc') := FlushAct(st, sh, pc, ch).value; Sinks(stale, sh, pc, sh', pc')
  {
    hide SharedStable, SharedRank, KeepsPhase, PcRank;
    OnlyBooks(stale, sh, FlushAct(st, sh, pc, ch).value.0);
    ControlRank(st, stale, sh, pc, ch);
  }

  lemma ControlRank(st: Settings, stale: Staleness, sh: Shared, pc: Pc, ch: Choice)
    requires !pc.Flushing? && !pc.Calling? && FlushAct(st, sh, pc, ch).Some?
    ensures var pc' := FlushAct(st, sh, pc, ch).value.1;
      ThreadStable(pc') && PcRank(stale, sh.lo)(pc') == PcRank(stale, sh.lo)(pc) && !Moves(sh, pc)
  {
    hide CallerRank, WorkerRank, SenderRank, FlushSection, OnSpanProcessFail;
  }

  // ---------- senders ----------

  lemma Taken(stale: Staleness, sh: Shared)
    requires SharedStable(stale, sh) && sh.requests != []
    ensures var sh' := sh.(requests := sh.requests[1..]);
      KeepsPhase(stale, sh, sh') && SharedRank(stale, sh') == SharedRank(stale, sh) - RequestRank(stale)(sh.requests[0])
  {
    SumTail(sh.requests, RequestRank(stale));
    hide EncodersStable, Sum;
  }

  lemma TakenRank(stale: Staleness, lo: nat, req: RequestToSend)
    requires req.originalSpans != []
    ensures PcRank(stale, lo)(InFlight(req)) < RequestRank(stale)(req) && PcRank(stale, lo)(SenderLoop) == 0
  {
  }

  lemma SenderLoopSinks(st: Settings, stale: Staleness, sh: Shared, ch: Choice)
    requires SharedStable(stale, sh) && RequestsOk(st, sh.requests) && SenderAct(st, sh, SenderLoop, ch).Some?
    ensures var (sh', pc') := SenderAct(st, sh, SenderLoop, ch).value; Sinks(stale, sh, SenderLoop, sh', pc')
  {
    hide SharedStable, SharedRank, KeepsPhase, PcRank, RequestRank, Placed;
    NobodyIsToldToStop(stale, sh);
    assert sh.requests[0] in sh.requests && RequestOk(st, sh.requests[0]);
    Taken(stale, sh);
    TakenRank(stale, sh.lo, sh.requests[0]);
  }

  /** A reply in hand weighs more than what it leaves to do. */
  lemma ReplyRank(o: Outbox, spans: seq<Span>, reply: Reply)
    requires !Unknown(reply) && spans != []
    ensures OnReply(o, spans, reply).forgotten == o.forgotten
    ensures Sum(OnReply(o, spans, reply).retry, BatchRank(6))
      < Sum(o.retry, BatchRank(6)) + if Retryable(reply) then 8 + 11 * |spans| else |spans|
  {
    ResentRank(o, spans);
    hide Sum, ResendSpans;
  }

  /** The outbox and the mailbox after a reply, or after spans were queued again. */
  lemma Answered(stale: Staleness, sh: Shared, out: Outbox, mail: Mailbox)
    requires SharedStable(stale, sh) && out.forgotten == sh.out.forgotten
    ensures var sh' := sh.(out := out, mail := mail);
      && KeepsPhase(stale, sh, sh')
      && SharedRank(stale, sh') == SharedRank(stale, sh) - Sum(sh.out.retry, BatchRank(6)) + Sum(out.retry,
        BatchRank(6))
  {
    hide EncodersStable, Sum;
  }

  lemma RepliedSinks(st: Settings, stale: Staleness, sh: Shared, pc: Pc, ch: Choice)
    requires SharedStable(stale, sh) && ThreadStable(pc) && PcInv(st, sh, pc) && pc.Replied?
    ensures var (sh', pc') := SenderAct(st, sh, pc, ch).value; Sinks(stale, sh, pc, sh', pc')
  {
    if MismatchReply(pc.reply) { MismatchSinks(st, stale, sh, pc, ch); } else { OtherReplySinks(st, stale, sh, pc,
      ch); }
    hide SenderAct, Sinks, SharedStable, PcInv;
  }

  /** A mismatch goes to the mailbox first. */
  lemma MismatchSinks(st: Settings, stale: Staleness, sh: Shared, pc: Pc, ch: Choice)
    requires SharedStable(stale, sh) && pc.Replied? && MismatchReply(pc.reply)
    ensures var (sh', pc') := SenderAct(st, sh, pc, ch).value; Sinks(stale, sh, pc, sh', pc')
  {
    hide SharedStable, SharedRank, KeepsPhase, SetConfig;
    OnlyBooks(stale, sh, sh.(mail := SetConfig(sh.mail, pc.reply.response.shardingConfig)));
    BooksSink(stale, sh, pc, sh.(mail := SetConfig(sh.mail, pc.reply.response.shardingConfig)),
      Resending(pc.req.originalSpans));
  }

  lemma RepliedRank(stale: Staleness, lo: nat, pc: Pc)
    requires pc.Replied?
    ensures PcRank(stale, lo)(SenderLoop) == 0
    ensures PcRank(stale, lo)(pc)
      == if Retryable(pc.reply) then 8 + 11 * |pc.req.originalSpans| else |pc.req.originalSpans|
  {
    hide Retryable;
  }

  lemma OtherReplySinks(st: Settings, stale: Staleness, sh: Shared, pc: Pc, ch: Choice)
    requires SharedStable(stale, sh) && ThreadStable(pc) && PcInv(st, sh, pc) && pc.Replied? && !MismatchReply(pc.reply)
    ensures var (sh', pc') := SenderAct(st, sh, pc, ch).value; Sinks(stale, sh, pc, sh', pc')
  {
    hide SharedStable, SharedRank, KeepsPhase, PcRank, Sum, OnReply, SetConfig, Placed, Retryable, Busy;
    RepliedRank(stale, sh.lo, pc);
    ReplyRank(sh.out, pc.req.originalSpans, pc.reply);
    Answered(stale, sh, OnReply(sh.out, pc.req.originalSpans, pc.reply), sh.mail);
  }

  lemma ResendingSinks(st: Settings, stale: Staleness, sh: Shared, pc: Pc, ch: Choice)
    requires SharedStable(stale, sh) && pc.Resending?
    ensures var (sh', pc') := SenderAct(st, sh, pc, ch).value; Sinks(stale, sh, pc, sh', pc')
  {
    hide SharedStable, SharedRank, KeepsPhase, Sum, ResendSpans;
    ResentRank(sh.out, pc.spans);
    Answered(stale, sh, ResendSpans(sh.out, pc.spans), sh.mail);
  }

  lemma HandledRequestHasSpans(st: Settings, sh: Shared, pc: Pc)
    requires PcInv(st, sh, pc)
    ensures pc.InFlight? || pc.Admitted? || pc.Recorded? ==> pc.req.originalSpans != []
  {
  }

  /** While the server works on a request, shared work stays and the request moves on. */
  lemma ServingSinks(st: Settings, stale: Staleness, sh: Shared, pc: Pc, ch: Choice)
    requires SharedStable(stale, sh) && !pc.SenderLoop? && !pc.Replied? && !pc.Resending?
    requires PcInv(st, sh, pc) && SenderAct(st, sh, pc, ch).Some? && Smooth(stale, sh, pc, ch)
    ensures var (sh', pc') := SenderAct(st, sh, pc, ch).value; Sinks(stale, sh, pc, sh', pc')
  {
    hide SharedStable, SharedRank, KeepsPhase, PcInv, Sinks, PcRank, Smooth;
    var (sh', pc') := SenderAct(st, sh, pc, ch).value;
    OnlyBooks(stale, sh, sh');
    ServedRank(st, stale, sh, pc, ch);
    BooksSink(stale, sh, pc, sh', pc');
  }

  lemma ServedRank(st: Settings, stale: Staleness, sh: Shared, pc: Pc, ch: Choice)
    requires !pc.SenderLoop? && !pc.Replied? && !pc.Resending?
    requires PcInv(st, sh, pc) && SenderAct(st, sh, pc, ch).Some? && Smooth(stale, sh, pc, ch)
    ensures var pc' := SenderAct(st, sh, pc, ch).value.1;
      ThreadStable(pc') && PcRank(stale, sh.lo)(pc') < PcRank(stale, sh.lo)(pc)
  {
    hide PcInv, SenderAct, PcRank, Smooth, Settling, MismatchReply;
    HandledRequestHasSpans(st, sh, pc);
    ServedStep(st, stale, sh, pc, ch);
    var pc' := SenderAct(st, sh, pc, ch).value.1;
    match pc {
      case InFlight(req) => CallRank(stale, sh.lo, pc, pc');
      case Mismatched(req) => TurnedAwayRank(stale, sh.lo, pc, pc');
      case Admitted(req, _) => RecordingRank(stale, sh.lo, pc, pc');
      case Recorded(req) => ReplyingRank(stale, sh.lo, pc, pc');
      case _ =>
    }
  }

  lemma CallRank(stale: Staleness, lo: nat, pc: Pc, pc': Pc)
    requires pc.InFlight? && pc.req.originalSpans != []
    requires (pc'.Admitted? && pc'.req == pc.req) || (pc' == Mismatched(pc.req) && stale(pc.req.exportRequest.shard))
    ensures PcRank(stale, lo)(pc') < PcRank(stale, lo)(pc)
  {
  }

  lemma TurnedAwayRank(stale: Staleness, lo: nat, pc: Pc, pc': Pc)
    requires pc.Mismatched? && pc'.Replied? && pc'.req == pc.req && MismatchReply(pc'.reply)
    ensures ThreadStable(pc') && PcRank(stale, lo)(pc') < PcRank(stale, lo)(pc)
  {
  }

  lemma RecordingRank(stale: Staleness, lo: nat, pc: Pc, pc': Pc)
    requires pc.Admitted? && pc.req.originalSpans != [] && pc' == Recorded(pc.req)
    ensures PcRank(stale, lo)(pc') < PcRank(stale, lo)(pc)
  {
  }

  lemma ReplyingRank(stale: Staleness, lo: nat, pc: Pc, pc': Pc)
    requires pc.Recorded? && pc.req.originalSpans != [] && pc'.Replied? && pc'.req == pc.req && Settling(pc'.reply)
    ensures ThreadStable(pc') && PcRank(stale, lo)(pc') < PcRank(stale, lo)(pc)
  {
    hide Retryable, Unknown;
  }

  lemma ServedStep(st: Settings, stale: Staleness, sh: Shared, pc: Pc, ch: Choice)
    requires !pc.SenderLoop? && !pc.Replied? && !pc.Resending? && SenderAct(st, sh, pc, ch).Some?
      && Smooth(stale, sh, pc, ch)
    ensures var pc' := SenderAct(st, sh, pc, ch).value.1;
      match pc
      case InFlight(req) =>
        pc' == Admitted(req, CurrentConfig(sh)) || (pc' == Mismatched(req) && stale(req.exportRequest.shard))
      case Mismatched(req) => pc'.Replied? && pc'.req == req && MismatchReply(pc'.reply)
      case Admitted(req, _) => pc' == Recorded(req)
      case Recorded(req) => pc'.Replied? && pc'.req == req && Settling(pc'.reply)
      case _ => false
  {
    hide ShardIsPartOfConfig, CurrentConfig, Settling;
  }

  lemma SenderSinks(st: Settings, stale: Staleness, sh: Shared, pc: Pc, ch: Choice)
    requires SharedStable(stale, sh) && RequestsOk(st, sh.requests) && ThreadStable(pc)
    requires PcInv(st, sh, pc) && SenderAct(st, sh, pc, ch).Some? && Smooth(stale, sh, pc, ch)
    ensures var (sh', pc') := SenderAct(st, sh, pc, ch).value; Sinks(stale, sh, pc, sh', pc')
  {
    if pc.SenderLoop? && sh.requests != [] { SenderLoopSinks(st, stale, sh, ch); }
    hide SharedStable, ThreadStable, PcInv, SenderAct, Sinks, RequestsOk, Smooth;
    if pc.SenderLoop? { NobodyQuits(st, stale, sh, ch); }
    else if pc.Replied? { RepliedSinks(st, stale, sh, pc, ch); }
    else if pc.Resending? { ResendingSinks(st, stale, sh, pc, ch); }
    else { ServingSinks(st, stale, sh, pc, ch); }
  }

  /** Before shutdown a sender acts only on a request. */
  lemma NobodyQuits(st: Settings, stale: Staleness, sh: Shared, ch: Choice)
    requires SharedStable(stale, sh) && SenderAct(st, sh, SenderLoop, ch).Some?
    ensures sh.requests != []
  {
  }

  lemma ThreadSinks(st: Settings, stale: Staleness, sh: Shared, pc: Pc, ch: Choice)
    requires SharedInv(st, sh) && SharedStable(stale, sh) && ThreadStable(pc) && PcInv(st, sh, pc)
    requires Act(st, sh, pc, ch).Some? && Smooth(stale, sh, pc, ch)
    ensures var (sh', pc') := Act(st, sh, pc, ch).value; Sinks(stale, sh, pc, sh', pc')
  {
    hide CallerAct, WorkerAct, FlushAct, SenderAct, Sinks, SharedStable, ThreadStable, PcInv, Smooth;
    if CallerPc(pc) { CallerSinks(st, stale, sh, pc, ch); }
    else if WorkerPc(pc) { WorkerSinks(st, stale, sh, pc, ch); }
    else if FlushPc(pc) { FlushSinks(st, stale, sh, pc, ch); }
    else { SenderSinks(st, stale, sh, pc, ch); }
  }

  // ---------- runs of the phase ----------

  /** Steps of the phase: smooth thread steps, and turns of the processor while it has nothing to apply. */
  datatype Quiet = Moving(i: nat, ch: Choice) | Processor

  predicate NothingToApply(sh: Shared) {
    sh.cfgPc.CfgWaiting? && sh.mail.request.None? && !sh.mail.stopped
  }

  function QuietNext(st: Settings, stale: Staleness, s: State, q: Quiet): Option<State> {
    match q
    case Moving(i, ch) =>
      if i < |s.threads| && Smooth(stale, s.sh, s.threads[i], ch) then Next(st, s, Thread(i, ch)) else None
    case Processor => if NothingToApply(s.sh) then Next(st, s, Configuring) else None
  }

  function IsMoving(s: State, q: Quiet): int {
    if q.Moving? && q.i < |s.threads| && Moves(s.sh, s.threads[q.i]) then 1 else 0
  }

  lemma ThreadKeepsStable(st: Settings, stale: Staleness, s: State, i: nat, sh': Shared, pc': Pc)
    requires Stable(st, stale, s) && i < |s.threads|
    requires StepOk(st, s.sh, sh', pc') && Sinks(stale, s.sh, s.threads[i], sh', pc')
    ensures Stable(st, stale, State(sh', s.threads[i := pc']))
    ensures Rank(stale, State(sh', s.threads[i := pc'])) <= Rank(stale, s) - if Moves(s.sh, s.threads[i]) then 1 else 0
    ensures sh'.out.forgotten == s.sh.out.forgotten && sh'.configs == s.sh.configs && sh'.cfgPc == s.sh.cfgPc
  {
    hide SharedStable, ThreadStable, SharedInv, PcInv, Evolves, SharedRank, Busy, Sum;
    ThreadKeepsInv(st, s, i, sh', pc');
    SumUpdate(s.threads, i, pc', PcRank(stale, s.sh.lo));
  }

  /** With nothing to apply, the processor goes back to sleep. */
  lemma ProcessorSleeps(st: Settings, stale: Staleness, sh: Shared)
    requires SharedStable(stale, sh) && NothingToApply(sh) && Configure(st, sh).Some?
    ensures Configure(st, sh) == Some((sh.(mail := CheckMailbox(sh.mail).0), []))
    ensures var sh' := Configure(st, sh).value.0;
      SharedStable(stale, sh') && SharedRank(stale, sh') == SharedRank(stale, sh)
  {
    hide EncodersStable, Sum;
  }

  lemma ProcessorKeepsStable(st: Settings, stale: Staleness, s: State)
    requires Stable(st, stale, s) && NothingToApply(s.sh) && Next(st, s, Configuring).Some?
    ensures var s' := Next(st, s, Configuring).value;
      && Stable(st, stale, s') && Rank(stale, s') == Rank(stale, s)
      && s'.sh.out == s.sh.out && s'.sh.configs == s.sh.configs && s'.sh.cfgPc == s.sh.cfgPc
  {
    hide SharedStable, ThreadStable, Configure, SharedInv, PcInv, CheckMailbox, SharedRank, Sum;
    ProcessorSleeps(st, stale, s.sh);
    NextKeepsInv(st, s, Configuring);
    assert Next(st, s, Configuring).value.threads == s.threads;
  }

  lemma QuietStep(st: Settings, stale: Staleness, s: State, q: Quiet)
    requires Stable(st, stale, s) && QuietNext(st, stale, s, q).Some?
    ensures var s' := QuietNext(st, stale, s, q).value;
      && Stable(st, stale, s') && Rank(stale, s') <= Rank(stale, s) - IsMoving(s, q)
      && s'.sh.out.forgotten == s.sh.out.forgotten && s'.sh.configs == s.sh.configs && s'.sh.cfgPc == s.sh.cfgPc
  {
    hide Act, Configure, Rank, Moves, StepOk, Sinks, SharedStable, ThreadStable, SharedInv, PcInv, Smooth;
    if q.Moving? {
      var (sh', pc') := Act(st, s.sh, s.threads[q.i], q.ch).value;
      ThreadStepOk(st, s.sh, s.threads[q.i], q.ch);
      ThreadSinks(st, stale, s.sh, s.threads[q.i], q.ch);
      ThreadKeepsStable(st, stale, s, q.i, sh', pc');
    } else {
      ProcessorKeepsStable(st, stale, s);
    }
  }

  function QuietExec(st: Settings, stale: Staleness, s: State, run: seq<Quiet>): Option<State> {
    if run == [] then Some(s)
    else match QuietExec(st, stale, s, run[..|run| - 1])
      case None => None
      case Some(t) => QuietNext(st, stale, t, run[|run| - 1])
  }

  /** How many steps of the run moved work. */
  function MovingSteps(st: Settings, stale: Staleness, s: State, run: seq<Quiet>): int {
    if run == [] then 0
    else match QuietExec(st, stale, s, run[..|run| - 1])
      case None => 0
      case Some(t) => MovingSteps(st, stale, s, run[..|run| - 1]) + IsMoving(t, run[|run| - 1])
  }

  lemma RankNonNegative(stale: Staleness, s: State)
    ensures Rank(stale, s) >= 0
  {
    SumNonNegative(s.sh.queue, BatchRank(2));
    SumNonNegative(s.sh.out.retry, BatchRank(6));
    SumNonNegative(s.sh.ses, PendingRank());
    SumNonNegative(s.sh.requests, RequestRank(stale));
    PcRanksNonNegative(stale, s);
    hide Sum, BatchRank, PendingRank, RequestRank;
  }

  lemma PcRanksNonNegative(stale: Staleness, s: State)
    ensures Sum(s.threads, PcRank(stale, s.sh.lo)) >= 0
  {
    SumNonNegative(s.threads, PcRank(stale, s.sh.lo));
  }

  /** The phase lasts, and a run of it can move work at most as often as the rank it starts with. */
  lemma {:induction false} MovingStepsAreBounded(st: Settings, stale: Staleness, s: State, run: seq<Quiet>)
    requires Stable(st, stale, s) && QuietExec(st, stale, s, run).Some?
    ensures var t := QuietExec(st, stale, s, run).value;
      && Stable(st, stale, t)
      && MovingSteps(st, stale, s, run) + Rank(stale, t) <= Rank(stale, s)
      && t.sh.out.forgotten == s.sh.out.forgotten
    ensures MovingSteps(st, stale, s, run) <= Rank(stale, s)
  {
    hide Rank, Stable, QuietNext, IsMoving;
    if run != [] {
      MovingStepsAreBounded(st, stale, s, run[..|run| - 1]);
      QuietStep(st, stale, QuietExec(st, stale, s, run[..|run| - 1]).value, run[|run| - 1]);
    }
    RankNonNegative(stale, QuietExec(st, stale, s, run).value);
  }

  // ---------- the pipeline drains ----------

  function AsSteps(run: seq<Quiet>): seq<Step> {
    Map(run, (q: Quiet) => match q case Moving(i, ch) => Thread(i, ch) case Processor => Configuring)
  }

  lemma {:induction false} QuietRunIsRun(st: Settings, stale: Staleness, config: Config, run: seq<Step>,
          quiet: seq<Quiet>)
    requires Exec(st, config, run).Some? && QuietExec(st, stale, Exec(st, config, run).value, quiet).Some?
    ensures Exec(st, config, run + AsSteps(quiet)) == QuietExec(st, stale, Exec(st, config, run).value, quiet)
  {
    hide Next;
    if quiet == [] {
      assert run + AsSteps(quiet) == run;
    } else {
      var init := quiet[..|quiet| - 1];
      QuietRunIsRun(st, stale, config, run, init);
      var steps := run + AsSteps(quiet);
      assert steps[..|steps| - 1] == run + AsSteps(init);
    }
  }

  ghost predicate EverythingSettled(s: State) {
    forall x :: Settled(s.sh.out, x) == Count(s.sh.admitted, x)
  }

  lemma QuietKeepsRunning(st: Settings, stale: Staleness, s: State, q: Quiet)
    requires Running(st, s) && Stable(st, stale, s) && QuietNext(st, stale, s, q).Some?
    ensures Running(st, QuietNext(st, stale, s, q).value)
  {
    hide Stable, Act, Configure;
    if q.Moving? { ThreadKeepsStaff(st, s.sh, s.threads[q.i], q.ch); }
    else { ProcessorKeepsRunning(st, s); }
  }

  lemma ProcessorKeepsRunning(st: Settings, s: State)
    requires Running(st, s) && Next(st, s, Configuring).Some?
    ensures Running(st, Next(st, s, Configuring).value)
  {
    hide CheckMailbox, NewConfig;
  }

  lemma {:induction false} QuietRunKeepsRunning(st: Settings, stale: Staleness, s: State, run: seq<Quiet>)
    requires Running(st, s) && Stable(st, stale, s) && QuietExec(st, stale, s, run).Some?
    ensures Running(st, QuietExec(st, stale, s, run).value)
  {
    hide Running, Stable, QuietNext;
    if run != [] {
      QuietRunKeepsRunning(st, stale, s, run[..|run| - 1]);
      MovingStepsAreBounded(st, stale, s, run[..|run| - 1]);
      QuietKeepsRunning(st, stale, QuietExec(st, stale, s, run[..|run| - 1]).value, run[|run| - 1]);
    }
  }

  /** A flusher's tick over a pending batch is followed by a flush that moves it. */
  lemma TickIsFollowedByMove(st: Settings, sh: Shared, pc: Pc)
    requires pc.FlusherLoop? && Busy(sh, pc)
    ensures Act(st, sh, pc, Go) == Some((sh, Flushing(pc.se, NextTick(pc.se))))
    ensures Moves(sh, Flushing(pc.se, NextTick(pc.se))) && Able(st, sh, Flushing(pc.se, NextTick(pc.se)))
  {
  }

  /**
   * Whatever run of the phase follows any run that reaches it, work has been
   * moved at most Rank times, nothing has been forgotten, and unless every span taken in is
   * settled some thread with work can act or awaits a reply.
   */
  lemma PipelineDrains(st: Settings, stale: Staleness, config: Config, run: seq<Step>, quiet: seq<Quiet>)
    requires Exec(st, config, run).Some?
    requires Running(st, Exec(st, config, run).value) && Stable(st, stale, Exec(st, config, run).value)
    requires QuietExec(st, stale, Exec(st, config, run).value, quiet).Some?
    ensures var s := Exec(st, config, run).value;
      var t := QuietExec(st, stale, s, quiet).value;
      && MovingSteps(st, stale, s, quiet) <= Rank(stale, s)
      && t.sh.out.forgotten == s.sh.out.forgotten
      && (SomebodyAble(st, t) || EverythingSettled(t))
  {
    hide Running, Stable, SomebodyAble, Rank;
    var s := Exec(st, config, run).value;
    var t := QuietExec(st, stale, s, quiet).value;
    MovingStepsAreBounded(st, stale, s, quiet);
    QuietRunKeepsRunning(st, stale, s, quiet);
    QuietRunIsRun(st, stale, config, run, quiet);
    if !SomebodyAble(st, t) {
      forall x ensures Settled(t.sh.out, x) == Count(t.sh.admitted, x) {
        SpansAreConserved(st, config, run + AsSteps(quiet), x);
        SettledAtMostAdmitted(t, x);
        if Settled(t.sh.out, x) < Count(t.sh.admitted, x) {
          UnsettledSpanCanProceed(st, config, run + AsSteps(quiet), x);
        }
      }
    }
  }

  lemma SettledAtMostAdmitted(s: State, x: nat)
    requires Conserved(s, x)
    ensures Settled(s.sh.out, x) <= Count(s.sh.admitted, x)
  {
    hide Settled;
    SumNonNegative(s.sh.queue, BatchCount(x));
    SumNonNegative(s.sh.ses, PendingCount(x));
    SumNonNegative(s.sh.requests, RequestCount(x));
    SumNonNegative(s.sh.out.retry, BatchCount(x));
    SumNonNegative(s.threads, HandCount(x));
  }

  // ---------- a run that empties the pipeline ----------

  lemma {:induction false} QuietAppend(st: Settings, stale: Staleness, s: State, a: seq<Quiet>, b: seq<Quiet>)
    requires QuietExec(st, stale, s, a).Some?
    ensures QuietExec(st, stale, s, a + b) == QuietExec(st, stale, QuietExec(st, stale, s, a).value, b)
  {
    hide QuietNext;
    if b == [] {
      assert a + b == a;
    } else {
      assert (a + b)[..|a + b| - 1] == a + b[..|b| - 1];
      QuietAppend(st, stale, s, a, b[..|b| - 1]);
    }
  }

  lemma QuietOne(st: Settings, stale: Staleness, s: State, q: Quiet)
    ensures QuietExec(st, stale, s, [q]) == QuietNext(st, stale, s, q)
  {
    hide QuietNext;
    assert [q][..0] == [];
    assert QuietExec(st, stale, s, []) == Some(s);
  }

  /** Reached by a run, before shutdown, in a stable phase. */
  ghost predicate InPhase(st: Settings, stale: Staleness, config: Config, run: seq<Step>) {
    && Exec(st, config, run).Some?
    && Running(st, Exec(st, config, run).value)
    && Stable(st, stale, Exec(st, config, run).value)
  }

  function NextChoice(pc: Pc, ok: Reply): Choice {
    if pc.Recorded? then Respond(ok) else Go
  }

  /** The server will not turn this call away unless its shard is stale. */
  predicate Meets(stale: Staleness, sh: Shared, pc: Pc) {
    pc.InFlight? && !stale(pc.req.exportRequest.shard) ==>
      ShardIsPartOfConfig(pc.req.exportRequest.shard, CurrentConfig(sh))
  }

  lemma SmoothAnswer(stale: Staleness, sh: Shared, pc: Pc, ok: Reply)
    requires Settling(ok) && Meets(stale, sh, pc)
    ensures Smooth(stale, sh, pc, NextChoice(pc, ok))
  {
  }

  /** What a stretch of the phase keeps. */
  ghost predicate Leads(st: Settings, stale: Staleness, config: Config, run: seq<Step>, quiet: seq<Quiet>,
          run': seq<Step>) {
    && InPhase(st, stale, config, run) && InPhase(st, stale, config, run') && Continues(st, config, run, run')
    && var s, t := Exec(st, config, run).value, Exec(st, config, run').value;
    && QuietExec(st, stale, s, quiet) == Some(t)
    && t.sh.out.forgotten == s.sh.out.forgotten && t.sh.configs == s.sh.configs && t.sh.cfgPc == s.sh.cfgPc
  }

  /** One step of a thread that can act keeps the phase; it sinks the rank unless it was a tick. */
  lemma StableStep(st: Settings, stale: Staleness, config: Config, run: seq<Step>, i: nat, ok: Reply)
    returns (q: Quiet, run': seq<Step>)
    requires InPhase(st, stale, config, run) && st.mayReply(ok) && Settling(ok)
    requires var s := Exec(st, config, run).value;
      i < |s.threads| && Able(st, s.sh, s.threads[i]) && Meets(stale, s.sh, s.threads[i])
    ensures q == Moving(i, NextChoice(Exec(st, config, run).value.threads[i], ok))
    ensures Leads(st, stale, config, run, [q], run')
    ensures var s := Exec(st, config, run).value;
      Rank(stale, Exec(st, config, run').value) <= Rank(stale, s) - (if Moves(s.sh, s.threads[i]) then 1 else 0)
  {
    hide Running, Stable, Rank, Moves, Settling, Smooth, Meets;
    var s := Exec(st, config, run).value;
    q := Moving(i, NextChoice(s.threads[i], ok));
    SmoothAnswer(stale, s.sh, s.threads[i], ok);
    run' := run + [Thread(i, q.ch)];
    ExecSnoc(st, config, run, Thread(i, q.ch));
    ContinuesWith(st, config, run, Thread(i, q.ch));
    QuietStep(st, stale, s, q);
    QuietKeepsRunning(st, stale, s, q);
    QuietOne(st, stale, s, q);
  }

  lemma LeadsOn(st: Settings, stale: Staleness, config: Config, run: seq<Step>, a: seq<Quiet>, mid: seq<Step>,
                b: seq<Quiet>, run': seq<Step>)
    requires Leads(st, stale, config, run, a, mid) && Leads(st, stale, config, mid, b, run')
    ensures Leads(st, stale, config, run, a + b, run')
  {
    hide Running, Stable, QuietNext, QuietExec;
    QuietAppend(st, stale, Exec(st, config, run).value, a, b);
    ContinuesOn(st, config, run, mid, run');
  }

  lemma TickKeepsState(st: Settings, stale: Staleness, s: State, i: nat)
    requires i < |s.threads| && s.threads[i].FlusherLoop? && Busy(s.sh, s.threads[i])
    ensures var se := s.threads[i].se;
      QuietNext(st, stale, s, Moving(i, Go)) == Some(State(s.sh, s.threads[i := Flushing(se, NextTick(se))]))
  {
  }

  /** Threads go on as they would, and requests that are recorded are answered with this reply. */
  predicate AnsweredBy(ok: Reply, quiet: seq<Quiet>) {
    forall q <- quiet :: q.Moving? && (q.ch.Go? || q.ch == Respond(ok))
  }

  lemma AnsweredByBoth(ok: Reply, a: seq<Quiet>, b: seq<Quiet>)
    requires AnsweredBy(ok, a) && AnsweredBy(ok, b)
    ensures AnsweredBy(ok, a + b)
  {
  }

  /** The tick itself leaves the flusher about to move something. */
  lemma Tick(st: Settings, stale: Staleness, config: Config, run: seq<Step>, i: nat, ok: Reply)
    returns (q: Quiet, run': seq<Step>)
    requires InPhase(st, stale, config, run) && st.mayReply(ok) && Settling(ok)
    requires var s := Exec(st, config, run).value;
      i < |s.threads| && s.threads[i].FlusherLoop? && Busy(s.sh, s.threads[i]) && Able(st, s.sh, s.threads[i])
    ensures Leads(st, stale, config, run, [q], run') && AnsweredBy(ok, [q])
    ensures Rank(stale, Exec(st, config, run').value) <= Rank(stale, Exec(st, config, run).value)
    ensures var t := Exec(st, config, run').value;
      i < |t.threads| && Able(st, t.sh, t.threads[i]) && Moves(t.sh, t.threads[i]) && Meets(stale, t.sh, t.threads[i])
  {
    var s := Exec(st, config, run).value;
    TickIsFollowedByMove(st, s.sh, s.threads[i]);
    TickKeepsState(st, stale, s, i);
    QuietOne(st, stale, s, Moving(i, Go));
    hide InPhase, Exec, QuietNext, QuietExec, Settling, Rank, Act, Busy, Moves, Able;
    q, run' := StableStep(st, stale, config, run, i, ok);
  }

  /** A round that lowers the rank: one step, or a tick and the flush it calls for. */
  lemma Round(st: Settings, stale: Staleness, config: Config, run: seq<Step>, i: nat, ok: Reply)
    returns (quiet: seq<Quiet>, run': seq<Step>)
    requires InPhase(st, stale, config, run) && st.mayReply(ok) && Settling(ok)
    requires var s := Exec(st, config, run).value;
      i < |s.threads| && Busy(s.sh, s.threads[i]) && Able(st, s.sh, s.threads[i]) && Meets(stale, s.sh, s.threads[i])
    ensures Leads(st, stale, config, run, quiet, run') && |quiet| <= 2 && AnsweredBy(ok, quiet)
    ensures Rank(stale, Exec(st, config, run').value) < Rank(stale, Exec(st, config, run).value)
  {
    hide Running, Stable, Exec, QuietExec, Settling, Rank, Act, Busy, Able, Meets;
    if Exec(st, config, run).value.threads[i].FlusherLoop? {
      var q, run1 := Tick(st, stale, config, run, i, ok);
      var q2;
      q2, run' := StableStep(st, stale, config, run1, i, ok);
      LeadsOn(st, stale, config, run, [q], run1, [q2], run');
      quiet := [q] + [q2];
    } else {
      var q;
      q, run' := StableStep(st, stale, config, run, i, ok);
      quiet := [q];
    }
  }

  lemma NothingUnfinishedMeansSettled(st: Settings, config: Config, run: seq<Step>)
    requires Exec(st, config, run).Some? && !Unfinished(Exec(st, config, run).value)
    ensures EverythingSettled(Exec(st, config, run).value)
  {
    var s := Exec(st, config, run).value;
    hide Unfinished, Settled, Count, Exec;
    forall x ensures Settled(s.sh.out, x) == Count(s.sh.admitted, x) {
      SpansAreConserved(st, config, run, x);
      SettledAtMostAdmitted(s, x);
      if Settled(s.sh.out, x) < Count(s.sh.admitted, x) { UnsettledSpanIsUnfinished(s, x); }
    }
  }

  lemma BusyAndAble(st: Settings, s: State) returns (i: nat)
    requires SomebodyAble(st, s)
    ensures i < |s.threads| && Busy(s.sh, s.threads[i]) && Able(st, s.sh, s.threads[i])
  {
    i :| 0 <= i < |s.threads| && Busy(s.sh, s.threads[i]) && Able(st, s.sh, s.threads[i]);
  }

  /** Nothing is left to do, or a call that is not for a stale shard is about to be turned away all the same. */
  ghost predicate EmptyOrStuck(stale: Staleness, t: State) {
    || (!Unfinished(t) && EverythingSettled(t))
    || exists pc <- t.threads :: !Meets(stale, t.sh, pc)
  }

  lemma {:induction false} RunsToTheEnd(st: Settings, stale: Staleness, config: Config, run: seq<Step>, ok: Reply)
    returns (quiet: seq<Quiet>, run': seq<Step>)
    requires InPhase(st, stale, config, run) && st.mayReply(ok) && Settling(ok)
    ensures Leads(st, stale, config, run, quiet, run') && AnsweredBy(ok, quiet)
    ensures EmptyOrStuck(stale, Exec(st, config, run').value)
    ensures |quiet| <= 2 * (Rank(stale, Exec(st, config, run).value) - Rank(stale, Exec(st, config, run').value))
    decreases Rank(stale, Exec(st, config, run).value)
  {
    hide Running, Stable, Rank, Unfinished, EverythingSettled, Settling, QuietNext, Next, Meets, SomebodyAble,
      Busy, Able;
    var s := Exec(st, config, run).value;
    if !Unfinished(s) {
      NothingUnfinishedMeansSettled(st, config, run);
      quiet, run' := [], run;
    } else {
      UnfinishedWorkCanProceed(st, config, run);
      var i := BusyAndAble(st, s);
      if Meets(stale, s.sh, s.threads[i]) {
        var round, mid := Round(st, stale, config, run, i, ok);
        RankNonNegative(stale, s);
        RankNonNegative(stale, Exec(st, config, mid).value);
        var rest;
        rest, run' := RunsToTheEnd(st, stale, config, mid, ok);
        LeadsOn(st, stale, config, run, round, mid, rest, run');
        AnsweredByBoth(ok, round, rest);
        quiet := round + rest;
      } else {
        assert s.threads[i] in s.threads;
        quiet, run' := [], run;
      }
    }
  }

  /**
   * The pipeline empties. From any state that a run has reached in which the
   * live encoders serve the server's current shards, whatever stale work is left over, if the
   * server may answer what it has recorded with some settling reply, at most
   * 2 * Rank further steps leave no work anywhere: every span taken in has
   * been delivered, or dropped and counted, or had been forgotten before.
   */
  lemma PipelineEmpties(st: Settings, config: Config, run: seq<Step>, ok: Reply)
    returns (quiet: seq<Quiet>, run': seq<Step>)
    requires Exec(st, config, run).Some?
    requires var s := Exec(st, config, run).value; Running(st, s) && Stable(st, Outdated(s.sh.configs), s)
    requires st.mayReply(ok) && Settling(ok)
    ensures Continues(st, config, run, run') && AnsweredBy(ok, quiet)
    ensures var s, t := Exec(st, config, run).value, Exec(st, config, run').value;
      && QuietExec(st, Outdated(s.sh.configs), s, quiet) == Some(t)
      && |quiet| <= 2 * Rank(Outdated(s.sh.configs), s)
      && !Unfinished(t) && EverythingSettled(t)
      && t.sh.out.forgotten == s.sh.out.forgotten
  {
    hide Running, Stable, Rank, Unfinished, EverythingSettled, Settling, QuietExec;
    var stale := Outdated(Exec(st, config, run).value.sh.configs);
    quiet, run' := RunsToTheEnd(st, stale, config, run, ok);
    RankNonNegative(stale, Exec(st, config, run').value);
  }
}
