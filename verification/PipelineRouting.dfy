/**
 * What every reachable state of the pipeline keeps: spans and records sit with
 * the shard that owns them, and the steps of one thread leave the others'
 * facts in place.
 */
module PipelineRouting {
  import opened Basics
  import opened HashKeys
  import opened ShardingConfig
  import opened Spans
  import opened ShardEncoding
  import opened Server
  import opened Exporting
  import opened ConfigMailbox
  import opened Pipeline

  // ---------- local facts ----------

  predicate Fits(st: Settings, span: Span) {
    WithinLimit(st.limits.codec, st.limits.maxAllowedSizePerSpan, span)
  }

  predicate Belongs(st: Settings, shard: Shard, span: Span) {
    BelongsToShard(st.limits.codec.md5, shard, span.traceID)
  }

  /** Spans that are in the right shard and have passed the size check. */
  ghost predicate Placed(st: Settings, shard: Shard, spans: seq<Span>) {
    forall s <- spans :: Belongs(st, shard, s) && Fits(st, s)
  }

  ghost predicate AllFit(st: Settings, spans: seq<Span>) {
    forall s <- spans :: Fits(st, s)
  }

  ghost predicate BatcherOk(st: Settings, b: Batcher) {
    && b.shard == InMemory(b.shard.origin)
    && Placed(st, b.shard, b.pending)
  }

  /**
   * The contract of Send: the record describes its spans, and its spans and
   * its partition key lie in the hash range of the shard it is sent for.
   */
  ghost predicate RequestOk(st: Settings, req: RequestToSend) {
    && RecordMatchesSpans(st.limits, req.exportRequest.record, req.originalSpans)
    && Placed(st, InMemory(req.exportRequest.shard), req.originalSpans)
  }

  /** A recorded request names a shard of the configuration that admitted it, one the server has had. */
  ghost predicate AdmissionOk(st: Settings, configs: seq<Config>, a: Admission) {
    && RequestOk(st, a.request)
    && a.config in configs
    && ShardIsPartOfConfig(a.request.exportRequest.shard, a.config)
  }

  ghost predicate CallbackOk(st: Settings, cb: Callback) {
    match cb
    case RecordReady(record, spans, shard) => RequestOk(st, RequestToSend(ExportRequest(record, shard.origin), spans))
    case SpanProcessFail(spans, code) => spans != [] && (code.ErrEncoderStopped? ==> AllFit(st, spans))
  }

  /** Encoder se is stopped and empty for good. */
  ghost predicate Closed(sh: Shared, se: nat) {
    se < |sh.ses| && sh.ses[se].stopped && sh.ses[se].pending == []
  }

  ghost predicate AfterOk(sh: Shared, se: nat, after: After) {
    match after
    case NextSpan(_) => true
    case NextTick(f) => f == se
    case FlusherReturns(f) => f == se && se < |sh.ses| && sh.ses[se].stopped
    case DrainReturns => true
  }

  ghost predicate PcInv(st: Settings, sh: Shared, pc: Pc) {
    match pc
    case Entering(batch, retried) => retried ==> AllFit(st, batch)
    case Routed(span, se, _) => se < |sh.ses| && Belongs(st, sh.ses[se].shard, span)
    case Sized(span, size, se, _) =>
      && se < |sh.ses| && Belongs(st, sh.ses[se].shard, span)
      && Fits(st, span) && st.limits.codec.marshalSize(span) == Some(size)
    case Flushing(se, after) => se < |sh.ses| && AfterOk(sh, se, after)
    case Calling(cb, after) =>
      && CallbackOk(st, cb)
      && (after.NextTick? ==> after.se < |sh.ses|)
      && (after.FlusherReturns? ==> Closed(sh, after.se))
    case FlusherLoop(se) => se < |sh.ses|
    case FlusherGone(se) => Closed(sh, se)
    case InFlight(req) => RequestOk(st, req)
    case Mismatched(req) => RequestOk(st, req)
    case Admitted(req, config) => AdmissionOk(st, sh.configs, Admission(req, config))
    case Recorded(req) => RequestOk(st, req)
    case Replied(req, _, _) => RequestOk(st, req)
    case Resending(spans) => AllFit(st, spans)
    case _ => true
  }

  /** Replaced encoders are all stopped, so at most one generation is live. */
  ghost predicate EncodersOk(st: Settings, ses: seq<Batcher>, lo: nat) {
    && lo <= |ses|
    && Ascending(Map(ses[lo..], ShardOf))
    && (forall j | 0 <= j < |ses| :: BatcherOk(st, ses[j]))
    && (forall j | 0 <= j < lo :: ses[j].stopped)
  }

  ghost predicate StoppedFrom(ses: seq<Batcher>, lo: nat, end: nat) {
    end <= |ses| && forall j | lo <= j < end :: ses[j].stopped
  }

  ghost predicate CfgOk(ses: seq<Batcher>, lo: nat, pc: CfgPc) {
    match pc
    case CfgStopping(_, next) => StoppedFrom(ses, lo, next)
    case CfgApplying(_) => StoppedFrom(ses, lo, |ses|)
    case _ => true
  }

  ghost predicate RequestsOk(st: Settings, requests: seq<RequestToSend>) {
    |requests| <= st.sendConcurrency && forall req <- requests :: RequestOk(st, req)
  }

  ghost predicate RecordsOk(st: Settings, configs: seq<Config>, records: seq<Admission>) {
    configs != [] && forall a <- records :: AdmissionOk(st, configs, a)
  }

  ghost predicate RetryOk(st: Settings, retry: seq<seq<Span>>) {
    |retry| <= RETRY_QUEUE_SIZE && forall batch <- retry :: AllFit(st, batch)
  }

  ghost predicate SharedInv(st: Settings, sh: Shared) {
    && EncodersOk(st, sh.ses, sh.lo)
    && CfgOk(sh.ses, sh.lo, sh.cfgPc)
    && MailboxInv(sh.mail)
    && |sh.queue| <= st.numWorkers
    && RequestsOk(st, sh.requests)
    && RecordsOk(st, sh.configs, sh.records)
    && RetryOk(st, sh.out.retry)
  }

  // ---------- what steps do to the facts of other threads ----------

  /** Encoders keep their shard, stops are final, an encoder that is closed stays closed, history only grows. */
  ghost predicate Evolves(sh: Shared, sh': Shared) {
    EncodersEvolve(sh.ses, sh'.ses) && sh.configs <= sh'.configs
  }

  ghost predicate EncodersEvolve(ses: seq<Batcher>, ses': seq<Batcher>) {
    && |ses| <= |ses'|
    && (forall j | 0 <= j < |ses| ::
          && ses'[j].shard == ses[j].shard
          && (ses[j].stopped ==> ses'[j].stopped)
          && (ses[j].stopped && ses[j].pending == [] ==> ses'[j].pending == []))
  }

  lemma PcInvIsStable(st: Settings, sh: Shared, sh': Shared, pc: Pc)
    requires PcInv(st, sh, pc) && Evolves(sh, sh')
    ensures PcInv(st, sh', pc)
  {
  }

  /** The step of one thread keeps the shared facts, its own facts, and those of everybody else. */
  ghost predicate StepOk(st: Settings, sh: Shared, sh': Shared, pc': Pc) {
    SharedInv(st, sh') && Evolves(sh, sh') && PcInv(st, sh', pc')
  }

  // ---------- what a thread may touch ----------

  function MailAfter(mail: Mailbox, reply: Reply): Mailbox {
    if MismatchReply(reply) then SetConfig(mail, reply.response.shardingConfig) else mail
  }

  /** Where a reply comes from: the call failed, the server turned it away, or it answered what it had recorded. */
  predicate ReplyFrom(st: Settings, sh: Shared, pc: Pc, reply: Reply) {
    if pc.Recorded? then st.mayReply(reply)
    else reply.RpcError? || reply == Answer(ExportResponse(SHARD_CONFIG_MISMATCH, Some(CurrentConfig(sh))))
  }

  /**
   * Threads leave the control flags, the processor, the list of encoders and their stop flags
   * alone; only a mismatch in hand writes to the mailbox.
   */
  ghost predicate Framed(st: Settings, sh: Shared, pc: Pc, sh': Shared, pc': Pc) {
    && sh'.ctl == sh.ctl.(draining := sh'.ctl.draining)
    && sh'.cfgPc == sh.cfgPc && sh'.lo == sh.lo && sh'.configs == sh.configs && sh'.workersStarted == sh.workersStarted
    && |sh'.ses| == |sh.ses|
    && (forall j | 0 <= j < |sh.ses| :: sh'.ses[j].shard == sh.ses[j].shard && sh'.ses[j].stopped == sh.ses[j].stopped)
    && sh'.mail == (if pc.Replied? then MailAfter(sh.mail, pc.reply) else sh.mail)
    && (pc'.Replied? ==> ReplyFrom(st, sh, pc, pc'.reply))
  }

  lemma CallerFramed(st: Settings, sh: Shared, pc: Pc, ch: Choice)
    requires CallerPc(pc) && CallerAct(st, sh, pc, ch).Some?
    ensures var (sh', pc') := CallerAct(st, sh, pc, ch).value; Framed(st, sh, pc, sh', pc')
  {
  }

  lemma AppendFramed(st: Settings, b: Batcher, span: Span, size: nat)
    ensures var b' := AppendSection(st.limits, b, span, size).0; b'.shard == b.shard && b'.stopped == b.stopped
  {
  }

  lemma FlushFramedSection(st: Settings, b: Batcher)
    ensures var b' := FlushSection(st.limits, b).0; b'.shard == b.shard && b'.stopped == b.stopped
  {
  }

  lemma WorkerFramed(st: Settings, sh: Shared, pc: Pc, ch: Choice)
    requires WorkerPc(pc) && WorkerAct(st, sh, pc, ch).Some?
    ensures var (sh', pc') := WorkerAct(st, sh, pc, ch).value; Framed(st, sh, pc, sh', pc')
  {
    hide AppendSection, TryEncode, FindShard, CurrentShards, ReplyFrom;
    if pc.Sized? { AppendFramed(st, sh.ses[pc.se], pc.span, pc.size); }
  }

  lemma FlushFramed(st: Settings, sh: Shared, pc: Pc, ch: Choice)
    requires FlushPc(pc) && FlushAct(st, sh, pc, ch).Some?
    ensures var (sh', pc') := FlushAct(st, sh, pc, ch).value; Framed(st, sh, pc, sh', pc')
  {
    hide FlushSection, OnSpanProcessFail, ReplyFrom;
    if pc.Flushing? { FlushFramedSection(st, sh.ses[pc.se]); }
  }

  lemma SenderFramed(st: Settings, sh: Shared, pc: Pc, ch: Choice)
    requires SenderAct(st, sh, pc, ch).Some?
    ensures var (sh', pc') := SenderAct(st, sh, pc, ch).value; Framed(st, sh, pc, sh', pc')
  {
    hide OnReply, ResendSpans, SetConfig, ShardIsPartOfConfig, CurrentConfig;
  }

  lemma ThreadFramed(st: Settings, sh: Shared, pc: Pc, ch: Choice)
    requires Act(st, sh, pc, ch).Some?
    ensures var (sh', pc') := Act(st, sh, pc, ch).value; Framed(st, sh, pc, sh', pc')
  {
    hide CallerAct, WorkerAct, FlushAct, SenderAct, Framed;
    if CallerPc(pc) { CallerFramed(st, sh, pc, ch); }
    else if WorkerPc(pc) { WorkerFramed(st, sh, pc, ch); }
    else if FlushPc(pc) { FlushFramed(st, sh, pc, ch); }
    else { SenderFramed(st, sh, pc, ch); }
  }

  // ---------- one lemma for each kind of thread ----------

  lemma CallerStepOk(st: Settings, sh: Shared, pc: Pc, ch: Choice)
    requires SharedInv(st, sh) && PcInv(st, sh, pc) && CallerAct(st, sh, pc, ch).Some?
    ensures var (sh', pc') := CallerAct(st, sh, pc, ch).value; StepOk(st, sh, sh', pc')
  {
  }

  /** getShardEncoder: the encoder found owns the key, and is the only one of the list that does. */
  lemma FoundShardOwnsSpan(st: Settings, sh: Shared, span: Span)
    requires SharedInv(st, sh)
    ensures match FindShard(CurrentShards(sh), PartitionKeyToHashKey(st.limits.codec.md5, span.traceID))
            case None => forall j | sh.lo <= j < |sh.ses| :: !Belongs(st, sh.ses[j].shard, span)
            case Some(k) => (sh.lo + k < |sh.ses| &&
              forall j | sh.lo <= j < |sh.ses| :: Belongs(st, sh.ses[j].shard, span) <==> j == sh.lo + k)
    ensures forall j | sh.lo <= j < |sh.ses| :: Belongs(st, sh.ses[j].shard, span) <==>
      (sh.ses[j].shard.startingHashKey <= SetBytes(st.limits.codec.md5(span.traceID))
        <= sh.ses[j].shard.endingHashKey)
  {
    hide FindShard, BatcherOk, RequestsOk, RecordsOk, RetryOk, CfgOk, MailboxInv;
    OwnerInList(sh.ses, sh.lo, PartitionKeyToHashKey(st.limits.codec.md5, span.traceID));
  }

  lemma OwnerInList(ses: seq<Batcher>, lo: nat, key: nat)
    requires lo <= |ses| && Ascending(Map(ses[lo..], ShardOf))
    ensures match FindShard(Map(ses[lo..], ShardOf), key)
            case None => forall j | lo <= j < |ses| :: !Contains(ses[j].shard, key)
            case Some(k) => (lo + k < |ses| && forall j | lo <= j < |ses| :: Contains(ses[j].shard, key) <==>
              j == lo + k)
  {
    hide FindShard, Ascending, Contains;
    var shards := Map(ses[lo..], ShardOf);
    FindShardFinds(shards, key);
    forall j | lo <= j < |ses| ensures Contains(ses[j].shard, key) <==> FindShard(shards, key) == Some(j - lo) {
      assert shards[j - lo] == ses[j].shard;
      OwnerIsUnique(shards, key, j - lo);
    }
  }

  /** Replacing one encoder by a successor with the same shard. */
  ghost predicate Succeeds(st: Settings, b: Batcher, b': Batcher) {
    && b'.shard == b.shard && BatcherOk(st, b')
    && (b.stopped ==> b'.stopped && (b.pending == [] ==> b'.pending == []))
  }

  lemma UpdateEncoder(st: Settings, ses: seq<Batcher>, lo: nat, cfgPc: CfgPc, se: nat, b': Batcher)
    requires EncodersOk(st, ses, lo) && CfgOk(ses, lo, cfgPc) && se < |ses| && Succeeds(st, ses[se], b')
    ensures EncodersOk(st, ses[se := b'], lo) && CfgOk(ses[se := b'], lo, cfgPc)
    ensures EncodersEvolve(ses, ses[se := b'])
  {
    assert Map(ses[se := b'][lo..], ShardOf) == Map(ses[lo..], ShardOf);
  }

  lemma SizedStepOk(st: Settings, sh: Shared, pc: Pc, ch: Choice)
    requires SharedInv(st, sh) && PcInv(st, sh, pc) && pc.Sized?
    ensures var (sh', pc') := WorkerAct(st, sh, pc, ch).value; StepOk(st, sh, sh', pc')
  {
    var (b, r) := AppendSection(st.limits, sh.ses[pc.se], pc.span, pc.size);
    assert BatcherOk(st, sh.ses[pc.se]);
    assert Succeeds(st, sh.ses[pc.se], b);
    UpdateEncoder(st, sh.ses, sh.lo, sh.cfgPc, pc.se, b);
  }

  lemma WorkerStepOk(st: Settings, sh: Shared, pc: Pc, ch: Choice)
    requires SharedInv(st, sh) && PcInv(st, sh, pc) && WorkerAct(st, sh, pc, ch).Some?
    ensures var (sh', pc') := WorkerAct(st, sh, pc, ch).value; StepOk(st, sh, sh', pc')
  {
    match pc
    case Picking(rest) =>
      if rest != [] { FoundShardOwnsSpan(st, sh, rest[0]); }
    case Routed(span, se, rest) =>
      TryEncodeIsStable(st.limits.codec, st.limits.maxAllowedSizePerSpan, span);
    case Sized(_, _, _, _) =>
      SizedStepOk(st, sh, pc, ch);
    case _ =>
  }

  lemma FlushedCallbackOk(st: Settings, b: Batcher)
    requires BatcherOk(st, b)
    ensures var (b', cb) := FlushSection(st.limits, b);
      Succeeds(st, b, b') && b'.pending == [] && b'.stopped == b.stopped && (cb.Some? ==> CallbackOk(st, cb.value))
  {
    FlushReportsPending(st.limits, b);
  }

  lemma FlushingStepOk(st: Settings, sh: Shared, pc: Pc, ch: Choice)
    requires SharedInv(st, sh) && PcInv(st, sh, pc) && pc.Flushing?
    ensures var (sh', pc') := FlushAct(st, sh, pc, ch).value; StepOk(st, sh, sh', pc')
  {
    FlushedCallbackOk(st, sh.ses[pc.se]);
    UpdateEncoder(st, sh.ses, sh.lo, sh.cfgPc, pc.se, FlushSection(st.limits, sh.ses[pc.se]).0);
  }

  lemma ResendOk(st: Settings, o: Outbox, spans: seq<Span>)
    requires RetryOk(st, o.retry) && AllFit(st, spans)
    ensures RetryOk(st, ResendSpans(o, spans).retry)
  {
  }

  lemma CallingStepOk(st: Settings, sh: Shared, pc: Pc, ch: Choice)
    requires SharedInv(st, sh) && PcInv(st, sh, pc) && pc.Calling? && FlushAct(st, sh, pc, ch).Some?
    ensures var (sh', pc') := FlushAct(st, sh, pc, ch).value; StepOk(st, sh, sh', pc')
  {
    if pc.cb.SpanProcessFail? && pc.cb.code.ErrEncoderStopped? {
      ResendOk(st, sh.out, pc.cb.spans);
    }
  }

  lemma FlushStepOk(st: Settings, sh: Shared, pc: Pc, ch: Choice)
    requires SharedInv(st, sh) && PcInv(st, sh, pc) && FlushAct(st, sh, pc, ch).Some?
    ensures var (sh', pc') := FlushAct(st, sh, pc, ch).value; StepOk(st, sh, sh', pc')
  {
    match pc
    case Flushing(_, _) => FlushingStepOk(st, sh, pc, ch);
    case Calling(_, _) => CallingStepOk(st, sh, pc, ch);
    case _ =>
  }

  lemma ReplyOk(st: Settings, o: Outbox, spans: seq<Span>, reply: Reply)
    requires RetryOk(st, o.retry) && AllFit(st, spans)
    ensures RetryOk(st, OnReply(o, spans, reply).retry)
  {
    ResendOk(st, o, spans);
  }

  lemma RepliedStepOk(st: Settings, sh: Shared, pc: Pc, ch: Choice)
    requires SharedInv(st, sh) && PcInv(st, sh, pc) && SenderAct(st, sh, pc, ch).Some?
    requires pc.Replied? || pc.Resending?
    ensures var (sh', pc') := SenderAct(st, sh, pc, ch).value; StepOk(st, sh, sh', pc')
  {
    hide MailboxInv, SetConfig, CheckMailbox, FlagStop, SignalStop;
    if pc.Resending? {
      ResendOk(st, sh.out, pc.spans);
    } else {
      ReplyOk(st, sh.out, pc.req.originalSpans, pc.reply);
      if pc.reply.Answer? { SetConfigKeepsInv(sh.mail, pc.reply.response.shardingConfig); }
    }
  }

  lemma AdmittedStepOk(st: Settings, sh: Shared, pc: Pc, ch: Choice)
    requires SharedInv(st, sh) && PcInv(st, sh, pc) && (pc.Admitted? || pc.InFlight?)
    ensures var (sh', pc') := SenderAct(st, sh, pc, ch).value; StepOk(st, sh, sh', pc')
  {
  }

  lemma SenderStepOk(st: Settings, sh: Shared, pc: Pc, ch: Choice)
    requires SharedInv(st, sh) && PcInv(st, sh, pc) && SenderAct(st, sh, pc, ch).Some?
    ensures var (sh', pc') := SenderAct(st, sh, pc, ch).value; StepOk(st, sh, sh', pc')
  {
    if pc.Replied? || pc.Resending? { RepliedStepOk(st, sh, pc, ch); }
    else if pc.Admitted? || pc.InFlight? { AdmittedStepOk(st, sh, pc, ch); }
  }

  lemma ThreadStepOk(st: Settings, sh: Shared, pc: Pc, ch: Choice)
    requires SharedInv(st, sh) && PcInv(st, sh, pc) && Act(st, sh, pc, ch).Some?
    ensures var (sh', pc') := Act(st, sh, pc, ch).value; StepOk(st, sh, sh', pc')
  {
    if CallerPc(pc) { CallerStepOk(st, sh, pc, ch); }
    else if WorkerPc(pc) { WorkerStepOk(st, sh, pc, ch); }
    else if FlushPc(pc) { FlushStepOk(st, sh, pc, ch); }
    else { SenderStepOk(st, sh, pc, ch); }
  }

  // ---------- the single goroutines ----------

  /** A step that changes shared state and starts threads. */
  ghost predicate SpawnOk(st: Settings, sh: Shared, sh': Shared, started: seq<Pc>) {
    SharedInv(st, sh') && Evolves(sh, sh') && forall pc <- started :: PcInv(st, sh', pc)
  }

  lemma StopEncoderOk(st: Settings, sh: Shared, se: nat)
    requires SharedInv(st, sh) && se < |sh.ses|
    ensures var ses' := sh.ses[se := StopSection(sh.ses[se])];
      EncodersOk(st, ses', sh.lo) && CfgOk(ses', sh.lo, sh.cfgPc) && EncodersEvolve(sh.ses, ses')
  {
    assert BatcherOk(st, sh.ses[se]);
    UpdateEncoder(st, sh.ses, sh.lo, sh.cfgPc, se, StopSection(sh.ses[se]));
  }

  /** Shards built from a configuration remember the definition they came from. */
  lemma NewShardsKnowOrigin(config: Config, i: nat)
    requires NewConfig(config).Ok? && i < |NewConfig(config).value|
    ensures NewConfig(config).value[i] == InMemory(NewConfig(config).value[i].origin)
    ensures NewConfig(config).value[i].origin in config
  {
    NewConfigAcceptsExactly(config);
    var j := PlaceInPermutation(NewConfig(config).value, Map(config, InMemory), i);
    assert config[j] in config;
  }

  lemma NewGenerationOk(st: Settings, sh: Shared, config: Config)
    requires SharedInv(st, sh) && sh.cfgPc == CfgApplying(config) && NewConfig(config).Ok?
    ensures var ses' := sh.ses + Map(NewConfig(config).value, NewBatcher);
      EncodersOk(st, ses', |sh.ses|) && EncodersEvolve(sh.ses, ses')
  {
    var shards := NewConfig(config).value;
    var ses' := sh.ses + Map(shards, NewBatcher);
    NewConfigAcceptsExactly(config);
    assert Map(ses'[|sh.ses|..], ShardOf) == shards;
    forall j | |sh.ses| <= j < |ses'| ensures BatcherOk(st, ses'[j]) {
      NewShardsKnowOrigin(config, j - |sh.ses|);
    }
  }

  lemma ConfigureOk(st: Settings, sh: Shared)
    requires SharedInv(st, sh) && Configure(st, sh).Some?
    ensures var (sh', started) := Configure(st, sh).value; SpawnOk(st, sh, sh', started)
  {
    hide MailboxInv, SetConfig, CheckMailbox, FlagStop, SignalStop;
    match sh.cfgPc
    case CfgWaiting => CheckKeepsInv(sh.mail);
    case CfgStopping(config, next) =>
      if next < |sh.ses| { StopEncoderOk(st, sh, next); }
    case CfgApplying(config) =>
      if NewConfig(config).Ok? { NewGenerationOk(st, sh, config); }
    case CfgGone =>
  }

  lemma BootOk(st: Settings, sh: Shared, ok: bool)
    requires SharedInv(st, sh) && Boot(st, sh, ok).Some?
    ensures var (sh', started) := Boot(st, sh, ok).value; SpawnOk(st, sh, sh', started)
  {
    hide MailboxInv, SetConfig, CheckMailbox, FlagStop, SignalStop;
    if sh.ctl.bootPc.BootConfiguring? { SetConfigKeepsInv(sh.mail, Some(sh.ctl.bootPc.config)); }
  }

  lemma StopEncoderStepOk(st: Settings, sh: Shared)
    requires SharedInv(st, sh) && StopEncoder(sh).Some?
    ensures var (sh', started) := StopEncoder(sh).value; SpawnOk(st, sh, sh', started)
  {
    hide MailboxInv, FlagStop, SignalStop;
    match sh.ctl.stopPc
    case StopEncoders(next, end) =>
      if next < |sh.ses| { StopEncoderOk(st, sh, next); }
    case StopConfig => StopKeepsInv(sh.mail);
    case StopSignal => StopKeepsInv(sh.mail);
    case _ =>
  }

  lemma DrainEncoderStepOk(st: Settings, sh: Shared, timedOut: bool)
    requires SharedInv(st, sh) && DrainEncoder(sh, timedOut).Some?
    ensures var (sh', started) := DrainEncoder(sh, timedOut).value; SpawnOk(st, sh, sh', started)
  {
    hide MailboxInv, RequestsOk, RecordsOk, RetryOk, CfgOk, BatcherOk, ShardOf, Ascending;
  }

  lemma ShutdownOk(st: Settings, sh: Shared, timedOut: bool)
    requires SharedInv(st, sh) && Shutdown(st, sh, timedOut).Some?
    ensures var (sh', started) := Shutdown(st, sh, timedOut).value; SpawnOk(st, sh, sh', started)
  {
    hide MailboxInv, DrainEncoder, StopEncoder;
    if Draining(sh.ctl.stopPc) { DrainEncoderStepOk(st, sh, timedOut); }
    else if StopEncoder(sh).Some? { StopEncoderStepOk(st, sh); }
  }

  // ---------- every reachable state ----------

  ghost predicate Inv(st: Settings, s: State) {
    SharedInv(st, s.sh) && forall i | 0 <= i < |s.threads| :: PcInv(st, s.sh, s.threads[i])
  }

  lemma ThreadKeepsInv(st: Settings, s: State, i: nat, sh': Shared, pc': Pc)
    requires Inv(st, s) && i < |s.threads| && StepOk(st, s.sh, sh', pc')
    ensures Inv(st, State(sh', s.threads[i := pc']))
  {
    forall j | 0 <= j < |s.threads| && j != i ensures PcInv(st, sh', s.threads[j]) {
      PcInvIsStable(st, s.sh, sh', s.threads[j]);
    }
  }

  lemma SpawnKeepsInv(st: Settings, s: State, sh': Shared, started: seq<Pc>)
    requires Inv(st, s) && SpawnOk(st, s.sh, sh', started)
    ensures Inv(st, State(sh', s.threads + started))
  {
    forall j | 0 <= j < |s.threads| ensures PcInv(st, sh', s.threads[j]) {
      PcInvIsStable(st, s.sh, sh', s.threads[j]);
    }
  }

  lemma ServerConfiguresOk(st: Settings, s: State, config: Config)
    requires Inv(st, s)
    ensures Inv(st, State(s.sh.(configs := s.sh.configs + [config]), s.threads))
  {
    var sh' := s.sh.(configs := s.sh.configs + [config]);
    SpawnKeepsInv(st, s, sh', []);
    assert s.threads + [] == s.threads;
  }

  lemma NextKeepsInv(st: Settings, s: State, step: Step)
    requires Inv(st, s) && Next(st, s, step).Some?
    ensures Inv(st, Next(st, s, step).value)
  {
    match step
    case Thread(i, ch) =>
      var (sh', pc') := Act(st, s.sh, s.threads[i], ch).value;
      ThreadStepOk(st, s.sh, s.threads[i], ch);
      ThreadKeepsInv(st, s, i, sh', pc');
    case Configuring =>
      var (sh', started) := Configure(st, s.sh).value;
      ConfigureOk(st, s.sh);
      SpawnKeepsInv(st, s, sh', started);
    case Booting(ok) =>
      var (sh', started) := Boot(st, s.sh, ok).value;
      BootOk(st, s.sh, ok);
      SpawnKeepsInv(st, s, sh', started);
    case ShuttingDown(timedOut) =>
      var (sh', started) := Shutdown(st, s.sh, timedOut).value;
      ShutdownOk(st, s.sh, timedOut);
      SpawnKeepsInv(st, s, sh', started);
    case Arrive(batch) => SpawnKeepsInv(st, s, s.sh, [Entering(batch, false)]);
    case ServerConfigures(config) => ServerConfiguresOk(st, s, config);
  }

  lemma {:induction false} RunKeepsInv(st: Settings, config: Config, run: seq<Step>)
    requires Exec(st, config, run).Some?
    ensures Inv(st, Exec(st, config, run).value)
  {
    if run != [] {
      RunKeepsInv(st, config, run[..|run| - 1]);
      NextKeepsInv(st, Exec(st, config, run[..|run| - 1]).value, run[|run| - 1]);
    }
  }

  /** The size check lets the span through as it stands. */
  predicate PassesUnchanged(st: Settings, span: Span) {
    var r := TryEncode(st.limits.codec, st.limits.maxAllowedSizePerSpan, span);
    r.Fits? && r.span == span
  }

  /** Every call of Send meets its contract, and every span in the retry queue will pass the size check unchanged. */
  lemma SendContractAndRetriesFit(st: Settings, config: Config, run: seq<Step>)
    requires Exec(st, config, run).Some?
    ensures var sh := Exec(st, config, run).value.sh;
      && (forall req <- sh.requests :: RequestOk(st, req))
      && (forall batch <- sh.out.retry, span <- batch :: PassesUnchanged(st, span))
  {
    RunKeepsInv(st, config, run);
    var sh := Exec(st, config, run).value.sh;
    forall batch, span | batch in sh.out.retry && span in batch ensures PassesUnchanged(st, span) {
      assert AllFit(st, batch);
    }
  }

  /** A flusher that has returned left nothing behind in its encoder, and nothing will be added to it. */
  lemma ReturnedFlusherLeavesNothing(st: Settings, config: Config, run: seq<Step>, i: nat)
    requires Exec(st, config, run).Some? && i < |Exec(st, config, run).value.threads|
    requires Exec(st, config, run).value.threads[i].FlusherGone?
    ensures Closed(Exec(st, config, run).value.sh, Exec(st, config, run).value.threads[i].se)
  {
    RunKeepsInv(st, config, run);
  }
}
