/**
 * The size of records over whole runs: the bound that ShardEncoderLocking
 * proves for one encoder holds for every request the pipeline sends.
 */
module PipelineBounds {
  import opened Basics
  import opened ShardingConfig
  import opened Spans
  import opened ShardEncoding
  import opened Server
  import opened Exporting
  import opened ConfigMailbox
  import opened Pipeline
  import opened PipelineRouting
  import opened PipelineAccounting
  import opened PipelineProgress

  /** The bound is meaningful: a positive record size, and a sum that `uint` can hold. */
  predicate Representable(st: Settings) {
    && 0 < st.limits.maxRecordSize
    && st.limits.maxRecordSize + st.numWorkers * st.limits.maxAllowedSizePerSpan <= UINT_MODULUS
  }

  ghost predicate Small(st: Settings, spans: seq<Span>) {
    TotalSize(st.limits.codec, spans) < st.limits.maxRecordSize + st.numWorkers * st.limits.maxAllowedSizePerSpan
  }

  /** Workers that found encoder j full and have not flushed it yet. */
  function AboutToFlush(j: nat): Pc -> int {
    (pc: Pc) => if pc.Flushing? && pc.se == j && pc.after.NextSpan? then 1 else 0
  }

  /** The counter is exact, and exceeds the record size by at most one span for each worker about to flush. */
  ghost predicate EncoderBound(st: Settings, b: Batcher, k: int) {
    && b.accumulatedSize == TotalSize(st.limits.codec, b.pending)
    && TotalSize(st.limits.codec, b.pending) < st.limits.maxRecordSize + k * st.limits.maxAllowedSizePerSpan
  }

  ghost predicate EncodersBound(st: Settings, s: State) {
    forall j | 0 <= j < |s.sh.ses| :: EncoderBound(st, s.sh.ses[j], Sum(s.threads, AboutToFlush(j)))
  }

  ghost predicate PcSmall(st: Settings, pc: Pc) {
    match pc
    case Calling(cb, _) => cb.RecordReady? ==> Small(st, cb.spans)
    case InFlight(req) => Small(st, req.originalSpans)
    case Admitted(req, _) => Small(st, req.originalSpans)
    case _ => true
  }

  ghost predicate SharedSmall(st: Settings, sh: Shared) {
    && (forall req <- sh.requests :: Small(st, req.originalSpans))
    && (forall a <- sh.records :: Small(st, a.request.originalSpans))
  }

  ghost predicate AllSmall(st: Settings, s: State) {
    SharedSmall(st, s.sh) && forall pc <- s.threads :: PcSmall(st, pc)
  }

  // ---------- one encoder ----------

  lemma AppendKeepsBound(st: Settings, b: Batcher, span: Span, size: nat, k: int)
    requires Representable(st) && EncoderBound(st, b, k) && 0 <= k < st.numWorkers
    requires st.limits.codec.marshalSize(span) == Some(size) && size <= st.limits.maxAllowedSizePerSpan
    ensures var (b', r) := AppendSection(st.limits, b, span, size);
      EncoderBound(st, b', if r.Appended? && r.needFlush then k + 1 else k)
  {
    var max := st.limits.maxAllowedSizePerSpan;
    SumAppend(b.pending, [span], SpanSize(st.limits.codec));
    assert Sum([span], SpanSize(st.limits.codec)) == size;
    SumNonNegative(b.pending, SpanSize(st.limits.codec));
    assert (k + 1) * max == k * max + max;
    MulMonotone(k + 1, st.numWorkers, max);
    MulMonotone(0, k, max);
  }

  lemma FlushKeepsBound(st: Settings, b: Batcher, k: int, k': int)
    requires Representable(st) && EncoderBound(st, b, k) && k <= st.numWorkers && 0 <= k'
    ensures var (b', cb) := FlushSection(st.limits, b);
      EncoderBound(st, b', k') && (cb.Some? ==> Small(st, cb.value.spans))
  {
    MulMonotone(k, st.numWorkers, st.limits.maxAllowedSizePerSpan);
    MulMonotone(0, k', st.limits.maxAllowedSizePerSpan);
  }

  lemma EmptyIsBounded(st: Settings, b: Batcher, k: int)
    requires Representable(st) && b.pending == [] && b.accumulatedSize == 0 && 0 <= k
    ensures EncoderBound(st, b, k)
  {
    MulMonotone(0, k, st.limits.maxAllowedSizePerSpan);
  }

  // ---------- threads ----------

  lemma FlushersAreWorkers(s: State, j: nat)
    ensures 0 <= Sum(s.threads, AboutToFlush(j)) <= Sum(s.threads, Has(Worker))
  {
    forall pc ensures 0 <= AboutToFlush(j)(pc) <= Has(Worker)(pc) { FlusherIsWorker(pc, j); }
    hide AboutToFlush, Has;
    SumNonNegative(s.threads, AboutToFlush(j));
    SumLessEqual(s.threads, AboutToFlush(j), Has(Worker));
  }

  lemma FlusherIsWorker(pc: Pc, j: nat)
    ensures 0 <= AboutToFlush(j)(pc) <= Has(Worker)(pc)
  {
  }

  /** A worker that appends is not among those about to flush. */
  lemma RoomForOneMore(s: State, i: nat, j: nat)
    requires i < |s.threads| && s.threads[i].Sized?
    ensures Sum(s.threads, AboutToFlush(j)) + 1 <= Sum(s.threads, Has(Worker))
  {
    var flushing := Flushing(j, NextSpan([]));
    SumUpdate(s.threads, i, flushing, AboutToFlush(j));
    SumUpdate(s.threads, i, flushing, Has(Worker));
    FlushersAreWorkers(State(s.sh, s.threads[i := flushing]), j);
  }

  /** The thread's step keeps the bound of encoder j, with k workers about to flush it before the step. */
  ghost predicate KeepsBound(st: Settings, sh: Shared, pc: Pc, sh': Shared, pc': Pc, j: nat, k: int) {
    && |sh'.ses| == |sh.ses|
    && (j < |sh.ses| ==> EncoderBound(st, sh'.ses[j], k - AboutToFlush(j)(pc) + AboutToFlush(j)(pc')))
  }

  lemma SizedKeepsBound(st: Settings, sh: Shared, pc: Pc, ch: Choice, j: nat, k: int)
    requires Representable(st) && (j < |sh.ses| ==> EncoderBound(st, sh.ses[j], k)) && 0 <= k < st.numWorkers
    requires pc.Sized? && pc.se < |sh.ses| && PcInv(st, sh, pc)
    ensures var (sh', pc') := WorkerAct(st, sh, pc, ch).value; KeepsBound(st, sh, pc, sh', pc', j, k)
  {
    if pc.se == j { AppendKeepsBound(st, sh.ses[j], pc.span, pc.size, k); }
    hide EncoderBound, AppendSection;
  }

  lemma FlushingKeepsBound(st: Settings, sh: Shared, pc: Pc, ch: Choice, j: nat, k: int)
    requires Representable(st) && (j < |sh.ses| ==> EncoderBound(st, sh.ses[j], k)) && 0 <= k <= st.numWorkers
    requires pc.Flushing? && pc.se < |sh.ses| && k >= AboutToFlush(j)(pc)
    ensures var (sh', pc') := FlushAct(st, sh, pc, ch).value; KeepsBound(st, sh, pc, sh', pc', j, k)
  {
    if pc.se == j { FlushKeepsBound(st, sh.ses[j], k, k - AboutToFlush(j)(pc)); }
    hide EncoderBound, FlushSection;
  }

  lemma ThreadKeepsBound(st: Settings, sh: Shared, pc: Pc, ch: Choice, j: nat, k: int)
    requires Representable(st) && (j < |sh.ses| ==> EncoderBound(st, sh.ses[j], k))
    requires k >= AboutToFlush(j)(pc) && 0 <= k <= st.numWorkers && (pc.Sized? ==> k < st.numWorkers)
    requires PcInv(st, sh, pc) && Act(st, sh, pc, ch).Some?
    ensures var (sh', pc') := Act(st, sh, pc, ch).value; KeepsBound(st, sh, pc, sh', pc', j, k)
  {
    hide EncoderBound, PcInv, Representable, Act;
    if pc.Sized? { SizedIsWork(st, sh, pc, ch); SizedKeepsBound(st, sh, pc, ch, j, k); }
    else if pc.Flushing? { SizedIsWork(st, sh, pc, ch); FlushingKeepsBound(st, sh, pc, ch, j, k); }
    else { OthersLeaveEncoders(st, sh, pc, ch, j); }
  }

  lemma SizedIsWork(st: Settings, sh: Shared, pc: Pc, ch: Choice)
    requires Act(st, sh, pc, ch).Some?
    ensures pc.Sized? ==> Act(st, sh, pc, ch) == WorkerAct(st, sh, pc, ch) && pc.se < |sh.ses|
    ensures pc.Flushing? ==> Act(st, sh, pc, ch) == FlushAct(st, sh, pc, ch) && pc.se < |sh.ses|
  {
    hide AppendSection, FlushSection;
  }

  lemma OthersLeaveEncoders(st: Settings, sh: Shared, pc: Pc, ch: Choice, j: nat)
    requires Act(st, sh, pc, ch).Some? && !pc.Sized? && !pc.Flushing?
    ensures var (sh', pc') := Act(st, sh, pc, ch).value;
      sh'.ses == sh.ses && AboutToFlush(j)(pc) == 0 && AboutToFlush(j)(pc') == 0
  {
    hide TryEncode, FindShard, CurrentShards, OnReply, ResendSpans, SetConfig, OnSpanProcessFail,
      ShardIsPartOfConfig, CurrentConfig, AppendSection, FlushSection;
  }

  /** Batches stay small on their way from a flush to the server's records. */
  lemma FlushKeepsSmall(st: Settings, sh: Shared, pc: Pc, ch: Choice, k: int)
    requires Representable(st) && SharedSmall(st, sh) && PcSmall(st, pc) && FlushAct(st, sh, pc, ch).Some?
    requires pc.Flushing? && pc.se < |sh.ses| ==> EncoderBound(st, sh.ses[pc.se], k) && k <= st.numWorkers
    ensures var (sh', pc') := FlushAct(st, sh, pc, ch).value; SharedSmall(st, sh') && PcSmall(st, pc')
  {
    if pc.Flushing? && pc.se < |sh.ses| { FlushKeepsBound(st, sh.ses[pc.se], k, 0); }
    hide EncoderBound, Small, FlushSection, OnSpanProcessFail;
  }

  lemma SenderKeepsSmall(st: Settings, sh: Shared, pc: Pc, ch: Choice)
    requires SharedSmall(st, sh) && PcSmall(st, pc) && SenderAct(st, sh, pc, ch).Some?
    ensures var (sh', pc') := SenderAct(st, sh, pc, ch).value; SharedSmall(st, sh') && PcSmall(st, pc')
  {
    hide Small, OnReply, ResendSpans, SetConfig, ShardIsPartOfConfig, CurrentConfig;
  }

  lemma ThreadKeepsSmall(st: Settings, sh: Shared, pc: Pc, ch: Choice, k: int)
    requires Representable(st) && SharedSmall(st, sh) && PcSmall(st, pc) && Act(st, sh, pc, ch).Some?
    requires pc.Flushing? && pc.se < |sh.ses| ==> EncoderBound(st, sh.ses[pc.se], k) && k <= st.numWorkers
    ensures var (sh', pc') := Act(st, sh, pc, ch).value; SharedSmall(st, sh') && PcSmall(st, pc')
  {
    hide EncoderBound, Small, FlushAct, SenderAct, AppendSection, TryEncode, FindShard, CurrentShards;
    if FlushPc(pc) { FlushKeepsSmall(st, sh, pc, ch, k); }
    else if !CallerPc(pc) && !WorkerPc(pc) { SenderKeepsSmall(st, sh, pc, ch); }
  }

  lemma StepKeepsEncodersBound(st: Settings, s: State, i: nat, ch: Choice)
    requires Representable(st) && Inv(st, s) && Sum(s.threads, Has(Worker)) <= st.numWorkers
    requires EncodersBound(st, s) && Next(st, s, Thread(i, ch)).Some?
    ensures EncodersBound(st, Next(st, s, Thread(i, ch)).value)
  {
    hide Act, EncoderBound, PcInv, SharedInv, KeepsBound, RoleOf, Sum;
    var pc := s.threads[i];
    var (sh', pc') := Act(st, s.sh, pc, ch).value;
    ThreadKeepsStaff(st, s.sh, pc, ch);
    forall j | 0 <= j < |s.sh.ses| ensures KeepsBound(st, s.sh, pc, sh', pc', j, Sum(s.threads, AboutToFlush(j))) {
      FlushersAreWorkers(s, j);
      FlusherCounted(s, i, j);
      if pc.Sized? { RoomForOneMore(s, i, j); }
      ThreadKeepsBound(st, s.sh, pc, ch, j, Sum(s.threads, AboutToFlush(j)));
    }
    BoundsCarryOver(st, s, i, ch);
  }

  lemma StepKeepsAllSmall(st: Settings, s: State, i: nat, ch: Choice)
    requires Representable(st) && Sum(s.threads, Has(Worker)) <= st.numWorkers
    requires EncodersBound(st, s) && AllSmall(st, s) && Next(st, s, Thread(i, ch)).Some?
    ensures AllSmall(st, Next(st, s, Thread(i, ch)).value)
  {
    hide Act, EncoderBound, PcSmall, SharedSmall, Sum;
    var pc := s.threads[i];
    assert pc in s.threads;
    if pc.Flushing? && pc.se < |s.sh.ses| { FlushersAreWorkers(s, pc.se); }
    ThreadKeepsSmall(st, s.sh, pc, ch, if pc.Flushing? then Sum(s.threads, AboutToFlush(pc.se)) else 0);
  }

  lemma FlusherCounted(s: State, i: nat, j: nat)
    requires i < |s.threads|
    ensures Sum(s.threads, AboutToFlush(j)) >= AboutToFlush(j)(s.threads[i])
  {
    SumAtLeast(s.threads, i, AboutToFlush(j));
  }

  lemma BoundsCarryOver(st: Settings, s: State, i: nat, ch: Choice)
    requires i < |s.threads| && Act(st, s.sh, s.threads[i], ch).Some?
    requires var (sh', pc') := Act(st, s.sh, s.threads[i], ch).value;
      && |sh'.ses| == |s.sh.ses|
      && forall j | 0 <= j < |s.sh.ses| :: KeepsBound(st, s.sh, s.threads[i], sh', pc', j, Sum(s.threads,
        AboutToFlush(j)))
    ensures EncodersBound(st, Next(st, s, Thread(i, ch)).value)
  {
    hide Act, EncoderBound, Sum;
    var (sh', pc') := Act(st, s.sh, s.threads[i], ch).value;
    forall j | 0 <= j < |sh'.ses| ensures EncoderBound(st, sh'.ses[j], Sum(s.threads[i := pc'], AboutToFlush(j))) {
      SumUpdate(s.threads, i, pc', AboutToFlush(j));
      assert KeepsBound(st, s.sh, s.threads[i], sh', pc', j, Sum(s.threads, AboutToFlush(j)));
    }
  }

  // ---------- the single goroutines ----------

  /** They leave batches alone, and start encoders empty and threads that are not about to flush. */
  ghost predicate LeavesBatches(sh: Shared, r: Option<(Shared, seq<Pc>)>) {
    r.Some? ==>
      var (sh', started) := r.value;
      && |sh.ses| <= |sh'.ses|
      && (forall j | 0 <= j < |sh.ses| ::
            sh'.ses[j].pending == sh.ses[j].pending && sh'.ses[j].accumulatedSize == sh.ses[j].accumulatedSize)
      && (forall j | |sh.ses| <= j < |sh'.ses| :: sh'.ses[j].pending == [] && sh'.ses[j].accumulatedSize == 0)
      && sh'.requests == sh.requests && sh'.records == sh.records
      && forall pc <- started :: Fresh(pc)
  }

  lemma ConfigureLeavesBatches(st: Settings, sh: Shared)
    ensures LeavesBatches(sh, Configure(st, sh))
  {
    hide NewConfig, CheckMailbox;
  }

  lemma BootLeavesBatches(st: Settings, sh: Shared, ok: bool)
    ensures LeavesBatches(sh, Boot(st, sh, ok))
  {
    hide SetConfig, CurrentConfig;
  }

  lemma DrainLeavesBatches(sh: Shared, timedOut: bool)
    ensures LeavesBatches(sh, DrainEncoder(sh, timedOut))
  {
    hide Current;
  }

  lemma StopLeavesBatches(sh: Shared)
    ensures LeavesBatches(sh, StopEncoder(sh))
  {
    hide FlagStop, SignalStop;
  }

  lemma ShutdownLeavesBatches(st: Settings, sh: Shared, timedOut: bool)
    ensures LeavesBatches(sh, Shutdown(st, sh, timedOut))
  {
    hide DrainEncoder, StopEncoder;
    DrainLeavesBatches(sh, timedOut);
    StopLeavesBatches(sh);
  }

  lemma FreshAreNotFlushing(started: seq<Pc>, j: nat)
    requires forall pc <- started :: Fresh(pc)
    ensures Sum(started, AboutToFlush(j)) == 0
  {
    SumZero(started, AboutToFlush(j));
  }

  lemma SpawnKeepsBounds(st: Settings, s: State, r: Option<(Shared, seq<Pc>)>)
    requires Representable(st) && EncodersBound(st, s) && AllSmall(st, s) && LeavesBatches(s.sh, r) && r.Some?
    ensures EncodersBound(st, Spawn(s, r).value) && AllSmall(st, Spawn(s, r).value)
  {
    var (sh', started) := r.value;
    forall j | 0 <= j < |sh'.ses| ensures EncoderBound(st, sh'.ses[j], Sum(s.threads + started, AboutToFlush(j))) {
      SumAppend(s.threads, started, AboutToFlush(j));
      FreshAreNotFlushing(started, j);
      if j < |s.sh.ses| {
        assert EncoderBound(st, s.sh.ses[j], Sum(s.threads, AboutToFlush(j)));
      } else {
        FlushersAreWorkers(s, j);
        EmptyIsBounded(st, sh'.ses[j], Sum(s.threads, AboutToFlush(j)));
      }
    }
    hide EncoderBound, Small, Sum;
  }

  lemma ArrivalKeepsBounds(st: Settings, s: State, batch: seq<Span>)
    requires EncodersBound(st, s) && AllSmall(st, s)
    ensures var s' := State(s.sh, s.threads + [Entering(batch, false)]); EncodersBound(st, s') && AllSmall(st, s')
  {
    hide EncoderBound, Sum;
    forall j { SumSnoc(s.threads, Entering(batch, false), AboutToFlush(j)); }
  }

  lemma NextKeepsBounds(st: Settings, s: State, step: Step)
    requires Representable(st) && Inv(st, s) && Staffed(st, s, 0)
    requires EncodersBound(st, s) && AllSmall(st, s) && Next(st, s, step).Some?
    ensures EncodersBound(st, Next(st, s, step).value) && AllSmall(st, Next(st, s, step).value)
  {
    hide Act, Configure, Boot, Shutdown, Spawn, LeavesBatches, EncoderBound, Inv, Sum;
    match step
    case Thread(i, ch) =>
      StepKeepsEncodersBound(st, s, i, ch);
      StepKeepsAllSmall(st, s, i, ch);
    case Configuring =>
      ConfigureLeavesBatches(st, s.sh);
      SpawnIsSome(s, Configure(st, s.sh));
      SpawnKeepsBounds(st, s, Configure(st, s.sh));
    case Booting(ok) =>
      BootLeavesBatches(st, s.sh, ok);
      SpawnIsSome(s, Boot(st, s.sh, ok));
      SpawnKeepsBounds(st, s, Boot(st, s.sh, ok));
    case ShuttingDown(timedOut) =>
      ShutdownLeavesBatches(st, s.sh, timedOut);
      SpawnIsSome(s, Shutdown(st, s.sh, timedOut));
      SpawnKeepsBounds(st, s, Shutdown(st, s.sh, timedOut));
    case Arrive(batch) => ArrivalKeepsBounds(st, s, batch);
    case ServerConfigures(config) =>
  }

  lemma {:induction false} RunKeepsBounds(st: Settings, config: Config, run: seq<Step>)
    requires Representable(st) && Exec(st, config, run).Some?
    ensures EncodersBound(st, Exec(st, config, run).value) && AllSmall(st, Exec(st, config, run).value)
  {
    hide EncodersBound, AllSmall, Next, Inv, Staffed;
    if run == [] {
      NothingYet(st, config);
    } else {
      var init := run[..|run| - 1];
      RunKeepsBounds(st, config, init);
      RunKeepsInv(st, config, init);
      RunStaffed(st, config, init, 0);
      NextKeepsBounds(st, Exec(st, config, init).value, run[|run| - 1]);
    }
  }

  lemma NothingYet(st: Settings, config: Config)
    ensures EncodersBound(st, Init(config)) && AllSmall(st, Init(config))
  {
  }

  /**
   * In every run each request queued or recorded holds spans of less than
   * maxRecordSize + numWorkers * maxAllowedSizePerSpan bytes, and no encoder's
   * size counter ever wraps.
   */
  lemma RecordsAreBounded(st: Settings, config: Config, run: seq<Step>)
    requires Representable(st) && Exec(st, config, run).Some?
    ensures var sh := Exec(st, config, run).value.sh;
      && (forall a <- sh.records :: Small(st, a.request.originalSpans))
      && (forall req <- sh.requests :: Small(st, req.originalSpans))
      && (forall b <- sh.ses :: b.accumulatedSize == TotalSize(st.limits.codec, b.pending))
  {
    RunKeepsBounds(st, config, run);
    var s := Exec(st, config, run).value;
    hide TotalSize, Small, Sum;
    forall b | b in s.sh.ses ensures b.accumulatedSize == TotalSize(st.limits.codec, b.pending) {
      var j :| 0 <= j < |s.sh.ses| && s.sh.ses[j] == b;
      assert EncoderBound(st, s.sh.ses[j], Sum(s.threads, AboutToFlush(j)));
    }
  }
}
