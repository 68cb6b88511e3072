/**
 * Bookkeeping over whole runs: no span is lost or duplicated, the WaitGroup
 * counts exactly the unfinished batches, and no span is recorded twice.
 */
module PipelineAccounting {
  import opened Basics
  import opened ShardingConfig
  import opened Spans
  import opened ShardEncoding
  import opened Server
  import opened Exporting
  import opened ConfigMailbox
  import opened Pipeline

  // ---------- where spans are ----------

  function AfterSpans(after: After): seq<Span> {
    if after.NextSpan? then after.rest else []
  }

  /** Spans in a thread's hands. A user's batch counts once EncodeSpans has taken it in. */
  function InHand(pc: Pc): seq<Span> {
    match pc
    case Entering(batch, retried) => if retried then batch else []
    case Counting(batch, _) => batch
    case Enqueuing(batch, _) => batch
    case Picking(rest) => rest
    case Routed(span, _, rest) => [span] + rest
    case Sized(span, _, _, rest) => [span] + rest
    case Flushing(_, after) => AfterSpans(after)
    case Calling(cb, after) => cb.spans + AfterSpans(after)
    case InFlight(req) => req.originalSpans
    case Mismatched(req) => req.originalSpans
    case Admitted(req, _) => req.originalSpans
    case Recorded(req) => req.originalSpans
    case Replied(req, _, _) => req.originalSpans
    case Resending(spans) => spans
    case _ => []
  }

  function RequestCount(x: nat): RequestToSend -> int {
    (req: RequestToSend) => Count(req.originalSpans, x)
  }

  function HandCount(x: nat): Pc -> int {
    (pc: Pc) => Count(InHand(pc), x)
  }

  /** Occurrences of x outside the threads' hands, less those taken in. */
  function Balance(sh: Shared, x: nat): int {
    Sum(sh.queue, BatchCount(x)) + Sum(sh.ses, PendingCount(x)) + Sum(sh.requests, RequestCount(x))
    + OutboxCount(sh.out, x) - Count(sh.admitted, x)
  }

  /**
   * The spans taken in are the disjoint sum of those in the input queue, pending
   * in an encoder, in the client's queue, waiting for retry, delivered,
   * dropped, forgotten, and in some thread's hands.
   */
  ghost predicate Conserved(s: State, x: nat) {
    Count(s.sh.admitted, x)
    == Sum(s.sh.queue, BatchCount(x)) + Sum(s.sh.ses, PendingCount(x)) + Sum(s.sh.requests, RequestCount(x))
     + Sum(s.sh.out.retry, BatchCount(x)) + Settled(s.sh.out, x) + Sum(s.threads, HandCount(x))
  }

  /** A step moves spans between a thread's hands and the shared places and loses none. */
  ghost predicate Balanced(sh: Shared, pc: Pc, sh': Shared, pc': Pc, x: nat) {
    Balance(sh', x) + Count(InHand(pc'), x) == Balance(sh, x) + Count(InHand(pc), x)
  }

  lemma CallerBalanced(st: Settings, sh: Shared, pc: Pc, ch: Choice, x: nat)
    requires CallerAct(st, sh, pc, ch).Some?
    ensures var (sh', pc') := CallerAct(st, sh, pc, ch).value; Balanced(sh, pc, sh', pc', x)
  {
    hide Count;
    EmptyHands(pc, x);
    EmptyHands(CallerAct(st, sh, pc, ch).value.1, x);
    match pc
    case Entering(batch, retried) =>
      CountAppend(sh.out.forgotten, batch, x);
      CountAppend(sh.admitted, batch, x);
    case Enqueuing(batch, retried) => SumSnoc(sh.queue, batch, BatchCount(x));
    case _ =>
  }

  lemma AppendBalanced(st: Settings, sh: Shared, pc: Pc, ch: Choice, x: nat)
    requires pc.Sized? && WorkerAct(st, sh, pc, ch).Some?
    ensures var (sh', pc') := WorkerAct(st, sh, pc, ch).value; Balanced(sh, pc, sh', pc', x)
  {
    var b := AppendSection(st.limits, sh.ses[pc.se], pc.span, pc.size).0;
    SumUpdate(sh.ses, pc.se, b, PendingCount(x));
    CountAppend(sh.ses[pc.se].pending, [pc.span], x);
    CountAppend([pc.span], pc.rest, x);
  }

  lemma RoutedBalanced(st: Settings, sh: Shared, pc: Pc, ch: Choice, x: nat)
    requires pc.Routed?
    ensures var (sh', pc') := WorkerAct(st, sh, pc, ch).value; Balanced(sh, pc, sh', pc', x)
  {
    var r := TryEncode(st.limits.codec, st.limits.maxAllowedSizePerSpan, pc.span);
    SameOccurrence(st, pc.span, x);
    hide TryEncode, Count, Sum, Settled;
    CountAppend([pc.span], pc.rest, x);
    CountAppend([r.span], pc.rest, x);
  }

  lemma SameOccurrence(st: Settings, span: Span, x: nat)
    ensures Count([TryEncode(st.limits.codec, st.limits.maxAllowedSizePerSpan, span).span], x) == Count([span], x)
  {
    TryEncodeIsStable(st.limits.codec, st.limits.maxAllowedSizePerSpan, span);
    hide TryEncode;
  }

  lemma PickingBalanced(st: Settings, sh: Shared, pc: Pc, ch: Choice, x: nat)
    requires pc.Picking?
    ensures var (sh', pc') := WorkerAct(st, sh, pc, ch).value; Balanced(sh, pc, sh', pc', x)
  {
    if pc.rest == [] { EmptyHands(pc, x); EmptyHands(WorkerLoop, x); }
    else { assert pc.rest == [pc.rest[0]] + pc.rest[1..]; }
    hide FindShard, CurrentShards, Count, Sum, Settled;
  }

  lemma WorkerBalanced(st: Settings, sh: Shared, pc: Pc, ch: Choice, x: nat)
    requires WorkerAct(st, sh, pc, ch).Some?
    ensures var (sh', pc') := WorkerAct(st, sh, pc, ch).value; Balanced(sh, pc, sh', pc', x)
  {
    match pc
    case Picking(_) => PickingBalanced(st, sh, pc, ch, x);
    case Routed(_, _, _) => RoutedBalanced(st, sh, pc, ch, x);
    case Sized(_, _, _, _) => AppendBalanced(st, sh, pc, ch, x);
    case _ =>
  }

  lemma FlushingBalanced(st: Settings, sh: Shared, pc: Pc, ch: Choice, x: nat)
    requires pc.Flushing? && FlushAct(st, sh, pc, ch).Some?
    ensures var (sh', pc') := FlushAct(st, sh, pc, ch).value; Balanced(sh, pc, sh', pc', x)
  {
    hide BatchOutcome;
    var b := FlushSection(st.limits, sh.ses[pc.se]).0;
    SumUpdate(sh.ses, pc.se, b, PendingCount(x));
    CountAppend(sh.ses[pc.se].pending, AfterSpans(pc.after), x);
  }

  lemma CallingBalanced(st: Settings, sh: Shared, pc: Pc, ch: Choice, x: nat)
    requires pc.Calling? && FlushAct(st, sh, pc, ch).Some?
    ensures var (sh', pc') := FlushAct(st, sh, pc, ch).value; Balanced(sh, pc, sh', pc', x)
  {
    hide Count, Settled, OnSpanProcessFail;
    CountAppend(pc.cb.spans, AfterSpans(pc.after), x);
    ResumedHands(pc.after);
    match pc.cb
    case RecordReady(record, spans, shard) =>
      SumSnoc(sh.requests, RequestToSend(ExportRequest(record, shard.origin), spans), RequestCount(x));
    case SpanProcessFail(spans, code) =>
      ProcessFailAccounts(sh.out, spans, code, x);
  }

  lemma ResumedHands(after: After)
    ensures InHand(Resume(after)) == AfterSpans(after)
  {
  }

  lemma FlushBalanced(st: Settings, sh: Shared, pc: Pc, ch: Choice, x: nat)
    requires FlushAct(st, sh, pc, ch).Some?
    ensures var (sh', pc') := FlushAct(st, sh, pc, ch).value; Balanced(sh, pc, sh', pc', x)
  {
    if pc.Flushing? { FlushingBalanced(st, sh, pc, ch, x); }
    else if pc.Calling? { CallingBalanced(st, sh, pc, ch, x); }
  }

  lemma RepliedBalanced(st: Settings, sh: Shared, pc: Pc, ch: Choice, x: nat)
    requires pc.Replied? || pc.Resending?
    ensures var (sh', pc') := SenderAct(st, sh, pc, ch).value; Balanced(sh, pc, sh', pc', x)
  {
    hide OnReply, ResendSpans, SetConfig, Sum, Count, Settled;
    if pc.Resending? { ResendAccounts(sh.out, pc.spans, x); }
    else { ReplyAccounts(sh.out, pc.req.originalSpans, pc.reply, x); }
    EmptyHands(SenderLoop, x);
  }

  lemma EmptyHands(pc: Pc, x: nat)
    ensures InHand(pc) == [] ==> Count(InHand(pc), x) == 0
  {
  }

  lemma SenderBalanced(st: Settings, sh: Shared, pc: Pc, ch: Choice, x: nat)
    requires SenderAct(st, sh, pc, ch).Some?
    ensures var (sh', pc') := SenderAct(st, sh, pc, ch).value; Balanced(sh, pc, sh', pc', x)
  {
    hide Count, Settled, SetConfig, OnReply, ResendSpans, CurrentConfig, ShardIsPartOfConfig;
    EmptyHands(pc, x);
    if pc.Replied? || pc.Resending? { RepliedBalanced(st, sh, pc, ch, x); }
  }

  lemma ThreadBalanced(st: Settings, sh: Shared, pc: Pc, ch: Choice, x: nat)
    requires Act(st, sh, pc, ch).Some?
    ensures var (sh', pc') := Act(st, sh, pc, ch).value; Balanced(sh, pc, sh', pc', x)
  {
    if CallerPc(pc) { CallerBalanced(st, sh, pc, ch, x); }
    else if WorkerPc(pc) { WorkerBalanced(st, sh, pc, ch, x); }
    else if FlushPc(pc) { FlushBalanced(st, sh, pc, ch, x); }
    else { SenderBalanced(st, sh, pc, ch, x); }
  }

  // ---------- the single goroutines hold no spans ----------

  /** Threads are started with empty hands. */
  predicate Fresh(pc: Pc) {
    || pc.FlusherLoop? || pc.WorkerLoop? || pc.SenderLoop? || pc.RetryLoop?
    || (pc.Flushing? && pc.after.DrainReturns?)
  }

  /** A single goroutine leaves every queue, count and log alone, and encoders at most stop or are added empty. */
  ghost predicate Apart(sh: Shared, r: Option<(Shared, seq<Pc>)>, x: nat) {
    r.Some? ==>
      var (sh', started) := r.value;
      && sh'.queue == sh.queue && sh'.requests == sh.requests && sh'.out == sh.out
      && sh'.admitted == sh.admitted && sh'.wg == sh.wg && sh'.records == sh.records
      && Sum(sh'.ses, PendingCount(x)) == Sum(sh.ses, PendingCount(x))
      && forall pc <- started :: Fresh(pc)
  }

  lemma StopKeepsPending(ses: seq<Batcher>, se: nat, x: nat)
    requires se < |ses|
    ensures Sum(ses[se := StopSection(ses[se])], PendingCount(x)) == Sum(ses, PendingCount(x))
  {
    SumUpdate(ses, se, StopSection(ses[se]), PendingCount(x));
  }

  lemma NewBatchersEmpty(ses: seq<Batcher>, shards: seq<Shard>, x: nat)
    ensures Sum(ses + Map(shards, NewBatcher), PendingCount(x)) == Sum(ses, PendingCount(x))
  {
    SumAppend(ses, Map(shards, NewBatcher), PendingCount(x));
    SumZero(Map(shards, NewBatcher), PendingCount(x));
  }

  lemma ConfigureApart(st: Settings, sh: Shared, x: nat)
    ensures Apart(sh, Configure(st, sh), x)
  {
    hide CheckMailbox, NewConfig, Sum;
    if sh.cfgPc.CfgStopping? && sh.cfgPc.next < |sh.ses| { StopKeepsPending(sh.ses, sh.cfgPc.next, x); }
    if sh.cfgPc.CfgApplying?
      && NewConfig(sh.cfgPc.config).Ok? { NewBatchersEmpty(sh.ses, NewConfig(sh.cfgPc.config).value, x); }
  }

  lemma BootApart(st: Settings, sh: Shared, ok: bool, x: nat)
    ensures Apart(sh, Boot(st, sh, ok), x)
  {
    hide SetConfig, CurrentConfig, Sum;
  }

  lemma StopEncoderApart(sh: Shared, x: nat)
    ensures Apart(sh, StopEncoder(sh), x)
  {
    hide FlagStop, SignalStop, Sum;
    if sh.ctl.stopPc.StopEncoders? && sh.ctl.stopPc.next < |sh.ses| { StopKeepsPending(sh.ses, sh.ctl.stopPc.next, x); }
  }

  lemma DrainEncoderApart(sh: Shared, timedOut: bool, x: nat)
    ensures Apart(sh, DrainEncoder(sh, timedOut), x)
  {
    hide Sum, Current;
  }

  lemma ShutdownApart(st: Settings, sh: Shared, timedOut: bool, x: nat)
    ensures Apart(sh, Shutdown(st, sh, timedOut), x)
  {
    hide DrainEncoder, StopEncoder, Sum;
    DrainEncoderApart(sh, timedOut, x);
    StopEncoderApart(sh, x);
  }

  lemma SpawnIsSome(s: State, r: Option<(Shared, seq<Pc>)>)
    ensures Spawn(s, r).Some? <==> r.Some?
  {
  }

  lemma FreshThreads(started: seq<Pc>, x: nat)
    requires forall pc <- started :: Fresh(pc)
    ensures Sum(started, HandCount(x)) == 0 && Sum(started, Holds()) == 0 && Sum(started, AwaitingCount(x)) == 0
  {
    SumZero(started, HandCount(x));
    SumZero(started, Holds());
    SumZero(started, AwaitingCount(x));
  }

  lemma ThreadConserves(s: State, i: nat, sh': Shared, pc': Pc, x: nat)
    requires Conserved(s, x) && i < |s.threads| && Balanced(s.sh, s.threads[i], sh', pc', x)
    ensures Conserved(State(sh', s.threads[i := pc']), x)
  {
    SumUpdate(s.threads, i, pc', HandCount(x));
  }

  lemma SpawnConserves(s: State, r: Option<(Shared, seq<Pc>)>, x: nat)
    requires Conserved(s, x) && Apart(s.sh, r, x) && r.Some?
    ensures Conserved(Spawn(s, r).value, x)
  {
    SumAppend(s.threads, r.value.1, HandCount(x));
    FreshThreads(r.value.1, x);
  }

  lemma NextConserves(st: Settings, s: State, step: Step, x: nat)
    requires Conserved(s, x) && Next(st, s, step).Some?
    ensures Conserved(Next(st, s, step).value, x)
  {
    hide Act, Configure, Boot, Shutdown, Conserved, Balanced, Apart, Spawn;
    match step
    case Thread(i, ch) =>
      var (sh', pc') := Act(st, s.sh, s.threads[i], ch).value;
      ThreadBalanced(st, s.sh, s.threads[i], ch, x);
      ThreadConserves(s, i, sh', pc', x);
    case Configuring =>
      ConfigureApart(st, s.sh, x);
      SpawnIsSome(s, Configure(st, s.sh));
      SpawnConserves(s, Configure(st, s.sh), x);
    case Booting(ok) =>
      BootApart(st, s.sh, ok, x);
      SpawnIsSome(s, Boot(st, s.sh, ok));
      SpawnConserves(s, Boot(st, s.sh, ok), x);
    case ShuttingDown(timedOut) =>
      ShutdownApart(st, s.sh, timedOut, x);
      SpawnIsSome(s, Shutdown(st, s.sh, timedOut));
      SpawnConserves(s, Shutdown(st, s.sh, timedOut), x);
    case Arrive(batch) => ArrivalConserves(s, batch, x);
    case ServerConfigures(config) => ServerKeepsConserved(s, config, x);
  }

  lemma ArrivalConserves(s: State, batch: seq<Span>, x: nat)
    requires Conserved(s, x)
    ensures Conserved(State(s.sh, s.threads + [Entering(batch, false)]), x)
  {
    SumSnoc(s.threads, Entering(batch, false), HandCount(x));
  }

  lemma ServerKeepsConserved(s: State, config: Config, x: nat)
    requires Conserved(s, x)
    ensures Conserved(State(s.sh.(configs := s.sh.configs + [config]), s.threads), x)
  {
  }

  /**
   * Whole-run conservation, shutdown included: at every moment the spans
   * taken in from users are the disjoint sum of those in all the places they can be.
   */
  lemma {:induction false} SpansAreConserved(st: Settings, config: Config, run: seq<Step>, x: nat)
    requires Exec(st, config, run).Some?
    ensures Conserved(Exec(st, config, run).value, x)
  {
    if run != [] {
      SpansAreConserved(st, config, run[..|run| - 1], x);
      NextConserves(st, Exec(st, config, run[..|run| - 1]).value, run[|run| - 1], x);
    }
  }

  // ---------- drain accounting ----------

  /** The thread holds one unit of the WaitGroup. */
  function Holds(): Pc -> int {
    (pc: Pc) => if
      || pc.Enqueuing? || pc.Picking? || pc.Routed? || pc.Sized?
      || ((pc.Flushing? || pc.Calling?) && pc.after.NextSpan?)
    then 1 else 0
  }

  ghost predicate Counted(s: State) {
    s.sh.wg == |s.sh.queue| + Sum(s.threads, Holds())
  }

  /** What a step adds to the WaitGroup it adds to the queue and the thread's share. */
  ghost predicate KeepsCount(sh: Shared, pc: Pc, sh': Shared, pc': Pc) {
    sh'.wg - |sh'.queue| - Holds()(pc') == sh.wg - |sh.queue| - Holds()(pc)
  }

  lemma CallerCounted(st: Settings, sh: Shared, pc: Pc, ch: Choice)
    requires CallerAct(st, sh, pc, ch).Some?
    ensures var (sh', pc') := CallerAct(st, sh, pc, ch).value; KeepsCount(sh, pc, sh', pc')
  {
  }

  lemma WorkerCounted(st: Settings, sh: Shared, pc: Pc, ch: Choice)
    requires WorkerAct(st, sh, pc, ch).Some?
    ensures var (sh', pc') := WorkerAct(st, sh, pc, ch).value; KeepsCount(sh, pc, sh', pc')
  {
    hide AppendSection, TryEncode, FindShard, CurrentShards;
  }

  lemma FlushCounted(st: Settings, sh: Shared, pc: Pc, ch: Choice)
    requires FlushAct(st, sh, pc, ch).Some?
    ensures var (sh', pc') := FlushAct(st, sh, pc, ch).value; KeepsCount(sh, pc, sh', pc')
  {
    hide FlushSection, OnSpanProcessFail;
  }

  lemma SenderCounted(st: Settings, sh: Shared, pc: Pc, ch: Choice)
    requires SenderAct(st, sh, pc, ch).Some? && !CallerPc(pc) && !WorkerPc(pc) && !FlushPc(pc)
    ensures var (sh', pc') := SenderAct(st, sh, pc, ch).value; KeepsCount(sh, pc, sh', pc')
  {
    hide OnReply, ResendSpans, SetConfig;
  }

  lemma ThreadCounted(st: Settings, sh: Shared, pc: Pc, ch: Choice)
    requires Act(st, sh, pc, ch).Some?
    ensures var (sh', pc') := Act(st, sh, pc, ch).value; KeepsCount(sh, pc, sh', pc')
  {
    hide CallerAct, WorkerAct, FlushAct, SenderAct, KeepsCount;
    if CallerPc(pc) { CallerCounted(st, sh, pc, ch); }
    else if WorkerPc(pc) { WorkerCounted(st, sh, pc, ch); }
    else if FlushPc(pc) { FlushCounted(st, sh, pc, ch); }
    else { SenderCounted(st, sh, pc, ch); }
  }

  lemma SpawnCounted(s: State, r: Option<(Shared, seq<Pc>)>)
    requires Counted(s) && Apart(s.sh, r, 0) && r.Some?
    ensures Counted(Spawn(s, r).value)
  {
    SumAppend(s.threads, r.value.1, Holds());
    FreshThreads(r.value.1, 0);
  }

  lemma NextCounted(st: Settings, s: State, step: Step)
    requires Counted(s) && Next(st, s, step).Some?
    ensures Counted(Next(st, s, step).value)
  {
    hide Act, Configure, Boot, Shutdown, Sum, Apart, Spawn, KeepsCount;
    match step
    case Thread(i, ch) =>
      var (sh', pc') := Act(st, s.sh, s.threads[i], ch).value;
      ThreadCounted(st, s.sh, s.threads[i], ch);
      ThreadKeepsCounted(s, i, sh', pc');
    case Configuring =>
      ConfigureApart(st, s.sh, 0);
      SpawnIsSome(s, Configure(st, s.sh));
      SpawnCounted(s, Configure(st, s.sh));
    case Booting(ok) =>
      BootApart(st, s.sh, ok, 0);
      SpawnIsSome(s, Boot(st, s.sh, ok));
      SpawnCounted(s, Boot(st, s.sh, ok));
    case ShuttingDown(timedOut) =>
      ShutdownApart(st, s.sh, timedOut, 0);
      SpawnIsSome(s, Shutdown(st, s.sh, timedOut));
      SpawnCounted(s, Shutdown(st, s.sh, timedOut));
    case Arrive(batch) => ArrivalCounted(s, batch);
    case ServerConfigures(config) =>
  }

  lemma ArrivalCounted(s: State, batch: seq<Span>)
    requires Counted(s)
    ensures Counted(State(s.sh, s.threads + [Entering(batch, false)]))
  {
    SumSnoc(s.threads, Entering(batch, false), Holds());
  }

  lemma ThreadKeepsCounted(s: State, i: nat, sh': Shared, pc': Pc)
    requires Counted(s) && i < |s.threads| && KeepsCount(s.sh, s.threads[i], sh', pc')
    ensures Counted(State(sh', s.threads[i := pc']))
  {
    SumUpdate(s.threads, i, pc', Holds());
  }

  lemma {:induction false} WaitGroupCountsBatches(st: Settings, config: Config, run: seq<Step>)
    requires Exec(st, config, run).Some?
    ensures Counted(Exec(st, config, run).value)
  {
    if run != [] {
      WaitGroupCountsBatches(st, config, run[..|run| - 1]);
      NextCounted(st, Exec(st, config, run[..|run| - 1]).value, run[|run| - 1]);
    }
  }

  /** Spans of a batch that EncodeSpans has let in but not yet counted. */
  function Uncounted(pc: Pc): seq<Span> {
    if (pc.Entering? && pc.retried) || pc.Counting? then pc.batch else []
  }

  function UncountedCount(x: nat): Pc -> int {
    (pc: Pc) => Count(Uncounted(pc), x)
  }

  /** Spans that have left the shard encoders: in a callback, or in a call to the server. */
  function PastEncoders(pc: Pc): seq<Span> {
    if CallerPc(pc) || WorkerPc(pc) || pc.Flushing? then [] else InHand(pc)
  }

  function PastEncodersCount(x: nat): Pc -> int {
    (pc: Pc) => Count(PastEncoders(pc), x)
  }

  lemma NotHeldByWorkers(pc: Pc, x: nat)
    requires Holds()(pc) == 0
    ensures HandCount(x)(pc) == UncountedCount(x)(pc) + PastEncodersCount(x)(pc)
  {
  }

  /**
   * When the drain wait of Stop sees zero, no batch is queued and no worker is
   * inside one: every span taken in is pending in a shard encoder, has been reported by
   * one (so it is in a callback, a request, a call, or the retry queue, or settled), or belongs to
   * a batch whose caller has not counted it yet.
   */
  lemma ZeroMeansDrained(st: Settings, config: Config, run: seq<Step>, x: nat)
    requires Exec(st, config, run).Some? && Exec(st, config, run).value.sh.wg == 0
    ensures var s := Exec(st, config, run).value;
      && s.sh.queue == []
      && (forall pc <- s.threads :: Holds()(pc) == 0)
      && Count(s.sh.admitted, x)
         == Sum(s.sh.ses, PendingCount(x)) + Sum(s.threads, PastEncodersCount(x)) + Sum(s.sh.requests, RequestCount(x))
          + Sum(s.sh.out.retry, BatchCount(x)) + Settled(s.sh.out, x) + Sum(s.threads, UncountedCount(x))
  {
    hide Settled, Holds, Count, UncountedCount, PastEncodersCount;
    var s := Exec(st, config, run).value;
    WaitGroupCountsBatches(st, config, run);
    NobodyHolds(s);
    SpansAreConserved(st, config, run, x);
    forall pc | pc in s.threads ensures HandCount(x)(pc) == UncountedCount(x)(pc) + PastEncodersCount(x)(pc) {
      NotHeldByWorkers(pc, x);
    }
    SumSplit(s.threads, HandCount(x), UncountedCount(x), PastEncodersCount(x));
  }

  lemma NobodyHolds(s: State)
    requires Counted(s) && s.sh.wg == 0
    ensures s.sh.queue == [] && forall pc <- s.threads :: Holds()(pc) == 0
  {
    SumNonNegative(s.threads, Holds());
    forall pc | pc in s.threads ensures Holds()(pc) == 0 {
      var i :| 0 <= i < |s.threads| && s.threads[i] == pc;
      SumAtLeast(s.threads, i, Holds());
    }
  }

  // ---------- at most once ----------

  function RecordCount(x: nat): Admission -> int {
    (a: Admission) => Count(a.request.originalSpans, x)
  }

  /** Times x has been recorded by the server. */
  function TimesRecorded(s: State, x: nat): int {
    Sum(s.sh.records, RecordCount(x))
  }

  /** Spans that are recorded and whose reply is on its way. */
  function AwaitingReply(pc: Pc): seq<Span> {
    if pc.Recorded? || (pc.Replied? && pc.recorded) then pc.req.originalSpans else []
  }

  function AwaitingCount(x: nat): Pc -> int {
    (pc: Pc) => Count(AwaitingReply(pc), x)
  }

  /** The server asks for a retry only of requests that it has not recorded. */
  ghost predicate Honest(st: Settings) {
    forall reply :: st.mayReply(reply) ==> !Retryable(reply)
  }

  /** Every recording of x is matched by a settled occurrence or one whose reply settles it. */
  ghost predicate RecordedOnce(st: Settings, s: State, x: nat) {
    && TimesRecorded(s, x) <= Settled(s.sh.out, x) + Sum(s.threads, AwaitingCount(x))
    && forall pc <- s.threads :: pc.Replied? && pc.recorded ==> st.mayReply(pc.reply)
  }

  ghost predicate KeepsRecordedOnce(st: Settings, sh: Shared, pc: Pc, sh': Shared, pc': Pc, x: nat) {
    && Sum(sh'.records, RecordCount(x)) - Settled(sh'.out, x) - Count(AwaitingReply(pc'), x)
       <= Sum(sh.records, RecordCount(x)) - Settled(sh.out, x) - Count(AwaitingReply(pc), x)
    && (pc'.Replied? && pc'.recorded ==> st.mayReply(pc'.reply))
  }

  lemma NothingAwaited(pc: Pc, x: nat)
    ensures !pc.Recorded? && !(pc.Replied? && pc.recorded) ==> Count(AwaitingReply(pc), x) == 0
  {
  }

  lemma CallerRecordedOnce(st: Settings, sh: Shared, pc: Pc, ch: Choice, x: nat)
    requires CallerAct(st, sh, pc, ch).Some?
    ensures var (sh', pc') := CallerAct(st, sh, pc, ch).value; KeepsRecordedOnce(st, sh, pc, sh', pc', x)
  {
    hide Sum, Count;
    var pc' := CallerAct(st, sh, pc, ch).value.1;
    NothingAwaited(pc, x);
    NothingAwaited(pc', x);
    if pc.Entering? {
      CountAppend(sh.out.forgotten, pc.batch, x);
    }
  }

  lemma WorkerRecordedOnce(st: Settings, sh: Shared, pc: Pc, ch: Choice, x: nat)
    requires WorkerAct(st, sh, pc, ch).Some?
    ensures var (sh', pc') := WorkerAct(st, sh, pc, ch).value; KeepsRecordedOnce(st, sh, pc, sh', pc', x)
  {
    hide Sum, Count, AppendSection, TryEncode, FindShard, CurrentShards;
    NothingAwaited(pc, x);
    NothingAwaited(WorkerAct(st, sh, pc, ch).value.1, x);
  }

  lemma FlushRecordedOnce(st: Settings, sh: Shared, pc: Pc, ch: Choice, x: nat)
    requires FlushAct(st, sh, pc, ch).Some?
    ensures var (sh', pc') := FlushAct(st, sh, pc, ch).value; KeepsRecordedOnce(st, sh, pc, sh', pc', x)
  {
    hide Sum, Count, FlushSection, OnSpanProcessFail, Settled;
    NothingAwaited(pc, x);
    NothingAwaited(FlushAct(st, sh, pc, ch).value.1, x);
    if pc.Calling? && pc.cb.SpanProcessFail? { ProcessFailAccounts(sh.out, pc.cb.spans, pc.cb.code, x); }
  }

  lemma SenderRecordedOnce(st: Settings, sh: Shared, pc: Pc, ch: Choice, x: nat)
    requires SenderAct(st, sh, pc, ch).Some? && Honest(st)
    requires pc.Replied? && pc.recorded ==> st.mayReply(pc.reply)
    ensures var (sh', pc') := SenderAct(st, sh, pc, ch).value; KeepsRecordedOnce(st, sh, pc, sh', pc', x)
  {
    hide Sum, Count, OnReply, ResendSpans, SetConfig, Settled;
    NothingAwaited(pc, x);
    NothingAwaited(SenderAct(st, sh, pc, ch).value.1, x);
    match pc
    case Admitted(req, config) => SumSnoc(sh.records, Admission(req, config), RecordCount(x));
    case Replied(req, reply, _) => ReplyAccounts(sh.out, req.originalSpans, reply, x);
    case Resending(spans) => ResendAccounts(sh.out, spans, x);
    case _ =>
  }

  lemma ThreadRecordedOnce(st: Settings, sh: Shared, pc: Pc, ch: Choice, x: nat)
    requires Act(st, sh, pc, ch).Some? && Honest(st)
    requires pc.Replied? && pc.recorded ==> st.mayReply(pc.reply)
    ensures var (sh', pc') := Act(st, sh, pc, ch).value; KeepsRecordedOnce(st, sh, pc, sh', pc', x)
  {
    hide CallerAct, WorkerAct, FlushAct, SenderAct, KeepsRecordedOnce, Honest;
    if CallerPc(pc) { CallerRecordedOnce(st, sh, pc, ch, x); }
    else if WorkerPc(pc) { WorkerRecordedOnce(st, sh, pc, ch, x); }
    else if FlushPc(pc) { FlushRecordedOnce(st, sh, pc, ch, x); }
    else { SenderRecordedOnce(st, sh, pc, ch, x); }
  }

  lemma ThreadStepRecordedOnce(st: Settings, s: State, i: nat, sh': Shared, pc': Pc, x: nat)
    requires RecordedOnce(st, s, x) && i < |s.threads| && KeepsRecordedOnce(st, s.sh, s.threads[i], sh', pc', x)
    ensures RecordedOnce(st, State(sh', s.threads[i := pc']), x)
  {
    SumUpdate(s.threads, i, pc', AwaitingCount(x));
  }

  lemma SpawnRecordedOnce(st: Settings, s: State, r: Option<(Shared, seq<Pc>)>, x: nat)
    requires RecordedOnce(st, s, x) && Apart(s.sh, r, x) && r.Some?
    ensures RecordedOnce(st, Spawn(s, r).value, x)
  {
    hide Sum, Count;
    SumAppend(s.threads, r.value.1, AwaitingCount(x));
    FreshThreads(r.value.1, x);
  }

  lemma NextRecordedOnce(st: Settings, s: State, step: Step, x: nat)
    requires RecordedOnce(st, s, x) && Honest(st) && Next(st, s, step).Some?
    ensures RecordedOnce(st, Next(st, s, step).value, x)
  {
    hide Act, Configure, Boot, Shutdown, Sum, Apart, Spawn, KeepsRecordedOnce, Honest;
    match step
    case Thread(i, ch) =>
      var (sh', pc') := Act(st, s.sh, s.threads[i], ch).value;
      assert s.threads[i] in s.threads;
      ThreadRecordedOnce(st, s.sh, s.threads[i], ch, x);
      ThreadStepRecordedOnce(st, s, i, sh', pc', x);
    case Configuring =>
      ConfigureApart(st, s.sh, x);
      SpawnIsSome(s, Configure(st, s.sh));
      SpawnRecordedOnce(st, s, Configure(st, s.sh), x);
    case Booting(ok) =>
      BootApart(st, s.sh, ok, x);
      SpawnIsSome(s, Boot(st, s.sh, ok));
      SpawnRecordedOnce(st, s, Boot(st, s.sh, ok), x);
    case ShuttingDown(timedOut) =>
      ShutdownApart(st, s.sh, timedOut, x);
      SpawnIsSome(s, Shutdown(st, s.sh, timedOut));
      SpawnRecordedOnce(st, s, Shutdown(st, s.sh, timedOut), x);
    case Arrive(batch) => ArrivalRecordedOnce(st, s, batch, x);
    case ServerConfigures(config) =>
  }

  lemma ArrivalRecordedOnce(st: Settings, s: State, batch: seq<Span>, x: nat)
    requires RecordedOnce(st, s, x)
    ensures RecordedOnce(st, State(s.sh, s.threads + [Entering(batch, false)]), x)
  {
    SumSnoc(s.threads, Entering(batch, false), AwaitingCount(x));
  }

  lemma {:induction false} RunRecordedOnce(st: Settings, config: Config, run: seq<Step>, x: nat)
    requires Exec(st, config, run).Some? && Honest(st)
    ensures RecordedOnce(st, Exec(st, config, run).value, x)
  {
    if run != [] {
      RunRecordedOnce(st, config, run[..|run| - 1], x);
      NextRecordedOnce(st, Exec(st, config, run[..|run| - 1]).value, run[|run| - 1], x);
    }
  }

  /**
   * At-most-once acceptance: with a server that asks for retries only of what
   * it did not record, no span is recorded more often than it was taken in,
   * over any run and through any number of rejections, throttlings and stops.
   */
  lemma NoSpanIsRecordedTwice(st: Settings, config: Config, run: seq<Step>, x: nat)
    requires Exec(st, config, run).Some? && Honest(st)
    ensures var s := Exec(st, config, run).value;
      TimesRecorded(s, x) <= Count(s.sh.admitted, x)
  {
    RunRecordedOnce(st, config, run, x);
    SpansAreConserved(st, config, run, x);
    RecordedAreTakenIn(st, Exec(st, config, run).value, x);
  }

  lemma AwaitedAreInHand(s: State, x: nat)
    ensures Sum(s.threads, AwaitingCount(x)) <= Sum(s.threads, HandCount(x))
  {
    SumLessEqual(s.threads, AwaitingCount(x), HandCount(x));
  }

  lemma RecordedAreTakenIn(st: Settings, s: State, x: nat)
    requires RecordedOnce(st, s, x) && Conserved(s, x)
    ensures TimesRecorded(s, x) <= Count(s.sh.admitted, x)
  {
    SumNonNegative(s.sh.queue, BatchCount(x));
    SumNonNegative(s.sh.ses, PendingCount(x));
    SumNonNegative(s.sh.requests, RequestCount(x));
    SumNonNegative(s.sh.out.retry, BatchCount(x));
    AwaitedAreInHand(s, x);
  }

  // ---------- what counts as delivered ----------

  /** Every occurrence of x that counts as delivered has a recording of its own. */
  ghost predicate Backed(s: State, x: nat) {
    && Count(s.sh.out.delivered, x) + Sum(s.threads, AwaitingCount(x)) <= TimesRecorded(s, x)
    && forall pc <- s.threads :: pc.Replied? && !pc.recorded ==> !Successful(pc.reply)
  }

  ghost predicate KeepsBacked(sh: Shared, pc: Pc, sh': Shared, pc': Pc, x: nat) {
    && Sum(sh.records, RecordCount(x)) - Count(sh.out.delivered, x) - Count(AwaitingReply(pc), x)
       <= Sum(sh'.records, RecordCount(x)) - Count(sh'.out.delivered, x) - Count(AwaitingReply(pc'), x)
    && (pc'.Replied? && !pc'.recorded ==> !Successful(pc'.reply))
  }

  lemma CallerBacked(st: Settings, sh: Shared, pc: Pc, ch: Choice, x: nat)
    requires CallerAct(st, sh, pc, ch).Some?
    ensures var (sh', pc') := CallerAct(st, sh, pc, ch).value; KeepsBacked(sh, pc, sh', pc', x)
  {
    hide Sum, Count;
    NothingAwaited(pc, x);
    NothingAwaited(CallerAct(st, sh, pc, ch).value.1, x);
  }

  lemma WorkerBacked(st: Settings, sh: Shared, pc: Pc, ch: Choice, x: nat)
    requires WorkerAct(st, sh, pc, ch).Some?
    ensures var (sh', pc') := WorkerAct(st, sh, pc, ch).value; KeepsBacked(sh, pc, sh', pc', x)
  {
    hide Sum, Count, AppendSection, TryEncode, FindShard, CurrentShards;
    NothingAwaited(pc, x);
    NothingAwaited(WorkerAct(st, sh, pc, ch).value.1, x);
  }

  lemma FlushBacked(st: Settings, sh: Shared, pc: Pc, ch: Choice, x: nat)
    requires FlushAct(st, sh, pc, ch).Some?
    ensures var (sh', pc') := FlushAct(st, sh, pc, ch).value; KeepsBacked(sh, pc, sh', pc', x)
  {
    hide Sum, Count, FlushSection, OnSpanProcessFail;
    NothingAwaited(pc, x);
    NothingAwaited(FlushAct(st, sh, pc, ch).value.1, x);
    if pc.Calling? && pc.cb.SpanProcessFail? { ProcessFailAccounts(sh.out, pc.cb.spans, pc.cb.code, x); }
  }

  lemma SenderBacked(st: Settings, sh: Shared, pc: Pc, ch: Choice, x: nat)
    requires SenderAct(st, sh, pc, ch).Some?
    requires pc.Replied? && !pc.recorded ==> !Successful(pc.reply)
    ensures var (sh', pc') := SenderAct(st, sh, pc, ch).value; KeepsBacked(sh, pc, sh', pc', x)
  {
    hide Sum, Count, OnReply, SetConfig, CurrentConfig;
    NothingAwaited(pc, x);
    NothingAwaited(SenderAct(st, sh, pc, ch).value.1, x);
    match pc
    case Admitted(req, config) => SumSnoc(sh.records, Admission(req, config), RecordCount(x));
    case Replied(req, reply, _) => ReplyAccounts(sh.out, req.originalSpans, reply, x);
    case _ =>
  }

  lemma ThreadBacked(st: Settings, sh: Shared, pc: Pc, ch: Choice, x: nat)
    requires Act(st, sh, pc, ch).Some?
    requires pc.Replied? && !pc.recorded ==> !Successful(pc.reply)
    ensures var (sh', pc') := Act(st, sh, pc, ch).value; KeepsBacked(sh, pc, sh', pc', x)
  {
    hide CallerAct, WorkerAct, FlushAct, SenderAct, KeepsBacked;
    if CallerPc(pc) { CallerBacked(st, sh, pc, ch, x); }
    else if WorkerPc(pc) { WorkerBacked(st, sh, pc, ch, x); }
    else if FlushPc(pc) { FlushBacked(st, sh, pc, ch, x); }
    else { SenderBacked(st, sh, pc, ch, x); }
  }

  lemma ThreadStepBacked(s: State, i: nat, sh': Shared, pc': Pc, x: nat)
    requires Backed(s, x) && i < |s.threads| && KeepsBacked(s.sh, s.threads[i], sh', pc', x)
    ensures Backed(State(sh', s.threads[i := pc']), x)
  {
    SumUpdate(s.threads, i, pc', AwaitingCount(x));
  }

  lemma SpawnBacked(s: State, r: Option<(Shared, seq<Pc>)>, x: nat)
    requires Backed(s, x) && Apart(s.sh, r, x) && r.Some?
    ensures Backed(Spawn(s, r).value, x)
  {
    hide Sum, Count;
    SumAppend(s.threads, r.value.1, AwaitingCount(x));
    FreshThreads(r.value.1, x);
  }

  lemma ArrivalBacked(s: State, batch: seq<Span>, x: nat)
    requires Backed(s, x)
    ensures Backed(State(s.sh, s.threads + [Entering(batch, false)]), x)
  {
    SumSnoc(s.threads, Entering(batch, false), AwaitingCount(x));
  }

  lemma NextBacked(st: Settings, s: State, step: Step, x: nat)
    requires Backed(s, x) && Next(st, s, step).Some?
    ensures Backed(Next(st, s, step).value, x)
  {
    hide Act, Configure, Boot, Shutdown, Sum, Apart, Spawn, KeepsBacked;
    match step
    case Thread(i, ch) =>
      var (sh', pc') := Act(st, s.sh, s.threads[i], ch).value;
      assert s.threads[i] in s.threads;
      ThreadBacked(st, s.sh, s.threads[i], ch, x);
      ThreadStepBacked(s, i, sh', pc', x);
    case Configuring =>
      ConfigureApart(st, s.sh, x);
      SpawnIsSome(s, Configure(st, s.sh));
      SpawnBacked(s, Configure(st, s.sh), x);
    case Booting(ok) =>
      BootApart(st, s.sh, ok, x);
      SpawnIsSome(s, Boot(st, s.sh, ok));
      SpawnBacked(s, Boot(st, s.sh, ok), x);
    case ShuttingDown(timedOut) =>
      ShutdownApart(st, s.sh, timedOut, x);
      SpawnIsSome(s, Shutdown(st, s.sh, timedOut));
      SpawnBacked(s, Shutdown(st, s.sh, timedOut), x);
    case Arrive(batch) => ArrivalBacked(s, batch, x);
    case ServerConfigures(config) =>
  }

  /**
   * Whatever the server answers, no span counts as delivered that it did not
   * record: each delivered occurrence has a recording of its own.
   */
  lemma {:induction false} DeliveredSpansWereRecorded(st: Settings, config: Config, run: seq<Step>, x: nat)
    requires Exec(st, config, run).Some?
    ensures var s := Exec(st, config, run).value;
      Backed(s, x) && Count(s.sh.out.delivered, x) <= TimesRecorded(s, x)
  {
    if run != [] {
      DeliveredSpansWereRecorded(st, config, run[..|run| - 1], x);
      NextBacked(st, Exec(st, config, run[..|run| - 1]).value, run[|run| - 1], x);
    }
    SumNonNegative(Exec(st, config, run).value.threads, AwaitingCount(x));
  }
}
