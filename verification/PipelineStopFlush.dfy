/**
 * The flush that encoder.Stop makes of the current shard encoders: over whole runs no batch
 * that was pending then is still pending when the encoders are stopped.
 */
module PipelineStopFlush {
  import opened Basics
  import opened ShardingConfig
  import opened Spans
  import opened ShardEncoding
  import opened Server
  import opened Exporting
  import opened ConfigMailbox
  import opened Pipeline
  import opened PipelineRouting
  import opened PipelineAccounting
  import opened PipelineBounds
  import opened PipelineShutdown
  import opened PipelineDelivery

  // ---------- the goroutines of the flush ----------

  /** A goroutine of flushShardEncoders that has not signalled its end. */
  predicate StillDraining(pc: Pc) {
    pc.DrainDone? || ((pc.Flushing? || pc.Calling?) && pc.after.DrainReturns?)
  }

  function DrainersLeft(): Pc -> int {
    (pc: Pc) => if StillDraining(pc) then 1 else 0
  }

  ghost predicate DrainersCounted(s: State) {
    s.sh.ctl.draining == Sum(s.threads, DrainersLeft())
  }

  /** Only the end of such a goroutine is counted. */
  ghost predicate KeepsDrainers(sh: Shared, pc: Pc, sh': Shared, pc': Pc) {
    && sh'.ctl.stopPc == sh.ctl.stopPc
    && sh'.ctl.draining - DrainersLeft()(pc') == sh.ctl.draining - DrainersLeft()(pc)
    && (StillDraining(pc') ==> StillDraining(pc))
  }

  lemma WorkKeepsDrainers(st: Settings, sh: Shared, pc: Pc, ch: Choice)
    requires (CallerPc(pc) || WorkerPc(pc)) && Act(st, sh, pc, ch).Some?
    ensures var (sh', pc') := Act(st, sh, pc, ch).value; KeepsDrainers(sh, pc, sh', pc')
  {
    hide AppendSection, TryEncode, FindShard, CurrentShards;
  }

  lemma FlushKeepsDrainers(st: Settings, sh: Shared, pc: Pc, ch: Choice)
    requires FlushAct(st, sh, pc, ch).Some?
    ensures var (sh', pc') := FlushAct(st, sh, pc, ch).value; KeepsDrainers(sh, pc, sh', pc')
  {
    hide FlushSection, OnSpanProcessFail;
  }

  lemma SenderKeepsDrainers(st: Settings, sh: Shared, pc: Pc, ch: Choice)
    requires SenderAct(st, sh, pc, ch).Some?
    ensures var (sh', pc') := SenderAct(st, sh, pc, ch).value; KeepsDrainers(sh, pc, sh', pc')
  {
    hide OnReply, ResendSpans, SetConfig, ShardIsPartOfConfig, CurrentConfig;
  }

  lemma ThreadKeepsDrainers(st: Settings, sh: Shared, pc: Pc, ch: Choice)
    requires Act(st, sh, pc, ch).Some?
    ensures var (sh', pc') := Act(st, sh, pc, ch).value; KeepsDrainers(sh, pc, sh', pc')
  {
    hide CallerAct, WorkerAct, FlushAct, SenderAct, KeepsDrainers;
    if CallerPc(pc) || WorkerPc(pc) { WorkKeepsDrainers(st, sh, pc, ch); }
    else if FlushPc(pc) { FlushKeepsDrainers(st, sh, pc, ch); }
    else { SenderKeepsDrainers(st, sh, pc, ch); }
  }

  /** Nobody else starts or ends one. */
  ghost predicate SpawnsNoDrainer(sh: Shared, r: Option<(Shared, seq<Pc>)>) {
    r.Some? ==>
      && r.value.0.ctl.draining == sh.ctl.draining
      && forall pc <- r.value.1 :: !StillDraining(pc)
  }

  lemma ConfigureSpawnsNoDrainer(st: Settings, sh: Shared)
    ensures SpawnsNoDrainer(sh, Configure(st, sh))
    ensures Configure(st, sh).Some? ==> Configure(st, sh).value.0.ctl == sh.ctl
  {
    hide NewConfig, CheckMailbox;
  }

  lemma BootSpawnsNoDrainer(st: Settings, sh: Shared, ok: bool)
    ensures SpawnsNoDrainer(sh, Boot(st, sh, ok))
    ensures Boot(st, sh, ok).Some? ==> Boot(st, sh, ok).value.0.ctl.stopPc == sh.ctl.stopPc
  {
    hide SetConfig, CurrentConfig;
  }

  lemma StopSpawnsNoDrainer(st: Settings, sh: Shared, timedOut: bool)
    ensures !sh.ctl.stopPc.StopDrain? ==> SpawnsNoDrainer(sh, Shutdown(st, sh, timedOut))
  {
    hide Current, FlagStop, SignalStop;
  }

  /** The turn that starts the flush. */
  lemma StartsDrainers(st: Settings, sh: Shared, timedOut: bool)
    requires sh.ctl.stopPc.StopDrain?
    ensures Shutdown(st, sh, timedOut).Some?
    ensures var (sh', started) := Shutdown(st, sh, timedOut).value;
      && sh'.ctl.stopPc.StopDrained? && sh'.ses == sh.ses && sh'.lo == sh.lo
      && sh'.ctl.draining == sh.ctl.draining + |started|
      && (sh.lo <= |sh.ses| ==> |started| == |sh.ses| - sh.lo)
      && forall i | 0 <= i < |started| :: started[i] == Flushing(sh.lo + i, DrainReturns)
  {
  }

  lemma {:induction false} AllDrain(started: seq<Pc>)
    requires forall pc <- started :: StillDraining(pc)
    ensures Sum(started, DrainersLeft()) == |started|
  {
    if started != [] { AllDrain(started[1..]); }
  }

  lemma SpawnDrainersCounted(s: State, r: Option<(Shared, seq<Pc>)>)
    requires DrainersCounted(s) && SpawnsNoDrainer(s.sh, r) && r.Some?
    ensures DrainersCounted(Spawn(s, r).value)
  {
    SumAppend(s.threads, r.value.1, DrainersLeft());
    SumZero(r.value.1, DrainersLeft());
  }

  lemma ShutdownDrainersCounted(st: Settings, s: State, timedOut: bool)
    requires DrainersCounted(s) && Shutdown(st, s.sh, timedOut).Some?
    ensures DrainersCounted(Spawn(s, Shutdown(st, s.sh, timedOut)).value)
  {
    hide Shutdown;
    if s.sh.ctl.stopPc.StopDrain? {
      StartsDrainers(st, s.sh, timedOut);
      var started := Shutdown(st, s.sh, timedOut).value.1;
      assert forall pc <- started :: StillDraining(pc);
      AllDrain(started);
      SumAppend(s.threads, started, DrainersLeft());
    } else {
      StopSpawnsNoDrainer(st, s.sh, timedOut);
      SpawnDrainersCounted(s, Shutdown(st, s.sh, timedOut));
    }
  }

  lemma NextDrainersCounted(st: Settings, s: State, step: Step)
    requires DrainersCounted(s) && Next(st, s, step).Some?
    ensures DrainersCounted(Next(st, s, step).value)
  {
    hide Act, Configure, Boot, Shutdown, Sum, SpawnsNoDrainer;
    match step
    case Thread(i, ch) =>
      ThreadKeepsDrainers(st, s.sh, s.threads[i], ch);
      SumUpdate(s.threads, i, Act(st, s.sh, s.threads[i], ch).value.1, DrainersLeft());
    case Configuring =>
      ConfigureSpawnsNoDrainer(st, s.sh);
      SpawnDrainersCounted(s, Configure(st, s.sh));
    case Booting(ok) =>
      BootSpawnsNoDrainer(st, s.sh, ok);
      SpawnDrainersCounted(s, Boot(st, s.sh, ok));
    case ShuttingDown(timedOut) => ShutdownDrainersCounted(st, s, timedOut);
    case Arrive(batch) => SumSnoc(s.threads, Entering(batch, false), DrainersLeft());
    case ServerConfigures(_) =>
  }

  /** In every run the counter of the flush is the number of its goroutines that have not ended. */
  lemma {:induction false} RunDrainersCounted(st: Settings, config: Config, run: seq<Step>)
    requires Exec(st, config, run).Some?
    ensures DrainersCounted(Exec(st, config, run).value)
  {
    hide Next;
    if run != [] {
      RunDrainersCounted(st, config, run[..|run| - 1]);
      NextDrainersCounted(st, Exec(st, config, run[..|run| - 1]).value, run[|run| - 1]);
    }
  }

  lemma NobodyDrains(s: State)
    requires DrainersCounted(s) && s.sh.ctl.draining == 0
    ensures forall pc <- s.threads :: !StillDraining(pc)
  {
    forall pc | pc in s.threads ensures !StillDraining(pc) {
      var i :| 0 <= i < |s.threads| && s.threads[i] == pc;
      SumAtLeast(s.threads, i, DrainersLeft());
    }
  }

  // ---------- a pending batch is taken ----------

  /**
   * Step m of the run is a flush section of encoder j, by whatever thread: it takes
   * all that is pending, which begins with this batch, and reports it.
   */
  ghost predicate TakenAt(st: Settings, config: Config, run: seq<Step>, m: nat, j: nat, batch: seq<Span>) {
    && m < |run| && run[m].Thread? && Exec(st, config, run[..m]).Some?
    && var s := Exec(st, config, run[..m]).value;
    && run[m].i < |s.threads| && j < |s.sh.ses| && s.threads[run[m].i].Flushing? && s.threads[run[m].i].se == j
    && Next(st, s, run[m]).Some? && Takes(st, s, Next(st, s, run[m]).value, run[m].i, j, batch)
  }

  ghost predicate Takes(st: Settings, s: State, s': State, i: nat, j: nat, batch: seq<Span>)
    requires j < |s.sh.ses|
  {
    var b := s.sh.ses[j];
    && batch <= b.pending
    && j < |s'.sh.ses| && s'.sh.ses[j].pending == []
    && (b.pending != [] ==>
          i < |s'.threads| && s'.threads[i].Calling?
          && ReportsBatch(st.limits, b.shard, b.pending, b.stopped, s'.threads[i].cb))
  }

  ghost predicate TakenSince(st: Settings, config: Config, run: seq<Step>, k: nat, j: nat, batch: seq<Span>) {
    exists m :: k < m && TakenAt(st, config, run, m, j, batch)
  }

  /** The batch still heads what is pending in encoder j, and thread p is about to flush it. */
  ghost predicate Due(s: State, p: nat, j: nat, batch: seq<Span>) {
    && p < |s.threads| && s.threads[p] == Flushing(j, DrainReturns)
    && j < |s.sh.ses| && batch <= s.sh.ses[j].pending
  }

  lemma FlushTakes(st: Settings, s: State, i: nat, ch: Choice, j: nat, batch: seq<Span>)
    requires i < |s.threads| && s.threads[i].Flushing? && s.threads[i].se == j
    requires j < |s.sh.ses| && batch <= s.sh.ses[j].pending
    ensures Next(st, s, Thread(i, ch)).Some? && Takes(st, s, Next(st, s, Thread(i, ch)).value, i, j, batch)
  {
    FlushReportsPending(st.limits, s.sh.ses[j]);
    hide FlushSection, ReportsBatch;
  }

  /** Any other step of a thread at most appends to the encoder. */
  lemma OtherStepKeepsBatch(st: Settings, sh: Shared, pc: Pc, ch: Choice, j: nat, batch: seq<Span>)
    requires Act(st, sh, pc, ch).Some? && j < |sh.ses| && batch <= sh.ses[j].pending
    requires !(pc.Flushing? && pc.se == j)
    ensures var sh' := Act(st, sh, pc, ch).value.0; j < |sh'.ses| && batch <= sh'.ses[j].pending
  {
    if pc.Sized? || pc.Flushing? {
      SizedIsWork(st, sh, pc, ch);
      hide Act, FlushSection;
    } else {
      OthersLeaveEncoders(st, sh, pc, ch, j);
      hide Act;
    }
  }

  lemma ThreadKeepsDue(st: Settings, s: State, i: nat, ch: Choice, p: nat, j: nat, batch: seq<Span>)
    requires Due(s, p, j, batch) && i < |s.threads| && Next(st, s, Thread(i, ch)).Some?
    ensures if s.threads[i].Flushing? && s.threads[i].se == j
      then Takes(st, s, Next(st, s, Thread(i, ch)).value, i, j, batch)
      else Due(Next(st, s, Thread(i, ch)).value, p, j, batch)
  {
    if s.threads[i].Flushing? && s.threads[i].se == j {
      FlushTakes(st, s, i, ch, j, batch);
    } else {
      OtherStepKeepsBatch(st, s.sh, s.threads[i], ch, j, batch);
    }
    hide Act, Takes;
  }

  lemma SpawnKeepsDue(s: State, r: Option<(Shared, seq<Pc>)>, p: nat, j: nat, batch: seq<Span>)
    requires Due(s, p, j, batch) && LeavesBatches(s.sh, r) && r.Some?
    ensures Due(Spawn(s, r).value, p, j, batch)
  {
  }

  lemma OthersKeepDue(st: Settings, s: State, step: Step, p: nat, j: nat, batch: seq<Span>)
    requires Due(s, p, j, batch) && Next(st, s, step).Some? && !step.Thread?
    ensures Due(Next(st, s, step).value, p, j, batch)
  {
    hide Configure, Boot, Shutdown, LeavesBatches;
    match step
    case Configuring =>
      ConfigureLeavesBatches(st, s.sh);
      SpawnKeepsDue(s, Configure(st, s.sh), p, j, batch);
    case Booting(ok) =>
      BootLeavesBatches(st, s.sh, ok);
      SpawnKeepsDue(s, Boot(st, s.sh, ok), p, j, batch);
    case ShuttingDown(timedOut) =>
      ShutdownLeavesBatches(st, s.sh, timedOut);
      SpawnKeepsDue(s, Shutdown(st, s.sh, timedOut), p, j, batch);
    case _ =>
  }

  lemma TakenLasts(st: Settings, config: Config, run: seq<Step>, step: Step, k: nat, j: nat, batch: seq<Span>)
    requires TakenSince(st, config, run, k, j, batch)
    ensures TakenSince(st, config, run + [step], k, j, batch)
  {
    hide Exec, Takes, Next;
    var m: nat :| k < m && TakenAt(st, config, run, m, j, batch);
    assert (run + [step])[..m] == run[..m];
    assert TakenAt(st, config, run + [step], m, j, batch);
  }

  /** The batch has been taken since step k, or a goroutine of the flush is about to take it. */
  ghost predicate TakenOrDue(st: Settings, config: Config, run: seq<Step>, k: nat, p: nat, j: nat, batch: seq<Span>) {
    || TakenSince(st, config, run, k, j, batch)
    || (Exec(st, config, run).Some? && Due(Exec(st, config, run).value, p, j, batch))
  }

  lemma StepTakenOrDue(st: Settings, config: Config, run: seq<Step>, step: Step, k: nat, p: nat, j: nat,
                       batch: seq<Span>)
    requires TakenOrDue(st, config, run, k, p, j, batch) && k < |run|
    requires Exec(st, config, run).Some? && Next(st, Exec(st, config, run).value, step).Some?
    ensures TakenOrDue(st, config, run + [step], k, p, j, batch)
  {
    hide Exec, Takes, Next, Due;
    ExecSnoc(st, config, run, step);
    var s := Exec(st, config, run).value;
    if TakenSince(st, config, run, k, j, batch) {
      TakenLasts(st, config, run, step, k, j, batch);
    } else if step.Thread? {
      DueThread(st, s, step, p);
      ThreadKeepsDue(st, s, step.i, step.ch, p, j, batch);
      assert Due(s, p, j, batch) ==> j < |s.sh.ses| by { DueEncoder(s, p, j, batch); }
      if s.threads[step.i].Flushing? && s.threads[step.i].se == j {
        assert (run + [step])[..|run|] == run;
        assert TakenAt(st, config, run + [step], |run|, j, batch);
      }
    } else {
      OthersKeepDue(st, s, step, p, j, batch);
    }
  }

  lemma DueThread(st: Settings, s: State, step: Step, p: nat)
    requires step.Thread? && Next(st, s, step).Some?
    ensures step.i < |s.threads|
  {
    hide Act;
  }

  lemma DueEncoder(s: State, p: nat, j: nat, batch: seq<Span>)
    requires Due(s, p, j, batch)
    ensures j < |s.sh.ses|
  {
  }

  // ---------- the flush of encoder.Stop ----------

  /** Step k of the run is the turn of Stop that starts the flush. */
  ghost predicate FlushBegins(st: Settings, config: Config, run: seq<Step>, k: nat) {
    && k < |run| && run[k].ShuttingDown? && Exec(st, config, run[..k]).Some?
    && Exec(st, config, run[..k]).value.sh.ctl.stopPc.StopDrain?
  }

  /** Each batch that was pending in a current encoder then has been taken since, or is about to be. */
  ghost predicate AllTakenOrDue(st: Settings, config: Config, run: seq<Step>, k: nat) {
    && FlushBegins(st, config, run, k)
    && var s := Exec(st, config, run[..k]).value;
    && s.sh.lo <= |s.sh.ses|
    && forall j | s.sh.lo <= j < |s.sh.ses| ::
         TakenOrDue(st, config, run, k, |s.threads| + (j - s.sh.lo), j, s.sh.ses[j].pending)
  }

  ghost predicate AllTaken(st: Settings, config: Config, run: seq<Step>, k: nat) {
    && FlushBegins(st, config, run, k)
    && var s := Exec(st, config, run[..k]).value;
    && forall j | s.sh.lo <= j < |s.sh.ses| :: TakenSince(st, config, run, k, j, s.sh.ses[j].pending)
  }

  predicate PastFlush(pc: StopPc) {
    pc.StopEncoders? || pc.StopConfig? || pc.StopSignal? || pc.StopWorkers? || pc.StopClient? || pc.StopFinished?
  }

  ghost predicate FlushHistory(st: Settings, config: Config, run: seq<Step>, s: State) {
    && (s.sh.ctl.stopPc.StopDrained? ==> exists k :: AllTakenOrDue(st, config, run, k))
    && (PastFlush(s.sh.ctl.stopPc) ==> s.sh.ctl.draining == 0 && exists k :: AllTaken(st, config, run, k))
  }

  lemma AllTakenOrDueLasts(st: Settings, config: Config, run: seq<Step>, step: Step, k: nat)
    requires AllTakenOrDue(st, config, run, k)
    requires Exec(st, config, run).Some? && Next(st, Exec(st, config, run).value, step).Some?
    ensures AllTakenOrDue(st, config, run + [step], k)
  {
    hide Exec, TakenOrDue, Next;
    assert (run + [step])[..k] == run[..k];
    var s := Exec(st, config, run[..k]).value;
    forall j | s.sh.lo <= j < |s.sh.ses|
      ensures TakenOrDue(st, config, run + [step], k, |s.threads| + (j - s.sh.lo), j, s.sh.ses[j].pending)
    {
      StepTakenOrDue(st, config, run, step, k, |s.threads| + (j - s.sh.lo), j, s.sh.ses[j].pending);
    }
  }

  lemma AllTakenLasts(st: Settings, config: Config, run: seq<Step>, step: Step, k: nat)
    requires AllTaken(st, config, run, k)
    ensures AllTaken(st, config, run + [step], k)
  {
    hide Exec, TakenSince;
    assert (run + [step])[..k] == run[..k];
    var s := Exec(st, config, run[..k]).value;
    forall j | s.sh.lo <= j < |s.sh.ses| ensures TakenSince(st, config, run + [step], k, j, s.sh.ses[j].pending) {
      TakenLasts(st, config, run, step, k, j, s.sh.ses[j].pending);
    }
  }

  lemma BecomesDue(st: Settings, s: State, timedOut: bool, j: nat)
    requires s.sh.ctl.stopPc.StopDrain? && s.sh.lo <= j < |s.sh.ses|
    ensures Next(st, s, ShuttingDown(timedOut)).Some?
    ensures Due(Next(st, s, ShuttingDown(timedOut)).value, |s.threads| + (j - s.sh.lo), j, s.sh.ses[j].pending)
  {
    StartsDrainers(st, s.sh, timedOut);
    hide Shutdown;
  }

  lemma DueIsTakenOrDue(st: Settings, config: Config, run: seq<Step>, k: nat, p: nat, j: nat, batch: seq<Span>)
    requires Exec(st, config, run).Some? && Due(Exec(st, config, run).value, p, j, batch)
    ensures TakenOrDue(st, config, run, k, p, j, batch)
  {
    hide Due, TakenSince, Exec;
  }

  /** The turn itself: one goroutine is about to flush each current encoder. */
  lemma FlushStarts(st: Settings, config: Config, run: seq<Step>, timedOut: bool)
    requires Exec(st, config, run).Some? && Exec(st, config, run).value.sh.ctl.stopPc.StopDrain?
    requires Exec(st, config, run).value.sh.lo <= |Exec(st, config, run).value.sh.ses|
    ensures AllTakenOrDue(st, config, run + [ShuttingDown(timedOut)], |run|)
  {
    hide Exec, Next, Due, TakenOrDue;
    var s := Exec(st, config, run).value;
    var run' := run + [ShuttingDown(timedOut)];
    assert run'[..|run|] == run;
    ExecSnoc(st, config, run, ShuttingDown(timedOut));
    forall j | s.sh.lo <= j < |s.sh.ses|
      ensures TakenOrDue(st, config, run', |run|, |s.threads| + (j - s.sh.lo), j, s.sh.ses[j].pending)
    {
      BecomesDue(st, s, timedOut, j);
      DueIsTakenOrDue(st, config, run', |run|, |s.threads| + (j - s.sh.lo), j, s.sh.ses[j].pending);
    }
  }

  /** Once no goroutine of the flush is left, nothing is due any more. */
  lemma NothingIsDue(st: Settings, config: Config, run: seq<Step>, k: nat)
    requires AllTakenOrDue(st, config, run, k) && Exec(st, config, run).Some?
    requires forall pc <- Exec(st, config, run).value.threads :: !StillDraining(pc)
    ensures AllTaken(st, config, run, k)
  {
    hide Exec, TakenSince;
    var s := Exec(st, config, run[..k]).value;
    forall j | s.sh.lo <= j < |s.sh.ses| ensures TakenSince(st, config, run, k, j, s.sh.ses[j].pending) {
      var t, p := Exec(st, config, run).value, |s.threads| + (j - s.sh.lo);
      NotDue(t, p, j, s.sh.ses[j].pending);
    }
  }

  lemma NotDue(s: State, p: nat, j: nat, batch: seq<Span>)
    requires forall pc <- s.threads :: !StillDraining(pc)
    ensures !Due(s, p, j, batch)
  {
    assert p < |s.threads| ==> s.threads[p] in s.threads;
  }

  lemma DrainTurns(sh: Shared, timedOut: bool)
    requires DrainEncoder(sh, timedOut).Some?
    ensures var ctl' := DrainEncoder(sh, timedOut).value.0.ctl;
      && (ctl'.stopPc.StopDrained? ==> sh.ctl.stopPc.StopDrain?)
      && (PastFlush(ctl'.stopPc) ==>
            ctl'.draining == sh.ctl.draining && sh.ctl.stopPc.StopDrained? && sh.ctl.draining == 0)
  {
    hide Current;
  }

  lemma LaterTurns(sh: Shared)
    requires StopEncoder(sh).Some?
    ensures PastFlush(sh.ctl.stopPc)
    ensures var ctl' := StopEncoder(sh).value.0.ctl; !ctl'.stopPc.StopDrained? && ctl'.draining == sh.ctl.draining
  {
    hide FlagStop, SignalStop;
  }

  /** How a turn of Shutdown moves on around the flush. */
  lemma TurnsAroundFlush(st: Settings, sh: Shared, timedOut: bool)
    requires Shutdown(st, sh, timedOut).Some?
    ensures var ctl' := Shutdown(st, sh, timedOut).value.0.ctl;
      && (ctl'.stopPc.StopDrained? ==> sh.ctl.stopPc.StopDrain?)
      && (PastFlush(ctl'.stopPc) ==>
            && ctl'.draining == sh.ctl.draining
            && (PastFlush(sh.ctl.stopPc) || (sh.ctl.stopPc.StopDrained? && sh.ctl.draining == 0)))
  {
    hide DrainEncoder, StopEncoder;
    if DrainEncoder(sh, timedOut).Some? { DrainTurns(sh, timedOut); }
    if StopEncoder(sh).Some? { LaterTurns(sh); }
  }

  /** The others leave Shutdown where it is; the counter of a flush that is over stays zero. */
  lemma OthersAroundFlush(st: Settings, s: State, step: Step)
    requires DrainersCounted(s) && Next(st, s, step).Some? && !step.ShuttingDown?
    ensures var ctl' := Next(st, s, step).value.sh.ctl;
      ctl'.stopPc == s.sh.ctl.stopPc && (s.sh.ctl.draining == 0 ==> ctl'.draining == 0)
  {
    hide Act, Configure, Boot, Shutdown, Sum;
    match step
    case Thread(i, ch) =>
      if s.sh.ctl.draining == 0 { NobodyDrains(s); }
      assert s.threads[i] in s.threads;
      ThreadKeepsDrainers(st, s.sh, s.threads[i], ch);
    case Configuring => ConfigureSpawnsNoDrainer(st, s.sh);
    case Booting(ok) => BootSpawnsNoDrainer(st, s.sh, ok);
    case _ =>
  }

  lemma ShutdownKeepsHistory(st: Settings, config: Config, run: seq<Step>, timedOut: bool)
    requires Exec(st, config, run).Some? && FlushHistory(st, config, run, Exec(st, config, run).value)
    requires Next(st, Exec(st, config, run).value, ShuttingDown(timedOut)).Some?
    ensures FlushHistory(st, config, run + [ShuttingDown(timedOut)],
                         Next(st, Exec(st, config, run).value, ShuttingDown(timedOut)).value)
  {
    hide Exec, AllTaken, AllTakenOrDue, Shutdown, SharedInv, PcInv;
    var s := Exec(st, config, run).value;
    var s' := Next(st, s, ShuttingDown(timedOut)).value;
    var step := ShuttingDown(timedOut);
    TurnsAroundFlush(st, s.sh, timedOut);
    if s'.sh.ctl.stopPc.StopDrained? {
      ListIsBounded(st, config, run);
      FlushStarts(st, config, run, timedOut);
    }
    if PastFlush(s'.sh.ctl.stopPc) {
      if PastFlush(s.sh.ctl.stopPc) {
        var k: nat :| AllTaken(st, config, run, k);
        AllTakenLasts(st, config, run, step, k);
      } else {
        var k: nat :| AllTakenOrDue(st, config, run, k);
        RunDrainersCounted(st, config, run);
        NobodyDrains(s);
        NothingIsDue(st, config, run, k);
        AllTakenLasts(st, config, run, step, k);
      }
    }
  }

  lemma ListIsBounded(st: Settings, config: Config, run: seq<Step>)
    requires Exec(st, config, run).Some?
    ensures Exec(st, config, run).value.sh.lo <= |Exec(st, config, run).value.sh.ses|
  {
    RunKeepsInv(st, config, run);
  }

  lemma OthersKeepHistory(st: Settings, config: Config, run: seq<Step>, step: Step)
    requires Exec(st, config, run).Some? && FlushHistory(st, config, run, Exec(st, config, run).value)
    requires Next(st, Exec(st, config, run).value, step).Some? && !step.ShuttingDown?
    ensures FlushHistory(st, config, run + [step], Next(st, Exec(st, config, run).value, step).value)
  {
    hide Exec, AllTaken, AllTakenOrDue, Next;
    var s := Exec(st, config, run).value;
    RunDrainersCounted(st, config, run);
    OthersAroundFlush(st, s, step);
    if s.sh.ctl.stopPc.StopDrained? {
      var k: nat :| AllTakenOrDue(st, config, run, k);
      AllTakenOrDueLasts(st, config, run, step, k);
    }
    if PastFlush(s.sh.ctl.stopPc) {
      var k: nat :| AllTaken(st, config, run, k);
      AllTakenLasts(st, config, run, step, k);
    }
  }

  lemma {:induction false} RunKeepsHistory(st: Settings, config: Config, run: seq<Step>)
    requires Exec(st, config, run).Some?
    ensures FlushHistory(st, config, run, Exec(st, config, run).value)
  {
    hide FlushHistory, Next;
    if run == [] {
      assert FlushHistory(st, config, run, Init(config)) by { NoHistoryYet(st, config); }
    } else {
      var init, step := run[..|run| - 1], run[|run| - 1];
      assert run == init + [step];
      RunKeepsHistory(st, config, init);
      if step.ShuttingDown? { ShutdownKeepsHistory(st, config, init, step.timedOut); }
      else { OthersKeepHistory(st, config, init, step); }
    }
  }

  lemma NoHistoryYet(st: Settings, config: Config)
    ensures FlushHistory(st, config, [], Init(config))
  {
  }

  /**
   * Stop flushes every encoder before it stops one. In every run, once Shutdown is past the
   * flush, it has started it at some step, and each batch that was pending in a current
   * encoder then has been taken by a flush of that encoder since, which
   * reported all that was pending: as a record if the encoder still ran and the batch could be
   * encoded. No goroutine of the flush is still flushing or reporting.
   */
  lemma StopFlushesEveryEncoder(st: Settings, config: Config, run: seq<Step>)
    requires Exec(st, config, run).Some? && PastFlush(Exec(st, config, run).value.sh.ctl.stopPc)
    ensures exists k :: AllTaken(st, config, run, k)
    ensures forall pc <- Exec(st, config, run).value.threads :: !StillDraining(pc)
  {
    hide Exec, AllTaken;
    RunKeepsHistory(st, config, run);
    RunDrainersCounted(st, config, run);
    NobodyDrains(Exec(st, config, run).value);
  }

  /**
   * What Stop waits for. Before the flush, unless its wait times out, exactly for the input
   * queue and all batches in the hands of workers and of callers that have counted
   * them; after it, exactly for the goroutines that it started.
   */
  lemma StopWaitsExactly(st: Settings, config: Config, run: seq<Step>, timedOut: bool)
    requires Exec(st, config, run).Some?
    ensures var s := Exec(st, config, run).value;
      && (s.sh.ctl.stopPc.StopWait? ==>
            (Next(st, s, ShuttingDown(timedOut)).Some? <==>
              timedOut || (s.sh.queue == [] && forall pc <- s.threads :: Holds()(pc) == 0)))
      && (s.sh.ctl.stopPc.StopDrained? ==>
            (Next(st, s, ShuttingDown(timedOut)).Some? <==> forall pc <- s.threads :: !StillDraining(pc)))
  {
    hide Exec, Sum;
    var s := Exec(st, config, run).value;
    WaitGroupCountsBatches(st, config, run);
    RunDrainersCounted(st, config, run);
    if s.sh.wg == 0 { NobodyHolds(s); }
    if s.sh.ctl.draining == 0 { NobodyDrains(s); }
    if forall pc <- s.threads :: Holds()(pc) == 0 { SumZero(s.threads, Holds()); }
    if forall pc <- s.threads :: !StillDraining(pc) { SumZero(s.threads, DrainersLeft()); }
  }

  // ---------- the stop of the encoders ----------

  predicate PastStops(pc: StopPc) {
    pc.StopConfig? || pc.StopSignal? || pc.StopWorkers? || pc.StopClient? || pc.StopFinished?
  }

  /** Step k of the run is the turn of Stop after the flush. */
  ghost predicate StopsBegin(st: Settings, config: Config, run: seq<Step>, k: nat) {
    && k < |run| && run[k].ShuttingDown? && Exec(st, config, run[..k]).Some?
    && Exec(st, config, run[..k]).value.sh.ctl.stopPc.StopDrained?
  }

  /** Every encoder there was at that turn, in the current list or not, has been stopped. */
  ghost predicate StoppedSince(st: Settings, config: Config, run: seq<Step>, k: nat, ses: seq<Batcher>) {
    && StopsBegin(st, config, run, k)
    && StoppedFrom(ses, 0, |Exec(st, config, run[..k]).value.sh.ses|)
  }

  /** The stopping loop runs to the end of the list of that turn. */
  ghost predicate StoppingSince(st: Settings, config: Config, run: seq<Step>, k: nat, sh: Shared) {
    && StopsBegin(st, config, run, k)
    && sh.ctl.stopPc.StopEncoders? && sh.ctl.stopPc.end == |Exec(st, config, run[..k]).value.sh.ses| <= |sh.ses|
  }

  ghost predicate StopHistory(st: Settings, config: Config, run: seq<Step>, sh: Shared) {
    && (sh.ctl.stopPc.StopEncoders? ==> exists k :: StoppingSince(st, config, run, k, sh))
    && (PastStops(sh.ctl.stopPc) ==> exists k :: StoppedSince(st, config, run, k, sh.ses))
  }

  lemma NextEvolves(st: Settings, s: State, step: Step)
    requires Inv(st, s) && Next(st, s, step).Some?
    ensures EncodersEvolve(s.sh.ses, Next(st, s, step).value.sh.ses)
  {
    hide Act, Configure, Boot, Shutdown, SharedInv, PcInv;
    match step
    case Thread(i, ch) => ThreadStepOk(st, s.sh, s.threads[i], ch);
    case Configuring => ConfigureOk(st, s.sh);
    case Booting(ok) => BootOk(st, s.sh, ok);
    case ShuttingDown(timedOut) => ShutdownOk(st, s.sh, timedOut);
    case _ =>
  }

  lemma StoppedLasts(st: Settings, config: Config, run: seq<Step>, step: Step, k: nat, sh: Shared, sh': Shared)
    requires EncodersEvolve(sh.ses, sh'.ses)
    ensures StoppedSince(st, config, run, k, sh.ses) ==> StoppedSince(st, config, run + [step], k, sh'.ses)
    ensures StoppingSince(st, config, run, k, sh)
      && (sh'.ctl.stopPc.StopEncoders? && sh'.ctl.stopPc.end == sh.ctl.stopPc.end)
      ==> StoppingSince(st, config, run + [step], k, sh')
  {
    hide Exec;
    if k <= |run| { assert (run + [step])[..k] == run[..k]; }
  }

  /** The loop begins after the flush, goes on, or is over at the end of its list. */
  ghost predicate AroundStops(sh: Shared, sh': Shared) {
    var pc, pc' := sh.ctl.stopPc, sh'.ctl.stopPc;
    && (pc'.StopEncoders? ==>
          || (pc.StopDrained? && pc' == StopEncoders(sh.lo, |sh.ses|) && sh'.ses == sh.ses)
          || (pc.StopEncoders? && pc'.end == pc.end))
    && (PastStops(pc') ==> PastStops(pc) || (pc.StopEncoders? && (pc.next >= pc.end || pc.next >= |sh.ses|)))
  }

  lemma FlushAroundStops(sh: Shared, timedOut: bool)
    ensures DrainEncoder(sh, timedOut).Some? ==> AroundStops(sh, DrainEncoder(sh, timedOut).value.0)
  {
    hide Current;
  }

  lemma LoopAroundStops(sh: Shared)
    ensures StopEncoder(sh).Some? ==> AroundStops(sh, StopEncoder(sh).value.0)
  {
    hide FlagStop, SignalStop;
  }

  lemma TurnsAroundStops(st: Settings, sh: Shared, timedOut: bool)
    requires Shutdown(st, sh, timedOut).Some?
    ensures AroundStops(sh, Shutdown(st, sh, timedOut).value.0)
  {
    hide DrainEncoder, StopEncoder;
    FlushAroundStops(sh, timedOut);
    LoopAroundStops(sh);
  }

  lemma OthersLeaveStopPc(st: Settings, s: State, step: Step)
    requires DrainersCounted(s) && Next(st, s, step).Some? && !step.ShuttingDown?
    ensures Next(st, s, step).value.sh.ctl.stopPc == s.sh.ctl.stopPc
  {
    hide Next;
    OthersAroundFlush(st, s, step);
  }

  lemma LoopIsOver(st: Settings, config: Config, run: seq<Step>, k: nat, sh: Shared)
    requires StoppingSince(st, config, run, k, sh) && PassedAreStopped(sh)
    requires sh.ctl.stopPc.next >= sh.ctl.stopPc.end || sh.ctl.stopPc.next >= |sh.ses|
    ensures StoppedSince(st, config, run, k, sh.ses)
  {
    hide Exec;
  }

  lemma ShutdownKeepsStops(st: Settings, config: Config, run: seq<Step>, timedOut: bool)
    requires Exec(st, config, run).Some? && StopHistory(st, config, run, Exec(st, config, run).value.sh)
    requires Next(st, Exec(st, config, run).value, ShuttingDown(timedOut)).Some?
    ensures StopHistory(st, config, run + [ShuttingDown(timedOut)],
                        Next(st, Exec(st, config, run).value, ShuttingDown(timedOut)).value.sh)
  {
    hide Exec, StoppingSince, StoppedSince, Shutdown, Inv, EncodersEvolve, PassedAreStopped, SignalsInOrder;
    var s, step := Exec(st, config, run).value, ShuttingDown(timedOut);
    var s' := Next(st, s, step).value;
    RunKeepsInv(st, config, run);
    NextEvolves(st, s, step);
    TurnsAroundStops(st, s.sh, timedOut);
    ShutdownSignalsInOrder(st, config, run);
    if s.sh.ctl.stopPc.StopEncoders? {
      var k: nat :| StoppingSince(st, config, run, k, s.sh);
      if PastStops(s'.sh.ctl.stopPc) { LoopIsOver(st, config, run, k, s.sh); }
      StoppedLasts(st, config, run, step, k, s.sh, s'.sh);
    } else if PastStops(s.sh.ctl.stopPc) {
      var k: nat :| StoppedSince(st, config, run, k, s.sh.ses);
      StoppedLasts(st, config, run, step, k, s.sh, s'.sh);
    } else if s'.sh.ctl.stopPc.StopEncoders? {
      LoopBegins(st, config, run, timedOut);
    }
  }

  lemma LoopBegins(st: Settings, config: Config, run: seq<Step>, timedOut: bool)
    requires Exec(st, config, run).Some? && Exec(st, config, run).value.sh.ctl.stopPc.StopDrained?
    requires Next(st, Exec(st, config, run).value, ShuttingDown(timedOut)).Some?
    ensures StoppingSince(st, config, run + [ShuttingDown(timedOut)], |run|,
                          Next(st, Exec(st, config, run).value, ShuttingDown(timedOut)).value.sh)
  {
    hide Exec, Current;
    assert (run + [ShuttingDown(timedOut)])[..|run|] == run;
  }

  lemma OthersKeepStops(st: Settings, config: Config, run: seq<Step>, step: Step)
    requires Exec(st, config, run).Some? && StopHistory(st, config, run, Exec(st, config, run).value.sh)
    requires Next(st, Exec(st, config, run).value, step).Some? && !step.ShuttingDown?
    ensures StopHistory(st, config, run + [step], Next(st, Exec(st, config, run).value, step).value.sh)
  {
    hide Exec, StoppingSince, StoppedSince, Inv, EncodersEvolve, Next;
    var s := Exec(st, config, run).value;
    var s' := Next(st, s, step).value;
    RunKeepsInv(st, config, run);
    RunDrainersCounted(st, config, run);
    NextEvolves(st, s, step);
    OthersLeaveStopPc(st, s, step);
    if s.sh.ctl.stopPc.StopEncoders? {
      var k: nat :| StoppingSince(st, config, run, k, s.sh);
      StoppedLasts(st, config, run, step, k, s.sh, s'.sh);
    } else if PastStops(s.sh.ctl.stopPc) {
      var k: nat :| StoppedSince(st, config, run, k, s.sh.ses);
      StoppedLasts(st, config, run, step, k, s.sh, s'.sh);
    }
  }

  /**
   * Stop stops every encoder. In every run the stopping loop, once begun at some turn, runs to the
   * end of the list of that turn, and once Shutdown is past it all encoders there were
   * then are stopped, the replaced ones included.
   */
  lemma {:induction false} StopStopsEveryEncoder(st: Settings, config: Config, run: seq<Step>)
    requires Exec(st, config, run).Some?
    ensures StopHistory(st, config, run, Exec(st, config, run).value.sh)
  {
    hide StopHistory, Next;
    if run == [] {
      assert StopHistory(st, config, run, Init(config).sh) by { NoStopYet(st, config); }
    } else {
      var init, step := run[..|run| - 1], run[|run| - 1];
      assert run == init + [step];
      StopStopsEveryEncoder(st, config, init);
      if step.ShuttingDown? { ShutdownKeepsStops(st, config, init, step.timedOut); }
      else { OthersKeepStops(st, config, init, step); }
    }
  }

  lemma NoStopYet(st: Settings, config: Config)
    ensures StopHistory(st, config, [], Init(config).sh)
  {
  }

  // ---------- a graceful shutdown saves a pending span ----------

  /** The span is encoded and waits in its encoder for more, nothing else is under way, and nobody shuts down. */
  ghost predicate Waiting(st: Settings, s: State, k: nat, span: Span) {
    && s.sh.ctl == Control(false, false, 0, false, false, BootDone, NotStopping)
    && s.sh.wg == 0 && s.sh.requests == [] && s.sh.records == [] && s.sh.lo == 0
    && k < |s.sh.ses| && s.sh.ses[k].pending == [span] && !s.sh.ses[k].stopped
    && forall j | 0 <= j < |s.sh.ses| && j != k :: s.sh.ses[j].pending == []
  }

  /** The span's size alone does not fill a record. */
  predicate LeavesRoom(st: Settings, span: Span) {
    Encodable(st, span) && st.limits.codec.marshalSize(span).value % UINT_MODULUS < st.limits.maxRecordSize
  }

  lemma AppendedBatch(st: Settings, b: Batcher, span: Span)
    requires LeavesRoom(st, span) && b == NewBatcher(b.shard)
    ensures var (b', r) := AppendSection(st.limits, b, span, st.limits.codec.marshalSize(span).value);
      r == Appended(false) && b'.pending == [span] && !b'.stopped
  {
  }

  lemma ToWaiting(st: Settings, config: Config, span: Span) returns (s: State, k: nat)
    requires CanDeliver(st, config, span) && LeavesRoom(st, span)
    ensures Reached(st, Init(config), s) && Waiting(st, s, k, span)
  {
    hide Reached, FindShard, CurrentShards, NewConfig, Encodable, ShardIsPartOfConfig;
    var s0, crew, r := BootUp(st, config, span);
    var s1, c := ArriveOne(st, Init(config), s0, crew, span);
    var s2 := Enqueue(st, Init(config), s1, c, span);
    var queued := State(s2.sh.(queue := []), s2.threads);
    SameShards(s0.sh, queued.sh);
    var s3 := Append(st, Init(config), s2, crew, span, queued);
    k := crew.shard;
    AppendedBatch(st, s2.sh.ses[k], span);
    assert s3.threads[crew.worker] == Picking([]);
    assert forall j | 0 <= j < |s0.sh.ses| :: s0.sh.ses[j].pending == [];
    hide AppendSection, Idle;
    s := Go1(st, Init(config), s3, crew.worker, Go);
  }

  /** Shutdown takes its turns up to the start of the flush. */
  lemma ToFlush(st: Settings, from: State, s: State, k: nat, span: Span) returns (s': State)
    requires Reached(st, from, s) && Waiting(st, s, k, span)
    ensures Reached(st, from, s')
    ensures var n := |s.sh.ses|;
      && s'.sh == s.sh.(ctl := Control(true, false, n, true, false, BootDone, StopDrained))
      && s'.threads == s.threads + seq(n, i requires 0 <= i < n => Flushing(i, DrainReturns))
  {
    hide Reached;
    ReachNext(st, from, s, ShuttingDown(false));
    var s1 := Next(st, s, ShuttingDown(false)).value;
    assert s1.threads == s.threads;
    ReachNext(st, from, s1, ShuttingDown(false));
    var s2 := Next(st, s1, ShuttingDown(false)).value;
    assert s2.threads == s.threads;
    ReachNext(st, from, s2, ShuttingDown(false));
    var s3 := Next(st, s2, ShuttingDown(false)).value;
    assert s3.threads == s.threads;
    ReachNext(st, from, s3, ShuttingDown(false));
    s' := Next(st, s3, ShuttingDown(false)).value;
    assert Current(s3.sh) == s.sh.ses;
    var n := |s.sh.ses|;
    assert s'.threads[|s.threads|..] == seq(n, i requires 0 <= i < n => Flushing(i, DrainReturns));
  }

  /** The flush of an empty encoder ends. */
  lemma EmptyFlushEnds(st: Settings, from: State, s: State, p: nat, j: nat) returns (s': State)
    requires Reached(st, from, s) && p < |s.threads| && s.threads[p] == Flushing(j, DrainReturns)
    requires j < |s.sh.ses| && s.sh.ses[j].pending == []
    ensures Reached(st, from, s')
    ensures s' == State(s.sh.(ctl := s.sh.ctl.(draining := s.sh.ctl.draining - 1)), s.threads[p := DrainGone])
  {
    hide Reached;
    assert s.sh.ses[j := s.sh.ses[j]] == s.sh.ses;
    var s1 := Go1(st, from, s, p, Go);
    s' := Go1(st, from, s1, p, Go);
    assert s'.threads == s.threads[p := DrainGone];
  }

  /** Goroutines i up to n of the flush, which find their encoders empty, end one after the other. */
  lemma {:induction false} EmptyFlushesEnd(st: Settings, from: State, s: State, base: nat, i: nat, n: nat)
    returns (s': State)
    requires Reached(st, from, s) && i <= n <= |s.sh.ses| && base + n <= |s.threads|
    requires forall j | i <= j < n :: s.threads[base + j] == Flushing(j, DrainReturns) && s.sh.ses[j].pending == []
    ensures Reached(st, from, s')
    ensures s'.sh == s.sh.(ctl := s.sh.ctl.(draining := s.sh.ctl.draining - (n - i)))
    ensures |s'.threads| == |s.threads|
    ensures forall p | 0 <= p < |s.threads| ::
      s'.threads[p] == if base + i <= p < base + n then DrainGone else s.threads[p]
    decreases n - i
  {
    hide Reached;
    if i == n {
      s' := s;
    } else {
      var s1 := EmptyFlushEnds(st, from, s, base + i, i);
      s' := EmptyFlushesEnd(st, from, s1, base, i + 1, n);
    }
  }

  /** The one that finds the span makes a record of it and queues it for the server. */
  lemma FullFlushEnds(st: Settings, from: State, s: State, p: nat, k: nat, span: Span) returns (s': State)
    requires Reached(st, from, s) && Deliverable(st, span) && s.sh.requests == []
    requires p < |s.threads| && s.threads[p] == Flushing(k, DrainReturns)
    requires k < |s.sh.ses| && s.sh.ses[k].pending == [span] && !s.sh.ses[k].stopped
    ensures Reached(st, from, s')
    ensures s'.threads == s.threads[p := DrainGone]
    ensures s'.sh == s.sh.(ses := s.sh.ses[k := ClearAccumulated(s.sh.ses[k])],
                           requests := [RequestFor(st, span, s.sh.ses[k].shard)],
                           ctl := s.sh.ctl.(draining := s.sh.ctl.draining - 1))
  {
    hide Reached, Encodable;
    var s1 := FlushOne(st, from, s, p, k, DrainReturns, span);
    s' := Go1(st, from, s1, p, Go);
    assert s'.threads == s.threads[p := DrainGone];
  }

  lemma FlushEnds(st: Settings, from: State, s: State) returns (s': State)
    requires Reached(st, from, s) && s.sh.ctl.stopPc.StopDrained? && s.sh.ctl.draining == 0
    ensures Reached(st, from, s')
    ensures s'.sh == s.sh.(ctl := s.sh.ctl.(stopPc := StopEncoders(s.sh.lo, |s.sh.ses|)))
  {
    hide Reached;
    ReachNext(st, from, s, ShuttingDown(false));
    s' := Next(st, s, ShuttingDown(false)).value;
  }

  /** Goroutine j of the flush, which is thread base + j, is about to flush encoder j; only encoder k has something. */
  ghost predicate AllFlushing(s: State, base: nat, k: nat) {
    && base + |s.sh.ses| <= |s.threads| && k < |s.sh.ses|
    && (forall j | 0 <= j < |s.sh.ses| :: s.threads[base + j] == Flushing(j, DrainReturns))
    && forall j | 0 <= j < |s.sh.ses| && j != k :: s.sh.ses[j].pending == []
  }

  lemma AllFlushesEnd(st: Settings, from: State, s: State, base: nat, k: nat, span: Span) returns (s': State)
    requires Reached(st, from, s) && AllFlushing(s, base, k) && Deliverable(st, span) && s.sh.requests == []
    requires s.sh.ses[k].pending == [span] && !s.sh.ses[k].stopped
    ensures Reached(st, from, s')
    ensures s'.sh == s.sh.(ses := s.sh.ses[k := ClearAccumulated(s.sh.ses[k])],
                           requests := [RequestFor(st, span, s.sh.ses[k].shard)],
                           ctl := s.sh.ctl.(draining := s.sh.ctl.draining - |s.sh.ses|))
  {
    hide Reached, Encodable, RequestFor;
    var n := |s.sh.ses|;
    var s1 := EmptyFlushesEnd(st, from, s, base, 0, k);
    var s2 := FullFlushEnds(st, from, s1, base + k, k, span);
    hide Deliverable;
    s' := EmptyFlushesEnd(st, from, s2, base, k + 1, n);
  }

  /** The flush runs its course: the span is queued as a record, and Stop goes on to stop the encoders. */
  lemma FlushRuns(st: Settings, from: State, s: State, k: nat, span: Span) returns (s': State)
    requires Reached(st, from, s) && Waiting(st, s, k, span) && Deliverable(st, span)
    ensures Reached(st, from, s') && Saved(st, s, s', k, span)
  {
    hide Reached, Encodable, RequestFor;
    var s1 := ToFlush(st, from, s, k, span);
    var s2 := AllFlushesEnd(st, from, s1, |s.threads|, k, span);
    s' := FlushEnds(st, from, s2);
  }

  /**
   * A graceful shutdown saves what is pending: a span that waits in its encoder when Shutdown begins
   * can be in the client's queue, as a record for its shard, by the time the first encoder is
   * stopped, with nothing left pending and nothing dropped.
   */
  lemma ShutdownSendsWhatIsPending(st: Settings, config: Config, span: Span)
    returns (run: seq<Step>, run': seq<Step>, k: nat)
    requires CanDeliver(st, config, span) && LeavesRoom(st, span)
    ensures Exec(st, config, run).Some? && Waiting(st, Exec(st, config, run).value, k, span)
    ensures run <= run' && Exec(st, config, run').Some?
    ensures Saved(st, Exec(st, config, run).value, Exec(st, config, run').value, k, span)
  {
    hide Reached, FindShard, NewConfig, Encodable, Exec, RequestFor;
    var s;
    s, k := ToWaiting(st, config, span);
    run := RunTo(st, config, s);
    ReachSelf(st, s);
    var s' := FlushRuns(st, s, s, k, span);
    run' := RunOn(st, config, run, s');
  }

  ghost predicate Saved(st: Settings, s: State, t: State, k: nat, span: Span) {
    && Encodable(st, span) && k < |s.sh.ses|
    && t.sh.ctl.stopPc == StopEncoders(0, |s.sh.ses|)
    && t.sh.requests == [RequestFor(st, span, s.sh.ses[k].shard)] && t.sh.out == s.sh.out
    && forall b <- t.sh.ses :: b.pending == []
  }
}
