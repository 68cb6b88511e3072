/**
 * Shutting down: the order of its signals, and when the drain wait of Stop is
 * the end of the matter.
 */
module PipelineShutdown {
  import opened Basics
  import opened ShardingConfig
  import opened Spans
  import opened ShardEncoding
  import opened Server
  import opened Exporting
  import opened ConfigMailbox
  import opened Pipeline
  import opened PipelineRouting
  import opened PipelineAccounting
  import opened PipelineHistory

  // ---------- the order of shutdown ----------

  /** Each signal is raised exactly once its turn in Shutdown has passed. */
  predicate SignalsInOrder(ctl: Control, mail: Mailbox) {
    var pc := ctl.stopPc;
    && ctl.exporterDone == !pc.NotStopping?
    && ctl.stopping == !(pc.NotStopping? || pc.StopFlag?)
    && mail.stopped == (pc.StopSignal? || pc.StopWorkers? || pc.StopClient? || pc.StopFinished?)
    && ctl.hardStop == (pc.StopClient? || pc.StopFinished?)
    && ctl.clientDone == pc.StopFinished?
  }

  /** Every encoder that the stopping loop has passed is stopped. */
  ghost predicate PassedAreStopped(sh: Shared) {
    sh.ctl.stopPc.StopEncoders? ==> StoppedFrom(sh.ses, 0, sh.ctl.stopPc.next)
  }

  ghost predicate ShutdownInOrder(sh: Shared) {
    SignalsInOrder(sh.ctl, sh.mail) && PassedAreStopped(sh)
  }

  /** Everybody but Shutdown keeps its progress and the flags; encoders only ever stop. */
  ghost predicate LeavesShutdown(sh: Shared, sh': Shared) {
    && sh'.ctl.(draining := 0, bootPc := BootConnecting) == sh.ctl.(draining := 0, bootPc := BootConnecting)
    && sh'.mail.stopped == sh.mail.stopped
    && EncodersEvolve(sh.ses, sh'.ses)
  }

  lemma ShutdownUndisturbed(sh: Shared, sh': Shared)
    requires ShutdownInOrder(sh) && LeavesShutdown(sh, sh')
    ensures ShutdownInOrder(sh')
  {
  }

  lemma ThreadLeavesShutdown(st: Settings, sh: Shared, pc: Pc, ch: Choice)
    requires SharedInv(st, sh) && PcInv(st, sh, pc) && Act(st, sh, pc, ch).Some?
    ensures LeavesShutdown(sh, Act(st, sh, pc, ch).value.0)
  {
    hide Act, SharedInv, PcInv, EncodersEvolve, ReplyFrom;
    ThreadStepOk(st, sh, pc, ch);
    ThreadFramed(st, sh, pc, ch);
  }

  lemma ConfigureLeavesShutdown(st: Settings, sh: Shared)
    requires SharedInv(st, sh) && Configure(st, sh).Some?
    ensures LeavesShutdown(sh, Configure(st, sh).value.0)
  {
    ConfigureOk(st, sh);
    hide SharedInv, EncodersEvolve, NewConfig;
  }

  lemma BootLeavesShutdown(st: Settings, sh: Shared, ok: bool)
    requires SharedInv(st, sh) && Boot(st, sh, ok).Some?
    ensures LeavesShutdown(sh, Boot(st, sh, ok).value.0)
  {
    BootOk(st, sh, ok);
    hide SharedInv, EncodersEvolve;
  }

  lemma StopsEncoders(st: Settings, sh: Shared, timedOut: bool)
    requires SharedInv(st, sh) && PassedAreStopped(sh) && Shutdown(st, sh, timedOut).Some?
    ensures PassedAreStopped(Shutdown(st, sh, timedOut).value.0)
  {
    assert StoppedFrom(sh.ses, 0, sh.lo);
    hide SharedInv, DrainEncoder, StopEncoder, StoppedFrom;
    if Draining(sh.ctl.stopPc) { DrainStopsEncoders(sh, timedOut); }
    else if StopEncoder(sh).Some? { LoopStopsEncoders(sh); }
  }

  lemma DrainStopsEncoders(sh: Shared, timedOut: bool)
    requires StoppedFrom(sh.ses, 0, sh.lo) && DrainEncoder(sh, timedOut).Some?
    ensures PassedAreStopped(DrainEncoder(sh, timedOut).value.0)
  {
    hide Current;
  }

  lemma LoopStopsEncoders(sh: Shared)
    requires PassedAreStopped(sh) && StopEncoder(sh).Some?
    ensures PassedAreStopped(StopEncoder(sh).value.0)
  {
    hide FlagStop, SignalStop;
  }

  lemma RaisesSignals(st: Settings, sh: Shared, timedOut: bool)
    requires SignalsInOrder(sh.ctl, sh.mail) && Shutdown(st, sh, timedOut).Some?
    ensures var sh' := Shutdown(st, sh, timedOut).value.0; SignalsInOrder(sh'.ctl, sh'.mail)
  {
    hide DrainEncoder, StopEncoder;
    if Draining(sh.ctl.stopPc) { DrainRaisesSignals(sh, timedOut); }
    else if StopEncoder(sh).Some? { StopRaisesSignals(sh); }
  }

  lemma DrainRaisesSignals(sh: Shared, timedOut: bool)
    requires SignalsInOrder(sh.ctl, sh.mail) && DrainEncoder(sh, timedOut).Some?
    ensures var sh' := DrainEncoder(sh, timedOut).value.0; SignalsInOrder(sh'.ctl, sh'.mail)
  {
    hide Current;
  }

  lemma StopRaisesSignals(sh: Shared)
    requires SignalsInOrder(sh.ctl, sh.mail) && StopEncoder(sh).Some?
    ensures var sh' := StopEncoder(sh).value.0; SignalsInOrder(sh'.ctl, sh'.mail)
  {
  }

  lemma NextKeepsShutdown(st: Settings, s: State, step: Step)
    requires Inv(st, s) && ShutdownInOrder(s.sh) && Next(st, s, step).Some?
    ensures ShutdownInOrder(Next(st, s, step).value.sh)
  {
    hide Act, Configure, Boot, Shutdown, ShutdownInOrder, LeavesShutdown, SharedInv, PcInv;
    match step
    case Thread(i, ch) =>
      ThreadLeavesShutdown(st, s.sh, s.threads[i], ch);
      ShutdownUndisturbed(s.sh, Next(st, s, step).value.sh);
    case Configuring =>
      ConfigureLeavesShutdown(st, s.sh);
      ShutdownUndisturbed(s.sh, Next(st, s, step).value.sh);
    case Booting(ok) =>
      BootLeavesShutdown(st, s.sh, ok);
      ShutdownUndisturbed(s.sh, Next(st, s, step).value.sh);
    case ShuttingDown(timedOut) => ShutdownKeepsOrder(st, s.sh, timedOut);
    case Arrive(_) =>
    case ServerConfigures(config) => ServerLeavesShutdown(s.sh, config);
  }

  lemma ShutdownKeepsOrder(st: Settings, sh: Shared, timedOut: bool)
    requires SharedInv(st, sh) && ShutdownInOrder(sh) && Shutdown(st, sh, timedOut).Some?
    ensures ShutdownInOrder(Shutdown(st, sh, timedOut).value.0)
  {
    hide Shutdown, SharedInv, SignalsInOrder, PassedAreStopped;
    StopsEncoders(st, sh, timedOut);
    RaisesSignals(st, sh, timedOut);
  }

  lemma ServerLeavesShutdown(sh: Shared, config: Config)
    requires ShutdownInOrder(sh)
    ensures ShutdownInOrder(sh.(configs := sh.configs + [config]))
  {
  }

  /**
   * In every run the signals of Shutdown go up in their order, each when its
   * turn has passed and not before: the retry goroutine's, the stopping flag,
   * the processor's stop, the workers' hard stop, the client's. The encoders passed by the
   * stopping loop are stopped.
   */
  lemma {:induction false} ShutdownSignalsInOrder(st: Settings, config: Config, run: seq<Step>)
    requires Exec(st, config, run).Some?
    ensures ShutdownInOrder(Exec(st, config, run).value.sh)
  {
    if run != [] {
      ShutdownSignalsInOrder(st, config, run[..|run| - 1]);
      RunKeepsInv(st, config, run[..|run| - 1]);
      NextKeepsShutdown(st, Exec(st, config, run[..|run| - 1]).value, run[|run| - 1]);
    }
  }

  // ---------- the drain wait of Stop ----------

  /** Stopping, nothing counted, and no caller between the stopping check and its count. */
  ghost predicate Quiesced(s: State) {
    s.sh.ctl.stopping && s.sh.wg == 0 && forall pc <- s.threads :: !pc.Counting?
  }

  /** A thread that holds no unit of the WaitGroup and is not about to take one. */
  ghost predicate StaysQuiet(sh: Shared, sh': Shared, pc': Pc) {
    sh'.ctl.stopping == sh.ctl.stopping && sh'.wg == sh.wg && !pc'.Counting?
  }

  lemma ThreadStaysQuiet(st: Settings, sh: Shared, pc: Pc, ch: Choice)
    requires sh.ctl.stopping && Holds()(pc) == 0 && !pc.Counting? && Act(st, sh, pc, ch).Some?
    ensures var (sh', pc') := Act(st, sh, pc, ch).value; StaysQuiet(sh, sh', pc')
  {
    hide OnReply, ResendSpans, SetConfig, FlushSection, OnSpanProcessFail, ShardIsPartOfConfig, CurrentConfig;
  }

  lemma SpawnStaysQuiet(s: State, r: Option<(Shared, seq<Pc>)>)
    requires Quiesced(s) && Apart(s.sh, r, 0) && r.Some? && r.value.0.ctl.stopping
    ensures Quiesced(Spawn(s, r).value)
  {
  }

  lemma NextStaysQuiet(st: Settings, s: State, step: Step)
    requires Quiesced(s) && Counted(s) && Next(st, s, step).Some?
    ensures Quiesced(Next(st, s, step).value)
  {
    hide Act, Shutdown, Apart, Spawn, NewConfig, CheckMailbox, SetConfig, CurrentConfig, Sum;
    match step
    case Thread(i, ch) =>
      assert s.threads[i] in s.threads;
      SumNonNegative(s.threads, Holds());
      SumAtLeast(s.threads, i, Holds());
      ThreadStaysQuiet(st, s.sh, s.threads[i], ch);
    case Configuring =>
      ConfigureApart(st, s.sh, 0);
      SpawnIsSome(s, Configure(st, s.sh));
      SpawnStaysQuiet(s, Configure(st, s.sh));
    case Booting(ok) =>
      BootApart(st, s.sh, ok, 0);
      SpawnIsSome(s, Boot(st, s.sh, ok));
      SpawnStaysQuiet(s, Boot(st, s.sh, ok));
    case ShuttingDown(timedOut) =>
      ShutdownApart(st, s.sh, timedOut, 0);
      SpawnIsSome(s, Shutdown(st, s.sh, timedOut));
      ShutdownKeepsStopping(st, s.sh, timedOut);
      SpawnStaysQuiet(s, Shutdown(st, s.sh, timedOut));
    case Arrive(batch) =>
    case ServerConfigures(config) =>
  }

  lemma {:induction false} RunStaysQuiet(st: Settings, config: Config, run: seq<Step>, more: seq<Step>)
    requires Exec(st, config, run).Some? && Quiesced(Exec(st, config, run).value)
    requires Exec(st, config, run + more).Some?
    ensures Quiesced(Exec(st, config, run + more).value)
  {
    hide Quiesced, Next;
    if more == [] {
      assert run + more == run;
    } else {
      var init := more[..|more| - 1];
      assert (run + more)[..|run + more| - 1] == run + init;
      RunStaysQuiet(st, config, run, init);
      WaitGroupCountsBatches(st, config, run + init);
      NextStaysQuiet(st, Exec(st, config, run + init).value, more[|more| - 1]);
    }
  }

  /** A caller past the stopping check enqueues its batch after the wait saw zero. */
  lemma LateCaller(st: Settings, config: Config, run: seq<Step>, i: nat) returns (more: seq<Step>)
    requires st.numWorkers >= 1 && Exec(st, config, run).Some?
    requires var s := Exec(st, config, run).value; s.sh.queue == [] && i < |s.threads| && s.threads[i].Counting?
    ensures Exec(st, config, run + more).Some?
    ensures var s := Exec(st, config, run).value;
      Exec(st, config, run + more).value.sh == s.sh.(queue := [s.threads[i].batch], wg := s.sh.wg + 1)
  {
    more := [Thread(i, Go), Thread(i, Go)];
    ExecSnoc(st, config, run, Thread(i, Go));
    ExecSnoc(st, config, run + [Thread(i, Go)], Thread(i, Go));
    assert run + more == run + [Thread(i, Go)] + [Thread(i, Go)];
  }

  /**
   * When the encoder is stopping and the drain wait sees zero, the input queue
   * stays empty for good exactly if no caller of EncodeSpans stands between
   * its stopping check and its count.
   */
  lemma DrainIsFinalExactly(st: Settings, config: Config, run: seq<Step>)
    requires st.numWorkers >= 1 && Exec(st, config, run).Some?
    requires var s := Exec(st, config, run).value; s.sh.ctl.stopping && s.sh.wg == 0
    ensures (forall more :: Exec(st, config, run + more).Some? ==> Exec(st, config, run + more).value.sh.queue == [])
       <==> (forall pc <- Exec(st, config, run).value.threads :: !pc.Counting?)
  {
    var s := Exec(st, config, run).value;
    if forall pc <- s.threads :: !pc.Counting? {
      forall more | Exec(st, config, run + more).Some? ensures Exec(st, config, run + more).value.sh.queue == [] {
        RunStaysQuiet(st, config, run, more);
        ZeroMeansDrained(st, config, run + more, 0);
      }
    } else {
      var i :| 0 <= i < |s.threads| && s.threads[i].Counting?;
      ZeroMeansDrained(st, config, run, 0);
      var more := LateCaller(st, config, run, i);
    }
  }

  /** Shutdown with nothing started takes its next turn. */
  lemma Turn(st: Settings, config: Config, s: State) returns (s': State)
    requires Reached(st, Init(config), s) && Shutdown(st, s.sh, false).Some? && Shutdown(st, s.sh, false).value.1 == []
    ensures Reached(st, Init(config), s') && s' == State(Shutdown(st, s.sh, false).value.0, s.threads)
  {
    hide Shutdown;
    ReachNext(st, Init(config), s, ShuttingDown(false));
    s' := Next(st, s, ShuttingDown(false)).value;
    assert s.threads + [] == s.threads;
  }

  /** Nothing counted, queued or encoding. */
  predicate Bare(sh: Shared) {
    sh.wg == 0 && sh.queue == [] && sh.ses == [] && sh.lo == 0 && sh.ctl.draining == 0
  }

  lemma ToDrained(st: Settings, config: Config, s: State) returns (s': State)
    requires Reached(st, Init(config), s) && Bare(s.sh) && s.sh.ctl.stopPc.NotStopping?
    ensures Reached(st, Init(config), s') && s'.threads == s.threads
    ensures s'.sh == s.sh.(ctl := s'.sh.ctl) && Bare(s'.sh) && s'.sh.ctl.stopPc == StopEncoders(0, 0)
      && s'.sh.ctl.stopping
  {
    hide Reached;
    var s1 := Turn(st, config, s);
    var s2 := Turn(st, config, s1);
    var s3 := Turn(st, config, s2);
    var s4 := Turn(st, config, s3);
    s' := Turn(st, config, s4);
  }

  lemma ToFinished(st: Settings, config: Config, s: State) returns (s': State)
    requires Reached(st, Init(config), s) && Bare(s.sh) && s.sh.ctl.stopPc == StopEncoders(0, 0) && s.sh.ctl.stopping
    ensures Reached(st, Init(config), s') && s'.threads == s.threads
    ensures s'.sh == s.sh.(ctl := s'.sh.ctl, mail := s'.sh.mail) && Bare(s'.sh)
    ensures s'.sh.ctl.stopPc.StopFinished? && s'.sh.ctl.stopping
  {
    hide Reached, FlagStop, SignalStop;
    var s1 := Turn(st, config, s);
    var s2 := Turn(st, config, s1);
    var s3 := Turn(st, config, s2);
    var s4 := Turn(st, config, s3);
    s' := Turn(st, config, s4);
  }

  /**
   * That does happen: for any settings with a worker and any batch there is a run in
   * which Shutdown has finished and its drain wait has seen zero, and a
   * continuation that leaves the batch, taken in without an error, in the queue.
   */
  lemma BatchStrandedAfterShutdown(st: Settings, config: Config, batch: seq<Span>)
    returns (run: seq<Step>, more: seq<Step>)
    requires st.numWorkers >= 1
    ensures Exec(st, config, run).Some? && Exec(st, config, run + more).Some?
    ensures var s := Exec(st, config, run).value;
      s.sh.ctl.stopPc.StopFinished? && s.sh.ctl.stopping && s.sh.wg == 0 && s.sh.admitted == batch
    ensures Exec(st, config, run + more).value.sh.queue == [batch]
  {
    hide Reached;
    ReachSelf(st, Init(config));
    ReachNext(st, Init(config), Init(config), Arrive(batch));
    var s1 := Next(st, Init(config), Arrive(batch)).value;
    ReachNext(st, Init(config), s1, Thread(0, Go));
    var s2 := Next(st, s1, Thread(0, Go)).value;
    assert s2.threads == [Counting(batch, false)] && s2.sh.admitted == batch;
    var s3 := ToDrained(st, config, s2);
    var s4 := ToFinished(st, config, s3);
    run := RunTo(st, config, s4);
    more := LateCaller(st, config, run, 0);
  }
}
