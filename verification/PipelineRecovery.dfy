/**
 * Which configurations of the server the exporter survives: a rejected or an
 * empty one can end delivery for good, and with all others it always recovers.
 */
module PipelineRecovery {
  import opened Basics
  import opened ShardingConfig
  import opened Spans
  import opened ShardEncoding
  import opened Server
  import opened Exporting
  import opened ConfigMailbox
  import opened Pipeline
  import opened PipelineRouting
  import opened PipelineProgress
  import opened PipelineConfiguration
  import opened PipelineShutdown
  import opened PipelineDelivery
  import opened PipelineDrain
  import opened PipelineConvergence

  // ---------- usable configurations ----------

  /** The configuration is accepted and has at least one shard. */
  predicate Usable(config: Config) {
    config != [] && NewConfig(config).Ok?
  }

  /** Started up and not shutting down. */
  predicate Up(s: State) {
    s.sh.ctl.stopPc.NotStopping? && s.sh.ctl.bootPc.BootDone?
  }

  // ---------- one judgement ----------

  /** Nothing but the configuration being judged could still bring a record, a delivery or a configuration. */
  ghost predicate OutOfReach(s: State) {
    s.sh.requests == [] && s.sh.mail.request.None? && forall pc <- s.threads :: Idles(pc)
  }

  lemma NewThreadsIdle(s: State, started: seq<Pc>)
    requires forall pc <- started :: Idles(pc)
    ensures (forall pc <- s.threads + started :: Idles(pc)) <==> forall pc <- s.threads :: Idles(pc)
  {
    assert forall pc <- s.threads :: pc in s.threads + started;
  }

  /** All encoders are stopped by now; those that the judgement adds are not. */
  lemma JudgedEncoders(st: Settings, sh: Shared)
    requires SharedInv(st, sh) && sh.cfgPc.CfgApplying?
    ensures var sh' := Configure(st, sh).value.0;
      (forall b <- sh'.ses :: b.stopped) <==> !Usable(sh.cfgPc.config)
  {
    hide MailboxInv, RequestsOk, RecordsOk, RetryOk, NewConfig, BatcherOk, Ascending;
    var sh' := Configure(st, sh).value.0;
    forall b | b in sh.ses ensures b.stopped {
      var j :| 0 <= j < |sh.ses| && sh.ses[j] == b;
    }
    if NewConfig(sh.cfgPc.config).Ok? {
      ShardsOfAccepted(sh.cfgPc.config);
      var shards := NewConfig(sh.cfgPc.config).value;
      if Usable(sh.cfgPc.config) {
        assert sh'.ses[|sh.ses|] == NewBatcher(shards[0]);
        assert sh'.ses[|sh.ses|] in sh'.ses;
      } else {
        assert Map(shards, NewBatcher) == [];
      }
    }
  }

  lemma JudgementFrame(st: Settings, s: State)
    requires s.sh.cfgPc.CfgApplying?
    ensures Next(st, s, Configuring).Some?
    ensures var s' := Next(st, s, Configuring).value;
      && s'.sh == Configure(st, s.sh).value.0 && s'.sh.cfgPc.CfgWaiting?
      && s'.sh.requests == s.sh.requests && s'.sh.mail == s.sh.mail && s'.sh.ctl == s.sh.ctl
      && s.threads <= s'.threads && forall pc <- s'.threads[|s.threads|..] :: Idles(pc)
  {
    hide NewConfig;
  }

  /**
   * Judging a configuration ends delivery for good exactly when it is
   * rejected or has no shard, and no request, reply or call under way
   * can bring another one. All old encoders have been stopped by then.
   */
  lemma JudgementIsDeadlyExactly(st: Settings, config: Config, run: seq<Step>)
    requires Exec(st, config, run).Some? && Up(Exec(st, config, run).value)
    requires Exec(st, config, run).value.sh.cfgPc.CfgApplying?
    ensures var s := Exec(st, config, run).value;
      && Next(st, s, Configuring).Some?
      && (Dead(Next(st, s, Configuring).value) <==> !Usable(s.sh.cfgPc.config) && OutOfReach(s))
  {
    var s := Exec(st, config, run).value;
    RunKeepsInv(st, config, run);
    JudgedEncoders(st, s.sh);
    JudgementFrame(st, s);
    hide Usable, Configure, Next, SharedInv, Exec;
    var s' := Next(st, s, Configuring).value;
    assert s'.threads == s.threads + s'.threads[|s.threads|..];
    NewThreadsIdle(s, s'.threads[|s.threads|..]);
  }

  // ---------- usable configurations keep the exporter alive ----------

  /** An up exporter has a configuration to apply, or encoders that run. */
  predicate Hopeful(sh: Shared) {
    sh.ctl.stopPc.NotStopping? && sh.ctl.bootPc.BootDone? ==>
      sh.mail.request.Some? || sh.cfgPc.CfgStopping? || sh.cfgPc.CfgApplying? || Live(sh, sh.lo)
  }

  ghost predicate AllUsable(configs: seq<Config>) {
    forall c <- configs :: Usable(c)
  }

  lemma ThreadHopeful(st: Settings, sh: Shared, pc: Pc, ch: Choice)
    requires PcFrom(sh.configs, pc) && Hopeful(sh) && Act(st, sh, pc, ch).Some?
    ensures Hopeful(Act(st, sh, pc, ch).value.0)
  {
    hide Act, ReplyFrom;
    ThreadFramed(st, sh, pc, ch);
  }

  lemma ConfigureHopeful(st: Settings, sh: Shared)
    requires sh.lo <= |sh.ses| && !sh.mail.stopped && Hopeful(sh) && Configure(st, sh).Some?
    requires sh.cfgPc.CfgApplying? ==> Usable(sh.cfgPc.config)
    ensures Hopeful(Configure(st, sh).value.0)
  {
    hide NewConfig;
    if sh.cfgPc.CfgApplying? { ShardsOfAccepted(sh.cfgPc.config); }
  }

  lemma BootHopeful(st: Settings, sh: Shared, ok: bool)
    requires Hopeful(sh) && Boot(st, sh, ok).Some?
    ensures Hopeful(Boot(st, sh, ok).value.0)
  {
    hide CurrentConfig;
  }

  /** What is applied is one of the server's configurations, and before shutdown the processor is not told to stop. */
  lemma WhatIsApplied(st: Settings, config: Config, run: seq<Step>)
    requires MismatchesAreEarly(st) && Exec(st, config, run).Some?
    ensures var sh := Exec(st, config, run).value.sh;
      && sh.lo <= |sh.ses|
      && (sh.ctl.stopPc.NotStopping? ==> !sh.mail.stopped)
      && (sh.cfgPc.CfgStopping? || sh.cfgPc.CfgApplying? ==> sh.cfgPc.config in sh.configs)
    ensures AllFrom(Exec(st, config, run).value)
  {
    RunKeepsInv(st, config, run);
    ShutdownSignalsInOrder(st, config, run);
    ConfigurationsComeFromServer(st, config, run);
  }

  lemma NextHopeful(st: Settings, s: State, step: Step)
    requires AllFrom(s) && AllUsable(s.sh.configs) && Hopeful(s.sh) && Next(st, s, step).Some?
    requires s.sh.lo <= |s.sh.ses| && (s.sh.ctl.stopPc.NotStopping? ==> !s.sh.mail.stopped)
    ensures Hopeful(Next(st, s, step).value.sh)
  {
    hide Act, Configure, Boot, Shutdown, Usable;
    match step
    case Thread(i, ch) =>
      assert s.threads[i] in s.threads;
      ThreadHopeful(st, s.sh, s.threads[i], ch);
    case Configuring =>
      if s.sh.ctl.stopPc.NotStopping? { ConfigureHopeful(st, s.sh); } else { ConfigureOnly(st, s); }
    case Booting(ok) => BootHopeful(st, s.sh, ok);
    case ShuttingDown(timedOut) => ShutdownTogether(st, s.sh, timedOut);
    case Arrive(_) =>
    case ServerConfigures(_) =>
  }

  lemma ConfigsGrow(st: Settings, s: State, step: Step)
    requires Next(st, s, step).Some?
    ensures s.sh.configs <= Next(st, s, step).value.sh.configs
  {
    hide Act, Configure, Boot, Shutdown;
    match step
    case Thread(i, ch) =>
      ThreadFramed(st, s.sh, s.threads[i], ch);
      hide ReplyFrom;
    case Configuring => ConfigureOnly(st, s);
    case Booting(ok) => BootKeepsConfigs(st, s.sh, ok);
    case ShuttingDown(timedOut) =>
      DrainStopsOnly(s.sh, timedOut);
      StopEncoderStopsOnly(s.sh);
      ShutdownKeepsConfigs(st, s.sh, timedOut);
    case _ =>
  }

  lemma {:induction false} RunConfigsGrow(st: Settings, config: Config, run: seq<Step>, run': seq<Step>)
    requires Exec(st, config, run).Some? && Exec(st, config, run').Some? && run <= run'
    ensures Exec(st, config, run).value.sh.configs <= Exec(st, config, run').value.sh.configs
    decreases |run'|
  {
    hide Next;
    if |run| < |run'| {
      var init := run'[..|run'| - 1];
      RunConfigsGrow(st, config, run, init);
      ConfigsGrow(st, Exec(st, config, init).value, run'[|run'| - 1]);
    } else {
      assert run == run';
    }
  }

  lemma BootKeepsConfigs(st: Settings, sh: Shared, ok: bool)
    requires Boot(st, sh, ok).Some?
    ensures Boot(st, sh, ok).value.0.configs == sh.configs
  {
    hide SetConfig, CurrentConfig;
  }

  lemma ShutdownKeepsConfigs(st: Settings, sh: Shared, timedOut: bool)
    requires StopsOnly(sh, DrainEncoder(sh, timedOut)) && StopsOnly(sh, StopEncoder(sh))
      && Shutdown(st, sh, timedOut).Some?
    ensures Shutdown(st, sh, timedOut).value.0.configs == sh.configs
  {
    hide DrainEncoder, StopEncoder;
  }

  lemma {:induction false} RunHopeful(st: Settings, config: Config, run: seq<Step>)
    requires MismatchesAreEarly(st) && Exec(st, config, run).Some?
    requires AllUsable(Exec(st, config, run).value.sh.configs)
    ensures Hopeful(Exec(st, config, run).value.sh)
  {
    hide Next, Usable, AllFrom, MismatchesAreEarly;
    if run != [] {
      var init := run[..|run| - 1];
      var s := Exec(st, config, init).value;
      ConfigsGrow(st, s, run[|run| - 1]);
      RunHopeful(st, config, init);
      WhatIsApplied(st, config, init);
      NextHopeful(st, s, run[|run| - 1]);
    }
  }

  lemma HopefulIsNotDead(s: State)
    requires Up(s) && Hopeful(s.sh)
    ensures !Dead(s)
  {
    if Live(s.sh, s.sh.lo) { assert s.sh.ses[s.sh.lo] in s.sh.ses; }
  }

  // ---------- an unusable first configuration ----------

  /** Started up with nothing but the loops of the senders, the retry goroutine and perhaps the workers. */
  ghost predicate AtLoops(s: State) {
    && s.sh.ses == [] && s.sh.queue == [] && s.sh.requests == [] && s.sh.out == Outbox([], [], [], [])
    && s.sh.admitted == []
    && forall pc <- s.threads :: pc.SenderLoop? || pc.RetryLoop? || pc.WorkerLoop?
  }

  lemma LoopsAreEmpty(s: State)
    requires AtLoops(s)
    ensures Empty(s) && forall pc <- s.threads :: Idles(pc)
  {
    forall x ensures Settled(s.sh.out, x) == Count(s.sh.admitted, x) { }
  }

  /** Startup with this configuration, up to its judgement. */
  lemma FirstJudgement(st: Settings, config: Config) returns (s: State)
    ensures Reached(st, Init(config), s) && AtLoops(s) && Up(s)
    ensures s.sh.cfgPc == CfgApplying(config) && s.sh.mail.request.None? && s.sh.configs == [config]
  {
    hide Reached, NewConfig;
    var s1 := Boot1(st, config);
    ReachNext(st, Init(config), s1, Configuring);
    var s2 := Next(st, s1, Configuring).value;
    assert s2.sh.cfgPc == CfgStopping(config, 0) && s2.threads == s1.threads;
    ReachNext(st, Init(config), s2, Configuring);
    s := Next(st, s2, Configuring).value;
    assert s.threads == s1.threads;
  }

  /** Nothing is live afterwards; an empty configuration, being accepted, starts the workers. */
  lemma JudgesUnusable(st: Settings, s: State)
    requires AtLoops(s) && s.sh.cfgPc.CfgApplying? && !Usable(s.sh.cfgPc.config)
    ensures var s' := Next(st, s, Configuring).value;
      AtLoops(s') && s'.sh.cfgPc.CfgWaiting? && (s.sh.cfgPc.config == [] ==> s'.sh.workersStarted)
  {
    EmptyIsAccepted();
    hide NewConfig;
  }

  lemma EmptyIsAccepted()
    ensures NewConfig([]) == Ok([])
  {
    NewConfigAcceptsExactly([]);
    ShardsOfAccepted([]);
  }

  /**
   * Startup with an unusable configuration leaves the exporter up and dead, and
   * the server's next configuration, however good, changes nothing. The empty
   * configuration, which is the mock server's first, is accepted, so that the
   * exporter is then even running.
   */
  lemma UnusableFirstEndsDelivery(st: Settings, bad: Config, good: Config) returns (run: seq<Step>)
    requires !Usable(bad)
    ensures Exec(st, bad, run).Some?
    ensures var s := Exec(st, bad, run).value;
      && Up(s) && Dead(s) && Empty(s) && s.sh.configs == [bad, good]
      && (bad == [] && st.numWorkers >= 1 && st.sendConcurrency >= 1 ==> Running(st, s))
    ensures NothingMore(st, bad, run)
  {
    var s := FirstJudgement(st, bad);
    JudgementFrame(st, s);
    JudgesUnusable(st, s);
    hide Reached, Usable, Exec, Empty, AtLoops;
    ReachNext(st, Init(bad), s, Configuring);
    var s1 := Next(st, s, Configuring).value;
    var s2 := Reconfigure(st, Init(bad), s1, good);
    assert AtLoops(s2) by { SameLoops(s1, s2); }
    LoopsAreEmpty(s2);
    run := RunTo(st, bad, s2);
    NothingMoreOnceDead(st, bad, run);
  }

  lemma SameLoops(s: State, t: State)
    requires AtLoops(s) && t == State(s.sh.(configs := t.sh.configs), s.threads)
    ensures AtLoops(t) && t.sh.ses == []
  {
  }

  /** In no continuation is anything recorded or delivered. */
  ghost predicate NothingMore(st: Settings, config: Config, run: seq<Step>) {
    forall more :: Exec(st, config, run).Some? && Exec(st, config, run + more).Some? ==>
      SameResults(Exec(st, config, run).value.sh, Exec(st, config, run + more).value.sh)
  }

  lemma NothingMoreOnceDead(st: Settings, config: Config, run: seq<Step>)
    requires Exec(st, config, run).Some? && Dead(Exec(st, config, run).value)
    ensures NothingMore(st, config, run)
  {
    hide Exec, SameResults, Dead;
    forall more | Exec(st, config, run + more).Some?
      ensures SameResults(Exec(st, config, run).value.sh, Exec(st, config, run + more).value.sh)
    {
      DeadForGood(st, config, run, more);
    }
  }

  /** The run leads to an exporter that is up, and the server took its configurations from this set. */
  ghost predicate UpWithin(st: Settings, allowed: iset<Config>, config: Config, run: seq<Step>) {
    && Exec(st, config, run).Some? && Up(Exec(st, config, run).value)
    && forall c <- Exec(st, config, run).value.sh.configs :: c in allowed
  }

  /**
   * Which configurations the exporter survives. With a server that reports
   * mismatches before it records, and takes its configurations from a given set, no run
   * ends delivery for good if and only if each of them is accepted and has a shard.
   */
  lemma NeverDeadExactlyIfUsable(st: Settings, allowed: iset<Config>)
    requires MismatchesAreEarly(st)
    ensures (forall c <- allowed :: Usable(c)) <==>
      forall config, run :: UpWithin(st, allowed, config, run) ==> !Dead(Exec(st, config, run).value)
  {
    hide Exec, Usable, Up, Dead, MismatchesAreEarly;
    if forall c <- allowed :: Usable(c) {
      forall config, run | UpWithin(st, allowed, config, run)
        ensures !Dead(Exec(st, config, run).value)
      {
        RunHopeful(st, config, run);
        HopefulIsNotDead(Exec(st, config, run).value);
      }
    } else {
      var bad :| bad in allowed && !Usable(bad);
      var run := UnusableFirstEndsDelivery(st, bad, bad);
      assert UpWithin(st, allowed, bad, run);
    }
  }

  // ---------- workers need an accepted configuration ----------

  ghost predicate StartedByAccepted(sh: Shared) {
    sh.workersStarted ==> exists c <- sh.configs :: NewConfig(c).Ok?
  }

  lemma AcceptedStays(sh: Shared, sh': Shared)
    requires StartedByAccepted(sh) && sh'.workersStarted == sh.workersStarted && sh.configs <= sh'.configs
    ensures StartedByAccepted(sh')
  {
    hide NewConfig;
  }

  lemma ConfigureStarts(st: Settings, sh: Shared)
    requires Configure(st, sh).Some?
    ensures var sh' := Configure(st, sh).value.0;
      sh'.workersStarted ==> sh.workersStarted || (sh.cfgPc.CfgApplying? && NewConfig(sh.cfgPc.config).Ok?)
  {
    hide NewConfig, CheckMailbox;
  }

  lemma OthersStartNobody(st: Settings, s: State, step: Step)
    requires Next(st, s, step).Some? && !step.Configuring?
    ensures Next(st, s, step).value.sh.workersStarted == s.sh.workersStarted
  {
    hide Act, SetConfig, CurrentConfig;
    match step
    case Thread(i, ch) =>
      ThreadFramed(st, s.sh, s.threads[i], ch);
      hide ReplyFrom;
    case ShuttingDown(timedOut) =>
      DrainKeepsStaff(s.sh, timedOut);
      hide DrainEncoder, FlagStop, SignalStop;
    case _ =>
  }

  /** An exporter is only running, in the sense of having workers, after some accepted configuration of the server. */
  lemma {:induction false} RunningMeansAccepted(st: Settings, config: Config, run: seq<Step>)
    requires MismatchesAreEarly(st) && Exec(st, config, run).Some?
    ensures StartedByAccepted(Exec(st, config, run).value.sh)
  {
    hide Next, MismatchesAreEarly, AllFrom, NewConfig;
    if run != [] {
      var init, step := run[..|run| - 1], run[|run| - 1];
      var s := Exec(st, config, init).value;
      RunningMeansAccepted(st, config, init);
      ConfigsGrow(st, s, step);
      if step.Configuring? {
        WhatIsApplied(st, config, init);
        ConfigureStep(st, s);
        ConfigureStarts(st, s.sh);
      } else {
        OthersStartNobody(st, s, step);
        AcceptedStays(s.sh, Exec(st, config, run).value.sh);
      }
    }
  }

  lemma ConfigureStep(st: Settings, s: State)
    requires Next(st, s, Configuring).Some?
    ensures Configure(st, s.sh).Some? && Next(st, s, Configuring).value.sh == Configure(st, s.sh).value.0
  {
    hide Configure;
  }

  // ---------- recovery ----------

  /**
   * With usable configurations only the good end is left: whatever has happened
   * so far, the exporter and the server by themselves get to a state with no work left,
   * every span taken in settled, and live encoders.
   */
  lemma Recovers(st: Settings, config: Config, run: seq<Step>, ok: Reply) returns (run': seq<Step>)
    requires MismatchesAreEarly(st) && Exec(st, config, run).Some? && Running(st, Exec(st, config, run).value)
    requires AllUsable(Exec(st, config, run).value.sh.configs)
    requires st.mayReply(ok) && Settling(ok)
    ensures Continues(st, config, run, run')
    ensures var s, t := Exec(st, config, run).value, Exec(st, config, run').value;
      && Running(st, t) && t.sh.configs == s.sh.configs
      && Empty(t) && t.sh.cfgPc.CfgWaiting? && Alive(t) && !Dead(t)
  {
    var s := Exec(st, config, run).value;
    CurrentIsUsable(st, config, run);
    hide NewConfig, Settling, MismatchesAreEarly, Exec;
    run' := ConvergesOrDies(st, config, run, ok);
    RunHopeful(st, config, run');
    assert !Dead(Exec(st, config, run').value) by { HopefulIsNotDead(Exec(st, config, run').value); }
  }

  lemma CurrentIsUsable(st: Settings, config: Config, run: seq<Step>)
    requires Exec(st, config, run).Some? && AllUsable(Exec(st, config, run).value.sh.configs)
    ensures Usable(CurrentConfig(Exec(st, config, run).value.sh))
  {
    RunKeepsInv(st, config, run);
  }
}
