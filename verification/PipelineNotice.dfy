/**
 * Whether the exporter ever learns of the server's new configuration: only a
 * call for a shard that is no longer part of it brings it.
 */
module PipelineNotice {
  import opened Basics
  import opened ShardingConfig
  import opened Spans
  import opened ShardEncoding
  import opened Server
  import opened Exporting
  import opened ConfigMailbox
  import opened Pipeline
  import opened PipelineRouting
  import opened PipelineProgress
  import opened PipelineConfiguration
  import opened PipelineDelivery
  import opened PipelineDrain
  import opened PipelineConvergence
  import opened PipelineRecovery
  import opened PipelineCatchUp

  // ---------- nothing disagrees with the server ----------

  predicate Agrees(configs: seq<Config>, d: ShardDefinition) {
    ShardIsPartOfConfig(d, Latest(configs))
  }

  /** Whatever this thread sends, the server knows its shard. */
  predicate PcAgrees(configs: seq<Config>, pc: Pc) {
    && !pc.Mismatched?
    && (pc.Calling? && pc.cb.RecordReady? ==> Agrees(configs, pc.cb.shard.origin))
    && (pc.InFlight? ==> Agrees(configs, pc.req.exportRequest.shard))
    && (pc.Replied? ==> !MismatchReply(pc.reply))
  }

  ghost predicate SharedAgrees(sh: Shared) {
    && (forall b <- sh.ses :: b.stopped || Agrees(sh.configs, b.shard.origin))
    && (forall req <- sh.requests :: Agrees(sh.configs, req.exportRequest.shard))
    && sh.mail.request.None? && (sh.cfgPc.CfgWaiting? || sh.cfgPc.CfgGone?)
    && (sh.ctl.bootPc.BootDone? || sh.ctl.bootPc.BootFailed?)
  }

  /** Encoders that run, requests and calls are all for shards of the server's current configuration. */
  ghost predicate InAgreement(s: State) {
    SharedAgrees(s.sh) && forall pc <- s.threads :: PcAgrees(s.sh.configs, pc)
  }

  /** No configuration is handed to the encoder. */
  ghost predicate SetsNothing(sh: Shared, sh': Shared) {
    sh'.mail.sets == sh.mail.sets && sh'.configs == sh.configs
  }

  ghost predicate AgreesOn(sh: Shared, sh': Shared, pc': Pc) {
    SharedAgrees(sh') && PcAgrees(sh.configs, pc') && SetsNothing(sh, sh')
  }

  lemma FlushedAgrees(limits: Limits, b: Batcher)
    ensures var (b', cb) := FlushSection(limits, b);
      && b'.stopped == b.stopped && b'.shard == b.shard
      && (cb.Some? && cb.value.RecordReady? ==> !b.stopped && cb.value.shard == b.shard)
  {
  }

  /** Encoders keep their stop flags and shards; nothing else that agreement depends on changes. */
  ghost predicate OnlyBatches(sh: Shared, sh': Shared) {
    && |sh'.ses| == |sh.ses|
    && (forall j | 0 <= j < |sh.ses| ::
          sh'.ses[j].stopped == sh.ses[j].stopped && sh'.ses[j].shard == sh.ses[j].shard)
    && sh'.configs == sh.configs && sh'.requests == sh.requests && sh'.mail == sh.mail
    && sh'.cfgPc == sh.cfgPc && sh'.ctl.bootPc == sh.ctl.bootPc
  }

  lemma OnlyBatchesAgrees(sh: Shared, sh': Shared)
    requires SharedAgrees(sh) && OnlyBatches(sh, sh')
    ensures SharedAgrees(sh') && SetsNothing(sh, sh')
  {
    hide Agrees;
  }

  lemma WorkKeepsRequests(st: Settings, sh: Shared, pc: Pc, ch: Choice)
    requires (CallerPc(pc) || WorkerPc(pc)) && Act(st, sh, pc, ch).Some?
    ensures var (sh', pc') := Act(st, sh, pc, ch).value;
      sh'.requests == sh.requests && !pc'.Mismatched? && !pc'.InFlight? && !pc'.Replied?
        && (pc'.Calling? ==> pc'.cb.SpanProcessFail?)
  {
    hide AppendSection, TryEncode, FindShard, CurrentShards;
  }

  lemma WorkAgrees(st: Settings, sh: Shared, pc: Pc, ch: Choice)
    requires SharedAgrees(sh) && (CallerPc(pc) || WorkerPc(pc)) && Act(st, sh, pc, ch).Some?
    ensures var (sh', pc') := Act(st, sh, pc, ch).value; AgreesOn(sh, sh', pc')
  {
    WorkKeepsRequests(st, sh, pc, ch);
    ThreadFramed(st, sh, pc, ch);
    hide Act, SharedAgrees, Agrees, ReplyFrom;
    OnlyBatchesAgrees(sh, Act(st, sh, pc, ch).value.0);
  }

  lemma FlushAgrees(st: Settings, sh: Shared, pc: Pc, ch: Choice)
    requires SharedAgrees(sh) && PcAgrees(sh.configs, pc) && FlushAct(st, sh, pc, ch).Some?
    ensures var (sh', pc') := FlushAct(st, sh, pc, ch).value; AgreesOn(sh, sh', pc')
  {
    if pc.Flushing? { FlushedAgrees(st.limits, sh.ses[pc.se]); }
    hide FlushSection, OnSpanProcessFail, Agrees;
  }

  lemma SenderAgrees(st: Settings, sh: Shared, pc: Pc, ch: Choice)
    requires MismatchesAreEarly(st) && SharedAgrees(sh) && PcAgrees(sh.configs, pc) && SenderAct(st, sh, pc, ch).Some?
    ensures var (sh', pc') := SenderAct(st, sh, pc, ch).value; AgreesOn(sh, sh', pc')
  {
    hide OnReply, ResendSpans, SetConfig, ShardIsPartOfConfig;
  }

  lemma ThreadAgrees(st: Settings, sh: Shared, pc: Pc, ch: Choice)
    requires MismatchesAreEarly(st) && SharedAgrees(sh) && PcAgrees(sh.configs, pc) && Act(st, sh, pc, ch).Some?
    ensures var (sh', pc') := Act(st, sh, pc, ch).value; AgreesOn(sh, sh', pc')
  {
    hide SharedAgrees, PcAgrees, AgreesOn, CallerAct, WorkerAct, FlushAct, SenderAct, MismatchesAreEarly;
    if CallerPc(pc) || WorkerPc(pc) { WorkAgrees(st, sh, pc, ch); }
    else if FlushPc(pc) { FlushAgrees(st, sh, pc, ch); }
    else { SenderAgrees(st, sh, pc, ch); }
  }

  /** What is started sends nothing by itself, and encoders only stop. */
  ghost predicate SpawnAgrees(sh: Shared, r: Option<(Shared, seq<Pc>)>) {
    r.Some? ==>
      var (sh', started) := r.value;
      && SharedAgrees(sh') && SetsNothing(sh, sh')
      && forall pc <- started :: !pc.Mismatched? && !pc.Calling? && !pc.InFlight? && !pc.Replied?
  }

  lemma ConfigureAgrees(st: Settings, sh: Shared)
    requires SharedAgrees(sh)
    ensures SpawnAgrees(sh, Configure(st, sh))
  {
    hide NewConfig, Agrees;
  }

  lemma ShutdownAgrees(st: Settings, sh: Shared, timedOut: bool)
    requires SharedAgrees(sh) && Shutdown(st, sh, timedOut).Some?
    ensures SpawnAgrees(sh, Shutdown(st, sh, timedOut))
  {
    ShutdownSendsNothing(st, sh, timedOut);
    hide Shutdown, SharedAgrees, Agrees;
    StoppingAgrees(sh, Shutdown(st, sh, timedOut).value.0);
  }

  /** Encoders stop, and the stop is flagged to the mailbox. */
  ghost predicate OnlyStops(sh: Shared, sh': Shared) {
    && |sh'.ses| == |sh.ses|
    && (forall j | 0 <= j < |sh.ses| ::
          (sh.ses[j].stopped ==> sh'.ses[j].stopped) && sh'.ses[j].shard == sh.ses[j].shard)
    && sh'.configs == sh.configs && sh'.requests == sh.requests
    && sh'.mail.sets == sh.mail.sets && sh'.mail.request == sh.mail.request
    && sh'.cfgPc == sh.cfgPc && sh'.ctl.bootPc == sh.ctl.bootPc
  }

  lemma StoppingAgrees(sh: Shared, sh': Shared)
    requires SharedAgrees(sh) && OnlyStops(sh, sh')
    ensures SharedAgrees(sh') && SetsNothing(sh, sh')
  {
    hide Agrees;
  }

  ghost predicate SendsNothing(sh: Shared, r: Option<(Shared, seq<Pc>)>) {
    r.Some? ==>
      && OnlyStops(sh, r.value.0)
      && forall pc <- r.value.1 :: !pc.Mismatched? && !pc.Calling? && !pc.InFlight? && !pc.Replied?
  }

  lemma ShutdownSendsNothing(st: Settings, sh: Shared, timedOut: bool)
    ensures SendsNothing(sh, Shutdown(st, sh, timedOut))
  {
    hide DrainEncoder, StopEncoder;
    DrainSendsNothing(sh, timedOut);
    StopSendsNothing(sh);
  }

  lemma DrainSendsNothing(sh: Shared, timedOut: bool)
    ensures SendsNothing(sh, DrainEncoder(sh, timedOut))
  {
    hide Current;
  }

  lemma StopSendsNothing(sh: Shared)
    ensures SendsNothing(sh, StopEncoder(sh))
  {
  }

  lemma SpawnInAgreement(s: State, r: Option<(Shared, seq<Pc>)>)
    requires InAgreement(s) && SpawnAgrees(s.sh, r) && r.Some?
    ensures InAgreement(Spawn(s, r).value) && SetsNothing(s.sh, Spawn(s, r).value.sh)
  {
    hide SharedAgrees, Agrees;
  }

  lemma NextInAgreement(st: Settings, s: State, step: Step)
    requires MismatchesAreEarly(st) && InAgreement(s) && Next(st, s, step).Some? && !step.ServerConfigures?
    ensures InAgreement(Next(st, s, step).value) && SetsNothing(s.sh, Next(st, s, step).value.sh)
  {
    hide Act, Configure, Shutdown, SharedAgrees, SpawnAgrees, MismatchesAreEarly, Agrees;
    match step
    case Thread(i, ch) =>
      assert s.threads[i] in s.threads;
      ThreadAgrees(st, s.sh, s.threads[i], ch);
    case Configuring =>
      ConfigureAgrees(st, s.sh);
      SpawnInAgreement(s, Configure(st, s.sh));
    case Booting(ok) => BootIsOver(st, s, ok);
    case ShuttingDown(timedOut) =>
      ShutdownAgrees(st, s.sh, timedOut);
      SpawnInAgreement(s, Shutdown(st, s.sh, timedOut));
    case _ =>
  }

  lemma BootIsOver(st: Settings, s: State, ok: bool)
    requires InAgreement(s)
    ensures Boot(st, s.sh, ok).None?
  {
  }

  lemma {:induction false} StaysInAgreement(st: Settings, config: Config, run: seq<Step>, run': seq<Step>)
    requires MismatchesAreEarly(st) && run <= run' && KeepsConfigs(st, config, run, run')
    requires InAgreement(Exec(st, config, run).value)
    ensures InAgreement(Exec(st, config, run').value)
    ensures SetsNothing(Exec(st, config, run).value.sh, Exec(st, config, run').value.sh)
    decreases |run'|
  {
    hide Next, InAgreement, MismatchesAreEarly;
    if |run| < |run'| {
      var init := run'[..|run'| - 1];
      RunConfigsGrow(st, config, run, init);
      var s := Exec(st, config, init).value;
      ConfigsGrow(st, s, run'[|run'| - 1]);
      StaysInAgreement(st, config, run, init);
      NewConfigurationCounts(st, s, run'[|run'| - 1]);
      NextInAgreement(st, s, run'[|run'| - 1]);
    } else {
      assert run == run';
    }
  }

  lemma NewConfigurationCounts(st: Settings, s: State, step: Step)
    requires Next(st, s, step).Some?
    ensures step.ServerConfigures? ==> |Next(st, s, step).value.sh.configs| == |s.sh.configs| + 1
  {
  }

  // ---------- a new configuration is noticed exactly if ----------

  /** Encoder k is live, and its shard is not part of the server's current configuration. */
  predicate StaleEncoder(sh: Shared, k: nat) {
    sh.lo <= k < |sh.ses| && !Agrees(sh.configs, sh.ses[k].shard.origin)
  }

  /** With no work left and no stale encoder, nothing disagrees with the server. */
  lemma EmptyInAgreement(st: Settings, s: State)
    requires Inv(st, s) && Running(st, s) && !Unfinished(s) && NothingToApply(s.sh)
    requires forall k :: !StaleEncoder(s.sh, k)
    ensures InAgreement(s)
  {
    NothingWaits(s);
    forall pc | pc in s.threads ensures PcAgrees(s.sh.configs, pc) {
      var i :| 0 <= i < |s.threads| && s.threads[i] == pc;
      NobodyBusy(s, i);
    }
    forall b | b in s.sh.ses ensures b.stopped || Agrees(s.sh.configs, b.shard.origin) {
      var j :| 0 <= j < |s.sh.ses| && s.sh.ses[j] == b;
      assert !StaleEncoder(s.sh, j);
    }
  }

  /** In some continuation, with the server's configuration unchanged, a configuration is handed to the encoder. */
  ghost predicate CanNotice(st: Settings, config: Config, run: seq<Step>) {
    exists run' :: run <= run' && KeepsConfigs(st, config, run, run')
      && |Exec(st, config, run').value.sh.mail.sets| > |Exec(st, config, run).value.sh.mail.sets|
  }

  lemma StaleIsNoticed(st: Settings, config: Config, run: seq<Step>, k: nat, span: Span)
    requires Awaits(st, config, run, k, span) && StaleEncoder(Exec(st, config, run).value.sh, k)
    ensures CanNotice(st, config, run)
  {
    var s := Exec(st, config, run).value;
    var run1, i := SendsOne(st, config, run, k, span);
    StaleIsDoomed(st, s, Exec(st, config, run1).value, i, k, span);
    hide Running, NewConfig, Doomed, CurrentConfig, Exec;
    var run2 := TurnedAway(st, config, run1, i);
    assert run <= run2;
    assert KeepsConfigs(st, config, run, run2);
  }

  /** Nothing disagrees, so nothing is noticed. */
  lemma AgreementGoesUnnoticed(st: Settings, config: Config, run: seq<Step>)
    requires MismatchesAreEarly(st) && Exec(st, config, run).Some? && InAgreement(Exec(st, config, run).value)
    ensures !CanNotice(st, config, run)
  {
    hide InAgreement, MismatchesAreEarly, Exec;
    if CanNotice(st, config, run) {
      var run' :| run <= run' && KeepsConfigs(st, config, run, run')
        && |Exec(st, config, run').value.sh.mail.sets| > |Exec(st, config, run).value.sh.mail.sets|;
      StaysInAgreement(st, config, run, run');
      assert false;
    }
  }

  /**
   * A new configuration is noticed exactly when a live shard is missing from
   * it. Take an exporter at rest, with nothing left to do, whose encoders each have
   * some span. Whoever calls it from then on, it is handed the server's configuration
   * in some continuation if and only if one of its live encoders serves a shard that is not
   * part of that configuration.
   */
  lemma NewConfigurationIsNoticedExactly(st: Settings, config: Config, run: seq<Step>)
    requires MismatchesAreEarly(st) && Runs(st, config, run)
    requires var s := Exec(st, config, run).value;
      !Unfinished(s) && NothingToApply(s.sh) && AllRun(s.sh) && AllServable(st, s.sh.configs)
    ensures CanNotice(st, config, run) <==> exists k :: StaleEncoder(Exec(st, config, run).value.sh, k)
  {
    hide Running, MismatchesAreEarly, Unfinished, AllServable, InAgreement, Inv, Awaits, Exec;
    var s := Exec(st, config, run).value;
    if k :| StaleEncoder(s.sh, k) {
      var span := SpanFor(st, config, run, k);
      StaleIsNoticed(st, config, run, k, span);
    } else {
      RunKeepsInv(st, config, run);
      EmptyInAgreement(st, s);
      AgreementGoesUnnoticed(st, config, run);
    }
  }

  lemma LoopsAgree(st: Settings, config: Config, s: State, grown: Config)
    requires NewConfig(config).Ok? && forall d <- config :: ShardIsPartOfConfig(d, grown)
    requires s.sh.ses == Map(NewConfig(config).value, NewBatcher) && CurrentConfig(s.sh) == grown
    requires s.sh.requests == [] && s.sh.mail.request.None? && s.sh.cfgPc.CfgWaiting? && s.sh.ctl.bootPc.BootDone?
    requires forall pc <- s.threads :: pc.SenderLoop? || pc.RetryLoop? || pc.FlusherLoop? || pc.WorkerLoop?
    ensures InAgreement(s)
  {
    hide NewConfig, ShardIsPartOfConfig;
    forall b | b in s.sh.ses ensures Agrees(s.sh.configs, b.shard.origin) {
      var i :| 0 <= i < |s.sh.ses| && s.sh.ses[i] == b;
      NewShardsKnowOrigin(config, i);
    }
  }

  /**
   * A configuration that only adds shards goes unnoticed: once the exporter
   * runs with one configuration, and the server moves on to another that has all of its
   * definitions, the exporter keeps the encoders of the old one whoever calls it.
   */
  lemma GrowthGoesUnnoticed(st: Settings, config: Config, span: Span, grown: Config) returns (run: seq<Step>)
    requires MismatchesAreEarly(st) && CanDeliver(st, config, span)
    requires forall d <- config :: ShardIsPartOfConfig(d, grown)
    ensures Exec(st, config, run).Some?
    ensures var s := Exec(st, config, run).value;
      && Running(st, s) && Alive(s) && CurrentConfig(s.sh) == grown
      && CurrentShards(s.sh) == NewConfig(config).value
    ensures !CanNotice(st, config, run)
  {
    hide Reached, FindShard, NewConfig, Encodable, MismatchesAreEarly, ShardIsPartOfConfig, Exec;
    var s0, crew, r := BootUp(st, config, span);
    var s := Reconfigure(st, Init(config), s0, grown);
    run := RunTo(st, config, s);
    LoopsAgree(st, config, s, grown);
    AgreementGoesUnnoticed(st, config, run);
    assert CurrentShards(s.sh) == NewConfig(config).value;
  }
}
