/** Configuration changes over whole runs: they are coalesced, and no wakeup is lost. */
module PipelineConfiguration {
  import opened Basics
  import opened ShardingConfig
  import opened Spans
  import opened ShardEncoding
  import opened Server
  import opened Exporting
  import opened ConfigMailbox
  import opened Pipeline
  import opened PipelineRouting

  /** The stop signal is outstanding only while Stop is about to send it. */
  predicate SignalOnItsWay(sh: Shared) {
    sh.mail.signalDue ==> sh.ctl.stopPc.StopSignal?
  }

  lemma ThreadKeepsSignal(st: Settings, sh: Shared, pc: Pc, ch: Choice)
    requires SignalOnItsWay(sh) && Act(st, sh, pc, ch).Some?
    ensures SignalOnItsWay(Act(st, sh, pc, ch).value.0)
  {
    hide Act, ReplyFrom;
    ThreadFramed(st, sh, pc, ch);
  }

  lemma ShutdownKeepsSignal(st: Settings, sh: Shared, timedOut: bool)
    requires SignalOnItsWay(sh) && Shutdown(st, sh, timedOut).Some?
    ensures SignalOnItsWay(Shutdown(st, sh, timedOut).value.0)
  {
    hide Current;
  }

  lemma NextKeepsSignal(st: Settings, s: State, step: Step)
    requires SignalOnItsWay(s.sh) && Next(st, s, step).Some?
    ensures SignalOnItsWay(Next(st, s, step).value.sh)
  {
    hide Act, Shutdown, NewConfig, CurrentConfig, SignalOnItsWay;
    match step
    case Thread(i, ch) => ThreadKeepsSignal(st, s.sh, s.threads[i], ch);
    case ShuttingDown(timedOut) => ShutdownKeepsSignal(st, s.sh, timedOut);
    case Configuring => SameSignal(s.sh, Next(st, s, step).value.sh);
    case Booting(_) => SameSignal(s.sh, Next(st, s, step).value.sh);
    case _ => SameSignal(s.sh, Next(st, s, step).value.sh);
  }

  lemma SameSignal(sh: Shared, sh': Shared)
    requires SignalOnItsWay(sh) && sh'.mail.signalDue == sh.mail.signalDue && sh'.ctl.stopPc == sh.ctl.stopPc
    ensures SignalOnItsWay(sh')
  {
  }

  lemma {:induction false} RunKeepsSignal(st: Settings, config: Config, run: seq<Step>)
    requires Exec(st, config, run).Some?
    ensures SignalOnItsWay(Exec(st, config, run).value.sh)
  {
    if run != [] {
      RunKeepsSignal(st, config, run[..|run| - 1]);
      NextKeepsSignal(st, Exec(st, config, run[..|run| - 1]).value, run[|run| - 1]);
    }
  }

  /**
   * In every run the configurations taken are non-nil calls of SetConfig in
   * call order, and with nothing pending the newest call has been taken or was
   * nil. While a request or a stop is outstanding the processor can act, unless it is
   * gone or Stop is just about to signal it.
   */
  lemma NoWakeupIsLost(st: Settings, config: Config, run: seq<Step>)
    requires Exec(st, config, run).Some?
    ensures var sh := Exec(st, config, run).value.sh;
      && Increasing(sh.mail.taken)
      && (forall k <- sh.mail.taken :: k < |sh.mail.sets| && sh.mail.sets[k].Some?)
      && (sh.mail.request.None? && sh.mail.sets != [] && sh.mail.sets[|sh.mail.sets| - 1].Some? ==>
        NewestTaken(sh.mail))
      && (sh.mail.request.Some? || sh.mail.stopped ==>
            Configure(st, sh).Some? || sh.cfgPc.CfgGone? || sh.ctl.stopPc.StopSignal?)
  {
    hide Increasing;
    RunKeepsInv(st, config, run);
    RunKeepsSignal(st, config, run);
  }

  // ---------- lost configurations ----------

  /** The mailbox only grows; what is taken is the newest call, and nothing is taken once stopped. */
  ghost predicate MailAdvances(m: Mailbox, m': Mailbox) {
    && m.sets <= m'.sets && m.taken <= m'.taken
    && (m.stopped ==> m'.stopped && m'.taken == m.taken)
    && forall k <- m'.taken :: k in m.taken || k == |m.sets| - 1
  }

  predicate GoneOnlyIfStopped(sh: Shared) {
    sh.cfgPc.CfgGone? ==> sh.mail.stopped
  }

  lemma ThreadMail(st: Settings, sh: Shared, pc: Pc, ch: Choice)
    requires Act(st, sh, pc, ch).Some?
    ensures var sh' := Act(st, sh, pc, ch).value.0; MailAdvances(sh.mail, sh'.mail) && sh'.cfgPc == sh.cfgPc
  {
    hide Act, ReplyFrom;
    ThreadFramed(st, sh, pc, ch);
  }

  lemma ConfigureMail(st: Settings, sh: Shared)
    requires MailboxInv(sh.mail) && GoneOnlyIfStopped(sh) && Configure(st, sh).Some?
    ensures var sh' := Configure(st, sh).value.0; MailAdvances(sh.mail, sh'.mail) && GoneOnlyIfStopped(sh')
  {
    hide NewConfig;
  }

  lemma ShutdownMail(st: Settings, sh: Shared, timedOut: bool)
    requires Shutdown(st, sh, timedOut).Some?
    ensures var sh' := Shutdown(st, sh, timedOut).value.0; MailAdvances(sh.mail, sh'.mail) && sh'.cfgPc == sh.cfgPc
  {
    hide Current;
  }

  lemma NextMail(st: Settings, s: State, step: Step)
    requires MailboxInv(s.sh.mail) && GoneOnlyIfStopped(s.sh) && Next(st, s, step).Some?
    ensures var s' := Next(st, s, step).value; MailAdvances(s.sh.mail, s'.sh.mail) && GoneOnlyIfStopped(s'.sh)
  {
    hide Act, Shutdown, Configure, NewConfig, CurrentConfig, MailboxInv;
    match step
    case Thread(i, ch) => ThreadMail(st, s.sh, s.threads[i], ch);
    case ShuttingDown(timedOut) => ShutdownMail(st, s.sh, timedOut);
    case Configuring => ConfigureMail(st, s.sh);
    case _ =>
  }

  lemma {:induction false} RunGoneOnlyIfStopped(st: Settings, config: Config, run: seq<Step>)
    requires Exec(st, config, run).Some?
    ensures GoneOnlyIfStopped(Exec(st, config, run).value.sh)
  {
    if run != [] {
      RunGoneOnlyIfStopped(st, config, run[..|run| - 1]);
      RunKeepsInv(st, config, run[..|run| - 1]);
      NextMail(st, Exec(st, config, run[..|run| - 1]).value, run[|run| - 1]);
    }
  }

  /** Call k was not taken while it was the newest, or the processor has been stopped. */
  predicate Overtaken(m: Mailbox, k: nat) {
    k !in m.taken && (k + 1 < |m.sets| || m.stopped)
  }

  lemma StaysOvertaken(m: Mailbox, m': Mailbox, k: nat)
    requires Overtaken(m, k) && MailAdvances(m, m')
    ensures Overtaken(m', k)
  {
  }

  lemma {:induction false} OvertakenForGood(st: Settings, config: Config, run: seq<Step>, more: seq<Step>, k: nat)
    requires Exec(st, config, run).Some? && Exec(st, config, run + more).Some?
    requires Overtaken(Exec(st, config, run).value.sh.mail, k)
    ensures Overtaken(Exec(st, config, run + more).value.sh.mail, k)
  {
    hide Overtaken, Next, MailAdvances;
    if more == [] {
      assert run + more == run;
    } else {
      var init := more[..|more| - 1];
      assert (run + more)[..|run + more| - 1] == run + init;
      OvertakenForGood(st, config, run, init, k);
      var s := Exec(st, config, run + init).value;
      RunKeepsInv(st, config, run + init);
      RunGoneOnlyIfStopped(st, config, run + init);
      NextMail(st, s, more[|more| - 1]);
      StaysOvertaken(s.sh.mail, Exec(st, config, run + more).value.sh.mail, k);
    }
  }

  /** Turns the processor needs before it looks at its mailbox again. */
  function TurnsLeft(sh: Shared): nat {
    match sh.cfgPc
    case CfgStopping(_, next) => 2 + if next < |sh.ses| then |sh.ses| - next else 0
    case CfgApplying(_) => 1
    case _ => 0
  }

  lemma BusyProcessorAdvances(st: Settings, sh: Shared)
    requires sh.cfgPc.CfgStopping? || sh.cfgPc.CfgApplying?
    ensures Configure(st, sh).Some?
    ensures var sh' := Configure(st, sh).value.0;
      sh'.mail == sh.mail && !sh'.cfgPc.CfgGone? && TurnsLeft(sh') < TurnsLeft(sh)
  {
    hide NewConfig;
  }

  lemma WaitingProcessorTakes(st: Settings, sh: Shared)
    requires MailboxInv(sh.mail) && sh.cfgPc.CfgWaiting? && !sh.mail.stopped
    requires sh.mail.sets != [] && sh.mail.sets[|sh.mail.sets| - 1].Some? && !NewestTaken(sh.mail)
    ensures Configure(st, sh).Some? && |sh.mail.sets| - 1 in Configure(st, sh).value.0.mail.taken
  {
    assert sh.mail.request.Some?;
    var taken := Configure(st, sh).value.0.mail.taken;
    assert taken[|taken| - 1] == |sh.mail.sets| - 1;
  }

  lemma MailIsSound(st: Settings, config: Config, run: seq<Step>)
    requires Exec(st, config, run).Some?
    ensures var sh := Exec(st, config, run).value.sh; MailboxInv(sh.mail) && (sh.cfgPc.CfgGone? ==> sh.mail.stopped)
  {
    RunKeepsInv(st, config, run);
    RunGoneOnlyIfStopped(st, config, run);
  }

  /** Left to itself, the processor takes the newest configuration. */
  lemma {:induction false} NewestCanBeTaken(st: Settings, config: Config, run: seq<Step>) returns (more: seq<Step>)
    requires Exec(st, config, run).Some?
    requires var m := Exec(st, config, run).value.sh.mail;
      m.sets != [] && m.sets[|m.sets| - 1].Some? && !NewestTaken(m) && !m.stopped
    ensures Exec(st, config, run + more).Some?
    ensures |Exec(st, config, run).value.sh.mail.sets| - 1 in Exec(st, config, run + more).value.sh.mail.taken
    decreases TurnsLeft(Exec(st, config, run).value.sh)
  {
    hide MailboxInv, NewestTaken, Configure;
    var s := Exec(st, config, run).value;
    MailIsSound(st, config, run);
    ExecSnoc(st, config, run, Configuring);
    if s.sh.cfgPc.CfgWaiting? {
      WaitingProcessorTakes(st, s.sh);
      more := [Configuring];
    } else {
      BusyProcessorAdvances(st, s.sh);
      var rest := NewestCanBeTaken(st, config, run + [Configuring]);
      more := [Configuring] + rest;
      assert run + more == run + [Configuring] + rest;
    }
  }

  /**
   * A configuration passed to SetConfig and not taken so far is lost for good
   * exactly when another call, be it nil, has come after it, or the processor has
   * been told to stop. When only nil calls follow, nothing newer replaces it.
   */
  lemma ConfigurationIsLostExactly(st: Settings, config: Config, run: seq<Step>, k: nat)
    requires Exec(st, config, run).Some?
    requires var m := Exec(st, config, run).value.sh.mail; k < |m.sets| && m.sets[k].Some? && k !in m.taken
    ensures var m := Exec(st, config, run).value.sh.mail;
      (forall more :: Exec(st, config, run + more).Some? ==> k !in Exec(st, config, run + more).value.sh.mail.taken)
      <==> (k + 1 < |m.sets| || m.stopped)
  {
    hide Exec;
    var m := Exec(st, config, run).value.sh.mail;
    if k + 1 < |m.sets| || m.stopped {
      forall more | Exec(st, config, run + more).Some?
        ensures k !in Exec(st, config, run + more).value.sh.mail.taken
      {
        OvertakenForGood(st, config, run, more, k);
      }
    } else {
      var more := NewestCanBeTaken(st, config, run);
    }
  }

  // ---------- applying a configuration ----------

  /** Encoders of the current list that still accept spans. */
  predicate Live(sh: Shared, j: nat) {
    sh.lo <= j < |sh.ses| && !sh.ses[j].stopped
  }

  /**
   * Before a configuration is judged every encoder has been stopped. If it is
   * accepted, the live encoders are then new, empty and one for each of its shards;
   * if it is rejected, none is live, although the source speaks of ignoring it.
   */
  lemma ApplyingReplacesEncoders(st: Settings, config: Config, run: seq<Step>, j: nat)
    requires Exec(st, config, run).Some? && Exec(st, config, run).value.sh.cfgPc.CfgApplying?
    ensures var sh := Exec(st, config, run).value.sh;
      var (sh', _) := Configure(st, sh).value;
      && (j < |sh.ses| ==> sh.ses[j].stopped && sh'.ses[j] == sh.ses[j])
      && match NewConfig(sh.cfgPc.config)
         case Err(_) => !Live(sh', j)
         case Ok(shards) => (
           && CurrentShards(sh') == shards
           && (Live(sh', j) <==> |sh.ses| <= j < |sh.ses| + |shards|)
           && (Live(sh', j) ==> sh'.ses[j].pending == []))
  {
    hide NewConfig, MailboxInv;
    RunKeepsInv(st, config, run);
    var sh := Exec(st, config, run).value.sh;
    if NewConfig(sh.cfgPc.config).Ok? {
      var shards := NewConfig(sh.cfgPc.config).value;
      var sh' := Configure(st, sh).value.0;
      assert sh'.ses[sh'.lo..] == Map(shards, NewBatcher);
    }
  }

  // ---------- where configurations come from ----------

  /** The server turns requests away for their configuration before it records them, not after. */
  ghost predicate MismatchesAreEarly(st: Settings) {
    forall reply :: st.mayReply(reply) ==> !MismatchReply(reply)
  }

  ghost predicate FromServer(configs: seq<Config>, config: Option<Config>) {
    config.Some? && config.value in configs
  }

  /** The shard is built from a definition of one of the configurations. */
  ghost predicate KnownShard(configs: seq<Config>, shard: Shard) {
    exists config <- configs :: shard.origin in config
  }

  ghost predicate MailFrom(configs: seq<Config>, mail: Mailbox) {
    && (forall config <- mail.sets :: FromServer(configs, config))
    && (mail.request.Some? ==> mail.request.value in configs)
  }

  ghost predicate EncodersFrom(configs: seq<Config>, ses: seq<Batcher>) {
    forall j | 0 <= j < |ses| :: KnownShard(configs, ses[j].shard)
  }

  ghost predicate SharedFrom(sh: Shared) {
    && sh.configs != []
    && MailFrom(sh.configs, sh.mail)
    && EncodersFrom(sh.configs, sh.ses)
    && (sh.cfgPc.CfgStopping? || sh.cfgPc.CfgApplying? ==> sh.cfgPc.config in sh.configs)
    && (sh.ctl.bootPc.BootConfiguring? ==> sh.ctl.bootPc.config in sh.configs)
  }

  ghost predicate PcFrom(configs: seq<Config>, pc: Pc) {
    pc.Replied? && MismatchReply(pc.reply) ==> FromServer(configs, pc.reply.response.shardingConfig)
  }

  ghost predicate AllFrom(s: State) {
    SharedFrom(s.sh) && forall pc <- s.threads :: PcFrom(s.sh.configs, pc)
  }

  /** Nothing that configurations or shards come from has changed. */
  ghost predicate KeepsSources(sh: Shared, sh': Shared) {
    && sh'.configs == sh.configs && sh'.mail == sh.mail && sh'.cfgPc == sh.cfgPc && sh'.ctl.bootPc == sh.ctl.bootPc
    && |sh'.ses| == |sh.ses| && forall j | 0 <= j < |sh.ses| :: sh'.ses[j].shard == sh.ses[j].shard
  }

  lemma SetFromServer(configs: seq<Config>, mail: Mailbox, config: Option<Config>)
    requires MailFrom(configs, mail) && FromServer(configs, config)
    ensures MailFrom(configs, SetConfig(mail, config))
  {
  }

  lemma SourcesKept(sh: Shared, sh': Shared)
    requires SharedFrom(sh) && KeepsSources(sh, sh')
    ensures SharedFrom(sh')
  {
    hide MailFrom, KnownShard;
  }

  lemma MailKept(sh: Shared, mail: Mailbox)
    requires SharedFrom(sh) && MailFrom(sh.configs, mail)
    ensures SharedFrom(sh.(mail := mail))
  {
    hide MailFrom, KnownShard;
  }

  lemma ThreadFrom(st: Settings, sh: Shared, pc: Pc, ch: Choice)
    requires MismatchesAreEarly(st) && SharedFrom(sh) && PcFrom(sh.configs, pc) && Act(st, sh, pc, ch).Some?
    ensures var (sh', pc') := Act(st, sh, pc, ch).value;
      SharedFrom(sh') && sh'.configs == sh.configs && PcFrom(sh.configs, pc')
  {
    ThreadFramed(st, sh, pc, ch);
    if pc.Replied? && MismatchReply(pc.reply) { SetFromServer(sh.configs, sh.mail, pc.reply.response.shardingConfig); }
    hide Act, MailFrom, KnownShard, SetConfig;
    var sh' := Act(st, sh, pc, ch).value.0;
    MailKept(sh, sh'.mail);
    SourcesKept(sh.(mail := sh'.mail), sh');
  }

  lemma NewEncodersFrom(configs: seq<Config>, ses: seq<Batcher>, config: Config)
    requires EncodersFrom(configs, ses) && config in configs && NewConfig(config).Ok?
    ensures EncodersFrom(configs, ses + Map(NewConfig(config).value, NewBatcher))
  {
    var ses' := ses + Map(NewConfig(config).value, NewBatcher);
    forall j | |ses| <= j < |ses'| ensures KnownShard(configs, ses'[j].shard) {
      NewShardsKnowOrigin(config, j - |ses|);
    }
  }

  lemma ConfigureFrom(st: Settings, sh: Shared)
    requires SharedFrom(sh) && Configure(st, sh).Some?
    ensures var (sh', started) := Configure(st, sh).value;
      SharedFrom(sh') && sh'.configs == sh.configs && forall pc <- started :: !pc.Replied?
  {
    hide NewConfig;
    if sh.cfgPc.CfgApplying? && NewConfig(sh.cfgPc.config).Ok? { NewEncodersFrom(sh.configs, sh.ses, sh.cfgPc.config); }
  }

  lemma BootFrom(st: Settings, sh: Shared, ok: bool)
    requires SharedFrom(sh) && Boot(st, sh, ok).Some?
    ensures var (sh', started) := Boot(st, sh, ok).value;
      SharedFrom(sh') && sh'.configs == sh.configs && forall pc <- started :: !pc.Replied?
  {
    hide SetConfig, MailFrom, EncodersFrom;
    if sh.ctl.bootPc.BootConfiguring? { SetFromServer(sh.configs, sh.mail, Some(sh.ctl.bootPc.config)); }
  }

  /** Shutdown flags the stop to the mailbox and stops encoders, and changes no source of either. */
  ghost predicate StopsOnly(sh: Shared, r: Option<(Shared, seq<Pc>)>) {
    r.Some? ==>
      var (sh', started) := r.value;
      && KeepsSources(sh, sh'.(mail := sh.mail))
      && sh'.mail.sets == sh.mail.sets && sh'.mail.request == sh.mail.request
      && forall pc <- started :: !pc.Replied?
  }

  lemma DrainStopsOnly(sh: Shared, timedOut: bool)
    ensures StopsOnly(sh, DrainEncoder(sh, timedOut))
  {
    hide Current;
  }

  lemma StopEncoderStopsOnly(sh: Shared)
    ensures StopsOnly(sh, StopEncoder(sh))
  {
  }

  lemma StopsOnlyFrom(sh: Shared, sh': Shared)
    requires SharedFrom(sh) && KeepsSources(sh, sh'.(mail := sh.mail))
    requires sh'.mail.sets == sh.mail.sets && sh'.mail.request == sh.mail.request
    ensures SharedFrom(sh')
  {
    hide KnownShard, FromServer;
  }

  lemma ShutdownFrom(st: Settings, sh: Shared, timedOut: bool)
    requires SharedFrom(sh) && Shutdown(st, sh, timedOut).Some?
    ensures var (sh', started) := Shutdown(st, sh, timedOut).value;
      SharedFrom(sh') && sh'.configs == sh.configs && forall pc <- started :: !pc.Replied?
  {
    hide DrainEncoder, StopEncoder, SharedFrom;
    DrainStopsOnly(sh, timedOut);
    StopEncoderStopsOnly(sh);
    StopsOnlyFrom(sh, Shutdown(st, sh, timedOut).value.0);
  }

  lemma SpawnFrom(s: State, r: Option<(Shared, seq<Pc>)>)
    requires AllFrom(s) && r.Some? && SharedFrom(r.value.0) && r.value.0.configs == s.sh.configs
    requires forall pc <- r.value.1 :: !pc.Replied?
    ensures AllFrom(Spawn(s, r).value)
  {
    hide SharedFrom;
  }

  lemma ServerConfiguresFrom(s: State, config: Config)
    requires AllFrom(s)
    ensures AllFrom(State(s.sh.(configs := s.sh.configs + [config]), s.threads))
  {
  }

  lemma NextFrom(st: Settings, s: State, step: Step)
    requires MismatchesAreEarly(st) && AllFrom(s) && Next(st, s, step).Some?
    ensures AllFrom(Next(st, s, step).value)
  {
    hide Act, Configure, Boot, Shutdown, SharedFrom, FromServer, MismatchesAreEarly;
    match step
    case Thread(i, ch) =>
      assert s.threads[i] in s.threads;
      ThreadFrom(st, s.sh, s.threads[i], ch);
    case Configuring =>
      ConfigureFrom(st, s.sh);
      SpawnFrom(s, Configure(st, s.sh));
    case Booting(ok) =>
      BootFrom(st, s.sh, ok);
      SpawnFrom(s, Boot(st, s.sh, ok));
    case ShuttingDown(timedOut) =>
      ShutdownFrom(st, s.sh, timedOut);
      SpawnFrom(s, Shutdown(st, s.sh, timedOut));
    case Arrive(batch) =>
    case ServerConfigures(config) => ServerConfiguresFrom(s, config);
  }

  /**
   * In every run with such a server, SetConfig is only ever called with
   * configurations that the server has had, never with nil, and each shard
   * encoder ever started serves a shard of one of them.
   */
  lemma {:induction false} ConfigurationsComeFromServer(st: Settings, config: Config, run: seq<Step>)
    requires MismatchesAreEarly(st) && Exec(st, config, run).Some?
    ensures AllFrom(Exec(st, config, run).value)
  {
    hide MismatchesAreEarly;
    if run != [] {
      ConfigurationsComeFromServer(st, config, run[..|run| - 1]);
      NextFrom(st, Exec(st, config, run[..|run| - 1]).value, run[|run| - 1]);
    }
  }

  // ---------- nil configurations ----------

  /** The server never answers a recorded request with a mismatch that carries no configuration. */
  ghost predicate NilNever(st: Settings) {
    forall reply :: st.mayReply(reply) && MismatchReply(reply) ==> reply.response.shardingConfig.Some?
  }

  predicate NilMismatch(pc: Pc) {
    pc.Replied? && MismatchReply(pc.reply) && pc.reply.response.shardingConfig.None?
  }

  ghost predicate NeverNil(s: State) {
    (forall c <- s.sh.mail.sets :: c.Some?) && forall pc <- s.threads :: !NilMismatch(pc)
  }

  lemma ThreadNeverNil(st: Settings, sh: Shared, pc: Pc, ch: Choice)
    requires NilNever(st) && (forall c <- sh.mail.sets :: c.Some?) && !NilMismatch(pc) && Act(st, sh, pc, ch).Some?
    ensures var (sh', pc') := Act(st, sh, pc, ch).value; (forall c <- sh'.mail.sets :: c.Some?) && !NilMismatch(pc')
  {
    hide Act, CurrentConfig;
    ThreadFramed(st, sh, pc, ch);
  }

  lemma SpawnNeverNil(s: State, r: Option<(Shared, seq<Pc>)>)
    requires NeverNil(s) && r.Some? && (forall c <- r.value.0.mail.sets :: c.Some?)
      && forall pc <- r.value.1 :: !pc.Replied?
    ensures NeverNil(Spawn(s, r).value)
  {
  }

  lemma NextNeverNil(st: Settings, s: State, step: Step)
    requires NilNever(st) && NeverNil(s) && Next(st, s, step).Some?
    ensures NeverNil(Next(st, s, step).value)
  {
    hide Act, Configure, Boot, Shutdown, NilNever;
    match step
    case Thread(i, ch) =>
      assert s.threads[i] in s.threads;
      ThreadNeverNil(st, s.sh, s.threads[i], ch);
    case Configuring =>
      ConfigureNeverNil(st, s.sh);
      SpawnNeverNil(s, Configure(st, s.sh));
    case Booting(ok) =>
      BootNeverNil(st, s.sh, ok);
      SpawnNeverNil(s, Boot(st, s.sh, ok));
    case ShuttingDown(timedOut) =>
      DrainStopsOnly(s.sh, timedOut);
      StopEncoderStopsOnly(s.sh);
      ShutdownNeverNil(st, s.sh, timedOut);
      SpawnNeverNil(s, Shutdown(st, s.sh, timedOut));
    case _ =>
  }

  lemma ConfigureNeverNil(st: Settings, sh: Shared)
    requires Configure(st, sh).Some?
    ensures var (sh', started) := Configure(st, sh).value;
      sh'.mail.sets == sh.mail.sets && forall pc <- started :: !pc.Replied?
  {
    hide NewConfig;
  }

  lemma BootNeverNil(st: Settings, sh: Shared, ok: bool)
    requires (forall c <- sh.mail.sets :: c.Some?) && Boot(st, sh, ok).Some?
    ensures var (sh', started) := Boot(st, sh, ok).value;
      (forall c <- sh'.mail.sets :: c.Some?) && forall pc <- started :: !pc.Replied?
  {
    hide CurrentConfig;
  }

  lemma ShutdownNeverNil(st: Settings, sh: Shared, timedOut: bool)
    requires StopsOnly(sh, DrainEncoder(sh, timedOut)) && StopsOnly(sh, StopEncoder(sh))
      && Shutdown(st, sh, timedOut).Some?
    ensures var (sh', started) := Shutdown(st, sh, timedOut).value;
      sh'.mail.sets == sh.mail.sets && forall pc <- started :: !pc.Replied?
  {
    hide DrainEncoder, StopEncoder, KeepsSources;
  }

  lemma {:induction false} ConfigurationsAreNeverNil(st: Settings, config: Config, run: seq<Step>)
    requires NilNever(st) && Exec(st, config, run).Some?
    ensures NeverNil(Exec(st, config, run).value)
  {
    hide NilNever;
    if run != [] {
      ConfigurationsAreNeverNil(st, config, run[..|run| - 1]);
      NextNeverNil(st, Exec(st, config, run[..|run| - 1]).value, run[|run| - 1]);
    }
  }

  // ---------- no way back from a rejected configuration ----------

  /** Nothing this thread does can lead to a record, a delivery or a configuration. */
  predicate Idles(pc: Pc) {
    && !pc.InFlight? && !pc.Mismatched? && !pc.Admitted? && !pc.Recorded? && !pc.Replied?
    && (pc.Calling? ==> pc.cb.SpanProcessFail?)
  }

  ghost predicate SharedDead(sh: Shared) {
    && (forall b <- sh.ses :: b.stopped)
    && sh.requests == []
    && sh.mail.request.None? && (sh.cfgPc.CfgWaiting? || sh.cfgPc.CfgGone?)
    && (sh.ctl.bootPc.BootDone? || sh.ctl.bootPc.BootFailed?)
  }

  /** No encoder is live, and nothing on its way to or from the server could bring a new configuration. */
  ghost predicate Dead(s: State) {
    SharedDead(s.sh) && forall pc <- s.threads :: Idles(pc)
  }

  ghost predicate SameResults(sh: Shared, sh': Shared) {
    sh'.records == sh.records && sh'.out.delivered == sh.out.delivered
  }

  lemma StoppedFlushFails(limits: Limits, b: Batcher)
    requires b.stopped
    ensures var (b', cb) := FlushSection(limits, b); b'.stopped && (cb.Some? ==> cb.value.SpanProcessFail?)
  {
  }

  lemma StoppedAppendRefuses(limits: Limits, b: Batcher, span: Span, size: nat)
    requires b.stopped
    ensures AppendSection(limits, b, span, size) == (b, Refused)
  {
  }

  lemma ResendDeliversNothing(o: Outbox, spans: seq<Span>, code: EncoderErrorCode)
    ensures ResendSpans(o, spans).delivered == o.delivered && OnSpanProcessFail(o, spans, code).delivered == o.delivered
  {
  }

  lemma FlushStaysDead(st: Settings, sh: Shared, pc: Pc, ch: Choice)
    requires SharedDead(sh) && Idles(pc) && FlushAct(st, sh, pc, ch).Some?
    ensures var (sh', pc') := FlushAct(st, sh, pc, ch).value; SharedDead(sh') && Idles(pc') && SameResults(sh, sh')
  {
    if pc.Flushing? { StoppedFlushFails(st.limits, sh.ses[pc.se]); }
    if pc.Calling? { ResendDeliversNothing(sh.out, pc.cb.spans, pc.cb.code); }
    hide FlushSection, OnSpanProcessFail;
  }

  lemma WorkStaysDead(st: Settings, sh: Shared, pc: Pc, ch: Choice)
    requires SharedDead(sh) && Idles(pc) && (CallerPc(pc) || WorkerPc(pc)) && Act(st, sh, pc, ch).Some?
    ensures var (sh', pc') := Act(st, sh, pc, ch).value; SharedDead(sh') && Idles(pc') && SameResults(sh, sh')
  {
    if pc.Sized? { StoppedAppendRefuses(st.limits, sh.ses[pc.se], pc.span, pc.size); }
    hide AppendSection, TryEncode, FindShard, CurrentShards;
  }

  lemma ThreadStaysDead(st: Settings, sh: Shared, pc: Pc, ch: Choice)
    requires SharedDead(sh) && Idles(pc) && Act(st, sh, pc, ch).Some?
    ensures var (sh', pc') := Act(st, sh, pc, ch).value; SharedDead(sh') && Idles(pc') && SameResults(sh, sh')
  {
    hide SharedDead, CallerAct, WorkerAct, FlushAct;
    if CallerPc(pc) || WorkerPc(pc) { WorkStaysDead(st, sh, pc, ch); }
    else if FlushPc(pc) { FlushStaysDead(st, sh, pc, ch); }
    else { SenderStaysDead(st, sh, pc, ch); }
  }

  lemma SenderStaysDead(st: Settings, sh: Shared, pc: Pc, ch: Choice)
    requires SharedDead(sh) && Idles(pc) && SenderAct(st, sh, pc, ch).Some?
    ensures var (sh', pc') := SenderAct(st, sh, pc, ch).value; SharedDead(sh') && Idles(pc') && SameResults(sh, sh')
  {
    if pc.Resending? { ResendDeliversNothing(sh.out, pc.spans, ErrEncodingFailed); }
    hide ResendSpans, OnReply;
  }

  lemma OthersStayDead(st: Settings, s: State, step: Step)
    requires Dead(s) && Next(st, s, step).Some? && !step.Thread?
    ensures var s' := Next(st, s, step).value; Dead(s') && SameResults(s.sh, s'.sh)
  {
    match step
    case Configuring => hide NewConfig;
    case ShuttingDown(timedOut) => ShutdownStaysDead(st, s, timedOut);
    case _ =>
  }

  lemma ShutdownStaysDead(st: Settings, s: State, timedOut: bool)
    requires Dead(s) && Shutdown(st, s.sh, timedOut).Some?
    ensures var s' := Spawn(s, Shutdown(st, s.sh, timedOut)).value; Dead(s') && SameResults(s.sh, s'.sh)
  {
    hide DrainEncoder, StopEncoder, Dead, SharedDead;
    if s.sh.ctl.stopPc.NotStopping? || s.sh.ctl.stopPc.StopClient? {
      FlagsStayDead(s.sh, Shutdown(st, s.sh, timedOut).value.0.ctl);
    }
    else if Draining(s.sh.ctl.stopPc) { DrainStaysDead(s.sh, timedOut); }
    else { StopStaysDead(s.sh); }
    DeadSpawn(s, Shutdown(st, s.sh, timedOut));
  }

  lemma FlagsStayDead(sh: Shared, ctl: Control)
    requires ctl.bootPc == sh.ctl.bootPc
    ensures SharedDead(sh) ==> SharedDead(sh.(ctl := ctl))
  {
  }

  lemma DrainStaysDead(sh: Shared, timedOut: bool)
    requires DrainEncoder(sh, timedOut).Some?
    ensures var (sh', started) := DrainEncoder(sh, timedOut).value;
      (SharedDead(sh) ==> SharedDead(sh')) && SameResults(sh, sh') && forall pc <- started :: Idles(pc)
  {
    hide Current;
  }

  lemma StopStaysDead(sh: Shared)
    requires StopEncoder(sh).Some?
    ensures var (sh', started) := StopEncoder(sh).value;
      (SharedDead(sh) ==> SharedDead(sh')) && SameResults(sh, sh') && forall pc <- started :: Idles(pc)
  {
  }

  lemma DeadSpawn(s: State, r: Option<(Shared, seq<Pc>)>)
    requires Dead(s) && r.Some? && (SharedDead(s.sh) ==> SharedDead(r.value.0)) && forall pc <- r.value.1 :: Idles(pc)
    ensures Dead(Spawn(s, r).value)
  {
    hide SharedDead;
  }

  lemma NextStaysDead(st: Settings, s: State, step: Step)
    requires Dead(s) && Next(st, s, step).Some?
    ensures var s' := Next(st, s, step).value; Dead(s') && SameResults(s.sh, s'.sh)
  {
    hide Act, SharedDead;
    if step.Thread? {
      assert s.threads[step.i] in s.threads;
      ThreadStaysDead(st, s.sh, s.threads[step.i], step.ch);
    } else {
      OthersStayDead(st, s, step);
      hide Next;
    }
  }

  /**
   * Once no encoder is live and nothing is under way that could bring a
   * configuration, nothing is ever recorded or delivered again, whatever the
   * server's configuration and whoever calls.
   */
  lemma {:induction false} DeadForGood(st: Settings, config: Config, run: seq<Step>, more: seq<Step>)
    requires Exec(st, config, run).Some? && Exec(st, config, run + more).Some? && Dead(Exec(st, config, run).value)
    ensures Dead(Exec(st, config, run + more).value)
    ensures SameResults(Exec(st, config, run).value.sh, Exec(st, config, run + more).value.sh)
  {
    hide Dead, Next;
    if more == [] {
      assert run + more == run;
    } else {
      var init := more[..|more| - 1];
      assert (run + more)[..|run + more| - 1] == run + init;
      DeadForGood(st, config, run, init);
      NextStaysDead(st, Exec(st, config, run + init).value, more[|more| - 1]);
    }
  }
}
