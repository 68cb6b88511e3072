/**
 * Where the pipeline can get to when users, operators and the server's
 * configuration keep still: from any running state it either empties or is dead for good.
 */
module PipelineConvergence {
  import opened Basics
  import opened ShardingConfig
  import opened ShardEncoding
  import opened Server
  import opened Exporting
  import opened ConfigMailbox
  import opened Pipeline
  import opened PipelineRouting
  import opened PipelineAccounting
  import opened PipelineProgress
  import opened PipelineConfiguration
  import opened PipelineShutdown
  import opened PipelineDrain

  // ---------- single steps ----------

  ghost predicate Runs(st: Settings, config: Config, run: seq<Step>) {
    Exec(st, config, run).Some? && Running(st, Exec(st, config, run).value)
  }

  /** Thread i takes a step, and everybody is still running. */
  lemma Move(st: Settings, config: Config, run: seq<Step>, i: nat, ch: Choice) returns (run': seq<Step>)
    requires Runs(st, config, run)
    requires var s := Exec(st, config, run).value; i < |s.threads| && Act(st, s.sh, s.threads[i], ch).Some?
    ensures Continues(st, config, run, run') && Runs(st, config, run')
    ensures var s := Exec(st, config, run).value;
      var (sh', pc') := Act(st, s.sh, s.threads[i], ch).value;
      Exec(st, config, run').value == State(sh', s.threads[i := pc'])
  {
    hide Act;
    var s := Exec(st, config, run).value;
    run' := run + [Thread(i, ch)];
    ContinuesWith(st, config, run, Thread(i, ch));
    ThreadKeepsStaff(st, s.sh, s.threads[i], ch);
  }

  /** A turn of the processor leaves spans, requests and threads alone, and may start new threads. */
  ghost predicate OnlyConfigures(s: State, t: State) {
    && s.threads <= t.threads && (forall k | |s.threads| <= k < |t.threads| :: Fresh(t.threads[k]))
    && t.sh.requests == s.sh.requests && t.sh.configs == s.sh.configs && t.sh.ctl == s.sh.ctl
  }

  lemma ConfigureOnly(st: Settings, s: State)
    requires Configure(st, s.sh).Some?
    ensures OnlyConfigures(s, Spawn(s, Configure(st, s.sh)).value)
    ensures s.sh.workersStarted ==> Configure(st, s.sh).value.0.workersStarted
  {
    hide NewConfig, CheckMailbox;
  }

  lemma Turn(st: Settings, config: Config, run: seq<Step>) returns (run': seq<Step>)
    requires Runs(st, config, run) && Configure(st, Exec(st, config, run).value.sh).Some?
    ensures Continues(st, config, run, run') && Runs(st, config, run')
    ensures var s, t := Exec(st, config, run).value, Exec(st, config, run').value;
      OnlyConfigures(s, t) && t.sh == Configure(st, s.sh).value.0
  {
    hide Configure;
    run' := run + [Configuring];
    ContinuesWith(st, config, run, Configuring);
    ConfigureOnly(st, Exec(st, config, run).value);
  }

  lemma OnlyConfiguresOn(s: State, t: State, u: State)
    requires OnlyConfigures(s, t) && OnlyConfigures(t, u)
    ensures OnlyConfigures(s, u)
  {
    forall k | |s.threads| <= k < |u.threads| ensures Fresh(u.threads[k]) {
      if k < |t.threads| { assert u.threads[k] == t.threads[k]; }
    }
  }

  lemma NotToldToStop(st: Settings, config: Config, run: seq<Step>)
    requires Runs(st, config, run)
    ensures !Exec(st, config, run).value.sh.mail.stopped && FlagsOk(Exec(st, config, run).value.sh.ctl)
  {
    ShutdownSignalsInOrder(st, config, run);
  }

  // ---------- replies in hand ----------

  function RepliesLeft(): Pc -> int {
    (pc: Pc) => if pc.Replied? then 2 else if pc.Resending? then 1 else 0
  }

  predicate HandlesReply(pc: Pc) {
    pc.Replied? || pc.Resending?
  }

  lemma ReplyStep(st: Settings, sh: Shared, pc: Pc)
    requires HandlesReply(pc)
    ensures Act(st, sh, pc, Go).Some?
    ensures var (sh', pc') := Act(st, sh, pc, Go).value;
      RepliesLeft()(pc') < RepliesLeft()(pc) && sh'.configs == sh.configs
  {
    hide OnReply, ResendSpans, SetConfig;
  }

  /** The senders deal with the replies that they hold. */
  lemma {:induction false} FinishReplies(st: Settings, config: Config, run: seq<Step>) returns (run': seq<Step>)
    requires Runs(st, config, run)
    ensures Continues(st, config, run, run') && Runs(st, config, run')
    ensures var s, t := Exec(st, config, run).value, Exec(st, config, run').value;
      t.sh.configs == s.sh.configs && forall pc <- t.threads :: !HandlesReply(pc)
    decreases Sum(Exec(st, config, run).value.threads, RepliesLeft())
  {
    var s := Exec(st, config, run).value;
    if i :| 0 <= i < |s.threads| && HandlesReply(s.threads[i]) {
      ReplyStep(st, s.sh, s.threads[i]);
      hide Act, Runs;
      var mid := Move(st, config, run, i, Go);
      SumUpdate(s.threads, i, Exec(st, config, mid).value.threads[i], RepliesLeft());
      SumNonNegative(Exec(st, config, mid).value.threads, RepliesLeft());
      run' := FinishReplies(st, config, mid);
      ContinuesOn(st, config, run, mid, run');
    } else {
      run' := run;
    }
  }

  // ---------- the processor comes to rest ----------

  /** Waiting with a request, the processor takes it up. */
  lemma TakesRequest(st: Settings, sh: Shared)
    requires MailboxInv(sh.mail) && !sh.mail.stopped && sh.cfgPc.CfgWaiting? && sh.mail.request.Some?
    ensures Configure(st, sh).Some?
    ensures var sh' := Configure(st, sh).value.0;
      sh' == sh.(mail := sh'.mail, cfgPc := CfgStopping(sh.mail.request.value, sh.lo)) && sh'.mail.request.None?
  {
  }

  /** Left alone, the processor applies what is waiting and comes to rest. */
  lemma {:induction false} ComesToRest(st: Settings, config: Config, run: seq<Step>) returns (run': seq<Step>)
    requires Runs(st, config, run)
    ensures Continues(st, config, run, run') && Runs(st, config, run')
    ensures var s, t := Exec(st, config, run).value, Exec(st, config, run').value;
      OnlyConfigures(s, t) && NothingToApply(t.sh)
    decreases if Exec(st, config, run).value.sh.mail.request.Some? then 1 else 0, TurnsLeft(Exec(st, config,
      run).value.sh)
  {
    var s := Exec(st, config, run).value;
    NotToldToStop(st, config, run);
    RunGoneOnlyIfStopped(st, config, run);
    if NothingToApply(s.sh) {
      run' := run;
    } else {
      RunKeepsInv(st, config, run);
      if s.sh.cfgPc.CfgWaiting? { TakesRequest(st, s.sh); } else { BusyProcessorAdvances(st, s.sh); }
      hide Configure, Runs, OnlyConfigures, SharedInv;
      var mid := Turn(st, config, run);
      run' := ComesToRest(st, config, mid);
      OnlyConfiguresOn(s, Exec(st, config, mid).value, Exec(st, config, run').value);
      ContinuesOn(st, config, run, mid, run');
    }
  }

  // ---------- live encoders stand or fall together ----------

  /** All of them run, or all of them have been stopped. */
  ghost predicate AllRun(sh: Shared) {
    forall j | sh.lo <= j < |sh.ses| :: !sh.ses[j].stopped
  }

  ghost predicate AllStopped(sh: Shared) {
    forall j | sh.lo <= j < |sh.ses| :: sh.ses[j].stopped
  }

  ghost predicate Together(sh: Shared) {
    sh.ctl.stopPc.NotStopping? && sh.cfgPc.CfgWaiting? ==> AllRun(sh) || AllStopped(sh)
  }

  /** Threads never stop an encoder, nor change the list. */
  ghost predicate KeepsStops(sh: Shared, sh': Shared) {
    && sh'.ctl.stopPc == sh.ctl.stopPc && sh'.cfgPc == sh.cfgPc && sh'.lo == sh.lo && |sh'.ses| == |sh.ses|
    && forall j | 0 <= j < |sh.ses| :: sh'.ses[j].stopped == sh.ses[j].stopped
  }

  lemma ThreadKeepsStops(st: Settings, sh: Shared, pc: Pc, ch: Choice)
    requires Act(st, sh, pc, ch).Some?
    ensures KeepsStops(sh, Act(st, sh, pc, ch).value.0)
  {
    hide Act, ReplyFrom, SetConfig;
    ThreadFramed(st, sh, pc, ch);
  }

  lemma ConfigureTogether(st: Settings, sh: Shared)
    requires SharedInv(st, sh) && Together(sh) && Configure(st, sh).Some?
    ensures Together(Configure(st, sh).value.0)
  {
    hide NewConfig, MailboxInv, RequestsOk, RecordsOk, RetryOk;
  }

  lemma ShutdownTogether(st: Settings, sh: Shared, timedOut: bool)
    requires Shutdown(st, sh, timedOut).Some?
    ensures !Shutdown(st, sh, timedOut).value.0.ctl.stopPc.NotStopping?
  {
    ShutdownUnderWay(sh, timedOut);
    hide DrainEncoder, StopEncoder;
  }

  lemma ShutdownUnderWay(sh: Shared, timedOut: bool)
    ensures DrainEncoder(sh, timedOut).Some? ==> !DrainEncoder(sh, timedOut).value.0.ctl.stopPc.NotStopping?
    ensures StopEncoder(sh).Some? ==> !StopEncoder(sh).value.0.ctl.stopPc.NotStopping?
  {
    hide Current, FlagStop, SignalStop;
  }

  lemma NextTogether(st: Settings, s: State, step: Step)
    requires Inv(st, s) && Together(s.sh) && Next(st, s, step).Some?
    ensures Together(Next(st, s, step).value.sh)
  {
    hide Act, Configure, Shutdown, SharedInv, PcInv, SetConfig, CurrentConfig;
    match step
    case Thread(i, ch) => ThreadKeepsStops(st, s.sh, s.threads[i], ch);
    case Configuring => ConfigureTogether(st, s.sh);
    case ShuttingDown(timedOut) => ShutdownTogether(st, s.sh, timedOut);
    case _ =>
  }

  lemma {:induction false} RunTogether(st: Settings, config: Config, run: seq<Step>)
    requires Exec(st, config, run).Some?
    ensures Together(Exec(st, config, run).value.sh)
  {
    hide Next, Together, Inv;
    if run == [] {
      assert Together(Init(config).sh) by { StartsTogether(config); }
    } else {
      RunTogether(st, config, run[..|run| - 1]);
      RunKeepsInv(st, config, run[..|run| - 1]);
      NextTogether(st, Exec(st, config, run[..|run| - 1]).value, run[|run| - 1]);
    }
  }

  lemma StartsTogether(config: Config)
    ensures Together(Init(config).sh)
  {
  }

  // ---------- a call that is turned away brings the current configuration ----------

  /** The server will turn this call away, or has just done so. */
  predicate Doomed(sh: Shared, pc: Pc) {
    (pc.InFlight? && !ShardIsPartOfConfig(pc.req.exportRequest.shard, CurrentConfig(sh))) || pc.Mismatched?
  }

  lemma MismatchStep(st: Settings, sh: Shared, pc: Pc)
    requires pc.Mismatched?
    ensures Act(st, sh, pc, Go)
      == Some((sh, Replied(pc.req, Answer(ExportResponse(SHARD_CONFIG_MISMATCH, Some(CurrentConfig(sh)))), false)))
  {
  }

  lemma SetStep(st: Settings, sh: Shared, pc: Pc)
    requires pc.Replied? && MismatchReply(pc.reply)
    ensures Act(st, sh, pc, Go)
      == Some((sh.(mail := SetConfig(sh.mail, pc.reply.response.shardingConfig)), Resending(pc.req.originalSpans)))
  {
  }

  lemma InFlightStep(st: Settings, sh: Shared, pc: Pc)
    requires pc.InFlight? && !ShardIsPartOfConfig(pc.req.exportRequest.shard, CurrentConfig(sh))
    ensures Act(st, sh, pc, Go) == Some((sh, Mismatched(pc.req)))
  {
  }

  /** The call runs its course up to the mailbox. */
  lemma TurnedAway(st: Settings, config: Config, run: seq<Step>, i: nat) returns (run': seq<Step>)
    requires Runs(st, config, run)
    requires var s := Exec(st, config, run).value; i < |s.threads| && Doomed(s.sh, s.threads[i])
    ensures Continues(st, config, run, run') && Runs(st, config, run')
    ensures var s, t := Exec(st, config, run).value, Exec(st, config, run').value;
      && t.sh == s.sh.(mail := SetConfig(s.sh.mail, Some(CurrentConfig(s.sh))))
      && i < |t.threads| && t.threads == s.threads[i := t.threads[i]] && t.threads[i].Resending?
  {
    hide Act, SetConfig, CurrentConfig, ShardIsPartOfConfig, Running;
    var s := Exec(st, config, run).value;
    var run1 := run;
    if s.threads[i].InFlight? {
      InFlightStep(st, s.sh, s.threads[i]);
      run1 := Move(st, config, run, i, Go);
    }
    var s1 := Exec(st, config, run1).value;
    MismatchStep(st, s1.sh, s1.threads[i]);
    var run2 := Move(st, config, run1, i, Go);
    var s2 := Exec(st, config, run2).value;
    SetStep(st, s2.sh, s2.threads[i]);
    run' := Move(st, config, run2, i, Go);
    ContinuesOn(st, config, run, run1, run2);
    ContinuesOn(st, config, run, run2, run');
    assert Exec(st, config, run').value.threads == s.threads[i := Exec(st, config, run').value.threads[i]];
  }

  // ---------- applying the server's configuration ----------

  /** The processor stops the old encoders and gets ready to judge the configuration. */
  lemma {:induction false} StopsOld(st: Settings, config: Config, run: seq<Step>) returns (run': seq<Step>)
    requires Runs(st, config, run) && Exec(st, config, run).value.sh.cfgPc.CfgStopping?
    ensures Continues(st, config, run, run') && Runs(st, config, run')
    ensures var s, t := Exec(st, config, run).value, Exec(st, config, run').value;
      OnlyConfigures(s, t) && t.sh.cfgPc == CfgApplying(s.sh.cfgPc.config)
    decreases TurnsLeft(Exec(st, config, run).value.sh)
  {
    var s := Exec(st, config, run).value;
    BusyProcessorAdvances(st, s.sh);
    StoppingTurn(st, s.sh);
    hide Configure, Runs, OnlyConfigures;
    var mid := Turn(st, config, run);
    if Exec(st, config, mid).value.sh.cfgPc.CfgApplying? {
      run' := mid;
    } else {
      run' := StopsOld(st, config, mid);
      OnlyConfiguresOn(s, Exec(st, config, mid).value, Exec(st, config, run').value);
      ContinuesOn(st, config, run, mid, run');
    }
  }

  lemma StoppingTurn(st: Settings, sh: Shared)
    requires sh.cfgPc.CfgStopping?
    ensures Configure(st, sh).Some?
    ensures var cfgPc := Configure(st, sh).value.0.cfgPc;
      (cfgPc.CfgStopping? || cfgPc.CfgApplying?) && cfgPc.config == sh.cfgPc.config
  {
  }

  /** The live encoders run, and are exactly one for each shard of the server's current configuration, in its order. */
  ghost predicate ServesCurrent(sh: Shared) {
    && AllRun(sh)
    && NewConfig(CurrentConfig(sh)).Ok? && CurrentShards(sh) == NewConfig(CurrentConfig(sh)).value
  }

  /** There are live encoders. */
  ghost predicate Alive(s: State) {
    s.sh.lo < |s.sh.ses| && AllRun(s.sh)
  }

  /** An accepted configuration that is the server's current one makes all live encoders current. */
  lemma AppliedIsCurrent(st: Settings, sh: Shared)
    requires SharedInv(st, sh) && sh.cfgPc == CfgApplying(CurrentConfig(sh)) && NewConfig(CurrentConfig(sh)).Ok?
    requires sh.ctl.stopPc.NotStopping? && FlagsOk(sh.ctl)
    ensures Configure(st, sh).Some? && SharedStable(Outdated(sh.configs), Configure(st, sh).value.0)
    ensures ServesCurrent(Configure(st, sh).value.0) && Configure(st, sh).value.0.cfgPc.CfgWaiting?
  {
    hide MailboxInv, RequestsOk, RecordsOk, RetryOk, NewConfig, FlagsOk;
    var shards := NewConfig(CurrentConfig(sh)).value;
    assert (sh.ses + Map(shards, NewBatcher))[|sh.ses|..] == Map(shards, NewBatcher);
    assert Map(Map(shards, NewBatcher), ShardOf) == shards;
    forall i | 0 <= i < |shards| ensures ShardIsPartOfConfig(shards[i].origin, CurrentConfig(sh)) {
      NewShardsKnowOrigin(CurrentConfig(sh), i);
      assert SameDefinition(shards[i].origin, shards[i].origin);
    }
  }

  lemma AppliesCurrent(st: Settings, config: Config, run: seq<Step>) returns (run': seq<Step>)
    requires Runs(st, config, run)
    requires var s := Exec(st, config, run).value;
      && s.sh.cfgPc.CfgWaiting? && s.sh.mail.request == Some(CurrentConfig(s.sh)) && NewConfig(CurrentConfig(s.sh)).Ok?
      && forall pc <- s.threads :: ThreadStable(pc)
    ensures Continues(st, config, run, run') && Runs(st, config, run')
    ensures var s, t := Exec(st, config, run).value, Exec(st, config, run').value;
      && t.sh.configs == s.sh.configs && t.sh.cfgPc.CfgWaiting?
      && Stable(st, Outdated(t.sh.configs), t) && ServesCurrent(t.sh)
  {
    var s := Exec(st, config, run).value;
    NotToldToStop(st, config, run);
    RunKeepsInv(st, config, run);
    TakesRequest(st, s.sh);
    hide Configure, NewConfig, SharedInv, PcInv, SharedStable, FlagsOk, ServesCurrent;
    var run1 := Turn(st, config, run);
    var run2 := StopsOld(st, config, run1);
    NotToldToStop(st, config, run2);
    RunKeepsInv(st, config, run2);
    AppliedIsCurrent(st, Exec(st, config, run2).value.sh);
    run' := Turn(st, config, run2);
    RunKeepsInv(st, config, run');
    ContinuesOn(st, config, run, run1, run2);
    ContinuesOn(st, config, run, run2, run');
    StableThreads(s, Exec(st, config, run1).value);
    StableThreads(Exec(st, config, run1).value, Exec(st, config, run2).value);
    StableThreads(Exec(st, config, run2).value, Exec(st, config, run').value);
  }

  lemma StableThreads(s: State, t: State)
    requires OnlyConfigures(s, t) && forall pc <- s.threads :: ThreadStable(pc)
    ensures forall pc <- t.threads :: ThreadStable(pc)
  {
    forall pc | pc in t.threads ensures ThreadStable(pc) {
      var k :| 0 <= k < |t.threads| && t.threads[k] == pc;
      if k < |s.threads| { assert s.threads[k] == pc; }
    }
  }

  // ---------- with every encoder stopped ----------

  /** Work of a thread that may still bring a record, or a rejection. */
  function Carry(): Pc -> int {
    (pc: Pc) =>
      if pc.Calling? && pc.cb.RecordReady? then 6
      else if pc.InFlight? then 4
      else if pc.Admitted? then 3
      else if pc.Recorded? then 2
      else if pc.Replied? then 1
      else 0
  }

  function CarryRank(s: State): int {
    5 * |s.sh.requests| + Sum(s.threads, Carry())
  }

  /** All encoders are stopped, nothing waits to be applied, and replies in hand are settling ones. */
  ghost predicate AllDown(s: State) {
    && (forall b <- s.sh.ses :: b.stopped)
    && NothingToApply(s.sh)
    && forall pc <- s.threads :: !pc.Resending? && (pc.Replied? ==> Settling(pc.reply))
  }

  /** A sender, or the server on its behalf, is working on a request. */
  predicate Handling(pc: Pc) {
    pc.InFlight? || pc.Admitted? || pc.Recorded? || pc.Replied?
  }

  /** Only the logs change. */
  ghost predicate OnlyLogs(sh: Shared, sh': Shared) {
    sh' == sh.(records := sh'.records, out := sh'.out)
  }

  lemma HandleStep(st: Settings, sh: Shared, pc: Pc, ok: Reply)
    requires Handling(pc) && !Doomed(sh, pc) && st.mayReply(ok) && Settling(ok) && (pc.Replied? ==> Settling(pc.reply))
    ensures Act(st, sh, pc, NextChoice(pc, ok)).Some?
    ensures var (sh', pc') := Act(st, sh, pc, NextChoice(pc, ok)).value;
      && OnlyLogs(sh, sh') && Carry()(pc') < Carry()(pc)
      && !pc'.Resending? && (pc'.Replied? ==> Settling(pc'.reply))
  {
    hide OnReply, SetConfig, CurrentConfig, ShardIsPartOfConfig, SendErrorOf;
  }

  lemma HandleAllDown(s: State, i: nat, sh': Shared, pc': Pc)
    requires AllDown(s) && i < |s.threads| && !pc'.Resending? && (pc'.Replied? ==> Settling(pc'.reply))
    requires sh'.ses == s.sh.ses && sh'.mail == s.sh.mail && sh'.cfgPc == s.sh.cfgPc
    ensures AllDown(State(sh', s.threads[i := pc']))
    ensures CarryRank(State(sh', s.threads[i := pc']))
      == CarryRank(s) - 5 * |s.sh.requests| + 5 * |sh'.requests| - Carry()(s.threads[i]) + Carry()(pc')
  {
    hide Settling, Carry;
    SumUpdate(s.threads, i, pc', Carry());
  }

  lemma TakeStep(st: Settings, sh: Shared)
    requires sh.requests != []
    ensures Act(st, sh, SenderLoop, Go) == Some((sh.(requests := sh.requests[1..]), InFlight(sh.requests[0])))
  {
  }

  lemma SendStep(st: Settings, sh: Shared, pc: Pc)
    requires pc.Calling? && pc.cb.RecordReady? && |sh.requests| < st.sendConcurrency
    ensures Act(st, sh, pc, Go).Some?
    ensures var (sh', pc') := Act(st, sh, pc, Go).value;
      && sh' == sh.(requests := sh'.requests) && |sh'.requests| == |sh.requests| + 1
      && Carry()(pc') == 0 && !pc'.Resending? && !pc'.Replied?
  {
  }

  /** One step that uses up a carrier. */
  ghost predicate UsesUp(st: Settings, config: Config, run: seq<Step>, run': seq<Step>) {
    && Continues(st, config, run, run') && Runs(st, config, run') && AllDown(Exec(st, config, run').value)
    && Exec(st, config, run').value.sh.configs == Exec(st, config, run).value.sh.configs
    && CarryRank(Exec(st, config, run').value) < CarryRank(Exec(st, config, run).value)
  }

  lemma UseHandling(st: Settings, config: Config, run: seq<Step>, i: nat, ok: Reply) returns (run': seq<Step>)
    requires Runs(st, config, run) && AllDown(Exec(st, config, run).value) && st.mayReply(ok) && Settling(ok)
    requires var s := Exec(st, config, run).value;
      i < |s.threads| && Handling(s.threads[i]) && !Doomed(s.sh, s.threads[i])
    ensures UsesUp(st, config, run, run')
  {
    var s := Exec(st, config, run).value;
    assert s.threads[i] in s.threads;
    hide Act, Doomed, Handling, CarryRank, Carry, AllDown, Running, Settling;
    assert s.threads[i].Replied? ==> Settling(s.threads[i].reply) by { DownReplies(s, i); }
    HandleStep(st, s.sh, s.threads[i], ok);
    var (sh', pc') := Act(st, s.sh, s.threads[i], NextChoice(s.threads[i], ok)).value;
    HandleAllDown(s, i, sh', pc');
    run' := Move(st, config, run, i, NextChoice(s.threads[i], ok));
  }

  lemma DownReplies(s: State, i: nat)
    requires AllDown(s) && i < |s.threads|
    ensures s.threads[i].Replied? ==> Settling(s.threads[i].reply)
  {
    assert s.threads[i] in s.threads;
  }

  lemma FreeSender(st: Settings, config: Config, run: seq<Step>) returns (i: nat)
    requires Runs(st, config, run)
    requires forall pc <- Exec(st, config, run).value.threads :: !Handling(pc) && !pc.Mismatched? && !pc.Resending?
    ensures i < |Exec(st, config, run).value.threads| && Exec(st, config, run).value.threads[i].SenderLoop?
  {
    var s := Exec(st, config, run).value;
    RunStaffed(st, config, run, 0);
    i := SumPositive(s.threads, Has(Role.Sender));
    assert s.threads[i] in s.threads;
  }

  lemma UseRequest(st: Settings, config: Config, run: seq<Step>) returns (run': seq<Step>)
    requires Runs(st, config, run) && AllDown(Exec(st, config, run).value)
      && Exec(st, config, run).value.sh.requests != []
    requires forall pc <- Exec(st, config, run).value.threads :: !Handling(pc) && !pc.Mismatched?
    ensures UsesUp(st, config, run, run')
  {
    var s := Exec(st, config, run).value;
    var i := FreeSender(st, config, run);
    TakeStep(st, s.sh);
    hide Act, CarryRank, AllDown, Running;
    HandleAllDown(s, i, s.sh.(requests := s.sh.requests[1..]), InFlight(s.sh.requests[0]));
    run' := Move(st, config, run, i, Go);
  }

  lemma UseCallback(st: Settings, config: Config, run: seq<Step>, i: nat) returns (run': seq<Step>)
    requires Runs(st, config, run) && AllDown(Exec(st, config, run).value)
      && Exec(st, config, run).value.sh.requests == []
    requires var s := Exec(st, config, run).value;
      i < |s.threads| && s.threads[i].Calling? && s.threads[i].cb.RecordReady?
    ensures UsesUp(st, config, run, run')
  {
    var s := Exec(st, config, run).value;
    SendStep(st, s.sh, s.threads[i]);
    hide Act, CarryRank, AllDown;
    var (sh', pc') := Act(st, s.sh, s.threads[i], Go).value;
    HandleAllDown(s, i, sh', pc');
    run' := Move(st, config, run, i, Go);
  }

  ghost predicate SomebodyDoomed(s: State) {
    exists pc <- s.threads :: Doomed(s.sh, pc)
  }

  lemma CarryRankNonNegative(s: State)
    ensures CarryRank(s) >= 0
  {
    SumNonNegative(s.threads, Carry());
  }

  lemma NoCarrierMeansDead(st: Settings, s: State)
    requires AllDown(s) && Running(st, s) && s.sh.requests == [] && !SomebodyDoomed(s)
    requires forall pc <- s.threads :: !Handling(pc) && (pc.Calling? ==> pc.cb.SpanProcessFail?)
    ensures Dead(s)
  {
    forall pc | pc in s.threads ensures Idles(pc) { assert !Doomed(s.sh, pc); }
  }

  /** Records in hand are sent and settled; then the exporter is dead, unless one of them is turned away. */
  lemma {:induction false} ExhaustsCarriers(st: Settings, config: Config, run: seq<Step>, ok: Reply)
    returns (run': seq<Step>)
    requires Runs(st, config, run) && AllDown(Exec(st, config, run).value) && st.mayReply(ok) && Settling(ok)
    ensures Continues(st, config, run, run') && Runs(st, config, run') && AllDown(Exec(st, config, run').value)
    ensures Exec(st, config, run').value.sh.configs == Exec(st, config, run).value.sh.configs
    ensures Dead(Exec(st, config, run').value) || SomebodyDoomed(Exec(st, config, run').value)
    decreases CarryRank(Exec(st, config, run).value)
  {
    hide Running, AllDown, CarryRank, Handling, Doomed, Settling, Dead;
    var s := Exec(st, config, run).value;
    var mid;
    if SomebodyDoomed(s) {
      return run;
    } else if i :| 0 <= i < |s.threads| && Handling(s.threads[i]) {
      assert s.threads[i] in s.threads;
      mid := UseHandling(st, config, run, i, ok);
    } else if s.sh.requests != [] {
      NobodyTurnedAway(s);
      mid := UseRequest(st, config, run);
    } else if i :| 0 <= i < |s.threads| && s.threads[i].Calling? && s.threads[i].cb.RecordReady? {
      mid := UseCallback(st, config, run, i);
    } else {
      NoCarrierMeansDead(st, s);
      return run;
    }
    CarryRankNonNegative(Exec(st, config, mid).value);
    run' := ExhaustsCarriers(st, config, mid, ok);
    ContinuesOn(st, config, run, mid, run');
  }

  lemma NobodyTurnedAway(s: State)
    requires !SomebodyDoomed(s)
    ensures forall pc <- s.threads :: !pc.Mismatched?
  {
    forall pc | pc in s.threads ensures !pc.Mismatched? { assert !Doomed(s.sh, pc); }
  }

  // ---------- empty or dead ----------

  ghost predicate Empty(s: State) {
    !Unfinished(s) && EverythingSettled(s)
  }

  /** The list of live encoders is the same, and so are the processor's state and the server's configuration. */
  ghost predicate SameList(sh: Shared, sh': Shared) {
    && sh'.lo == sh.lo && sh'.configs == sh.configs && sh'.cfgPc == sh.cfgPc && |sh'.ses| == |sh.ses|
    && forall j | 0 <= j < |sh.ses| :: sh'.ses[j].shard == sh.ses[j].shard && sh'.ses[j].stopped == sh.ses[j].stopped
  }

  lemma QuietKeepsList(st: Settings, stale: Staleness, s: State, q: Quiet)
    requires QuietNext(st, stale, s, q).Some?
    ensures SameList(s.sh, QuietNext(st, stale, s, q).value.sh)
  {
    hide Act, Smooth, ReplyFrom, SetConfig;
    if q.Moving? { ThreadFramed(st, s.sh, s.threads[q.i], q.ch); } else { hide NewConfig; }
  }

  lemma {:induction false} QuietRunKeepsList(st: Settings, stale: Staleness, s: State, quiet: seq<Quiet>)
    requires QuietExec(st, stale, s, quiet).Some?
    ensures SameList(s.sh, QuietExec(st, stale, s, quiet).value.sh)
  {
    hide QuietNext;
    if quiet != [] {
      QuietRunKeepsList(st, stale, s, quiet[..|quiet| - 1]);
      QuietKeepsList(st, stale, QuietExec(st, stale, s, quiet[..|quiet| - 1]).value, quiet[|quiet| - 1]);
    }
  }

  lemma SameListServes(s: State, t: State)
    requires SameList(s.sh, t.sh)
    ensures Alive(s) ==> Alive(t)
    ensures ServesCurrent(s.sh) ==> ServesCurrent(t.sh)
  {
    hide NewConfig;
    assert CurrentConfig(t.sh) == CurrentConfig(s.sh);
    assert CurrentShards(t.sh) == CurrentShards(s.sh);
  }

  ghost predicate KeepsConfigs(st: Settings, config: Config, run: seq<Step>, run': seq<Step>) {
    && Exec(st, config, run).Some? && Exec(st, config, run').Some?
    && Exec(st, config, run').value.sh.configs == Exec(st, config, run).value.sh.configs
  }

  /** A call that is turned away saves the day: the current configuration is applied and everything settles. */
  lemma Rescued(st: Settings, config: Config, run: seq<Step>, i: nat, ok: Reply) returns (run': seq<Step>)
    requires Runs(st, config, run) && st.mayReply(ok) && Settling(ok)
    requires var s := Exec(st, config, run).value;
      && s.sh.cfgPc.CfgWaiting? && NewConfig(CurrentConfig(s.sh)).Ok? && (forall pc <- s.threads :: ThreadStable(pc))
      && i < |s.threads| && Doomed(s.sh, s.threads[i])
    ensures Continues(st, config, run, run') && Runs(st, config, run')
    ensures KeepsConfigs(st, config, run, run')
    ensures var t := Exec(st, config, run').value; Empty(t) && ServesCurrent(t.sh) && t.sh.cfgPc.CfgWaiting?
  {
    hide Running, NewConfig, Stable, Unfinished, EverythingSettled, Settling, QuietExec, Rank, Doomed, SameList,
      ServesCurrent;
    var run1 := TurnedAway(st, config, run, i);
    var run2 := AppliesCurrent(st, config, run1);
    var quiet;
    quiet, run' := PipelineEmpties(st, config, run2, ok);
    var s2 := Exec(st, config, run2).value;
    QuietRunKeepsList(st, Outdated(s2.sh.configs), s2, quiet);
    SameListServes(s2, Exec(st, config, run').value);
    assert Running(st, Exec(st, config, run').value) by {
      QuietRunKeepsRunning(st, Outdated(s2.sh.configs), s2, quiet);
    }
    SameProcessor(s2.sh, Exec(st, config, run').value.sh);
    ContinuesOn(st, config, run, run1, run2);
    ContinuesOn(st, config, run, run2, run');
  }

  lemma SameProcessor(sh: Shared, sh': Shared)
    requires SameList(sh, sh')
    ensures sh'.configs == sh.configs && sh'.cfgPc == sh.cfgPc
  {
  }

  /** Nothing counts as stale. */
  function Never(): Staleness {
    (d: ShardDefinition) => false
  }

  /** The good end: no work is left, every span taken in is settled, the processor waits, and the encoders run. */
  ghost predicate GoodEnd(t: State) {
    Empty(t) && t.sh.cfgPc.CfgWaiting? && (Alive(t) || ServesCurrent(t.sh))
  }

  lemma LiveEncodersEmptyOrStuck(st: Settings, config: Config, run: seq<Step>, ok: Reply) returns (run': seq<Step>)
    requires Runs(st, config, run) && st.mayReply(ok) && Settling(ok)
    requires var s := Exec(st, config, run).value;
      s.sh.cfgPc.CfgWaiting? && Alive(s) && (forall pc <- s.threads :: ThreadStable(pc))
        && NewConfig(CurrentConfig(s.sh)).Ok?
    ensures Continues(st, config, run, run') && Runs(st, config, run') && KeepsConfigs(st, config, run, run')
    ensures GoodEnd(Exec(st, config, run').value)
  {
    RunKeepsInv(st, config, run);
    NotToldToStop(st, config, run);
    hide Running, NewConfig, FlagsOk, Unfinished, EverythingSettled, Settling, QuietExec, Rank, SameList, ServesCurrent;
    var s := Exec(st, config, run).value;
    var quiet, mid := RunsToTheEnd(st, Never(), config, run, ok);
    var t := Exec(st, config, mid).value;
    QuietRunKeepsList(st, Never(), s, quiet);
    SameListServes(s, t);
    if Empty(t) {
      run' := mid;
    } else {
      var i := StuckIsDoomed(t);
      run' := Rescued(st, config, mid, i, ok);
      ContinuesOn(st, config, run, mid, run');
    }
  }

  lemma StuckIsDoomed(s: State) returns (i: nat)
    requires EmptyOrStuck(Never(), s) && !Empty(s)
    ensures i < |s.threads| && Doomed(s.sh, s.threads[i])
  {
    var pc :| pc in s.threads && !Meets(Never(), s.sh, pc);
    i :| 0 <= i < |s.threads| && s.threads[i] == pc;
  }

  lemma DoomedThread(s: State) returns (i: nat)
    requires SomebodyDoomed(s)
    ensures i < |s.threads| && Doomed(s.sh, s.threads[i])
  {
    var pc :| pc in s.threads && Doomed(s.sh, pc);
    i :| 0 <= i < |s.threads| && s.threads[i] == pc;
  }

  lemma DownIsStable(s: State)
    requires AllDown(s)
    ensures s.sh.cfgPc.CfgWaiting? && forall pc <- s.threads :: ThreadStable(pc)
  {
  }

  lemma StoppedEncodersDeadOrEmpty(st: Settings, config: Config, run: seq<Step>, ok: Reply) returns (run': seq<Step>)
    requires Runs(st, config, run) && st.mayReply(ok) && Settling(ok)
    requires AllDown(Exec(st, config, run).value) && NewConfig(CurrentConfig(Exec(st, config, run).value.sh)).Ok?
    ensures Continues(st, config, run, run') && Runs(st, config, run') && KeepsConfigs(st, config, run, run')
    ensures GoodEnd(Exec(st, config, run').value) || Dead(Exec(st, config, run').value)
  {
    hide Running, NewConfig, Settling, Dead, Empty, SomebodyDoomed, Doomed, ServesCurrent, Alive;
    var mid := ExhaustsCarriers(st, config, run, ok);
    var t := Exec(st, config, mid).value;
    if Dead(t) {
      run' := mid;
    } else {
      var i := DoomedThread(t);
      DownIsStable(t);
      run' := Rescued(st, config, mid, i, ok);
      ContinuesOn(st, config, run, mid, run');
    }
  }

  /** After the replies in hand are dealt with and the processor is at rest. */
  lemma AtRest(st: Settings, config: Config, run: seq<Step>) returns (run': seq<Step>)
    requires Runs(st, config, run)
    ensures Continues(st, config, run, run') && Runs(st, config, run')
    ensures var s, t := Exec(st, config, run).value, Exec(st, config, run').value;
      && t.sh.configs == s.sh.configs && NothingToApply(t.sh)
      && forall pc <- t.threads :: !HandlesReply(pc)
  {
    var run1 := FinishReplies(st, config, run);
    run' := ComesToRest(st, config, run1);
    ContinuesOn(st, config, run, run1, run');
    NoNewReplies(Exec(st, config, run1).value, Exec(st, config, run').value);
  }

  lemma NoNewReplies(s: State, t: State)
    requires OnlyConfigures(s, t) && forall pc <- s.threads :: !HandlesReply(pc)
    ensures forall pc <- t.threads :: !HandlesReply(pc)
  {
    forall pc | pc in t.threads ensures !HandlesReply(pc) {
      var k :| 0 <= k < |t.threads| && t.threads[k] == pc;
      if k < |s.threads| { assert s.threads[k] == pc; }
    }
  }

  lemma FromRest(st: Settings, config: Config, run: seq<Step>, ok: Reply) returns (run': seq<Step>)
    requires Runs(st, config, run) && st.mayReply(ok) && Settling(ok)
    requires var s := Exec(st, config, run).value;
      NothingToApply(s.sh) && (forall pc <- s.threads :: !HandlesReply(pc)) && NewConfig(CurrentConfig(s.sh)).Ok?
    ensures Continues(st, config, run, run') && Runs(st, config, run') && KeepsConfigs(st, config, run, run')
    ensures GoodEnd(Exec(st, config, run').value) || Dead(Exec(st, config, run').value)
  {
    var s := Exec(st, config, run).value;
    RunTogether(st, config, run);
    RunKeepsInv(st, config, run);
    hide NewConfig, Settling, Dead, GoodEnd, Inv;
    if Alive(s) {
      run' := LiveEncodersEmptyOrStuck(st, config, run, ok);
    } else {
      AllAreStopped(st, s);
      run' := StoppedEncodersDeadOrEmpty(st, config, run, ok);
    }
  }

  /**
   * Empty or dead. From any state that a run reaches before shutdown, if the
   * server's current configuration is acceptable and the server may answer
   * with some settling reply, the exporter and the server can go on by themselves until either
   * no work is left, every span taken in is settled, and encoders are live or those
   * of the server's current configuration have been started; or the exporter is dead
   * and, by DeadForGood, will never have anything recorded again. If that
   * configuration has a shard the two ends exclude each other.
   */
  lemma ConvergesOrDies(st: Settings, config: Config, run: seq<Step>, ok: Reply) returns (run': seq<Step>)
    requires Exec(st, config, run).Some? && Running(st, Exec(st, config, run).value)
    requires NewConfig(CurrentConfig(Exec(st, config, run).value.sh)).Ok?
    requires st.mayReply(ok) && Settling(ok)
    ensures Continues(st, config, run, run') && Running(st, Exec(st, config, run').value)
    ensures var s, t := Exec(st, config, run).value, Exec(st, config, run').value;
      && t.sh.configs == s.sh.configs
      && (GoodEnd(t) || Dead(t))
      && (GoodEnd(t) && CurrentConfig(s.sh) != [] ==> Alive(t) && !Dead(t))
  {
    hide Running, NewConfig, Settling, Dead, GoodEnd, NothingToApply, HandlesReply;
    var rest := AtRest(st, config, run);
    run' := FromRest(st, config, rest, ok);
    ContinuesOn(st, config, run, rest, run');
    var s, t := Exec(st, config, run).value, Exec(st, config, run').value;
    if GoodEnd(t) && CurrentConfig(s.sh) != [] { EndsExclude(t); }
  }

  lemma ShardsOfAccepted(config: Config)
    requires NewConfig(config).Ok?
    ensures |NewConfig(config).value| == |config|
  {
    NewConfigAcceptsExactly(config);
    assert |multiset(NewConfig(config).value)| == |multiset(Map(config, InMemory))|;
  }

  lemma EndsExclude(t: State)
    requires GoodEnd(t) && CurrentConfig(t.sh) != []
    ensures Alive(t) && !Dead(t)
  {
    if ServesCurrent(t.sh) { ShardsOfAccepted(CurrentConfig(t.sh)); }
    hide NewConfig;
    assert t.sh.lo < |t.sh.ses|;
    assert t.sh.ses[t.sh.lo] in t.sh.ses;
  }

  lemma AllAreStopped(st: Settings, s: State)
    requires Inv(st, s) && AllStopped(s.sh) && NothingToApply(s.sh) && forall pc <- s.threads :: !HandlesReply(pc)
    ensures AllDown(s)
  {
    hide PcInv;
    forall b | b in s.sh.ses ensures b.stopped {
      var j :| 0 <= j < |s.sh.ses| && s.sh.ses[j] == b;
    }
  }
}
