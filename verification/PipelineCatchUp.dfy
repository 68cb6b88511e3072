/**
 * How the exporter catches up with the server: one span for a shard that the
 * server no longer knows brings the current configuration, and then spans can be delivered again.
 */
module PipelineCatchUp {
  import opened Basics
  import opened ShardingConfig
  import opened Spans
  import opened ShardEncoding
  import opened Server
  import opened Exporting
  import opened ConfigMailbox
  import opened Pipeline
  import opened PipelineRouting
  import opened PipelineBounds
  import opened PipelineHistory
  import opened PipelineProgress
  import opened PipelineConfiguration
  import opened PipelineDelivery
  import opened PipelineDrain
  import opened PipelineConvergence
  import opened PipelineOutcome
  import opened PipelineRecovery

  // ---------- empty batches weigh nothing ----------

  ghost predicate Emptied(sh: Shared) {
    forall j | 0 <= j < |sh.ses| :: sh.ses[j].pending == [] ==> sh.ses[j].accumulatedSize == 0
  }

  lemma AppendEmptied(limits: Limits, b: Batcher, span: Span, size: nat)
    requires b.pending == [] ==> b.accumulatedSize == 0
    ensures var b' := AppendSection(limits, b, span, size).0; b'.pending == [] ==> b'.accumulatedSize == 0
  {
  }

  lemma FlushEmptied(limits: Limits, b: Batcher)
    requires b.pending == [] ==> b.accumulatedSize == 0
    ensures FlushSection(limits, b).0.accumulatedSize == 0
  {
  }

  lemma ThreadEmptied(st: Settings, sh: Shared, pc: Pc, ch: Choice)
    requires Emptied(sh) && Act(st, sh, pc, ch).Some?
    ensures Emptied(Act(st, sh, pc, ch).value.0)
  {
    if pc.Sized? {
      SizedIsWork(st, sh, pc, ch);
      hide Act, AppendSection;
      AppendEmptied(st.limits, sh.ses[pc.se], pc.span, pc.size);
    } else if pc.Flushing? {
      SizedIsWork(st, sh, pc, ch);
      hide Act, FlushSection;
      FlushEmptied(st.limits, sh.ses[pc.se]);
    } else {
      OthersLeaveEncoders(st, sh, pc, ch, 0);
      hide Act;
    }
  }

  lemma LeavesEmptied(s: State, r: Option<(Shared, seq<Pc>)>)
    requires Emptied(s.sh) && LeavesBatches(s.sh, r) && r.Some?
    ensures Emptied(Spawn(s, r).value.sh)
  {
  }

  lemma NextEmptied(st: Settings, s: State, step: Step)
    requires Emptied(s.sh) && Next(st, s, step).Some?
    ensures Emptied(Next(st, s, step).value.sh)
  {
    hide Act, Configure, Boot, Shutdown, LeavesBatches;
    match step
    case Thread(i, ch) => ThreadEmptied(st, s.sh, s.threads[i], ch);
    case Configuring =>
      ConfigureLeavesBatches(st, s.sh);
      LeavesEmptied(s, Configure(st, s.sh));
    case Booting(ok) =>
      BootLeavesBatches(st, s.sh, ok);
      LeavesEmptied(s, Boot(st, s.sh, ok));
    case ShuttingDown(timedOut) =>
      ShutdownLeavesBatches(st, s.sh, timedOut);
      LeavesEmptied(s, Shutdown(st, s.sh, timedOut));
    case _ =>
  }

  lemma {:induction false} RunEmptied(st: Settings, config: Config, run: seq<Step>)
    requires Exec(st, config, run).Some?
    ensures Emptied(Exec(st, config, run).value.sh)
  {
    hide Next, Emptied;
    if run == [] {
      assert Emptied(Init(config).sh) by { StartsEmptied(config); }
    } else {
      RunEmptied(st, config, run[..|run| - 1]);
      NextEmptied(st, Exec(st, config, run[..|run| - 1]).value, run[|run| - 1]);
    }
  }

  lemma StartsEmptied(config: Config)
    ensures Emptied(Init(config).sh)
  {
  }

  // ---------- a crew for the next span ----------

  lemma NobodyBusy(s: State, i: nat)
    requires !Unfinished(s) && i < |s.threads|
    ensures !Busy(s.sh, s.threads[i])
  {
  }

  lemma NothingWaits(s: State)
    requires !Unfinished(s)
    ensures s.sh.queue == [] && s.sh.requests == [] && s.sh.out.retry == []
    ensures forall j | 0 <= j < |s.sh.ses| :: s.sh.ses[j].pending == []
  {
    forall j | 0 <= j < |s.sh.ses| ensures s.sh.ses[j].pending == [] { assert !HasPending(s.sh, j); }
  }

  /** A live encoder's flusher that has nothing to do waits for its tick, or is about to find its batch empty. */
  lemma IdleFlusher(st: Settings, sh: Shared, pc: Pc, se: nat)
    requires PcInv(st, sh, pc) && !Busy(sh, pc) && RoleOf(pc) == Flusher(se)
    requires se < |sh.ses| && !sh.ses[se].stopped
    ensures pc == FlusherLoop(se) || pc == Flushing(se, NextTick(se))
  {
  }

  lemma IdleWorker(ctl: Control, sh: Shared, pc: Pc)
    requires !Busy(sh, pc) && GoneForReason(ctl, pc)
    ensures RoleOf(pc) == Worker && !ctl.hardStop ==> pc == WorkerLoop
    ensures RoleOf(pc) == Role.Sender && !ctl.clientDone ==> pc == SenderLoop
  {
  }

  lemma EmptyTick(st: Settings, sh: Shared, se: nat)
    requires se < |sh.ses| && sh.ses[se].pending == []
    ensures Act(st, sh, Flushing(se, NextTick(se)), Go) == Some((sh, FlusherLoop(se)))
  {
    assert sh.ses[se := sh.ses[se]] == sh.ses;
  }

  /** Everything is ready for a span that encoder k of the current list owns. */
  ghost predicate Awaits(st: Settings, config: Config, run: seq<Step>, k: nat, span: Span) {
    && Runs(st, config, run)
    && var s := Exec(st, config, run).value;
    && !Unfinished(s) && AllRun(s.sh) && s.sh.lo <= k < |s.sh.ses|
    && Encodable(st, span)
    && FindShard(CurrentShards(s.sh), PartitionKeyToHashKey(st.limits.codec.md5, span.traceID)) == Some(k - s.sh.lo)
  }

  lemma ThreadOf(st: Settings, config: Config, run: seq<Step>, role: Role) returns (i: nat)
    requires Runs(st, config, run) && !Unfinished(Exec(st, config, run).value)
    requires role == Worker || role == Role.Sender || (role.Flusher? && role.se < |Exec(st, config, run).value.sh.ses|)
    ensures var s := Exec(st, config, run).value; i < |s.threads| && RoleOf(s.threads[i]) == role
  {
    var s := Exec(st, config, run).value;
    RunStaffed(st, config, run, if role.Flusher? then role.se else 0);
    hide RoleOf, Unfinished;
    i := SumPositive(s.threads, Has(role));
  }

  /** The threads that will carry the span; its encoder's flusher first finishes an empty flush, if it is in one. */
  lemma CrewFor(st: Settings, config: Config, run: seq<Step>, k: nat, span: Span)
    returns (run': seq<Step>, crew: Crew)
    requires Awaits(st, config, run, k, span)
    ensures Continues(st, config, run, run') && Runs(st, config, run')
    ensures var s, t := Exec(st, config, run).value, Exec(st, config, run').value;
      t.sh == s.sh && Ready(st, t, crew, span) && crew.shard == k && forall pc <- t.threads :: !pc.Replied?
  {
    hide RoleOf, FindShard, CurrentShards, Encodable, PcInv, SharedInv, Unfinished, Act;
    var s := Exec(st, config, run).value;
    RunKeepsInv(st, config, run);
    NotToldToStop(st, config, run);
    RunEmptied(st, config, run);
    NothingWaits(s);
    var w := LoopOf(st, config, run, Worker);
    var i := LoopOf(st, config, run, Role.Sender);
    var f := ThreadOf(st, config, run, Flusher(k));
    NobodyBusy(s, f);
    IdleFlusher(st, s.sh, s.threads[f], k);
    run', crew := run, Crew(i, f, w, k);
    if s.threads[f] != FlusherLoop(k) {
      EmptyTick(st, s.sh, k);
      run' := Move(st, config, run, f, Go);
    }
    NobodyReplies(s);
  }

  lemma NobodyReplies(s: State)
    requires !Unfinished(s)
    ensures forall pc <- s.threads :: !pc.Replied?
  {
    forall pc | pc in s.threads ensures !pc.Replied? {
      var i :| 0 <= i < |s.threads| && s.threads[i] == pc;
      NobodyBusy(s, i);
    }
  }

  /** A worker or a sender that has nothing to do is at its loop. */
  lemma LoopOf(st: Settings, config: Config, run: seq<Step>, role: Role) returns (i: nat)
    requires Runs(st, config, run) && !Unfinished(Exec(st, config, run).value)
    requires role == Worker || role == Role.Sender
    ensures var s := Exec(st, config, run).value;
      i < |s.threads| && s.threads[i] == if role == Worker then WorkerLoop else SenderLoop
  {
    hide RoleOf, Unfinished, Busy;
    var s := Exec(st, config, run).value;
    RunStaffed(st, config, run, 0);
    i := ThreadOf(st, config, run, role);
    assert s.threads[i] in s.threads;
    NobodyBusy(s, i);
    IdleWorker(s.sh.ctl, s.sh, s.threads[i]);
  }

  /** The span is taken in and on its way to the server, for the shard of encoder k; nobody holds a reply. */
  ghost predicate OnItsWay(st: Settings, s: State, t: State, i: nat, k: nat, span: Span) {
    && Encodable(st, span) && k < |s.sh.ses|
    && t.sh == s.sh.(admitted := s.sh.admitted + [span])
    && i < |t.threads| && t.threads[i] == InFlight(RequestFor(st, span, s.sh.ses[k].shard))
    && forall pc <- t.threads :: !pc.Replied?
  }

  lemma SendsOne(st: Settings, config: Config, run: seq<Step>, k: nat, span: Span) returns (run': seq<Step>, i: nat)
    requires Awaits(st, config, run, k, span)
    ensures run <= run' && Runs(st, config, run')
    ensures OnItsWay(st, Exec(st, config, run).value, Exec(st, config, run').value, i, k, span)
  {
    hide FindShard, CurrentShards, Encodable, Reached, Unfinished, Exec, AllRun;
    var ready, crew := CrewFor(st, config, run, k, span);
    var t := Exec(st, config, ready).value;
    ReachSelf(st, t);
    ReachNext(st, t, t, Arrive([span]));
    var s1 := State(t.sh, t.threads + [Entering([span], false)]);
    assert Ready(st, s1, crew, span);
    var s2 := Launch(st, t, s1, crew, |t.threads|, span);
    run' := RunOn(st, config, ready, s2);
    i := crew.sender;
  }

  // ---------- catching up ----------

  lemma StaleIsDoomed(st: Settings, s: State, t: State, i: nat, k: nat, span: Span)
    requires OnItsWay(st, s, t, i, k, span)
    ensures CurrentConfig(t.sh) == CurrentConfig(s.sh) && (forall pc <- t.threads :: ThreadStable(pc))
    ensures !ShardIsPartOfConfig(s.sh.ses[k].shard.origin, CurrentConfig(s.sh)) ==> Doomed(t.sh, t.threads[i])
    ensures t.sh.cfgPc == s.sh.cfgPc && t.sh.configs == s.sh.configs
  {
  }

  /**
   * One span for a live shard that is not part of the server's current
   * configuration makes the exporter catch up: it ends with nothing left to do and its
   * live encoders exactly one for each shard of that configuration.
   */
  lemma CatchesUp(st: Settings, config: Config, run: seq<Step>, k: nat, span: Span, ok: Reply)
    returns (run': seq<Step>)
    requires Awaits(st, config, run, k, span) && st.mayReply(ok) && Settling(ok)
    requires var s := Exec(st, config, run).value;
      && s.sh.cfgPc.CfgWaiting? && NewConfig(CurrentConfig(s.sh)).Ok?
      && !ShardIsPartOfConfig(s.sh.ses[k].shard.origin, CurrentConfig(s.sh))
    ensures run <= run' && Runs(st, config, run') && KeepsConfigs(st, config, run, run')
    ensures var t := Exec(st, config, run').value; Empty(t) && ServesCurrent(t.sh) && t.sh.cfgPc.CfgWaiting?
  {
    var s := Exec(st, config, run).value;
    var run1, i := SendsOne(st, config, run, k, span);
    StaleIsDoomed(st, s, Exec(st, config, run1).value, i, k, span);
    hide Running, NewConfig, Settling, Doomed, OnItsWay, CurrentConfig, Empty, ServesCurrent, Exec;
    run' := Rescued(st, config, run1, i, ok);
  }

  lemma SuccessDelivers(o: Outbox, mail: Mailbox, spans: seq<Span>, reply: Reply)
    requires Successful(reply)
    ensures OnReply(o, spans, reply) == o.(delivered := o.delivered + spans) && MailAfter(mail, reply) == mail
  {
  }

  /** A span for a live shard that the server knows is delivered, if the server reports success. */
  lemma DeliversOne(st: Settings, config: Config, run: seq<Step>, k: nat, span: Span, ok: Reply)
    returns (run': seq<Step>)
    requires Awaits(st, config, run, k, span) && st.mayReply(ok) && Successful(ok)
    requires var s := Exec(st, config, run).value;
      ShardIsPartOfConfig(s.sh.ses[k].shard.origin, CurrentConfig(s.sh))
    ensures run <= run' && KeepsConfigs(st, config, run, run')
    ensures Exec(st, config, run').value.sh.out.delivered == Exec(st, config, run).value.sh.out.delivered + [span]
  {
    var run1, i := SendsOne(st, config, run, k, span);
    var t := Exec(st, config, run1).value;
    hide Running, ShardIsPartOfConfig, Encodable, Reached, Exec, OnReply, MailAfter, Successful;
    ReachSelf(st, t);
    SuccessDelivers(t.sh.out, t.sh.mail, [span], ok);
    var u := RecordAndReply(st, t, t, i, ok);
    run' := RunOn(st, config, run1, u);
  }

  // ---------- what is delivered stays delivered ----------

  lemma WorkDelivers(st: Settings, sh: Shared, pc: Pc, ch: Choice)
    requires Act(st, sh, pc, ch).Some? && (CallerPc(pc) || WorkerPc(pc) || FlushPc(pc))
    ensures Act(st, sh, pc, ch).value.0.out.delivered == sh.out.delivered
  {
    if pc.Calling? && pc.cb.SpanProcessFail? { ResendDeliversNothing(sh.out, pc.cb.spans, pc.cb.code); }
    hide AppendSection, TryEncode, FindShard, CurrentShards, FlushSection, OnSpanProcessFail;
  }

  lemma ReplyDelivers(o: Outbox, spans: seq<Span>, reply: Reply)
    ensures o.delivered <= OnReply(o, spans, reply).delivered && o.delivered <= ResendSpans(o, spans).delivered
  {
  }

  lemma SenderDelivers(st: Settings, sh: Shared, pc: Pc, ch: Choice)
    requires SenderAct(st, sh, pc, ch).Some?
    ensures sh.out.delivered <= SenderAct(st, sh, pc, ch).value.0.out.delivered
  {
    if pc.Replied? { ReplyDelivers(sh.out, pc.req.originalSpans, pc.reply); }
    if pc.Resending? { ReplyDelivers(sh.out, pc.spans, RpcError([])); }
    hide OnReply, ResendSpans, SetConfig, ShardIsPartOfConfig, CurrentConfig;
  }

  lemma NextDelivers(st: Settings, s: State, step: Step)
    requires Next(st, s, step).Some?
    ensures s.sh.out.delivered <= Next(st, s, step).value.sh.out.delivered
  {
    if step.Thread? {
      var pc := s.threads[step.i];
      if CallerPc(pc) || WorkerPc(pc) || FlushPc(pc) { WorkDelivers(st, s.sh, pc, step.ch); }
      else { SenderDelivers(st, s.sh, pc, step.ch); }
      hide CallerAct, WorkerAct, FlushAct, SenderAct;
    } else {
      OthersForgetNothing(st, s, step);
    }
  }

  lemma {:induction false} RunDelivers(st: Settings, config: Config, run: seq<Step>, run': seq<Step>)
    requires Exec(st, config, run).Some? && Exec(st, config, run').Some? && run <= run'
    ensures Exec(st, config, run).value.sh.out.delivered <= Exec(st, config, run').value.sh.out.delivered
    decreases |run'|
  {
    hide Next;
    if |run| < |run'| {
      var init := run'[..|run'| - 1];
      RunDelivers(st, config, run, init);
      NextDelivers(st, Exec(st, config, init).value, run'[|run'| - 1]);
    } else {
      assert run == run';
    }
  }

  // ---------- spans for live encoders ----------

  /** The library calls let some span through for each definition. */
  ghost predicate Servable(st: Settings, config: Config) {
    forall d <- config :: exists span :: Encodable(st, span) && Belongs(st, InMemory(d), span)
  }

  ghost predicate AllServable(st: Settings, configs: seq<Config>) {
    forall c <- configs :: Servable(st, c)
  }

  /** The scan finds encoder k of the current list for a span of its shard. */
  lemma ScanFinds(st: Settings, sh: Shared, k: nat, span: Span)
    requires SharedInv(st, sh) && sh.lo <= k < |sh.ses| && Belongs(st, sh.ses[k].shard, span)
    ensures FindShard(CurrentShards(sh), PartitionKeyToHashKey(st.limits.codec.md5, span.traceID)) == Some(k - sh.lo)
  {
    FoundShardOwnsSpan(st, sh, span);
    hide SharedInv, FindShard, CurrentShards, PartitionKeyToHashKey;
  }

  lemma ShardOfOrigin(st: Settings, sh: Shared, k: nat)
    requires SharedInv(st, sh) && k < |sh.ses|
    ensures sh.ses[k].shard == InMemory(sh.ses[k].shard.origin)
  {
    hide Placed, Ascending, MailboxInv, RequestsOk, RecordsOk, RetryOk, CfgOk;
  }

  lemma SpanOfShard(st: Settings, configs: seq<Config>, shard: Shard) returns (span: Span)
    requires AllServable(st, configs) && KnownShard(configs, shard) && shard == InMemory(shard.origin)
    ensures Encodable(st, span) && Belongs(st, shard, span)
  {
    hide Encodable, Belongs, InMemory;
    var c :| c in configs && shard.origin in c;
    assert Servable(st, c);
    span :| Encodable(st, span) && Belongs(st, InMemory(shard.origin), span);
  }

  /** A live encoder has a span of its own. */
  lemma SpanFor(st: Settings, config: Config, run: seq<Step>, k: nat) returns (span: Span)
    requires MismatchesAreEarly(st) && Runs(st, config, run)
    requires var s := Exec(st, config, run).value;
      !Unfinished(s) && AllRun(s.sh) && s.sh.lo <= k < |s.sh.ses| && AllServable(st, s.sh.configs)
    ensures Awaits(st, config, run, k, span)
  {
    hide Unfinished, Running, MismatchesAreEarly, FindShard, Encodable, Belongs, InMemory, SharedInv, PcInv, AllFrom,
      AllServable, KnownShard, Exec, AllRun, CurrentShards, PartitionKeyToHashKey;
    var s := Exec(st, config, run).value;
    RunKeepsInv(st, config, run);
    ConfigurationsComeFromServer(st, config, run);
    EncoderIsKnown(s, k);
    ShardOfOrigin(st, s.sh, k);
    span := SpanOfShard(st, s.sh.configs, s.sh.ses[k].shard);
    ScanFinds(st, s.sh, k, span);
  }

  lemma EncoderIsKnown(s: State, k: nat)
    requires AllFrom(s) && k < |s.sh.ses|
    ensures KnownShard(s.sh.configs, s.sh.ses[k].shard)
  {
  }

  lemma ServedIsPart(st: Settings, s: State)
    requires SharedInv(st, s.sh) && ServesCurrent(s.sh) && CurrentConfig(s.sh) != []
    ensures s.sh.lo < |s.sh.ses| && ShardIsPartOfConfig(s.sh.ses[s.sh.lo].shard.origin, CurrentConfig(s.sh))
  {
    ShardsOfAccepted(CurrentConfig(s.sh));
    hide NewConfig, BatcherOk, CfgOk, RequestsOk, RecordsOk, RetryOk, MailboxInv;
    var shards := NewConfig(CurrentConfig(s.sh)).value;
    NewShardsKnowOrigin(CurrentConfig(s.sh), 0);
    assert s.sh.ses[s.sh.lo].shard == shards[0];
    assert SameDefinition(shards[0].origin, shards[0].origin);
  }

  /** An exporter that serves the server's configuration delivers its next span. */
  lemma DeliversWhenCurrent(st: Settings, config: Config, run: seq<Step>, ok: Reply) returns (run': seq<Step>)
    requires MismatchesAreEarly(st) && Runs(st, config, run) && st.mayReply(ok) && Successful(ok)
    requires var s := Exec(st, config, run).value;
      !Unfinished(s) && ServesCurrent(s.sh) && CurrentConfig(s.sh) != [] && AllServable(st, s.sh.configs)
    ensures run <= run' && KeepsConfigs(st, config, run, run')
    ensures |Exec(st, config, run').value.sh.out.delivered| > |Exec(st, config, run).value.sh.out.delivered|
  {
    hide Unfinished, Running, MismatchesAreEarly, AllServable, NewConfig, Successful, Awaits, ShardIsPartOfConfig;
    var s := Exec(st, config, run).value;
    RunKeepsInv(st, config, run);
    ServedIsPart(st, s);
    var span := SpanFor(st, config, run, s.sh.lo);
    run' := DeliversOne(st, config, run, s.sh.lo, span, ok);
  }

  /** From the good end a span is delivered, after catching up if the first one is for a stale shard. */
  lemma DeliversFromGoodEnd(st: Settings, config: Config, run: seq<Step>, ok: Reply) returns (run': seq<Step>)
    requires MismatchesAreEarly(st) && Runs(st, config, run) && st.mayReply(ok) && Successful(ok)
    requires var s := Exec(st, config, run).value;
      && Empty(s) && Alive(s) && s.sh.cfgPc.CfgWaiting?
      && AllUsable(s.sh.configs) && AllServable(st, s.sh.configs)
    ensures run <= run' && KeepsConfigs(st, config, run, run')
    ensures |Exec(st, config, run').value.sh.out.delivered| > |Exec(st, config, run).value.sh.out.delivered|
  {
    CurrentIsUsable(st, config, run);
    hide Unfinished, Running, MismatchesAreEarly, AllServable, NewConfig, Awaits, AllUsable, ServesCurrent,
      EverythingSettled, ShardIsPartOfConfig, CurrentConfig, Exec;
    var s := Exec(st, config, run).value;
    var span := SpanFor(st, config, run, s.sh.lo);
    if ShardIsPartOfConfig(s.sh.ses[s.sh.lo].shard.origin, CurrentConfig(s.sh)) {
      run' := DeliversOne(st, config, run, s.sh.lo, span, ok);
    } else {
      SuccessSettles(ok);
      var mid := CatchesUp(st, config, run, s.sh.lo, span, ok);
      RunDelivers(st, config, run, mid);
      CurrentIsUsable(st, config, mid);
      run' := DeliversWhenCurrent(st, config, mid, ok);
    }
  }

  // ---------- delivery is never lost ----------

  predicate EncodersMeanWorkers(sh: Shared) {
    sh.ses != [] ==> sh.workersStarted
  }

  lemma NextEncodersMeanWorkers(st: Settings, s: State, step: Step)
    requires EncodersMeanWorkers(s.sh) && Next(st, s, step).Some?
    ensures EncodersMeanWorkers(Next(st, s, step).value.sh)
  {
    hide Act, Boot, Shutdown, NewConfig, CheckMailbox, KeepsStaff;
    match step
    case Thread(i, ch) =>
      ThreadFramed(st, s.sh, s.threads[i], ch);
      hide ReplyFrom;
    case Configuring =>
    case Booting(ok) => BootKeepsEncoders(st, s.sh, ok);
    case ShuttingDown(timedOut) => ShutdownKeepsEncoders(st, s.sh, timedOut);
    case _ =>
  }

  lemma BootKeepsEncoders(st: Settings, sh: Shared, ok: bool)
    requires Boot(st, sh, ok).Some?
    ensures var sh' := Boot(st, sh, ok).value.0; sh'.ses == sh.ses && sh'.workersStarted == sh.workersStarted
  {
    hide SetConfig, CurrentConfig;
  }

  lemma ShutdownKeepsEncoders(st: Settings, sh: Shared, timedOut: bool)
    requires Shutdown(st, sh, timedOut).Some?
    ensures var sh' := Shutdown(st, sh, timedOut).value.0;
      |sh'.ses| == |sh.ses| && sh'.workersStarted == sh.workersStarted
  {
    DrainKeepsStaff(sh, timedOut);
    hide DrainEncoder, FlagStop, SignalStop;
  }

  lemma {:induction false} RunEncodersMeanWorkers(st: Settings, config: Config, run: seq<Step>)
    requires Exec(st, config, run).Some?
    ensures EncodersMeanWorkers(Exec(st, config, run).value.sh)
  {
    hide Next;
    if run != [] {
      RunEncodersMeanWorkers(st, config, run[..|run| - 1]);
      NextEncodersMeanWorkers(st, Exec(st, config, run[..|run| - 1]).value, run[|run| - 1]);
    }
  }

  lemma UpTurn(st: Settings, s: State)
    requires Up(s) && Configure(st, s.sh).Some?
    ensures var s' := Spawn(s, Configure(st, s.sh)).value;
      Up(s') && s'.sh.configs == s.sh.configs && s'.sh.out == s.sh.out
  {
    hide NewConfig, CheckMailbox;
  }

  /** An exporter that is up starts its workers, by itself, with the first usable configuration. */
  lemma {:induction false} StartsWorkers(st: Settings, config: Config, run: seq<Step>) returns (run': seq<Step>)
    requires MismatchesAreEarly(st) && Exec(st, config, run).Some? && Up(Exec(st, config, run).value)
    requires AllUsable(Exec(st, config, run).value.sh.configs) && st.numWorkers >= 1 && st.sendConcurrency >= 1
    ensures run <= run' && Runs(st, config, run') && KeepsConfigs(st, config, run, run')
    decreases if Exec(st, config, run).value.sh.mail.request.Some? then 1 else 0,
      TurnsLeft(Exec(st, config, run).value.sh)
  {
    hide MismatchesAreEarly, AllUsable, SharedInv, NewConfig, AllFrom;
    var s := Exec(st, config, run).value;
    if s.sh.workersStarted {
      run' := run;
    } else {
      RunHopeful(st, config, run);
      RunEncodersMeanWorkers(st, config, run);
      WhatIsApplied(st, config, run);
      RunGoneOnlyIfStopped(st, config, run);
      if s.sh.cfgPc.CfgWaiting? {
        MailIsSound(st, config, run);
        TakesRequest(st, s.sh);
      } else {
        BusyProcessorAdvances(st, s.sh);
      }
      UpTurn(st, s);
      hide Configure, Up;
      ExecSnoc(st, config, run, Configuring);
      run' := StartsWorkers(st, config, run + [Configuring]);
    }
  }

  /** Some continuation, with the server's configuration unchanged, delivers another span. */
  ghost predicate CanStillDeliver(st: Settings, config: Config, run: seq<Step>) {
    exists run' :: run <= run' && KeepsConfigs(st, config, run, run')
      && |Exec(st, config, run').value.sh.out.delivered| > |Exec(st, config, run).value.sh.out.delivered|
  }

  lemma DeadCannotDeliver(st: Settings, config: Config, run: seq<Step>)
    requires Exec(st, config, run).Some? && Dead(Exec(st, config, run).value)
    ensures !CanStillDeliver(st, config, run)
  {
    hide Exec, Dead;
    forall run' | run <= run' && KeepsConfigs(st, config, run, run')
      ensures |Exec(st, config, run').value.sh.out.delivered| == |Exec(st, config, run).value.sh.out.delivered|
    {
      assert run' == run + run'[|run|..];
      DeadForGood(st, config, run, run'[|run|..]);
    }
  }

  lemma DeliversAgain(st: Settings, config: Config, run: seq<Step>, ok: Reply)
    requires MismatchesAreEarly(st) && Exec(st, config, run).Some? && Up(Exec(st, config, run).value)
    requires AllUsable(Exec(st, config, run).value.sh.configs)
    requires AllServable(st, Exec(st, config, run).value.sh.configs)
    requires st.numWorkers >= 1 && st.sendConcurrency >= 1 && st.mayReply(ok) && Successful(ok)
    ensures CanStillDeliver(st, config, run)
  {
    hide MismatchesAreEarly, AllUsable, AllServable, Exec, Running, Empty, Alive, Dead;
    SuccessSettles(ok);
    var run1 := StartsWorkers(st, config, run);
    var run2 := Recovers(st, config, run1, ok);
    var run3 := DeliversFromGoodEnd(st, config, run2, ok);
    RunDelivers(st, config, run, run2);
  }

  /**
   * Delivery is never lost exactly with usable configurations. Let the server
   * report mismatches before it records, be able to report success, and
   * take its configurations from a given set, whose usable ones have spans for their shards. Then an
   * exporter that is up can, in every run and whatever happened, still deliver
   * spans under the server's configuration as it stands, if and only if each configuration of the
   * set is accepted and has a shard.
   */
  lemma DeliveryIsNeverLostExactlyIfUsable(st: Settings, allowed: iset<Config>, ok: Reply)
    requires MismatchesAreEarly(st) && st.numWorkers >= 1 && st.sendConcurrency >= 1
    requires st.mayReply(ok) && Successful(ok)
    requires forall c <- allowed :: Usable(c) ==> Servable(st, c)
    ensures (forall c <- allowed :: Usable(c)) <==>
      forall config, run :: UpWithin(st, allowed, config, run) ==> CanStillDeliver(st, config, run)
  {
    hide Exec, Usable, Up, Dead, MismatchesAreEarly, Servable, Successful;
    if forall c <- allowed :: Usable(c) {
      forall config, run | UpWithin(st, allowed, config, run) ensures CanStillDeliver(st, config, run) {
        DeliversAgain(st, config, run, ok);
      }
    } else {
      var bad :| bad in allowed && !Usable(bad);
      var run := UnusableFirstEndsDelivery(st, bad, bad);
      assert UpWithin(st, allowed, bad, run);
      DeadCannotDeliver(st, bad, run);
    }
  }
}
