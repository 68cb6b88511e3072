/** Progress of the pipeline: who is there, and that somebody can always act on unfinished work. */
module PipelineProgress {
  import opened Basics
  import opened ShardingConfig
  import opened Spans
  import opened ShardEncoding
  import opened Server
  import opened Exporting
  import opened ConfigMailbox
  import opened Pipeline
  import opened PipelineRouting
  import opened PipelineAccounting

  // ---------- who is there ----------

  datatype Role = UserCaller | RetryCaller | Worker | Flusher(se: nat) | Drainer | Sender

  function AfterRole(after: After): Role {
    match after
    case NextSpan(_) => Worker
    case NextTick(se) => Flusher(se)
    case FlusherReturns(se) => Flusher(se)
    case DrainReturns => Drainer
  }

  function CallerRole(retried: bool): Role {
    if retried then RetryCaller else UserCaller
  }

  function RoleOf(pc: Pc): Role {
    match pc
    case RetryLoop => RetryCaller
    case RetryGone => RetryCaller
    case Entering(_, retried) => CallerRole(retried)
    case Counting(_, retried) => CallerRole(retried)
    case Enqueuing(_, retried) => CallerRole(retried)
    case CallerGone => UserCaller
    case Flushing(_, after) => AfterRole(after)
    case Calling(_, after) => AfterRole(after)
    case FlusherLoop(se) => Flusher(se)
    case FlusherGone(se) => Flusher(se)
    case DrainDone => Drainer
    case DrainGone => Drainer
    case _ => if WorkerPc(pc) then Worker else Sender
  }

  function Has(role: Role): Pc -> int {
    (pc: Pc) => if RoleOf(pc) == role then 1 else 0
  }

  /** Threads return only after the signal that tells them to. */
  predicate GoneForReason(ctl: Control, pc: Pc) {
    && (pc.RetryGone? ==> ctl.exporterDone)
    && (pc.WorkerGone? ==> ctl.hardStop)
    && (pc.SenderGone? ==> ctl.clientDone)
  }

  predicate FlagsOk(ctl: Control) {
    ctl.stopPc.NotStopping? ==> !ctl.exporterDone && !ctl.stopping && !ctl.hardStop && !ctl.clientDone
  }

  predicate Connected(ctl: Control) {
    ctl.bootPc.BootAsking? || ctl.bootPc.BootConfiguring? || ctl.bootPc.BootDone?
  }

  ghost predicate Staffed(st: Settings, s: State, j: nat) {
    && FlagsOk(s.sh.ctl)
    && (forall pc <- s.threads :: GoneForReason(s.sh.ctl, pc))
    && Sum(s.threads, Has(Worker)) == (if s.sh.workersStarted then st.numWorkers else 0)
    && (Connected(s.sh.ctl) ==> Sum(s.threads, Has(Sender)) == st.sendConcurrency)
    && (s.sh.ctl.bootPc.BootConnecting? ==> Sum(s.threads, Has(Sender)) == 0)
    && (s.sh.ctl.bootPc.BootDone? ==> Sum(s.threads, Has(RetryCaller)) == 1)
    && (!s.sh.ctl.bootPc.BootDone? ==> Sum(s.threads, Has(RetryCaller)) == 0)
    && Sum(s.threads, Has(Flusher(j))) == (if j < |s.sh.ses| then 1 else 0)
  }

  lemma CallerKeepsRole(st: Settings, sh: Shared, pc: Pc, ch: Choice)
    requires CallerAct(st, sh, pc, ch).Some?
    ensures RoleOf(CallerAct(st, sh, pc, ch).value.1) == RoleOf(pc)
  {
  }

  lemma WorkerKeepsRole(st: Settings, sh: Shared, pc: Pc, ch: Choice)
    requires WorkerAct(st, sh, pc, ch).Some?
    ensures RoleOf(WorkerAct(st, sh, pc, ch).value.1) == RoleOf(pc)
  {
    hide AppendSection, TryEncode, FindShard, CurrentShards;
  }

  lemma FlushKeepsRole(st: Settings, sh: Shared, pc: Pc, ch: Choice)
    requires FlushAct(st, sh, pc, ch).Some?
    ensures RoleOf(FlushAct(st, sh, pc, ch).value.1) == RoleOf(pc)
  {
    hide FlushSection, OnSpanProcessFail;
  }

  lemma SenderKeepsRole(st: Settings, sh: Shared, pc: Pc, ch: Choice)
    requires SenderAct(st, sh, pc, ch).Some?
    ensures RoleOf(SenderAct(st, sh, pc, ch).value.1) == RoleOf(pc)
  {
    hide OnReply, ResendSpans, SetConfig, ShardIsPartOfConfig, CurrentConfig;
  }

  /** A thread changes neither the list of encoders nor the control flags it depends on. */
  ghost predicate KeepsStaff(sh: Shared, pc: Pc, sh': Shared, pc': Pc) {
    && RoleOf(pc') == RoleOf(pc)
    && |sh'.ses| == |sh.ses| && sh'.workersStarted == sh.workersStarted
    && sh'.ctl.(draining := 0) == sh.ctl.(draining := 0)
    && (GoneForReason(sh.ctl, pc) ==> GoneForReason(sh'.ctl, pc'))
  }

  lemma CallerKeepsStaff(st: Settings, sh: Shared, pc: Pc, ch: Choice)
    requires CallerAct(st, sh, pc, ch).Some?
    ensures var (sh', pc') := CallerAct(st, sh, pc, ch).value; KeepsStaff(sh, pc, sh', pc')
  {
    CallerKeepsRole(st, sh, pc, ch);
    hide RoleOf;
  }

  lemma WorkerKeepsStaff(st: Settings, sh: Shared, pc: Pc, ch: Choice)
    requires WorkerAct(st, sh, pc, ch).Some?
    ensures var (sh', pc') := WorkerAct(st, sh, pc, ch).value; KeepsStaff(sh, pc, sh', pc')
  {
    WorkerKeepsRole(st, sh, pc, ch);
    hide RoleOf, AppendSection, TryEncode, FindShard, CurrentShards;
  }

  lemma FlushKeepsStaff(st: Settings, sh: Shared, pc: Pc, ch: Choice)
    requires FlushAct(st, sh, pc, ch).Some?
    ensures var (sh', pc') := FlushAct(st, sh, pc, ch).value; KeepsStaff(sh, pc, sh', pc')
  {
    FlushKeepsRole(st, sh, pc, ch);
    hide RoleOf, FlushSection, OnSpanProcessFail;
  }

  lemma SenderKeepsStaff(st: Settings, sh: Shared, pc: Pc, ch: Choice)
    requires SenderAct(st, sh, pc, ch).Some?
    ensures var (sh', pc') := SenderAct(st, sh, pc, ch).value; KeepsStaff(sh, pc, sh', pc')
  {
    SenderKeepsRole(st, sh, pc, ch);
    hide RoleOf, OnReply, ResendSpans, SetConfig, ShardIsPartOfConfig, CurrentConfig;
  }

  lemma ThreadKeepsStaff(st: Settings, sh: Shared, pc: Pc, ch: Choice)
    requires Act(st, sh, pc, ch).Some?
    ensures var (sh', pc') := Act(st, sh, pc, ch).value; KeepsStaff(sh, pc, sh', pc')
  {
    hide CallerAct, WorkerAct, FlushAct, SenderAct, KeepsStaff;
    if CallerPc(pc) { CallerKeepsStaff(st, sh, pc, ch); }
    else if WorkerPc(pc) { WorkerKeepsStaff(st, sh, pc, ch); }
    else if FlushPc(pc) { FlushKeepsStaff(st, sh, pc, ch); }
    else { SenderKeepsStaff(st, sh, pc, ch); }
  }

  lemma StepStaffed(st: Settings, s: State, i: nat, sh': Shared, pc': Pc, j: nat)
    requires Staffed(st, s, j) && i < |s.threads| && KeepsStaff(s.sh, s.threads[i], sh', pc')
    ensures Staffed(st, State(sh', s.threads[i := pc']), j)
  {
    hide Sum, RoleOf;
    assert s.threads[i] in s.threads;
    forall pc | pc in s.threads[i := pc'] ensures GoneForReason(sh'.ctl, pc) {
      assert pc == pc' || pc in s.threads;
    }
    SumUpdate(s.threads, i, pc', Has(Worker));
    SumUpdate(s.threads, i, pc', Has(Sender));
    SumUpdate(s.threads, i, pc', Has(RetryCaller));
    SumUpdate(s.threads, i, pc', Has(Flusher(j)));
  }

  // ---------- threads started by the single goroutines ----------

  /** Signals are never taken back, and threads start out running. */
  ghost predicate FlagsAdvance(sh: Shared, r: Option<(Shared, seq<Pc>)>) {
    r.Some? ==>
      var (sh', started) := r.value;
      && (FlagsOk(sh.ctl) ==> FlagsOk(sh'.ctl))
      && (sh.ctl.exporterDone ==> sh'.ctl.exporterDone) && (sh.ctl.hardStop ==> sh'.ctl.hardStop)
        && (sh.ctl.clientDone ==> sh'.ctl.clientDone)
      && forall pc <- started :: !pc.RetryGone? && !pc.WorkerGone? && !pc.SenderGone?
  }

  /** Threads are started exactly when what they belong to comes into being. */
  ghost predicate Hires(st: Settings, sh: Shared, r: Option<(Shared, seq<Pc>)>, j: nat) {
    r.Some? ==>
      var (sh', started) := r.value;
      && (sh.workersStarted ==> sh'.workersStarted)
      && Sum(started, Has(Worker)) == (if sh'.workersStarted && !sh.workersStarted then st.numWorkers else 0)
      && Sum(started, Has(Sender)) == (if sh.ctl.bootPc.BootConnecting?
        && Connected(sh'.ctl) then st.sendConcurrency else 0)
      && (!sh.ctl.bootPc.BootConnecting? ==> !sh'.ctl.bootPc.BootConnecting? && (Connected(sh'.ctl) ==>
        Connected(sh.ctl)))
      && Sum(started, Has(RetryCaller)) == (if sh'.ctl.bootPc.BootDone? && !sh.ctl.bootPc.BootDone? then 1 else 0)
      && (sh.ctl.bootPc.BootDone? ==> sh'.ctl.bootPc.BootDone?)
      && |sh.ses| <= |sh'.ses|
      && Sum(started, Has(Flusher(j))) == (if |sh.ses| <= j < |sh'.ses| then 1 else 0)
  }

  ghost predicate StaffAdded(st: Settings, sh: Shared, r: Option<(Shared, seq<Pc>)>, j: nat) {
    FlagsAdvance(sh, r) && Hires(st, sh, r, j)
  }

  lemma {:induction false} CountCopies(n: nat, pc: Pc, role: Role)
    ensures Sum(NewThreads(n, pc), Has(role)) == if RoleOf(pc) == role then n else 0
  {
    if n > 0 {
      assert NewThreads(n, pc)[1..] == NewThreads(n - 1, pc);
      CountCopies(n - 1, pc, role);
    }
  }

  lemma {:induction false} CountFlushers(first: nat, n: nat, role: Role)
    ensures Sum(NewFlushers(first, n), Has(role))
      == if role.Flusher? && first <= role.se < first + n then 1 else 0
    decreases n
  {
    if n > 0 {
      assert NewFlushers(first, n)[1..] == NewFlushers(first + 1, n - 1);
      CountFlushers(first + 1, n - 1, role);
    }
  }

  lemma NoneAdded(role: Role)
    ensures Sum([], Has(role)) == 0
  {
  }

  lemma CountNewGeneration(first: nat, n: nat, hire: bool, workers: nat, role: Role)
    ensures Sum(NewFlushers(first, n) + if hire then NewThreads(workers, WorkerLoop) else [], Has(role))
      == (if hire && role.Worker? then workers else 0)
       + (if role.Flusher? && first <= role.se < first + n then 1 else 0)
  {
    var hired := if hire then NewThreads(workers, WorkerLoop) else [];
    SumAppend(NewFlushers(first, n), hired, Has(role));
    CountFlushers(first, n, role);
    CountCopies(workers, WorkerLoop, role);
    NoneAdded(role);
  }

  lemma NewGenerationHires(st: Settings, sh: Shared, j: nat)
    requires sh.cfgPc.CfgApplying? && NewConfig(sh.cfgPc.config).Ok?
    ensures Hires(st, sh, Configure(st, sh), j)
  {
    hide NewConfig, Sum, RoleOf;
    var n := |NewConfig(sh.cfgPc.config).value|;
    CountNewGeneration(|sh.ses|, n, !sh.workersStarted, st.numWorkers, Worker);
    CountNewGeneration(|sh.ses|, n, !sh.workersStarted, st.numWorkers, Sender);
    CountNewGeneration(|sh.ses|, n, !sh.workersStarted, st.numWorkers, RetryCaller);
    CountNewGeneration(|sh.ses|, n, !sh.workersStarted, st.numWorkers, Flusher(j));
    assert Configure(st, sh).value.1
        == NewFlushers(|sh.ses|, n) + if !sh.workersStarted then NewThreads(st.numWorkers, WorkerLoop) else [];
  }

  lemma ConfigureStaffed(st: Settings, sh: Shared, j: nat)
    ensures StaffAdded(st, sh, Configure(st, sh), j)
  {
    hide NewConfig, CheckMailbox, RoleOf;
    if sh.cfgPc.CfgApplying? && NewConfig(sh.cfgPc.config).Ok? { NewGenerationHires(st, sh, j); }
  }

  lemma OneRetryCaller(role: Role)
    ensures Sum([RetryLoop], Has(role)) == if role.RetryCaller? then 1 else 0
  {
  }

  /** Startup adds n senders, or the retry goroutine, or nobody. */
  lemma CountBoot(n: nat, role: Role)
    ensures Sum(NewThreads(n, SenderLoop), Has(role)) == (if role.Sender? then n else 0)
    ensures Sum([RetryLoop], Has(role)) == (if role.RetryCaller? then 1 else 0)
    ensures Sum([], Has(role)) == 0
  {
    hide Sum;
    CountCopies(n, SenderLoop, role);
    OneRetryCaller(role);
    NoneAdded(role);
  }

  lemma BootHires(st: Settings, sh: Shared, ok: bool, j: nat)
    ensures Hires(st, sh, Boot(st, sh, ok), j)
  {
    hide SetConfig, CurrentConfig, NewThreads, Sum, RoleOf;
    CountBoot(st.sendConcurrency, Worker);
    CountBoot(st.sendConcurrency, Role.Sender);
    CountBoot(st.sendConcurrency, RetryCaller);
    CountBoot(st.sendConcurrency, Flusher(j));
  }

  lemma BootStaffed(st: Settings, sh: Shared, ok: bool, j: nat)
    ensures StaffAdded(st, sh, Boot(st, sh, ok), j)
  {
    hide SetConfig, CurrentConfig, Sum, RoleOf;
    BootHires(st, sh, ok, j);
  }

  lemma DrainersAreNew(sh: Shared, timedOut: bool, role: Role)
    ensures DrainEncoder(sh, timedOut).Some? && !role.Drainer? ==>
      Sum(DrainEncoder(sh, timedOut).value.1, Has(role)) == 0
  {
    hide Current;
    if DrainEncoder(sh, timedOut).Some? && !role.Drainer? {
      var started := DrainEncoder(sh, timedOut).value.1;
      assert forall pc <- started :: RoleOf(pc) == Drainer;
      hide DrainEncoder, RoleOf;
      SumZero(started, Has(role));
    }
  }

  lemma ShutdownAdvances(st: Settings, sh: Shared, timedOut: bool)
    ensures FlagsAdvance(sh, Shutdown(st, sh, timedOut))
  {
    hide DrainEncoder, StopEncoder;
    if Draining(sh.ctl.stopPc) { DrainEncoderAdvances(sh, timedOut); } else { StopEncoderAdvances(sh); }
  }

  lemma DrainEncoderAdvances(sh: Shared, timedOut: bool)
    ensures FlagsAdvance(sh, DrainEncoder(sh, timedOut))
  {
    hide Current;
  }

  lemma StopEncoderAdvances(sh: Shared)
    ensures FlagsAdvance(sh, StopEncoder(sh))
  {
    hide FlagStop, SignalStop, StopSection;
  }

  lemma DrainKeepsStaff(sh: Shared, timedOut: bool)
    ensures DrainEncoder(sh, timedOut).Some? ==>
      var sh' := DrainEncoder(sh, timedOut).value.0;
      && sh'.ses == sh.ses && sh'.workersStarted == sh.workersStarted && sh'.ctl.bootPc == sh.ctl.bootPc
  {
    hide Current;
  }

  lemma ShutdownHires(st: Settings, sh: Shared, timedOut: bool, j: nat)
    ensures Hires(st, sh, Shutdown(st, sh, timedOut), j)
  {
    hide FlagStop, SignalStop, StopSection, Current, DrainEncoder, Sum, RoleOf;
    DrainKeepsStaff(sh, timedOut);
    forall role ensures Sum([], Has(role)) == 0 { NoneAdded(role); }
    DrainersAreNew(sh, timedOut, Worker);
    DrainersAreNew(sh, timedOut, Sender);
    DrainersAreNew(sh, timedOut, RetryCaller);
    DrainersAreNew(sh, timedOut, Flusher(j));
  }

  lemma ShutdownStaffed(st: Settings, sh: Shared, timedOut: bool, j: nat)
    ensures StaffAdded(st, sh, Shutdown(st, sh, timedOut), j)
  {
    hide Shutdown, FlagsAdvance, Hires;
    ShutdownAdvances(st, sh, timedOut);
    ShutdownHires(st, sh, timedOut, j);
  }

  lemma SpawnStaffed(st: Settings, s: State, r: Option<(Shared, seq<Pc>)>, j: nat)
    requires Staffed(st, s, j) && StaffAdded(st, s.sh, r, j) && r.Some?
    ensures Staffed(st, Spawn(s, r).value, j)
  {
    hide Sum, RoleOf;
    SumAppend(s.threads, r.value.1, Has(Worker));
    SumAppend(s.threads, r.value.1, Has(Sender));
    SumAppend(s.threads, r.value.1, Has(RetryCaller));
    SumAppend(s.threads, r.value.1, Has(Flusher(j)));
  }

  lemma ArrivalStaffed(st: Settings, s: State, batch: seq<Span>, j: nat)
    requires Staffed(st, s, j)
    ensures Staffed(st, State(s.sh, s.threads + [Entering(batch, false)]), j)
  {
    forall role { SumSnoc(s.threads, Entering(batch, false), Has(role)); }
  }

  lemma NextStaffed(st: Settings, s: State, step: Step, j: nat)
    requires Staffed(st, s, j) && Next(st, s, step).Some?
    ensures Staffed(st, Next(st, s, step).value, j)
  {
    hide Act, Configure, Boot, Shutdown, StaffAdded, KeepsStaff, Spawn, Sum;
    match step
    case Thread(i, ch) =>
      ThreadKeepsStaff(st, s.sh, s.threads[i], ch);
      StepStaffed(st, s, i, Act(st, s.sh, s.threads[i], ch).value.0, Act(st, s.sh, s.threads[i], ch).value.1, j);
    case Configuring =>
      ConfigureStaffed(st, s.sh, j);
      SpawnIsSome(s, Configure(st, s.sh));
      SpawnStaffed(st, s, Configure(st, s.sh), j);
    case Booting(ok) =>
      BootStaffed(st, s.sh, ok, j);
      SpawnIsSome(s, Boot(st, s.sh, ok));
      SpawnStaffed(st, s, Boot(st, s.sh, ok), j);
    case ShuttingDown(timedOut) =>
      ShutdownStaffed(st, s.sh, timedOut, j);
      SpawnIsSome(s, Shutdown(st, s.sh, timedOut));
      SpawnStaffed(st, s, Shutdown(st, s.sh, timedOut), j);
    case Arrive(batch) => ArrivalStaffed(st, s, batch, j);
    case ServerConfigures(config) =>
  }

  /** Every encoder has its flusher; workers, senders and the retry goroutine are there once started. */
  lemma {:induction false} RunStaffed(st: Settings, config: Config, run: seq<Step>, j: nat)
    requires Exec(st, config, run).Some?
    ensures Staffed(st, Exec(st, config, run).value, j)
  {
    if run != [] {
      RunStaffed(st, config, run[..|run| - 1], j);
      NextStaffed(st, Exec(st, config, run[..|run| - 1]).value, run[|run| - 1], j);
    }
  }

  // ---------- deadlock freedom ----------

  predicate HasPending(sh: Shared, se: nat) {
    se < |sh.ses| && sh.ses[se].pending != []
  }

  /** The thread has something to do other than wait, tick over an empty batch, or stay gone. */
  predicate Busy(sh: Shared, pc: Pc) {
    match pc
    case RetryLoop => sh.out.retry != []
    case Entering(_, _) => true
    case Counting(_, _) => true
    case Enqueuing(_, _) => true
    case WorkerLoop => sh.queue != []
    case Picking(_) => true
    case Routed(_, _, _) => true
    case Sized(_, _, _, _) => true
    case Flushing(se, after) => after.NextSpan? || HasPending(sh, se)
    case Calling(_, _) => true
    case FlusherLoop(se) => HasPending(sh, se)
    case SenderLoop => sh.requests != []
    case InFlight(_) => true
    case Mismatched(_) => true
    case Admitted(_, _) => true
    case Recorded(_) => true
    case Replied(_, _, _) => true
    case Resending(_) => true
    case _ => false
  }

  /** The thread can act now, or the server owes it a reply. */
  predicate Able(st: Settings, sh: Shared, pc: Pc) {
    pc.Recorded? || Act(st, sh, pc, Go).Some?
  }

  /** The only places where a busy thread can be held up: a full input queue and a full client queue. */
  predicate Blocked(st: Settings, sh: Shared, pc: Pc) {
    || (pc.Enqueuing? && |sh.queue| >= st.numWorkers)
    || (pc.Calling? && pc.cb.RecordReady? && |sh.requests| >= st.sendConcurrency)
  }

  ghost predicate SomebodyAble(st: Settings, s: State) {
    exists i | 0 <= i < |s.threads| :: Busy(s.sh, s.threads[i]) && Able(st, s.sh, s.threads[i])
  }

  /** Not shutting down, connected, and a first valid configuration applied. */
  predicate Running(st: Settings, s: State) {
    && s.sh.ctl.stopPc.NotStopping? && s.sh.ctl.bootPc.BootDone? && s.sh.workersStarted
    && st.numWorkers >= 1 && st.sendConcurrency >= 1
  }

  lemma BusyIsAbleOrBlocked(st: Settings, sh: Shared, pc: Pc)
    requires PcInv(st, sh, pc) && Busy(sh, pc)
    ensures Able(st, sh, pc) || Blocked(st, sh, pc)
  {
    hide AppendSection, TryEncode, FindShard, CurrentShards, FlushSection, OnSpanProcessFail, OnReply, ResendSpans,
      SetConfig,
      ShardIsPartOfConfig, CurrentConfig, CallbackOk, RequestOk, AdmissionOk;
  }

  lemma Witness(st: Settings, s: State, i: nat)
    requires i < |s.threads| && Busy(s.sh, s.threads[i]) && Able(st, s.sh, s.threads[i])
    ensures SomebodyAble(st, s)
  {
  }

  /** A busy thread that is not held up by a full queue is the one. */
  lemma BusyThread(st: Settings, s: State, i: nat)
    requires Inv(st, s) && i < |s.threads| && Busy(s.sh, s.threads[i]) && !Blocked(st, s.sh, s.threads[i])
    ensures SomebodyAble(st, s)
  {
    BusyIsAbleOrBlocked(st, s.sh, s.threads[i]);
    Witness(st, s, i);
  }

  /** Requests waiting: some sender takes one or is busy with its own. */
  lemma SenderAble(st: Settings, s: State)
    requires Inv(st, s) && Staffed(st, s, 0) && Running(st, s) && s.sh.requests != []
    ensures SomebodyAble(st, s)
  {
    var i := SumPositive(s.threads, Has(Role.Sender));
    assert s.threads[i] in s.threads;
    BusyThread(st, s, i);
  }

  lemma WorkerAble(st: Settings, s: State)
    requires Inv(st, s) && Staffed(st, s, 0) && Running(st, s) && s.sh.queue != []
    ensures SomebodyAble(st, s)
  {
    var i := SumPositive(s.threads, Has(Worker));
    assert s.threads[i] in s.threads;
    if Blocked(st, s.sh, s.threads[i]) { SenderAble(st, s); } else { BusyThread(st, s, i); }
  }

  /** A thread held up by a full queue has, behind that queue, somebody who can act. */
  lemma AnyBusyThread(st: Settings, s: State, i: nat)
    requires Inv(st, s) && Staffed(st, s, 0) && Running(st, s) && i < |s.threads| && Busy(s.sh, s.threads[i])
    ensures SomebodyAble(st, s)
  {
    if !Blocked(st, s.sh, s.threads[i]) { BusyThread(st, s, i); }
    else if s.threads[i].Enqueuing? { WorkerAble(st, s); }
    else { SenderAble(st, s); }
  }

  lemma RetryAble(st: Settings, s: State)
    requires Inv(st, s) && Staffed(st, s, 0) && Running(st, s) && s.sh.out.retry != []
    ensures SomebodyAble(st, s)
  {
    var i := SumPositive(s.threads, Has(RetryCaller));
    assert s.threads[i] in s.threads;
    AnyBusyThread(st, s, i);
  }

  lemma FlusherAble(st: Settings, s: State, j: nat)
    requires Inv(st, s) && Staffed(st, s, 0) && Staffed(st, s, j) && Running(st, s) && HasPending(s.sh, j)
    ensures SomebodyAble(st, s)
  {
    var i := SumPositive(s.threads, Has(Flusher(j)));
    assert PcInv(st, s.sh, s.threads[i]);
    AnyBusyThread(st, s, i);
  }

  /** There is work anywhere in the pipeline. */
  ghost predicate Unfinished(s: State) {
    || s.sh.queue != [] || s.sh.requests != [] || s.sh.out.retry != []
    || (exists j :: HasPending(s.sh, j))
    || (exists i | 0 <= i < |s.threads| :: Busy(s.sh, s.threads[i]))
  }

  /**
   * Deadlock freedom: before shutdown, as long as there is unfinished work,
   * some thread that has work can act or is waiting for the server's reply.
   */
  lemma UnfinishedWorkCanProceed(st: Settings, config: Config, run: seq<Step>)
    requires Exec(st, config, run).Some?
    requires Running(st, Exec(st, config, run).value) && Unfinished(Exec(st, config, run).value)
    ensures SomebodyAble(st, Exec(st, config, run).value)
  {
    var s := Exec(st, config, run).value;
    RunKeepsInv(st, config, run);
    RunStaffed(st, config, run, 0);
    if s.sh.queue != [] { WorkerAble(st, s); }
    else if s.sh.requests != [] { SenderAble(st, s); }
    else if s.sh.out.retry != [] { RetryAble(st, s); }
    else if j :| HasPending(s.sh, j) {
      RunStaffed(st, config, run, j);
      FlusherAble(st, s, j);
    } else {
      var i :| 0 <= i < |s.threads| && Busy(s.sh, s.threads[i]);
      AnyBusyThread(st, s, i);
    }
  }

  lemma BagPositive<T>(xs: seq<T>, f: T -> int)
    requires Sum(xs, f) != 0
    ensures xs != []
  {
  }

  lemma HandsAreBusy(sh: Shared, pc: Pc, x: nat)
    requires HandCount(x)(pc) > 0
    ensures Busy(sh, pc)
  {
  }

  lemma CountedIsPending(sh: Shared, j: nat, x: nat)
    requires j < |sh.ses| && PendingCount(x)(sh.ses[j]) > 0
    ensures HasPending(sh, j)
  {
  }

  /** A span that was taken in and is not settled is unfinished work. */
  lemma UnsettledSpanIsUnfinished(s: State, x: nat)
    requires Conserved(s, x) && Settled(s.sh.out, x) < Count(s.sh.admitted, x)
    ensures Unfinished(s)
  {
    hide Count, Settled;
    if Sum(s.sh.queue, BatchCount(x)) > 0 { BagPositive(s.sh.queue, BatchCount(x)); }
    else if Sum(s.sh.requests, RequestCount(x)) > 0 { BagPositive(s.sh.requests, RequestCount(x)); }
    else if Sum(s.sh.out.retry, BatchCount(x)) > 0 { BagPositive(s.sh.out.retry, BatchCount(x)); }
    else if Sum(s.sh.ses, PendingCount(x)) > 0 {
      var j := SumPositive(s.sh.ses, PendingCount(x));
      CountedIsPending(s.sh, j, x);
    } else {
      var i := SumPositive(s.threads, HandCount(x));
      HandsAreBusy(s.sh, s.threads[i], x);
    }
  }

  /** No span gets stuck: while one is unsettled, somebody who has work can act. */
  lemma UnsettledSpanCanProceed(st: Settings, config: Config, run: seq<Step>, x: nat)
    requires Exec(st, config, run).Some? && Running(st, Exec(st, config, run).value)
    requires var s := Exec(st, config, run).value; Settled(s.sh.out, x) < Count(s.sh.admitted, x)
    ensures SomebodyAble(st, Exec(st, config, run).value)
  {
    SpansAreConserved(st, config, run, x);
    UnsettledSpanIsUnfinished(Exec(st, config, run).value, x);
    UnfinishedWorkCanProceed(st, config, run);
  }
}
