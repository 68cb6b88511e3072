/**
 * The whole exporter as a state machine: callers, the retry goroutine, workers,
 * flushers, the configuration processor, senders, the server and shutdown, in
 * any interleaving. Critical sections of a shard encoder are single steps, as
 * ShardEncoderLocking justifies; everything between them interleaves.
 */
module Pipeline {
  import opened Basics
  import opened ShardingConfig
  import opened Spans
  import opened ShardEncoding
  import opened Server
  import opened Exporting
  import opened ConfigMailbox

  /** `mayReply` says which replies the server may give to a request that it has recorded. */
  datatype Settings = Settings(limits: Limits, numWorkers: nat, sendConcurrency: nat, mayReply: Reply -> bool)

  // ---------- threads ----------

  /** What a thread goes on with after a call of Flush, or after a callback. */
  datatype After =
    | NextSpan(rest: seq<Span>)     // a worker, within a batch
    | NextTick(se: nat)             // the flusher of encoder se
    | FlusherReturns(se: nat)       // its last flush
    | DrainReturns                  // a goroutine of flushShardEncoders

  datatype Pc =
    // EncodeSpans, called by a user or by the retry goroutine
    | RetryLoop
    | RetryGone
    | Entering(batch: seq<Span>, retried: bool)
    | Counting(batch: seq<Span>, retried: bool)   // not stopping when checked
    | Enqueuing(batch: seq<Span>, retried: bool)  // counted in the WaitGroup
    | CallerGone
    // workers
    | WorkerLoop
    | Picking(rest: seq<Span>)
    | Routed(span: Span, se: nat, rest: seq<Span>)
    | Sized(span: Span, size: nat, se: nat, rest: seq<Span>)
    | WorkerGone
    // Flush and the callback after it
    | Flushing(se: nat, after: After)
    | Calling(cb: Callback, after: After)
    | FlusherLoop(se: nat)
    | FlusherGone(se: nat)
    | DrainDone
    | DrainGone
    // client senders, and the server while it handles their calls
    | SenderLoop
    | InFlight(req: RequestToSend)
    | Mismatched(req: RequestToSend)
    | Admitted(req: RequestToSend, config: Config)
    | Recorded(req: RequestToSend)
    | Replied(req: RequestToSend, reply: Reply, recorded: bool)
    | Resending(spans: seq<Span>)
    | SenderGone

  // ---------- single goroutines ----------

  datatype CfgPc = CfgWaiting | CfgStopping(config: Config, next: nat) | CfgApplying(config: Config) | CfgGone

  datatype BootPc = BootConnecting | BootAsking | BootConfiguring(config: Config) | BootDone | BootFailed

  datatype StopPc =
    | NotStopping
    | StopFlag | StopWait | StopDrain | StopDrained
    | StopEncoders(next: nat, end: nat)
    | StopConfig | StopSignal | StopWorkers | StopClient
    | StopFinished

  datatype Admission = Admission(request: RequestToSend, config: Config)

  /** Flags and the goroutines that start up and shut down. */
  datatype Control = Control(
    stopping: bool, hardStop: bool,            // encoder
    draining: int,                             // goroutines of flushShardEncoders still running
    exporterDone: bool, clientDone: bool,
    bootPc: BootPc, stopPc: StopPc)

  datatype Shared = Shared(
    // encoder
    queue: seq<seq<Span>>, wg: int, workersStarted: bool,
    mail: Mailbox, cfgPc: CfgPc,
    ses: seq<Batcher>,             // every shard encoder ever started
    lo: nat,                       // the current list is ses[lo..]
    // client and exporter
    requests: seq<RequestToSend>, out: Outbox, ctl: Control,
    // server
    configs: seq<Config>,          // its configurations so far; the last is current
    records: seq<Admission>,       // requests recorded, with the configuration that admitted them
    // every span taken in by EncodeSpans from a user
    admitted: seq<Span>)

  datatype State = State(sh: Shared, threads: seq<Pc>)

  datatype Choice = Go | Quit | Fail(details: seq<ErrorDetail>) | Respond(reply: Reply)

  // ---------- thread steps ----------

  function Resume(after: After): Pc {
    match after
    case NextSpan(rest) => Picking(rest)
    case NextTick(se) => FlusherLoop(se)
    case FlusherReturns(se) => FlusherGone(se)
    case DrainReturns => DrainDone
  }

  function CallerReturns(retried: bool): Pc {
    if retried then RetryLoop else CallerGone
  }

  function Refuse(sh: Shared, batch: seq<Span>, retried: bool): Shared {
    // The retry goroutine ignores the error, so its spans are lost here.
    if retried then sh.(out := sh.out.(forgotten := sh.out.forgotten + batch)) else sh
  }

  function CallerAct(st: Settings, sh: Shared, pc: Pc, ch: Choice): Option<(Shared, Pc)> {
    match pc
    case RetryLoop =>
      if ch.Quit? then (if sh.ctl.exporterDone then Some((sh, RetryGone)) else None)
      else if sh.out.retry == [] then None
      else Some((sh.(out := sh.out.(retry := sh.out.retry[1..])), Entering(sh.out.retry[0], true)))
    case Entering(batch, retried) =>
      if sh.ctl.stopping then Some((Refuse(sh, batch, retried), CallerReturns(retried)))
      else Some((if retried then sh else sh.(admitted := sh.admitted + batch), Counting(batch, retried)))
    case Counting(batch, retried) => Some((sh.(wg := sh.wg + 1), Enqueuing(batch, retried)))
    case Enqueuing(batch, retried) =>
      if |sh.queue| >= st.numWorkers then None
      else Some((sh.(queue := sh.queue + [batch]), CallerReturns(retried)))
    case _ => None
  }

  /** The list that getShardEncoder scans. */
  function Current(sh: Shared): seq<Batcher> {
    if sh.lo <= |sh.ses| then sh.ses[sh.lo..] else []
  }

  function CurrentShards(sh: Shared): seq<Shard> {
    Map(Current(sh), ShardOf)
  }

  function WorkerAct(st: Settings, sh: Shared, pc: Pc, ch: Choice): Option<(Shared, Pc)>
  {
    match pc
    case WorkerLoop =>
      if ch.Quit? then (if sh.ctl.hardStop then Some((sh, WorkerGone)) else None)
      else if sh.queue == [] then None
      else Some((sh.(queue := sh.queue[1..]), Picking(sh.queue[0])))
    case Picking(rest) =>
      if rest == [] then Some((sh.(wg := sh.wg - 1), WorkerLoop))
      else Some((sh, match FindShard(CurrentShards(sh), PartitionKeyToHashKey(st.limits.codec.md5, rest[0].traceID))
        case None => Calling(SpanProcessFail([rest[0]], ErrEncodingFailed), NextSpan(rest[1..]))
        case Some(k) => Routed(rest[0], sh.lo + k, rest[1..])))
    case Routed(span, se, rest) =>
      Some((sh, match TryEncode(st.limits.codec, st.limits.maxAllowedSizePerSpan, span)
        case Rejected(s) => Calling(SpanProcessFail([s], ErrEncodingFailed), NextSpan(rest))
        case Fits(s, size) => Sized(s, size, se, rest)))
    case Sized(span, size, se, rest) =>
      if se >= |sh.ses| then None
      else
        var (b, r) := AppendSection(st.limits, sh.ses[se], span, size);
        Some((sh.(ses := sh.ses[se := b]),
          if r.Refused? then Calling(SpanProcessFail([span], ErrEncoderStopped), NextSpan(rest))
          else if r.needFlush then Flushing(se, NextSpan(rest))
          else Picking(rest)))
    case _ => None
  }

  function FlushAct(st: Settings, sh: Shared, pc: Pc, ch: Choice): Option<(Shared, Pc)> {
    match pc
    case FlusherLoop(se) =>
      if se >= |sh.ses| then None
      else if ch.Quit? then (if sh.ses[se].stopped then Some((sh, Flushing(se, FlusherReturns(se)))) else None)
      else Some((sh, Flushing(se, NextTick(se))))
    case Flushing(se, after) =>
      if se >= |sh.ses| then None
      else
        var (b, cb) := FlushSection(st.limits, sh.ses[se]);
        Some((sh.(ses := sh.ses[se := b]), if cb.None? then Resume(after) else Calling(cb.value, after)))
    case Calling(cb, after) =>
      (match cb
       case RecordReady(record, spans, shard) =>
         if |sh.requests| >= st.sendConcurrency then None
         else Some((sh.(requests := sh.requests + [RequestToSend(ExportRequest(record, shard.origin), spans)]),
           Resume(after)))
       case SpanProcessFail(spans, code) =>
         Some((sh.(out := OnSpanProcessFail(sh.out, spans, code)), Resume(after))))
    case DrainDone => Some((sh.(ctl := sh.ctl.(draining := sh.ctl.draining - 1)), DrainGone))
    case _ => None
  }

  function Latest(configs: seq<Config>): Config {
    if configs == [] then [] else configs[|configs| - 1]
  }

  /** The server's current configuration. */
  function CurrentConfig(sh: Shared): Config {
    Latest(sh.configs)
  }

  function SenderAct(st: Settings, sh: Shared, pc: Pc, ch: Choice): Option<(Shared, Pc)> {
    match pc
    case SenderLoop =>
      if ch.Quit? then (if sh.ctl.clientDone then Some((sh, SenderGone)) else None)
      else if sh.requests == [] then None
      else Some((sh.(requests := sh.requests[1..]), InFlight(sh.requests[0])))
    case InFlight(req) =>
      if ch.Fail? then Some((sh, Replied(req, RpcError(ch.details), false)))
      else if ShardIsPartOfConfig(req.exportRequest.shard, CurrentConfig(sh)) then Some((sh, Admitted(req,
        CurrentConfig(sh))))
      else Some((sh, Mismatched(req)))
    case Mismatched(req) =>
      // The configuration is read again here, so it may be newer than the one compared with.
      Some((sh, Replied(req, Answer(ExportResponse(SHARD_CONFIG_MISMATCH, Some(CurrentConfig(sh)))), false)))
    case Admitted(req, config) =>
      Some((sh.(records := sh.records + [Admission(req, config)]), Recorded(req)))
    case Recorded(req) =>
      if ch.Respond? && st.mayReply(ch.reply) then Some((sh, Replied(req, ch.reply, true))) else None
    case Replied(req, reply, _) =>
      if reply.Answer? && reply.response.resultCode.SHARD_CONFIG_MISMATCH? then
        Some((sh.(mail := SetConfig(sh.mail, reply.response.shardingConfig)), Resending(req.originalSpans)))
      else Some((sh.(out := OnReply(sh.out, req.originalSpans, reply)), SenderLoop))
    case Resending(spans) => Some((sh.(out := ResendSpans(sh.out, spans)), SenderLoop))
    case _ => None
  }

  predicate CallerPc(pc: Pc) {
    pc.RetryLoop? || pc.RetryGone? || pc.Entering? || pc.Counting? || pc.Enqueuing? || pc.CallerGone?
  }

  predicate WorkerPc(pc: Pc) {
    pc.WorkerLoop? || pc.Picking? || pc.Routed? || pc.Sized? || pc.WorkerGone?
  }

  predicate FlushPc(pc: Pc) {
    pc.FlusherLoop? || pc.Flushing? || pc.Calling? || pc.FlusherGone? || pc.DrainDone? || pc.DrainGone?
  }

  function Act(st: Settings, sh: Shared, pc: Pc, ch: Choice): Option<(Shared, Pc)>
  {
    if CallerPc(pc) then CallerAct(st, sh, pc, ch)
    else if WorkerPc(pc) then WorkerAct(st, sh, pc, ch)
    else if FlushPc(pc) then FlushAct(st, sh, pc, ch)
    else SenderAct(st, sh, pc, ch)
  }

  // ---------- steps of the single goroutines: new shared state and threads started ----------

  function NewFlushers(first: nat, count: nat): seq<Pc> {
    seq(count, i requires 0 <= i < count => FlusherLoop(first + i))
  }

  function NewThreads(count: nat, pc: Pc): seq<Pc> {
    seq(count, _ => pc)
  }

  /** processConfigChanges. */
  function Configure(st: Settings, sh: Shared): Option<(Shared, seq<Pc>)> {
    match sh.cfgPc
    case CfgWaiting =>
      if sh.mail.asleep then None
      else
        var (mail, next) := CheckMailbox(sh.mail);
        Some((sh.(mail := mail, cfgPc := match next
          case Sleep => CfgWaiting
          case Exit => CfgGone
          case Take(config) => CfgStopping(config, sh.lo)), []))
    case CfgStopping(config, next) =>
      if next < |sh.ses| then
        Some((sh.(ses := sh.ses[next := StopSection(sh.ses[next])], cfgPc := CfgStopping(config, next + 1)), []))
      else Some((sh.(cfgPc := CfgApplying(config)), []))
    case CfgApplying(config) =>
      (match NewConfig(config)
       case Err(_) => Some((sh.(cfgPc := CfgWaiting), []))
       case Ok(shards) =>
         Some((sh.(cfgPc := CfgWaiting, ses := sh.ses + Map(shards, NewBatcher), lo := |sh.ses|, workersStarted :=
           true),
               NewFlushers(|sh.ses|, |shards|) + if sh.workersStarted then [] else NewThreads(st.numWorkers,
                 WorkerLoop))))
    case CfgGone => None
  }

  /** connectAndGetConfig; it gives up for good when the server cannot be reached. */
  function Boot(st: Settings, sh: Shared, ok: bool): Option<(Shared, seq<Pc>)> {
    match sh.ctl.bootPc
    case BootConnecting =>
      if ok then Some((sh.(ctl := sh.ctl.(bootPc := BootAsking)), NewThreads(st.sendConcurrency, SenderLoop)))
      else Some((sh.(ctl := sh.ctl.(bootPc := BootFailed)), []))
    case BootAsking =>
      if ok then Some((sh.(ctl := sh.ctl.(bootPc := BootConfiguring(CurrentConfig(sh)))), []))
      else Some((sh.(ctl := sh.ctl.(bootPc := BootFailed)), []))
    case BootConfiguring(config) =>
      Some((sh.(ctl := sh.ctl.(bootPc := BootDone), mail := SetConfig(sh.mail, Some(config))), [RetryLoop]))
    case BootDone => None
    case BootFailed => None
  }

  /** encoder.Stop up to the flush of the current shard encoders. */
  function DrainEncoder(sh: Shared, timedOut: bool): Option<(Shared, seq<Pc>)> {
    match sh.ctl.stopPc
    case StopFlag => Some((sh.(ctl := sh.ctl.(stopping := true, stopPc := StopWait)), []))
    case StopWait => if timedOut || sh.wg == 0 then Some((sh.(ctl := sh.ctl.(stopPc := StopDrain)), [])) else None
    case StopDrain =>
      var count := |Current(sh)|;
      Some((sh.(ctl := sh.ctl.(draining := sh.ctl.draining + count, stopPc := StopDrained)),
            seq(count, i requires 0 <= i < count => Flushing(sh.lo + i, DrainReturns))))
    case StopDrained => if sh.ctl.draining == 0 then Some((sh.(ctl := sh.ctl.(stopPc := StopEncoders(sh.lo,
      |sh.ses|))), [])) else None
    case _ => None
  }

  /** The rest of encoder.Stop: shard encoders, configuration processor, workers. */
  function StopEncoder(sh: Shared): Option<(Shared, seq<Pc>)> {
    match sh.ctl.stopPc
    case StopEncoders(next, end) =>
      if next < end && next < |sh.ses| then
        Some((sh.(ses := sh.ses[next := StopSection(sh.ses[next])], ctl := sh.ctl.(stopPc := StopEncoders(next + 1,
          end))), []))
      else Some((sh.(ctl := sh.ctl.(stopPc := StopConfig)), []))
    case StopConfig => Some((sh.(mail := FlagStop(sh.mail), ctl := sh.ctl.(stopPc := StopSignal)), []))
    case StopSignal => Some((sh.(mail := SignalStop(sh.mail), ctl := sh.ctl.(stopPc := StopWorkers)), []))
    case StopWorkers => Some((sh.(ctl := sh.ctl.(hardStop := true, stopPc := StopClient)), []))
    case _ => None
  }

  predicate Draining(pc: StopPc) {
    pc.StopFlag? || pc.StopWait? || pc.StopDrain? || pc.StopDrained?
  }

  /** Exporter.Shutdown. */
  function Shutdown(st: Settings, sh: Shared, timedOut: bool): Option<(Shared, seq<Pc>)> {
    match sh.ctl.stopPc
    case NotStopping => Some((sh.(ctl := sh.ctl.(exporterDone := true, stopPc := StopFlag)), []))
    case StopClient => Some((sh.(ctl := sh.ctl.(clientDone := true, stopPc := StopFinished)), []))
    case StopFinished => None
    case _ => if Draining(sh.ctl.stopPc) then DrainEncoder(sh, timedOut) else StopEncoder(sh)
  }

  // ---------- runs ----------

  datatype Step =
    | Thread(i: nat, ch: Choice)
    | Configuring
    | Booting(ok: bool)
    | ShuttingDown(timedOut: bool)
    | Arrive(batch: seq<Span>)            // a user calls ConsumeTraceData
    | ServerConfigures(config: Config)    // the server changes its configuration

  function Spawn(s: State, r: Option<(Shared, seq<Pc>)>): Option<State> {
    match r
    case None => None
    case Some((sh', started)) => Some(State(sh', s.threads + started))
  }

  function Next(st: Settings, s: State, step: Step): Option<State>
  {
    match step
    case Thread(i, ch) =>
      if i >= |s.threads| then None
      else (match Act(st, s.sh, s.threads[i], ch)
            case None => None
            case Some((sh', pc')) => Some(State(sh', s.threads[i := pc'])))
    case Configuring => Spawn(s, Configure(st, s.sh))
    case Booting(ok) => Spawn(s, Boot(st, s.sh, ok))
    case ShuttingDown(timedOut) => Spawn(s, Shutdown(st, s.sh, timedOut))
    case Arrive(batch) => Some(State(s.sh, s.threads + [Entering(batch, false)]))
    case ServerConfigures(config) => Some(State(s.sh.(configs := s.sh.configs + [config]), s.threads))
  }

  function InitialShared(config: Config): Shared {
    Shared([], 0, false, EMPTY_MAILBOX, CfgWaiting, [], 0, [], Outbox([], [], [], []),
           Control(false, false, 0, false, false, BootConnecting, NotStopping), [config], [], [])
  }

  function Init(config: Config): State {
    State(InitialShared(config), [])
  }

  /** The state that some steps lead to from another one; None if one of them was not possible. */
  function Follow(st: Settings, from: State, steps: seq<Step>): Option<State>
  {
    if steps == [] then Some(from)
    else match Follow(st, from, steps[..|steps| - 1])
      case None => None
      case Some(s) => Next(st, s, steps[|steps| - 1])
  }

  /** The state after a run from the start; None if some step of it was not possible. */
  function Exec(st: Settings, config: Config, run: seq<Step>): Option<State>
  {
    Follow(st, Init(config), run)
  }

  lemma ExecSnoc(st: Settings, config: Config, run: seq<Step>, step: Step)
    requires Exec(st, config, run).Some?
    ensures Exec(st, config, run + [step]) == Next(st, Exec(st, config, run).value, step)
  {
    assert (run + [step])[..|run|] == run;
  }

  /** Some steps lead from the one state to the other. */
  ghost predicate Reached(st: Settings, from: State, s: State) {
    exists steps :: Follow(st, from, steps) == Some(s)
  }

  lemma ReachNext(st: Settings, from: State, s: State, step: Step)
    requires Reached(st, from, s) && Next(st, s, step).Some?
    ensures Reached(st, from, Next(st, s, step).value)
  {
    var steps :| Follow(st, from, steps) == Some(s);
    assert (steps + [step])[..|steps|] == steps;
    assert Follow(st, from, steps + [step]) == Next(st, s, step);
  }

  lemma ReachSelf(st: Settings, from: State)
    ensures Reached(st, from, from)
  {
    assert Follow(st, from, []) == Some(from);
  }

  lemma {:induction false} ExecFollows(st: Settings, config: Config, run: seq<Step>, steps: seq<Step>)
    requires Exec(st, config, run).Some?
    ensures Exec(st, config, run + steps) == Follow(st, Exec(st, config, run).value, steps)
  {
    hide Next;
    if steps == [] {
      assert run + steps == run;
    } else {
      assert (run + steps)[..|run + steps| - 1] == run + steps[..|steps| - 1];
      ExecFollows(st, config, run, steps[..|steps| - 1]);
    }
  }

  /** What the state of a run reaches, a longer run reaches. */
  lemma RunOn(st: Settings, config: Config, run: seq<Step>, s: State) returns (run': seq<Step>)
    requires Exec(st, config, run).Some? && Reached(st, Exec(st, config, run).value, s)
    ensures run <= run' && Exec(st, config, run') == Some(s)
  {
    var steps :| Follow(st, Exec(st, config, run).value, steps) == Some(s);
    ExecFollows(st, config, run, steps);
    run' := run + steps;
  }

  lemma RunTo(st: Settings, config: Config, s: State) returns (run: seq<Step>)
    requires Reached(st, Init(config), s)
    ensures Exec(st, config, run) == Some(s)
  {
    assert Exec(st, config, []) == Some(Init(config));
    run := RunOn(st, config, [], s);
  }

  /**
   * A longer run whose further steps are the exporter's and the server's own: no arrival,
   * reconfiguration or shutdown.
   */
  ghost predicate Continues(st: Settings, config: Config, run: seq<Step>, run': seq<Step>) {
    && run <= run' && Exec(st, config, run).Some? && Exec(st, config, run').Some?
    && forall k | |run| <= k < |run'| :: run'[k].Thread? || run'[k].Configuring?
  }

  lemma ContinuesOn(st: Settings, config: Config, run: seq<Step>, mid: seq<Step>, run': seq<Step>)
    requires Continues(st, config, run, mid) && Continues(st, config, mid, run')
    ensures Continues(st, config, run, run')
  {
    hide Exec;
    forall k | |run| <= k < |run'| ensures run'[k].Thread? || run'[k].Configuring? {
      if k < |mid| { assert run'[k] == mid[k]; }
    }
  }

  lemma ContinuesWith(st: Settings, config: Config, run: seq<Step>, step: Step)
    requires Exec(st, config, run).Some? && (step.Thread? || step.Configuring?)
    requires Next(st, Exec(st, config, run).value, step).Some?
    ensures Continues(st, config, run, run + [step])
    ensures Exec(st, config, run + [step]) == Next(st, Exec(st, config, run).value, step)
  {
    ExecSnoc(st, config, run, step);
  }
}
