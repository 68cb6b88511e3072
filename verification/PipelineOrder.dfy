/** The queues of the exporter are first in, first out: what leaves them, over whole runs, is what entered, in order. */
module PipelineOrder {
  import opened Basics
  import opened ShardingConfig
  import opened Spans
  import opened ShardEncoding
  import opened Server
  import opened Exporting
  import opened ConfigMailbox
  import opened Pipeline
  import opened PipelineAccounting

  /** What went through an end of the input queue, of the client's queue, and of the retry queue. */
  datatype Traffic = Traffic(batches: seq<seq<Span>>, requests: seq<RequestToSend>, retries: seq<seq<Span>>)

  const NO_TRAFFIC := Traffic([], [], [])

  function Join(a: Traffic, b: Traffic): Traffic {
    Traffic(a.batches + b.batches, a.requests + b.requests, a.retries + b.retries)
  }

  /** The queues themselves. */
  function Queues(sh: Shared): Traffic {
    Traffic(sh.queue, sh.requests, sh.out.retry)
  }

  /** The spans that the thread hands back for retry, if it is about to. */
  function HandedBack(pc: Pc): Option<seq<Span>> {
    match pc
    case Calling(SpanProcessFail(spans, ErrEncoderStopped), _) => Some(spans)
    case Resending(spans) => Some(spans)
    case Replied(req, Answer(response), _) =>
      if response.resultCode.FAILED_RETRYABLE? then Some(req.originalSpans) else None
    case Replied(req, RpcError(details), _) =>
      if exists d <- details :: d.RetryInfo? && (d.seconds > 0 || d.nanos > 0) then Some(req.originalSpans) else None
    case _ => None
  }

  /** What the thread puts into a queue with this step. */
  function Enters(sh: Shared, pc: Pc): Traffic {
    Traffic(
      if pc.Enqueuing? then [pc.batch] else [],
      if pc.Calling? && pc.cb.RecordReady? then
        [RequestToSend(ExportRequest(pc.cb.record, pc.cb.shard.origin), pc.cb.spans)] else [],
      if HandedBack(pc).Some? && |sh.out.retry| < 10_000 then [HandedBack(pc).value] else [])
  }

  /** What the thread comes to hold from a queue with this step. */
  function Leaves(pc: Pc, pc': Pc): Traffic {
    Traffic(
      if pc.WorkerLoop? && pc'.Picking? then [pc'.rest] else [],
      if pc.SenderLoop? && pc'.InFlight? then [pc'.req] else [],
      if pc.RetryLoop? && pc'.Entering? then [pc'.batch] else [])
  }

  /** A step takes from the head and adds to the tail. */
  ghost predicate InOrder(sh: Shared, pc: Pc, sh': Shared, pc': Pc) {
    Join(Queues(sh), Enters(sh, pc)) == Join(Leaves(pc, pc'), Queues(sh'))
  }

  lemma CallerInOrder(st: Settings, sh: Shared, pc: Pc, ch: Choice)
    requires CallerPc(pc) && CallerAct(st, sh, pc, ch).Some?
    ensures var (sh', pc') := CallerAct(st, sh, pc, ch).value; InOrder(sh, pc, sh', pc')
  {
  }

  lemma WorkerInOrder(st: Settings, sh: Shared, pc: Pc, ch: Choice)
    requires WorkerPc(pc) && WorkerAct(st, sh, pc, ch).Some?
    ensures var (sh', pc') := WorkerAct(st, sh, pc, ch).value; InOrder(sh, pc, sh', pc')
  {
    hide AppendSection, TryEncode, FindShard, CurrentShards;
  }

  lemma FlushInOrder(st: Settings, sh: Shared, pc: Pc, ch: Choice)
    requires FlushPc(pc) && FlushAct(st, sh, pc, ch).Some?
    ensures var (sh', pc') := FlushAct(st, sh, pc, ch).value; InOrder(sh, pc, sh', pc')
  {
    if pc.Calling? && pc.cb.SpanProcessFail? {
      OutcomesExactly(sh.out, pc.cb.spans, RpcError([]), pc.cb.code);
    }
    hide FlushSection, OnSpanProcessFail;
  }

  /** A thread that hands nothing back and moves nothing between the queues. */
  lemma NothingMoves(sh: Shared, pc: Pc, sh': Shared, pc': Pc)
    requires Queues(sh') == Queues(sh) && Enters(sh, pc) == NO_TRAFFIC && Leaves(pc, pc') == NO_TRAFFIC
    ensures InOrder(sh, pc, sh', pc')
  {
    hide Queues, Enters, Leaves;
    assert Queues(sh).batches + [] == [] + Queues(sh).batches;
    assert Queues(sh).requests + [] == [] + Queues(sh).requests;
    assert Queues(sh).retries + [] == [] + Queues(sh).retries;
  }

  lemma RepliedInOrder(st: Settings, sh: Shared, pc: Pc, ch: Choice)
    requires pc.Replied?
    ensures var (sh', pc') := SenderAct(st, sh, pc, ch).value; InOrder(sh, pc, sh', pc')
  {
    var (sh', pc') := SenderAct(st, sh, pc, ch).value;
    if MismatchReply(pc.reply) {
      hide SetConfig, InOrder;
      NothingMoves(sh, pc, sh', pc');
    } else {
      OutcomesExactly(sh.out, pc.req.originalSpans, pc.reply, ErrEncodingFailed);
      hide OnReply, SetConfig;
    }
  }

  lemma ResendingInOrder(st: Settings, sh: Shared, pc: Pc, ch: Choice)
    requires pc.Resending?
    ensures var (sh', pc') := SenderAct(st, sh, pc, ch).value; InOrder(sh, pc, sh', pc')
  {
  }

  lemma SenderInOrder(st: Settings, sh: Shared, pc: Pc, ch: Choice)
    requires !CallerPc(pc) && !WorkerPc(pc) && !FlushPc(pc) && SenderAct(st, sh, pc, ch).Some?
    ensures var (sh', pc') := SenderAct(st, sh, pc, ch).value; InOrder(sh, pc, sh', pc')
  {
    if pc.Replied? { RepliedInOrder(st, sh, pc, ch); }
    else if pc.Resending? { ResendingInOrder(st, sh, pc, ch); }
    else { ServingInOrder(st, sh, pc, ch); }
    hide SenderAct, InOrder;
  }

  lemma ServingInOrder(st: Settings, sh: Shared, pc: Pc, ch: Choice)
    requires !CallerPc(pc) && !WorkerPc(pc) && !FlushPc(pc) && !pc.Replied? && !pc.Resending?
    requires SenderAct(st, sh, pc, ch).Some?
    ensures var (sh', pc') := SenderAct(st, sh, pc, ch).value; InOrder(sh, pc, sh', pc')
  {
    hide ShardIsPartOfConfig, CurrentConfig;
  }

  lemma ThreadInOrder(st: Settings, sh: Shared, pc: Pc, ch: Choice)
    requires Act(st, sh, pc, ch).Some?
    ensures var (sh', pc') := Act(st, sh, pc, ch).value; InOrder(sh, pc, sh', pc')
  {
    hide CallerAct, WorkerAct, FlushAct, SenderAct, InOrder;
    if CallerPc(pc) { CallerInOrder(st, sh, pc, ch); }
    else if WorkerPc(pc) { WorkerInOrder(st, sh, pc, ch); }
    else if FlushPc(pc) { FlushInOrder(st, sh, pc, ch); }
    else { SenderInOrder(st, sh, pc, ch); }
  }

  // ---------- runs ----------

  /** All that has entered the queues in a run. */
  function Entered(st: Settings, config: Config, run: seq<Step>): Traffic {
    if run == [] then NO_TRAFFIC
    else
      var init, step := run[..|run| - 1], run[|run| - 1];
      match Exec(st, config, init)
      case None => NO_TRAFFIC
      case Some(s) =>
        Join(Entered(st, config, init),
             if step.Thread? && step.i < |s.threads| then Enters(s.sh, s.threads[step.i]) else NO_TRAFFIC)
  }

  /** All that has left them. */
  function Left(st: Settings, config: Config, run: seq<Step>): Traffic {
    if run == [] then NO_TRAFFIC
    else
      var init, step := run[..|run| - 1], run[|run| - 1];
      match (Exec(st, config, init), Exec(st, config, run))
      case (Some(s), Some(s')) =>
        Join(Left(st, config, init),
             if step.Thread? && step.i < |s.threads| && step.i < |s'.threads| then
               Leaves(s.threads[step.i], s'.threads[step.i]) else NO_TRAFFIC)
      case _ => NO_TRAFFIC
  }

  lemma JoinOn(a: Traffic, b: Traffic, c: Traffic)
    ensures Join(Join(a, b), c) == Join(a, Join(b, c))
    ensures Join(a, NO_TRAFFIC) == a && Join(NO_TRAFFIC, a) == a
  {
    assert a.batches + b.batches + c.batches == a.batches + (b.batches + c.batches);
    assert a.requests + b.requests + c.requests == a.requests + (b.requests + c.requests);
    assert a.retries + b.retries + c.retries == a.retries + (b.retries + c.retries);
  }

  /** The others leave the queues alone. */
  lemma OthersLeaveQueues(st: Settings, s: State, step: Step)
    requires Next(st, s, step).Some? && !step.Thread?
    ensures Queues(Next(st, s, step).value.sh) == Queues(s.sh)
  {
    hide Boot, Configure, Shutdown, Apart, Sum;
    match step
    case Configuring => ConfigureApart(st, s.sh, 0); ApartQueues(s, Configure(st, s.sh));
    case Booting(ok) => BootApart(st, s.sh, ok, 0); ApartQueues(s, Boot(st, s.sh, ok));
    case ShuttingDown(timedOut) => ShutdownApart(st, s.sh, timedOut, 0); ApartQueues(s, Shutdown(st, s.sh, timedOut));
    case _ =>
  }

  lemma ApartQueues(s: State, r: Option<(Shared, seq<Pc>)>)
    requires Apart(s.sh, r, 0)
    ensures r.Some? ==> Queues(r.value.0) == Queues(s.sh)
  {
    hide Sum;
  }

  lemma StepInOrder(st: Settings, s: State, i: nat, ch: Choice, entered: Traffic, left: Traffic)
    requires Next(st, s, Thread(i, ch)).Some? && entered == Join(left, Queues(s.sh))
    ensures var s' := Next(st, s, Thread(i, ch)).value;
      && i < |s.threads| == |s'.threads|
      && Join(entered, Enters(s.sh, s.threads[i]))
         == Join(Join(left, Leaves(s.threads[i], s'.threads[i])), Queues(s'.sh))
  {
    hide Act, Enters, Leaves, Queues, Join;
    var (sh', pc') := Act(st, s.sh, s.threads[i], ch).value;
    ThreadInOrder(st, s.sh, s.threads[i], ch);
    JoinOn(left, Queues(s.sh), Enters(s.sh, s.threads[i]));
    JoinOn(left, Leaves(s.threads[i], pc'), Queues(sh'));
  }

  /**
   * In every run what has entered the input queue, the client's queue and the retry queue is what
   * has left them followed by what still waits, each in order: nothing overtakes, and
   * nothing is added or lost in between.
   */
  lemma {:induction false} QueuesAreFirstInFirstOut(st: Settings, config: Config, run: seq<Step>)
    requires Exec(st, config, run).Some?
    ensures Entered(st, config, run) == Join(Left(st, config, run), Queues(Exec(st, config, run).value.sh))
  {
    hide Next, Enters, Leaves, Queues, Join;
    if run == [] {
      NothingQueued(st, config);
    } else {
      var init, step := run[..|run| - 1], run[|run| - 1];
      var s := Exec(st, config, init).value;
      QueuesAreFirstInFirstOut(st, config, init);
      if step.Thread? {
        StepInOrder(st, s, step.i, step.ch, Entered(st, config, init), Left(st, config, init));
      } else {
        OthersLeaveQueues(st, s, step);
        JoinOn(Entered(st, config, init), NO_TRAFFIC, NO_TRAFFIC);
        JoinOn(Left(st, config, init), NO_TRAFFIC, NO_TRAFFIC);
      }
    }
  }

  lemma NothingQueued(st: Settings, config: Config)
    ensures NO_TRAFFIC == Join(NO_TRAFFIC, Queues(Exec(st, config, []).value.sh))
  {
  }
}
