/**
 * What single steps may write into the logs: when the server records a
 * request, and when spans are forgotten.
 */
module PipelineHistory {
  import opened Basics
  import opened HashKeys
  import opened ShardingConfig
  import opened Spans
  import opened ShardEncoding
  import opened Server
  import opened Exporting
  import opened ConfigMailbox
  import opened Pipeline
  import opened PipelineRouting
  import opened PipelineAccounting

  // ---------- admissions ----------

  /** Step k of the run is the server comparing this request with what was then its configuration. */
  ghost predicate AdmittedAt(st: Settings, config: Config, run: seq<Step>, k: nat, a: Admission) {
    && k < |run| && Exec(st, config, run[..k]).Some?
    && var s := Exec(st, config, run[..k]).value;
    && run[k].Thread? && run[k].i < |s.threads|
    && s.threads[run[k].i] == InFlight(a.request)
    && CurrentConfig(s.sh) == a.config
    && ShardIsPartOfConfig(a.request.exportRequest.shard, a.config)
  }

  ghost predicate WasAdmitted(st: Settings, config: Config, run: seq<Step>, a: Admission) {
    exists k :: AdmittedAt(st, config, run, k, a)
  }

  ghost predicate AllAdmitted(st: Settings, config: Config, run: seq<Step>, s: State) {
    && (forall a <- s.sh.records :: WasAdmitted(st, config, run, a))
    && (forall pc <- s.threads :: pc.Admitted? ==> WasAdmitted(st, config, run, Admission(pc.req, pc.config)))
  }

  /** Only the server's handler records, and only after a comparison that succeeded. */
  ghost predicate RecordsStep(sh: Shared, pc: Pc, sh': Shared, pc': Pc) {
    && (sh'.records == sh.records || (pc.Admitted? && sh'.records == sh.records + [Admission(pc.req, pc.config)]))
    && (pc'.Admitted? ==>
          && pc == InFlight(pc'.req) && pc'.config == CurrentConfig(sh)
          && ShardIsPartOfConfig(pc'.req.exportRequest.shard, pc'.config))
  }

  lemma ActRecords(st: Settings, sh: Shared, pc: Pc, ch: Choice)
    requires Act(st, sh, pc, ch).Some?
    ensures var (sh', pc') := Act(st, sh, pc, ch).value; RecordsStep(sh, pc, sh', pc')
  {
    hide OnReply, ResendSpans, SetConfig, AppendSection, FlushSection, TryEncode, FindShard, CurrentShards,
      OnSpanProcessFail, ShardIsPartOfConfig, CurrentConfig;
  }

  lemma AdmissionsLast(st: Settings, config: Config, run: seq<Step>, step: Step, a: Admission)
    requires WasAdmitted(st, config, run, a)
    ensures WasAdmitted(st, config, run + [step], a)
  {
    hide Exec;
    var k: nat :| AdmittedAt(st, config, run, k, a);
    assert (run + [step])[..k] == run[..k];
    assert AdmittedAt(st, config, run + [step], k, a);
  }

  lemma ThreadAdmits(st: Settings, config: Config, run: seq<Step>, i: nat, ch: Choice)
    requires Exec(st, config, run).Some? && AllAdmitted(st, config, run, Exec(st, config, run).value)
    requires Next(st, Exec(st, config, run).value, Thread(i, ch)).Some?
    ensures AllAdmitted(st, config, run + [Thread(i, ch)], Next(st, Exec(st, config, run).value, Thread(i, ch)).value)
  {
    hide Act, WasAdmitted, Exec;
    var s := Exec(st, config, run).value;
    var s' := Next(st, s, Thread(i, ch)).value;
    var run' := run + [Thread(i, ch)];
    assert s.threads[i] in s.threads;
    ActRecords(st, s.sh, s.threads[i], ch);
    forall a | WasAdmitted(st, config, run, a) ensures WasAdmitted(st, config, run', a) {
      AdmissionsLast(st, config, run, Thread(i, ch), a);
    }
    if s'.threads[i].Admitted? {
      var a := Admission(s'.threads[i].req, s'.threads[i].config);
      assert run'[..|run|] == run;
      assert AdmittedAt(st, config, run', |run|, a);
      Admits(st, config, run', |run|, a);
    }
  }

  lemma Admits(st: Settings, config: Config, run: seq<Step>, k: nat, a: Admission)
    requires AdmittedAt(st, config, run, k, a)
    ensures WasAdmitted(st, config, run, a)
  {
  }

  /** A single goroutine, an arrival or the server's own change leaves the records and admits nothing. */
  lemma OthersAdmitNothing(st: Settings, s: State, step: Step)
    requires Next(st, s, step).Some? && !step.Thread?
    ensures var s' := Next(st, s, step).value;
      s'.sh.records == s.sh.records && forall pc <- s'.threads :: pc in s.threads || !pc.Admitted?
  {
    hide Configure, Boot, Shutdown, Apart, Sum;
    match step
    case Configuring => ConfigureApart(st, s.sh, 0); SpawnAdmitsNothing(s, Configure(st, s.sh));
    case Booting(ok) => BootApart(st, s.sh, ok, 0); SpawnAdmitsNothing(s, Boot(st, s.sh, ok));
    case ShuttingDown(timedOut) => ShutdownApart(st, s.sh, timedOut, 0); SpawnAdmitsNothing(s, Shutdown(st, s.sh,
      timedOut));
    case _ =>
  }

  lemma SpawnAdmitsNothing(s: State, r: Option<(Shared, seq<Pc>)>)
    requires Apart(s.sh, r, 0)
    ensures r.Some? ==> r.value.0.records == s.sh.records && forall pc <- r.value.1 :: !pc.Admitted?
  {
    hide Sum;
  }

  /**
   * Every recorded request was compared with the configuration noted beside
   * it at a step of the run when that was the server's current one.
   */
  lemma {:induction false} RecordsWereAdmittedWhileCurrent(st: Settings, config: Config, run: seq<Step>)
    requires Exec(st, config, run).Some?
    ensures AllAdmitted(st, config, run, Exec(st, config, run).value)
  {
    hide WasAdmitted, Next;
    if run != [] {
      var init, step := run[..|run| - 1], run[|run| - 1];
      assert run == init + [step];
      RecordsWereAdmittedWhileCurrent(st, config, init);
      if step.Thread? {
        ThreadAdmits(st, config, init, step.i, step.ch);
      } else {
        OthersAdmitNothing(st, Exec(st, config, init).value, step);
        forall a | WasAdmitted(st, config, init, a) ensures WasAdmitted(st, config, run, a) {
          AdmissionsLast(st, config, init, step, a);
        }
      }
    }
  }

  // ---------- records go to the right shard ----------

  /** The key of the span, the big-endian value of the whole digest of its trace ID, lies in the definition's range. */
  predicate DigestInRange(md5: string -> Digest, d: ShardDefinition, s: Span) {
    SetBytes(d.startingHashKey) <= SetBytes(md5(s.traceID)) <= SetBytes(d.endingHashKey)
  }

  /** The record names a shard of `config`, and no other shard of it owns any of the record's spans. */
  ghost predicate RightShard(st: Settings, a: Admission) {
    exists d <- a.config :: (
      && SameDefinition(d, a.request.exportRequest.shard)
      && (forall s <- a.request.originalSpans :: DigestInRange(st.limits.codec.md5, d, s))
      && (Acceptable(a.config) ==>
            forall e <- a.config, s <- a.request.originalSpans :: DigestInRange(st.limits.codec.md5, e, s) ==> e == d))
  }

  /**
   * In every run, however stale the client's configuration, each record the
   * server has recorded holds only spans that hash into the shard it names. The
   * server's handler compared that shard with the configuration that was current at that step of
   * the run, found it there, and no other definition of it owns the spans.
   */
  lemma RecordsAreInTheRightShard(st: Settings, config: Config, run: seq<Step>, a: Admission)
    requires Exec(st, config, run).Some? && a in Exec(st, config, run).value.sh.records
    ensures WasAdmitted(st, config, run, a) && a.config in Exec(st, config, run).value.sh.configs
    ensures RecordMatchesSpans(st.limits, a.request.exportRequest.record, a.request.originalSpans)
    ensures RightShard(st, a)
  {
    hide WasAdmitted;
    RunKeepsInv(st, config, run);
    RecordsWereAdmittedWhileCurrent(st, config, run);
    var shard := a.request.exportRequest.shard;
    assert AdmissionOk(st, Exec(st, config, run).value.sh.configs, a);
    var d :| d in a.config && SameDefinition(d, shard);
    assert d == shard;
    forall s | s in a.request.originalSpans ensures DigestInRange(st.limits.codec.md5, d, s) {
      assert Belongs(st, InMemory(d), s);
    }
    if Acceptable(a.config) {
      forall e, s | e in a.config && s in a.request.originalSpans && DigestInRange(st.limits.codec.md5, e, s)
        ensures e == d
      {
        OnlyOneDefinitionOwns(a.config, d, e, PartitionKeyToHashKey(st.limits.codec.md5, s.traceID));
      }
    }
  }

  lemma OnlyOneDefinitionOwns(config: Config, d: ShardDefinition, e: ShardDefinition, key: nat)
    requires Acceptable(config) && d in config && e in config
    requires Contains(InMemory(d), key) && Contains(InMemory(e), key)
    ensures d == e
  {
    var i :| 0 <= i < |config| && config[i] == d;
    var j :| 0 <= j < |config| && config[j] == e;
    KeyHasOnePlace(Map(config, InMemory), i, j, key);
  }

  lemma KeyHasOnePlace(shards: seq<Shard>, i: nat, j: nat, key: nat)
    requires PairwiseDisjoint(shards) && i < |shards| && j < |shards|
    requires Contains(shards[i], key) && Contains(shards[j], key)
    ensures i == j
  {
  }

  // ---------- forgotten spans ----------

  predicate Unknown(reply: Reply) {
    reply.Answer? && reply.response.resultCode.UNRECOGNIZED?
  }

  /** The two places where spans vanish uncounted, and what vanishes there. */
  function ForgottenBy(sh: Shared, pc: Pc): seq<Span> {
    if pc.Entering? && pc.retried && sh.ctl.stopping then pc.batch
    else if pc.Replied? && Unknown(pc.reply) then pc.req.originalSpans
    else []
  }

  /** A step forgets exactly that, keeps the stopping flag, and learns no unknown code unless the server gives one. */
  ghost predicate ForgetsStep(st: Settings, sh: Shared, pc: Pc, sh': Shared, pc': Pc) {
    && sh'.out.forgotten == sh.out.forgotten + ForgottenBy(sh, pc)
    && sh'.ctl.stopping == sh.ctl.stopping
    && (pc'.Replied? && Unknown(pc'.reply) ==> st.mayReply(pc'.reply))
  }

  lemma OutboxForgets(o: Outbox, spans: seq<Span>, reply: Reply, code: EncoderErrorCode)
    ensures OnReply(o, spans, reply).forgotten == o.forgotten + if Unknown(reply) then spans else []
    ensures OnSpanProcessFail(o, spans, code).forgotten == o.forgotten
    ensures ResendSpans(o, spans).forgotten == o.forgotten
  {
  }

  lemma FlushForgets(st: Settings, sh: Shared, pc: Pc, ch: Choice)
    requires FlushAct(st, sh, pc, ch).Some?
    ensures var (sh', pc') := FlushAct(st, sh, pc, ch).value; ForgetsStep(st, sh, pc, sh', pc')
  {
    if pc.Calling? && pc.cb.SpanProcessFail? { OutboxForgets(sh.out, pc.cb.spans, RpcError([]), pc.cb.code); }
    hide FlushSection, OnSpanProcessFail;
  }

  lemma SenderForgets(st: Settings, sh: Shared, pc: Pc, ch: Choice)
    requires SenderAct(st, sh, pc, ch).Some?
    ensures var (sh', pc') := SenderAct(st, sh, pc, ch).value; ForgetsStep(st, sh, pc, sh', pc')
  {
    if pc.Replied? { OutboxForgets(sh.out, pc.req.originalSpans, pc.reply, ErrEncodingFailed); }
    else if pc.Resending? { OutboxForgets(sh.out, pc.spans, RpcError([]), ErrEncodingFailed); }
    hide OnReply, ResendSpans, SetConfig, ShardIsPartOfConfig, CurrentConfig;
  }

  lemma WorkForgets(st: Settings, sh: Shared, pc: Pc, ch: Choice)
    requires Act(st, sh, pc, ch).Some? && (CallerPc(pc) || WorkerPc(pc))
    ensures var (sh', pc') := Act(st, sh, pc, ch).value; ForgetsStep(st, sh, pc, sh', pc')
  {
    hide AppendSection, TryEncode, FindShard, CurrentShards;
  }

  lemma ThreadForgets(st: Settings, sh: Shared, pc: Pc, ch: Choice)
    requires Act(st, sh, pc, ch).Some?
    ensures var (sh', pc') := Act(st, sh, pc, ch).value; ForgetsStep(st, sh, pc, sh', pc')
  {
    if CallerPc(pc) || WorkerPc(pc) { WorkForgets(st, sh, pc, ch); }
    else if FlushPc(pc) { FlushForgets(st, sh, pc, ch); }
    else { SenderForgets(st, sh, pc, ch); }
  }

  lemma OthersForgetNothing(st: Settings, s: State, step: Step)
    requires Next(st, s, step).Some? && !step.Thread?
    ensures var s' := Next(st, s, step).value;
      && s'.sh.out == s.sh.out && (s.sh.ctl.stopping ==> s'.sh.ctl.stopping)
      && forall pc <- s'.threads :: pc in s.threads || !pc.Replied?
  {
    hide Boot, Configure, Shutdown, Apart, Sum;
    match step
    case Configuring =>
      ConfigureApart(st, s.sh, 0);
      SpawnForgetsNothing(s, Configure(st, s.sh));
      ConfigureKeepsControl(st, s.sh);
    case Booting(ok) =>
      BootApart(st, s.sh, ok, 0);
      SpawnForgetsNothing(s, Boot(st, s.sh, ok));
      BootKeepsStopping(st, s.sh, ok);
    case ShuttingDown(timedOut) =>
      ShutdownApart(st, s.sh, timedOut, 0);
      SpawnForgetsNothing(s, Shutdown(st, s.sh, timedOut));
      ShutdownKeepsStopping(st, s.sh, timedOut);
    case _ =>
  }

  lemma SpawnForgetsNothing(s: State, r: Option<(Shared, seq<Pc>)>)
    requires Apart(s.sh, r, 0)
    ensures r.Some? ==> r.value.0.out == s.sh.out && forall pc <- r.value.1 :: !pc.Replied?
  {
    hide Sum;
  }

  lemma ConfigureKeepsControl(st: Settings, sh: Shared)
    ensures Configure(st, sh).Some? ==> Configure(st, sh).value.0.ctl == sh.ctl
  {
    hide NewConfig, CheckMailbox;
  }

  lemma BootKeepsStopping(st: Settings, sh: Shared, ok: bool)
    ensures Boot(st, sh, ok).Some? ==> Boot(st, sh, ok).value.0.ctl.stopping == sh.ctl.stopping
  {
    hide SetConfig, CurrentConfig;
  }

  lemma ShutdownKeepsStopping(st: Settings, sh: Shared, timedOut: bool)
    ensures Shutdown(st, sh, timedOut).Some? && sh.ctl.stopping ==> Shutdown(st, sh, timedOut).value.0.ctl.stopping
  {
    hide Current, FlagStop, SignalStop;
  }

  /** The server answers what it has recorded with codes that the client knows. */
  ghost predicate KnownCodes(st: Settings) {
    forall reply :: st.mayReply(reply) ==> !Unknown(reply)
  }

  /** Nothing has been forgotten, unless the encoder is stopping; and no unknown code is on its way. */
  ghost predicate NothingForgotten(s: State) {
    && (!s.sh.ctl.stopping ==> s.sh.out.forgotten == [])
    && forall pc <- s.threads :: pc.Replied? ==> !Unknown(pc.reply)
  }

  lemma NextForgetsNothing(st: Settings, s: State, step: Step)
    requires KnownCodes(st) && NothingForgotten(s) && Next(st, s, step).Some?
    ensures NothingForgotten(Next(st, s, step).value)
  {
    hide Act, Unknown;
    if step.Thread? {
      assert s.threads[step.i] in s.threads;
      ThreadForgets(st, s.sh, s.threads[step.i], step.ch);
    } else {
      OthersForgetNothing(st, s, step);
      hide Next;
    }
  }

  /** Before the encoder is stopping, with a server whose codes the client knows, no span is lost uncounted. */
  lemma {:induction false} NothingIsForgottenBeforeStopping(st: Settings, config: Config, run: seq<Step>)
    requires KnownCodes(st) && Exec(st, config, run).Some?
    ensures NothingForgotten(Exec(st, config, run).value)
  {
    hide KnownCodes;
    if run != [] {
      NothingIsForgottenBeforeStopping(st, config, run[..|run| - 1]);
      NextForgetsNothing(st, Exec(st, config, run[..|run| - 1]).value, run[|run| - 1]);
    }
  }

  /**
   * Conservation before shutdown with nothing unaccounted for: every span
   * taken in is in the pipeline, delivered, or dropped and counted.
   */
  lemma SpansAreAccountedForBeforeStopping(st: Settings, config: Config, run: seq<Step>, x: nat)
    requires KnownCodes(st) && Exec(st, config, run).Some? && !Exec(st, config, run).value.sh.ctl.stopping
    ensures var s := Exec(st, config, run).value;
      Count(s.sh.admitted, x)
      == Sum(s.sh.queue, BatchCount(x)) + Sum(s.sh.ses, PendingCount(x)) + Sum(s.sh.requests, RequestCount(x))
       + Sum(s.sh.out.retry, BatchCount(x)) + Sum(s.threads, HandCount(x))
       + Count(s.sh.out.delivered, x) + Sum(s.sh.out.dropped, DropCount(x))
  {
    NothingIsForgottenBeforeStopping(st, config, run);
    SpansAreConserved(st, config, run, x);
  }
}
