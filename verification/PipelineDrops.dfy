/**
 * Why spans are turned away: over whole runs each failure of an encoder and each
 * batch that is counted as dropped goes back to a step that had a cause for it.
 */
module PipelineDrops {
  import opened Basics
  import opened HashKeys
  import opened ShardingConfig
  import opened Spans
  import opened ShardEncoding
  import opened Server
  import opened Exporting
  import opened ConfigMailbox
  import opened Pipeline
  import opened PipelineAccounting

  // ---------- causes ----------

  /** No encoder of the current list has the span's digest in its range. */
  ghost predicate NobodyOwns(st: Settings, sh: Shared, span: Span) {
    forall j | sh.lo <= j < |sh.ses| ::
      !(sh.ses[j].shard.startingHashKey <= SetBytes(st.limits.codec.md5(span.traceID))
        <= sh.ses[j].shard.endingHashKey)
  }

  /** The limit turns the span away, and this is what is left of it. */
  ghost predicate OverLimit(st: Settings, span: Span, rest: Span) {
    LimitEnforced(st.limits.codec, st.limits.maxAllowedSizePerSpan, span, Rejected(rest))
  }

  /** The thread is at a point, in this state, from which it comes to report these spans with this code. */
  ghost predicate FailsHere(st: Settings, sh: Shared, pc: Pc, spans: seq<Span>, code: EncoderErrorCode) {
    match pc
    case Picking(rest) =>
      rest != [] && spans == [rest[0]] && code.ErrEncodingFailed? && NobodyOwns(st, sh, rest[0])
    case Routed(span, _, _) =>
      |spans| == 1 && code.ErrEncodingFailed? && OverLimit(st, span, spans[0])
    case Sized(span, _, se, _) =>
      spans == [span] && code.ErrEncoderStopped? && se < |sh.ses| && sh.ses[se].stopped
    case Flushing(se, _) =>
      && se < |sh.ses| && spans == sh.ses[se].pending && spans != []
      && if sh.ses[se].stopped then code.ErrEncoderStopped? else code.ErrEncodingFailed? && !Encodes(st.limits, spans)
    case _ => false
  }

  /** The thread hands the batch back for retry. */
  ghost predicate HandsBack(pc: Pc, spans: seq<Span>) {
    || (pc.Calling? && pc.cb == SpanProcessFail(spans, ErrEncoderStopped))
    || (pc.Resending? && pc.spans == spans)
    || (pc.Replied? && pc.req.originalSpans == spans && pc.reply.RpcError? && Throttles(pc.reply.details))
    || (pc.Replied? && pc.req.originalSpans == spans && pc.reply.Answer?
        && pc.reply.response.resultCode.FAILED_RETRYABLE?)
  }

  /** The thread is at a point, in this state, at which its step counts this batch as dropped. */
  ghost predicate DropsHere(sh: Shared, pc: Pc, d: Drop) {
    match d.code
    case FatalEncodingError => pc.Calling? && pc.cb == SpanProcessFail(d.spans, ErrEncodingFailed)
    case RetryQueueFull => |sh.out.retry| >= 10_000 && HandsBack(pc, d.spans)
    case ExportResponseNotRetryable =>
      && pc.Replied? && pc.req.originalSpans == d.spans
      && pc.reply.Answer? && pc.reply.response.resultCode.FAILED_NOT_RETRYABLE?
    case SendErrNotRetryable =>
      pc.Replied? && pc.req.originalSpans == d.spans && pc.reply.RpcError? && !Throttles(pc.reply.details)
  }

  // ---------- single steps ----------

  /** The step drops at most one batch, and comes to hold at most one failure, each for a cause. */
  ghost predicate CausedStep(st: Settings, sh: Shared, pc: Pc, sh': Shared, pc': Pc) {
    && (pc'.Calling? && pc'.cb.SpanProcessFail? ==> FailsHere(st, sh, pc, pc'.cb.spans, pc'.cb.code))
    && (sh'.out.dropped == sh.out.dropped
        || exists d :: sh'.out.dropped == sh.out.dropped + [d] && DropsHere(sh, pc, d))
  }

  lemma PickingFails(st: Settings, sh: Shared, pc: Pc, ch: Choice)
    requires pc.Picking?
    ensures var (sh', pc') := WorkerAct(st, sh, pc, ch).value; CausedStep(st, sh, pc, sh', pc')
  {
    if pc.rest != [] {
      KeyIsLookedUpByDigest(CurrentShards(sh), st.limits.codec.md5, pc.rest[0].traceID);
      hide FindShard;
      if sh.lo <= |sh.ses| {
        forall j | sh.lo <= j < |sh.ses| ensures sh.ses[j].shard in CurrentShards(sh) {
          assert CurrentShards(sh)[j - sh.lo] == sh.ses[j].shard;
        }
      }
    }
  }

  lemma WorkerCaused(st: Settings, sh: Shared, pc: Pc, ch: Choice)
    requires WorkerAct(st, sh, pc, ch).Some?
    ensures var (sh', pc') := WorkerAct(st, sh, pc, ch).value; CausedStep(st, sh, pc, sh', pc')
  {
    if pc.Picking? { PickingFails(st, sh, pc, ch); }
    if pc.Routed? { SizeLimitExactly(st.limits.codec, st.limits.maxAllowedSizePerSpan, pc.span); }
    hide FindShard, CurrentShards, TryEncode, LimitEnforced, IsCutOf;
  }

  lemma FlushCaused(st: Settings, sh: Shared, pc: Pc, ch: Choice)
    requires FlushAct(st, sh, pc, ch).Some?
    ensures var (sh', pc') := FlushAct(st, sh, pc, ch).value; CausedStep(st, sh, pc, sh', pc')
  {
    if pc.Flushing? { FlushReportsPending(st.limits, sh.ses[pc.se]); }
    if pc.Calling? && pc.cb.SpanProcessFail? {
      OutcomesExactly(sh.out, pc.cb.spans, RpcError([]), pc.cb.code);
      FailureDrops(sh, pc);
    }
    hide FlushSection, OnSpanProcessFail, RecordMatchesSpans, FailedAs, DropsHere;
  }

  lemma FailureDrops(sh: Shared, pc: Pc)
    requires pc.Calling? && pc.cb.SpanProcessFail?
    requires FailedAs(sh.out, pc.cb.spans, pc.cb.code, OnSpanProcessFail(sh.out, pc.cb.spans, pc.cb.code))
    ensures var dropped := OnSpanProcessFail(sh.out, pc.cb.spans, pc.cb.code).dropped;
      dropped == sh.out.dropped || exists d :: dropped == sh.out.dropped + [d] && DropsHere(sh, pc, d)
  {
    hide OnSpanProcessFail;
    var code := if pc.cb.code.ErrEncoderStopped? then RetryQueueFull else FatalEncodingError;
    assert pc.cb == SpanProcessFail(pc.cb.spans, pc.cb.code);
    assert pc.cb.code.ErrEncodingFailed? || |sh.out.retry| >= 10_000 ==> DropsHere(sh, pc, Drop(code, pc.cb.spans));
  }

  lemma ReplyDrops(sh: Shared, pc: Pc)
    requires pc.Replied? && !MismatchReply(pc.reply)
    ensures var dropped := OnReply(sh.out, pc.req.originalSpans, pc.reply).dropped;
      dropped == sh.out.dropped || exists d :: dropped == sh.out.dropped + [d] && DropsHere(sh, pc, d)
  {
    OutcomesExactly(sh.out, pc.req.originalSpans, pc.reply, ErrEncodingFailed);
    hide OnReply;
    var o' := OnReply(sh.out, pc.req.originalSpans, pc.reply);
    if o'.dropped != sh.out.dropped {
      var d := o'.dropped[|sh.out.dropped|];
      assert o'.dropped == sh.out.dropped + [d];
      assert DropsHere(sh, pc, d);
    }
  }

  lemma ResendDrops(sh: Shared, pc: Pc)
    requires pc.Resending?
    ensures var dropped := ResendSpans(sh.out, pc.spans).dropped;
      dropped == sh.out.dropped || exists d :: dropped == sh.out.dropped + [d] && DropsHere(sh, pc, d)
  {
    assert |sh.out.retry| >= 10_000 ==> DropsHere(sh, pc, Drop(RetryQueueFull, pc.spans));
  }

  lemma SenderCaused(st: Settings, sh: Shared, pc: Pc, ch: Choice)
    requires SenderAct(st, sh, pc, ch).Some?
    ensures var (sh', pc') := SenderAct(st, sh, pc, ch).value; CausedStep(st, sh, pc, sh', pc')
  {
    if pc.Replied? && !MismatchReply(pc.reply) { ReplyDrops(sh, pc); }
    if pc.Resending? { ResendDrops(sh, pc); }
    hide OnReply, ResendSpans, SetConfig, ShardIsPartOfConfig, CurrentConfig, DropsHere;
  }

  lemma ThreadCaused(st: Settings, sh: Shared, pc: Pc, ch: Choice)
    requires Act(st, sh, pc, ch).Some?
    ensures var (sh', pc') := Act(st, sh, pc, ch).value; CausedStep(st, sh, pc, sh', pc')
  {
    if CallerPc(pc) {
      hide DropsHere;
    } else {
      hide CallerAct, WorkerAct, FlushAct, SenderAct, CausedStep;
      if WorkerPc(pc) { WorkerCaused(st, sh, pc, ch); }
      else if FlushPc(pc) { FlushCaused(st, sh, pc, ch); }
      else { SenderCaused(st, sh, pc, ch); }
    }
  }

  // ---------- runs ----------

  /** Step k of the run is taken by a thread at a point where it fails these spans. */
  ghost predicate FailedAt(st: Settings, config: Config, run: seq<Step>, k: nat, spans: seq<Span>,
          code: EncoderErrorCode) {
    && k < |run| && run[k].Thread? && Exec(st, config, run[..k]).Some?
    && var s := Exec(st, config, run[..k]).value;
    && run[k].i < |s.threads| && FailsHere(st, s.sh, s.threads[run[k].i], spans, code)
  }

  /** Step k of the run drops this batch. */
  ghost predicate DroppedAt(st: Settings, config: Config, run: seq<Step>, k: nat, d: Drop) {
    && k < |run| && run[k].Thread? && Exec(st, config, run[..k]).Some?
    && var s := Exec(st, config, run[..k]).value;
    && run[k].i < |s.threads| && DropsHere(s.sh, s.threads[run[k].i], d)
  }

  ghost predicate HasFailed(st: Settings, config: Config, run: seq<Step>, spans: seq<Span>, code: EncoderErrorCode) {
    exists k :: FailedAt(st, config, run, k, spans, code)
  }

  ghost predicate HasDropped(st: Settings, config: Config, run: seq<Step>, d: Drop) {
    exists k :: DroppedAt(st, config, run, k, d)
  }

  ghost predicate AllCaused(st: Settings, config: Config, run: seq<Step>, s: State) {
    && (forall d <- s.sh.out.dropped :: HasDropped(st, config, run, d))
    && (forall pc <- s.threads :: pc.Calling? && pc.cb.SpanProcessFail? ==>
          HasFailed(st, config, run, pc.cb.spans, pc.cb.code))
  }

  lemma CausesLast(st: Settings, config: Config, run: seq<Step>, run': seq<Step>, spans: seq<Span>,
          code: EncoderErrorCode, d: Drop)
    requires run <= run'
    ensures HasFailed(st, config, run, spans, code) ==> HasFailed(st, config, run', spans, code)
    ensures HasDropped(st, config, run, d) ==> HasDropped(st, config, run', d)
  {
    hide Exec, FailsHere, DropsHere;
    if k: nat :| FailedAt(st, config, run, k, spans, code) {
      assert run'[..k] == run[..k];
      assert FailedAt(st, config, run', k, spans, code);
    }
    if k: nat :| DroppedAt(st, config, run, k, d) {
      assert run'[..k] == run[..k];
      assert DroppedAt(st, config, run', k, d);
    }
  }

  lemma ThreadStepCaused(st: Settings, config: Config, run: seq<Step>, i: nat, ch: Choice)
    requires Exec(st, config, run).Some? && AllCaused(st, config, run, Exec(st, config, run).value)
    requires Next(st, Exec(st, config, run).value, Thread(i, ch)).Some?
    ensures AllCaused(st, config, run + [Thread(i, ch)], Next(st, Exec(st, config, run).value, Thread(i, ch)).value)
  {
    hide Act, Exec, FailsHere, DropsHere, HasFailed, HasDropped;
    var s := Exec(st, config, run).value;
    var run' := run + [Thread(i, ch)];
    var (sh', pc') := Act(st, s.sh, s.threads[i], ch).value;
    assert run'[..|run|] == run;
    ThreadCaused(st, s.sh, s.threads[i], ch);
    forall d | d in sh'.out.dropped ensures HasDropped(st, config, run', d) {
      CausesLast(st, config, run, run', [], ErrEncodingFailed, d);
      if d !in s.sh.out.dropped {
        assert DroppedAt(st, config, run', |run|, d);
        DropIsCaused(st, config, run', |run|, d);
      }
    }
    forall pc | pc in s.threads && pc.Calling? && pc.cb.SpanProcessFail?
      ensures HasFailed(st, config, run', pc.cb.spans, pc.cb.code)
    {
      CausesLast(st, config, run, run', pc.cb.spans, pc.cb.code, Drop(RetryQueueFull, []));
    }
    if pc'.Calling? && pc'.cb.SpanProcessFail? {
      assert FailedAt(st, config, run', |run|, pc'.cb.spans, pc'.cb.code);
      FailureIsCaused(st, config, run', |run|, pc'.cb.spans, pc'.cb.code);
    }
  }

  lemma DropIsCaused(st: Settings, config: Config, run: seq<Step>, k: nat, d: Drop)
    requires DroppedAt(st, config, run, k, d)
    ensures HasDropped(st, config, run, d)
  {
  }

  lemma FailureIsCaused(st: Settings, config: Config, run: seq<Step>, k: nat, spans: seq<Span>, code: EncoderErrorCode)
    requires FailedAt(st, config, run, k, spans, code)
    ensures HasFailed(st, config, run, spans, code)
  {
  }

  /** A single goroutine, an arrival or the server's own change drops nothing and fails nothing. */
  lemma OthersCauseNothing(st: Settings, s: State, step: Step)
    requires Next(st, s, step).Some? && !step.Thread?
    ensures var s' := Next(st, s, step).value;
      s'.sh.out == s.sh.out && forall pc <- s'.threads :: pc in s.threads || !pc.Calling?
  {
    hide Boot, Configure, Shutdown, Apart, Sum;
    match step
    case Configuring => ConfigureApart(st, s.sh, 0); SpawnCausesNothing(s, Configure(st, s.sh));
    case Booting(ok) => BootApart(st, s.sh, ok, 0); SpawnCausesNothing(s, Boot(st, s.sh, ok));
    case ShuttingDown(timedOut) =>
      ShutdownApart(st, s.sh, timedOut, 0);
      SpawnCausesNothing(s, Shutdown(st, s.sh, timedOut));
    case _ =>
  }

  lemma SpawnCausesNothing(s: State, r: Option<(Shared, seq<Pc>)>)
    requires Apart(s.sh, r, 0)
    ensures r.Some? ==> r.value.0.out == s.sh.out && forall pc <- r.value.1 :: !pc.Calling?
  {
    hide Sum;
  }

  lemma {:induction false} EverythingIsCaused(st: Settings, config: Config, run: seq<Step>)
    requires Exec(st, config, run).Some?
    ensures AllCaused(st, config, run, Exec(st, config, run).value)
  {
    hide HasFailed, HasDropped, Next;
    if run != [] {
      var init, step := run[..|run| - 1], run[|run| - 1];
      assert run == init + [step];
      EverythingIsCaused(st, config, init);
      if step.Thread? {
        ThreadStepCaused(st, config, init, step.i, step.ch);
      } else {
        OthersCauseNothing(st, Exec(st, config, init).value, step);
        forall d | d in Exec(st, config, init).value.sh.out.dropped ensures HasDropped(st, config, run, d) {
          CausesLast(st, config, init, run, [], ErrEncodingFailed, d);
        }
        forall pc | pc in Exec(st, config, init).value.threads && pc.Calling? && pc.cb.SpanProcessFail?
          ensures HasFailed(st, config, run, pc.cb.spans, pc.cb.code)
        {
          CausesLast(st, config, init, run, pc.cb.spans, pc.cb.code, Drop(RetryQueueFull, []));
        }
      }
    }
  }

  /**
   * In every run each batch counted as dropped was dropped at a step that had cause to: the
   * retry queue held 10000 batches, the server refused the batch, the call
   * failed and no positive delay was asked for, or an encoder had reported the spans as
   * impossible to encode; and in that case an earlier step found no shard that owns
   * the span, found it over the limit even after the cut, or failed to marshal or compress the batch.
   */
  lemma EveryDropHasCause(st: Settings, config: Config, run: seq<Step>, d: Drop)
    requires Exec(st, config, run).Some? && d in Exec(st, config, run).value.sh.out.dropped
    ensures HasDropped(st, config, run, d)
    ensures d.code.FatalEncodingError? ==> HasFailed(st, config, run, d.spans, ErrEncodingFailed)
  {
    hide Exec, FailsHere, HasFailed;
    EverythingIsCaused(st, config, run);
    if d.code.FatalEncodingError? {
      var k: nat :| DroppedAt(st, config, run, k, d);
      var s := Exec(st, config, run[..k]).value;
      EverythingIsCaused(st, config, run[..k]);
      assert s.threads[run[k].i] in s.threads;
      CausesLast(st, config, run[..k], run, d.spans, ErrEncodingFailed, d);
    }
  }
}
