/**
 * What becomes of the spans when the pipeline empties: every schedule that
 * keeps going empties it, and with a server that reports success each span is delivered
 * unless it could not be encoded or found the retry queue full.
 */
module PipelineOutcome {
  import opened Basics
  import opened ShardingConfig
  import opened Spans
  import opened ShardEncoding
  import opened Server
  import opened Exporting
  import opened ConfigMailbox
  import opened Pipeline
  import opened PipelineDrops
  import opened PipelineProgress
  import opened PipelineDrain
  import opened PipelineConvergence

  // ---------- any schedule ----------

  /** No step of the phase, and no tick with the step after it, moves any work. */
  ghost predicate AtAnEnd(st: Settings, stale: Staleness, t: State) {
    forall more :: |more| <= 2 && QuietExec(st, stale, t, more).Some? ==> MovingSteps(st, stale, t, more) == 0
  }

  lemma OneMove(st: Settings, stale: Staleness, t: State, q: Quiet)
    requires QuietNext(st, stale, t, q).Some?
    ensures QuietExec(st, stale, t, [q]) == QuietNext(st, stale, t, q)
    ensures MovingSteps(st, stale, t, [q]) == IsMoving(t, q)
  {
    hide QuietNext, IsMoving;
    assert [q][..0] == [];
    assert QuietExec(st, stale, t, []) == Some(t) && MovingSteps(st, stale, t, []) == 0;
  }

  lemma TwoMoves(st: Settings, stale: Staleness, t: State, p: Quiet, q: Quiet)
    requires QuietNext(st, stale, t, p).Some? && QuietNext(st, stale, QuietNext(st, stale, t, p).value, q).Some?
    ensures QuietExec(st, stale, t, [p, q]).Some?
    ensures MovingSteps(st, stale, t, [p, q]) == IsMoving(t, p) + IsMoving(QuietNext(st, stale, t, p).value, q)
  {
    OneMove(st, stale, t, p);
    hide QuietNext, IsMoving;
    assert [p, q][..1] == [p];
  }

  /** A thread that can act has a smooth step. */
  lemma HasSmoothStep(st: Settings, configs: seq<Config>, t: State, i: nat, ok: Reply)
    requires i < |t.threads| && Able(st, t.sh, t.threads[i]) && st.mayReply(ok) && Settling(ok)
    requires t.sh.configs == configs
    ensures QuietNext(st, Outdated(configs), t, Moving(i, NextChoice(t.threads[i], ok))).Some?
  {
    var pc := t.threads[i];
    SmoothAnswer(Outdated(configs), t.sh, pc, ok);
    if pc.Recorded? {
      hide Settling;
    } else {
      hide Settling, Act, Smooth;
    }
  }

  lemma WorkCanMove(st: Settings, stale: Staleness, t: State, i: nat, ok: Reply)
    requires i < |t.threads| && Busy(t.sh, t.threads[i]) && Able(st, t.sh, t.threads[i])
    requires stale == Outdated(t.sh.configs) && st.mayReply(ok) && Settling(ok)
    ensures !AtAnEnd(st, stale, t)
  {
    hide Able, Act, Busy, Settling;
    var pc := t.threads[i];
    HasSmoothStep(st, t.sh.configs, t, i, ok);
    if pc.FlusherLoop? {
      TickIsFollowedByMove(st, t.sh, pc);
      TickKeepsState(st, stale, t, i);
      var u := QuietNext(st, stale, t, Moving(i, Go)).value;
      HasSmoothStep(st, t.sh.configs, u, i, ok);
      hide QuietNext, QuietExec, MovingSteps;
      TwoMoves(st, stale, t, Moving(i, Go), Moving(i, Go));
    } else {
      hide QuietNext, QuietExec, MovingSteps;
      OneMove(st, stale, t, Moving(i, NextChoice(pc, ok)));
    }
  }

  /**
   * Every schedule of the phase that cannot be carried on empties the pipeline,
   * whatever it did: if neither a step nor a tick and the step after it can move any more work, no
   * work is left, every span taken in is settled, and none was forgotten on the way.
   */
  lemma EveryScheduleEmpties(st: Settings, config: Config, run: seq<Step>, quiet: seq<Quiet>, ok: Reply)
    requires Exec(st, config, run).Some? && st.mayReply(ok) && Settling(ok)
    requires var s := Exec(st, config, run).value;
      && Running(st, s) && Stable(st, Outdated(s.sh.configs), s)
      && QuietExec(st, Outdated(s.sh.configs), s, quiet).Some?
      && AtAnEnd(st, Outdated(s.sh.configs), QuietExec(st, Outdated(s.sh.configs), s, quiet).value)
    ensures var s := Exec(st, config, run).value;
      var t := QuietExec(st, Outdated(s.sh.configs), s, quiet).value;
      && MovingSteps(st, Outdated(s.sh.configs), s, quiet) <= Rank(Outdated(s.sh.configs), s)
      && !Unfinished(t) && EverythingSettled(t) && t.sh.out.forgotten == s.sh.out.forgotten
  {
    hide Running, Stable, Rank, Unfinished, EverythingSettled, Settling, AtAnEnd, MovingSteps, Busy, Able, SomebodyAble;
    var s := Exec(st, config, run).value;
    var stale := Outdated(s.sh.configs);
    var t := QuietExec(st, stale, s, quiet).value;
    MovingStepsAreBounded(st, stale, s, quiet);
    QuietRunKeepsRunning(st, stale, s, quiet);
    QuietRunKeepsList(st, stale, s, quiet);
    SameProcessor(s.sh, t.sh);
    QuietRunIsRun(st, stale, config, run, quiet);
    if Unfinished(t) {
      UnfinishedWorkCanProceed(st, config, run + AsSteps(quiet));
      var i := BusyAndAble(st, t);
      WorkCanMove(st, stale, t, i, ok);
    } else {
      NothingUnfinishedMeansSettled(st, config, run + AsSteps(quiet));
    }
  }

  // ---------- what is dropped ----------

  /** A reply in hand that refuses its batch for good. */
  ghost predicate Refusal(pc: Pc) {
    && pc.Replied?
    && if pc.reply.RpcError? then !Throttles(pc.reply.details)
       else pc.reply.response.resultCode.FAILED_NOT_RETRYABLE?
  }

  /**
   * These spans cannot be encoded: a span that no live encoder owns, one that is over the
   * limit even after its cut, or a batch that cannot be marshalled or compressed.
   */
  ghost predicate Unencodable(st: Settings, sh: Shared, spans: seq<Span>) {
    || (|spans| == 1 && NobodyOwns(st, sh, spans[0]))
    || (|spans| == 1 && exists span :: OverLimit(st, span, spans[0]))
    || (spans != [] && !Encodes(st.limits, spans))
  }

  /** They cannot be encoded, or had been reported so in this state already. */
  ghost predicate Failing(st: Settings, s: State, spans: seq<Span>) {
    || Unencodable(st, s.sh, spans)
    || exists pc <- s.threads :: pc.Calling? && pc.cb == SpanProcessFail(spans, ErrEncodingFailed)
  }

  /** The batch could not be encoded, found the retry queue full, or had been refused in this state already. */
  ghost predicate Excused(st: Settings, s: State, d: Drop) {
    match d.code
    case FatalEncodingError => Failing(st, s, d.spans)
    case RetryQueueFull => true
    case _ => exists pc <- s.threads :: Refusal(pc) && d.spans == pc.req.originalSpans
  }

  /** What has been dropped since is excused, refusals in hand are old ones, and so are failures without a cause now. */
  ghost predicate Excuses(st: Settings, s: State, t: State) {
    && SameList(s.sh, t.sh)
    && s.sh.out.dropped <= t.sh.out.dropped
    && (forall d <- t.sh.out.dropped[|s.sh.out.dropped|..] :: Excused(st, s, d))
    && (forall pc <- t.threads :: Refusal(pc) ==> pc in s.threads)
    && (forall pc <- t.threads :: pc.Calling? && pc.cb.SpanProcessFail? && pc.cb.code.ErrEncodingFailed? ==>
          Failing(st, s, pc.cb.spans))
  }

  lemma FailureIsExcused(st: Settings, s: State, sh: Shared, pc: Pc, spans: seq<Span>)
    requires SameList(s.sh, sh) && FailsHere(st, sh, pc, spans, ErrEncodingFailed)
    ensures Failing(st, s, spans)
  {
    hide LimitEnforced, Encodes;
    if pc.Picking? { assert NobodyOwns(st, s.sh, spans[0]); }
    if pc.Routed? { assert OverLimit(st, pc.span, spans[0]); }
  }

  lemma DropIsExcused(st: Settings, s: State, t: State, pc: Pc, d: Drop)
    requires Excuses(st, s, t) && pc in t.threads && DropsHere(t.sh, pc, d)
    ensures Excused(st, s, d)
  {
    hide Failing, Throttles;
  }

  /** A step of the phase comes to hold no refusal. */
  lemma QuietRefusesNothing(st: Settings, sh: Shared, pc: Pc, ch: Choice)
    requires Act(st, sh, pc, ch).Some? && !ch.Fail? && (ch.Respond? ==> Successful(ch.reply))
    ensures !Refusal(Act(st, sh, pc, ch).value.1)
  {
    hide OnReply, ResendSpans, SetConfig, ShardIsPartOfConfig, CurrentConfig, AppendSection, TryEncode, FindShard,
      CurrentShards, FlushSection, OnSpanProcessFail, Throttles;
  }

  lemma QuietExcuses(st: Settings, stale: Staleness, s: State, t: State, q: Quiet)
    requires Excuses(st, s, t) && QuietNext(st, stale, t, q).Some?
    requires q.Moving? && (q.ch.Respond? ==> Successful(q.ch.reply))
    ensures Excuses(st, s, QuietNext(st, stale, t, q).value)
  {
    var pc := t.threads[q.i];
    assert pc in t.threads;
    QuietKeepsList(st, stale, t, q);
    ThreadCaused(st, t.sh, pc, q.ch);
    QuietRefusesNothing(st, t.sh, pc, q.ch);
    hide Act, Refusal, CausedStep, Excuses;
    var (sh', pc') := Act(st, t.sh, pc, q.ch).value;
    ExcusesOn(st, s, t, q.i, sh', pc');
  }

  lemma ExcusesOn(st: Settings, s: State, t: State, i: nat, sh': Shared, pc': Pc)
    requires Excuses(st, s, t) && i < |t.threads| && SameList(t.sh, sh')
    requires CausedStep(st, t.sh, t.threads[i], sh', pc') && !Refusal(pc')
    ensures Excuses(st, s, State(sh', t.threads[i := pc']))
  {
    hide Refusal, FailsHere, DropsHere, Excused, Failing;
    assert t.threads[i] in t.threads;
    var n := |s.sh.out.dropped|;
    forall d | d in sh'.out.dropped[n..] ensures Excused(st, s, d) {
      if d !in t.sh.out.dropped[n..] {
        assert sh'.out.dropped[n..] == t.sh.out.dropped[n..] + [d];
        DropIsExcused(st, s, t, t.threads[i], d);
      }
    }
    if pc'.Calling? && pc'.cb.SpanProcessFail? && pc'.cb.code.ErrEncodingFailed? {
      FailureIsExcused(st, s, t.sh, t.threads[i], pc'.cb.spans);
    }
  }

  lemma {:induction false} QuietRunExcuses(st: Settings, stale: Staleness, s: State, quiet: seq<Quiet>, ok: Reply)
    requires QuietExec(st, stale, s, quiet).Some? && AnsweredBy(ok, quiet) && Successful(ok)
    ensures Excuses(st, s, QuietExec(st, stale, s, quiet).value)
  {
    hide QuietNext, Excuses, Successful;
    if quiet == [] {
      assert Excuses(st, s, s) by { NothingDropped(st, s); }
    } else {
      var init, q := quiet[..|quiet| - 1], quiet[|quiet| - 1];
      assert q in quiet;
      QuietRunExcuses(st, stale, s, init, ok);
      QuietExcuses(st, stale, s, QuietExec(st, stale, s, init).value, q);
    }
  }

  lemma NothingDropped(st: Settings, s: State)
    ensures Excuses(st, s, s)
  {
    hide Unencodable;
    forall pc | pc in s.threads && pc.Calling? && pc.cb.SpanProcessFail? && pc.cb.code.ErrEncodingFailed?
      ensures Failing(st, s, pc.cb.spans)
    {
      assert pc.cb == SpanProcessFail(pc.cb.spans, ErrEncodingFailed);
    }
  }

  /** Every span taken in is delivered, dropped, or was forgotten before; drops since then are excused. */
  ghost predicate DeliveredOrExcused(st: Settings, s: State, t: State) {
    && Excuses(st, s, t) && t.sh.out.forgotten == s.sh.out.forgotten
    && (forall x ::
          Count(t.sh.out.delivered, x) + Sum(t.sh.out.dropped, DropCount(x)) + Count(s.sh.out.forgotten, x)
          == Count(t.sh.admitted, x))
  }

  /**
   * With a server that may report success the pipeline can be emptied by
   * delivering: after at most 2 * Rank steps every span that was not settled before is
   * delivered, unless it cannot be encoded, which is to say that no live encoder owns it, its
   * cut is over the limit, or its batch cannot be marshalled or compressed; found 10000
   * batches waiting for retry; or was of a batch whose failure or refusal was already in a thread's hands.
   */
  lemma PipelineDelivers(st: Settings, config: Config, run: seq<Step>, ok: Reply)
    returns (quiet: seq<Quiet>, run': seq<Step>)
    requires Exec(st, config, run).Some?
    requires var s := Exec(st, config, run).value; Running(st, s) && Stable(st, Outdated(s.sh.configs), s)
    requires st.mayReply(ok) && Successful(ok)
    ensures Continues(st, config, run, run')
    ensures var s, t := Exec(st, config, run).value, Exec(st, config, run').value;
      |quiet| <= 2 * Rank(Outdated(s.sh.configs), s) && !Unfinished(t) && DeliveredOrExcused(st, s, t)
    ensures forall d <- Exec(st, config, run').value.sh.out.dropped :: HasDropped(st, config, run', d)
  {
    hide Running, Stable, Rank, Unfinished, Successful, QuietExec, Excuses, AnsweredBy, Exec, HasDropped;
    assert Settling(ok) by { SuccessSettles(ok); }
    hide Settling;
    quiet, run' := PipelineEmpties(st, config, run, ok);
    var s, t := Exec(st, config, run).value, Exec(st, config, run').value;
    QuietRunExcuses(st, Outdated(s.sh.configs), s, quiet, ok);
    EverythingIsCaused(st, config, run');
    forall x ensures
      Count(t.sh.out.delivered, x) + Sum(t.sh.out.dropped, DropCount(x)) + Count(s.sh.out.forgotten, x)
      == Count(t.sh.admitted, x)
    {
      assert Settled(t.sh.out, x) == Count(t.sh.admitted, x);
    }
  }

  lemma SuccessSettles(reply: Reply)
    requires Successful(reply)
    ensures Settling(reply)
  {
  }
}
