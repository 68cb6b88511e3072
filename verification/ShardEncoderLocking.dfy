/**
 * The shard encoder under concurrency: any number of callers of Encode, of Stop
 * and of Flush, and the periodic flusher, interleaved between any two lock, unlock,
 * stop-flag and callback actions. The stop flag is read under the lock but
 * written without it.
 */
module ShardEncoderLocking {
  import opened Basics
  import opened ShardingConfig
  import opened Spans
  import opened ShardEncoding

  /** What a thread does once its call of Flush returns. */
  datatype After = EncodeReturns | NextTick | FlusherReturns | DrainReturns

  datatype Pc =
    // Encode
    | CallerIdle
    | WantAppend(span: Span, size: nat)
    | HoldAppend(span: Span, size: nat)   // lock held, stop flag not yet read
    | MustAppend(span: Span, size: nat)   // lock held, flag read as clear
    | MustRefuse(span: Span)              // lock held, flag read as set
    // Flush
    | WantFlush(after: After)
    | HoldFlush(after: After)             // lock held, nothing read yet
    | MustTake(after: After, sawStopped: bool, promised: Callback) // lock held, flag read
    | Calling(cb: Callback, after: After, flushed: bool) // lock released, callback due
    // flushPeriodically
    | FlusherLoop
    | FlusherGone
    // Flush, called by flushShardEncoders
    | DrainIdle
    | DrainGone
    // Stop
    | StopIdle
    | StopClose                           // flag set, done channel not yet closed
    | StopGone

  datatype Shared = Shared(
    lock: Option<nat>,
    b: Batcher,
    done: bool,
    offered: seq<Span>,        // every span passed to Encode, as tryEncodeSpan left it
    reported: seq<Callback>,   // callbacks made
    emitted: seq<Callback>,    // those among them made by Flush
    appended: seq<Span>,       // spans added to the batch, in lock order
    flushed: seq<seq<Span>>)   // batches taken, in lock order

  datatype State = State(sh: Shared, threads: seq<Pc>)

  datatype Choice = Offer(span: Span) | Act | Quit

  function Resume(after: After): Pc {
    match after
    case EncodeReturns => CallerIdle
    case NextTick => FlusherLoop
    case FlusherReturns => FlusherGone
    case DrainReturns => DrainGone
  }

  /** One action of thread i; None when it is blocked. */
  function Act1(limits: Limits, sh: Shared, i: nat, pc: Pc, ch: Choice): Option<(Shared, Pc)> {
    match pc
    case CallerIdle =>
      if !ch.Offer? then None
      else (match TryEncode(limits.codec, limits.maxAllowedSizePerSpan, ch.span)
            case Rejected(s) => Some((sh.(offered := sh.offered + [s]), Calling(SpanProcessFail([s],
              ErrEncodingFailed), EncodeReturns, false)))
            case Fits(s, size) => Some((sh.(offered := sh.offered + [s]), WantAppend(s, size))))
    case WantAppend(span, size) =>
      if sh.lock.Some? then None else Some((sh.(lock := Some(i)), HoldAppend(span, size)))
    case HoldAppend(span, size) =>
      Some((sh, if sh.b.stopped then MustRefuse(span) else MustAppend(span, size)))
    case MustAppend(span, size) =>
      var b' := Accumulate(sh.b, span, size);
      Some((sh.(b := b', appended := sh.appended + [span], lock := None),
            if NeedsFlush(limits, b') then WantFlush(EncodeReturns) else CallerIdle))
    case MustRefuse(span) =>
      Some((sh.(lock := None), Calling(SpanProcessFail([span], ErrEncoderStopped), EncodeReturns, false)))
    case WantFlush(after) =>
      if sh.lock.Some? then None else Some((sh.(lock := Some(i)), HoldFlush(after)))
    case HoldFlush(after) =>
      if sh.b.pending == [] then Some((sh.(lock := None), Resume(after)))
      else Some((sh, MustTake(after, sh.b.stopped, BatchOutcome(limits, sh.b, sh.b.stopped))))
    case MustTake(after, sawStopped, _) =>
      if sh.b.pending == [] then None
      else Some((sh.(b := ClearAccumulated(sh.b), flushed := sh.flushed + [sh.b.pending], lock := None),
                 Calling(BatchOutcome(limits, sh.b, sawStopped), after, true)))
    case Calling(cb, after, flushed) =>
      Some((sh.(reported := sh.reported + [cb], emitted := sh.emitted + if flushed then [cb] else []), Resume(after)))
    case FlusherLoop =>
      if ch.Act? then Some((sh, WantFlush(NextTick)))
      else if ch.Quit? && sh.done then Some((sh, WantFlush(FlusherReturns)))
      else None
    case FlusherGone => None
    case DrainIdle => Some((sh, WantFlush(DrainReturns)))
    case DrainGone => None
    case StopIdle =>
      Some((sh.(b := StopSection(sh.b)), if sh.b.stopped then StopGone else StopClose))
    case StopClose => Some((sh.(done := true), StopGone))
    case StopGone => None
  }

  function Step(limits: Limits, s: State, i: nat, ch: Choice): Option<State> {
    if i >= |s.threads| then None
    else match Act1(limits, s.sh, i, s.threads[i], ch)
      case None => None
      case Some((sh', pc')) => Some(State(sh', s.threads[i := pc']))
  }

  predicate AtTheDoor(pc: Pc) {
    pc.CallerIdle? || pc.DrainIdle? || pc.StopIdle?
  }

  /** Thread 0 is the flusher, the rest are idle callers of Encode, of Flush and of Stop. */
  predicate Init(shard: Shard, s: State) {
    && s.sh == Shared(None, NewBatcher(shard), false, [], [], [], [], [])
    && s.threads != [] && s.threads[0] == FlusherLoop
    && forall i | 1 <= i < |s.threads| :: AtTheDoor(s.threads[i])
  }

  /** A run: thread number and choice of every step; None if some step was blocked. */
  function Exec(limits: Limits, s: State, run: seq<(nat, Choice)>): Option<State> {
    if run == [] then Some(s)
    else match Exec(limits, s, run[..|run| - 1])
      case None => None
      case Some(t) => Step(limits, t, run[|run| - 1].0, run[|run| - 1].1)
  }

  // ---------- the atomic view ----------

  /**
   * The batcher as the atomic sections see it: a thread's section takes effect
   * when it reads the stop flag, although it changes the batch a little later.
   */
  function Abstract(s: State): Batcher {
    if s.sh.lock.None? || s.sh.lock.value >= |s.threads| then s.sh.b
    else match s.threads[s.sh.lock.value]
      case MustAppend(span, size) => Accumulate(s.sh.b, span, size)
      case MustTake(_, _, _) => ClearAccumulated(s.sh.b)
      case _ => s.sh.b
  }

  datatype Section = Append(span: Span, size: nat) | Flush | Stop | Internal

  /** Which atomic section, if any, a step from this point performs. */
  function SectionOf(pc: Pc): Section {
    match pc
    case HoldAppend(span, size) => Append(span, size)
    case HoldFlush(_) => Flush
    case StopIdle => Stop
    case _ => Internal
  }

  function Atomic(limits: Limits, b: Batcher, section: Section): Batcher {
    match section
    case Append(span, size) => AppendSection(limits, b, span, size).0
    case Flush => FlushSection(limits, b).0
    case Stop => StopSection(b)
    case Internal => b
  }

  // ---------- invariants ----------

  predicate Holding(pc: Pc) {
    pc.HoldAppend? || pc.MustAppend? || pc.MustRefuse? || pc.HoldFlush? || pc.MustTake?
  }

  /** Inside a call of Flush, or reporting. */
  predicate HasAfter(pc: Pc) {
    pc.WantFlush? || pc.HoldFlush? || pc.MustTake? || pc.Calling?
  }

  /** The flusher has been told to finish. */
  predicate Finishing(pc: Pc) {
    || (HasAfter(pc) && pc.after.FlusherReturns?)
    || pc.FlusherGone?
  }

  /** The flusher has decided its last flush. */
  predicate Finished(pc: Pc) {
    Finishing(pc) && !pc.WantFlush? && !pc.HoldFlush?
  }

  predicate IsFlusher(pc: Pc) {
    || pc.FlusherLoop? || pc.FlusherGone?
    || (HasAfter(pc) && (pc.after.NextTick? || pc.after.FlusherReturns?))
  }

  ghost predicate ThreadInv(limits: Limits, s: State, i: nat)
    requires i < |s.threads|
  {
    var pc := s.threads[i];
    && (Holding(pc) <==> s.sh.lock == Some(i))
    && (IsFlusher(pc) <==> i == 0)
    && (Finishing(pc) || pc.StopClose? ==> s.sh.b.stopped)
    && (Finished(pc) ==> Abstract(s).pending == [])
    && (Finished(pc) && !pc.MustTake? ==> s.sh.b.pending == [])
    && (pc.WantAppend? || pc.HoldAppend? || pc.MustAppend? ==>
          TryEncode(limits.codec, limits.maxAllowedSizePerSpan, pc.span) == Fits(pc.span, pc.size))
    && (pc.MustTake? ==> s.sh.b.pending != [] && pc.promised == BatchOutcome(limits, s.sh.b, pc.sawStopped))
  }

  ghost predicate Inv(limits: Limits, s: State) {
    && |s.threads| > 0
    && (s.sh.lock.Some? ==> s.sh.lock.value < |s.threads|)
    && (s.sh.done ==> s.sh.b.stopped)
    && BatcherInv(limits, s.sh.b)
    && s.sh.appended == Flatten(s.sh.flushed) + s.sh.b.pending
    && forall i | 0 <= i < |s.threads| :: ThreadInv(limits, s, i)
  }

  // ---------- refinement of the atomic sections ----------

  /**
   * Every interleaved action is one atomic section or invisible, and the thread
   * goes on as the section's result says: refused or appended, with the very
   * callback that the atomic Flush would make.
   */
  lemma StepRefinesSection(limits: Limits, s: State, i: nat, ch: Choice)
    requires Inv(limits, s) && Step(limits, s, i, ch).Some?
    ensures var s' := Step(limits, s, i, ch).value;
      var pc, pc' := s.threads[i], s'.threads[i];
      && Abstract(s') == Atomic(limits, Abstract(s), SectionOf(pc))
      && (pc.HoldAppend? ==> (pc'.MustRefuse? <==> AppendSection(limits, Abstract(s), pc.span, pc.size).1.Refused?))
      && (pc.MustAppend? ==> pc' == if NeedsFlush(limits, Abstract(s)) then WantFlush(EncodeReturns) else CallerIdle)
      && (pc.HoldFlush? ==> match FlushSection(limits, Abstract(s)).1
                            case None => pc' == Resume(pc.after)
                            case Some(cb) => pc'.MustTake? && pc'.promised == cb && pc'.after == pc.after)
      && (pc.MustTake? ==> pc' == Calling(pc.promised, pc.after, true))
  {
    hide TryEncode, BatchOutcome, BatcherInv, NeedsFlush, Flatten;
    assert ThreadInv(limits, s, i);
    if s.sh.lock.Some? { assert ThreadInv(limits, s, s.sh.lock.value); }
  }

  /** Once stopped and empty, the batcher stays so under every atomic section. */
  lemma StoppedAndEmptyIsFinal(limits: Limits, b: Batcher, section: Section)
    requires b.stopped && b.pending == []
    ensures Atomic(limits, b, section).stopped && Atomic(limits, b, section).pending == []
  {
  }

  lemma StepKeepsOwnThread(limits: Limits, s: State, i: nat, ch: Choice)
    requires Inv(limits, s) && Step(limits, s, i, ch).Some?
    ensures ThreadInv(limits, Step(limits, s, i, ch).value, i)
  {
    hide TryEncode, BatchOutcome, BatcherInv, NeedsFlush, Flatten;
    var pc := s.threads[i];
    assert ThreadInv(limits, s, i);
    match pc
    case CallerIdle => TryEncodeIsStable(limits.codec, limits.maxAllowedSizePerSpan, ch.span);
    case _ =>
  }

  /** While one thread holds the lock, another can at most set the stop flag. */
  lemma LockProtectsBatch(limits: Limits, s: State, i: nat, ch: Choice)
    requires Inv(limits, s) && Step(limits, s, i, ch).Some?
    requires s.sh.lock.Some? && s.sh.lock.value != i
    ensures var sh' := Step(limits, s, i, ch).value.sh;
      sh'.lock == s.sh.lock && (sh'.b == s.sh.b || sh'.b == StopSection(s.sh.b))
  {
    assert ThreadInv(limits, s, i);
  }

  lemma StepKeepsStopped(limits: Limits, s: State, i: nat, ch: Choice)
    requires Step(limits, s, i, ch).Some? && s.sh.b.stopped
    ensures Step(limits, s, i, ch).value.sh.b.stopped
  {
  }

  lemma StepKeepsOtherThread(limits: Limits, s: State, i: nat, ch: Choice, j: nat)
    requires Inv(limits, s) && Step(limits, s, i, ch).Some? && j < |s.threads| && j != i
    ensures ThreadInv(limits, Step(limits, s, i, ch).value, j)
  {
    hide TryEncode, BatchOutcome, BatcherInv, NeedsFlush, Flatten, Accumulate, Atomic;
    var s' := Step(limits, s, i, ch).value;
    var pc := s.threads[j];
    assert ThreadInv(limits, s, j) && s'.threads[j] == pc;
    assert Holding(pc) <==> s'.sh.lock == Some(j) by {
      if Holding(pc) { LockProtectsBatch(limits, s, i, ch); }
      assert ThreadInv(limits, s, i);
    }
    if s.sh.b.stopped { StepKeepsStopped(limits, s, i, ch); }
    if Finished(pc) {
      StepRefinesSection(limits, s, i, ch);
      AbstractStopped(s);
      StoppedAndEmptyIsFinal(limits, Abstract(s), SectionOf(s.threads[i]));
    }
    if pc.MustTake? {
      LockProtectsBatch(limits, s, i, ch);
      OutcomeIgnoresStop(limits, s.sh.b, pc.sawStopped);
    }
  }

  /** A flush goes by the flag it has read, whatever happens to the flag afterwards. */
  lemma OutcomeIgnoresStop(limits: Limits, b: Batcher, sawStopped: bool)
    ensures b.pending != [] ==> BatchOutcome(limits, StopSection(b), sawStopped) == BatchOutcome(limits, b, sawStopped)
  {
  }

  lemma AbstractStopped(s: State)
    ensures Abstract(s).stopped == s.sh.b.stopped
  {
  }

  lemma StepKeepsInv(limits: Limits, s: State, i: nat, ch: Choice)
    requires Inv(limits, s) && Step(limits, s, i, ch).Some?
    ensures Inv(limits, Step(limits, s, i, ch).value)
  {
    hide TryEncode, BatchOutcome, NeedsFlush, Flatten;
    var s' := Step(limits, s, i, ch).value;
    forall j | 0 <= j < |s'.threads| ensures ThreadInv(limits, s', j) {
      if j == i { StepKeepsOwnThread(limits, s, i, ch); } else { StepKeepsOtherThread(limits, s, i, ch, j); }
    }
    assert ThreadInv(limits, s, i);
    match s.threads[i]
    case MustAppend(span, size) => AccumulateKeepsInv(limits, s.sh.b, span, size);
    case MustTake(_, _, _) => FlattenSnoc(s.sh.flushed, s.sh.b.pending);
    case _ =>
  }

  lemma StartsWell(limits: Limits, shard: Shard, s0: State)
    requires Init(shard, s0)
    ensures Inv(limits, s0)
  {
    assert BatcherInv(limits, s0.sh.b);
    hide BatcherInv, TryEncode, BatchOutcome;
    forall i | 0 <= i < |s0.threads| ensures ThreadInv(limits, s0, i) {
      assert AtTheDoor(s0.threads[i]) || s0.threads[i].FlusherLoop?;
    }
  }

  lemma {:induction false} RunKeepsInv(limits: Limits, shard: Shard, s0: State, run: seq<(nat, Choice)>)
    requires Init(shard, s0) && Exec(limits, s0, run).Some?
    ensures Inv(limits, Exec(limits, s0, run).value)
  {
    hide Inv, Step, Init;
    if run == [] {
      StartsWell(limits, shard, s0);
    } else {
      RunKeepsInv(limits, shard, s0, run[..|run| - 1]);
      var last := run[|run| - 1];
      StepKeepsInv(limits, Exec(limits, s0, run[..|run| - 1]).value, last.0, last.1);
    }
  }

  // ---------- no stranding ----------

  /** Spans that a thread still has in hand. */
  function InHand(pc: Pc): seq<Span> {
    match pc
    case WantAppend(span, _) => [span]
    case HoldAppend(span, _) => [span]
    case MustAppend(span, _) => [span]
    case MustRefuse(span) => [span]
    case Calling(cb, _, _) => cb.spans
    case _ => []
  }

  function CountInHand(x: nat): Pc -> int {
    (pc: Pc) => Count(InHand(pc), x)
  }

  /** Each offered span is pending, in one thread's hands, or reported; and in one of them only. */
  ghost predicate Accounted(s: State, x: nat) {
    Count(s.sh.offered, x) == Count(s.sh.b.pending, x) + Count(Reported(s.sh.reported), x) + Sum(s.threads,
      CountInHand(x))
  }

  lemma {:induction false} ReportedSnoc(cbs: seq<Callback>, cb: Callback)
    ensures Reported(cbs + [cb]) == Reported(cbs) + cb.spans
  {
    if cbs == [] {
      assert cbs + [cb] == [cb];
    } else {
      assert (cbs + [cb])[1..] == cbs[1..] + [cb];
      ReportedSnoc(cbs[1..], cb);
    }
  }

  /** What an action adds to the offered spans equals what it adds to the other places together. */
  ghost predicate Balanced(sh: Shared, pc: Pc, sh': Shared, pc': Pc, x: nat) {
    Count(sh'.offered, x) + Count(sh.b.pending, x) + Count(Reported(sh.reported), x) + Count(InHand(pc), x)
    == Count(sh.offered, x) + Count(sh'.b.pending, x) + Count(Reported(sh'.reported), x) + Count(InHand(pc'), x)
  }

  lemma CallbackBalanced(limits: Limits, sh: Shared, i: nat, pc: Pc, ch: Choice, x: nat)
    requires pc.Calling?
    ensures var (sh', pc') := Act1(limits, sh, i, pc, ch).value; Balanced(sh, pc, sh', pc', x)
  {
    ReportedSnoc(sh.reported, pc.cb);
    CountAppend(Reported(sh.reported), pc.cb.spans, x);
  }

  lemma ActBalanced(limits: Limits, sh: Shared, i: nat, pc: Pc, ch: Choice, x: nat)
    requires Act1(limits, sh, i, pc, ch).Some?
    ensures var (sh', pc') := Act1(limits, sh, i, pc, ch).value; Balanced(sh, pc, sh', pc', x)
  {
    hide TryEncode, BatchOutcome, NeedsFlush;
    if pc.Calling? {
      CallbackBalanced(limits, sh, i, pc, ch, x);
    } else if pc.CallerIdle? {
      OfferBalanced(limits, sh, i, pc, ch, x);
    } else if pc.MustAppend? {
      CountAppend(sh.b.pending, [pc.span], x);
      hide Count;
    } else {
      hide Count;
    }
  }

  lemma OfferBalanced(limits: Limits, sh: Shared, i: nat, pc: Pc, ch: Choice, x: nat)
    requires pc.CallerIdle? && Act1(limits, sh, i, pc, ch).Some?
    ensures var (sh', pc') := Act1(limits, sh, i, pc, ch).value; Balanced(sh, pc, sh', pc', x)
  {
    CountAppend(sh.offered, InHand(Act1(limits, sh, i, pc, ch).value.1), x);
    assert Count(InHand(pc), x) == 0;
    hide Count, TryEncode;
  }

  lemma StepKeepsAccounted(limits: Limits, s: State, i: nat, ch: Choice, x: nat)
    requires Step(limits, s, i, ch).Some? && Accounted(s, x)
    ensures Accounted(Step(limits, s, i, ch).value, x)
  {
    var (sh', pc') := Act1(limits, s.sh, i, s.threads[i], ch).value;
    SumUpdate(s.threads, i, pc', CountInHand(x));
    ActBalanced(limits, s.sh, i, s.threads[i], ch, x);
  }

  lemma {:induction false} RunKeepsAccounted(limits: Limits, shard: Shard, s0: State, run: seq<(nat, Choice)>, x: nat)
    requires Init(shard, s0) && Exec(limits, s0, run).Some?
    ensures Accounted(Exec(limits, s0, run).value, x)
  {
    if run == [] {
      SumZero(s0.threads, CountInHand(x));
    } else {
      var prefix, last := run[..|run| - 1], run[|run| - 1];
      RunKeepsAccounted(limits, shard, s0, prefix, x);
      StepKeepsAccounted(limits, Exec(limits, s0, prefix).value, last.0, last.1, x);
    }
  }

  lemma {:induction false} FlusherStaysGone(limits: Limits, s0: State, run: seq<(nat, Choice)>, more: seq<(nat,
          Choice)>)
    requires Exec(limits, s0, run).Some? && Exec(limits, s0, run + more).Some?
    requires |Exec(limits, s0, run).value.threads| > 0 && Exec(limits, s0, run).value.threads[0].FlusherGone?
    ensures |Exec(limits, s0, run + more).value.threads| > 0
      && Exec(limits, s0, run + more).value.threads[0].FlusherGone?
  {
    if more == [] {
      assert run + more == run;
    } else {
      assert (run + more)[..|run + more| - 1] == run + more[..|more| - 1];
      FlusherStaysGone(limits, s0, run, more[..|more| - 1]);
    }
  }

  lemma GoneMeansEmpty(limits: Limits, s: State)
    requires Inv(limits, s) && s.threads[0].FlusherGone?
    ensures s.sh.b.pending == [] && s.sh.b.stopped
  {
    assert ThreadInv(limits, s, 0);
    if s.sh.lock.Some? { assert ThreadInv(limits, s, s.sh.lock.value); }
  }

  /**
   * No stranding: whatever the interleaving of Encode, ticks and Stop, once the
   * flusher has returned nothing is pending, now and after any further steps,
   * and each offered span has been reported once or is in the hands of a
   * caller that will report it.
   */
  lemma NothingStrandedAfterFlusherReturns(limits: Limits, shard: Shard, s0: State,
                                           run: seq<(nat, Choice)>, more: seq<(nat, Choice)>, x: nat)
    requires Init(shard, s0) && Exec(limits, s0, run).Some? && Exec(limits, s0, run + more).Some?
    requires Exec(limits, s0, run).value.threads != [] && Exec(limits, s0, run).value.threads[0].FlusherGone?
    ensures var s := Exec(limits, s0, run + more).value;
      && s.sh.b.pending == [] && s.sh.b.stopped
      && Count(s.sh.offered, x) == Count(Reported(s.sh.reported), x) + Sum(s.threads, CountInHand(x))
  {
    RunKeepsInv(limits, shard, s0, run + more);
    RunKeepsAccounted(limits, shard, s0, run + more, x);
    FlusherStaysGone(limits, s0, run, more);
    GoneMeansEmpty(limits, Exec(limits, s0, run + more).value);
  }

  // ---------- histories ----------

  /**
   * Spans leave in the order they entered: the spans appended, in lock order,
   * are the batches flushed, in lock order, followed by the pending list.
   */
  lemma BatchesPartitionHistory(limits: Limits, shard: Shard, s0: State, run: seq<(nat, Choice)>)
    requires Init(shard, s0) && Exec(limits, s0, run).Some?
    ensures var s := Exec(limits, s0, run).value;
      && s.sh.appended == Flatten(s.sh.flushed) + s.sh.b.pending
      && s.sh.b.accumulatedSize == TotalSize(limits.codec, s.sh.b.pending) % UINT_MODULUS
  {
    RunKeepsInv(limits, shard, s0, run);
  }

  /** The batch, as a flush reports it. */
  predicate IsBatch(pc: Pc, batch: seq<Span>) {
    pc.Calling? && pc.flushed && pc.cb.spans == batch
  }

  function FlushedAs(batch: seq<Span>): seq<Span> -> int {
    (b: seq<Span>) => if b == batch then 1 else 0
  }

  function EmittedAs(batch: seq<Span>): Callback -> int {
    (cb: Callback) => if cb.spans == batch then 1 else 0
  }

  function DueAs(batch: seq<Span>): Pc -> int {
    (pc: Pc) => if IsBatch(pc, batch) then 1 else 0
  }

  /**
   * The callback a flush may make: a record describes its spans and names this
   * encoder's shard; spans come back as those of a stopped encoder only if it has been
   * stopped, and as impossible to encode only if the batch could not be marshalled or compressed.
   */
  ghost predicate OutcomeOk(limits: Limits, shard: Shard, stopped: bool, cb: Callback) {
    && (cb.RecordReady? ==> cb.shard == shard && RecordMatchesSpans(limits, cb.record, cb.spans))
    && (cb.SpanProcessFail? && cb.code.ErrEncoderStopped? ==> stopped)
    && (cb.SpanProcessFail? && cb.code.ErrEncodingFailed? ==> !Encodes(limits, cb.spans))
  }

  /** As many flushes of a batch as callbacks for it, made or due; and each callback is a flush's outcome. */
  ghost predicate Matched(limits: Limits, shard: Shard, s: State, batch: seq<Span>) {
    && s.sh.b.shard == shard
    && Sum(s.sh.flushed, FlushedAs(batch)) == Sum(s.sh.emitted, EmittedAs(batch)) + Sum(s.threads, DueAs(batch))
    && (forall cb <- s.sh.emitted :: OutcomeOk(limits, shard, s.sh.b.stopped, cb))
    && (forall cb <- s.sh.reported :: cb in s.sh.emitted || RefusalOk(limits, s.sh.b.stopped, cb))
    && (forall pc <- s.threads :: PcMatched(limits, shard, s.sh.b.stopped, pc))
  }

  /** The callback that Encode itself may make: for one span, over the limit after all, or come to a stopped encoder. */
  ghost predicate RefusalOk(limits: Limits, stopped: bool, cb: Callback) {
    && cb.SpanProcessFail? && |cb.spans| == 1
    && (cb.code.ErrEncodingFailed? <==> !WithinLimit(limits.codec, limits.maxAllowedSizePerSpan, cb.spans[0]))
    && (cb.code.ErrEncoderStopped? ==> stopped)
  }

  ghost predicate PcMatched(limits: Limits, shard: Shard, stopped: bool, pc: Pc) {
    && (pc.Calling? ==>
          if pc.flushed then OutcomeOk(limits, shard, stopped, pc.cb) else RefusalOk(limits, stopped, pc.cb))
    && (pc.MustTake? && pc.sawStopped ==> stopped)
    && (pc.MustRefuse? ==> stopped)
    && (pc.WantAppend? || pc.HoldAppend? || pc.MustRefuse? ==>
          WithinLimit(limits.codec, limits.maxAllowedSizePerSpan, pc.span))
  }

  ghost predicate MatchedStep(limits: Limits, shard: Shard, sh: Shared, pc: Pc, sh': Shared, pc': Pc,
          batch: seq<Span>) {
    && sh'.b.shard == sh.b.shard && (sh.b.stopped ==> sh'.b.stopped)
    && Sum(sh'.flushed, FlushedAs(batch)) + Sum(sh.emitted, EmittedAs(batch)) + DueAs(batch)(pc)
       == Sum(sh.flushed, FlushedAs(batch)) + Sum(sh'.emitted, EmittedAs(batch)) + DueAs(batch)(pc')
    && (forall cb <- sh'.emitted :: cb in sh.emitted || (pc.Calling? && pc.flushed && cb == pc.cb))
    && (forall cb <- sh'.reported :: cb in sh.reported || (pc.Calling? && cb == pc.cb))
    && sh.emitted <= sh'.emitted && (pc.Calling? && pc.flushed ==> pc.cb in sh'.emitted)
    && PcMatched(limits, shard, sh'.b.stopped, pc')
  }

  lemma OutcomeMatches(limits: Limits, b: Batcher, sawStopped: bool)
    requires b.pending != [] && (sawStopped ==> b.stopped)
    ensures OutcomeOk(limits, b.shard, b.stopped, BatchOutcome(limits, b, sawStopped))
  {
    OutcomeReports(limits, b, sawStopped);
  }

  lemma OfferMatched(limits: Limits, sh: Shared, i: nat, ch: Choice)
    requires ch.Offer?
    ensures PcMatched(limits, sh.b.shard, sh.b.stopped, Act1(limits, sh, i, CallerIdle, ch).value.1)
  {
  }

  lemma CallMatched(limits: Limits, sh: Shared, i: nat, pc: Pc, ch: Choice, batch: seq<Span>)
    requires pc.Calling? && PcMatched(limits, sh.b.shard, sh.b.stopped, pc)
    ensures var (sh', pc') := Act1(limits, sh, i, pc, ch).value; MatchedStep(limits, sh.b.shard, sh, pc, sh', pc',
      batch)
  {
    hide OutcomeOk, RefusalOk, Sum;
    if pc.flushed { SumSnoc(sh.emitted, pc.cb, EmittedAs(batch)); } else { assert sh.emitted + [] == sh.emitted; }
  }

  lemma TakeMatched(limits: Limits, sh: Shared, i: nat, pc: Pc, ch: Choice, batch: seq<Span>)
    requires pc.MustTake? && Act1(limits, sh, i, pc, ch).Some? && PcMatched(limits, sh.b.shard, sh.b.stopped, pc)
    ensures var (sh', pc') := Act1(limits, sh, i, pc, ch).value; MatchedStep(limits, sh.b.shard, sh, pc, sh', pc',
      batch)
  {
    OutcomeMatches(limits, sh.b, pc.sawStopped);
    SumSnoc(sh.flushed, sh.b.pending, FlushedAs(batch));
    hide BatchOutcome, OutcomeOk, RefusalOk, Sum;
  }

  lemma ActMatched(limits: Limits, sh: Shared, i: nat, pc: Pc, ch: Choice, batch: seq<Span>)
    requires Act1(limits, sh, i, pc, ch).Some? && PcMatched(limits, sh.b.shard, sh.b.stopped, pc)
    ensures var (sh', pc') := Act1(limits, sh, i, pc, ch).value; MatchedStep(limits, sh.b.shard, sh, pc, sh', pc',
      batch)
  {
    if pc.Calling? {
      CallMatched(limits, sh, i, pc, ch, batch);
      hide Act1, MatchedStep;
    } else if pc.MustTake? {
      TakeMatched(limits, sh, i, pc, ch, batch);
      hide Act1, MatchedStep;
    } else {
      if pc.CallerIdle? && ch.Offer? { OfferMatched(limits, sh, i, ch); }
      hide TryEncode, BatchOutcome, NeedsFlush, OutcomeOk, Sum;
    }
  }

  lemma OutcomeStaysOk(limits: Limits, shard: Shard, stopped: bool, stopped': bool, cb: Callback)
    requires OutcomeOk(limits, shard, stopped, cb) && (stopped ==> stopped')
    ensures OutcomeOk(limits, shard, stopped', cb)
  {
  }

  lemma PcStaysMatched(limits: Limits, shard: Shard, stopped: bool, stopped': bool, pc: Pc)
    requires PcMatched(limits, shard, stopped, pc) && (stopped ==> stopped')
    ensures PcMatched(limits, shard, stopped', pc)
  {
  }

  lemma StepKeepsMatched(limits: Limits, shard: Shard, s: State, i: nat, ch: Choice, batch: seq<Span>)
    requires Step(limits, s, i, ch).Some? && Matched(limits, shard, s, batch)
    ensures Matched(limits, shard, Step(limits, s, i, ch).value, batch)
  {
    hide Act1, OutcomeOk, Sum, IsBatch;
    var (sh', pc') := Act1(limits, s.sh, i, s.threads[i], ch).value;
    assert s.threads[i] in s.threads;
    SumUpdate(s.threads, i, pc', DueAs(batch));
    ActMatched(limits, s.sh, i, s.threads[i], ch, batch);
    forall cb | cb in sh'.emitted ensures OutcomeOk(limits, shard, sh'.b.stopped, cb) {
      OutcomeStaysOk(limits, shard, s.sh.b.stopped, sh'.b.stopped, cb);
    }
    forall pc | pc in s.threads ensures PcMatched(limits, shard, sh'.b.stopped, pc) {
      PcStaysMatched(limits, shard, s.sh.b.stopped, sh'.b.stopped, pc);
    }
  }

  /**
   * Each batch flushed is the spans of one callback of a flush, made or due in
   * some thread's hands, as often as it was flushed. Each record so reported agrees with its batch and
   * names this encoder's shard; spans come back as those of a stopped encoder
   * only after a stop, and as impossible to encode only if they are. The same holds of the
   * callbacks that Encode makes for a single span.
   */
  lemma {:induction false} EveryFlushIsReportedOnce(limits: Limits, shard: Shard, s0: State, run: seq<(nat, Choice)>,
          batch: seq<Span>)
    requires Init(shard, s0) && Exec(limits, s0, run).Some?
    ensures Matched(limits, shard, Exec(limits, s0, run).value, batch)
  {
    if run == [] {
      SumZero(s0.threads, DueAs(batch));
    } else {
      var prefix, last := run[..|run| - 1], run[|run| - 1];
      EveryFlushIsReportedOnce(limits, shard, s0, prefix, batch);
      StepKeepsMatched(limits, shard, Exec(limits, s0, prefix).value, last.0, last.1, batch);
    }
  }

  /**
   * A flush reads the stop flag once it has the lock, and the callback it then makes is
   * the one for that flag, even if the encoder is stopped in between.
   */
  lemma FlushGoesByFlagRead(limits: Limits, shard: Shard, s0: State, run: seq<(nat, Choice)>, i: nat, ch: Choice)
    requires Init(shard, s0) && Exec(limits, s0, run).Some? && Step(limits, Exec(limits, s0, run).value, i, ch).Some?
    ensures var s := Exec(limits, s0, run).value;
      var s' := Step(limits, s, i, ch).value;
      var pc, pc' := s.threads[i], s'.threads[i];
      && (pc.HoldFlush? && s.sh.b.pending != [] ==> pc'.MustTake? && pc'.sawStopped == s.sh.b.stopped)
      && (pc.MustTake? ==>
            && pc'.Calling? && pc'.flushed && s'.sh.flushed == s.sh.flushed + [s.sh.b.pending]
            && ReportsBatch(limits, shard, s.sh.b.pending, pc.sawStopped, pc'.cb))
  {
    RunKeepsInv(limits, shard, s0, run);
    EveryFlushIsReportedOnce(limits, shard, s0, run, []);
    hide TryEncode, BatchOutcome, BatcherInv, NeedsFlush, Flatten, ReportsBatch, Sum;
    var s := Exec(limits, s0, run).value;
    assert ThreadInv(limits, s, i);
    if s.threads[i].MustTake? { OutcomeReports(limits, s.sh.b, s.threads[i].sawStopped); }
  }

  /** While the sum does not wrap, the counter is the sum of the sizes. */
  lemma ThresholdBySizes(limits: Limits, b: Batcher, span: Span, size: nat)
    requires BatcherInv(limits, b) && TryEncode(limits.codec, limits.maxAllowedSizePerSpan, span) == Fits(span, size)
    requires TotalSize(limits.codec, b.pending + [span]) < UINT_MODULUS
    ensures Accumulate(b, span, size).pending == b.pending + [span]
    ensures NeedsFlush(limits, Accumulate(b, span, size))
      <==> TotalSize(limits.codec, b.pending + [span]) >= limits.maxRecordSize
  {
    AccumulateKeepsInv(limits, b, span, size);
    SumNonNegative(b.pending, SpanSize(limits.codec));
    hide TryEncode, SpanSize, Sum;
  }

  /** With the lock held, a span is appended and the whole batch flushed exactly if its sizes reach the record size. */
  lemma AppendFlushesExactly(limits: Limits, shard: Shard, s0: State, run: seq<(nat, Choice)>, i: nat, ch: Choice)
    requires Init(shard, s0) && Exec(limits, s0, run).Some? && Step(limits, Exec(limits, s0, run).value, i, ch).Some?
    requires Exec(limits, s0, run).value.threads[i].MustAppend?
    requires var s := Exec(limits, s0, run).value;
      TotalSize(limits.codec, s.sh.b.pending + [s.threads[i].span]) < UINT_MODULUS
    ensures var s := Exec(limits, s0, run).value;
      var s' := Step(limits, s, i, ch).value;
      && s'.sh.b.pending == s.sh.b.pending + [s.threads[i].span]
      && (s'.threads[i].WantFlush? <==> TotalSize(limits.codec, s'.sh.b.pending) >= limits.maxRecordSize)
  {
    hide Exec, Init, TryEncode, BatchOutcome, BatcherInv, NeedsFlush, TotalSize, Accumulate, Flatten;
    RunKeepsInv(limits, shard, s0, run);
    var s := Exec(limits, s0, run).value;
    assert ThreadInv(limits, s, i);
    ThresholdBySizes(limits, s.sh.b, s.threads[i].span, s.threads[i].size);
  }

  // ---------- size of batches ----------

  /** Threads that found the batch full and have not emptied it yet. */
  function AboutToFlush(): Pc -> int {
    (pc: Pc) => if (pc.WantFlush? || pc.HoldFlush? || pc.MustTake?) && pc.after.EncodeReturns? then 1 else 0
  }

  function IsCaller(): Pc -> int {
    (pc: Pc) => if
      || pc.CallerIdle? || pc.WantAppend? || pc.HoldAppend? || pc.MustAppend? || pc.MustRefuse?
      || (HasAfter(pc) && pc.after.EncodeReturns?)
    then 1 else 0
  }

  /** The bound with k threads about to flush, out of a given number of callers. */
  ghost predicate BoundedBy(limits: Limits, workers: int, sh: Shared, k: int) {
    && TotalSize(limits.codec, sh.b.pending) < limits.maxRecordSize + k * limits.maxAllowedSizePerSpan
    && sh.b.accumulatedSize == TotalSize(limits.codec, sh.b.pending)
    && forall batch <- sh.flushed :: TotalSize(limits.codec,
      batch) < limits.maxRecordSize + workers * limits.maxAllowedSizePerSpan
  }

  ghost predicate Bounded(limits: Limits, workers: int, s: State) {
    && Sum(s.threads, IsCaller()) == workers
    && BoundedBy(limits, workers, s.sh, Sum(s.threads, AboutToFlush()))
  }

  lemma FlushersAreCallers(s: State, workers: int)
    requires Sum(s.threads, IsCaller()) == workers
    ensures 0 <= Sum(s.threads, AboutToFlush()) <= workers
  {
    SumNonNegative(s.threads, AboutToFlush());
    SumLessEqual(s.threads, AboutToFlush(), IsCaller());
  }

  /** The thread that appends is a caller not counted among those about to flush, so one more span cannot wrap. */
  lemma RoomForOneMore(limits: Limits, workers: int, s: State, i: nat)
    requires i < |s.threads| && s.threads[i].MustAppend? && Sum(s.threads, IsCaller()) == workers
    ensures Sum(s.threads, AboutToFlush()) + 1 <= workers
    ensures var max := limits.maxAllowedSizePerSpan;
      (Sum(s.threads, AboutToFlush()) + 1) * max <= workers * max
  {
    SumUpdate(s.threads, i, WantFlush(EncodeReturns), AboutToFlush());
    SumUpdate(s.threads, i, WantFlush(EncodeReturns), IsCaller());
    FlushersAreCallers(s.(threads := s.threads[i := WantFlush(EncodeReturns)]), workers);
    SumNonNegative(s.threads, AboutToFlush());
    MulMonotone(Sum(s.threads, AboutToFlush()) + 1, workers, limits.maxAllowedSizePerSpan);
  }

  lemma AppendKeepsBounded(limits: Limits, workers: int, sh: Shared, span: Span, size: nat, k: int)
    requires BatcherInv(limits, sh.b) && BoundedBy(limits, workers, sh, k) && 0 <= k < workers
    requires limits.maxRecordSize + workers * limits.maxAllowedSizePerSpan <= UINT_MODULUS
    requires TryEncode(limits.codec, limits.maxAllowedSizePerSpan, span) == Fits(span, size)
    ensures var b' := Accumulate(sh.b, span, size);
      BoundedBy(limits, workers, sh.(b := b'), if NeedsFlush(limits, b') then k + 1 else k)
  {
    var max := limits.maxAllowedSizePerSpan;
    AccumulateKeepsInv(limits, sh.b, span, size);
    assert (k + 1) * max == k * max + max;
    MulMonotone(k + 1, workers, max);
    MulMonotone(0, k, max);
    SumNonNegative(sh.b.pending, SpanSize(limits.codec));
  }

  /** Taking the batch, or finding it already taken, needs no room at all. */
  lemma TakeKeepsBounded(limits: Limits, workers: int, s: State, i: nat, ch: Choice, k: int)
    requires Inv(limits, s) && Step(limits, s, i, ch).Some? && BoundedBy(limits, workers, s.sh, k)
    requires 0 < limits.maxRecordSize && k <= workers && k >= AboutToFlush()(s.threads[i])
    requires s.threads[i].HoldFlush? || s.threads[i].MustTake?
    ensures var s' := Step(limits, s, i, ch).value;
      BoundedBy(limits, workers, s'.sh, k - AboutToFlush()(s.threads[i]) + AboutToFlush()(s'.threads[i]))
  {
    MulMonotone(k, workers, limits.maxAllowedSizePerSpan);
    MulMonotone(0, k - AboutToFlush()(s.threads[i]), limits.maxAllowedSizePerSpan);
    assert ThreadInv(limits, s, i);
  }

  lemma ActKeepsBounded(limits: Limits, workers: int, s: State, i: nat, ch: Choice, k: int)
    requires Inv(limits, s) && Step(limits, s, i, ch).Some? && BoundedBy(limits, workers, s.sh, k)
    requires 0 < limits.maxRecordSize && limits.maxRecordSize + workers * limits.maxAllowedSizePerSpan <= UINT_MODULUS
    requires k <= workers && k >= AboutToFlush()(s.threads[i]) >= 0
    requires s.threads[i].MustAppend? ==> k + 1 <= workers
    ensures var s' := Step(limits, s, i, ch).value;
      BoundedBy(limits, workers, s'.sh, k - AboutToFlush()(s.threads[i]) + AboutToFlush()(s'.threads[i]))
  {
    hide TryEncode, BatchOutcome, BatcherInv, Flatten;
    var pc := s.threads[i];
    if pc.MustAppend? {
      assert ThreadInv(limits, s, i);
      AppendKeepsBounded(limits, workers, s.sh, pc.span, pc.size, k);
    } else if pc.HoldFlush? || pc.MustTake? {
      TakeKeepsBounded(limits, workers, s, i, ch, k);
    }
  }

  lemma StepKeepsBounded(limits: Limits, workers: int, s: State, i: nat, ch: Choice)
    requires Inv(limits, s) && Bounded(limits, workers, s) && Step(limits, s, i, ch).Some?
    requires 0 < limits.maxRecordSize && limits.maxRecordSize + workers * limits.maxAllowedSizePerSpan <= UINT_MODULUS
    ensures Bounded(limits, workers, Step(limits, s, i, ch).value)
  {
    var pc' := Step(limits, s, i, ch).value.threads[i];
    SumUpdate(s.threads, i, pc', IsCaller());
    SumUpdate(s.threads, i, pc', AboutToFlush());
    FlushersAreCallers(s, workers);
    SumAtLeast(s.threads, i, AboutToFlush());
    if s.threads[i].MustAppend? { RoomForOneMore(limits, workers, s, i); }
    ActKeepsBounded(limits, workers, s, i, ch, Sum(s.threads, AboutToFlush()));
    CallersStayCallers(limits, s, i, ch);
  }

  lemma CallersStayCallers(limits: Limits, s: State, i: nat, ch: Choice)
    requires Step(limits, s, i, ch).Some?
    ensures IsCaller()(Step(limits, s, i, ch).value.threads[i]) == IsCaller()(s.threads[i])
  {
  }

  /**
   * With W callers the pending size stays below the record limit plus one
   * span per thread that has yet to take its flush lock, so every batch is
   * below maxRecordSize + W * maxAllowedSizePerSpan and the unsigned sum never
   * wraps when that bound is representable.
   */
  lemma {:induction false} BatchSizesAreBounded(limits: Limits, shard: Shard, s0: State, run: seq<(nat, Choice)>)
    requires Init(shard, s0) && Exec(limits, s0, run).Some?
    requires 0 < limits.maxRecordSize
    requires limits.maxRecordSize + Sum(s0.threads, IsCaller()) * limits.maxAllowedSizePerSpan <= UINT_MODULUS
    ensures Bounded(limits, Sum(s0.threads, IsCaller()), Exec(limits, s0, run).value)
  {
    var workers := Sum(s0.threads, IsCaller());
    if run == [] {
      SumZero(s0.threads, AboutToFlush());
    } else {
      var prefix, last := run[..|run| - 1], run[|run| - 1];
      BatchSizesAreBounded(limits, shard, s0, prefix);
      RunKeepsInv(limits, shard, s0, prefix);
      StepKeepsBounded(limits, workers, Exec(limits, s0, prefix).value, last.0, last.1);
    }
  }
}
