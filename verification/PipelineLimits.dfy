/**
 * How far the promises of the pipeline reach. Each fails for some server or in
 * some run, which is constructed here, and holds exactly under a condition on the server.
 */
module PipelineLimits {
  import opened Basics
  import opened HashKeys
  import opened ShardingConfig
  import opened Spans
  import opened ShardEncoding
  import opened Server
  import opened Exporting
  import opened ConfigMailbox
  import opened Pipeline
  import opened PipelineRouting
  import opened PipelineAccounting
  import opened PipelineHistory
  import opened PipelineProgress
  import opened PipelineConfiguration
  import opened PipelineDelivery
  import opened PipelineRecovery

  // ---------- at most once ----------

  lemma TwoRecordings(a: Admission, b: Admission, span: Span)
    requires a.request.originalSpans == [span] && b.request.originalSpans == [span]
    ensures Sum([a, b], RecordCount(span.id)) == 2 && Count([span], span.id) == 1
  {
    assert Count([span], span.id) == 1 + Count([], span.id);
    SumSnoc([], a, RecordCount(span.id));
    SumSnoc([a], b, RecordCount(span.id));
    assert [] + [a] == [a] && [a] + [b] == [a, b];
  }

  lemma RetryableIsResent(o: Outbox, spans: seq<Span>, reply: Reply)
    requires Retryable(reply)
    ensures OnReply(o, spans, reply) == ResendSpans(o, spans)
  {
  }

  /** One lap that ends in the retry queue: recorded, and then asked for again. */
  lemma Lap(st: Settings, config: Config, s: State, crew: Crew, c: nat, span: Span, reply: Reply)
    returns (s': State, a: Admission)
    requires Reached(st, Init(config), s) && Idle(st, s, crew, span) && Deliverable(st, span)
    requires st.mayReply(reply) && Retryable(reply) && s.sh.out.retry == []
    requires c < |s.threads| && s.threads[c].Entering? && s.threads[c].batch == [span]
    ensures Reached(st, Init(config), s') && Idle(st, s', crew, span) && a.request.originalSpans == [span]
    ensures s' == State(
      s.sh.(admitted := (if s.threads[c].retried then s.sh.admitted else s.sh.admitted + [span]),
            records := s.sh.records + [a], out := s.sh.out.(retry := [[span]]), mail := MailAfter(s.sh.mail, reply)),
      s.threads[c := CallerReturns(s.threads[c].retried)])
  {
    hide Reached, FindShard, CurrentShards, ShardIsPartOfConfig, Retryable, Encodable, MailAfter, OnReply;
    var s1 := Launch(st, Init(config), s, crew, c, span);
    a := Admission(s1.threads[crew.sender].req, CurrentConfig(s1.sh));
    s' := RecordAndReply(st, Init(config), s1, crew.sender, reply);
    RetryableIsResent(s1.sh.out, [span], reply);
    assert s'.threads == s.threads[c := CallerReturns(s.threads[c].retried)];
    IdleAgain(st, s, s', crew, c, span);
  }

  /**
   * A server that may ask for a retry of a request it has recorded ends up
   * with a span, taken in once, recorded twice.
   */
  lemma RetryAfterRecordingDuplicates(st: Settings, config: Config, span: Span, reply: Reply) returns (run: seq<Step>)
    requires CanDeliver(st, config, span) && st.mayReply(reply) && Retryable(reply)
    ensures Exec(st, config, run).Some?
    ensures var s := Exec(st, config, run).value;
      Count(s.sh.admitted, span.id) == 1 && TimesRecorded(s, span.id) == 2
  {
    hide Reached, Idle, Next, Exec, Retryable, NewConfig, FindShard, Encodable, MailAfter;
    var s0, crew, r := BootUp(st, config, span);
    var s1, c := ArriveOne(st, Init(config), s0, crew, span);
    var s2, a := Lap(st, config, s1, crew, c, span, reply);
    var s3 := RetryOne(st, Init(config), s2, crew, r, span);
    var s4, b := Lap(st, config, s3, crew, r, span, reply);
    assert s4.sh.records == [a, b] && s4.sh.admitted == [span];
    TwoRecordings(a, b, span);
    run := RunTo(st, config, s4);
  }

  /**
   * At-most-once holds exactly for honest servers: for any settings under
   * which some span can be delivered at all, no run records a span more often than
   * it was taken in if and only if no reply to a recorded request asks for a retry.
   */
  lemma AtMostOnceExactlyIfHonest(st: Settings, config: Config, span: Span)
    requires CanDeliver(st, config, span)
    ensures Honest(st) <==>
      forall run, x :: Exec(st, config, run).Some? ==>
        TimesRecorded(Exec(st, config, run).value, x) <= Count(Exec(st, config, run).value.sh.admitted, x)
  {
    hide Exec, Retryable, CanDeliver, TimesRecorded, Count;
    if Honest(st) {
      forall run, x | Exec(st, config, run).Some?
        ensures TimesRecorded(Exec(st, config, run).value, x) <= Count(Exec(st, config, run).value.sh.admitted, x)
      {
        NoSpanIsRecordedTwice(st, config, run, x);
      }
    } else {
      var reply :| st.mayReply(reply) && Retryable(reply);
      var run := RetryAfterRecordingDuplicates(st, config, span, reply);
      assert TimesRecorded(Exec(st, config, run).value, span.id) == 2;
    }
  }

  // ---------- spans that vanish ----------

  lemma UnknownIsForgotten(o: Outbox, spans: seq<Span>, reply: Reply)
    requires Unknown(reply)
    ensures OnReply(o, spans, reply) == o.(forgotten := o.forgotten + spans)
  {
  }

  /** A server that answers with a code the client does not know makes a span vanish before any shutdown. */
  lemma UnknownCodeForgets(st: Settings, config: Config, span: Span, reply: Reply) returns (run: seq<Step>)
    requires CanDeliver(st, config, span) && st.mayReply(reply) && Unknown(reply)
    ensures Exec(st, config, run).Some?
    ensures var sh := Exec(st, config, run).value.sh;
      !sh.ctl.stopping && sh.admitted == [span] && sh.out == Outbox([], [], [], [span])
  {
    hide Reached, FindShard, CurrentShards, NewConfig, Next, Exec, Encodable, MailAfter;
    var s0, crew, r := BootUp(st, config, span);
    var s1, c := ArriveOne(st, Init(config), s0, crew, span);
    var s2 := Launch(st, Init(config), s1, crew, c, span);
    assert ShardIsPartOfConfig(s2.threads[crew.sender].req.exportRequest.shard, CurrentConfig(s2.sh));
    hide Idle, CanDeliver, ShardIsPartOfConfig, CurrentConfig, OnReply;
    var s3 := RecordAndReply(st, Init(config), s2, crew.sender, reply);
    UnknownIsForgotten(s2.sh.out, [span], reply);
    run := RunTo(st, config, s3);
  }

  /**
   * Before the encoder is stopping no span vanishes uncounted if and only if the
   * server answers what it has recorded with codes that the client knows.
   */
  lemma NothingForgottenExactlyIfCodesKnown(st: Settings, config: Config, span: Span)
    requires CanDeliver(st, config, span)
    ensures KnownCodes(st) <==>
      forall run :: Exec(st, config, run).Some? && !Exec(st, config, run).value.sh.ctl.stopping ==>
        Exec(st, config, run).value.sh.out.forgotten == []
  {
    hide Exec, Unknown, CanDeliver;
    if KnownCodes(st) {
      forall run | Exec(st, config, run).Some? && !Exec(st, config, run).value.sh.ctl.stopping
        ensures Exec(st, config, run).value.sh.out.forgotten == []
      {
        NothingIsForgottenBeforeStopping(st, config, run);
      }
    } else {
      var reply :| st.mayReply(reply) && Unknown(reply);
      var run := UnknownCodeForgets(st, config, span, reply);
      assert Exec(st, config, run).value.sh.out.forgotten == [span];
    }
  }

  /**
   * The other place: for any server, a throttled span that the retry goroutine
   * offers again once the encoder is stopping is refused, and the refusal ignored.
   */
  lemma RefusedRetryIsForgotten(st: Settings, config: Config, span: Span) returns (run: seq<Step>)
    requires CanDeliver(st, config, span)
    ensures Exec(st, config, run).Some?
    ensures var sh := Exec(st, config, run).value.sh;
      sh.records == [] && sh.admitted == [span] && sh.out == Outbox([], [], [], [span])
  {
    hide Reached, FindShard, CurrentShards, NewConfig, Exec, Encodable, ShardIsPartOfConfig;
    var s0, crew, r := BootUp(st, config, span);
    var s1, c := ArriveOne(st, Init(config), s0, crew, span);
    var s2 := Launch(st, Init(config), s1, crew, c, span);
    var s3 := Throttle1(st, Init(config), s2, crew.sender);
    assert s3.threads == s1.threads[c := CallerGone];
    IdleAgain(st, s1, s3, crew, c, span);
    var s4 := RetryOne(st, Init(config), s3, crew, r, span);
    var s5 := BeginStop(st, config, s4);
    hide Idle;
    var s6 := Go1(st, Init(config), s5, r, Go);
    assert s6.sh.out == Outbox([], [], [], [span]);
    run := RunTo(st, config, s6);
  }

  /** Shutdown gets as far as the stopping flag. */
  lemma BeginStop(st: Settings, config: Config, s: State) returns (s': State)
    requires Reached(st, Init(config), s) && s.sh.ctl.stopPc.NotStopping?
    ensures Reached(st, Init(config), s') && s'.threads == s.threads
    ensures s'.sh == s.sh.(ctl := s.sh.ctl.(exporterDone := true, stopping := true, stopPc := StopWait))
  {
    hide Reached;
    ReachNext(st, Init(config), s, ShuttingDown(false));
    var s1 := Next(st, s, ShuttingDown(false)).value;
    assert s1.threads == s.threads;
    ReachNext(st, Init(config), s1, ShuttingDown(false));
    s' := Next(st, s1, ShuttingDown(false)).value;
  }

  // ---------- configurations that vanish ----------

  /** A configuration that was set, not taken, and followed by nil calls only. */
  predicate Erased(m: Mailbox, k: nat) {
    && k + 1 < |m.sets| && m.sets[k].Some? && k !in m.taken
    && forall j | k < j < |m.sets| :: m.sets[j].None?
  }

  /** A nil mismatch erases the configuration that an earlier mismatch had set. */
  lemma NilMismatchErases(st: Settings, config: Config, span: Span, reply: Reply) returns (run: seq<Step>)
    requires CanDeliver(st, config, span) && st.mayReply(reply)
    requires MismatchReply(reply) && reply.response.shardingConfig.None?
    ensures Exec(st, config, run).Some? && Erased(Exec(st, config, run).value.sh.mail, 1)
  {
    hide Reached, FindShard, CurrentShards, NewConfig, Exec, Encodable;
    var s0, crew, r := BootUp(st, config, span);
    var s1, c := ArriveOne(st, Init(config), s0, crew, span);
    var s2 := Launch(st, Init(config), s1, crew, c, span);
    var s3 := Mismatch1(st, Init(config), s2, crew.sender, []);
    var s4 := Reconfigure(st, Init(config), s3, config);
    assert s4.threads == s1.threads[c := CallerGone];
    IdleAgain(st, s1, s4, crew, c, span);
    var s5 := RetryOne(st, Init(config), s4, crew, r, span);
    hide ShardIsPartOfConfig;
    assert Retryable(reply);
    var s6, _ := Lap(st, config, s5, crew, r, span, reply);
    assert s6.sh.mail.sets == [Some(config), Some([]), None] && s6.sh.mail.taken == [0];
    run := RunTo(st, config, s6);
  }

  /**
   * No configuration is ever erased by nil if and only if the server attaches a
   * configuration to each mismatch that it answers a recorded request with.
   */
  lemma NothingErasedExactlyIfNilNever(st: Settings, config: Config, span: Span)
    requires CanDeliver(st, config, span)
    ensures NilNever(st) <==>
      forall run, k :: Exec(st, config, run).Some? ==> !Erased(Exec(st, config, run).value.sh.mail, k)
  {
    hide Exec, CanDeliver;
    if NilNever(st) {
      forall run, k: nat | Exec(st, config, run).Some? ensures !Erased(Exec(st, config, run).value.sh.mail, k) {
        ConfigurationsAreNeverNil(st, config, run);
        var sets := Exec(st, config, run).value.sh.mail.sets;
        if k + 1 < |sets| { assert sets[k + 1] in sets; }
      }
    } else {
      var reply :| st.mayReply(reply) && MismatchReply(reply) && reply.response.shardingConfig.None?;
      var run := NilMismatchErases(st, config, span, reply);
    }
  }

  // ---------- an unusable configuration ----------

  /** A range that starts after its end. */
  const REJECTED: Config := [ShardDefinition("", [1], [])]

  lemma RejectedIsRejected()
    ensures NewConfig(REJECTED) == Err(StartAfterEnd)
  {
    var d := REJECTED[0];
    assert SetBytes([1][..0]) == 0;
    assert SetBytes(d.startingHashKey) == 1 && SetBytes(d.endingHashKey) == 0;
    assert !WellOrdered(d);
  }

  /** No definition of the one configuration that owns the span is part of the other. */
  ghost predicate OwnerMissing(st: Settings, config: Config, span: Span, other: Config) {
    forall d <- config :: Belongs(st, InMemory(d), span) ==> !ShardIsPartOfConfig(d, other)
  }

  /** An accepted definition is not among those of the rejected configuration. */
  lemma OwnerIsNotRejected(st: Settings, config: Config, span: Span)
    requires NewConfig(config).Ok?
    ensures OwnerMissing(st, config, span, REJECTED)
  {
    NewConfigAcceptsExactly(config);
    assert SetBytes([1][..0]) == 0 && SetBytes([1]) == 1 && SetBytes([]) == 0;
    hide NewConfig, SetBytes, Belongs;
    forall d | d in config ensures !ShardIsPartOfConfig(d, REJECTED) {
      var k :| 0 <= k < |config| && config[k] == d;
      assert WellOrdered(config[k]);
    }
  }

  /** The shard found for the span is built from a definition that owns it. */
  lemma FoundOwnerIsMissing(st: Settings, config: Config, span: Span, other: Config, k: nat)
    requires NewConfig(config).Ok? && OwnerMissing(st, config, span, other)
    requires FindShard(NewConfig(config).value, PartitionKeyToHashKey(st.limits.codec.md5, span.traceID)) == Some(k)
    ensures k < |NewConfig(config).value| && !ShardIsPartOfConfig(NewConfig(config).value[k].origin, other)
  {
    FindShardFinds(NewConfig(config).value, PartitionKeyToHashKey(st.limits.codec.md5, span.traceID));
    hide NewConfig, FindShard, ShardIsPartOfConfig;
    NewShardsKnowOrigin(config, k);
  }

  /** The processor has stopped every encoder and is about to judge the configuration. */
  lemma StopAll(st: Settings, config: Config, s: State, c: Config) returns (s': State)
    requires Reached(st, Init(config), s) && s.sh.cfgPc.CfgStopping? && s.sh.cfgPc.config == c
      && s.sh.cfgPc.next <= |s.sh.ses|
    requires forall j | 0 <= j < s.sh.cfgPc.next :: s.sh.ses[j].stopped
    ensures Reached(st, Init(config), s') && s'.threads == s.threads
    ensures s'.sh == s.sh.(ses := s'.sh.ses, cfgPc := CfgApplying(c))
    ensures |s'.sh.ses| == |s.sh.ses| && forall b <- s'.sh.ses :: b.stopped
    decreases |s.sh.ses| - s.sh.cfgPc.next
  {
    hide Reached;
    ReachNext(st, Init(config), s, Configuring);
    var s1 := Next(st, s, Configuring).value;
    assert s1.threads == s.threads;
    if s.sh.cfgPc.next < |s.sh.ses| {
      s' := StopAll(st, config, s1, c);
    } else {
      s' := s1;
    }
  }

  /** A running exporter with live encoders and nothing under way. */
  ghost predicate LiveAndRunning(config: Config, live: State) {
    && (exists j :: Live(live.sh, j))
    && live.sh.ctl == Control(false, false, 0, false, false, BootDone, NotStopping) && live.sh.workersStarted
    && live.sh.cfgPc.CfgWaiting? && live.sh.mail == Mailbox(None, false, false, false, [Some(config)], [0])
    && live.sh.requests == [] && live.sh.records == [] && live.sh.lo == 0
    && live.sh.admitted == [] && live.sh.out == Outbox([], [], [], [])
    && forall pc <- live.threads :: Idles(pc)
  }

  /** From the live state, sender i has made the span's call, for a shard that the other configuration lacks. */
  ghost predicate Called(live: State, s: State, i: nat, span: Span, bad: Config) {
    && s.sh == live.sh.(admitted := [span])
    && i < |live.threads| && live.threads[i] == SenderLoop && |s.threads| == |live.threads| + 1
    && s.threads[i].InFlight? && s.threads[i].req.originalSpans == [span]
    && s.threads[i := SenderLoop] == live.threads + [CallerGone]
    && !ShardIsPartOfConfig(s.threads[i].req.exportRequest.shard, bad)
  }

  lemma Launched(st: Settings, config: Config, span: Span, bad: Config) returns (live: State, s: State, i: nat)
    requires CanDeliver(st, config, span) && OwnerMissing(st, config, span, bad)
    ensures Reached(st, Init(config), live) && LiveAndRunning(config, live)
    ensures Reached(st, Init(config), s) && Called(live, s, i, span, bad)
  {
    hide Reached, FindShard, CurrentShards, NewConfig, Encodable, ShardIsPartOfConfig, OwnerMissing;
    var crew, r;
    live, crew, r := BootUp(st, config, span);
    assert Live(live.sh, crew.shard);
    var s1, c := ArriveOne(st, Init(config), live, crew, span);
    s := Launch(st, Init(config), s1, crew, c, span);
    assert CurrentShards(live.sh) == NewConfig(config).value by { ShardsOfBatchers(live.sh, NewConfig(config).value); }
    FoundOwnerIsMissing(st, config, span, bad, crew.shard);
    i := crew.sender;
    hide Idle, CanDeliver, Live;
    assert s.threads[i := SenderLoop] == live.threads + [CallerGone];
  }

  lemma ShardsOfBatchers(sh: Shared, shards: seq<Shard>)
    requires sh.ses == Map(shards, NewBatcher) && sh.lo == 0
    ensures CurrentShards(sh) == shards
  {
  }

  /** The call meets a server that has moved to the unusable configuration. */
  lemma CallMismatched(st: Settings, config: Config, span: Span, bad: Config) returns (live: State, s: State)
    requires CanDeliver(st, config, span) && OwnerMissing(st, config, span, bad)
    ensures Reached(st, Init(config), live) && LiveAndRunning(config, live)
    ensures Reached(st, Init(config), s) && s.threads == live.threads + [CallerGone]
    ensures s.sh == live.sh.(admitted := [span], configs := s.sh.configs, out := Outbox([[span]], [], [], []),
                             mail := SetConfig(live.sh.mail, Some(bad)))
  {
    hide Reached, ShardIsPartOfConfig, CanDeliver, SetConfig, Live, Idles, OwnerMissing;
    var s1, i;
    live, s1, i := Launched(st, config, span, bad);
    s := Mismatch1(st, Init(config), s1, i, bad);
  }

  /** Every encoder has been stopped for the unusable configuration, and the span waits for retry. */
  ghost predicate AboutToJudge(s: State, span: Span, bad: Config) {
    && s.sh.cfgPc == CfgApplying(bad) && s.sh.ses != [] && (forall b <- s.sh.ses :: b.stopped)
    && s.sh.ctl == Control(false, false, 0, false, false, BootDone, NotStopping) && s.sh.workersStarted
    && s.sh.requests == [] && s.sh.records == [] && s.sh.mail.request.None?
    && s.sh.admitted == [span] && s.sh.out == Outbox([[span]], [], [], [])
    && forall pc <- s.threads :: Idles(pc)
  }

  lemma ToJudgement(st: Settings, config: Config, span: Span, bad: Config) returns (live: State, s: State)
    requires CanDeliver(st, config, span) && OwnerMissing(st, config, span, bad)
    ensures Reached(st, Init(config), live) && LiveAndRunning(config, live)
    ensures Reached(st, Init(config), s) && AboutToJudge(s, span, bad)
  {
    hide Reached, CanDeliver, NewConfig, OwnerMissing;
    var s3;
    live, s3 := CallMismatched(st, config, span, bad);
    ReachNext(st, Init(config), s3, Configuring);
    var s4 := Next(st, s3, Configuring).value;
    assert s4.sh.cfgPc == CfgStopping(bad, 0) && s4.threads == s3.threads;
    hide Idles, Next;
    s := StopAll(st, config, s4, bad);
    assert Idles(CallerGone);
  }

  ghost predicate LiveAfter(st: Settings, config: Config, run: seq<Step>) {
    Exec(st, config, run).Some? && exists j :: Live(Exec(st, config, run).value.sh, j)
  }

  /** The configuration is about to be judged, with all encoders stopped. */
  ghost predicate Judges(st: Settings, config: Config, run: seq<Step>, bad: Config) {
    && Exec(st, config, run).Some?
    && var sh := Exec(st, config, run).value.sh;
    && sh.cfgPc == CfgApplying(bad) && sh.ses != [] && forall b <- sh.ses :: b.stopped
  }

  /** Running, the server at its first configuration, one span taken in and waiting for retry, and no encoder live. */
  ghost predicate RunningButDead(st: Settings, config: Config, run: seq<Step>, span: Span) {
    && Exec(st, config, run).Some?
    && var s := Exec(st, config, run).value;
    && Running(st, s) && CurrentConfig(s.sh) == config && Dead(s)
    && s.sh.admitted == [span] && s.sh.out.retry == [[span]]
  }

  /** In every continuation, nothing has been recorded or delivered. */
  ghost predicate NothingEverDelivered(st: Settings, config: Config, run: seq<Step>) {
    forall more :: Exec(st, config, run + more).Some? ==>
      var sh := Exec(st, config, run + more).value.sh; sh.records == [] && sh.out.delivered == []
  }

  /** After the judgement nothing is live, whether the configuration was rejected or is empty. */
  lemma JudgedDead(st: Settings, s: State, span: Span, bad: Config)
    requires AboutToJudge(s, span, bad) && !Usable(bad)
    ensures Next(st, s, Configuring).Some?
    ensures var s' := Next(st, s, Configuring).value;
      && s'.threads == s.threads && (forall b <- s'.sh.ses :: b.stopped)
      && s'.sh == s.sh.(cfgPc := CfgWaiting, ses := s'.sh.ses, lo := s'.sh.lo)
  {
    EmptyIsAccepted();
    hide NewConfig;
  }

  /**
   * The exporter does not recover from an unusable configuration. From a state
   * with live encoders a run reaches the judgement of it, brought by a call that it turns
   * away; after it the exporter is running, the server is back at the
   * configuration it had, and yet in every continuation nothing is recorded or delivered: the
   * span goes round between the retry queue and stopped encoders, or is dropped for want of a shard.
   */
  lemma UnusableConfigurationEndsDelivery(st: Settings, config: Config, span: Span, bad: Config)
    returns (before: seq<Step>, judging: seq<Step>, run: seq<Step>)
    requires CanDeliver(st, config, span) && !Usable(bad) && OwnerMissing(st, config, span, bad)
    ensures LiveAfter(st, config, before) && Judges(st, config, judging, bad)
    ensures RunningButDead(st, config, run, span) && NothingEverDelivered(st, config, run)
  {
    hide Reached, NewConfig, Exec, Encodable, FindShard, OwnerMissing, Usable;
    var live, s := ToJudgement(st, config, span, bad);
    before := RunTo(st, config, live);
    judging := RunTo(st, config, s);
    JudgedDead(st, s, span, bad);
    ReachNext(st, Init(config), s, Configuring);
    var s1 := Next(st, s, Configuring).value;
    hide Next;
    var s2 := Reconfigure(st, Init(config), s1, config);
    run := RunTo(st, config, s2);
    forall more | Exec(st, config, run + more).Some?
      ensures var sh := Exec(st, config, run + more).value.sh; sh.records == [] && sh.out.delivered == []
    {
      DeadForGood(st, config, run, more);
    }
  }

  /** Such configurations exist, of either kind, for whatever the exporter can deliver. */
  lemma RejectedConfigurationEndsDelivery(st: Settings, config: Config, span: Span, empty: bool)
    returns (before: seq<Step>, judging: seq<Step>, run: seq<Step>)
    requires CanDeliver(st, config, span)
    ensures LiveAfter(st, config, before) && Judges(st, config, judging, if empty then [] else REJECTED)
    ensures RunningButDead(st, config, run, span) && NothingEverDelivered(st, config, run)
  {
    RejectedIsRejected();
    OwnerIsNotRejected(st, config, span);
    hide NewConfig, Exec, Encodable, FindShard, LiveAfter, Judges, RunningButDead, NothingEverDelivered;
    before, judging, run := UnusableConfigurationEndsDelivery(st, config, span, if empty then [] else REJECTED);
  }
}
