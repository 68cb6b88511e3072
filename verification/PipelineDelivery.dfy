/**
 * Runs put together step by step: the exporter starts up, and one span goes
 * from its caller to the server and through the reply.
 */
module PipelineDelivery {
  import opened Basics
  import opened ShardingConfig
  import opened Spans
  import opened ShardEncoding
  import opened Server
  import opened Exporting
  import opened ConfigMailbox
  import opened Pipeline
  import opened PipelineRouting

  /** Thread i takes its next step. */
  lemma Go1(st: Settings, from: State, s: State, i: nat, ch: Choice) returns (s': State)
    requires Reached(st, from, s) && i < |s.threads| && Act(st, s.sh, s.threads[i], ch).Some?
    ensures Reached(st, from, s')
    ensures var (sh', pc') := Act(st, s.sh, s.threads[i], ch).value; s' == State(sh', s.threads[i := pc'])
  {
    hide Act;
    ReachNext(st, from, s, Thread(i, ch));
    s' := Next(st, s, Thread(i, ch)).value;
  }

  /** The library calls let this span through as it stands. */
  predicate Encodable(st: Settings, span: Span) {
    && WithinLimit(st.limits.codec, st.limits.maxAllowedSizePerSpan, span)
    && st.limits.codec.marshalList([span]).Some?
    && st.limits.codec.compress(st.limits.codec.marshalList([span]).value).Some?
  }

  /** The exporter can deliver this span under the server's first configuration. */
  predicate CanDeliver(st: Settings, config: Config, span: Span) {
    && st.numWorkers >= 1 && st.sendConcurrency >= 1
    && NewConfig(config).Ok?
    && FindShard(NewConfig(config).value, PartitionKeyToHashKey(st.limits.codec.md5, span.traceID)).Some?
    && Encodable(st, span)
  }

  /** Places of the threads that carry one span through the pipeline. */
  datatype Crew = Crew(sender: nat, flusher: nat, worker: nat, shard: nat)

  /** Nothing waits in a queue, and the crew is ready for a span of its shard. */
  ghost predicate Ready(st: Settings, s: State, crew: Crew, span: Span) {
    && s.sh.queue == [] && s.sh.requests == [] && !s.sh.ctl.stopping
    && crew.sender < |s.threads| && s.threads[crew.sender] == SenderLoop
    && crew.flusher < |s.threads| && s.threads[crew.flusher] == FlusherLoop(crew.shard)
    && crew.worker < |s.threads| && s.threads[crew.worker] == WorkerLoop
    && s.sh.lo <= crew.shard < |s.sh.ses|
    && s.sh.ses[crew.shard] == NewBatcher(s.sh.ses[crew.shard].shard)
    && FindShard(CurrentShards(s.sh), PartitionKeyToHashKey(st.limits.codec.md5, span.traceID))
      == Some(crew.shard - s.sh.lo)
  }

  /** Moreover the encoders are the first ones, and the server knows the shard. */
  ghost predicate Idle(st: Settings, s: State, crew: Crew, span: Span) {
    && Ready(st, s, crew, span) && s.sh.lo == 0
    && ShardIsPartOfConfig(s.sh.ses[crew.shard].shard.origin, CurrentConfig(s.sh))
  }

  ghost predicate Deliverable(st: Settings, span: Span) {
    st.numWorkers >= 1 && st.sendConcurrency >= 1 && Encodable(st, span)
  }

  lemma Enqueue(st: Settings, from: State, s: State, c: nat, span: Span) returns (s': State)
    requires Reached(st, from, s) && Deliverable(st, span) && s.sh.queue == [] && !s.sh.ctl.stopping
    requires c < |s.threads| && s.threads[c].Entering? && s.threads[c].batch == [span]
    ensures Reached(st, from, s')
    ensures s' == State(
      s.sh.(queue := [[span]], wg := s.sh.wg + 1,
            admitted := if s.threads[c].retried then s.sh.admitted else s.sh.admitted + [span]),
      s.threads[c := CallerReturns(s.threads[c].retried)])
  {
    hide Reached;
    var s1 := Go1(st, from, s, c, Go);
    var s2 := Go1(st, from, s1, c, Go);
    s' := Go1(st, from, s2, c, Go);
    assert s'.threads == s.threads[c := CallerReturns(s.threads[c].retried)];
  }

  /** The worker takes the batch and finds the owner of its span. */
  lemma Route(st: Settings, from: State, s: State, crew: Crew, span: Span, queued: State) returns (s': State)
    requires Ready(st, queued, crew, span) && Reached(st, from, s)
    requires s == State(queued.sh.(queue := [[span]], wg := s.sh.wg), queued.threads)
    ensures Reached(st, from, s')
    ensures s' == State(s.sh.(queue := []), s.threads[crew.worker := Routed(span, crew.shard, [])])
  {
    hide Reached, FindShard, ShardIsPartOfConfig;
    var w := crew.worker;
    var s1 := Go1(st, from, s, w, Go);
    assert s1.threads[w] == Picking([span]);
    SameShards(queued.sh, s1.sh);
    s' := Go1(st, from, s1, w, Go);
    assert s'.threads[w] == Routed(span, crew.shard, []);
    assert s'.threads == s.threads[w := Routed(span, crew.shard, [])];
  }

  /** The worker takes the batch and appends its span. */
  lemma Append(st: Settings, from: State, s: State, crew: Crew, span: Span, queued: State) returns (s': State)
    requires Ready(st, queued, crew, span) && Deliverable(st, span) && Reached(st, from, s)
    requires s == State(queued.sh.(queue := [[span]], wg := s.sh.wg), queued.threads)
    ensures Reached(st, from, s')
    ensures var size := st.limits.codec.marshalSize(span).value;
      var (b, r) := AppendSection(st.limits, s.sh.ses[crew.shard], span, size);
      r.Appended? && s' == State(s.sh.(queue := [], ses := s.sh.ses[crew.shard := b]),
        s.threads[crew.worker := if r.needFlush then Flushing(crew.shard, NextSpan([])) else Picking([])])
  {
    hide Reached, FindShard, CurrentShards, ShardIsPartOfConfig;
    var w := crew.worker;
    var s2 := Route(st, from, s, crew, span, queued);
    var s3 := Go1(st, from, s2, w, Go);
    s' := Go1(st, from, s3, w, Go);
    assert s'.threads == s.threads[w := s'.threads[w]];
  }

  /** The record that a flush makes of one span. */
  function RecordOf(st: Settings, span: Span): EncodedRecord
    requires Encodable(st, span)
  {
    var encoded := st.limits.codec.marshalList([span]).value;
    EncodedRecord(st.limits.codec.compress(encoded).value, span.traceID, 1, |encoded|)
  }

  lemma FlushOne(st: Settings, from: State, s: State, i: nat, se: nat, after: After, span: Span) returns (s': State)
    requires Reached(st, from, s) && Deliverable(st, span) && s.sh.requests == []
    requires i < |s.threads| && s.threads[i] == Flushing(se, after)
    requires se < |s.sh.ses| && s.sh.ses[se].pending == [span] && !s.sh.ses[se].stopped
    ensures Reached(st, from, s')
    ensures s' == State(
      s.sh.(ses := s.sh.ses[se := ClearAccumulated(s.sh.ses[se])],
            requests := [RequestToSend(ExportRequest(RecordOf(st, span), s.sh.ses[se].shard.origin), [span])]),
      s.threads[i := Resume(after)])
  {
    hide Reached;
    var s1 := Go1(st, from, s, i, Go);
    assert s1.threads[i] == Calling(RecordReady(RecordOf(st, span), [span], s.sh.ses[se].shard), after);
    s' := Go1(st, from, s1, i, Go);
    assert s'.threads == s.threads[i := Resume(after)];
  }

  function RequestFor(st: Settings, span: Span, shard: Shard): RequestToSend
    requires Encodable(st, span)
  {
    RequestToSend(ExportRequest(RecordOf(st, span), shard.origin), [span])
  }

  /** The worker that found the encoder full flushes it, and is done with its batch. */
  lemma FlushAtThreshold(st: Settings, from: State, s: State, w: nat, k: nat, span: Span) returns (s': State)
    requires Reached(st, from, s) && Deliverable(st, span) && s.sh.requests == []
    requires w < |s.threads| && s.threads[w] == Flushing(k, NextSpan([]))
    requires k < |s.sh.ses| && s.sh.ses[k].pending == [span] && !s.sh.ses[k].stopped
    ensures Reached(st, from, s')
    ensures s' == State(
      s.sh.(ses := s.sh.ses[k := ClearAccumulated(s.sh.ses[k])], wg := s.sh.wg - 1,
            requests := [RequestFor(st, span, s.sh.ses[k].shard)]),
      s.threads[w := WorkerLoop])
  {
    hide Reached, Encodable;
    var s1 := FlushOne(st, from, s, w, k, NextSpan([]), span);
    s' := Go1(st, from, s1, w, Go);
    assert s'.threads == s.threads[w := WorkerLoop];
  }

  /** The worker is done with its batch, and the flusher's tick flushes it. */
  lemma FlushAtTick(st: Settings, from: State, s: State, w: nat, f: nat, k: nat, span: Span) returns (s': State)
    requires Reached(st, from, s) && Deliverable(st, span) && s.sh.requests == []
    requires w < |s.threads| && s.threads[w] == Picking([]) && f < |s.threads| && s.threads[f] == FlusherLoop(k)
    requires k < |s.sh.ses| && s.sh.ses[k].pending == [span] && !s.sh.ses[k].stopped
    ensures Reached(st, from, s')
    ensures s' == State(
      s.sh.(ses := s.sh.ses[k := ClearAccumulated(s.sh.ses[k])], wg := s.sh.wg - 1,
            requests := [RequestFor(st, span, s.sh.ses[k].shard)]),
      s.threads[w := WorkerLoop])
  {
    hide Reached, Encodable;
    var s1 := Go1(st, from, s, w, Go);
    var s2 := Go1(st, from, s1, f, Go);
    s' := FlushOne(st, from, s2, f, k, NextTick(k), span);
    assert s'.threads == s.threads[w := WorkerLoop];
  }

  /** From the queue to the client's queue, through the size threshold or the flusher's tick. */
  lemma Encode1(st: Settings, from: State, s: State, crew: Crew, span: Span, queued: State) returns (s': State)
    requires Ready(st, queued, crew, span) && Deliverable(st, span) && Reached(st, from, s)
    requires s == State(queued.sh.(queue := [[span]], wg := s.sh.wg), queued.threads)
    ensures Reached(st, from, s')
    ensures s' == State(
      queued.sh.(wg := s.sh.wg - 1, requests := [RequestFor(st, span, s.sh.ses[crew.shard].shard)]),
      queued.threads)
  {
    hide Reached, FindShard, CurrentShards, ShardIsPartOfConfig, TryEncode, Encodable;
    var w, k := crew.worker, crew.shard;
    var s1 := Append(st, from, s, crew, span, queued);
    if s1.threads[w].Flushing? {
      s' := FlushAtThreshold(st, from, s1, w, k, span);
    } else {
      s' := FlushAtTick(st, from, s1, w, crew.flusher, k, span);
    }
    assert s'.sh.ses == queued.sh.ses;
    assert s'.threads == queued.threads;
  }

  /** One lap of a span, from its caller to a call that is on its way to the server. */
  lemma Launch(st: Settings, from: State, s: State, crew: Crew, c: nat, span: Span) returns (s': State)
    requires Reached(st, from, s) && Ready(st, s, crew, span) && Deliverable(st, span)
    requires c < |s.threads| && s.threads[c].Entering? && s.threads[c].batch == [span]
    ensures Reached(st, from, s')
    ensures s' == State(
      s.sh.(admitted := if s.threads[c].retried then s.sh.admitted else s.sh.admitted + [span]),
      s.threads[c := CallerReturns(s.threads[c].retried)]
               [crew.sender := InFlight(RequestFor(st, span, s.sh.ses[crew.shard].shard))])
  {
    hide Reached, FindShard, CurrentShards, ShardIsPartOfConfig, Encodable;
    var s1 := Enqueue(st, from, s, c, span);
    var queued := State(s1.sh.(queue := []), s1.threads);
    SameShards(s.sh, queued.sh);
    var s2 := Encode1(st, from, s1, crew, span, queued);
    s' := Go1(st, from, s2, crew.sender, Go);
  }

  /** The server records the request of a call. */
  lemma Record1(st: Settings, from: State, s: State, i: nat) returns (s': State)
    requires Reached(st, from, s) && i < |s.threads| && s.threads[i].InFlight?
    requires ShardIsPartOfConfig(s.threads[i].req.exportRequest.shard, CurrentConfig(s.sh))
    ensures Reached(st, from, s')
    ensures s' == State(
      s.sh.(records := s.sh.records + [Admission(s.threads[i].req, CurrentConfig(s.sh))]),
      s.threads[i := Recorded(s.threads[i].req)])
  {
    hide Reached, ShardIsPartOfConfig;
    var s1 := Go1(st, from, s, i, Go);
    s' := Go1(st, from, s1, i, Go);
    assert s'.threads == s.threads[i := Recorded(s.threads[i].req)];
  }

  /** A sender handles the reply to its call. */
  lemma Finish1(st: Settings, from: State, s: State, i: nat) returns (s': State)
    requires Reached(st, from, s) && i < |s.threads| && s.threads[i].Replied?
    ensures Reached(st, from, s')
    ensures var pc := s.threads[i];
      s' == State(
        s.sh.(out := OnReply(s.sh.out, pc.req.originalSpans, pc.reply), mail := MailAfter(s.sh.mail, pc.reply)),
        s.threads[i := SenderLoop])
  {
    hide Reached, SetConfig;
    var pc := s.threads[i];
    var s1 := Go1(st, from, s, i, Go);
    if s1.threads[i].Resending? { s' := Go1(st, from, s1, i, Go); } else { s' := s1; }
    assert s'.threads == s.threads[i := SenderLoop];
  }

  /** The server records the request and then gives this reply. */
  lemma RecordAndReply(st: Settings, from: State, s: State, i: nat, reply: Reply) returns (s': State)
    requires Reached(st, from, s) && st.mayReply(reply) && i < |s.threads| && s.threads[i].InFlight?
    requires ShardIsPartOfConfig(s.threads[i].req.exportRequest.shard, CurrentConfig(s.sh))
    ensures Reached(st, from, s')
    ensures var req := s.threads[i].req;
      s' == State(
        s.sh.(records := s.sh.records + [Admission(req, CurrentConfig(s.sh))],
              out := OnReply(s.sh.out, req.originalSpans, reply), mail := MailAfter(s.sh.mail, reply)),
        s.threads[i := SenderLoop])
  {
    hide Reached, ShardIsPartOfConfig, OnReply, MailAfter;
    var s1 := Record1(st, from, s, i);
    var s2 := Go1(st, from, s1, i, Respond(reply));
    s' := Finish1(st, from, s2, i);
    assert s'.threads == s.threads[i := SenderLoop];
  }

  /** The call is throttled before the server sees the request. */
  lemma Throttle1(st: Settings, from: State, s: State, i: nat) returns (s': State)
    requires Reached(st, from, s) && i < |s.threads| && s.threads[i].InFlight?
    ensures Reached(st, from, s')
    ensures s' == State(s.sh.(out := ResendSpans(s.sh.out, s.threads[i].req.originalSpans)), s.threads[i := SenderLoop])
  {
    hide Reached, ResendSpans;
    var details := [RetryInfo(1, 0)];
    assert details[0] in details && AsksForRetry(details[0]);
    var s1 := Go1(st, from, s, i, Fail(details));
    s' := Finish1(st, from, s1, i);
    assert s'.threads == s.threads[i := SenderLoop];
  }

  /** The server has moved on and turns the request away. */
  lemma Mismatch1(st: Settings, from: State, s: State, i: nat, current: Config) returns (s': State)
    requires Reached(st, from, s) && i < |s.threads| && s.threads[i].InFlight?
    requires !ShardIsPartOfConfig(s.threads[i].req.exportRequest.shard, current)
    ensures Reached(st, from, s')
    ensures s' == State(
      s.sh.(configs := s.sh.configs + [current], out := ResendSpans(s.sh.out, s.threads[i].req.originalSpans),
            mail := SetConfig(s.sh.mail, Some(current))),
      s.threads[i := SenderLoop])
  {
    hide Reached, ShardIsPartOfConfig, ResendSpans, SetConfig;
    ReachNext(st, from, s, ServerConfigures(current));
    var s1 := Next(st, s, ServerConfigures(current)).value;
    var s2 := Go1(st, from, s1, i, Go);
    var s3 := Go1(st, from, s2, i, Go);
    s' := Finish1(st, from, s3, i);
    assert s'.threads == s.threads[i := SenderLoop];
  }

  lemma Reconfigure(st: Settings, from: State, s: State, current: Config) returns (s': State)
    requires Reached(st, from, s)
    ensures Reached(st, from, s') && s' == State(s.sh.(configs := s.sh.configs + [current]), s.threads)
    ensures CurrentConfig(s'.sh) == current
  {
    ReachNext(st, from, s, ServerConfigures(current));
    s' := Next(st, s, ServerConfigures(current)).value;
  }

  lemma SameShards(sh: Shared, sh': Shared)
    requires sh'.ses == sh.ses && sh'.lo == sh.lo
    ensures CurrentShards(sh') == CurrentShards(sh)
  {
  }

  lemma Boot1(st: Settings, config: Config) returns (s: State)
    ensures Reached(st, Init(config), s)
    ensures s == State(
      InitialShared(config).(ctl := InitialShared(config).ctl.(bootPc := BootDone), mail :=
        SetConfig(EMPTY_MAILBOX, Some(config))),
      NewThreads(st.sendConcurrency, SenderLoop) + [RetryLoop])
  {
    hide Reached, SetConfig;
    ReachSelf(st, Init(config));
    ReachNext(st, Init(config), Init(config), Booting(true));
    var s1 := Next(st, Init(config), Booting(true)).value;
    assert s1.threads == NewThreads(st.sendConcurrency, SenderLoop);
    ReachNext(st, Init(config), s1, Booting(true));
    var s2 := Next(st, s1, Booting(true)).value;
    assert s2.threads == s1.threads;
    ReachNext(st, Init(config), s2, Booting(true));
    s := Next(st, s2, Booting(true)).value;
  }

  /** The processor takes the configuration and starts encoders and workers. */
  lemma Configure1(st: Settings, config: Config, s: State) returns (s': State)
    requires Reached(st, Init(config), s) && NewConfig(config).Ok?
    requires s.sh.cfgPc.CfgWaiting? && s.sh.mail == SetConfig(EMPTY_MAILBOX, Some(config))
    requires s.sh.ses == [] && s.sh.lo == 0 && !s.sh.workersStarted
    ensures Reached(st, Init(config), s')
    ensures var shards := NewConfig(config).value;
      s' == State(
        s.sh.(mail := Mailbox(None, false, false, false, [Some(config)], [0]), cfgPc := CfgWaiting, ses :=
          Map(shards, NewBatcher), workersStarted := true),
        s.threads + (NewFlushers(0, |shards|) + NewThreads(st.numWorkers, WorkerLoop)))
  {
    hide Reached, NewConfig;
    ReachNext(st, Init(config), s, Configuring);
    var s1 := Next(st, s, Configuring).value;
    assert s1.sh.cfgPc == CfgStopping(config, 0) && s1.threads == s.threads;
    ReachNext(st, Init(config), s1, Configuring);
    var s2 := Next(st, s1, Configuring).value;
    assert s2.sh.cfgPc == CfgApplying(config) && s2.threads == s.threads;
    ReachNext(st, Init(config), s2, Configuring);
    s' := Next(st, s2, Configuring).value;
    assert s'.sh.ses == Map(NewConfig(config).value, NewBatcher);
  }

  /** The span's owner has an encoder, and the server knows its shard. */
  lemma OwnerIsKnown(st: Settings, config: Config, sh: Shared, span: Span) returns (k: nat)
    requires CanDeliver(st, config, span)
    requires sh.ses == Map(NewConfig(config).value, NewBatcher) && sh.lo == 0 && CurrentConfig(sh) == config
    ensures k < |sh.ses| && sh.ses[k] == NewBatcher(sh.ses[k].shard)
    ensures FindShard(CurrentShards(sh), PartitionKeyToHashKey(st.limits.codec.md5, span.traceID)) == Some(k)
    ensures ShardIsPartOfConfig(sh.ses[k].shard.origin, config)
  {
    var shards := NewConfig(config).value;
    var key := PartitionKeyToHashKey(st.limits.codec.md5, span.traceID);
    FindShardFinds(shards, key);
    k := FindShard(shards, key).value;
    hide FindShard, NewConfig;
    assert CurrentShards(sh) == shards;
    NewShardsKnowOrigin(config, k);
    assert SameDefinition(shards[k].origin, shards[k].origin);
  }

  lemma BootUp(st: Settings, config: Config, span: Span) returns (s: State, crew: Crew, r: nat)
    requires CanDeliver(st, config, span)
    ensures Reached(st, Init(config), s) && Idle(st, s, crew, span)
    ensures r < |s.threads| && s.threads[r] == RetryLoop
    ensures s.sh.records == [] && s.sh.admitted == [] && s.sh.out == Outbox([], [], [], []) && s.sh.configs == [config]
    ensures s.sh.cfgPc.CfgWaiting? && s.sh.mail == Mailbox(None, false, false, false, [Some(config)], [0])
      && s.sh.workersStarted && s.sh.wg == 0
    ensures s.sh.ctl == Control(false, false, 0, false, false, BootDone, NotStopping)
    ensures s.sh.ses == Map(NewConfig(config).value, NewBatcher)
    ensures forall pc <- s.threads :: pc.SenderLoop? || pc.RetryLoop? || pc.FlusherLoop? || pc.WorkerLoop?
  {
    hide Reached, SetConfig, FindShard, NewConfig, CurrentShards, ShardIsPartOfConfig, PartitionKeyToHashKey;
    var n := |NewConfig(config).value|;
    var s1 := Boot1(st, config);
    s := Configure1(st, config, s1);
    var k := OwnerIsKnown(st, config, s.sh, span);
    r := st.sendConcurrency;
    crew := Crew(0, r + 1 + k, r + 1 + n, k);
    assert |s1.threads| == r + 1;
  }

  lemma ArriveOne(st: Settings, from: State, s: State, crew: Crew, span: Span) returns (s': State, c: nat)
    requires Reached(st, from, s) && Idle(st, s, crew, span)
    ensures Reached(st, from, s') && Idle(st, s', crew, span)
    ensures s' == State(s.sh, s.threads + [Entering([span], false)]) && c == |s.threads|
  {
    hide Reached, FindShard, CurrentShards, ShardIsPartOfConfig;
    ReachNext(st, from, s, Arrive([span]));
    s', c := State(s.sh, s.threads + [Entering([span], false)]), |s.threads|;
  }

  /** After a lap that left the encoders and the server's configuration as they were, the crew is ready again. */
  lemma IdleAgain(st: Settings, before: State, s: State, crew: Crew, c: nat, span: Span)
    requires Idle(st, before, crew, span) && c < |before.threads| && before.threads[c].Entering?
    requires c < |s.threads| && s.threads == before.threads[c := s.threads[c]]
    requires s.sh.queue == [] && s.sh.requests == [] && s.sh.ses == before.sh.ses && s.sh.lo == before.sh.lo
    requires s.sh.ctl == before.sh.ctl && CurrentConfig(s.sh) == CurrentConfig(before.sh)
    ensures Idle(st, s, crew, span)
  {
    hide FindShard, CurrentShards, ShardIsPartOfConfig, CurrentConfig;
    SameShards(before.sh, s.sh);
  }

  /** The retry goroutine picks the span up again. */
  lemma RetryOne(st: Settings, from: State, s: State, crew: Crew, r: nat, span: Span) returns (s': State)
    requires Reached(st, from, s) && Idle(st, s, crew, span) && s.sh.out.retry == [[span]]
    requires r < |s.threads| && s.threads[r] == RetryLoop
    ensures Reached(st, from, s') && Idle(st, s', crew, span)
    ensures s' == State(s.sh.(out := s.sh.out.(retry := [])), s.threads[r := Entering([span], true)])
  {
    hide Reached, FindShard, CurrentShards, ShardIsPartOfConfig;
    s' := Go1(st, from, s, r, Go);
    SameShards(s.sh, s'.sh);
  }
}
