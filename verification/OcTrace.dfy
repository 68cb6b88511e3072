/**
 * The OpenCensus trace receiver (octrace/opencensus.go): the fold of one
 * message stream into batches for the next consumer, and the limit on
 * concurrent streams.
 */
module OcTrace {
  import opened Basics

  type Node = string
  type Resource = string
  type TraceSpan = string
  type ErrorText = string

  datatype Message = Message(node: Option<Node>, resource: Option<Resource>, spans: seq<TraceSpan>)

  datatype StreamEnd = Eof | RecvError(error: ErrorText)

  /** What Recv yields, call by call: some messages and then an error or the end. */
  datatype Stream = Stream(messages: seq<Message>, end: StreamEnd)

  datatype TraceData = TraceData(node: Option<Node>, resource: Option<Resource>, spans: seq<TraceSpan>)

  datatype ExportError =
    | ResourceExhausted
    | ProtocolViolation
    | EmptyStream
    | RecvFailed(error: ErrorText)
    | ConsumerFailed(error: ErrorText)
    | NodeMissing

  /** The consumer's answer may depend on everything it was given before. */
  type Consumer = (seq<TraceData>, TraceData) -> Option<ErrorText>

  // ---------- specification ----------

  function LastNode(ms: seq<Message>): Option<Node> {
    if ms == [] then None
    else if ms[|ms| - 1].node.Some? then ms[|ms| - 1].node
    else LastNode(ms[..|ms| - 1])
  }

  function LastResource(ms: seq<Message>): Option<Resource> {
    if ms == [] then None
    else if ms[|ms| - 1].resource.Some? then ms[|ms| - 1].resource
    else LastResource(ms[..|ms| - 1])
  }

  /** The batches of a stream: each non-empty message with the newest Node and Resource up to it. */
  function Batches(ms: seq<Message>): seq<TraceData> {
    if ms == [] then []
    else
      var m := ms[|ms| - 1];
      Batches(ms[..|ms| - 1]) + if m.spans == [] then [] else [TraceData(LastNode(ms), LastResource(ms), m.spans)]
  }

  /** The consumer's first refusal, given the batches one after the other. */
  function FirstError(consume: Consumer, past: seq<TraceData>, batches: seq<TraceData>): Option<ErrorText> {
    if batches == [] then None
    else
      var init := batches[..|batches| - 1];
      match FirstError(consume, past, init)
      case Some(e) => Some(e)
      case None => consume(past + init, batches[|batches| - 1])
  }

  /** Deliveries stop with the first batch that the consumer turns down. */
  function Delivered(consume: Consumer, past: seq<TraceData>, batches: seq<TraceData>): seq<TraceData> {
    if batches == [] then []
    else
      var init := batches[..|batches| - 1];
      if FirstError(consume, past, init).Some? then Delivered(consume, past, init) else batches
  }

  function EndResult(end: StreamEnd): Option<ExportError> {
    match end case Eof => None case RecvError(e) => Some(RecvFailed(e))
  }

  /** The end of the stream is an error to a caller who sent nothing at all. */
  function EmptyResult(end: StreamEnd): Option<ExportError> {
    match end case Eof => Some(EmptyStream) case RecvError(e) => Some(RecvFailed(e))
  }

  function StreamDeliveries(consume: Consumer, past: seq<TraceData>, s: Stream): seq<TraceData> {
    if s.messages == [] || s.messages[0].node.None? then [] else Delivered(consume, past, Batches(s.messages))
  }

  function StreamResult(consume: Consumer, past: seq<TraceData>, s: Stream, backPressureOn: bool): Option<ExportError> {
    if s.messages == [] then EmptyResult(s.end)
    else if s.messages[0].node.None? then Some(ProtocolViolation)
    else match FirstError(consume, past, Batches(s.messages))
      case Some(e) => if backPressureOn then Some(ConsumerFailed(e)) else None
      case None => EndResult(s.end)
  }

  // ---------- properties of the specification ----------

  lemma {:induction false} LastNodeKnown(ms: seq<Message>)
    requires ms != [] && ms[0].node.Some?
    ensures LastNode(ms).Some?
  {
    if ms[|ms| - 1].node.None? { LastNodeKnown(ms[..|ms| - 1]); }
  }

  /** The newest value of a field up to a message: set there, or earlier with nothing set since. */
  lemma {:induction false} LastNodeIsNewest(ms: seq<Message>, k: nat)
    requires k < |ms| && ms[k].node.Some? && forall j | k < j < |ms| :: ms[j].node.None?
    ensures LastNode(ms) == ms[k].node
  {
    if k < |ms| - 1 { LastNodeIsNewest(ms[..|ms| - 1], k); }
  }

  lemma {:induction false} LastResourceIsNewest(ms: seq<Message>, k: nat)
    requires k < |ms| && ms[k].resource.Some? && forall j | k < j < |ms| :: ms[j].resource.None?
    ensures LastResource(ms) == ms[k].resource
  {
    if k < |ms| - 1 { LastResourceIsNewest(ms[..|ms| - 1], k); }
  }

  lemma {:induction false} BatchesAreFromMessages(ms: seq<Message>, i: nat)
    requires ms != [] && ms[0].node.Some? && i < |Batches(ms)|
    ensures Batches(ms)[i].node.Some? && Batches(ms)[i].spans != []
    ensures exists k | 0 <= k < |ms| ::
      Batches(ms)[i] == TraceData(LastNode(ms[..k + 1]), LastResource(ms[..k + 1]), ms[k].spans)
  {
    var init := ms[..|ms| - 1];
    if i < |Batches(init)| {
      BatchesAreFromMessages(init, i);
      var k :| 0 <= k < |init|
        && Batches(init)[i] == TraceData(LastNode(init[..k + 1]), LastResource(init[..k + 1]), init[k].spans);
      assert init[..k + 1] == ms[..k + 1];
    } else {
      assert ms[..(|ms| - 1) + 1] == ms;
      LastNodeKnown(ms);
    }
  }

  /**
   * The deliveries are a prefix of the batches; the consumer accepted all of
   * them but possibly the last, and they are all of them if it accepted that too.
   */
  lemma {:induction false} DeliveredIsPrefix(consume: Consumer, past: seq<TraceData>, batches: seq<TraceData>)
    ensures Delivered(consume, past, batches) <= batches
    ensures FirstError(consume, past, batches).None? ==> Delivered(consume, past, batches) == batches
    ensures var d := Delivered(consume, past, batches);
      forall i | 0 <= i < |d| :: consume(past + d[..i], d[i])
        == if i < |d| - 1 then None else FirstError(consume, past, batches)
  {
    if batches != [] {
      var init := batches[..|batches| - 1];
      DeliveredIsPrefix(consume, past, init);
      if FirstError(consume, past, init).None? {
        forall i | 0 <= i < |batches| ensures consume(past + batches[..i], batches[i])
          == if i < |batches| - 1 then None else FirstError(consume, past, batches)
        {
          if i < |init| { assert init[..i] == batches[..i]; }
        }
      }
    }
  }

  /** What reaches the consumer is never without a Node, never empty, and always a message's own spans. */
  lemma DeliveriesAreWellFormed(consume: Consumer, past: seq<TraceData>, s: Stream, i: nat)
    requires i < |StreamDeliveries(consume, past, s)|
    ensures var d := StreamDeliveries(consume, past, s);
      && d[i].node.Some? && d[i].spans != []
      && (exists k | 0 <= k < |s.messages| ::
            d[i] == TraceData(LastNode(s.messages[..k + 1]), LastResource(s.messages[..k + 1]), s.messages[k].spans))
  {
    DeliveredIsPrefix(consume, past, Batches(s.messages));
    BatchesAreFromMessages(s.messages, i);
  }

  /**
   * The end of the stream is a success after some message, unless the first one had no Node
   * or a refusal is passed on; without any message it is an error.
   */
  lemma EndIsErrorBeforeFirstMessage(consume: Consumer, past: seq<TraceData>, ms: seq<Message>, backPressureOn: bool)
    ensures var result := StreamResult(consume, past, Stream(ms, Eof), backPressureOn);
      && (result == Some(EmptyStream) <==> ms == [])
      && (result == None <==>
          (ms != [] && ms[0].node.Some? && (backPressureOn ==> FirstError(consume, past, Batches(ms)).None?)))
  {
  }

  /** The consumer takes all batches before the i-th one. */
  ghost predicate AcceptsUpTo(consume: Consumer, past: seq<TraceData>, batches: seq<TraceData>, i: nat) {
    i <= |batches| && forall j | 0 <= j < i :: consume(past + batches[..j], batches[j]).None?
  }

  /** The consumer turns the i-th batch down, and none before it. */
  ghost predicate RefusesAt(consume: Consumer, past: seq<TraceData>, batches: seq<TraceData>, i: nat, e: ErrorText) {
    && AcceptsUpTo(consume, past, batches, i) && i < |batches|
    && consume(past + batches[..i], batches[i]) == Some(e)
  }

  lemma {:induction false} FirstErrorExactly(consume: Consumer, past: seq<TraceData>, batches: seq<TraceData>,
          e: ErrorText)
    ensures FirstError(consume, past, batches) == Some(e) <==> exists i :: RefusesAt(consume, past, batches, i, e)
    ensures FirstError(consume, past, batches) == None <==> AcceptsUpTo(consume, past, batches, |batches|)
  {
    DeliveredIsPrefix(consume, past, batches);
    var d := Delivered(consume, past, batches);
    assert forall i | 0 <= i < |d| :: d[..i] == batches[..i] && d[i] == batches[i];
    if FirstError(consume, past, batches).Some? {
      FirstErrorHasPlace(consume, past, batches);
      var e' := FirstError(consume, past, batches).value;
      assert RefusesAt(consume, past, batches, |d| - 1, e');
    }
  }

  lemma {:induction false} FirstErrorHasPlace(consume: Consumer, past: seq<TraceData>, batches: seq<TraceData>)
    requires FirstError(consume, past, batches).Some?
    ensures Delivered(consume, past, batches) != []
  {
    if batches != [] && FirstError(consume, past, batches[..|batches| - 1]).Some? {
      FirstErrorHasPlace(consume, past, batches[..|batches| - 1]);
    }
  }

  /** What the end of the stream means for the caller. */
  ghost predicate EndsAs(end: StreamEnd, atEof: Option<ExportError>, result: Option<ExportError>) {
    result == match end case Eof => atEof case RecvError(e) => Some(RecvFailed(e))
  }

  /**
   * The result of a stream in every case. Without a message it is the error of the receive,
   * the end of the stream included; a first message without a Node is a protocol
   * violation; a refusal is passed on only with back pressure and ends the
   * stream in any case; and after messages that are all accepted the end is a success.
   */
  lemma StreamResultExactly(consume: Consumer, past: seq<TraceData>, s: Stream, backPressureOn: bool)
    ensures var result := StreamResult(consume, past, s, backPressureOn);
      && (s.messages == [] ==> EndsAs(s.end, Some(EmptyStream), result))
      && (s.messages != [] && s.messages[0].node.None? ==> result == Some(ProtocolViolation))
      && (s.messages != [] && s.messages[0].node.Some? ==>
            && (forall i, e | RefusesAt(consume, past, Batches(s.messages), i, e) ::
                  result == if backPressureOn then Some(ConsumerFailed(e)) else None)
            && (AcceptsUpTo(consume, past, Batches(s.messages), |Batches(s.messages)|) ==>
                  EndsAs(s.end, None, result)))
  {
    var batches := Batches(s.messages);
    forall i, e | RefusesAt(consume, past, batches, i, e) ensures FirstError(consume, past, batches) == Some(e) {
      FirstErrorExactly(consume, past, batches, e);
    }
    FirstErrorExactly(consume, past, batches, "");
  }

  // ---------- appending one message at a time ----------

  /** Messages after the first refused batch change nothing. */
  lemma {:induction false} ErrorIsFinal(consume: Consumer, past: seq<TraceData>, batches: seq<TraceData>, k: nat)
    requires k <= |batches| && FirstError(consume, past, batches[..k]).Some?
    ensures Delivered(consume, past, batches) == Delivered(consume, past, batches[..k])
    ensures FirstError(consume, past, batches) == FirstError(consume, past, batches[..k])
  {
    if k == |batches| {
      assert batches[..k] == batches;
    } else {
      assert batches[..|batches| - 1][..k] == batches[..k];
      ErrorIsFinal(consume, past, batches[..|batches| - 1], k);
    }
  }

  /** One more message: the carried Node and Resource, and the batch it adds. */
  lemma OneMoreMessage(ms: seq<Message>, i: nat)
    requires i < |ms|
    ensures var m, next := ms[i], ms[..i + 1];
      && LastNode(next) == (if m.node.Some? then m.node else LastNode(ms[..i]))
      && LastResource(next) == (if m.resource.Some? then m.resource else LastResource(ms[..i]))
      && Batches(next) == Batches(ms[..i]) + if m.spans == [] then [] else [TraceData(LastNode(next),
        LastResource(next), m.spans)]
  {
    assert ms[..i + 1][..i] == ms[..i];
  }

  lemma NothingReceived(ms: seq<Message>, consume: Consumer, past: seq<TraceData>)
    ensures LastNode(ms[..0]) == None && LastResource(ms[..0]) == None
    ensures Batches(ms[..0]) == [] && FirstError(consume, past, []) == None
  {
  }

  lemma OneMoreBatch(consume: Consumer, past: seq<TraceData>, batches: seq<TraceData>, b: TraceData)
    requires FirstError(consume, past, batches).None?
    ensures FirstError(consume, past, batches + [b]) == consume(past + batches, b)
    ensures Delivered(consume, past, batches + [b]) == batches + [b]
  {
    assert (batches + [b])[..|batches|] == batches;
  }

  lemma {:induction false} BatchesExtend(ms: seq<Message>, k: nat)
    requires k <= |ms|
    ensures Batches(ms[..k]) <= Batches(ms)
  {
    if k < |ms| {
      BatchesExtend(ms[..|ms| - 1], k);
      assert ms[..|ms| - 1][..k] == ms[..k];
    } else {
      assert ms[..k] == ms;
    }
  }

  lemma RefusalIsFinal(consume: Consumer, past: seq<TraceData>, ms: seq<Message>, k: nat)
    requires k <= |ms| && FirstError(consume, past, Batches(ms[..k])).Some?
    ensures Delivered(consume, past, Batches(ms)) == Delivered(consume, past, Batches(ms[..k]))
    ensures FirstError(consume, past, Batches(ms)) == FirstError(consume, past, Batches(ms[..k]))
  {
    BatchesExtend(ms, k);
    var now := Batches(ms[..k]);
    assert Batches(ms)[..|now|] == now;
    ErrorIsFinal(consume, past, Batches(ms), |now|);
  }

  // ---------- the receiver ----------

  class Receiver {
    const backPressureOn: bool
    const maxServerStreams: int
    const consume: Consumer
    var serverStreamsCount: int
    /** Everything handed to the next consumer. */
    var delivered: seq<TraceData>

    constructor (backPressureOn: bool, maxServerStreams: int, consume: Consumer)
      ensures this.backPressureOn == backPressureOn && this.maxServerStreams == maxServerStreams
      ensures this.consume == consume && serverStreamsCount == 0 && delivered == []
    {
      this.backPressureOn, this.maxServerStreams, this.consume := backPressureOn, maxServerStreams, consume;
      serverStreamsCount, delivered := 0, [];
    }

    method SendToNextConsumer(data: TraceData) returns (err: Option<ErrorText>)
      modifies this`delivered
      ensures delivered == old(delivered) + if data.spans == [] then [] else [data]
      ensures err == if data.spans == [] then None else consume(old(delivered), data)
    {
      if |data.spans| == 0 {
        return None;
      }
      err := consume(delivered, data);
      delivered := delivered + [data];
    }

    method ProcessReceivedMsg(lastNonNilNode: Option<Node>, resource: Option<Resource>, recv: Message)
      returns (node': Option<Node>, resource': Option<Resource>, err: Option<ErrorText>)
      modifies this`delivered
      ensures node' == if recv.node.Some? then recv.node else lastNonNilNode
      ensures resource' == if recv.resource.Some? then recv.resource else resource
      ensures delivered == old(delivered) + if recv.spans == [] then [] else [TraceData(node', resource', recv.spans)]
      ensures err == if recv.spans == [] then None else consume(old(delivered), TraceData(node', resource', recv.spans))
    {
      node', resource' := lastNonNilNode, resource;
      if recv.node.Some? {
        node' := recv.node;
      }
      if recv.resource.Some? {
        resource' := recv.resource;
      }
      err := SendToNextConsumer(TraceData(node', resource', recv.spans));
    }

    /** The loop of Export over the messages it receives, up to the first one refused. */
    method ForwardMessages(messages: seq<Message>) returns (refused: Option<ErrorText>)
      modifies this`delivered
      ensures delivered == old(delivered) + Delivered(consume, old(delivered), Batches(messages))
      ensures refused == FirstError(consume, old(delivered), Batches(messages))
    {
      ghost var past, all := delivered, Batches(messages);
      var lastNonNilNode: Option<Node>, resource: Option<Resource> := None, None;
      NothingReceived(messages, consume, past);
      hide LastNode, LastResource, Batches, FirstError, Delivered;
      for i := 0 to |messages|
        invariant lastNonNilNode == LastNode(messages[..i]) && resource == LastResource(messages[..i])
        invariant delivered == past + Batches(messages[..i])
        invariant FirstError(consume, past, Batches(messages[..i])).None?
      {
        ghost var before := Batches(messages[..i]);
        var m := messages[i];
        OneMoreMessage(messages, i);
        lastNonNilNode, resource, refused := ProcessReceivedMsg(lastNonNilNode, resource, m);
        if m.spans == [] {
          assert Batches(messages[..i + 1]) == before;
        } else {
          OneMoreBatch(consume, past, before, TraceData(lastNonNilNode, resource, m.spans));
        }
        if refused.Some? {
          RefusalIsFinal(consume, past, messages, i + 1);
          return;
        }
      }
      assert messages[..|messages|] == messages;
      DeliveredIsPrefix(consume, past, all);
      return None;
    }

    /** The part of Export behind the gate. */
    method ExportStream(s: Stream) returns (result: Option<ExportError>)
      modifies this`delivered
      ensures delivered == old(delivered) + StreamDeliveries(consume, old(delivered), s)
      ensures result == StreamResult(consume, old(delivered), s, backPressureOn)
    {
      if s.messages == [] {
        return EmptyResult(s.end);
      }
      if s.messages[0].node.None? {
        return Some(ProtocolViolation);
      }
      var refused := ForwardMessages(s.messages);
      if refused.Some? {
        return if backPressureOn then Some(ConsumerFailed(refused.value)) else None;
      }
      return EndResult(s.end);
    }

    /** Export with nobody else running: the gate, the stream, and the deferred decrement. */
    method Export(s: Stream) returns (result: Option<ExportError>)
      modifies this
      ensures serverStreamsCount == old(serverStreamsCount)
      ensures var rejected := maxServerStreams > 0 && old(serverStreamsCount) >= maxServerStreams;
        && result == (if rejected then Some(ResourceExhausted) else StreamResult(consume, old(delivered), s,
          backPressureOn))
        && delivered == old(delivered) + (if rejected then [] else StreamDeliveries(consume, old(delivered), s))
    {
      if maxServerStreams > 0 {
        serverStreamsCount := serverStreamsCount + 1;
        var count := serverStreamsCount;
        if count > maxServerStreams {
          serverStreamsCount := serverStreamsCount - 1;
          return Some(ResourceExhausted);
        }
      }
      result := ExportStream(s);
      if maxServerStreams > 0 {
        serverStreamsCount := serverStreamsCount - 1;
      }
    }

    /** The unary form: a Node is required, and errors surface only with back pressure. */
    method ExportOne(req: Message) returns (result: Option<ExportError>)
      modifies this`delivered
      ensures req.node.None? ==> result == Some(NodeMissing) && delivered == old(delivered)
      ensures req.node.Some? ==>
        && delivered == old(delivered) + StreamDeliveries(consume, old(delivered), Stream([req], Eof))
        && result == StreamResult(consume, old(delivered), Stream([req], Eof), backPressureOn)
    {
      if req.node.None? {
        return Some(NodeMissing);
      }
      ghost var past := delivered;
      assert [req][..0] == [] && [req][..1] == [req];
      OneMoreMessage([req], 0);
      var node, resource, err := ProcessReceivedMsg(None, None, req);
      OneMoreBatch(consume, past, [], TraceData(node, resource, req.spans));
      assert [] + [TraceData(node, resource, req.spans)] == [TraceData(node, resource, req.spans)] && past + [] == past;
      return if err.Some? && backPressureOn then Some(ConsumerFailed(err.value)) else None;
    }
  }

  // ---------- the gate under concurrency ----------

  /** A call of Export: not begun, between increment and comparison, past the gate, turned away, returned. */
  datatype Call = NotBegun | Counted(count: int) | Streaming | Rejected | Returned

  datatype Gate = Gate(count: int, calls: seq<Call>)

  function GateStep(max: int, g: Gate, i: nat): Option<Gate>
  {
    if i >= |g.calls| then None
    else match g.calls[i]
      case NotBegun => Some(Gate(g.count + 1, g.calls[i := Counted(g.count + 1)]))
      case Counted(count) => Some(Gate(g.count, g.calls[i := if count > max then Rejected else Streaming]))
      case Streaming => Some(Gate(g.count - 1, g.calls[i := Returned]))
      case Rejected => Some(Gate(g.count - 1, g.calls[i := Returned]))
      case Returned => None
  }

  function GateExec(max: int, calls: nat, run: seq<nat>): Option<Gate> {
    if run == [] then Some(Gate(0, seq(calls, _ => NotBegun)))
    else match GateExec(max, calls, run[..|run| - 1])
      case None => None
      case Some(g) => GateStep(max, g, run[|run| - 1])
  }

  function Inside(): Call -> int {
    (c: Call) => if c.Counted? || c.Streaming? || c.Rejected? then 1 else 0
  }

  /** Past the gate, or bound to pass it. */
  function Passing(max: int): Call -> int {
    (c: Call) => if c.Streaming? || (c.Counted? && c.count <= max) then 1 else 0
  }

  function IsStreaming(): Call -> int {
    (c: Call) => if c.Streaming? then 1 else 0
  }

  ghost predicate GateInv(max: int, g: Gate) {
    g.count == Sum(g.calls, Inside()) && Sum(g.calls, Passing(max)) <= max
  }

  lemma GateStepKeepsInv(max: int, g: Gate, i: nat)
    requires GateInv(max, g) && GateStep(max, g, i).Some?
    ensures GateInv(max, GateStep(max, g, i).value)
  {
    var c' := GateStep(max, g, i).value.calls[i];
    SumUpdate(g.calls, i, c', Inside());
    SumUpdate(g.calls, i, c', Passing(max));
    SumLessEqual(g.calls, Passing(max), Inside());
  }

  /**
   * For any interleaving of any number of calls: the counter is the number of
   * calls between their increment and their deferred decrement, turned away or not, and
   * never more than `max` streams are past the gate.
   */
  lemma {:induction false} StreamsNeverExceedMax(max: int, calls: nat, run: seq<nat>)
    requires max > 0 && GateExec(max, calls, run).Some?
    ensures GateInv(max, GateExec(max, calls, run).value)
    ensures Sum(GateExec(max, calls, run).value.calls, IsStreaming()) <= max
  {
    if run == [] {
      SumZero(seq(calls, _ => NotBegun), Inside());
      SumZero(seq(calls, _ => NotBegun), Passing(max));
    } else {
      StreamsNeverExceedMax(max, calls, run[..|run| - 1]);
      GateStepKeepsInv(max, GateExec(max, calls, run[..|run| - 1]).value, run[|run| - 1]);
    }
    SumLessEqual(GateExec(max, calls, run).value.calls, IsStreaming(), Passing(max));
  }

  /**
   * A call that begins counts itself among the calls inside, and is turned away exactly if that
   * count exceeds the maximum; until it has compared, the count it holds does not change.
   */
  lemma TurnedAwayExactly(max: int, calls: nat, run: seq<nat>, i: nat)
    requires max > 0 && GateExec(max, calls, run).Some?
    requires i < |GateExec(max, calls, run).value.calls| && GateExec(max, calls, run + [i]).Some?
    ensures var g, g' := GateExec(max, calls, run).value, GateExec(max, calls, run + [i]).value;
      && (g.calls[i].NotBegun? ==> g'.calls[i] == Counted(Sum(g'.calls, Inside())))
      && (g.calls[i].Counted? ==>
            && (g'.calls[i] == Rejected <==> g.calls[i].count > max)
            && (g'.calls[i] == Streaming <==> g.calls[i].count <= max))
      && forall j | 0 <= j < |g.calls| && j != i :: g'.calls[j] == g.calls[j]
  {
    assert (run + [i])[..|run|] == run;
    StreamsNeverExceedMax(max, calls, run + [i]);
    hide Sum;
  }

  /** The gate with k streams inside and the other calls not begun. */
  function Filled(k: nat, calls: nat): Gate
    requires k <= calls
  {
    Gate(k, seq(calls, j requires 0 <= j < calls => if j < k then Streaming else NotBegun))
  }

  lemma GateSnoc(max: int, calls: nat, run: seq<nat>, i: nat)
    requires GateExec(max, calls, run).Some?
    ensures GateExec(max, calls, run + [i]) == GateStep(max, GateExec(max, calls, run).value, i)
  {
    assert (run + [i])[..|run|] == run;
  }

  /** One more call begins and gets through. */
  lemma OneMoreFits(max: int, calls: nat, k: nat)
    requires k < max && k < calls
    ensures var g := Gate(k + 1, Filled(k, calls).calls[k := Counted(k + 1)]);
      GateStep(max, Filled(k, calls), k) == Some(g) && GateStep(max, g, k) == Some(Filled(k + 1, calls))
  {
    assert Filled(k + 1, calls).calls == Filled(k, calls).calls[k := Streaming];
    assert Filled(k, calls).calls[k := Counted(k + 1)][k := Streaming] == Filled(k, calls).calls[k := Streaming];
  }

  lemma {:induction false} FilledStreams(k: nat, calls: nat)
    requires k <= calls
    ensures Sum(Filled(k, calls).calls, IsStreaming()) == k
  {
    if k == 0 {
      SumZero(Filled(0, calls).calls, IsStreaming());
    } else {
      FilledStreams(k - 1, calls);
      assert Filled(k, calls).calls == Filled(k - 1, calls).calls[k - 1 := Streaming];
      SumUpdate(Filled(k - 1, calls).calls, k - 1, Streaming, IsStreaming());
    }
  }

  /** The limit is reached: up to `max` calls get through the gate, one after the other, and stay inside. */
  lemma {:induction false} MaxStreamsFit(max: int, calls: nat, k: nat) returns (run: seq<nat>)
    requires k <= max && k <= calls
    ensures GateExec(max, calls, run) == Some(Filled(k, calls))
    ensures Sum(Filled(k, calls).calls, IsStreaming()) == k
  {
    FilledStreams(k, calls);
    if k == 0 {
      run := [];
      assert Filled(0, calls).calls == seq(calls, _ => NotBegun);
    } else {
      var before := MaxStreamsFit(max, calls, k - 1);
      OneMoreFits(max, calls, k - 1);
      GateSnoc(max, calls, before, k - 1);
      hide Filled, GateStep, GateExec;
      GateSnoc(max, calls, before + [k - 1], k - 1);
      run := before + [k - 1] + [k - 1];
    }
  }
}
