/**
 * The hand-over of configuration changes to their processor (encoder.go:
 * SetConfig, the wait loop of processConfigChanges, and the stop signal).
 */
module ConfigMailbox {
  import opened Basics
  import opened ShardingConfig

  /** State under the condition variable's mutex, with the history of calls. */
  datatype Mailbox = Mailbox(
    request: Option<Config>,
    stopped: bool,
    asleep: bool,                 // the processor is blocked in Wait and not yet signalled
    signalDue: bool,              // stop is flagged and its Signal is still to come
    sets: seq<Option<Config>>,    // arguments of SetConfig, in lock order
    taken: seq<nat>)              // positions in `sets` of the requests taken

  const EMPTY_MAILBOX := Mailbox(None, false, false, false, [], [])

  /** SetConfig: overwrites any earlier request; a nil configuration erases it. */
  function SetConfig(m: Mailbox, config: Option<Config>): Mailbox {
    m.(request := config, asleep := false, sets := m.sets + [config])
  }

  datatype Check = Sleep | Exit | Take(config: Config)

  /** One turn of the wait loop: what the processor does next. */
  function CheckMailbox(m: Mailbox): (Mailbox, Check) {
    if m.request.None? && !m.stopped then (m.(asleep := true), Sleep)
    else if m.stopped then (m, Exit)
    else (m.(request := None, taken := m.taken + [if |m.sets| > 0 then |m.sets| - 1 else 0]), Take(m.request.value))
  }

  function FlagStop(m: Mailbox): Mailbox {
    m.(stopped := true, signalDue := true)
  }

  function SignalStop(m: Mailbox): Mailbox {
    m.(asleep := false, signalDue := false)
  }

  ghost predicate Increasing(xs: seq<nat>) {
    forall i, j | 0 <= i < j < |xs| :: xs[i] < xs[j]
  }

  /** The newest call of SetConfig has been taken. */
  predicate NewestTaken(m: Mailbox) {
    m.taken != [] && m.taken[|m.taken| - 1] == |m.sets| - 1
  }

  /**
   * Coalescing without lost wakeups. The requests taken are non-nil calls of
   * SetConfig in call order; the pending request is the newest call unless that
   * has been taken; and the processor sleeps only when there is nothing to do
   * or a signal is on its way.
   */
  ghost predicate MailboxInv(m: Mailbox) {
    && Increasing(m.taken)
    && (forall k <- m.taken :: k < |m.sets| && m.sets[k].Some?)
    && m.request == (if m.sets == [] || NewestTaken(m) then None else m.sets[|m.sets| - 1])
    && (m.asleep ==> m.request.None? && (m.stopped ==> m.signalDue))
  }

  lemma SetConfigKeepsInv(m: Mailbox, config: Option<Config>)
    requires MailboxInv(m)
    ensures MailboxInv(SetConfig(m, config))
  {
    assert forall k <- m.taken :: k < |m.sets| + 1;
    if m.taken != [] { assert m.taken[|m.taken| - 1] in m.taken; }
  }

  /** What is taken is always the newest configuration set so far. */
  lemma CheckKeepsInv(m: Mailbox)
    requires MailboxInv(m) && !m.asleep
    ensures MailboxInv(CheckMailbox(m).0)
    ensures CheckMailbox(m).1.Take? ==> m.sets != [] && m.sets[|m.sets| - 1] == Some(CheckMailbox(m).1.config)
  {
    if m.request.Some? && !m.stopped {
      var last := |m.sets| - 1;
      forall k | k in m.taken ensures k < last {
        var i :| 0 <= i < |m.taken| && m.taken[i] == k;
        assert m.taken[|m.taken| - 1] in m.taken;
      }
    }
  }

  lemma StopKeepsInv(m: Mailbox)
    requires MailboxInv(m)
    ensures MailboxInv(FlagStop(m)) && MailboxInv(SignalStop(m))
  {
  }
}
