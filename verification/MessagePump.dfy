/** The bounded relay pump between two sockets (apps/relay/src/message-pump.ts). */
module MessagePump {
  import opened Prelude

  datatype Message = Message(data: seq<bv8>, binary: bool)

  datatype Limits = Limits(maxMessageBytes: nat, maxQueuedBytes: nat)

  datatype Failure = MessageTooLarge | BackpressureLimit | UpstreamClosed

  /** What the target does with a send: calls back before `send` returns or later, or throws and never does. */
  datatype Reply = Late | SyncOk | SyncError | Throws

  /** Bytes of the first `n` messages. */
  function Bytes(s: seq<Message>, n: nat): nat
    requires n <= |s|
  {
    if n == 0 then 0 else Bytes(s, n - 1) + |s[n - 1].data|
  }

  lemma {:induction false} BytesOfPrefix(s: seq<Message>, m: Message, n: nat)
    requires n <= |s|
    ensures Bytes(s + [m], n) == Bytes(s, n)
  {
    if n > 0 {
      BytesOfPrefix(s, m, n - 1);
    }
  }

  // ---------------------------------------------------------------------------------------------
  // The pump as a log of accepted messages and a cursor

  /**
   * Everything ever accepted, how many of those were sent, whether the last of them still waits for its
   * callback, or was lost because `send` threw, and what was reported to the outside.
   */
  datatype Log = Log(
    accepted: seq<Message>,
    sent: nat,
    sending: bool,
    stuck: bool,
    closed: bool,
    paused: bool,
    delivered: nat,
    failures: seq<Failure>)

  const IDLE := Log([], 0, false, false, false, false, 0, [])

  /** The cursor stays inside the log. */
  predicate InRange(l: Log) {
    l.sent <= |l.accepted| && (l.sending ==> 0 < l.sent) && (l.stuck ==> l.sending)
  }

  /** How many messages were sent and called back. */
  function Settled(l: Log): nat
    requires InRange(l)
  {
    if l.sending then l.sent - 1 else l.sent
  }

  /** Bytes in flight and waiting: accepted and not yet called back. */
  function Unsettled(l: Log): int
    requires InRange(l)
  {
    Bytes(l.accepted, |l.accepted|) - Bytes(l.accepted, Settled(l))
  }

  /** How many messages the target has got: all that were sent, but for one whose `send` threw. */
  function Received(l: Log): nat
    requires InRange(l)
  {
    if l.stuck then l.sent - 1 else l.sent
  }

  lemma AcceptAdds(l: Log, l': Log, m: Message)
    requires InRange(l) && l'.accepted == l.accepted + [m] && l'.sent == l.sent && l'.sending == l.sending && l'.stuck == l.stuck
    ensures Unsettled(l') == Unsettled(l) + |m.data|
    ensures Bytes(l'.accepted, Settled(l')) == Bytes(l.accepted, Settled(l))
    ensures l'.accepted[l.sent..] == l.accepted[l.sent..] + [m]
    ensures Received(l') == Received(l) && l'.accepted[..Received(l)] == l.accepted[..Received(l)]
    ensures l.sending ==> l'.accepted[l.sent - 1] == l.accepted[l.sent - 1]
  {
    BytesOfPrefix(l.accepted, m, |l.accepted|);
    BytesOfPrefix(l.accepted, m, Settled(l));
  }

  lemma SendMoves(l: Log, throws: bool)
    requires InRange(l) && !l.sending && l.sent < |l.accepted|
    ensures var l' := l.(sent := l.sent + 1, sending := true, stuck := throws);
            && Unsettled(l') == Unsettled(l) && l'.accepted[l'.sent..] == l.accepted[l.sent..][1..]
            && l'.accepted[..Received(l')] == l.accepted[..Received(l)] + if throws then [] else [l.accepted[l.sent]]
  {
  }

  function AfterClose(l: Log): Log {
    l.(closed := true, paused := false)
  }

  function AfterDrain(l: Log, replies: seq<Reply>): (r: Log)
    requires InRange(l)
    ensures InRange(r)
    decreases |l.accepted| - l.sent, 0
  {
    if l.closed || l.sending then l
    else if l.sent == |l.accepted| then l.(paused := false)
    else
      var busy := l.(sent := l.sent + 1, sending := true);
      if replies == [] || replies[0].Late? then busy
      else if replies[0].Throws? then busy.(stuck := true)
      else AfterCallback(busy, replies[0].SyncError?, replies[1..])
  }

  function AfterCallback(l: Log, error: bool, replies: seq<Reply>): (r: Log)
    requires InRange(l) && l.sending && !l.stuck
    ensures InRange(r)
    decreases |l.accepted| - l.sent, 1
  {
    if error then AfterClose(l.(sending := false, failures := l.failures + [UpstreamClosed]))
    else AfterDrain(l.(sending := false, delivered := l.delivered + |l.accepted[l.sent - 1].data|), replies)
  }

  /** The two limits, checked before a message is accepted. */
  function Refusal(l: Log, limits: Limits, m: Message, buffered: nat): Option<Failure>
    requires InRange(l)
  {
    if |m.data| > limits.maxMessageBytes then Some(MessageTooLarge)
    else if Unsettled(l) + |m.data| > limits.maxQueuedBytes || buffered + |m.data| > limits.maxQueuedBytes
    then Some(BackpressureLimit)
    else None
  }

  function AfterEnqueue(l: Log, limits: Limits, m: Message, buffered: nat, replies: seq<Reply>): (r: Log)
    requires InRange(l)
    ensures InRange(r)
  {
    if l.closed then l
    else
      var refusal := Refusal(l, limits, m, buffered);
      if refusal.Some? then l.(failures := l.failures + [refusal.value])
      else AfterDrain(l.(accepted := l.accepted + [m], paused := l.paused || l.sending || l.sent < |l.accepted|), replies)
  }

  // ---------------------------------------------------------------------------------------------
  // The object

  class Pump {
    const limits: Limits
    var queue: seq<Message>
    var queuedBytes: int
    var sending: bool
    var closed: bool
    var paused: bool
    /** The message the pending callback was created for; none if `send` threw. */
    var inFlight: Option<Message>
    /** The sockets and listeners: is the source paused, what did the target get, what was reported. */
    var sourcePaused: bool
    var target: seq<Message>
    var delivered: nat
    var failures: seq<Failure>
    ghost var log: Log

    /** The fields are a running summary of the log. */
    ghost predicate Valid()
      reads this
    {
      && InRange(log)
      && sending == log.sending && closed == log.closed && paused == log.paused == sourcePaused
      && queue == (if closed then [] else log.accepted[log.sent..])
      && queuedBytes == (if closed then 0 else Unsettled(log))
      && target == log.accepted[..Received(log)] && delivered == log.delivered && failures == log.failures
      && inFlight == (if sending && !log.stuck then Some(log.accepted[log.sent - 1]) else None)
    }

    constructor (limits: Limits)
      ensures Valid() && log == IDLE && this.limits == limits
    {
      this.limits := limits;
      queue, queuedBytes, sending, closed, paused, inFlight := [], 0, false, false, false, None;
      sourcePaused, target, delivered, failures, log := false, [], 0, [], IDLE;
    }

    method Close()
      requires Valid()
      modifies this
      ensures Valid() && log == AfterClose(old(log))
    {
      closed := true;
      queue := [];
      queuedBytes := 0;
      if paused {
        sourcePaused := false;
        paused := false;
      }
      log := AfterClose(log);
    }

    /** `threw` says that an exception of `send` comes out of this call. */
    method Drain(replies: seq<Reply>) returns (threw: bool)
      requires Valid()
      modifies this
      ensures Valid() && log == AfterDrain(old(log), replies) && threw == (log.stuck && !old(log).stuck)
      decreases |log.accepted| - log.sent, 0
    {
      if closed || sending {
        return false;
      }
      if queue == [] {
        if paused {
          sourcePaused := false;
          paused := false;
        }
        log := log.(paused := false);
        return false;
      }
      threw := replies != [] && replies[0].Throws?;
      Transmit(threw);
      if replies != [] && !replies[0].Late? && !threw {
        threw := Callback(replies[0].SyncError?, replies[1..]);
      }
    }

    /** The oldest waiting message goes to the target, unless `send` throws. */
    method Transmit(throws: bool)
      requires Valid() && !closed && !sending && queue != []
      modifies this
      ensures Valid() && log == old(log).(sent := old(log).sent + 1, sending := true, stuck := throws)
    {
      SendMoves(log, throws);
      var message := queue[0];
      queue := queue[1..];
      sending := true;
      if !throws {
        inFlight := Some(message);
        target := target + [message];
      }
      log := log.(sent := log.sent + 1, sending := true, stuck := throws);
    }

    /** The send callback, called by the target at any later time or from inside `send`. */
    method Callback(error: bool, replies: seq<Reply>) returns (threw: bool)
      requires Valid() && inFlight.Some?
      modifies this
      ensures Valid() && log == AfterCallback(old(log), error, replies) && threw == log.stuck
      decreases |log.accepted| - log.sent, 1
    {
      var bytes := Settle();
      if error {
        Close();
        Report(UpstreamClosed);
        return false;
      }
      delivered := delivered + bytes;
      log := log.(delivered := delivered);
      threw := Drain(replies);
    }

    /** `onFailure`. */
    method Report(code: Failure)
      requires Valid()
      modifies `failures, `log
      ensures Valid() && log == old(log).(failures := old(log).failures + [code])
    {
      failures := failures + [code];
      log := log.(failures := failures);
    }

    /** The message in flight is no longer in flight, and no longer counted unless close already forgot it. */
    method Settle() returns (bytes: nat)
      requires Valid() && inFlight.Some?
      modifies this
      ensures Valid() && log == old(log).(sending := false) && bytes == |log.accepted[log.sent - 1].data|
    {
      bytes := |inFlight.value.data|;
      sending := false;
      inFlight := None;
      if !closed {
        queuedBytes := queuedBytes - bytes;
      }
      log := log.(sending := false);
    }

    /** `thrown` is a limit error, and `threw` says that an exception of `send` comes out. */
    method Enqueue(m: Message, buffered: nat, replies: seq<Reply>) returns (thrown: Option<Failure>, threw: bool)
      requires Valid()
      modifies this
      ensures Valid() && log == AfterEnqueue(old(log), limits, m, buffered, replies)
      ensures thrown == if old(closed) then None else Refusal(old(log), limits, m, buffered)
      ensures threw == (log.stuck && !old(log).stuck)
    {
      thrown, threw := None, false;
      if closed {
        return;
      }
      if |m.data| > limits.maxMessageBytes {
        thrown := Some(MessageTooLarge);
      } else if queuedBytes + |m.data| > limits.maxQueuedBytes || buffered + |m.data| > limits.maxQueuedBytes {
        thrown := Some(BackpressureLimit);
      }
      if thrown.Some? {
        Report(thrown.value);
      } else {
        Push(m);
        threw := Drain(replies);
      }
    }

    /** A message that passed both limits joins the queue; one that finds the pump busy pauses the source. */
    method Push(m: Message)
      requires Valid() && !closed
      modifies this
      ensures Valid()
      ensures log == old(log).(accepted := old(log).accepted + [m],
                               paused := old(log).paused || old(log).sending || old(log).sent < |old(log).accepted|)
    {
      ghost var log' := log.(accepted := log.accepted + [m], paused := log.paused || log.sending || log.sent < |log.accepted|);
      AcceptAdds(log, log', m);
      queue := queue + [m];
      queuedBytes := queuedBytes + |m.data|;
      if (sending || |queue| > 1) && !paused {
        sourcePaused := true;
        paused := true;
      }
      log := log';
    }
  }

  // ---------------------------------------------------------------------------------------------
  // Every run

  datatype Action =
    | Offer(m: Message, buffered: nat, replies: seq<Reply>)
    | CallBack(error: bool, replies: seq<Reply>)
    | Shut

  /** A callback comes only while a send waits for it. */
  function Act(l: Log, limits: Limits, a: Action): (r: Log)
    requires InRange(l)
    ensures InRange(r)
  {
    match a
    case Offer(m, buffered, replies) => AfterEnqueue(l, limits, m, buffered, replies)
    case CallBack(error, replies) => if l.sending && !l.stuck then AfterCallback(l, error, replies) else l
    case Shut => AfterClose(l)
  }

  function After(l: Log, limits: Limits, acts: seq<Action>): (r: Log)
    requires InRange(l)
    ensures InRange(r)
    decreases acts
  {
    if acts == [] then l else After(Act(l, limits, acts[0]), limits, acts[1..])
  }

  /**
   * While open, every accepted byte is either delivered or unsettled, unsettled bytes fit the limit, and
   * waiting messages imply a busy target and a paused source. A paused source means an open, busy pump.
   */
  ghost predicate Flows(l: Log, limits: Limits) {
    && InRange(l)
    && (!l.closed ==> l.delivered == Bytes(l.accepted, Settled(l)) && Unsettled(l) <= limits.maxQueuedBytes)
    && (!l.closed && l.sent < |l.accepted| ==> l.sending && l.paused)
    && (l.paused ==> !l.closed && l.sending)
  }

  /** The same, except that the pump is between two sends: nothing is in flight and it has yet to go on. */
  ghost predicate Between(l: Log, limits: Limits) {
    && InRange(l) && !l.closed && !l.sending
    && l.delivered == Bytes(l.accepted, Settled(l)) && Unsettled(l) <= limits.maxQueuedBytes
    && (l.sent + 1 < |l.accepted| ==> l.paused)
  }

  lemma {:induction false} DrainFlows(l: Log, limits: Limits, replies: seq<Reply>)
    requires Between(l, limits)
    ensures Flows(AfterDrain(l, replies), limits)
    decreases |l.accepted| - l.sent, 0
  {
    if l.sent < |l.accepted| {
      var busy := l.(sent := l.sent + 1, sending := true);
      assert Flows(busy, limits);
      if replies != [] && !replies[0].Late? && !replies[0].Throws? {
        CallbackFlows(busy, limits, replies[0].SyncError?, replies[1..]);
      }
    }
  }

  lemma {:induction false} CallbackFlows(l: Log, limits: Limits, error: bool, replies: seq<Reply>)
    requires Flows(l, limits) && l.sending && !l.stuck
    ensures Flows(AfterCallback(l, error, replies), limits)
    decreases |l.accepted| - l.sent, 1
  {
    if !l.closed && !error {
      DrainFlows(l.(sending := false, delivered := l.delivered + |l.accepted[l.sent - 1].data|), limits, replies);
    }
  }

  lemma EnqueueFlows(l: Log, limits: Limits, m: Message, buffered: nat, replies: seq<Reply>)
    requires Flows(l, limits)
    ensures Flows(AfterEnqueue(l, limits, m, buffered, replies), limits)
  {
    if !l.closed && Refusal(l, limits, m, buffered).None? {
      var l' := l.(accepted := l.accepted + [m], paused := l.paused || l.sending || l.sent < |l.accepted|);
      AcceptAdds(l, l', m);
      if !l.sending {
        DrainFlows(l', limits, replies);
      }
    }
  }

  /** Once a `send` threw, nothing is sent or delivered any more, whatever comes; only closing resumes the source. */
  lemma {:induction false} ThrowWedges(l: Log, limits: Limits, acts: seq<Action>)
    requires InRange(l) && l.stuck
    ensures var r := After(l, limits, acts);
            && r.stuck && r.sent == l.sent && r.delivered == l.delivered && (l.closed ==> r.closed)
            && (l.paused && !r.closed ==> r.paused)
    decreases acts
  {
    if acts != [] {
      ThrowWedges(Act(l, limits, acts[0]), limits, acts[1..]);
    }
  }

  /** Messages already accepted stay, and messages already handed over stay so: the target gets them in order. */
  ghost predicate Extends(l: Log, l': Log) {
    l.accepted <= l'.accepted && l.sent <= l'.sent && l.delivered <= l'.delivered && (l.closed ==> l'.closed && l'.sent == l.sent)
  }

  lemma {:induction false} DrainExtends(l: Log, replies: seq<Reply>)
    requires InRange(l)
    ensures Extends(l, AfterDrain(l, replies)) && AfterDrain(l, replies).accepted == l.accepted
    decreases |l.accepted| - l.sent, 0
  {
    if !l.closed && !l.sending && l.sent < |l.accepted| && replies != [] && !replies[0].Late? && !replies[0].Throws? {
      CallbackExtends(l.(sent := l.sent + 1, sending := true), replies[0].SyncError?, replies[1..]);
    }
  }

  lemma {:induction false} CallbackExtends(l: Log, error: bool, replies: seq<Reply>)
    requires InRange(l) && l.sending && !l.stuck
    ensures Extends(l, AfterCallback(l, error, replies)) && AfterCallback(l, error, replies).accepted == l.accepted
    decreases |l.accepted| - l.sent, 1
  {
    if !error {
      DrainExtends(l.(sending := false, delivered := l.delivered + |l.accepted[l.sent - 1].data|), replies);
    }
  }

  lemma ActFlows(l: Log, limits: Limits, a: Action)
    requires Flows(l, limits)
    ensures Flows(Act(l, limits, a), limits) && Extends(l, Act(l, limits, a))
  {
    match a
    case Offer(m, buffered, replies) =>
      EnqueueFlows(l, limits, m, buffered, replies);
      if !l.closed && Refusal(l, limits, m, buffered).None? {
        DrainExtends(l.(accepted := l.accepted + [m], paused := l.paused || l.sending || l.sent < |l.accepted|), replies);
      }
    case CallBack(error, replies) =>
      if l.sending && !l.stuck {
        CallbackFlows(l, limits, error, replies);
        CallbackExtends(l, error, replies);
      }
    case Shut =>
  }

  /** The laws hold after every run, and along every run. */
  lemma {:induction false} RunFlows(l: Log, limits: Limits, acts: seq<Action>)
    requires Flows(l, limits)
    ensures Flows(After(l, limits, acts), limits) && Extends(l, After(l, limits, acts))
    decreases acts
  {
    if acts != [] {
      ActFlows(l, limits, acts[0]);
      RunFlows(Act(l, limits, acts[0]), limits, acts[1..]);
    }
  }

  /** From a new pump: conservation, the limit, back-pressure and no stuck pause, spelled out. */
  lemma {:induction false} PumpConserves(limits: Limits, acts: seq<Action>)
    ensures var l := After(IDLE, limits, acts);
            && (!l.closed ==> Bytes(l.accepted, |l.accepted|) == l.delivered + Unsettled(l))
            && (!l.closed ==> Unsettled(l) <= limits.maxQueuedBytes)
            && (!l.closed && l.sent < |l.accepted| ==> l.paused)
            && (l.closed || !l.sending ==> !l.paused)
  {
    RunFlows(IDLE, limits, acts);
  }

  lemma {:induction false} BytesGrow(s: seq<Message>, m: nat, n: nat)
    requires m <= n <= |s|
    ensures Bytes(s, m) <= Bytes(s, n)
  {
    if m < n {
      BytesGrow(s, m, n - 1);
    }
  }

  /** What an action adds to the accepted messages: one that is offered to an open pump and fits both limits. */
  function Admitted(l: Log, limits: Limits, a: Action): seq<Message>
    requires InRange(l)
  {
    if a.Offer? && !l.closed && Refusal(l, limits, a.m, a.buffered).None? then [a.m] else []
  }

  lemma {:induction false} ActAdmits(l: Log, limits: Limits, a: Action)
    requires InRange(l)
    ensures Act(l, limits, a).accepted == l.accepted + Admitted(l, limits, a)
  {
    if Admitted(l, limits, a) != [] {
      DrainExtends(l.(accepted := l.accepted + [a.m], paused := l.paused || l.sending || l.sent < |l.accepted|), a.replies);
    } else if a.CallBack? && l.sending && !l.stuck {
      CallbackExtends(l, a.error, a.replies);
    }
  }

  /** One action on a pump, and the message it made the pump accept, if any. */
  method Perform(p: Pump, a: Action) returns (admitted: seq<Message>)
    requires p.Valid()
    modifies p
    ensures p.Valid() && p.log == Act(old(p.log), p.limits, a)
    ensures admitted == Admitted(old(p.log), p.limits, a)
  {
    admitted := [];
    match a
    case Offer(m, buffered, replies) =>
      var open := !p.closed;
      var thrown, threw := p.Enqueue(m, buffered, replies);
      if open && thrown.None? {
        admitted := [m];
      }
    case CallBack(error, replies) =>
      if p.inFlight.Some? {
        var threw := p.Callback(error, replies);
      }
    case Shut =>
      p.Close();
  }

  /** The last `send` threw, and no callback will come. */
  predicate Wedged(p: Pump)
    reads p
  {
    p.sending && p.inFlight.None?
  }

  /**
   * A pump seen from outside: the target gets the accepted messages in their order, and while the pump is open
   * every byte is delivered or counted and no message is lost, except one whose `send` threw. Waiting messages
   * pause the source, an idle or closed pump does not.
   */
  ghost predicate Balanced(p: Pump, accepted: seq<Message>)
    reads p
  {
    && p.target <= accepted
    && (if p.closed then p.queue == [] && p.queuedBytes == 0 else
          && (if Wedged(p) then |p.target| < |accepted| && p.queue == accepted[|p.target| + 1..] else accepted == p.target + p.queue)
          && Bytes(accepted, |accepted|) == p.delivered + p.queuedBytes
          && 0 <= p.queuedBytes <= p.limits.maxQueuedBytes)
    && (p.queue != [] ==> p.sending && p.sourcePaused)
    && (p.sourcePaused ==> !p.closed && p.sending)
  }

  lemma FlowsBalances(p: Pump)
    requires p.Valid() && Flows(p.log, p.limits)
    ensures Balanced(p, p.log.accepted)
  {
    BytesGrow(p.log.accepted, Settled(p.log), |p.log.accepted|);
  }

  /** Any run of a new pump: it ends balanced, and no accepted message is over the limit. */
  method RunPump(limits: Limits, acts: seq<Action>) returns (p: Pump, accepted: seq<Message>)
    ensures p.Valid() && p.limits == limits && p.log == After(IDLE, limits, acts)
    ensures Balanced(p, accepted) && forall m :: m in accepted ==> |m.data| <= limits.maxMessageBytes
  {
    p := new Pump(limits);
    accepted := [];
    for i := 0 to |acts|
      invariant fresh(p) && p.Valid() && p.limits == limits
      invariant After(p.log, limits, acts[i..]) == After(IDLE, limits, acts)
      invariant Flows(p.log, limits) && accepted == p.log.accepted
      invariant forall m :: m in accepted ==> |m.data| <= limits.maxMessageBytes
    {
      ActFlows(p.log, limits, acts[i]);
      ActAdmits(p.log, limits, acts[i]);
      assert acts[i..][0] == acts[i] && acts[i..][1..] == acts[i + 1..];
      var admitted := Perform(p, acts[i]);
      accepted := accepted + admitted;
    }
    FlowsBalances(p);
  }
}
