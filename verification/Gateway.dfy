/** The provider gateway as it runs, with the mock provider it talks to. */
module Gateway {
  import opened Domain
  import opened Store
  import opened Services
  import opened System

  // ----- the mock provider

  datatype ErrorCode = TicketExpired | ProviderBusy | RiskEngineTimeout | InvalidTicket

  datatype SendRoll = TransportFailure | AckFailure(code: ErrorCode) | Success

  // The return value or exception of send.
  datatype SendResult = AckOk(ackOf: Id) | AckError(ackOf: Id, code: ErrorCode) | ConnectionError

  datatype Item = Frame(message: Message) | Closed

  // The provider's side of the channel. A background task is named by the frame it answers.
  datatype Channel = Channel(inbound: seq<Item>, tasks: multiset<Message>)

  datatype Op =
    | Sending(m: Message, roll: SendRoll)
    | Delivering(m: Message, action: Action, id: Id)
    | Stopping

  predicate Possible(c: Channel, op: Op) {
    op.Delivering? ==> op.m in c.tasks && HasReply(op.m.body)
  }

  function AfterOp(c: Channel, op: Op): Channel
    requires Possible(c, op)
  {
    match op
    case Sending(m, roll) => if roll.Success? && HasReply(m.body) then c.(tasks := c.tasks + multiset{m}) else c
    case Delivering(m, action, id) => Channel(c.inbound + [Frame(Reply(m, action, id))], c.tasks - multiset{m})
    case Stopping => Channel(c.inbound + [Closed], multiset{})
  }

  class MockProviderClient {
    var inbound: seq<Item>
    var tasks: multiset<Message>
    var connected: bool

    function State(): Channel
      reads this
    {
      Channel(inbound, tasks)
    }

    constructor ()
      ensures State() == Channel([], multiset{}) && !connected
    {
      inbound, tasks, connected := [], multiset{}, false;
    }

    method Start()
      modifies this`connected
      ensures connected
    {
      connected := true;
    }

    method Stop()
      modifies this
      ensures !connected && State() == AfterOp(old(State()), Stopping)
    {
      connected := false;
      tasks := multiset{};
      inbound := inbound + [Closed];
    }

    // Only an accepted frame is answered, and at most once per acceptance.
    method Send(m: Message, roll: SendRoll) returns (result: SendResult)
      modifies this`tasks
      ensures result == match roll
                        case TransportFailure => ConnectionError
                        case AckFailure(code) => AckError(m.id, code)
                        case Success => AckOk(m.id)
      ensures State() == AfterOp(old(State()), Sending(m, roll))
    {
      if roll.TransportFailure? {
        return ConnectionError;
      }
      if roll.AckFailure? {
        return AckError(m.id, roll.code);
      }
      ScheduleResponse(m);
      return AckOk(m.id);
    }

    method ScheduleResponse(m: Message)
      modifies this`tasks
      ensures tasks == if HasReply(m.body) then old(tasks) + multiset{m} else old(tasks)
    {
      if m.body.TicketBody? {
        tasks := tasks + multiset{m};
      } else if m.body.RequestCancellation? {
        tasks := tasks + multiset{m};
      }
    }

    // A background task ends; tasks end in any order.
    method Deliver(m: Message, action: Action, id: Id)
      requires m in tasks && HasReply(m.body)
      modifies this`tasks, this`inbound
      ensures State() == AfterOp(old(State()), Delivering(m, action, id))
    {
      tasks := tasks - multiset{m};
      inbound := inbound + [Frame(Reply(m, action, id))];
    }

    // __anext__ on a queue that is not empty; None ends the iteration.
    method Next() returns (m: Option<Message>)
      requires inbound != []
      modifies this`inbound
      ensures inbound == old(inbound)[1..]
      ensures m == if old(inbound)[0].Closed? then None else Some(old(inbound)[0].message)
    {
      var item := inbound[0];
      inbound := inbound[1..];
      match item
      case Closed => return None;
      case Frame(message) => return Some(message);
    }
  }

  ghost predicate History(c: Channel, ops: seq<Op>)
    decreases ops
  {
    ops == [] || (Possible(c, ops[0]) && History(AfterOp(c, ops[0]), ops[1..]))
  }

  ghost function AfterAll(c: Channel, ops: seq<Op>): Channel
    requires History(c, ops)
    decreases ops
  {
    if ops == [] then c else AfterAll(AfterOp(c, ops[0]), ops[1..])
  }

  // What one operation contributes: the frame accepted for an answer, the frame answered, the
  // answer, and the frames whose tasks a stop has cancelled.
  function AcceptedBy(op: Op): multiset<Message> {
    if op.Sending? && op.roll.Success? && HasReply(op.m.body) then multiset{op.m} else multiset{}
  }

  function AnsweredBy(op: Op): multiset<Message> {
    if op.Delivering? then multiset{op.m} else multiset{}
  }

  function RepliesBy(op: Op): seq<Message> {
    if op.Delivering? && HasReply(op.m.body) then [Reply(op.m, op.action, op.id)] else []
  }

  function DroppedBy(c: Channel, op: Op): multiset<Message> {
    if op.Stopping? then c.tasks else multiset{}
  }

  function Accepted(ops: seq<Op>): multiset<Message> {
    if ops == [] then multiset{} else AcceptedBy(ops[0]) + Accepted(ops[1..])
  }

  function Answered(ops: seq<Op>): multiset<Message> {
    if ops == [] then multiset{} else AnsweredBy(ops[0]) + Answered(ops[1..])
  }

  function Replies(ops: seq<Op>): seq<Message> {
    if ops == [] then [] else RepliesBy(ops[0]) + Replies(ops[1..])
  }

  ghost function Dropped(c: Channel, ops: seq<Op>): multiset<Message>
    requires History(c, ops)
    decreases ops
  {
    if ops == [] then multiset{} else DroppedBy(c, ops[0]) + Dropped(AfterOp(c, ops[0]), ops[1..])
  }

  function FramesOf(inbound: seq<Item>): seq<Message> {
    if inbound == [] then [] else
      var last := inbound[|inbound| - 1];
      FramesOf(inbound[..|inbound| - 1]) + if last.Frame? then [last.message] else []
  }

  lemma FramesAdded(inbound: seq<Item>, item: Item)
    ensures FramesOf(inbound + [item]) == FramesOf(inbound) + if item.Frame? then [item.message] else []
  {
    assert (inbound + [item])[..|inbound|] == inbound;
  }

  lemma TasksOfOp(c: Channel, op: Op)
    requires Possible(c, op)
    ensures c.tasks + AcceptedBy(op) == AfterOp(c, op).tasks + AnsweredBy(op) + DroppedBy(c, op)
  {
  }

  lemma FramesOfOp(c: Channel, op: Op)
    requires Possible(c, op)
    ensures FramesOf(AfterOp(c, op).inbound) == FramesOf(c.inbound) + RepliesBy(op)
  {
    hide FramesOf;
    match op
    case Sending(_, _) =>
    case Delivering(m, action, id) => FramesAdded(c.inbound, Frame(Reply(m, action, id)));
    case Stopping => FramesAdded(c.inbound, Closed);
  }

  lemma Regroup(t: multiset<Message>, t1: multiset<Message>, t2: multiset<Message>,
                a: multiset<Message>, n: multiset<Message>, d: multiset<Message>,
                a': multiset<Message>, n': multiset<Message>, d': multiset<Message>)
    requires t + a == t1 + n + d && t1 + a' == t2 + n' + d'
    ensures t + (a + a') == t2 + (n + n') + (d + d')
  {
    assert t + (a + a') == (t + a) + a';
    assert t2 + (n + n') + (d + d') == (t2 + n' + d') + n + d;
  }

  // Through any history of sends, deliveries and stops, each acceptance of a frame that is
  // answered has one task waiting, one reply, or one task that a stop has cancelled; and the
  // queue has received those replies and no other frame.
  lemma {:induction false} RepliesConserved(c: Channel, ops: seq<Op>)
    requires History(c, ops)
    ensures c.tasks + Accepted(ops) == AfterAll(c, ops).tasks + Answered(ops) + Dropped(c, ops)
    ensures FramesOf(AfterAll(c, ops).inbound) == FramesOf(c.inbound) + Replies(ops)
    decreases ops
  {
    if ops != [] {
      hide AfterOp, FramesOf, AcceptedBy, AnsweredBy, RepliesBy, DroppedBy;
      var c1 := AfterOp(c, ops[0]);
      TasksOfOp(c, ops[0]);
      FramesOfOp(c, ops[0]);
      RepliesConserved(c1, ops[1..]);
      Regroup(c.tasks, c1.tasks, AfterAll(c, ops).tasks, AcceptedBy(ops[0]), AnsweredBy(ops[0]), DroppedBy(c, ops[0]),
              Accepted(ops[1..]), Answered(ops[1..]), Dropped(c1, ops[1..]));
    }
  }

  // What the iteration over the queue yields: the frames before the first end mark.
  function Heard(inbound: seq<Item>): seq<Message> {
    if inbound == [] || inbound[0].Closed? then [] else [inbound[0].message] + Heard(inbound[1..])
  }

  lemma HeardNext(inbound: seq<Item>)
    requires inbound != []
    ensures Heard(inbound) == if inbound[0].Closed? then [] else [inbound[0].message] + Heard(inbound[1..])
  {
  }

  lemma {:induction false} HeardUpToClosed(inbound: seq<Item>, later: seq<Item>)
    ensures Heard(inbound + [Closed] + later) == Heard(inbound)
    decreases inbound
  {
    var all := inbound + [Closed] + later;
    if inbound != [] && inbound[0].Frame? {
      assert all[1..] == inbound[1..] + [Closed] + later;
      HeardUpToClosed(inbound[1..], later);
    } else {
      assert all[0].Closed?;
    }
  }

  lemma {:induction false} InboundGrows(c: Channel, ops: seq<Op>)
    requires History(c, ops)
    ensures c.inbound <= AfterAll(c, ops).inbound
    decreases ops
  {
    if ops != [] {
      InboundGrows(AfterOp(c, ops[0]), ops[1..]);
    }
  }

  // Whatever is sent or delivered after a stop, the reader hears what was in the queue before it.
  lemma StopEndsTheStream(c: Channel, ops: seq<Op>)
    requires History(AfterOp(c, Stopping), ops)
    ensures Heard(AfterAll(AfterOp(c, Stopping), ops).inbound) == Heard(c.inbound)
  {
    var stopped := AfterOp(c, Stopping);
    InboundGrows(stopped, ops);
    var after := AfterAll(stopped, ops).inbound;
    var later := after[|stopped.inbound|..];
    assert after == c.inbound + [Closed] + later;
    HeardUpToClosed(c.inbound, later);
  }

  // ----- outbound

  datatype Handling = AckFrame | ReturnFrame

  class ProviderGatewayWorker {
    const provider: MockProviderClient
    var log: seq<Event>      // what the receive loop has done, in order

    constructor (provider: MockProviderClient)
      ensures this.provider == provider && log == []
    {
      this.provider := provider;
      log := [];
    }

    // _send_to_provider: send first, then the status in a transaction of its own.
    method SendToProvider(m: Message, roll: SendRoll, session: Session, now: Time) returns (how: Handling)
      requires session.draft == session.store && session.loaded == map[]
      modifies provider`tasks, session
      ensures how == if roll.TransportFailure? then ReturnFrame else AckFrame
      ensures session.store == if roll.Success? then GatewayWrite(old(session.store), m, now) else old(session.store)
      ensures session.draft == session.store
      ensures provider.State() == AfterOp(old(provider.State()), Sending(m, roll))
    {
      var result := provider.Send(m, roll);
      match result
      case ConnectionError => return ReturnFrame;
      case AckError(_, _) => return AckFrame;
      case AckOk(_) =>
        HandleMessageSuccessAck(m, session, now);
        return AckFrame;
    }

    method HandleMessageSuccessAck(m: Message, session: Session, now: Time)
      requires session.draft == session.store && session.loaded == map[]
      modifies session
      ensures session.store == GatewayWrite(old(session.store), m, now) && session.draft == session.store
    {
      var target: Status;
      match m.body {
        case TicketBody(_, _) => target := SentToProvider;
        case ConfirmRecommendation => target := Confirmed;
        case DeclineRecommendation => target := Declined;
        case _ => return;
      }
      var found := session.Lock(m.ticket);
      if !found || Terminal(session.loaded[m.ticket])
         || (target.SentToProvider? && !session.loaded[m.ticket].New?) {
        session.Rollback();
        return;
      }
      session.ChangeStatus(m.ticket, target, now);
      if target.Confirmed? || target.Declined? {
        var row := session.draft.tickets[m.ticket];
        session.draft := session.draft.(tickets := session.draft.tickets[m.ticket :=
          row.(confirmedAt := Some(row.confirmedAt.GetOr(now)))]);
      }
      session.Commit();
    }

    // ----- inbound

    // The body of its loop: publish the frame, then ack it.
    method Forward(m: Message, outcome: PublishOutcome, ackOk: bool) returns (stop: bool)
      modifies this`log
      ensures stop <==> outcome.PublishRaised?
      ensures log == old(log) + LogEntry(m, outcome, ackOk)
    {
      if outcome.PublishOk? || outcome.accepted {
        log := log + [ForwardedFrame(m)];
      }
      if outcome.PublishRaised? {
        return true;
      }
      if ackOk {
        log := log + [AckedId(m.id)];
      }
      return false;
    }

    // _recieve_from_provider, until it stops or would wait for the provider. `outcomes` and
    // `acked` say how its publishes and acks (by position) end; a publish that raises may have
    // reached the broker.
    method ReceiveFromProvider(outcomes: nat -> PublishOutcome, acked: nat -> bool)
      returns (taken: seq<Message>, stopped: bool)
      modifies this`log, provider`inbound
      ensures old(log) <= log
      ensures Received(old(provider.inbound), provider.inbound, taken, stopped, log[|old(log)|..], outcomes, acked)
    {
      hide Receiving, Received, LogEntry;
      taken, stopped := [], false;
      ghost var done: seq<Event> := [];
      ReceivingNone(provider.inbound, outcomes, acked);
      while provider.inbound != []
        invariant log == old(log) + done
        invariant Receiving(old(provider.inbound), provider.inbound, taken, done, outcomes, acked)
        decreases |provider.inbound|
      {
        ReceivingOne(old(provider.inbound), provider.inbound, taken, done, outcomes, acked);
        var message := provider.Next();
        if message.None? {
          assert log[|old(log)|..] == done;
          return;
        }
        stopped := Forward(message.value, outcomes(|taken|), acked(|taken|));
        done := done + LogEntry(message.value, outcomes(|taken|), acked(|taken|));
        taken := taken + [message.value];
        if stopped {
          assert log[|old(log)|..] == done;
          return;
        }
      }
      ReceivingAll(old(provider.inbound), taken, done, outcomes, acked);
      assert log[|old(log)|..] == done;
    }
  }

  datatype Event = ForwardedFrame(message: Message) | AckedId(id: Id)

  // The frames accepted on provider.in, in order.
  ghost function Forwarded(log: seq<Event>): seq<Message> {
    if log == [] then [] else
      var last := log[|log| - 1];
      Forwarded(log[..|log| - 1]) + if last.ForwardedFrame? then [last.message] else []
  }

  // Every frame acked to the provider had been accepted on provider.in first.
  ghost predicate AckedAfterForwarded(log: seq<Event>) {
    forall j | 0 <= j < |log| && log[j].AckedId? ::
      exists i :: 0 <= i < j && log[i].ForwardedFrame? && log[i].message.id == log[j].id
  }

  // Exactly the frames whose publish returned and whose ack went through are acked.
  ghost predicate AcksExactly(log: seq<Event>, taken: seq<Message>, outcomes: nat -> PublishOutcome, acked: nat -> bool) {
    forall id :: AckedId(id) in log <==>
      exists i :: 0 <= i < |taken| && outcomes(i).PublishOk? && acked(i) && taken[i].id == id
  }

  // What the loop does about one frame.
  function LogEntry(m: Message, outcome: PublishOutcome, ackOk: bool): seq<Event> {
    (if outcome.PublishOk? || outcome.accepted then [ForwardedFrame(m)] else [])
    + if outcome.PublishOk? && ackOk then [AckedId(m.id)] else []
  }

  lemma LogNone(outcomes: nat -> PublishOutcome, acked: nat -> bool)
    ensures Forwarded([]) == [] && AckedAfterForwarded([]) && AcksExactly([], [], outcomes, acked)
  {
  }

  lemma ForwardedOne(log: seq<Event>, event: Event)
    ensures Forwarded(log + [event]) == Forwarded(log) + if event.ForwardedFrame? then [event.message] else []
  {
    assert (log + [event])[..|log|] == log;
  }

  lemma LogOne(log: seq<Event>, taken: seq<Message>, m: Message, outcomes: nat -> PublishOutcome, acked: nat -> bool)
    requires AckedAfterForwarded(log) && AcksExactly(log, taken, outcomes, acked)
    ensures var i := |taken|;
            var log' := log + LogEntry(m, outcomes(i), acked(i));
            && Forwarded(log') == Forwarded(log) + (if outcomes(i).PublishOk? || outcomes(i).accepted then [m] else [])
            && AckedAfterForwarded(log') && AcksExactly(log', taken + [m], outcomes, acked)
  {
    var i := |taken|;
    var one := log + if outcomes(i).PublishOk? || outcomes(i).accepted then [ForwardedFrame(m)] else [];
    var log' := log + LogEntry(m, outcomes(i), acked(i));
    assert log' == one + if outcomes(i).PublishOk? && acked(i) then [AckedId(m.id)] else [];
    ForwardedOne(log, ForwardedFrame(m));
    ForwardedOne(one, AckedId(m.id));
    assert log + [] == log && one + [] == one;
    assert forall j | 0 <= j < |log| :: log'[j] == log[j];
    AcksOne(log, log', taken, m, outcomes, acked);
  }

  lemma AcksOne(log: seq<Event>, log': seq<Event>, taken: seq<Message>, m: Message,
                outcomes: nat -> PublishOutcome, acked: nat -> bool)
    requires AcksExactly(log, taken, outcomes, acked) && log' == log + LogEntry(m, outcomes(|taken|), acked(|taken|))
    ensures AcksExactly(log', taken + [m], outcomes, acked)
  {
    var taken' := taken + [m];
    forall id ensures AckedId(id) in log' <==>
      exists i :: 0 <= i < |taken'| && outcomes(i).PublishOk? && acked(i) && taken'[i].id == id
    {
      if i :| 0 <= i < |taken| && outcomes(i).PublishOk? && acked(i) && taken[i].id == id {
        assert taken'[i].id == id;
      }
      assert taken'[|taken|] == m;
    }
  }

  // What the loop has done so far, no publish having raised.
  ghost predicate Receiving(before: seq<Item>, inbound: seq<Item>, taken: seq<Message>, log: seq<Event>,
                            outcomes: nat -> PublishOutcome, acked: nat -> bool) {
    && |taken| <= |before| && inbound == before[|taken|..] && Heard(before) == taken + Heard(inbound)
    && (forall i | 0 <= i < |taken| :: outcomes(i).PublishOk?)
    && Forwarded(log) == taken && AckedAfterForwarded(log) && AcksExactly(log, taken, outcomes, acked)
  }

  // What it has done when it ends: it has taken all that the stream yields, or it has stopped at
  // the first publish that raised. The broker has the taken frames in order, but for that last
  // one if its publish did not reach the broker; every ack came after its frame was forwarded.
  ghost predicate Received(before: seq<Item>, inbound: seq<Item>, taken: seq<Message>, stopped: bool, log: seq<Event>,
                           outcomes: nat -> PublishOutcome, acked: nat -> bool) {
    && taken <= Heard(before) && |taken| <= |before|
    && (!stopped ==> taken == Heard(before) && forall i | 0 <= i < |taken| :: outcomes(i).PublishOk?)
    && (stopped ==> taken != [] && inbound == before[|taken|..] && outcomes(|taken| - 1).PublishRaised?
                    && forall i | 0 <= i < |taken| - 1 :: outcomes(i).PublishOk?)
    && Forwarded(log) == (if stopped && !outcomes(|taken| - 1).accepted then taken[..|taken| - 1] else taken)
    && AckedAfterForwarded(log) && AcksExactly(log, taken, outcomes, acked)
  }

  lemma ReceivingNone(before: seq<Item>, outcomes: nat -> PublishOutcome, acked: nat -> bool)
    ensures Receiving(before, before, [], [], outcomes, acked)
  {
    LogNone(outcomes, acked);
    assert before[0..] == before && [] + Heard(before) == Heard(before);
  }

  lemma ReceivingAll(before: seq<Item>, taken: seq<Message>, log: seq<Event>, outcomes: nat -> PublishOutcome,
                     acked: nat -> bool)
    requires Receiving(before, [], taken, log, outcomes, acked)
    ensures Received(before, [], taken, false, log, outcomes, acked)
  {
    hide Forwarded, AckedAfterForwarded, AcksExactly;
    assert taken + Heard([]) == taken;
  }

  // The next item ends the stream, or is one more frame, whose publish returns or raises.
  lemma ReceivingOne(before: seq<Item>, inbound: seq<Item>, taken: seq<Message>, log: seq<Event>,
                     outcomes: nat -> PublishOutcome, acked: nat -> bool)
    requires inbound != [] && Receiving(before, inbound, taken, log, outcomes, acked)
    ensures match inbound[0]
            case Closed => Received(before, inbound[1..], taken, false, log, outcomes, acked)
            case Frame(m) =>
              var log' := log + LogEntry(m, outcomes(|taken|), acked(|taken|));
              if outcomes(|taken|).PublishOk?
              then Receiving(before, inbound[1..], taken + [m], log', outcomes, acked)
              else Received(before, inbound[1..], taken + [m], true, log', outcomes, acked)
  {
    hide Forwarded, AckedAfterForwarded, AcksExactly, LogEntry, Heard;
    HeardNext(inbound);
    match inbound[0]
    case Closed => assert taken + [] == taken;
    case Frame(m) =>
      LogOne(log, taken, m, outcomes, acked);
      assert taken + ([m] + Heard(inbound[1..])) == (taken + [m]) + Heard(inbound[1..]);
      assert (taken + [m])[..|taken|] == taken && taken + [] == taken;
      assert inbound[1..] == before[|taken| + 1..];
  }
}
