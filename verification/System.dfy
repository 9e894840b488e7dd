/** The five processes, the broker and the provider as one labelled transition system. */
module System {
  import opened Domain
  import opened Store

  datatype Config = Config(
    outboxBatch: nat,
    deliveryLimit: nat,
    stuckAfter: nat,
    stuckBatch: nat,
    // Does the second locked read of a session see the current row, or the status it loaded before?
    freshReread: bool)
  {
    predicate Sane() {
      outboxBatch > 0 && stuckBatch > 0
    }
  }

  // One run of create_ticket. `drawn` is the uuid4 drawn for the new ticket.
  datatype Call = Call(key: string, bet: Bet, drawn: Id, phase: CallPhase)
  datatype CallPhase = Missed | Conflicted | Returned(ticket: Id, created: bool) | Raised

  // One live run of send_batch. Its transaction holds all of `rows`; those before `next`
  // have been handed to the broker, with the outcome the last two fields record.
  datatype Batch = Batch(rows: seq<nat>, next: nat, published: set<nat>, failed: map<nat, string>)

  // A frame the broker has accepted on provider.out, wherever it now is.
  datatype OutCopy = OutCopy(
    event: nat, message: Message, publishedAt: Time, returned: nat, phase: OutPhase,
    acceptedAt: Option<Time>)
  datatype OutPhase = Queued | WithGateway | Sent | Recorded | OutAcked | OutDead

  datatype SendAnswer = SendOk(action: Action) | SendRejected

  // A frame the provider has issued; `cause` is the outbound copy it answers.
  datatype Issue = Issue(message: Message, cause: Id)

  // A frame the broker has accepted on provider.in.
  datatype InCopy = InCopy(message: Message, returned: nat, phase: InPhase)
  datatype InPhase =
    | Arrived | WithConsumer
    | CallingMonolith | MonolithOk | MonolithFailed   // between the two transactions
    | Handled | InAcked | InDead

  predicate Busy(p: InPhase) {
    p.CallingMonolith? || p.MonolithOk? || p.MonolithFailed?
  }

  // History of one claimed recommendation.
  datatype Settlement = Settlement(
    claimedAt: Time, calls: nat, asked: Option<Action>, okAt: Option<Time>, stage: Stage)
  datatype Stage = InFlight(copy: Id) | AckQueued(row: nat) | CancelQueued | Skipped | Crashed

  datatype Loaded = Loaded(ticket: Id, status: Status)

  datatype World = World(
    now: Time,
    db: Db,
    calls: map<Id, Call>,
    batches: map<Id, Batch>,
    outq: map<Id, OutCopy>,
    issued: map<Id, Issue>,
    inq: map<Id, InCopy>,
    ticks: map<Id, seq<Loaded>>,
    // History only: no step is enabled or disabled by what follows.
    settlements: map<Id, Settlement>,
    births: map<Id, nat>,          // the TICKET row of each ticket
    causes: map<nat, Id>,          // the recommendation behind each acknowledgement row
    rolledBack: multiset<nat>,     // events published by a send_batch that did not commit
    unconfirmed: multiset<nat>)    // events accepted by a publish that raised

  datatype Step =
    | Wait(extra: nat)
    | CreateLookup(k: Id, key: string, bet: Bet, found: Option<Id>)
    | CreateInsert(k: Id)
    | CreateReread(k: Id, found: Option<Id>)
    | Fetch(p: Id)
    | Publish(p: Id, outcome: PublishOutcome)
    | CommitBatch(p: Id)
    | AbortBatch(p: Id)
    | GatewayTake(c: Id)
    | GatewaySend(c: Id, answer: SendAnswer)
    | GatewayRecord(c: Id)
    | GatewayAck(c: Id)
    | OutReturn(c: Id)
    | Forward(f: Id)
    | ConsumerTake(c: Id)
    | ConsumerHandle(c: Id)
    | CallMonolith(c: Id, action: Action, ok: bool)   // not ok: the call has raised, be it MonolithError or not
    | ConsumerSettle(c: Id)
    | ConsumerCancel(c: Id, why: string)
    | ConsumerAck(c: Id)
    | InReturn(c: Id)
    | TickStart(r: Id, batch: seq<Id>, why: string)
    | TickNext(r: Id, why: string)
    | TickSkip(r: Id)
    | TickStop(r: Id)

  const INIT: World := World(0, Db(map[], [], map[]), map[], map[], map[], map[], map[], map[],
                             map[], map[], map[], multiset{}, multiset{})

  // ----- parts of steps

  ghost function Locked(batches: map<Id, Batch>): set<nat> {
    set p, e | p in batches && e in batches[p].rows :: e
  }

  // A frame goes back to its queue when its handler raised or died, and to the
  // dead-letter queue once it has used up its deliveries.
  function ReturnedOut(cfg: Config, q: OutCopy): OutCopy {
    if q.returned < cfg.deliveryLimit then q.(returned := q.returned + 1, phase := Queued) else q.(phase := OutDead)
  }

  function ReturnedIn(cfg: Config, q: InCopy): InCopy {
    if q.returned < cfg.deliveryLimit then q.(returned := q.returned + 1, phase := Arrived) else q.(phase := InDead)
  }

  // The frames the mock provider answers, and its reply.
  predicate HasReply(b: Body) {
    b.TicketBody? || b.RequestCancellation?
  }

  function Reply(m: Message, action: Action, id: Id): Message
    requires HasReply(m.body)
  {
    Message(id, m.ticket,
            if m.body.TicketBody? then Recommendation(action, Some("mock risk engine decision")) else CancellationApplied)
  }

  // The status a session works with when it locks a row it has loaded before.
  function Seen(cfg: Config, db: Db, t: Id, loaded: Status): Status {
    if cfg.freshReread && t in db.tickets then db.tickets[t].status else loaded
  }

  // What the consumer's session has loaded when it comes back from the monolith.
  function SeenBy(cfg: Config, db: Db, m: Message): Status
    requires m.body.Recommendation?
  {
    Seen(cfg, db, m.ticket, Recommended(m.body.action))
  }

  function LoadedBatch(tickets: map<Id, Ticket>, batch: seq<Id>): seq<Loaded>
    requires forall i | 0 <= i < |batch| :: batch[i] in tickets
  {
    seq(|batch|, i requires 0 <= i < |batch| => Loaded(batch[i], tickets[batch[i]].status))
  }

  ghost predicate OutIn(w: World, c: Id, phase: OutPhase) {
    c in w.outq && w.outq[c].phase == phase
  }

  ghost predicate InIn(w: World, c: Id, phase: InPhase) {
    c in w.inq && w.inq[c].phase == phase
  }

  // ----- which steps can happen, and what they do

  ghost predicate Enabled(cfg: Config, w: World, s: Step) {
    match s
    case Wait(_) => true
    case CreateLookup(k, key, bet, found) => k !in w.calls && Lookup(w.db.tickets, key, found)
    case CreateInsert(k) => k in w.calls && w.calls[k].phase.Missed?
    case CreateReread(k, found) =>
      k in w.calls && w.calls[k].phase.Conflicted? && Lookup(w.db.tickets, w.calls[k].key, found)
    case Fetch(p) =>
      p !in w.batches && FetchPending(w.db.outbox, Locked(w.batches), 0, cfg.outboxBatch) != []
    case Publish(p, _) =>
      p in w.batches && w.batches[p].next < |w.batches[p].rows| &&
      w.batches[p].rows[w.batches[p].next] < |w.db.outbox|
    case CommitBatch(p) => p in w.batches && w.batches[p].next == |w.batches[p].rows|
    case AbortBatch(p) => p in w.batches
    case GatewayTake(c) => OutIn(w, c, Queued)
    case GatewaySend(c, _) => OutIn(w, c, WithGateway)
    case GatewayRecord(c) => OutIn(w, c, Sent)
    case GatewayAck(c) => OutIn(w, c, Recorded)
    case OutReturn(c) => OutIn(w, c, WithGateway) || OutIn(w, c, Sent) || OutIn(w, c, Recorded)
    case Forward(f) => f in w.issued
    case ConsumerTake(c) => InIn(w, c, Arrived)
    case ConsumerHandle(c) => InIn(w, c, WithConsumer)
    case CallMonolith(c, action, _) =>
      InIn(w, c, CallingMonolith) && w.inq[c].message.body.Recommendation? && action == w.inq[c].message.body.action
    case ConsumerSettle(c) => InIn(w, c, MonolithOk) && w.inq[c].message.body.Recommendation?
    case ConsumerCancel(c, _) => InIn(w, c, MonolithFailed) && w.inq[c].message.body.Recommendation?
    case ConsumerAck(c) => InIn(w, c, Handled)
    case InReturn(c) => c in w.inq && (Busy(w.inq[c].phase) || w.inq[c].phase.WithConsumer? || w.inq[c].phase.Handled?)
    case TickStart(r, batch, _) =>
      r !in w.ticks && batch != [] && FindStuck(w.db.tickets, w.now - cfg.stuckAfter, cfg.stuckBatch, batch)
    case TickNext(r, _) => r in w.ticks && w.ticks[r] != []
    case TickSkip(r) => r in w.ticks && w.ticks[r] != []
    case TickStop(r) => r in w.ticks
  }

  // ----- what a step does, one function per part of the world

  ghost function NextDb(cfg: Config, w: World, s: Step): Db
    requires Enabled(cfg, w, s)
  {
    match s
    case CreateInsert(k) =>
      var call := w.calls[k];
      if Refused(w.db.tickets, call.key, call.bet) then w.db
      else InsertTicket(w.db, call.drawn, call.key, call.bet, w.now, w.now)
    case CommitBatch(p) =>
      w.db.(outbox := Marked(w.db.outbox, w.batches[p].published, w.batches[p].failed, w.now))
    case GatewayRecord(c) => GatewayWrite(w.db, w.outq[c].message, w.now)
    case ConsumerHandle(c) => FirstTransaction(w.db, w.inq[c].message, w.now)
    case ConsumerSettle(c) =>
      var m := w.inq[c].message;
      Settle(w.db, m.ticket, m.body.action, SeenBy(cfg, w.db, m), w.now, w.now)
    case ConsumerCancel(c, why) =>
      var m := w.inq[c].message;
      RequestCancel(w.db, m.ticket, SeenBy(cfg, w.db, m), why, w.now, w.now)
    case TickStart(r, batch, why) =>
      RequestCancel(w.db, batch[0], w.db.tickets[batch[0]].status, why, w.now, w.now)
    case TickNext(r, why) =>
      var head := w.ticks[r][0];
      RequestCancel(w.db, head.ticket, Seen(cfg, w.db, head.ticket, head.status), why, w.now, w.now)
    case _ => w.db
  }

  ghost function NextCalls(w: World, s: Step): map<Id, Call> {
    match s
    case CreateLookup(k, key, bet, found) =>
      w.calls[k := Call(key, bet, w.now, if found.Some? then Returned(found.value, false) else Missed)]
    case CreateInsert(k) =>
      if k !in w.calls then w.calls
      else if Refused(w.db.tickets, w.calls[k].key, w.calls[k].bet) then w.calls[k := w.calls[k].(phase := Conflicted)]
      else w.calls[k := w.calls[k].(phase := Returned(w.calls[k].drawn, true))]
    case CreateReread(k, found) =>
      if k !in w.calls then w.calls
      else w.calls[k := w.calls[k].(phase := if found.Some? then Returned(found.value, false) else Raised)]
    case _ => w.calls
  }

  ghost function NextBatches(cfg: Config, w: World, s: Step): map<Id, Batch>
    requires Enabled(cfg, w, s)
  {
    match s
    case Fetch(p) =>
      w.batches[p := Batch(FetchPending(w.db.outbox, Locked(w.batches), 0, cfg.outboxBatch), 0, {}, map[])]
    case Publish(p, outcome) =>
      var b := w.batches[p];
      var e := b.rows[b.next];
      w.batches[p :=
        if outcome.PublishOk? then b.(next := b.next + 1, published := b.published + {e})
        else b.(next := b.next + 1, failed := b.failed[e := outcome.error])]
    case CommitBatch(p) => w.batches - {p}
    case AbortBatch(p) => w.batches - {p}
    case _ => w.batches
  }

  // The event a publish step is about.
  function Head(w: World, p: Id): nat
    requires p in w.batches && w.batches[p].next < |w.batches[p].rows|
  {
    w.batches[p].rows[w.batches[p].next]
  }

  ghost function NextOutq(cfg: Config, w: World, s: Step): map<Id, OutCopy>
    requires Enabled(cfg, w, s)
  {
    match s
    case Publish(p, outcome) =>
      if outcome.PublishOk? || outcome.accepted
      then w.outq[w.now := OutCopy(Head(w, p), w.db.outbox[Head(w, p)].message, w.now, 0, Queued, None)]
      else w.outq
    case GatewayTake(c) => w.outq[c := w.outq[c].(phase := WithGateway)]
    case GatewaySend(c, answer) =>
      var q := w.outq[c];
      w.outq[c := if answer.SendOk? then q.(phase := Sent, acceptedAt := Some(q.acceptedAt.GetOr(w.now)))
                  else q.(phase := OutAcked)]
    case GatewayRecord(c) => w.outq[c := w.outq[c].(phase := Recorded)]
    case GatewayAck(c) => w.outq[c := w.outq[c].(phase := OutAcked)]
    case OutReturn(c) => w.outq[c := ReturnedOut(cfg, w.outq[c])]
    case _ => w.outq
  }

  ghost function NextIssued(w: World, s: Step): map<Id, Issue> {
    match s
    case GatewaySend(c, SendOk(action)) =>
      if c in w.outq && HasReply(w.outq[c].message.body)
      then w.issued[w.now := Issue(Reply(w.outq[c].message, action, w.now), c)] else w.issued
    case _ => w.issued
  }

  ghost function NextInq(cfg: Config, w: World, s: Step): map<Id, InCopy>
    requires Enabled(cfg, w, s)
  {
    match s
    case Forward(f) => w.inq[w.now := InCopy(w.issued[f].message, 0, Arrived)]
    case ConsumerTake(c) => w.inq[c := w.inq[c].(phase := WithConsumer)]
    case ConsumerHandle(c) =>
      w.inq[c := w.inq[c].(phase := if StartsSettlement(w.db, w.inq[c].message) then CallingMonolith else Handled)]
    case CallMonolith(c, _, ok) => w.inq[c := w.inq[c].(phase := if ok then MonolithOk else MonolithFailed)]
    case ConsumerSettle(c) => w.inq[c := w.inq[c].(phase := Handled)]
    case ConsumerCancel(c, _) => w.inq[c := w.inq[c].(phase := Handled)]
    case ConsumerAck(c) => w.inq[c := w.inq[c].(phase := InAcked)]
    case InReturn(c) => w.inq[c := ReturnedIn(cfg, w.inq[c])]
    case _ => w.inq
  }

  ghost function NextTicks(cfg: Config, w: World, s: Step): map<Id, seq<Loaded>>
    requires Enabled(cfg, w, s)
  {
    match s
    case TickStart(r, batch, _) => w.ticks[r := LoadedBatch(w.db.tickets, batch)[1..]]
    case TickNext(r, _) => w.ticks[r := w.ticks[r][1..]]
    case TickSkip(r) => w.ticks[r := w.ticks[r][1..]]
    case TickStop(r) => w.ticks - {r}
    case _ => w.ticks
  }

  // ----- history

  function Noted(settlements: map<Id, Settlement>, m: Id, stage: Stage): map<Id, Settlement> {
    if m in settlements then settlements[m := settlements[m].(stage := stage)] else settlements
  }

  function Called(settlements: map<Id, Settlement>, m: Id, action: Action, ok: bool, now: Time): map<Id, Settlement> {
    if m in settlements
    then settlements[m := settlements[m].(calls := settlements[m].calls + 1, asked := Some(action),
                                          okAt := if ok then Some(now) else None)]
    else settlements
  }

  // Does the second transaction of copy c settle the ticket, or skip it?
  ghost predicate WillSettle(cfg: Config, w: World, c: Id)
    requires c in w.inq && w.inq[c].message.body.Recommendation?
  {
    Settles(w.db, w.inq[c].message.ticket, SeenBy(cfg, w.db, w.inq[c].message))
  }

  ghost function NextSettlements(cfg: Config, w: World, s: Step): map<Id, Settlement>
    requires Enabled(cfg, w, s)
  {
    match s
    case ConsumerHandle(c) =>
      if StartsSettlement(w.db, w.inq[c].message)
      then w.settlements[w.inq[c].message.id := Settlement(w.now, 0, None, None, InFlight(c))] else w.settlements
    case CallMonolith(c, action, ok) => Called(w.settlements, w.inq[c].message.id, action, ok, w.now)
    case ConsumerSettle(c) =>
      Noted(w.settlements, w.inq[c].message.id,
            if WillSettle(cfg, w, c) then AckQueued(|w.db.outbox|) else Skipped)
    case ConsumerCancel(c, _) => Noted(w.settlements, w.inq[c].message.id, CancelQueued)
    case InReturn(c) =>
      if Busy(w.inq[c].phase) then Noted(w.settlements, w.inq[c].message.id, Crashed) else w.settlements
    case _ => w.settlements
  }

  ghost function NextBirths(w: World, s: Step): map<Id, nat> {
    match s
    case CreateInsert(k) =>
      if k in w.calls && !Refused(w.db.tickets, w.calls[k].key, w.calls[k].bet)
      then w.births[w.calls[k].drawn := |w.db.outbox|] else w.births
    case _ => w.births
  }

  ghost function NextCauses(cfg: Config, w: World, s: Step): map<nat, Id>
    requires Enabled(cfg, w, s)
  {
    match s
    case ConsumerSettle(c) =>
      if WillSettle(cfg, w, c) then w.causes[|w.db.outbox| := w.inq[c].message.id] else w.causes
    case _ => w.causes
  }

  ghost function NextRolledBack(w: World, s: Step): multiset<nat> {
    match s
    case AbortBatch(p) =>
      if p in w.batches then w.rolledBack + multiset(w.batches[p].published) else w.rolledBack
    case _ => w.rolledBack
  }

  ghost function NextUnconfirmed(cfg: Config, w: World, s: Step): multiset<nat>
    requires Enabled(cfg, w, s)
  {
    match s
    case Publish(p, PublishRaised(_, true)) => w.unconfirmed + multiset{Head(w, p)}
    case _ => w.unconfirmed
  }

  ghost function Do(cfg: Config, w: World, s: Step): World
    requires Enabled(cfg, w, s)
  {
    World(
      w.now + 1 + (if s.Wait? then s.extra else 0),
      NextDb(cfg, w, s), NextCalls(w, s), NextBatches(cfg, w, s),
      NextOutq(cfg, w, s), NextIssued(w, s), NextInq(cfg, w, s), NextTicks(cfg, w, s),
      NextSettlements(cfg, w, s), NextBirths(w, s), NextCauses(cfg, w, s),
      NextRolledBack(w, s), NextUnconfirmed(cfg, w, s))
  }

  // ----- runs

  ghost predicate Run(cfg: Config, w: World, run: seq<Step>)
    decreases run
  {
    run == [] || (Enabled(cfg, w, run[0]) && Run(cfg, Do(cfg, w, run[0]), run[1..]))
  }

  ghost function After(cfg: Config, w: World, run: seq<Step>): World
    requires Run(cfg, w, run)
    decreases run
  {
    if run == [] then w else After(cfg, Do(cfg, w, run[0]), run[1..])
  }

  ghost predicate Reachable(cfg: Config, w: World) {
    exists run :: Run(cfg, INIT, run) && After(cfg, INIT, run) == w
  }

  lemma OneStep(cfg: Config, w: World, s: Step)
    requires Enabled(cfg, w, s)
    ensures Run(cfg, w, [s]) && After(cfg, w, [s]) == Do(cfg, w, s)
  {
    hide Enabled, Do;
    var w' := Do(cfg, w, s);
    assert Run(cfg, w', []) && After(cfg, w', []) == w';
    assert [s][1..] == [];
  }

  lemma {:induction false} RunConcat(cfg: Config, w: World, a: seq<Step>, b: seq<Step>)
    requires Run(cfg, w, a) && Run(cfg, After(cfg, w, a), b)
    ensures Run(cfg, w, a + b) && After(cfg, w, a + b) == After(cfg, After(cfg, w, a), b)
    decreases a
  {
    hide Enabled, Do;
    if a == [] {
      assert a + b == b;
    } else {
      RunConcat(cfg, Do(cfg, w, a[0]), a[1..], b);
      assert (a + b)[1..] == a[1..] + b;
    }
  }
}
