/** The committed transactions of the services, as functions on the database. */
module Store {
  import opened Domain

  function NewTicket(key: string, bet: Bet, now: Time): Ticket {
    Ticket(key, bet, New, None, None, None, None, None, None, None, now)
  }

  function NewRow(m: Message, now: Time): Row {
    Row(m, Pending, 0, None, None, now)
  }

  // What an UPDATE leaves in the status column: the ORM writes the column only
  // when the new value differs from the one the session has loaded.
  function Written(current: Status, seen: Status, to: Status): Status {
    if seen == to then current else to
  }

  // ----- create_ticket

  function InsertTicket(db: Db, t: Id, key: string, bet: Bet, id: Id, now: Time): Db {
    db.(tickets := db.tickets[t := NewTicket(key, bet, now)],
        outbox := db.outbox + [NewRow(Message(id, t, TicketBody(bet, now)), now)])
  }

  ghost predicate KeyTaken(tickets: map<Id, Ticket>, key: string) {
    exists t :: t in tickets && tickets[t].key == key
  }

  // The two constraints of the table that make an INSERT fail: the unique key and the positive stake.
  ghost predicate Refused(tickets: map<Id, Ticket>, key: string, bet: Bet) {
    KeyTaken(tickets, key) || bet.stake <= 0.0
  }

  ghost predicate Lookup(tickets: map<Id, Ticket>, key: string, found: Option<Id>) {
    match found
    case Some(t) => t in tickets && tickets[t].key == key
    case None => forall t | t in tickets :: tickets[t].key != key
  }

  // ----- the consumer's first transaction

  // The frame's claim is committed together with the first status change, so
  // these two predicates also say when a claim becomes durable.
  predicate StartsSettlement(db: Db, m: Message) {
    m.body.Recommendation? && m.id !in db.inbox &&
    m.ticket in db.tickets && !Terminal(db.tickets[m.ticket].status)
  }

  predicate AppliesCancellation(db: Db, m: Message) {
    m.body.CancellationApplied? && m.id !in db.inbox &&
    m.ticket in db.tickets && !db.tickets[m.ticket].status.Cancelled?
  }

  function Claimed(db: Db, m: Message, now: Time): Db {
    db.(inbox := db.inbox[m.id := Claim(TypeOf(m.body), m.ticket, now)])
  }

  function RecommendedRow(row: Ticket, action: Action, reason: Option<string>, now: Time): Ticket {
    row.(recommendation := Some(action), reason := reason, recommendedAt := Some(now),
         status := Recommended(action), updatedAt := now)
  }

  function CancelledRow(row: Ticket, now: Time): Ticket {
    row.(cancelledAt := Some(row.cancelledAt.GetOr(now)), status := Cancelled, updatedAt := now)
  }

  function Recommend(db: Db, m: Message, now: Time): Db
    requires StartsSettlement(db, m)
  {
    Claimed(db, m, now).(tickets := db.tickets[m.ticket :=
      RecommendedRow(db.tickets[m.ticket], m.body.action, m.body.reason, now)])
  }

  function Cancel(db: Db, m: Message, now: Time): Db
    requires AppliesCancellation(db, m)
  {
    Claimed(db, m, now).(tickets := db.tickets[m.ticket := CancelledRow(db.tickets[m.ticket], now)])
  }

  function FirstTransaction(db: Db, m: Message, now: Time): Db {
    if StartsSettlement(db, m) then Recommend(db, m, now)
    else if AppliesCancellation(db, m) then Cancel(db, m, now)
    else db
  }

  // ----- after the monolith's answer

  predicate Settles(db: Db, t: Id, seen: Status) {
    t in db.tickets && !Terminal(seen)
  }

  function Settle(db: Db, t: Id, a: Action, seen: Status, id: Id, now: Time): Db {
    if !Settles(db, t, seen) then db else
      var row := db.tickets[t];
      db.(tickets := db.tickets[t := row.(
            settledAt := Some(now),
            status := Written(row.status, seen, Settled),
            updatedAt := now)],
          outbox := db.outbox + [NewRow(Message(id, t, AckBody(a)), now)])
  }

  function RequestCancel(db: Db, t: Id, seen: Status, why: string, id: Id, now: Time): Db {
    if t !in db.tickets then db else
      var row := db.tickets[t];
      db.(tickets := db.tickets[t := row.(
            failureReason := Some(Truncated(why, 1024)),
            cancelledAt := Some(now),
            status := Written(row.status, seen, CancellationRequested),
            updatedAt := now)],
          outbox := db.outbox + [NewRow(Message(id, t, RequestCancellation(why)), now)])
  }

  // ----- the gateway's status write

  function AckTarget(b: Body): Option<Status> {
    match b
    case TicketBody(_, _) => Some(SentToProvider)
    case ConfirmRecommendation => Some(Confirmed)
    case DeclineRecommendation => Some(Declined)
    case _ => None
  }

  predicate GatewayWrites(db: Db, m: Message) {
    AckTarget(m.body).Some? && m.ticket in db.tickets &&
    !Terminal(db.tickets[m.ticket].status) &&
    (AckTarget(m.body).value.SentToProvider? ==> db.tickets[m.ticket].status.New?)
  }

  function GatewayWrite(db: Db, m: Message, now: Time): Db {
    if !GatewayWrites(db, m) then db else
      var row := db.tickets[m.ticket];
      db.(tickets := db.tickets[m.ticket := row.(
        status := AckTarget(m.body).value,
        confirmedAt := if m.body.TicketBody? then row.confirmedAt else Some(row.confirmedAt.GetOr(now)),
        updatedAt := now)])
  }

  // ----- the reconciler's selection

  predicate Stuck(tickets: map<Id, Ticket>, threshold: int, t: Id) {
    t in tickets && !Terminal(tickets[t].status) && tickets[t].updatedAt < threshold
  }

  ghost predicate OldestStuck(tickets: map<Id, Ticket>, threshold: int, limit: nat, batch: seq<Id>) {
    && |batch| <= limit
    && (forall i | 0 <= i < |batch| :: Stuck(tickets, threshold, batch[i]))
    && (forall i, j | 0 <= i < j < |batch| ::
          batch[i] != batch[j] && tickets[batch[i]].updatedAt <= tickets[batch[j]].updatedAt)
    && (forall t | Stuck(tickets, threshold, t) && t !in batch ::
          |batch| == limit && forall i | 0 <= i < |batch| :: tickets[batch[i]].updatedAt <= tickets[t].updatedAt)
  }

  // What the query answers to a session while other transactions hold the rows of `held`
  // (SKIP LOCKED), without the tickets it has loaded first and then failed on.
  ghost predicate FindStuck(tickets: map<Id, Ticket>, threshold: int, limit: nat, batch: seq<Id>): (picked: bool)
    ensures picked ==> forall i | 0 <= i < |batch| :: Stuck(tickets, threshold, batch[i])
  {
    exists held: set<Id>, failed: seq<Id> :: FindStuckAmid(tickets, threshold, limit, batch, held, failed)
  }

  ghost predicate FindStuckAmid(tickets: map<Id, Ticket>, threshold: int, limit: nat, batch: seq<Id>,
                             held: set<Id>, failed: seq<Id>): (picked: bool)
    ensures picked ==> forall i | 0 <= i < |batch| :: Stuck(tickets, threshold, batch[i])
  {
    var all := failed + batch;
    assert forall i | 0 <= i < |batch| :: all[|failed| + i] == batch[i];
    OldestStuck(tickets - held, threshold, limit, all)
  }

  // ----- the outbox table

  const MAX_ATTEMPTS: nat := 3

  // fetch_pending: the oldest `limit` pending rows from position `i` on that no
  // live transaction holds (SKIP LOCKED).
  function FetchPending(outbox: seq<Row>, locked: set<nat>, i: nat, limit: nat): seq<nat>
    requires i <= |outbox|
    decreases |outbox| - i
  {
    if limit == 0 || i == |outbox| then []
    else if outbox[i].status.Pending? && i !in locked then [i] + FetchPending(outbox, locked, i + 1, limit - 1)
    else FetchPending(outbox, locked, i + 1, limit)
  }

  function PublishedRow(r: Row, now: Time): Row {
    r.(status := Published, publishedAt := Some(now), lastError := None)
  }

  function FailedRow(r: Row, error: string): Row {
    r.(attempts := r.attempts + 1,
       lastError := Some(Truncated(error, 2000)),
       status := if r.attempts + 1 >= MAX_ATTEMPTS then Failed else r.status)
  }

  function MarkedRow(r: Row, i: nat, published: set<nat>, failed: map<nat, string>, now: Time): Row {
    if i in published then PublishedRow(r, now)
    else if i in failed then FailedRow(r, failed[i])
    else r
  }

  function Marked(outbox: seq<Row>, published: set<nat>, failed: map<nat, string>, now: Time): seq<Row> {
    seq(|outbox|, i requires 0 <= i < |outbox| => MarkedRow(outbox[i], i, published, failed, now))
  }

  // A publish that raises may or may not have reached the broker.
  datatype PublishOutcome = PublishOk | PublishRaised(error: string, accepted: bool)

  // The table after a batch of these rows has been handed to the broker and committed.
  function BatchMarked(outbox: seq<Row>, rows: seq<nat>, outcomes: nat -> PublishOutcome, now: Time): seq<Row> {
    Marked(outbox,
           set e | e in rows && outcomes(e).PublishOk?,
           map e | e in rows && outcomes(e).PublishRaised? :: outcomes(e).error,
           now)
  }
}
