/**
 The inductive invariant of the system, one predicate per theme, each over the
 parts of the world it speaks about.
 */
module Invariants {
  import opened Domain
  import opened Store
  import opened System

  // ----- who refers to whom, and in which order it happened

  ghost predicate RowsOk(outbox: seq<Row>, now: Time) {
    && (forall e | 0 <= e < |outbox| ::
          outbox[e].createdAt < now && outbox[e].message.id == outbox[e].createdAt)
    && (forall e, f | 0 <= e < f < |outbox| :: outbox[e].createdAt < outbox[f].createdAt)
  }

  ghost predicate OutCopyOk(c: Id, q: OutCopy, outbox: seq<Row>, now: Time) {
    && c < now
    && q.event < |outbox|
    && q.message == outbox[q.event].message
    && outbox[q.event].createdAt < q.publishedAt < now
    && (q.phase.Sent? || q.phase.Recorded? ==> q.acceptedAt.Some?)
    && (q.acceptedAt.Some? ==> q.publishedAt < q.acceptedAt.value < now)
  }

  ghost predicate OutCopiesOk(outq: map<Id, OutCopy>, outbox: seq<Row>, now: Time) {
    forall c | c in outq :: OutCopyOk(c, outq[c], outbox, now)
  }

  ghost predicate IssueOk(f: Id, i: Issue, outq: map<Id, OutCopy>, now: Time) {
    && f < now
    && i.message.id == f
    && i.cause in outq
    && outq[i.cause].acceptedAt.Some?
    && outq[i.cause].message.ticket == i.message.ticket
    && match outq[i.cause].message.body
       case TicketBody(_, _) => i.message.body.Recommendation?
       case RequestCancellation(_) => i.message.body.CancellationApplied?
       case _ => false
  }

  ghost predicate IssuedOk(issued: map<Id, Issue>, outq: map<Id, OutCopy>, now: Time) {
    forall f | f in issued :: IssueOk(f, issued[f], outq, now)
  }

  ghost predicate InCopiesOk(inq: map<Id, InCopy>, issued: map<Id, Issue>, now: Time) {
    forall c | c in inq ::
      c < now && inq[c].message.id in issued && inq[c].message == issued[inq[c].message.id].message
  }

  ghost predicate InboxOk(inbox: map<Id, Claim>, issued: map<Id, Issue>, now: Time) {
    forall m | m in inbox ::
      && m in issued
      && inbox[m].ticket == issued[m].message.ticket
      && inbox[m].kind == TypeOf(issued[m].message.body)
      && inbox[m].processedAt < now
  }

  // ----- tickets and their TICKET rows

  ghost predicate BirthsOk(births: map<Id, nat>, tickets: map<Id, Ticket>, outbox: seq<Row>) {
    && (forall t | t in tickets ::
          && t in births && births[t] < |outbox|
          && outbox[births[t]].message.ticket == t
          && outbox[births[t]].message.body.TicketBody?
          && outbox[births[t]].message.body.bet == tickets[t].bet)
    && (forall e | 0 <= e < |outbox| ::
          && outbox[e].message.ticket in tickets
          && (outbox[e].message.body.TicketBody? ==>
                outbox[e].message.ticket in births && births[outbox[e].message.ticket] == e))
  }

  ghost predicate CallOk(c: Call, tickets: map<Id, Ticket>, now: Time) {
    && c.drawn < now
    && match c.phase
       case Missed => c.drawn !in tickets
       case Conflicted => c.drawn !in tickets && Refused(tickets, c.key, c.bet)
       case Returned(t, created) =>
         && t in tickets && tickets[t].key == c.key
         && (created ==> t == c.drawn && tickets[t].bet == c.bet)
         && (!created ==> c.drawn !in tickets)
       case Raised => c.bet.stake <= 0.0
  }

  ghost predicate CreationOk(calls: map<Id, Call>, tickets: map<Id, Ticket>, now: Time) {
    && (forall t | t in tickets :: t < now && tickets[t].updatedAt < now && tickets[t].bet.stake > 0.0)
    && (forall t, u | t in tickets && u in tickets && tickets[t].key == tickets[u].key :: t == u)
    && (forall k | k in calls :: CallOk(calls[k], tickets, now))
    && (forall k, l | k in calls && l in calls && calls[k].drawn == calls[l].drawn :: k == l)
  }

  // ----- the outbox

  ghost predicate RowOk(r: Row) {
    && (match r.status
        case Pending => r.attempts < MAX_ATTEMPTS
        case Failed => r.attempts == MAX_ATTEMPTS
        case Published => r.attempts < MAX_ATTEMPTS)
    && (r.publishedAt.Some? <==> r.status.Published?)
    && (r.lastError.Some? <==> r.attempts > 0 && !r.status.Published?)
    && (r.lastError.Some? ==> |r.lastError.value| <= 2000)
  }

  ghost predicate BatchOk(b: Batch, outbox: seq<Row>) {
    && b.next <= |b.rows|
    && (forall i | 0 <= i < |b.rows| :: b.rows[i] < |outbox| && outbox[b.rows[i]].status.Pending?)
    && (forall i, j | 0 <= i < j < |b.rows| :: b.rows[i] < b.rows[j])
    && (forall i | 0 <= i < |b.rows| :: i < b.next <==> b.rows[i] in b.published || b.rows[i] in b.failed)
    && (forall e | e in b.published || e in b.failed :: e in b.rows)
    && b.published !! b.failed.Keys
  }

  ghost predicate OutboxOk(outbox: seq<Row>, batches: map<Id, Batch>) {
    && (forall e | 0 <= e < |outbox| :: RowOk(outbox[e]))
    && (forall p | p in batches :: BatchOk(batches[p], outbox))
    && (forall p, q, e | p in batches && q in batches && e in batches[p].rows && e in batches[q].rows :: p == q)
  }

  // The frames the broker has accepted for an event.
  ghost function CopiesOf(outq: map<Id, OutCopy>, e: nat): set<Id> {
    set c | c in outq && outq[c].event == e
  }

  ghost predicate LivePublished(batches: map<Id, Batch>, e: nat) {
    exists p :: p in batches && e in batches[p].published
  }

  ghost function Expected(outbox: seq<Row>, batches: map<Id, Batch>, rolledBack: multiset<nat>,
                          unconfirmed: multiset<nat>, e: nat): nat {
    (if e < |outbox| && outbox[e].status.Published? then 1 else 0)
    + rolledBack[e]
    + (if LivePublished(batches, e) then 1 else 0)
    + unconfirmed[e]
  }

  ghost predicate CountsOk(outq: map<Id, OutCopy>, outbox: seq<Row>, batches: map<Id, Batch>,
                           rolledBack: multiset<nat>, unconfirmed: multiset<nat>) {
    forall e: nat :: |CopiesOf(outq, e)| == Expected(outbox, batches, rolledBack, unconfirmed, e)
  }

  // ----- settlements

  ghost predicate SettlementOk(m: Id, s: Settlement, issued: map<Id, Issue>, inq: map<Id, InCopy>,
                               outbox: seq<Row>, causes: map<nat, Id>, now: Time) {
    && m in issued && issued[m].message.body.Recommendation?
    && s.claimedAt < now
    && s.calls <= 1
    && s.asked == (if s.calls == 1 then Some(issued[m].message.body.action) else None)
    && (s.okAt.Some? ==> s.calls == 1 && s.claimedAt < s.okAt.value < now)
    && match s.stage
       case InFlight(c) =>
         && c in inq && inq[c].message.id == m && Busy(inq[c].phase)
         && (inq[c].phase.CallingMonolith? ==> s.calls == 0)
         && (inq[c].phase.MonolithOk? ==> s.okAt.Some?)
         && (inq[c].phase.MonolithFailed? ==> s.calls == 1 && s.okAt.None?)
       case AckQueued(e) =>
         && s.okAt.Some?
         && e < |outbox| && e in causes && causes[e] == m
         && s.okAt.value < outbox[e].createdAt
         && outbox[e].message.ticket == issued[m].message.ticket
         && outbox[e].message.body == AckBody(issued[m].message.body.action)
       case CancelQueued => s.calls == 1 && s.okAt.None?
       case Skipped => s.okAt.Some?
       case Crashed => true
  }

  ghost predicate ClaimsOk(settlements: map<Id, Settlement>, inbox: map<Id, Claim>) {
    forall m :: m in settlements <==> m in inbox && inbox[m].kind.RECOMMENDATION?
  }

  ghost predicate SettlementsOk(settlements: map<Id, Settlement>, issued: map<Id, Issue>, inq: map<Id, InCopy>,
                                outbox: seq<Row>, causes: map<nat, Id>, now: Time) {
    && (forall m | m in settlements :: SettlementOk(m, settlements[m], issued, inq, outbox, causes, now))
    && (forall c | c in inq && Busy(inq[c].phase) ::
          inq[c].message.id in settlements && settlements[inq[c].message.id].stage == InFlight(c))
    && (forall e | 0 <= e < |outbox| && IsAck(outbox[e].message.body) ::
          e in causes && causes[e] in settlements && settlements[causes[e]].stage == AckQueued(e))
  }

  // ----- what a status proves

  // Before the first recommendation or cancellation request.
  predicate Early(s: Status) {
    s.New? || s.SentToProvider?
  }

  // The automaton of one ticket. With a stale second read (`freshReread` false) the
  // second transaction may also pull a ticket out of a terminal status.
  predicate Edge(freshReread: bool, from: Status, to: Status) {
    match to
    case New => false
    case SentToProvider => from.New?
    case RecommendedConfirm => !Terminal(from)
    case RecommendedDecline => !Terminal(from)
    case Settled => !Early(from) && (freshReread ==> !Terminal(from))
    case Confirmed => !Early(from) && !Terminal(from)
    case Declined => !Early(from) && !Terminal(from)
    case CancellationRequested => !from.Expired?
    case Cancelled => !Early(from) && !from.Cancelled?
    case Expired => false
  }

  ghost predicate EarlyOk(db: Db) {
    forall t | t in db.tickets && Early(db.tickets[t].status) ::
      && (forall m | m in db.inbox :: db.inbox[m].ticket != t)
      && (forall e | 0 <= e < |db.outbox| && db.outbox[e].message.ticket == t :: db.outbox[e].message.body.TicketBody?)
  }

  // What a reconciler session has loaded is not ahead of what is in the table.
  ghost predicate LoadedOk(l: Loaded, tickets: map<Id, Ticket>) {
    l.ticket in tickets && !Terminal(l.status) && (Early(tickets[l.ticket].status) ==> Early(l.status))
  }

  ghost predicate TicksOk(ticks: map<Id, seq<Loaded>>, tickets: map<Id, Ticket>) {
    forall r, i | r in ticks && 0 <= i < |ticks[r]| :: LoadedOk(ticks[r][i], tickets)
  }

  // The provider has accepted copy c of a frame of this type for this ticket.
  ghost predicate Delivered(w: World, t: Id, kind: MessageType, c: Id) {
    c in w.outq && w.outq[c].message.ticket == t && TypeOf(w.outq[c].message.body) == kind && w.outq[c].acceptedAt.Some?
  }

  ghost predicate ClaimedFor(w: World, t: Id, a: Action, m: Id) {
    && m in w.settlements && m in w.db.inbox && m in w.issued
    && w.issued[m].message.ticket == t
    && w.issued[m].message.body.Recommendation? && w.issued[m].message.body.action == a
  }

  ghost predicate HasRow(w: World, t: Id, e: nat, kind: MessageType) {
    e < |w.db.outbox| && w.db.outbox[e].message.ticket == t && TypeOf(w.db.outbox[e].message.body) == kind
  }

  // Recommendation m was claimed, then the monolith accepted it, having been asked for this very
  // action, then acknowledgement row e was committed.
  ghost predicate AckChain(w: World, t: Id, a: Action, m: Id, e: nat) {
    && ClaimedFor(w, t, a, m)
    && w.settlements[m].okAt.Some? && w.settlements[m].asked == Some(a)
    && HasRow(w, t, e, TypeOf(AckBody(a)))
    && w.settlements[m].claimedAt < w.settlements[m].okAt.value < w.db.outbox[e].createdAt
  }

  // Then copy c of that row was published, then the provider accepted c.
  ghost predicate Chain(w: World, t: Id, a: Action, m: Id, e: nat, c: Id) {
    && AckChain(w, t, a, m, e)
    && c in w.outq && w.outq[c].event == e && w.outq[c].acceptedAt.Some?
    && w.db.outbox[e].createdAt < w.outq[c].publishedAt < w.outq[c].acceptedAt.value < w.now
  }

  // The row shows what recommendation m said, and m is claimed.
  ghost predicate RecommendedBy(w: World, t: Id, row: Ticket, a: Action, m: Id) {
    && ClaimedFor(w, t, a, m)
    && row.recommendation == Some(a) && row.reason == w.issued[m].message.body.reason
  }

  // The row shows the reason that row e of the outbox gives to the provider.
  ghost predicate RequestedBy(w: World, t: Id, row: Ticket, e: nat) {
    HasRow(w, t, e, REQUEST_CANCELLATION) && row.failureReason == Some(Truncated(w.db.outbox[e].message.body.why, 1024))
  }

  // The provider accepted cancellation request c, answered it with frame m, and m is claimed.
  ghost predicate CancelledBy(w: World, t: Id, m: Id, c: Id) {
    && m in w.db.inbox && m in w.issued && w.issued[m].cause == c
    && w.issued[m].message.ticket == t && w.issued[m].message.body.CancellationApplied?
    && Delivered(w, t, REQUEST_CANCELLATION, c)
  }

  ghost predicate Evidence(w: World, t: Id)
    requires t in w.db.tickets
  {
    var row := w.db.tickets[t];
    match row.status
    case New => true
    case SentToProvider => exists c :: Delivered(w, t, TICKET, c)
    case RecommendedConfirm => row.recommendedAt.Some? && exists m :: RecommendedBy(w, t, row, Accept, m)
    case RecommendedDecline => row.recommendedAt.Some? && exists m :: RecommendedBy(w, t, row, Decline, m)
    case Settled =>
      row.settledAt.Some? && exists a, m, e :: AckChain(w, t, a, m, e)
    case Confirmed => row.confirmedAt.Some? && exists m, e, c :: Chain(w, t, Accept, m, e, c)
    case Declined => row.confirmedAt.Some? && exists m, e, c :: Chain(w, t, Decline, m, e, c)
    case CancellationRequested => row.cancelledAt.Some? && exists e :: RequestedBy(w, t, row, e)
    case Cancelled => row.cancelledAt.Some? && exists m, c :: CancelledBy(w, t, m, c)
    case Expired => false
  }

  ghost predicate EvidenceOk(w: World) {
    forall t | t in w.db.tickets :: Evidence(w, t)
  }

  ghost predicate Links(w: World) {
    && RowsOk(w.db.outbox, w.now)
    && OutCopiesOk(w.outq, w.db.outbox, w.now)
    && IssuedOk(w.issued, w.outq, w.now)
    && InCopiesOk(w.inq, w.issued, w.now)
    && InboxOk(w.db.inbox, w.issued, w.now)
  }

  ghost predicate Inv(w: World) {
    && Links(w)
    && BirthsOk(w.births, w.db.tickets, w.db.outbox)
    && CreationOk(w.calls, w.db.tickets, w.now)
    && OutboxOk(w.db.outbox, w.batches)
    && CountsOk(w.outq, w.db.outbox, w.batches, w.rolledBack, w.unconfirmed)
    && ClaimsOk(w.settlements, w.db.inbox)
    && SettlementsOk(w.settlements, w.issued, w.inq, w.db.outbox, w.causes, w.now)
    && EarlyOk(w.db)
    && TicksOk(w.ticks, w.db.tickets)
    && EvidenceOk(w)
  }
}
