/** Whatever status a ticket shows, the world holds the evidence for it. */
module EvidenceKept {
  import opened Domain
  import opened Store
  import opened System
  import opened Invariants
  import opened Preservation

  // A rewritten row that owes no more evidence than before.
  predicate OwesNoMore(row: Ticket, row': Ticket) {
    && row'.status == row.status
    && row'.recommendation == row.recommendation && row'.reason == row.reason
    && row'.recommendedAt == row.recommendedAt
    && (row.settledAt.Some? ==> row'.settledAt.Some?)
    && (row.confirmedAt.Some? ==> row'.confirmedAt.Some?)
    && (row.cancelledAt.Some? ==> row'.cancelledAt.Some?)
    && (row.status.CancellationRequested? ==> row'.failureReason == row.failureReason)
  }

  // Evidence is never lost.
  lemma DeliveredKept(w: World, w': World, t: Id, kind: MessageType, c: Id)
    requires Grows(w, w') && Delivered(w, t, kind, c)
    ensures Delivered(w', t, kind, c)
  {
  }

  lemma ChainKept(w: World, w': World, t: Id, a: Action, m: Id, e: nat, c: Id)
    requires Grows(w, w') && Chain(w, t, a, m, e, c)
    ensures Chain(w', t, a, m, e, c)
  {
  }

  lemma RecommendedKept(w: World, w': World, t: Id, a: Action)
    requires t in w.db.tickets && t in w'.db.tickets && Grows(w, w') && OwesNoMore(w.db.tickets[t], w'.db.tickets[t])
    requires exists m :: RecommendedBy(w, t, w.db.tickets[t], a, m)
    ensures exists m :: RecommendedBy(w', t, w'.db.tickets[t], a, m)
  {
    var m :| RecommendedBy(w, t, w.db.tickets[t], a, m);
    assert RecommendedBy(w', t, w'.db.tickets[t], a, m);
  }

  lemma ChainsKept(w: World, w': World, t: Id, a: Action)
    requires Grows(w, w') && exists m, e, c :: Chain(w, t, a, m, e, c)
    ensures exists m, e, c :: Chain(w', t, a, m, e, c)
  {
    var m, e, c :| Chain(w, t, a, m, e, c);
    ChainKept(w, w', t, a, m, e, c);
  }

  lemma EvidenceKeptFor(w: World, w': World, t: Id)
    requires t in w.db.tickets && t in w'.db.tickets
    requires Grows(w, w') && Evidence(w, t) && OwesNoMore(w.db.tickets[t], w'.db.tickets[t])
    ensures Evidence(w', t)
  {
    match w.db.tickets[t].status
    case SentToProvider =>
      var c :| Delivered(w, t, TICKET, c);
      DeliveredKept(w, w', t, TICKET, c);
    case RecommendedConfirm => RecommendedKept(w, w', t, Accept);
    case RecommendedDecline => RecommendedKept(w, w', t, Decline);
    case Settled =>
      var a, m, e :| AckChain(w, t, a, m, e);
      assert AckChain(w', t, a, m, e);
    case Confirmed => ChainsKept(w, w', t, Accept);
    case Declined => ChainsKept(w, w', t, Decline);
    case CancellationRequested =>
      var e :| RequestedBy(w, t, w.db.tickets[t], e);
      assert RequestedBy(w', t, w'.db.tickets[t], e);
    case Cancelled =>
      var m, c :| CancelledBy(w, t, m, c);
      DeliveredKept(w, w', t, REQUEST_CANCELLATION, c);
      assert CancelledBy(w', t, m, c);
    case _ =>
  }

  function ActionOf(b: Body): Action
    requires IsAck(b)
  {
    if b.ConfirmRecommendation? then Accept else Decline
  }

  // The chain behind an acknowledgement row.
  lemma AckChainOf(w: World, e: nat)
    requires Links(w) && ClaimsOk(w.settlements, w.db.inbox)
    requires SettlementsOk(w.settlements, w.issued, w.inq, w.db.outbox, w.causes, w.now)
    requires e < |w.db.outbox| && IsAck(w.db.outbox[e].message.body)
    ensures e in w.causes
    ensures AckChain(w, w.db.outbox[e].message.ticket, ActionOf(w.db.outbox[e].message.body), w.causes[e], e)
  {
    hide RowsOk, OutCopiesOk, IssuedOk, InCopiesOk, InboxOk;
    var m := w.causes[e];
    assert SettlementOk(m, w.settlements[m], w.issued, w.inq, w.db.outbox, w.causes, w.now);
  }

  // The chain behind an accepted acknowledgement.
  lemma ChainOf(w: World, c: Id, a: Action)
    requires Links(w) && ClaimsOk(w.settlements, w.db.inbox)
    requires SettlementsOk(w.settlements, w.issued, w.inq, w.db.outbox, w.causes, w.now)
    requires c in w.outq && w.outq[c].acceptedAt.Some? && w.outq[c].message.body == AckBody(a)
    ensures exists m, e :: Chain(w, w.outq[c].message.ticket, a, m, e, c)
  {
    hide RowsOk, IssuedOk, InCopiesOk, InboxOk, ClaimsOk, SettlementsOk;
    var q := w.outq[c];
    assert OutCopyOk(c, q, w.db.outbox, w.now);
    AckChainOf(w, q.event);
    assert Chain(w, q.message.ticket, a, w.causes[q.event], q.event, c);
  }

  // ----- one lemma per transaction: the row it writes, and the evidence it writes with it

  lemma EvidenceGateway(w: World, w': World, c: Id)
    requires Links(w) && ClaimsOk(w.settlements, w.db.inbox)
    requires SettlementsOk(w.settlements, w.issued, w.inq, w.db.outbox, w.causes, w.now)
    requires Grows(w, w') && OutIn(w, c, Sent) && GatewayWrites(w.db, w.outq[c].message)
    requires w'.db == GatewayWrite(w.db, w.outq[c].message, w.now)
    ensures Evidence(w', w.outq[c].message.ticket)
  {
    var q := w.outq[c];
    assert OutCopyOk(c, q, w.db.outbox, w.now);
    if q.message.body.TicketBody? {
      assert Delivered(w, q.message.ticket, TICKET, c);
      DeliveredKept(w, w', q.message.ticket, TICKET, c);
    } else {
      var a := if q.message.body.ConfirmRecommendation? then Accept else Decline;
      ChainOf(w, c, a);
      var m, e :| Chain(w, q.message.ticket, a, m, e, c);
      ChainKept(w, w', q.message.ticket, a, m, e, c);
    }
  }

  lemma EvidenceFirst(w: World, w': World, m: Message)
    requires Links(w) && Grows(w, w')
    requires m.id in w.issued && w.issued[m.id].message == m
    requires StartsSettlement(w.db, m) || AppliesCancellation(w.db, m)
    requires w'.db == FirstTransaction(w.db, m, w.now)
    requires StartsSettlement(w.db, m) ==> m.id in w'.settlements
    ensures Evidence(w', m.ticket)
  {
    if StartsSettlement(w.db, m) {
      assert RecommendedBy(w', m.ticket, w'.db.tickets[m.ticket], m.body.action, m.id);
    } else {
      var c := w.issued[m.id].cause;
      assert IssueOk(m.id, w.issued[m.id], w.outq, w.now);
      assert Delivered(w, m.ticket, REQUEST_CANCELLATION, c);
      DeliveredKept(w, w', m.ticket, REQUEST_CANCELLATION, c);
      assert CancelledBy(w', m.ticket, m.id, c);
    }
  }

  // What the history holds about a handler the monolith has answered with ok.
  ghost predicate Answered(w: World, t: Id, a: Action, m: Id) {
    && ClaimedFor(w, t, a, m)
    && w.settlements[m].okAt.Some? && w.settlements[m].asked == Some(a)
    && w.settlements[m].claimedAt < w.settlements[m].okAt.value < w.now
  }

  lemma AnsweredHandler(w: World, c: Id)
    requires InCopiesOk(w.inq, w.issued, w.now) && ClaimsOk(w.settlements, w.db.inbox)
    requires SettlementsOk(w.settlements, w.issued, w.inq, w.db.outbox, w.causes, w.now)
    requires InIn(w, c, MonolithOk) && w.inq[c].message.body.Recommendation?
    ensures Answered(w, w.inq[c].message.ticket, w.inq[c].message.body.action, w.inq[c].message.id)
  {
    var m := w.inq[c].message.id;
    assert SettlementOk(m, w.settlements[m], w.issued, w.inq, w.db.outbox, w.causes, w.now);
  }

  lemma EvidenceSettle(w: World, w': World, t: Id, a: Action, seen: Status, id: Id, m: Id)
    requires Answered(w, t, a, m)
    requires Grows(w, w') && t in w.db.tickets && Evidence(w, t) && Settles(w.db, t, seen)
    requires w'.db == Settle(w.db, t, a, seen, id, w.now)
    ensures Evidence(w', t)
  {
    if seen.Settled? {
      EvidenceKeptFor(w, w', t);
    } else {
      assert AckChain(w', t, a, m, |w.db.outbox|);
    }
  }

  lemma EvidenceRequest(w: World, w': World, t: Id, seen: Status, why: string, id: Id)
    requires Grows(w, w') && t in w.db.tickets && Evidence(w, t)
    requires w'.db == RequestCancel(w.db, t, seen, why, id, w.now)
    ensures Evidence(w', t)
  {
    assert RequestedBy(w', t, w'.db.tickets[t], |w.db.outbox|);
    if seen.CancellationRequested? && !w.db.tickets[t].status.CancellationRequested? {
      EvidenceKeptFor(w, w', t);
    }
  }

  lemma EvidenceNew(w: World, t: Id)
    requires t in w.db.tickets && w.db.tickets[t].status.New?
    ensures Evidence(w, t)
  {
  }

  // The ticket a step writes, if any.
  ghost function Writes(cfg: Config, w: World, s: Step): Option<Id>
    requires Enabled(cfg, w, s)
  {
    match s
    case CreateInsert(k) => if Refused(w.db.tickets, w.calls[k].key, w.calls[k].bet) then None else Some(w.calls[k].drawn)
    case GatewayRecord(c) => if GatewayWrites(w.db, w.outq[c].message) then Some(w.outq[c].message.ticket) else None
    case ConsumerHandle(c) =>
      var m := w.inq[c].message;
      if StartsSettlement(w.db, m) || AppliesCancellation(w.db, m) then Some(m.ticket) else None
    case ConsumerSettle(c) => if WillSettle(cfg, w, c) then Some(w.inq[c].message.ticket) else None
    case ConsumerCancel(c, _) => Some(w.inq[c].message.ticket)
    case TickStart(_, batch, _) => Some(batch[0])
    case TickNext(r, _) => Some(w.ticks[r][0].ticket)
    case _ => None
  }

  lemma WritesOne(cfg: Config, w: World, s: Step)
    requires Enabled(cfg, w, s)
    ensures forall t | t in NextDb(cfg, w, s).tickets && Some(t) != Writes(cfg, w, s) ::
              t in w.db.tickets && NextDb(cfg, w, s).tickets[t] == w.db.tickets[t]
  {
  }

  lemma EvidenceRequested(cfg: Config, w: World, s: Step, t: Id)
    requires Enabled(cfg, w, s) && EvidenceOk(w) && Grows(w, Do(cfg, w, s))
    requires s.ConsumerCancel? || s.TickStart? || s.TickNext?
    requires Writes(cfg, w, s) == Some(t) && t in Do(cfg, w, s).db.tickets
    ensures Evidence(Do(cfg, w, s), t)
  {
    hide Evidence, Grows, Lookup, FetchPending;
    var w' := Do(cfg, w, s);
    match s
    case ConsumerCancel(c, why) => EvidenceRequest(w, w', t, SeenBy(cfg, w.db, w.inq[c].message), why, w.now);
    case TickStart(r, batch, why) => EvidenceRequest(w, w', t, w.db.tickets[batch[0]].status, why, w.now);
    case TickNext(r, why) =>
      var l := w.ticks[r][0];
      EvidenceRequest(w, w', t, Seen(cfg, w.db, l.ticket, l.status), why, w.now);
  }

  lemma EvidenceSettled(cfg: Config, w: World, c: Id)
    requires Enabled(cfg, w, ConsumerSettle(c)) && InCopiesOk(w.inq, w.issued, w.now) && EvidenceOk(w)
    requires ClaimsOk(w.settlements, w.db.inbox)
    requires SettlementsOk(w.settlements, w.issued, w.inq, w.db.outbox, w.causes, w.now)
    requires Grows(w, Do(cfg, w, ConsumerSettle(c))) && WillSettle(cfg, w, c)
    ensures var w' := Do(cfg, w, ConsumerSettle(c));
            w.inq[c].message.ticket in w'.db.tickets && Evidence(w', w.inq[c].message.ticket)
  {
    hide Evidence, SettlementsOk, Grows, ClaimsOk;
    var m := w.inq[c].message;
    AnsweredHandler(w, c);
    EvidenceSettle(w, Do(cfg, w, ConsumerSettle(c)), m.ticket, m.body.action, SeenBy(cfg, w.db, m), w.now, m.id);
  }

  lemma EvidenceHandled(cfg: Config, w: World, c: Id)
    requires Enabled(cfg, w, ConsumerHandle(c)) && Links(w)
    requires Grows(w, Do(cfg, w, ConsumerHandle(c)))
    requires StartsSettlement(w.db, w.inq[c].message) || AppliesCancellation(w.db, w.inq[c].message)
    ensures var w' := Do(cfg, w, ConsumerHandle(c));
            w.inq[c].message.ticket in w'.db.tickets && Evidence(w', w.inq[c].message.ticket)
  {
    hide Evidence, Grows;
    EvidenceFirst(w, Do(cfg, w, ConsumerHandle(c)), w.inq[c].message);
  }

  lemma EvidenceWritten(cfg: Config, w: World, s: Step, t: Id)
    requires Enabled(cfg, w, s) && Links(w) && EvidenceOk(w)
    requires ClaimsOk(w.settlements, w.db.inbox)
    requires SettlementsOk(w.settlements, w.issued, w.inq, w.db.outbox, w.causes, w.now)
    requires Grows(w, Do(cfg, w, s))
    requires Writes(cfg, w, s) == Some(t) && t in Do(cfg, w, s).db.tickets
    ensures Evidence(Do(cfg, w, s), t)
  {
    hide Evidence, EvidenceOk, SettlementsOk, Grows, RowsOk, OutCopiesOk, IssuedOk, InboxOk, InCopiesOk, ClaimsOk;
    hide FindStuck, Lookup, FetchPending;
    match s
    case CreateInsert(k) => EvidenceNew(Do(cfg, w, s), t);
    case GatewayRecord(c) => EvidenceGateway(w, Do(cfg, w, s), c);
    case ConsumerHandle(c) => EvidenceHandled(cfg, w, c);
    case ConsumerSettle(c) => EvidenceSettled(cfg, w, c);
    case _ => EvidenceRequested(cfg, w, s, t);
  }

  lemma EvidenceStep(cfg: Config, w: World, s: Step)
    requires Enabled(cfg, w, s) && Links(w) && EvidenceOk(w)
    requires ClaimsOk(w.settlements, w.db.inbox)
    requires SettlementsOk(w.settlements, w.issued, w.inq, w.db.outbox, w.causes, w.now)
    requires Grows(w, Do(cfg, w, s))
    ensures EvidenceOk(Do(cfg, w, s))
  {
    var w' := Do(cfg, w, s);
    WritesOne(cfg, w, s);
    forall t | t in w'.db.tickets ensures Evidence(w', t) {
      if Writes(cfg, w, s) == Some(t) {
        EvidenceWritten(cfg, w, s, t);
      } else {
        EvidenceKeptFor(w, w', t);
      }
    }
  }
}
