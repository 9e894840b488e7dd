/** Every step keeps the invariant. */
module Preservation {
  import opened Domain
  import opened Store
  import opened System
  import opened Invariants

  // What no step undoes.
  ghost predicate OutboxGrows(outbox: seq<Row>, outbox': seq<Row>, now: Time) {
    && |outbox| <= |outbox'| <= |outbox| + 1
    && (forall e | 0 <= e < |outbox| ::
          outbox'[e].message == outbox[e].message && outbox'[e].createdAt == outbox[e].createdAt)
    && (forall e | |outbox| <= e < |outbox'| :: outbox'[e] == NewRow(outbox'[e].message, now) && outbox'[e].message.id == now)
  }

  ghost predicate OutCopiesGrow(outq: map<Id, OutCopy>, outq': map<Id, OutCopy>) {
    forall c | c in outq ::
      && c in outq' && outq'[c].event == outq[c].event && outq'[c].message == outq[c].message
      && outq'[c].publishedAt == outq[c].publishedAt
      && (outq[c].acceptedAt.Some? ==> outq'[c].acceptedAt == outq[c].acceptedAt)
  }

  ghost predicate TicketsGrow(tickets: map<Id, Ticket>, tickets': map<Id, Ticket>) {
    forall t | t in tickets :: t in tickets' && tickets'[t].key == tickets[t].key && tickets'[t].bet == tickets[t].bet
  }

  ghost predicate SettlementsGrow(settlements: map<Id, Settlement>, settlements': map<Id, Settlement>) {
    forall m | m in settlements ::
      && m in settlements' && settlements'[m].claimedAt == settlements[m].claimedAt
      && (settlements[m].okAt.Some? ==>
            settlements'[m].okAt == settlements[m].okAt && settlements'[m].asked == settlements[m].asked)
      && (settlements[m].stage.AckQueued? ==> settlements'[m].stage == settlements[m].stage)
  }

  ghost predicate Grows(w: World, w': World) {
    && w.now < w'.now
    && OutboxGrows(w.db.outbox, w'.db.outbox, w.now)
    && OutCopiesGrow(w.outq, w'.outq)
    && TicketsGrow(w.db.tickets, w'.db.tickets)
    && (forall f | f in w.issued :: f in w'.issued && w'.issued[f] == w.issued[f])
    && (forall m | m in w.db.inbox :: m in w'.db.inbox && w'.db.inbox[m] == w.db.inbox[m])
    && SettlementsGrow(w.settlements, w'.settlements)
  }

  lemma OutboxStep(cfg: Config, w: World, s: Step)
    requires Enabled(cfg, w, s)
    ensures OutboxGrows(w.db.outbox, NextDb(cfg, w, s).outbox, w.now)
    ensures !s.CommitBatch? ==> w.db.outbox <= NextDb(cfg, w, s).outbox
  {
  }

  lemma OutCopiesStep(cfg: Config, w: World, s: Step)
    requires Enabled(cfg, w, s) && w.now !in w.outq
    ensures OutCopiesGrow(w.outq, NextOutq(cfg, w, s))
  {
  }

  // A transaction on existing tickets: each row is kept, or is written now with the same key and
  // bet, its first confirmation time and the fact of its settlement.
  ghost predicate Rewrites(tickets: map<Id, Ticket>, tickets': map<Id, Ticket>, now: Time) {
    && tickets'.Keys == tickets.Keys
    && (forall t | t in tickets :: tickets'[t] == tickets[t] || RowRewritten(tickets[t], tickets'[t], now))
  }

  predicate RowRewritten(row: Ticket, row': Ticket, now: Time) {
    && row'.key == row.key && row'.bet == row.bet && row'.updatedAt == now
    && (row.confirmedAt.Some? ==> row'.confirmedAt == row.confirmedAt)
    && (row.settledAt.Some? ==> row'.settledAt.Some?)
  }

  lemma RewritesFirst(db: Db, m: Message, now: Time)
    ensures Rewrites(db.tickets, FirstTransaction(db, m, now).tickets, now)
  {
  }

  lemma RewritesSettle(db: Db, t: Id, a: Action, seen: Status, id: Id, now: Time)
    ensures Rewrites(db.tickets, Settle(db, t, a, seen, id, now).tickets, now)
  {
  }

  lemma RewritesRequest(db: Db, t: Id, seen: Status, why: string, id: Id, now: Time)
    ensures Rewrites(db.tickets, RequestCancel(db, t, seen, why, id, now).tickets, now)
  {
  }

  lemma RewritesGateway(db: Db, m: Message, now: Time)
    ensures Rewrites(db.tickets, GatewayWrite(db, m, now).tickets, now)
  {
  }

  lemma RewritesStep(cfg: Config, w: World, s: Step)
    requires Enabled(cfg, w, s) && !s.CreateInsert?
    ensures Rewrites(w.db.tickets, NextDb(cfg, w, s).tickets, w.now)
  {
    hide Rewrites, FirstTransaction, Settle, RequestCancel, GatewayWrite, Marked, FindStuck, Lookup, FetchPending;
    match s
    case GatewayRecord(c) => RewritesGateway(w.db, w.outq[c].message, w.now);
    case ConsumerHandle(c) => RewritesFirst(w.db, w.inq[c].message, w.now);
    case ConsumerSettle(c) =>
      var m := w.inq[c].message;
      RewritesSettle(w.db, m.ticket, m.body.action, SeenBy(cfg, w.db, m), w.now, w.now);
    case ConsumerCancel(c, why) =>
      var m := w.inq[c].message;
      RewritesRequest(w.db, m.ticket, SeenBy(cfg, w.db, m), why, w.now, w.now);
    case TickStart(r, batch, why) =>
      RewritesRequest(w.db, batch[0], w.db.tickets[batch[0]].status, why, w.now, w.now);
    case TickNext(r, why) =>
      var l := w.ticks[r][0];
      RewritesRequest(w.db, l.ticket, Seen(cfg, w.db, l.ticket, l.status), why, w.now, w.now);
    case _ => RewritesNothing(cfg, w, s);
  }

  lemma RewritesNothing(cfg: Config, w: World, s: Step)
    requires Enabled(cfg, w, s) && !s.CreateInsert? && !s.GatewayRecord? && !s.ConsumerHandle?
    requires !s.ConsumerSettle? && !s.ConsumerCancel? && !s.TickStart? && !s.TickNext?
    ensures Rewrites(w.db.tickets, NextDb(cfg, w, s).tickets, w.now)
  {
    hide Enabled;
  }

  lemma TicketsStep(cfg: Config, w: World, s: Step)
    requires Enabled(cfg, w, s) && CreationOk(w.calls, w.db.tickets, w.now)
    ensures TicketsGrow(w.db.tickets, NextDb(cfg, w, s).tickets)
  {
    hide NextDb, Enabled, CreationOk;
    if s.CreateInsert? {
      TicketsInsert(cfg, w, s.k);
    } else {
      RewritesStep(cfg, w, s);
    }
  }

  lemma TicketsInsert(cfg: Config, w: World, k: Id)
    requires Enabled(cfg, w, CreateInsert(k)) && CreationOk(w.calls, w.db.tickets, w.now)
    ensures forall t | t in w.db.tickets ::
              t in NextDb(cfg, w, CreateInsert(k)).tickets && NextDb(cfg, w, CreateInsert(k)).tickets[t] == w.db.tickets[t]
  {
    assert CallOk(w.calls[k], w.db.tickets, w.now);
  }

  lemma NotedGrows(settlements: map<Id, Settlement>, m: Id, stage: Stage)
    requires m in settlements ==> !settlements[m].stage.AckQueued?
    ensures SettlementsGrow(settlements, Noted(settlements, m, stage))
  {
  }

  lemma CalledGrows(settlements: map<Id, Settlement>, m: Id, action: Action, ok: bool, now: Time)
    requires m in settlements ==> settlements[m].okAt.None?
    ensures SettlementsGrow(settlements, Called(settlements, m, action, ok, now))
  {
  }

  lemma StartedGrows(cfg: Config, w: World, c: Id)
    requires Enabled(cfg, w, ConsumerHandle(c)) && ClaimsOk(w.settlements, w.db.inbox)
    ensures SettlementsGrow(w.settlements, NextSettlements(cfg, w, ConsumerHandle(c)))
  {
  }

  lemma NothingGrows(settlements: map<Id, Settlement>)
    ensures SettlementsGrow(settlements, settlements)
  {
  }

  lemma BusyStage(w: World, c: Id)
    requires SettlementsOk(w.settlements, w.issued, w.inq, w.db.outbox, w.causes, w.now)
    requires c in w.inq && Busy(w.inq[c].phase)
    ensures var m := w.inq[c].message.id;
            m in w.settlements && w.settlements[m].stage == InFlight(c)
            && (w.inq[c].phase.CallingMonolith? ==> w.settlements[m].okAt.None?)
  {
    var m := w.inq[c].message.id;
    assert SettlementOk(m, w.settlements[m], w.issued, w.inq, w.db.outbox, w.causes, w.now);
  }

  lemma SettlementsGrowStep(cfg: Config, w: World, s: Step)
    requires Enabled(cfg, w, s) && ClaimsOk(w.settlements, w.db.inbox)
    requires SettlementsOk(w.settlements, w.issued, w.inq, w.db.outbox, w.causes, w.now)
    ensures SettlementsGrow(w.settlements, NextSettlements(cfg, w, s))
  {
    hide SettlementsOk, SettlementsGrow, ClaimsOk, Noted, Called, FindStuck, Lookup, FetchPending;
    match s
    case ConsumerHandle(c) => StartedGrows(cfg, w, c);
    case CallMonolith(c, action, ok) =>
      BusyStage(w, c);
      CalledGrows(w.settlements, w.inq[c].message.id, action, ok, w.now);
    case ConsumerSettle(c) =>
      BusyStage(w, c);
      NotedGrows(w.settlements, w.inq[c].message.id, if WillSettle(cfg, w, c) then AckQueued(|w.db.outbox|) else Skipped);
    case ConsumerCancel(c, _) =>
      BusyStage(w, c);
      NotedGrows(w.settlements, w.inq[c].message.id, CancelQueued);
    case InReturn(c) =>
      if Busy(w.inq[c].phase) {
        BusyStage(w, c);
        NotedGrows(w.settlements, w.inq[c].message.id, Crashed);
      } else {
        NothingGrows(w.settlements);
      }
    case _ => NothingGrows(w.settlements);
  }

  lemma IssuedGrowStep(cfg: Config, w: World, s: Step)
    requires w.now !in w.issued && Enabled(cfg, w, s)
    ensures forall f | f in w.issued :: f in NextIssued(w, s) && NextIssued(w, s)[f] == w.issued[f]
  {
  }

  lemma InboxGrowStep(cfg: Config, w: World, s: Step)
    requires Enabled(cfg, w, s)
    ensures forall m | m in w.db.inbox :: m in NextDb(cfg, w, s).inbox && NextDb(cfg, w, s).inbox[m] == w.db.inbox[m]
  {
  }

  // ----- links

  lemma RowsStep(cfg: Config, w: World, s: Step)
    requires Enabled(cfg, w, s) && RowsOk(w.db.outbox, w.now)
    ensures RowsOk(NextDb(cfg, w, s).outbox, w.now + 1)
  {
    OutboxStep(cfg, w, s);
  }

  lemma OutCopiesFrame(outq: map<Id, OutCopy>, outbox: seq<Row>, outbox': seq<Row>, now: Time)
    requires OutCopiesOk(outq, outbox, now + 1) && OutboxGrows(outbox, outbox', now)
    ensures OutCopiesOk(outq, outbox', now + 1)
  {
  }

  // A step rewrites at most one outbound copy.
  ghost function OutMoved(w: World, s: Step): Option<Id> {
    match s
    case Publish(_, outcome) => if outcome.PublishOk? || outcome.accepted then Some(w.now) else None
    case GatewayTake(c) => Some(c)
    case GatewaySend(c, _) => Some(c)
    case GatewayRecord(c) => Some(c)
    case GatewayAck(c) => Some(c)
    case OutReturn(c) => Some(c)
    case _ => None
  }

  lemma MovesOneOut(cfg: Config, w: World, s: Step)
    requires Enabled(cfg, w, s)
    ensures match OutMoved(w, s)
            case None => NextOutq(cfg, w, s) == w.outq
            case Some(c) => c in NextOutq(cfg, w, s) && NextOutq(cfg, w, s) == w.outq[c := NextOutq(cfg, w, s)[c]]
  {
    hide FindStuck, Lookup, FetchPending;
  }

  lemma OutMovedOk(cfg: Config, w: World, s: Step)
    requires Enabled(cfg, w, s) && OutCopiesOk(w.outq, w.db.outbox, w.now) && RowsOk(w.db.outbox, w.now)
    requires OutMoved(w, s).Some?
    ensures var c := OutMoved(w, s).value;
            c in NextOutq(cfg, w, s) && OutCopyOk(c, NextOutq(cfg, w, s)[c], w.db.outbox, w.now + 1)
  {
    hide FindStuck, Lookup, FetchPending;
    assert !s.Publish? ==> OutCopyOk(OutMoved(w, s).value, w.outq[OutMoved(w, s).value], w.db.outbox, w.now);
  }

  lemma OutCopiesOkStep(cfg: Config, w: World, s: Step)
    requires Enabled(cfg, w, s) && OutCopiesOk(w.outq, w.db.outbox, w.now) && RowsOk(w.db.outbox, w.now)
    ensures OutCopiesOk(NextOutq(cfg, w, s), w.db.outbox, w.now + 1)
  {
    hide Enabled, NextOutq, RowsOk;
    MovesOneOut(cfg, w, s);
    if OutMoved(w, s).Some? {
      OutMovedOk(cfg, w, s);
    }
    assert forall c | c in w.outq :: OutCopyOk(c, w.outq[c], w.db.outbox, w.now);
  }

  lemma IssuedStep(cfg: Config, w: World, s: Step)
    requires Enabled(cfg, w, s) && OutCopiesOk(w.outq, w.db.outbox, w.now) && IssuedOk(w.issued, w.outq, w.now)
    ensures IssuedOk(NextIssued(w, s), NextOutq(cfg, w, s), w.now + 1)
  {
    hide FindStuck, Lookup, FetchPending, Marked;
    OutCopiesStep(cfg, w, s);
  }

  // A step rewrites at most one inbound copy.
  ghost function Moved(w: World, s: Step): Option<Id> {
    match s
    case Forward(_) => Some(w.now)
    case ConsumerTake(c) => Some(c)
    case ConsumerHandle(c) => Some(c)
    case CallMonolith(c, _, _) => Some(c)
    case ConsumerSettle(c) => Some(c)
    case ConsumerCancel(c, _) => Some(c)
    case ConsumerAck(c) => Some(c)
    case InReturn(c) => Some(c)
    case _ => None
  }

  lemma MovesOneCopy(cfg: Config, w: World, s: Step)
    requires Enabled(cfg, w, s)
    ensures match Moved(w, s)
            case None => NextInq(cfg, w, s) == w.inq
            case Some(c) => c in NextInq(cfg, w, s) && NextInq(cfg, w, s) == w.inq[c := NextInq(cfg, w, s)[c]]
  {
    hide FindStuck, Lookup, FetchPending;
  }

  lemma MovedCopyOk(cfg: Config, w: World, s: Step, c: Id)
    requires Enabled(cfg, w, s) && InCopiesOk(w.inq, w.issued, w.now) && IssuedOk(w.issued, w.outq, w.now)
    requires Moved(w, s) == Some(c) && c in NextInq(cfg, w, s)
    ensures var m := NextInq(cfg, w, s)[c].message;
            c <= w.now && m.id in w.issued && m == w.issued[m.id].message
  {
    hide FindStuck, Lookup, FetchPending;
    assert s.Forward? ==> IssueOk(s.f, w.issued[s.f], w.outq, w.now);
  }

  lemma InCopiesStep(cfg: Config, w: World, s: Step)
    requires Enabled(cfg, w, s) && InCopiesOk(w.inq, w.issued, w.now) && IssuedOk(w.issued, w.outq, w.now)
    ensures InCopiesOk(NextInq(cfg, w, s), NextIssued(w, s), w.now + 1)
  {
    hide Enabled, NextInq, NextIssued;
    MovesOneCopy(cfg, w, s);
    if Moved(w, s).Some? {
      MovedCopyOk(cfg, w, s, Moved(w, s).value);
    }
    assert w.now in w.issued ==> IssueOk(w.now, w.issued[w.now], w.outq, w.now);
    IssuedGrowStep(cfg, w, s);
  }

  lemma InboxClaim(db: Db, m: Message, issued: map<Id, Issue>, now: Time)
    requires InboxOk(db.inbox, issued, now) && m.id in issued && m == issued[m.id].message
    ensures InboxOk(FirstTransaction(db, m, now).inbox, issued, now + 1)
  {
  }

  lemma InboxUnchanged(cfg: Config, w: World, s: Step)
    requires Enabled(cfg, w, s) && !s.ConsumerHandle?
    ensures NextDb(cfg, w, s).inbox == w.db.inbox
  {
    hide FindStuck, Lookup, FetchPending, Marked;
  }

  lemma InboxStep(cfg: Config, w: World, s: Step)
    requires Enabled(cfg, w, s) && InCopiesOk(w.inq, w.issued, w.now) && IssuedOk(w.issued, w.outq, w.now)
    requires InboxOk(w.db.inbox, w.issued, w.now)
    ensures InboxOk(NextDb(cfg, w, s).inbox, NextIssued(w, s), w.now + 1)
  {
    if s.ConsumerHandle? {
      InboxClaim(w.db, w.inq[s.c].message, w.issued, w.now);
    } else {
      InboxUnchanged(cfg, w, s);
    }
  }

  lemma LinksStep(cfg: Config, w: World, s: Step)
    requires Links(w) && Enabled(cfg, w, s)
    ensures Links(Do(cfg, w, s).(now := w.now + 1))
  {
    hide RowsOk, OutCopiesOk, IssuedOk, InCopiesOk, InboxOk, Enabled;
    OutboxStep(cfg, w, s);
    RowsStep(cfg, w, s);
    OutCopiesOkStep(cfg, w, s);
    OutCopiesFrame(NextOutq(cfg, w, s), w.db.outbox, NextDb(cfg, w, s).outbox, w.now);
    IssuedStep(cfg, w, s);
    InCopiesStep(cfg, w, s);
    InboxStep(cfg, w, s);
  }

  // The number of the current step has not been used as an id.
  lemma NotYetDrawn(w: World)
    requires Links(w)
    ensures w.now !in w.outq && w.now !in w.issued && w.now !in w.inq
  {
    assert w.now in w.outq ==> OutCopyOk(w.now, w.outq[w.now], w.db.outbox, w.now);
    assert w.now in w.issued ==> IssueOk(w.now, w.issued[w.now], w.outq, w.now);
  }

  // ----- creation

  lemma BirthsStep(cfg: Config, w: World, s: Step)
    requires Enabled(cfg, w, s) && CreationOk(w.calls, w.db.tickets, w.now)
    requires BirthsOk(w.births, w.db.tickets, w.db.outbox)
    ensures BirthsOk(NextBirths(w, s), NextDb(cfg, w, s).tickets, NextDb(cfg, w, s).outbox)
  {
    hide FindStuck, Lookup, FetchPending, Marked;
    OutboxStep(cfg, w, s);
    if s.CreateInsert? {
      if !Refused(w.db.tickets, w.calls[s.k].key, w.calls[s.k].bet) {
        BirthsInsert(w.births, w.db, w.calls[s.k], w.now);
      }
    } else {
      RewritesStep(cfg, w, s);
      NoTicketRow(cfg, w, s);
      BirthsFrame(w.births, w.db, NextDb(cfg, w, s), w.now);
    }
  }

  lemma BirthsInsert(births: map<Id, nat>, db: Db, call: Call, now: Time)
    requires BirthsOk(births, db.tickets, db.outbox) && call.drawn !in db.tickets
    ensures var db' := InsertTicket(db, call.drawn, call.key, call.bet, now, now);
            BirthsOk(births[call.drawn := |db.outbox|], db'.tickets, db'.outbox)
  {
  }

  lemma BirthsFrame(births: map<Id, nat>, db: Db, db': Db, now: Time)
    requires BirthsOk(births, db.tickets, db.outbox)
    requires Rewrites(db.tickets, db'.tickets, now) && OutboxGrows(db.outbox, db'.outbox, now)
    requires forall e | |db.outbox| <= e < |db'.outbox| ::
               db'.outbox[e].message.ticket in db.tickets && !db'.outbox[e].message.body.TicketBody?
    ensures BirthsOk(births, db'.tickets, db'.outbox)
  {
  }

  // Only create_ticket queues a TICKET message, and every row is about a known ticket.
  lemma NoTicketRow(cfg: Config, w: World, s: Step)
    requires Enabled(cfg, w, s) && !s.CreateInsert?
    ensures forall e | |w.db.outbox| <= e < |NextDb(cfg, w, s).outbox| ::
              NextDb(cfg, w, s).outbox[e].message.ticket in w.db.tickets
              && !NextDb(cfg, w, s).outbox[e].message.body.TicketBody?
    ensures NextBirths(w, s) == w.births
  {
  }

  lemma CreationFrame(calls: map<Id, Call>, tickets: map<Id, Ticket>, tickets': map<Id, Ticket>, now: Time)
    requires CreationOk(calls, tickets, now) && Rewrites(tickets, tickets', now)
    ensures CreationOk(calls, tickets', now + 1)
  {
  }

  lemma CreationLookup(w: World, k: Id, key: string, bet: Bet, found: Option<Id>)
    requires CreationOk(w.calls, w.db.tickets, w.now) && k !in w.calls && Lookup(w.db.tickets, key, found)
    ensures CreationOk(NextCalls(w, CreateLookup(k, key, bet, found)), w.db.tickets, w.now + 1)
  {
  }

  lemma CreationReread(w: World, k: Id, found: Option<Id>)
    requires CreationOk(w.calls, w.db.tickets, w.now)
    requires k in w.calls && w.calls[k].phase.Conflicted? && Lookup(w.db.tickets, w.calls[k].key, found)
    ensures CreationOk(NextCalls(w, CreateReread(k, found)), w.db.tickets, w.now + 1)
  {
    assert CallOk(w.calls[k], w.db.tickets, w.now);
  }

  lemma CreationInsert(w: World, k: Id)
    requires k in w.calls && w.calls[k].phase.Missed? && CreationOk(w.calls, w.db.tickets, w.now)
    requires !Refused(w.db.tickets, w.calls[k].key, w.calls[k].bet)
    ensures CreationOk(w.calls[k := w.calls[k].(phase := Returned(w.calls[k].drawn, true))],
                       w.db.tickets[w.calls[k].drawn := NewTicket(w.calls[k].key, w.calls[k].bet, w.now)], w.now + 1)
  {
    var tickets' := w.db.tickets[w.calls[k].drawn := NewTicket(w.calls[k].key, w.calls[k].bet, w.now)];
    forall l | l in w.calls && w.calls[l].phase.Conflicted? ensures Refused(tickets', w.calls[l].key, w.calls[l].bet) {
      assert CallOk(w.calls[l], w.db.tickets, w.now);
      if KeyTaken(w.db.tickets, w.calls[l].key) {
        var t :| t in w.db.tickets && w.db.tickets[t].key == w.calls[l].key;
        assert t in tickets' && tickets'[t].key == w.calls[l].key;
      }
    }
  }

  lemma CreationInserted(cfg: Config, w: World, k: Id)
    requires Enabled(cfg, w, CreateInsert(k)) && CreationOk(w.calls, w.db.tickets, w.now)
    ensures CreationOk(NextCalls(w, CreateInsert(k)), NextDb(cfg, w, CreateInsert(k)).tickets, w.now + 1)
  {
    if Refused(w.db.tickets, w.calls[k].key, w.calls[k].bet) {
      assert CallOk(w.calls[k], w.db.tickets, w.now);
    } else {
      hide CreationOk;
      CreationInsert(w, k);
    }
  }

  lemma CallsUnchanged(cfg: Config, w: World, s: Step)
    requires Enabled(cfg, w, s)
    ensures !s.CreateLookup? && !s.CreateReread? && !s.CreateInsert? ==> NextCalls(w, s) == w.calls
    ensures s.CreateLookup? || s.CreateReread? ==> NextDb(cfg, w, s) == w.db
  {
    hide Enabled;
  }

  lemma CreationStep(cfg: Config, w: World, s: Step)
    requires Enabled(cfg, w, s) && CreationOk(w.calls, w.db.tickets, w.now)
    ensures CreationOk(NextCalls(w, s), NextDb(cfg, w, s).tickets, w.now + 1)
  {
    hide NextDb, NextCalls, CreationOk, Lookup, FindStuck, FetchPending;
    CallsUnchanged(cfg, w, s);
    if s.CreateLookup? {
      CreationLookup(w, s.k, s.key, s.bet, s.found);
    } else if s.CreateReread? {
      CreationReread(w, s.k, s.found);
    } else if s.CreateInsert? {
      CreationInserted(cfg, w, s.k);
    } else {
      RewritesStep(cfg, w, s);
      CreationFrame(w.calls, w.db.tickets, NextDb(cfg, w, s).tickets, w.now);
    }
  }

  // ----- claims and settlements

  lemma ClaimsHandle(cfg: Config, w: World, c: Id)
    requires Enabled(cfg, w, ConsumerHandle(c)) && ClaimsOk(w.settlements, w.db.inbox)
    ensures ClaimsOk(NextSettlements(cfg, w, ConsumerHandle(c)), NextDb(cfg, w, ConsumerHandle(c)).inbox)
  {
  }

  lemma SettlementKeys(cfg: Config, w: World, s: Step)
    requires Enabled(cfg, w, s) && !s.ConsumerHandle?
    ensures NextSettlements(cfg, w, s).Keys == w.settlements.Keys
  {
    hide Enabled;
  }

  lemma ClaimsStep(cfg: Config, w: World, s: Step)
    requires Enabled(cfg, w, s) && ClaimsOk(w.settlements, w.db.inbox)
    ensures ClaimsOk(NextSettlements(cfg, w, s), NextDb(cfg, w, s).inbox)
  {
    hide Enabled, NextDb, NextSettlements;
    if s.ConsumerHandle? {
      ClaimsHandle(cfg, w, s.c);
    } else {
      InboxUnchanged(cfg, w, s);
      SettlementKeys(cfg, w, s);
      assert forall m :: m in NextSettlements(cfg, w, s) <==> m in w.settlements;
    }
  }

  ghost predicate SettledSoFar(w: World) {
    SettlementsOk(w.settlements, w.issued, w.inq, w.db.outbox, w.causes, w.now)
  }

  // Steps that touch no busy handler and queue no acknowledgement.
  lemma SettlementsFrame(w: World, issued: map<Id, Issue>, inq: map<Id, InCopy>, outbox: seq<Row>)
    requires SettledSoFar(w)
    requires forall f | f in w.issued :: f in issued && issued[f] == w.issued[f]
    requires OutboxGrows(w.db.outbox, outbox, w.now)
    requires forall e | |w.db.outbox| <= e < |outbox| :: !IsAck(outbox[e].message.body)
    requires forall c | c in w.inq && Busy(w.inq[c].phase) :: c in inq && inq[c] == w.inq[c]
    requires forall c | c in inq && Busy(inq[c].phase) :: c in w.inq && inq[c] == w.inq[c]
    ensures SettlementsOk(w.settlements, issued, inq, outbox, w.causes, w.now + 1)
  {
  }

  lemma SettlementsStart(w: World, c: Id, m: Message)
    requires SettledSoFar(w) && InIn(w, c, WithConsumer) && w.inq[c].message == m
    requires m.id !in w.settlements && m.body.Recommendation?
    requires m.id in w.issued && w.issued[m.id].message == m
    ensures SettlementsOk(w.settlements[m.id := Settlement(w.now, 0, None, None, InFlight(c))], w.issued,
                          w.inq[c := w.inq[c].(phase := CallingMonolith)], w.db.outbox, w.causes, w.now + 1)
  {
  }

  lemma SettlementsCall(w: World, c: Id, m: Message, ok: bool)
    requires SettledSoFar(w) && InIn(w, c, CallingMonolith) && w.inq[c].message == m && m.body.Recommendation?
    requires m.id in w.issued && w.issued[m.id].message == m
    ensures SettlementsOk(Called(w.settlements, m.id, m.body.action, ok, w.now), w.issued,
                          w.inq[c := w.inq[c].(phase := if ok then MonolithOk else MonolithFailed)],
                          w.db.outbox, w.causes, w.now + 1)
  {
  }

  // The handler leaves the busy phases without queueing an acknowledgement.
  lemma SettlementsLeave(w: World, c: Id, stage: Stage, phase: InPhase, returned: nat, outbox: seq<Row>)
    requires SettledSoFar(w) && c in w.inq && Busy(w.inq[c].phase) && !Busy(phase)
    requires match stage
             case CancelQueued => w.inq[c].phase.MonolithFailed?
             case Skipped => w.inq[c].phase.MonolithOk?
             case Crashed => true
             case _ => false
    requires OutboxGrows(w.db.outbox, outbox, w.now)
    requires forall e | |w.db.outbox| <= e < |outbox| :: !IsAck(outbox[e].message.body)
    ensures SettlementsOk(Noted(w.settlements, w.inq[c].message.id, stage), w.issued,
                          w.inq[c := InCopy(w.inq[c].message, returned, phase)], outbox, w.causes, w.now + 1)
  {
  }

  lemma SettlementsAck(w: World, c: Id, m: Message)
    requires SettledSoFar(w) && InIn(w, c, MonolithOk) && w.inq[c].message == m && m.body.Recommendation?
    requires m.id in w.issued && w.issued[m.id].message == m
    ensures SettlementsOk(Noted(w.settlements, m.id, AckQueued(|w.db.outbox|)), w.issued,
                          w.inq[c := w.inq[c].(phase := Handled)],
                          w.db.outbox + [NewRow(Message(w.now, m.ticket, AckBody(m.body.action)), w.now)],
                          w.causes[|w.db.outbox| := m.id], w.now + 1)
  {
    BusyStage(w, c);
    assert SettlementOk(m.id, w.settlements[m.id], w.issued, w.inq, w.db.outbox, w.causes, w.now);
    var outbox' := w.db.outbox + [NewRow(Message(w.now, m.ticket, AckBody(m.body.action)), w.now)];
    assert forall e | 0 <= e < |w.db.outbox| :: outbox'[e] == w.db.outbox[e];
  }

  // The steps that concern no busy handler.
  ghost predicate Elsewhere(w: World, s: Step) {
    && !s.CallMonolith? && !s.ConsumerSettle? && !s.ConsumerCancel?
    && (s.ConsumerHandle? && s.c in w.inq ==> !StartsSettlement(w.db, w.inq[s.c].message))
    && (s.InReturn? && s.c in w.inq ==> !Busy(w.inq[s.c].phase))
  }

  lemma OtherHandlers(cfg: Config, w: World, s: Step)
    requires Enabled(cfg, w, s) && Elsewhere(w, s)
    ensures NextSettlements(cfg, w, s) == w.settlements && NextCauses(cfg, w, s) == w.causes
  {
    hide FindStuck, Lookup, FetchPending, StartsSettlement;
  }

  lemma MovedIdle(cfg: Config, w: World, s: Step, c: Id)
    requires Enabled(cfg, w, s) && Elsewhere(w, s) && w.now !in w.inq && Moved(w, s) == Some(c)
    ensures (c in w.inq ==> !Busy(w.inq[c].phase)) && c in NextInq(cfg, w, s) && !Busy(NextInq(cfg, w, s)[c].phase)
  {
    hide FindStuck, Lookup, FetchPending, StartsSettlement;
  }

  lemma NoAckElsewhere(cfg: Config, w: World, s: Step)
    requires Enabled(cfg, w, s) && Elsewhere(w, s)
    ensures forall e | |w.db.outbox| <= e < |NextDb(cfg, w, s).outbox| :: !IsAck(NextDb(cfg, w, s).outbox[e].message.body)
  {
    hide FindStuck, Lookup, FetchPending;
  }

  ghost predicate SettledAfter(cfg: Config, w: World, s: Step)
    requires Enabled(cfg, w, s)
  {
    SettlementsOk(NextSettlements(cfg, w, s), NextIssued(w, s), NextInq(cfg, w, s),
                  NextDb(cfg, w, s).outbox, NextCauses(cfg, w, s), w.now + 1)
  }

  lemma BusyHandle(cfg: Config, w: World, c: Id)
    requires Enabled(cfg, w, ConsumerHandle(c)) && StartsSettlement(w.db, w.inq[c].message) && SettledSoFar(w)
    requires InCopiesOk(w.inq, w.issued, w.now) && ClaimsOk(w.settlements, w.db.inbox)
    ensures SettledAfter(cfg, w, ConsumerHandle(c))
  {
    SettlementsStart(w, c, w.inq[c].message);
  }

  lemma BusyCall(cfg: Config, w: World, c: Id, action: Action, ok: bool)
    requires Enabled(cfg, w, CallMonolith(c, action, ok)) && SettledSoFar(w) && InCopiesOk(w.inq, w.issued, w.now)
    ensures SettledAfter(cfg, w, CallMonolith(c, action, ok))
  {
    SettlementsCall(w, c, w.inq[c].message, ok);
  }

  lemma BusySettle(cfg: Config, w: World, c: Id)
    requires Enabled(cfg, w, ConsumerSettle(c)) && SettledSoFar(w) && InCopiesOk(w.inq, w.issued, w.now)
    ensures SettledAfter(cfg, w, ConsumerSettle(c))
  {
    hide SettlementsOk;
    if WillSettle(cfg, w, c) {
      SettlementsAck(w, c, w.inq[c].message);
    } else {
      SettlementsLeave(w, c, Skipped, Handled, w.inq[c].returned, w.db.outbox);
    }
  }

  lemma BusyCancel(cfg: Config, w: World, c: Id, why: string)
    requires Enabled(cfg, w, ConsumerCancel(c, why)) && SettledSoFar(w)
    ensures SettledAfter(cfg, w, ConsumerCancel(c, why))
  {
    hide SettlementsOk;
    SettlementsLeave(w, c, CancelQueued, Handled, w.inq[c].returned, NextDb(cfg, w, ConsumerCancel(c, why)).outbox);
  }

  lemma BusyReturn(cfg: Config, w: World, c: Id)
    requires Enabled(cfg, w, InReturn(c)) && Busy(w.inq[c].phase) && SettledSoFar(w)
    ensures SettledAfter(cfg, w, InReturn(c))
  {
    hide SettlementsOk;
    var q := ReturnedIn(cfg, w.inq[c]);
    SettlementsLeave(w, c, Crashed, q.phase, q.returned, w.db.outbox);
  }

  lemma SettlementsBusy(cfg: Config, w: World, s: Step)
    requires Enabled(cfg, w, s) && !Elsewhere(w, s) && SettledSoFar(w)
    requires InCopiesOk(w.inq, w.issued, w.now) && ClaimsOk(w.settlements, w.db.inbox)
    ensures SettledAfter(cfg, w, s)
  {
    hide SettledAfter, SettledSoFar, InCopiesOk, ClaimsOk, FindStuck, Lookup, FetchPending;
    match s
    case ConsumerHandle(c) => BusyHandle(cfg, w, c);
    case CallMonolith(c, action, ok) => BusyCall(cfg, w, c, action, ok);
    case ConsumerSettle(c) => BusySettle(cfg, w, c);
    case ConsumerCancel(c, why) => BusyCancel(cfg, w, c, why);
    case InReturn(c) => BusyReturn(cfg, w, c);
  }

  lemma SettlementsStep(cfg: Config, w: World, s: Step)
    requires Enabled(cfg, w, s) && Links(w) && ClaimsOk(w.settlements, w.db.inbox) && SettledSoFar(w)
    ensures SettledAfter(cfg, w, s)
  {
    hide Enabled, SettlementsOk, RowsOk, OutCopiesOk, IssuedOk, InboxOk, ClaimsOk, NextSettlements, NextCauses;
    hide NextDb, NextIssued;
    if Elsewhere(w, s) {
      OutboxStep(cfg, w, s);
      NotYetDrawn(w);
      MovesOneCopy(cfg, w, s);
      OtherHandlers(cfg, w, s);
      if Moved(w, s).Some? {
        MovedIdle(cfg, w, s, Moved(w, s).value);
      }
      NoAckElsewhere(cfg, w, s);
      IssuedGrowStep(cfg, w, s);
      SettlementsFrame(w, NextIssued(w, s), NextInq(cfg, w, s), NextDb(cfg, w, s).outbox);
    } else {
      SettlementsBusy(cfg, w, s);
    }
  }
}
