/** The services as they run: sessions with an identity map, and methods that change the tables step by step. */
module Services {
  import opened Domain
  import opened Store
  import System
  import Consumer
  import Effects

  // A database session. `draft` is the open transaction's view of the tables; `loaded` is the
  // identity map: the status of each ticket object the session holds. It survives a commit.
  class Session {
    var store: Db
    var draft: Db
    var loaded: map<Id, Status>
    const freshReread: bool

    constructor (store: Db, freshReread: bool)
      ensures this.store == store && draft == store && loaded == map[] && this.freshReread == freshReread
    {
      this.store := store;
      this.draft := store;
      this.loaded := map[];
      this.freshReread := freshReread;
    }

    method Commit()
      modifies this`store
      ensures store == draft
    {
      store := draft;
    }

    method Rollback()
      modifies this`draft, this`loaded
      ensures draft == store && loaded == map[]
    {
      draft, loaded := store, map[];
    }

    // Other processes have committed while this session had nothing of its own open.
    method Resume(others: Db)
      requires draft == store
      modifies this`store, this`draft
      ensures store == others && draft == others
    {
      store, draft := others, others;
    }

    // The status this session works with once it has locked row t.
    function Sees(t: Id): Status
      requires t in draft.tickets
      reads this
    {
      if !freshReread && t in loaded then loaded[t] else draft.tickets[t].status
    }

    // get_by_id_for_update
    method Lock(t: Id) returns (found: bool)
      modifies this`loaded
      ensures found <==> t in draft.tickets
      ensures loaded == if found then old(loaded)[t := old(Sees(t))] else old(loaded)
    {
      found := t in draft.tickets;
      if found {
        loaded := loaded[t := Sees(t)];
      }
    }

    // _change_status, without its commit
    method ChangeStatus(t: Id, to: Status, now: Time)
      requires t in draft.tickets && t in loaded
      modifies this`draft, this`loaded
      ensures loaded == old(loaded)[t := to]
      ensures draft == old(draft).(tickets := old(draft).tickets[t := old(draft).tickets[t].(
                status := Written(old(draft).tickets[t].status, old(loaded)[t], to), updatedAt := now)])
    {
      var row := draft.tickets[t].(updatedAt := now);
      if loaded[t] != to {
        row := row.(status := to);
        loaded := loaded[t := to];
      }
      draft := draft.(tickets := draft.tickets[t := row]);
      assert loaded == old(loaded)[t := to];
    }

    // OutboxRepository.add
    method AddEvent(m: Message, now: Time)
      modifies this`draft
      ensures draft == old(draft).(outbox := old(draft).outbox + [NewRow(m, now)])
    {
      draft := draft.(outbox := draft.outbox + [NewRow(m, now)]);
    }

    // get_by_idempotency_key
    method FindByKey(key: string) returns (found: Option<Id>)
      ensures Lookup(draft.tickets, key, found)
    {
      if t :| t in draft.tickets && draft.tickets[t].key == key {
        found := Some(t);
      } else {
        found := None;
      }
    }

    // InboxRepository.try_claim
    method TryClaim(m: Message, now: Time) returns (claimed: bool)
      modifies this`draft
      ensures claimed <==> m.id !in old(draft).inbox
      ensures draft == if claimed then Claimed(old(draft), m, now) else old(draft)
    {
      claimed := m.id !in draft.inbox;
      if claimed {
        draft := Claimed(draft, m, now);
      }
    }
  }

  // ----- what the service's methods add up to

  // apply_recommendation on a session whose view is db. `others` is what the other processes
  // commit while the monolith is called, between the two transactions.
  predicate Open(db: Db, t: Id) {
    t in db.tickets && !Terminal(db.tickets[t].status)
  }

  function Between(db: Db, m: Message, o: Consumer.Outcome, others: Db -> Db): Db
    requires m.body.Recommendation? && Open(db, m.ticket)
  {
    others(db.(tickets := db.tickets[m.ticket :=
      RecommendedRow(db.tickets[m.ticket], m.body.action, m.body.reason, o.claimedAt)]))
  }

  function Applied(db: Db, m: Message, o: Consumer.Outcome, others: Db -> Db, freshReread: bool): Db
    requires m.body.Recommendation? && Open(db, m.ticket)
  {
    var between := Between(db, m, o, others);
    var seen :=
      if freshReread && m.ticket in between.tickets then between.tickets[m.ticket].status else Recommended(m.body.action);
    Consumer.SecondTransaction(between, m, seen, o)
  }

  // The calls this makes, and whether an exception leaves it.
  function Asked(db: Db, m: Message, o: Consumer.Outcome, others: Db -> Db): seq<(Id, Option<Action>)>
    requires m.body.Recommendation? && Open(db, m.ticket)
  {
    [(m.ticket, Some(m.body.action))]
    + if o.settle.MonolithError? && m.ticket in Between(db, m, o, others).tickets then [(m.ticket, None)] else []
  }

  predicate Escapes(db: Db, m: Message, o: Consumer.Outcome, others: Db -> Db)
    requires m.body.Recommendation? && Open(db, m.ticket)
  {
    o.settle.OtherError? ||
    (o.settle.MonolithError? && m.ticket in Between(db, m, o, others).tickets && o.cancel.OtherError?)
  }

  // The whole handling of a frame by the consumer.
  function HandledAmid(db: Db, m: Message, o: Consumer.Outcome, others: Db -> Db, freshReread: bool): Db {
    if StartsSettlement(db, m) then Applied(Claimed(db, m, o.claimedAt), m, o, others, freshReread)
    else FirstTransaction(db, m, o.claimedAt)
  }

  datatype Creation = Created(ticket: Id, created: bool) | Reraised

  // A call of create_ticket finds the key; or inserts the ticket with its TICKET row; or is
  // refused by a constraint, and then returns the ticket it finds, and re-raises exactly when it
  // finds none. The tables are `before` at its lookup, `racing` at its INSERT, `later` at its
  // second lookup, and it leaves them as `after`.
  ghost predicate Creates(before: Db, racing: Db, later: Db, key: string, bet: Bet, t: Id, id: Id, now: Time,
                          after: Db, result: Creation) {
    if KeyTaken(before.tickets, key) then
      after == before && result.Created? && !result.created && Lookup(before.tickets, key, Some(result.ticket))
    else if !Refused(racing.tickets, key, bet) then
      after == InsertTicket(racing, t, key, bet, id, now) && result == Created(t, true)
    else
      && after == later
      && (result.Created? ==> !result.created && Lookup(later.tickets, key, Some(result.ticket)))
      && (result.Reraised? <==> !KeyTaken(later.tickets, key))
  }

  // FakeMonolithClient; the answer to each call is a parameter, `calls` is what it was asked.
  class MonolithClient {
    var calls: seq<(Id, Option<Action>)>

    constructor ()
      ensures calls == []
    {
      calls := [];
    }

    method ProcessTicket(t: Id, action: Option<Action>, roll: Answer) returns (answer: Answer)
      modifies this
      ensures answer == roll && calls == old(calls) + [(t, action)]
    {
      calls := calls + [(t, action)];
      answer := roll;
    }
  }

  class TicketService {
    const session: Session
    const monolith: MonolithClient

    constructor (session: Session, monolith: MonolithClient)
      ensures this.session == session && this.monolith == monolith
    {
      this.session := session;
      this.monolith := monolith;
    }

    // create_ticket. Other calls may commit between the lookup and the insert (`racing`), and
    // between the failed insert and the second lookup (`later`).
    method CreateTicket(key: string, bet: Bet, t: Id, id: Id, now: Time, racing: Db, later: Db)
      returns (result: Creation)
      requires session.draft == session.store
      modifies session
      ensures session.draft == session.store
      ensures Creates(old(session.store), racing, later, key, bet, t, id, now, session.store, result)
    {
      var existing := session.FindByKey(key);
      if existing.Some? {
        return Created(existing.value, false);
      }
      session.Resume(racing);
      var duplicate := session.FindByKey(key);
      if duplicate.Some? || bet.stake <= 0.0 {
        // A constraint fails the INSERT.
        session.Rollback();
        session.Resume(later);
        existing := session.FindByKey(key);
        return if existing.None? then Reraised else Created(existing.value, false);
      }
      session.draft := InsertTicket(session.draft, t, key, bet, id, now);
      session.Commit();
      return Created(t, true);
    }

    method ApplyRecommendation(m: Message, o: Consumer.Outcome, others: Db -> Db) returns (raised: bool)
      requires m.body.Recommendation? && session.loaded == map[]
      modifies session, monolith
      ensures if Open(old(session.draft), m.ticket)
              then session.store == Applied(old(session.draft), m, o, others, session.freshReread)
                   && session.draft == session.store
              else session.store == old(session.store) && session.draft == old(session.draft)
      ensures raised <==> Open(old(session.draft), m.ticket) && Escapes(old(session.draft), m, o, others)
      ensures monolith.calls == old(monolith.calls)
              + if Open(old(session.draft), m.ticket) then Asked(old(session.draft), m, o, others) else []
    {
      var t := m.ticket;
      var found := session.Lock(t);
      if !found || Terminal(session.loaded[t]) {
        return false;
      }
      session.draft := session.draft.(tickets := session.draft.tickets[t := session.draft.tickets[t].(
        recommendation := Some(m.body.action), reason := m.body.reason, recommendedAt := Some(o.claimedAt))]);
      session.ChangeStatus(t, Recommended(m.body.action), o.claimedAt);
      session.Commit();
      assert others(session.store) == Between(old(session.draft), m, o, others) by {
        assert session.store == old(session.draft).(tickets := old(session.draft).tickets[t :=
          RecommendedRow(old(session.draft).tickets[t], m.body.action, m.body.reason, o.claimedAt)]);
      }

      var answer := monolith.ProcessTicket(t, Some(m.body.action), o.settle);
      session.Resume(others(session.store));
      match answer
      case OtherError => raised := true;
      case MonolithError => raised := RequestCancellation(t, o.why, o.queuedId, o.queuedAt, o.cancel);
      case Processed =>
        SettleTicket(t, m.body.action, o.queuedId, o.queuedAt);
        raised := false;
    }

    // The second transaction of apply_recommendation.
    method SettleTicket(t: Id, action: Action, id: Id, now: Time)
      requires session.draft == session.store
      modifies session
      ensures session.draft == session.store
      ensures session.store == if t in old(session.draft).tickets
                               then Settle(old(session.draft), t, action, old(session.Sees(t)), id, now)
                               else old(session.draft)
    {
      var found := session.Lock(t);
      if !found || Terminal(session.loaded[t]) {
        session.Commit();
        return;
      }
      session.draft := session.draft.(tickets := session.draft.tickets[t := session.draft.tickets[t].(
        settledAt := Some(now))]);
      session.ChangeStatus(t, Settled, now);
      session.AddEvent(Message(id, t, AckBody(action)), now);
      session.Commit();
    }

    // Whether the monolith processes the cancellation or raises its own error, the request goes
    // out; any other exception escapes before anything is written.
    method RequestCancellation(t: Id, why: string, id: Id, now: Time, roll: Answer) returns (raised: bool)
      requires session.draft == session.store
      modifies session, monolith
      ensures session.draft == session.store
      ensures raised <==> t in old(session.draft).tickets && roll.OtherError?
      ensures session.store == if t in old(session.draft).tickets && !raised
                               then RequestCancel(old(session.draft), t, old(session.Sees(t)), why, id, now)
                               else old(session.draft)
      ensures session.loaded == if t in old(session.draft).tickets
                                then old(session.loaded)[t := if raised then old(session.Sees(t)) else CancellationRequested]
                                else old(session.loaded)
      ensures monolith.calls == old(monolith.calls) + if t in old(session.draft).tickets then [(t, None)] else []
    {
      var found := session.Lock(t);
      if !found {
        return false;
      }
      var answer := monolith.ProcessTicket(t, None, roll);
      if answer.OtherError? {
        return true;
      }
      session.draft := session.draft.(tickets := session.draft.tickets[t := session.draft.tickets[t].(
        failureReason := Some(Truncated(why, 1024)), cancelledAt := Some(now))]);
      session.ChangeStatus(t, CancellationRequested, now);
      session.AddEvent(Message(id, t, Body.RequestCancellation(why)), now);
      session.Commit();
      return false;
    }

    method MarkCancellationApplied(t: Id, now: Time)
      requires session.loaded == map[]
      modifies session
      ensures if t in old(session.draft).tickets && !old(session.draft).tickets[t].status.Cancelled?
              then session.store == old(session.draft).(tickets := old(session.draft).tickets[t :=
                     CancelledRow(old(session.draft).tickets[t], now)]) && session.draft == session.store
              else session.store == old(session.store) && session.draft == old(session.draft)
    {
      var found := session.Lock(t);
      if !found || session.loaded[t].Cancelled? {
        return;
      }
      session.draft := session.draft.(tickets := session.draft.tickets[t := session.draft.tickets[t].(
        cancelledAt := Some(session.draft.tickets[t].cancelledAt.GetOr(now)))]);
      session.ChangeStatus(t, Cancelled, now);
      session.Commit();
    }
  }

  // ProviderConsumerWorker._handle, on a session of its own: the claim is committed with the
  // first commit of the service, and given up when the service ends without one.
  method HandleFrame(session: Session, monolith: MonolithClient, m: Message, o: Consumer.Outcome, others: Db -> Db)
    returns (raised: bool)
    requires session.draft == session.store && session.loaded == map[]
    modifies session, monolith
    ensures session.store == HandledAmid(old(session.store), m, o, others, session.freshReread)
    ensures session.draft == session.store
    ensures raised <==> StartsSettlement(old(session.store), m)
                        && Escapes(Claimed(old(session.store), m, o.claimedAt), m, o, others)
    ensures monolith.calls == old(monolith.calls)
            + if StartsSettlement(old(session.store), m)
              then Asked(Claimed(old(session.store), m, o.claimedAt), m, o, others) else []
  {
    raised := false;
    if !m.body.Recommendation? && !m.body.CancellationApplied? {
      return;
    }
    var claimed := session.TryClaim(m, o.claimedAt);
    if claimed {
      var service := new TicketService(session, monolith);
      if m.body.Recommendation? {
        raised := service.ApplyRecommendation(m, o, others);
      } else {
        service.MarkCancellationApplied(m.ticket, o.claimedAt);
      }
    }
    session.Rollback();
  }

  // With nobody else around, the method is the consumer whose duplicates are harmless.
  lemma AloneIsHandle(db: Db, m: Message, o: Consumer.Outcome, freshReread: bool)
    ensures HandledAmid(db, m, o, x => x, freshReread) == Consumer.Handle(db, m, o)
  {
  }

  // The two readings of the second lock differ exactly when the monolith has processed a
  // recommendation whose ticket became terminal in the meantime.
  lemma ReadingsDiffer(db: Db, m: Message, o: Consumer.Outcome, others: Db -> Db)
    requires m.body.Recommendation? && Open(db, m.ticket)
    ensures var between := Between(db, m, o, others);
            Applied(db, m, o, others, true) != Applied(db, m, o, others, false)
            <==> o.settle.Processed? && m.ticket in between.tickets && Terminal(between.tickets[m.ticket].status)
  {
    var between := Between(db, m, o, others);
    if o.settle.Processed? && m.ticket in between.tickets && Terminal(between.tickets[m.ticket].status) {
      assert |Applied(db, m, o, others, false).outbox| == |between.outbox| + 1;
    }
  }

  // Once the handling of a frame has changed anything, no frame with its id is ever handled
  // again, whatever the tables have come to in between.
  lemma ClaimedForGood(db: Db, m: Message, o: Consumer.Outcome, others: Db -> Db, freshReread: bool,
                       later: Db, again: Message, o': Consumer.Outcome, others': Db -> Db, freshReread': bool)
    requires forall x: Db, id | id in x.inbox :: id in others(x).inbox
    requires HandledAmid(db, m, o, others, freshReread) != db && again.id == m.id
    requires HandledAmid(db, m, o, others, freshReread).inbox.Keys <= later.inbox.Keys
    ensures HandledAmid(later, again, o', others', freshReread') == later
  {
    assert m.id in HandledAmid(db, m, o, others, freshReread).inbox;
  }

  // The whole handling claims a frame exactly when it is due, and a frame that is not due changes
  // nothing and asks the monolith nothing.
  lemma ClaimsExactlyWhenDue(db: Db, m: Message, o: Consumer.Outcome, others: Db -> Db, freshReread: bool)
    requires forall x: Db, id | id in x.inbox :: id in others(x).inbox
    ensures var db' := HandledAmid(db, m, o, others, freshReread);
            var due := Effects.RecommendationDue(db, m) || Effects.CancellationDue(db, m);
            (m.id !in db.inbox && m.id in db'.inbox <==> due) && (!due ==> db' == db)
    ensures StartsSettlement(db, m) <==> Effects.RecommendationDue(db, m)
  {
    if Effects.RecommendationDue(db, m) {
      var claimed := Claimed(db, m, o.claimedAt);
      assert m.id in Between(claimed, m, o, others).inbox;
    }
  }

  // A due recommendation is committed, and only then the monolith is asked: once, to settle this
  // ticket with the action that the committed row shows; and once more, for the cancellation,
  // exactly when it answers with its own error and the ticket is still there. Any other exception
  // of either call escapes.
  lemma AsksWhatTheRowShows(db: Db, m: Message, o: Consumer.Outcome, others: Db -> Db)
    requires Effects.RecommendationDue(db, m)
    ensures var claimed := Claimed(db, m, o.claimedAt);
            var first := FirstTransaction(db, m, o.claimedAt);
            && Open(claimed, m.ticket) && m.ticket in first.tickets
            && first.tickets[m.ticket].recommendation == Some(m.body.action)
            && first.tickets[m.ticket].reason == m.body.reason
            && Between(claimed, m, o, others) == others(first)
            && var asked := Asked(claimed, m, o, others);
               var cancels := o.settle == MonolithError && m.ticket in others(first).tickets;
               && |asked| == (if cancels then 2 else 1)
               && asked[0] == (m.ticket, first.tickets[m.ticket].recommendation)
               && (cancels ==> asked[1] == (m.ticket, None))
               && (Escapes(claimed, m, o, others) <==> o.settle == OtherError || (cancels && o.cancel == OtherError))
  {
  }

  // In the system, the two halves of the method are the steps ConsumerHandle and, from
  // whatever the others have left by then, ConsumerSettle or ConsumerCancel.
  lemma HandleIsTheSteps(cfg: System.Config, w: System.World, w': System.World, c: Id, o: Consumer.Outcome, others: Db -> Db)
    requires System.InIn(w, c, System.WithConsumer) && c in w'.inq && w'.inq[c].message == w.inq[c].message
    requires others(System.NextDb(cfg, w, System.ConsumerHandle(c))) == w'.db
    requires match o.settle
             case Processed => w'.inq[c].phase == System.MonolithOk
             case MonolithError => w'.inq[c].phase == System.MonolithFailed
             case OtherError => w'.inq[c].phase == System.MonolithFailed
    requires o.claimedAt == w.now && o.queuedAt == w'.now && o.queuedId == w'.now
    ensures var m := w.inq[c].message;
            HandledAmid(w.db, m, o, others, cfg.freshReread)
            == if !StartsSettlement(w.db, m) then System.NextDb(cfg, w, System.ConsumerHandle(c))
               else System.NextDb(cfg, w', SecondHalf(c, o))
  {
  }

  // A call that raises anything but the monolith's own error is a failed CallMonolith as well; the
  // exception then returns the frame to its queue.
  function SecondHalf(c: Id, o: Consumer.Outcome): System.Step {
    match o.settle
    case Processed => System.ConsumerSettle(c)
    case MonolithError => if o.cancel.OtherError? then System.InReturn(c) else System.ConsumerCancel(c, o.why)
    case OtherError => System.InReturn(c)
  }

  function ResultOf(phase: System.CallPhase): Creation
    requires phase.Returned? || phase.Raised?
  {
    if phase.Returned? then Created(phase.ticket, phase.created) else Reraised
  }

  // In the system, create_ticket is CreateLookup, then CreateInsert from whatever the others
  // have left by then, then CreateReread likewise: each ending is one that the method can have.
  lemma CreateIsTheSteps(cfg: System.Config, w0: System.World, w1: System.World, w2: System.World,
                         k: Id, key: string, bet: Bet, found: Option<Id>, again: Option<Id>)
    requires System.Enabled(cfg, w0, System.CreateLookup(k, key, bet, found))
    requires k in w1.calls && w1.calls[k] == System.NextCalls(w0, System.CreateLookup(k, key, bet, found))[k]
    requires k in w2.calls && w2.calls[k] == System.NextCalls(w1, System.CreateInsert(k))[k]
    requires Lookup(w2.db.tickets, key, again)
    ensures found.Some? ==>
              && w1.calls[k].phase.Returned?
              && Creates(w0.db, w1.db, w2.db, key, bet, w0.now, w1.now, w1.now, w0.db, ResultOf(w1.calls[k].phase))
    ensures found.None? ==>
              var insert := System.CreateInsert(k);
              && System.Enabled(cfg, w1, insert)
              && if !Refused(w1.db.tickets, key, bet) then
                   && w2.calls[k].phase.Returned?
                   && Creates(w0.db, w1.db, w2.db, key, bet, w0.now, w1.now, w1.now, System.NextDb(cfg, w1, insert),
                              ResultOf(w2.calls[k].phase))
                 else
                   var reread := System.CreateReread(k, again);
                   && System.NextDb(cfg, w1, insert) == w1.db && System.Enabled(cfg, w2, reread)
                   && var phase := System.NextCalls(w2, reread)[k].phase;
                      && (phase.Returned? || phase.Raised?)
                      && Creates(w0.db, w1.db, w2.db, key, bet, w0.now, w1.now, w1.now, System.NextDb(cfg, w2, reread), ResultOf(phase))
  {
    assert again.Some? ==> KeyTaken(w2.db.tickets, key);
  }
}
