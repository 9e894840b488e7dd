/** The reconciler on its own: a tick as it runs, and how ticks drain the stuck tickets. */
module Reconciler {
  import opened Counting
  import opened Domain
  import opened Store
  import opened Services
  import System

  function Value(s: Status): string {
    match s
    case New => "new"
    case SentToProvider => "sent_to_provider"
    case RecommendedConfirm => "recommended_confirm"
    case RecommendedDecline => "recommended_decline"
    case Settled => "settled"
    case Confirmed => "confirmed"
    case Declined => "declined"
    case CancellationRequested => "cancellation_requested"
    case Cancelled => "cancelled"
    case Expired => "expired"
  }

  function Reason(s: Status): string {
    "reconciler: stuck in " + Value(s)
  }

  // The reason names the status, and fits the column.
  lemma ReasonNamesStatus(s: Status, r: Status)
    ensures Reason(s) == Reason(r) ==> s == r
    ensures "reconciler: stuck in " <= Reason(s) && |Reason(s)| <= 1024
  {
    assert Reason(s)[21..] == Value(s) && Reason(r)[21..] == Value(r);
  }

  function Reconciled(db: Db, t: Id, now: Time): Db
    requires t in db.tickets
  {
    var status := db.tickets[t].status;
    RequestCancel(db, t, status, Reason(status), now, now)
  }

  predicate Known(db: Db, batch: seq<Id>) {
    forall i | 0 <= i < |batch| :: batch[i] in db.tickets
  }

  // A tick over this batch with no competing writer; each request is committed one time
  // unit after the previous one.
  function Ticked(db: Db, batch: seq<Id>, now: Time): Db
    requires Known(db, batch)
    decreases batch
  {
    if batch == [] then db else Ticked(Reconciled(db, batch[0], now), batch[1..], now + 1)
  }

  // The tickets of the batch whose request goes through: an exception that is not the
  // monolith's own escapes from request_cancellation, and the loop goes on to the next ticket.
  function Progressed(batch: seq<Id>, answers: Id -> Answer): (done: seq<Id>)
    ensures forall t :: t in done <==> t in batch && !answers(t).OtherError?
    ensures |done| <= |batch|
    ensures (forall t | t in batch :: !answers(t).OtherError?) ==> done == batch
  {
    if batch == [] then []
    else (if answers(batch[0]).OtherError? then [] else [batch[0]]) + Progressed(batch[1..], answers)
  }

  // The calls to the monolith of a tick over this batch.
  function CancelCalls(batch: seq<Id>): seq<(Id, Option<Action>)> {
    seq(|batch|, i requires 0 <= i < |batch| => (batch[i], None))
  }

  class ReconcilerWorker {
    const session: Session
    const monolith: MonolithClient

    constructor (session: Session, monolith: MonolithClient)
      ensures this.session == session && this.monolith == monolith
    {
      this.session := session;
      this.monolith := monolith;
    }

    // The body of the loop: the second locked read finds what the query has loaded.
    method RecoverOne(service: TicketService, t: Id, now: Time, roll: Answer) returns (recovered: bool)
      requires service.session == session && service.monolith == monolith && session.draft == session.store
      requires t in session.store.tickets && t in session.loaded
      requires session.loaded[t] == session.store.tickets[t].status
      modifies session, monolith
      ensures recovered <==> !roll.OtherError?
      ensures session.draft == session.store
      ensures session.store == if recovered then Reconciled(old(session.store), t, now) else old(session.store)
      ensures session.loaded == if recovered then old(session.loaded)[t := CancellationRequested] else old(session.loaded)
      ensures monolith.calls == old(monolith.calls) + [(t, None)]
    {
      var raised := service.RequestCancellation(t, Reason(session.loaded[t]), now, now, roll);
      recovered := !raised;
    }

    // _recover_stuck_tickets. `stuck` is what the database answers to the find_stuck query while
    // other transactions hold the rows of `held`; `answers` are the monolith's.
    method RecoverStuckTickets(stuck: seq<Id>, threshold: int, limit: nat, now: Time, answers: Id -> Answer,
                               ghost held: set<Id>)
      requires session.draft == session.store && session.loaded == map[]
      requires OldestStuck(session.store.tickets - held, threshold, limit, stuck)
      modifies session, monolith
      ensures session.draft == session.store
      ensures Known(old(session.store), Progressed(stuck, answers))
      ensures session.store == Ticked(old(session.store), Progressed(stuck, answers), now)
      ensures monolith.calls == old(monolith.calls) + CancelCalls(stuck)
    {
      hide Ticked, Progressed;
      assert forall i | 0 <= i < |stuck| :: Stuck(session.store.tickets - held, threshold, stuck[i]);
      // The query has loaded every ticket of the batch.
      session.loaded := map t | t in stuck :: session.draft.tickets[t].status;
      RecoverEach(stuck, now, answers);
    }

    method RecoverEach(stuck: seq<Id>, now: Time, answers: Id -> Answer)
      requires session.draft == session.store
      requires LoadedAsStored(session.loaded, session.store, stuck)
      modifies session, monolith
      ensures session.draft == session.store
      ensures Known(old(session.store), Progressed(stuck, answers))
      ensures session.store == Ticked(old(session.store), Progressed(stuck, answers), now)
      ensures monolith.calls == old(monolith.calls) + CancelCalls(stuck)
    {
      hide Ticked, Reconciled, Progressed, LoadedAsStored;
      var service := new TicketService(session, monolith);
      var clock := now;
      assert stuck[0..] == stuck;
      LoadedKnown(session.loaded, session.store, stuck, answers);
      for i := 0 to |stuck|
        invariant session.draft == session.store
        invariant LoadedAsStored(session.loaded, session.store, stuck[i..])
        invariant Known(session.store, Progressed(stuck[i..], answers))
        invariant Ticked(old(session.store), Progressed(stuck, answers), now)
                  == Ticked(session.store, Progressed(stuck[i..], answers), clock)
        invariant monolith.calls == old(monolith.calls) + CancelCalls(stuck[..i])
      {
        ghost var rest := stuck[i..];
        assert rest[0] == stuck[i] && rest[1..] == stuck[i + 1..];
        LoadedHead(session.loaded, session.store, rest);
        TickedCons(session.store, rest, answers, clock);
        LoadedStays(session.loaded, session.store, rest, clock);
        var recovered := RecoverOne(service, stuck[i], clock, answers(stuck[i]));
        if recovered {
          clock := clock + 1;
        }
        assert CancelCalls(stuck[..i + 1]) == CancelCalls(stuck[..i]) + [(stuck[i], None)];
      }
      assert stuck[..|stuck|] == stuck;
      TickedNone(session.store, stuck[|stuck|..], answers, clock);
    }
  }

  ghost predicate LoadedAsStored(loaded: map<Id, Status>, db: Db, batch: seq<Id>) {
    && Distinct(batch)
    && forall i | 0 <= i < |batch| ::
         batch[i] in loaded && batch[i] in db.tickets && loaded[batch[i]] == db.tickets[batch[i]].status
  }

  lemma LoadedHead(loaded: map<Id, Status>, db: Db, batch: seq<Id>)
    requires batch != [] && LoadedAsStored(loaded, db, batch)
    ensures batch[0] in loaded && batch[0] in db.tickets && loaded[batch[0]] == db.tickets[batch[0]].status
  {
  }

  lemma LoadedKnown(loaded: map<Id, Status>, db: Db, batch: seq<Id>, answers: Id -> Answer)
    requires LoadedAsStored(loaded, db, batch)
    ensures Known(db, Progressed(batch, answers))
  {
    forall i | 0 <= i < |Progressed(batch, answers)| ensures Progressed(batch, answers)[i] in db.tickets {
      assert Progressed(batch, answers)[i] in batch;
    }
  }

  lemma LoadedStays(loaded: map<Id, Status>, db: Db, batch: seq<Id>, now: Time)
    requires batch != [] && LoadedAsStored(loaded, db, batch)
    ensures LoadedAsStored(loaded, db, batch[1..])
    ensures LoadedAsStored(loaded[batch[0] := CancellationRequested], Reconciled(db, batch[0], now), batch[1..])
  {
    assert forall i | 0 < i < |batch| :: batch[i] != batch[0] && batch[1..][i - 1] == batch[i];
  }

  lemma TickedCons(db: Db, batch: seq<Id>, answers: Id -> Answer, now: Time)
    requires batch != [] && batch[0] in db.tickets && Known(db, Progressed(batch, answers))
    ensures var rest := Progressed(batch[1..], answers);
            if answers(batch[0]).OtherError?
            then Known(db, rest) && Ticked(db, Progressed(batch, answers), now) == Ticked(db, rest, now)
            else Known(Reconciled(db, batch[0], now), rest)
                 && Ticked(db, Progressed(batch, answers), now) == Ticked(Reconciled(db, batch[0], now), rest, now + 1)
  {
    hide Reconciled;
    var rest := Progressed(batch[1..], answers);
    var done := Progressed(batch, answers);
    if answers(batch[0]).OtherError? {
      assert done == rest;
    } else {
      assert done == [batch[0]] + rest;
      assert done[1..] == rest;
      assert forall i | 0 <= i < |rest| :: rest[i] == done[i + 1];
      ReconciledKeys(db, batch[0], now);
    }
  }

  lemma ReconciledKeys(db: Db, t: Id, now: Time)
    requires t in db.tickets
    ensures Reconciled(db, t, now).tickets.Keys == db.tickets.Keys
  {
  }

  lemma TickedNone(db: Db, batch: seq<Id>, answers: Id -> Answer, now: Time)
    requires batch == []
    ensures Ticked(db, Progressed(batch, answers), now) == db
  {
  }

  // In the system, a request of a session whose read is current is a step of the tick; a request
  // that fails is TickSkip, or one of the tickets a TickStart has passed over.
  lemma RequestIsTheStep(cfg: System.Config, w: System.World, r: Id, batch: seq<Id>)
    requires batch != [] && batch[0] in w.db.tickets
    ensures var status := w.db.tickets[batch[0]].status;
            var start := System.TickStart(r, batch, Reason(status));
            var next := System.TickNext(r, Reason(status));
            && (System.Enabled(cfg, w, start) ==> System.NextDb(cfg, w, start) == Reconciled(w.db, batch[0], w.now))
            && (System.Enabled(cfg, w, next) && w.ticks[r][0] == System.Loaded(batch[0], status) ==>
                  System.NextDb(cfg, w, next) == Reconciled(w.db, batch[0], w.now))
  {
    hide FindStuck, Reason;
  }

  // ----- what a tick does to the tables

  ghost predicate Distinct(batch: seq<Id>) {
    forall i, j | 0 <= i < j < |batch| :: batch[i] != batch[j]
  }

  function RequestRow(db: Db, t: Id, now: Time): Row
    requires t in db.tickets
  {
    NewRow(Message(now, t, RequestCancellation(Reason(db.tickets[t].status))), now)
  }

  // The i-th ticket of the batch is moved, and the i-th new row asks for its cancellation.
  ghost predicate TicketsMoved(db: Db, batch: seq<Id>, now: Time, db': Db)
    requires Known(db, batch)
  {
    && db'.tickets.Keys == db.tickets.Keys
    && (forall t | t in db.tickets && t !in batch :: db'.tickets[t] == db.tickets[t])
    && (forall i | 0 <= i < |batch| ::
          && db'.tickets[batch[i]].status.CancellationRequested? && db'.tickets[batch[i]].updatedAt >= now
          && db'.tickets[batch[i]].failureReason == Some(Reason(db.tickets[batch[i]].status)))
  }

  ghost predicate RowsAdded(db: Db, batch: seq<Id>, now: Time, db': Db)
    requires Known(db, batch)
  {
    db'.outbox == db.outbox + seq(|batch|, i requires 0 <= i < |batch| => RequestRow(db, batch[i], now + i))
  }

  lemma EffectOne(db: Db, t: Id, now: Time)
    requires t in db.tickets
    ensures var db' := Reconciled(db, t, now);
            && db'.tickets.Keys == db.tickets.Keys && db'.inbox == db.inbox
            && (forall u | u in db.tickets && u != t :: db'.tickets[u] == db.tickets[u])
            && db'.tickets[t].status.CancellationRequested? && db'.tickets[t].updatedAt == now
            && db'.tickets[t].failureReason == Some(Reason(db.tickets[t].status))
            && db'.outbox == db.outbox + [RequestRow(db, t, now)]
  {
    assert |Reason(db.tickets[t].status)| <= 1024;
  }

  lemma MovedCons(db: Db, batch: seq<Id>, now: Time, next: Db, db': Db)
    requires batch != [] && Distinct(batch) && Known(db, batch) && Known(next, batch[1..])
    requires next.tickets.Keys == db.tickets.Keys
    requires forall u | u in db.tickets && u != batch[0] :: next.tickets[u] == db.tickets[u]
    requires next.tickets[batch[0]].status.CancellationRequested? && next.tickets[batch[0]].updatedAt == now
    requires next.tickets[batch[0]].failureReason == Some(Reason(db.tickets[batch[0]].status))
    requires TicketsMoved(next, batch[1..], now + 1, db')
    ensures TicketsMoved(db, batch, now, db')
  {
    hide Reason;
    assert batch == [batch[0]] + batch[1..];
    assert forall i | 0 < i < |batch| :: batch[i] != batch[0] && batch[1..][i - 1] == batch[i];
  }

  lemma AddedCons(db: Db, batch: seq<Id>, now: Time, next: Db, db': Db)
    requires batch != [] && Distinct(batch) && Known(db, batch) && Known(next, batch[1..])
    requires forall u | u in db.tickets && u != batch[0] :: u in next.tickets && next.tickets[u] == db.tickets[u]
    requires next.outbox == db.outbox + [RequestRow(db, batch[0], now)]
    requires RowsAdded(next, batch[1..], now + 1, db')
    ensures RowsAdded(db, batch, now, db')
  {
    hide Reason;
    assert forall i | 0 < i < |batch| :: batch[i] != batch[0] && batch[1..][i - 1] == batch[i];
    var rows := seq(|batch|, i requires 0 <= i < |batch| => RequestRow(db, batch[i], now + i));
    var rest := seq(|batch[1..]|, i requires 0 <= i < |batch[1..]| => RequestRow(next, batch[1..][i], now + 1 + i));
    assert rows == [RequestRow(db, batch[0], now)] + rest;
    assert db'.outbox == db.outbox + rows;
  }

  lemma {:induction false} TickEffect(db: Db, batch: seq<Id>, now: Time)
    requires Distinct(batch) && Known(db, batch)
    ensures TicketsMoved(db, batch, now, Ticked(db, batch, now))
    ensures RowsAdded(db, batch, now, Ticked(db, batch, now)) && Ticked(db, batch, now).inbox == db.inbox
    decreases batch
  {
    if batch != [] {
      hide Reason;
      var next := Reconciled(db, batch[0], now);
      EffectOne(db, batch[0], now);
      TickEffect(next, batch[1..], now + 1);
      MovedCons(db, batch, now, next, Ticked(db, batch, now));
      AddedCons(db, batch, now, next, Ticked(db, batch, now));
    }
  }

  // ----- draining

  ghost function StuckSet(tickets: map<Id, Ticket>, threshold: int): set<Id> {
    set t | t in tickets && Stuck(tickets, threshold, t)
  }

  function Min(a: nat, b: nat): nat {
    if a <= b then a else b
  }

  ghost function Elements(batch: seq<Id>): set<Id> {
    set t | t in batch
  }

  lemma {:induction false} ElementsSize(batch: seq<Id>)
    requires Distinct(batch)
    ensures |Elements(batch)| == |batch|
    decreases batch
  {
    if batch != [] {
      ElementsSize(batch[1..]);
      assert Elements(batch) == {batch[0]} + Elements(batch[1..]);
      assert forall i | 0 < i < |batch| :: batch[i] != batch[0];
    }
  }

  // The query's answer has the min(L, S) oldest stuck tickets.
  lemma BatchSize(tickets: map<Id, Ticket>, threshold: int, limit: nat, batch: seq<Id>)
    requires OldestStuck(tickets, threshold, limit, batch)
    ensures |batch| == Min(limit, |StuckSet(tickets, threshold)|)
    ensures Elements(batch) <= StuckSet(tickets, threshold) && |Elements(batch)| == |batch|
    ensures Distinct(batch) && forall t | t in batch :: Stuck(tickets, threshold, t)
  {
    ElementsSize(batch);
    var stuck := StuckSet(tickets, threshold);
    SubsetSize(Elements(batch), stuck);
    if |batch| < limit {
      assert forall t | t in stuck :: t in batch;
      assert Elements(batch) == stuck;
    }
  }

  lemma {:induction false} ProgressedDistinct(batch: seq<Id>, answers: Id -> Answer)
    requires Distinct(batch)
    ensures Distinct(Progressed(batch, answers))
    decreases batch
  {
    if batch != [] {
      ProgressedDistinct(batch[1..], answers);
      assert forall i | 0 < i < |batch| :: batch[i] != batch[0];
      assert batch[0] !in Progressed(batch[1..], answers);
    }
  }

  // A tick takes exactly the tickets whose request goes through out of the stuck set; unless the
  // monolith raises something other than its own error, these are the min(L, S) oldest.
  lemma TickDrains(db: Db, threshold: int, limit: nat, batch: seq<Id>, answers: Id -> Answer, now: Time)
    requires OldestStuck(db.tickets, threshold, limit, batch) && threshold <= now
    ensures var done := Progressed(batch, answers);
            && Known(db, done)
            && StuckSet(Ticked(db, done, now).tickets, threshold) == StuckSet(db.tickets, threshold) - Elements(done)
            && |StuckSet(Ticked(db, done, now).tickets, threshold)| == |StuckSet(db.tickets, threshold)| - |done|
            && ((forall t | t in batch :: !answers(t).OtherError?) ==> |done| == Min(limit, |StuckSet(db.tickets, threshold)|))
  {
    hide OldestStuck, Ticked;
    BatchSize(db.tickets, threshold, limit, batch);
    var done := Progressed(batch, answers);
    ProgressedDistinct(batch, answers);
    ElementsSize(done);
    DrainOf(db, threshold, done, now);
  }

  lemma DrainOf(db: Db, threshold: int, done: seq<Id>, now: Time)
    requires Distinct(done) && threshold <= now
    requires forall t | t in done :: Stuck(db.tickets, threshold, t)
    ensures Known(db, done)
    ensures StuckSet(Ticked(db, done, now).tickets, threshold) == StuckSet(db.tickets, threshold) - Elements(done)
  {
    hide Ticked;
    assert forall i | 0 <= i < |done| :: done[i] in done;
    TickEffect(db, done, now);
    var db' := Ticked(db, done, now);
    assert StuckSet(db'.tickets, threshold) == StuckSet(db.tickets, threshold) - Elements(done);
  }

  datatype Tick = Tick(batch: seq<Id>, now: Time)

  // Consecutive ticks with one fixed threshold, each on the database's answer at its time, all of
  // whose requests go through.
  ghost predicate Ticks(db: Db, ticks: seq<Tick>, threshold: int, limit: nat)
    decreases ticks
  {
    ticks == [] ||
    (OldestStuck(db.tickets, threshold, limit, ticks[0].batch) && threshold <= ticks[0].now
     && Known(db, ticks[0].batch)
     && Ticks(Ticked(db, ticks[0].batch, ticks[0].now), ticks[1..], threshold, limit))
  }

  ghost function AfterTicks(db: Db, ticks: seq<Tick>, threshold: int, limit: nat): Db
    requires Ticks(db, ticks, threshold, limit)
    decreases ticks
  {
    if ticks == [] then db
    else AfterTicks(Ticked(db, ticks[0].batch, ticks[0].now), ticks[1..], threshold, limit)
  }

  ghost function Left(stuck: nat, ticks: nat, limit: nat): nat {
    if ticks * limit <= stuck then stuck - ticks * limit else 0
  }

  lemma LeftStep(stuck: nat, ticks: nat, limit: nat)
    requires ticks > 0
    ensures Left(stuck, ticks, limit) == Left(stuck - Min(limit, stuck), ticks - 1, limit)
  {
    assert ticks * limit == (ticks - 1) * limit + limit;
  }

  lemma {:induction false} TicksDrain(db: Db, ticks: seq<Tick>, threshold: int, limit: nat)
    requires Ticks(db, ticks, threshold, limit)
    ensures |StuckSet(AfterTicks(db, ticks, threshold, limit).tickets, threshold)|
            == Left(|StuckSet(db.tickets, threshold)|, |ticks|, limit)
    decreases ticks
  {
    if ticks != [] {
      TickDrains(db, threshold, limit, ticks[0].batch, _ => Processed, ticks[0].now);
      TicksDrain(Ticked(db, ticks[0].batch, ticks[0].now), ticks[1..], threshold, limit);
      LeftStep(|StuckSet(db.tickets, threshold)|, |ticks|, limit);
    }
  }

  // S stuck tickets are gone after ceil(S/L) ticks, and not before.
  lemma DrainedInCeiling(db: Db, ticks: seq<Tick>, threshold: int, limit: nat)
    requires limit > 0 && Ticks(db, ticks, threshold, limit)
    ensures StuckSet(AfterTicks(db, ticks, threshold, limit).tickets, threshold) == {}
            <==> |ticks| >= (|StuckSet(db.tickets, threshold)| + limit - 1) / limit
  {
    TicksDrain(db, ticks, threshold, limit);
    CeilingBound(|StuckSet(db.tickets, threshold)|, |ticks|, limit);
  }

  lemma CeilingBound(stuck: nat, n: nat, limit: nat)
    requires limit > 0
    ensures Left(stuck, n, limit) == 0 <==> n >= (stuck + limit - 1) / limit
  {
    var q := (stuck + limit - 1) / limit;
    var r := (stuck + limit - 1) % limit;
    assert stuck + limit - 1 == q * limit + r && 0 <= r < limit;
    if n >= q {
      TimesMonotone(q, n, limit);
    } else {
      TimesMonotone(n + 1, q, limit);
      assert (n + 1) * limit == n * limit + limit;
    }
  }
}
