/** A ticket's status only moves along the automaton, and always has its evidence. */
module Statuses {
  import opened Domain
  import opened Store
  import opened System
  import opened Invariants
  import opened Preservation

  // ----- before the first recommendation or cancellation request

  lemma EarlyFirst(db: Db, m: Message, now: Time)
    requires EarlyOk(db)
    ensures EarlyOk(FirstTransaction(db, m, now))
  {
  }

  lemma EarlySettle(db: Db, t: Id, a: Action, seen: Status, id: Id, now: Time)
    requires EarlyOk(db) && (t in db.tickets && seen.Settled? ==> !Early(db.tickets[t].status))
    ensures EarlyOk(Settle(db, t, a, seen, id, now))
  {
  }

  lemma EarlyRequest(db: Db, t: Id, seen: Status, why: string, id: Id, now: Time)
    requires EarlyOk(db) && (t in db.tickets && seen.CancellationRequested? ==> !Early(db.tickets[t].status))
    ensures EarlyOk(RequestCancel(db, t, seen, why, id, now))
  {
  }

  lemma EarlyGateway(db: Db, m: Message, now: Time)
    requires EarlyOk(db)
    ensures EarlyOk(GatewayWrite(db, m, now))
  {
  }

  lemma EarlyCommit(db: Db, outbox: seq<Row>, now: Time)
    requires EarlyOk(db) && OutboxGrows(db.outbox, outbox, now) && |outbox| == |db.outbox|
    ensures EarlyOk(db.(outbox := outbox))
  {
  }

  lemma EarlyInsert(db: Db, t: Id, key: string, bet: Bet, id: Id, now: Time)
    requires EarlyOk(db) && t !in db.tickets
    requires forall m | m in db.inbox :: db.inbox[m].ticket in db.tickets
    requires forall e | 0 <= e < |db.outbox| :: db.outbox[e].message.ticket in db.tickets
    ensures EarlyOk(InsertTicket(db, t, key, bet, id, now))
  {
  }

  lemma ClaimsKnown(w: World)
    requires Links(w) && BirthsOk(w.births, w.db.tickets, w.db.outbox)
    ensures forall m | m in w.db.inbox :: w.db.inbox[m].ticket in w.db.tickets
  {
    forall m | m in w.db.inbox ensures w.db.inbox[m].ticket in w.db.tickets {
      var q := w.outq[w.issued[m].cause];
      assert q.message == w.db.outbox[q.event].message;
    }
  }

  // What a session sees is Settled or CancellationRequested only when the ticket is past its early life.
  lemma SeenOk(cfg: Config, w: World, s: Step)
    requires Enabled(cfg, w, s) && TicksOk(w.ticks, w.db.tickets)
    ensures s.TickNext? ==>
      var l := w.ticks[s.r][0];
      l.ticket in w.db.tickets && (Early(w.db.tickets[l.ticket].status) ==> Early(Seen(cfg, w.db, l.ticket, l.status)))
    ensures s.ConsumerSettle? || s.ConsumerCancel? ==>
      var m := w.inq[s.c].message;
      m.ticket in w.db.tickets && Early(w.db.tickets[m.ticket].status) ==>
        !SeenBy(cfg, w.db, m).Settled? && !SeenBy(cfg, w.db, m).CancellationRequested?
  {
  }

  lemma EarlyStep(cfg: Config, w: World, s: Step)
    requires Enabled(cfg, w, s) && EarlyOk(w.db) && TicksOk(w.ticks, w.db.tickets)
    requires forall k | k in w.calls && w.calls[k].phase.Missed? :: w.calls[k].drawn !in w.db.tickets
    requires forall m | m in w.db.inbox :: w.db.inbox[m].ticket in w.db.tickets
    requires forall e | 0 <= e < |w.db.outbox| :: w.db.outbox[e].message.ticket in w.db.tickets
    ensures EarlyOk(NextDb(cfg, w, s))
  {
    hide EarlyOk, TicksOk, Lookup, FetchPending, FindStuck, Settle, RequestCancel, GatewayWrite, FirstTransaction;
    SeenOk(cfg, w, s);
    match s
    case CreateInsert(k) =>
      if !Refused(w.db.tickets, w.calls[k].key, w.calls[k].bet) {
        EarlyInsert(w.db, w.calls[k].drawn, w.calls[k].key, w.calls[k].bet, w.now, w.now);
      }
    case CommitBatch(p) =>
      OutboxStep(cfg, w, s);
      EarlyCommit(w.db, NextDb(cfg, w, s).outbox, w.now);
    case GatewayRecord(c) => EarlyGateway(w.db, w.outq[c].message, w.now);
    case ConsumerHandle(c) => EarlyFirst(w.db, w.inq[c].message, w.now);
    case ConsumerSettle(c) =>
      var m := w.inq[c].message;
      EarlySettle(w.db, m.ticket, m.body.action, SeenBy(cfg, w.db, m), w.now, w.now);
    case ConsumerCancel(c, why) =>
      var m := w.inq[c].message;
      EarlyRequest(w.db, m.ticket, SeenBy(cfg, w.db, m), why, w.now, w.now);
    case TickStart(r, batch, why) =>
      EarlyRequest(w.db, batch[0], w.db.tickets[batch[0]].status, why, w.now, w.now);
    case TickNext(r, why) =>
      var l := w.ticks[r][0];
      EarlyRequest(w.db, l.ticket, Seen(cfg, w.db, l.ticket, l.status), why, w.now, w.now);
    case _ =>
  }

  // ----- the automaton

  ghost predicate Moves(freshReread: bool, db: Db, db': Db) {
    && (forall t | t in db.tickets ::
          t in db'.tickets &&
          (db'.tickets[t].status == db.tickets[t].status || Edge(freshReread, db.tickets[t].status, db'.tickets[t].status)))
    && (forall t | t in db'.tickets && t !in db.tickets :: db'.tickets[t].status.New?)
  }

  // ConsumerHandle: a cancellation confirms a request, so the ticket is not early.
  lemma MovesFirst(fresh': bool, db: Db, m: Message, now: Time)
    requires forall t | t in db.tickets :: !db.tickets[t].status.Expired?
    requires AppliesCancellation(db, m) ==> !Early(db.tickets[m.ticket].status)
    ensures Moves(fresh', db, FirstTransaction(db, m, now))
  {
  }

  lemma MovesGateway(fresh': bool, db: Db, m: Message, now: Time)
    requires IsAck(m.body) && m.ticket in db.tickets ==> !Early(db.tickets[m.ticket].status)
    ensures Moves(fresh', db, GatewayWrite(db, m, now))
  {
  }

  lemma MovesSettle(fresh': bool, db: Db, t: Id, a: Action, seen: Status, id: Id, now: Time)
    requires t in db.tickets ==> !Early(db.tickets[t].status) && (fresh' ==> seen == db.tickets[t].status)
    ensures Moves(fresh', db, Settle(db, t, a, seen, id, now))
  {
  }

  lemma MovesRequest(fresh': bool, db: Db, t: Id, seen: Status, why: string, id: Id, now: Time)
    requires t in db.tickets ==> !db.tickets[t].status.Expired?
    ensures Moves(fresh', db, RequestCancel(db, t, seen, why, id, now))
  {
  }

  // Frames that presuppose a recommendation or a cancellation request.
  lemma LateFrames(w: World)
    requires Links(w) && EarlyOk(w.db) && ClaimsOk(w.settlements, w.db.inbox)
    requires SettlementsOk(w.settlements, w.issued, w.inq, w.db.outbox, w.causes, w.now)
    ensures forall c | c in w.outq && !w.outq[c].message.body.TicketBody? && w.outq[c].message.ticket in w.db.tickets ::
              !Early(w.db.tickets[w.outq[c].message.ticket].status)
    ensures forall c | c in w.inq && (Busy(w.inq[c].phase) || w.inq[c].message.body.CancellationApplied?)
                       && w.inq[c].message.ticket in w.db.tickets ::
              !Early(w.db.tickets[w.inq[c].message.ticket].status)
  {
    forall c | c in w.outq && !w.outq[c].message.body.TicketBody? && w.outq[c].message.ticket in w.db.tickets
      ensures !Early(w.db.tickets[w.outq[c].message.ticket].status)
    {
      assert OutCopyOk(c, w.outq[c], w.db.outbox, w.now);
    }
    forall c | c in w.inq && w.inq[c].message.body.CancellationApplied? && w.inq[c].message.ticket in w.db.tickets
      ensures !Early(w.db.tickets[w.inq[c].message.ticket].status)
    {
      var cause := w.issued[w.inq[c].message.id].cause;
      assert IssueOk(w.inq[c].message.id, w.issued[w.inq[c].message.id], w.outq, w.now);
      assert OutCopyOk(cause, w.outq[cause], w.db.outbox, w.now);
    }
    forall c | c in w.inq && Busy(w.inq[c].phase) && w.inq[c].message.ticket in w.db.tickets
      ensures !Early(w.db.tickets[w.inq[c].message.ticket].status)
    {
      assert w.inq[c].message.id in w.db.inbox;
    }
  }

  lemma NoneExpired(w: World)
    requires EvidenceOk(w)
    ensures forall t | t in w.db.tickets :: !w.db.tickets[t].status.Expired?
  {
    forall t | t in w.db.tickets ensures !w.db.tickets[t].status.Expired? {
      assert Evidence(w, t);
    }
  }

  // No other step changes a row; an inserted ticket is NEW.
  lemma MovesOther(cfg: Config, w: World, s: Step)
    requires Enabled(cfg, w, s) && !s.GatewayRecord? && !s.ConsumerHandle?
    requires !s.ConsumerSettle? && !s.ConsumerCancel? && !s.TickStart? && !s.TickNext?
    requires forall k | k in w.calls && w.calls[k].phase.Missed? :: w.calls[k].drawn !in w.db.tickets
    ensures Moves(cfg.freshReread, w.db, NextDb(cfg, w, s))
  {
    hide Lookup, FetchPending;
  }

  lemma MovesConsumer(cfg: Config, w: World, s: Step)
    requires Enabled(cfg, w, s) && (s.ConsumerHandle? || s.ConsumerSettle? || s.ConsumerCancel?)
    requires forall t | t in w.db.tickets :: !w.db.tickets[t].status.Expired?
    requires (Busy(w.inq[s.c].phase) || w.inq[s.c].message.body.CancellationApplied?)
             && w.inq[s.c].message.ticket in w.db.tickets ==>
               !Early(w.db.tickets[w.inq[s.c].message.ticket].status)
    ensures Moves(cfg.freshReread, w.db, NextDb(cfg, w, s))
  {
    hide Moves, Settle, RequestCancel, FirstTransaction;
    var m := w.inq[s.c].message;
    match s
    case ConsumerHandle(c) => MovesFirst(cfg.freshReread, w.db, m, w.now);
    case ConsumerSettle(c) =>
      MovesSettle(cfg.freshReread, w.db, m.ticket, m.body.action, SeenBy(cfg, w.db, m), w.now, w.now);
    case ConsumerCancel(c, why) =>
      MovesRequest(cfg.freshReread, w.db, m.ticket, SeenBy(cfg, w.db, m), why, w.now, w.now);
  }

  lemma MovesTick(cfg: Config, w: World, s: Step)
    requires Enabled(cfg, w, s) && (s.TickStart? || s.TickNext?)
    requires forall t | t in w.db.tickets :: !w.db.tickets[t].status.Expired?
    ensures Moves(cfg.freshReread, w.db, NextDb(cfg, w, s))
  {
    hide Moves, RequestCancel, FindStuck;
    match s
    case TickStart(r, batch, why) =>
      MovesRequest(cfg.freshReread, w.db, batch[0], w.db.tickets[batch[0]].status, why, w.now, w.now);
    case TickNext(r, why) =>
      var l := w.ticks[r][0];
      MovesRequest(cfg.freshReread, w.db, l.ticket, Seen(cfg, w.db, l.ticket, l.status), why, w.now, w.now);
  }

  lemma MovesRecord(cfg: Config, w: World, c: Id)
    requires Enabled(cfg, w, GatewayRecord(c))
    requires !w.outq[c].message.body.TicketBody? && w.outq[c].message.ticket in w.db.tickets ==>
               !Early(w.db.tickets[w.outq[c].message.ticket].status)
    ensures Moves(cfg.freshReread, w.db, NextDb(cfg, w, GatewayRecord(c)))
  {
    MovesGateway(cfg.freshReread, w.db, w.outq[c].message, w.now);
  }

  lemma MovesStep(cfg: Config, w: World, s: Step)
    requires Enabled(cfg, w, s) && Inv(w)
    ensures Moves(cfg.freshReread, w.db, NextDb(cfg, w, s))
  {
    hide Moves, NextDb, Lookup, FetchPending, FindStuck, SettlementsOk, ClaimsOk, RowsOk, OutCopiesOk, IssuedOk;
    hide InCopiesOk, InboxOk, BirthsOk, OutboxOk, CountsOk, EarlyOk, TicksOk, EvidenceOk;
    LateFrames(w);
    NoneExpired(w);
    if s.ConsumerHandle? || s.ConsumerSettle? || s.ConsumerCancel? {
      MovesConsumer(cfg, w, s);
    } else if s.TickStart? || s.TickNext? {
      MovesTick(cfg, w, s);
    } else if s.GatewayRecord? {
      MovesRecord(cfg, w, s.c);
    } else {
      MovesOther(cfg, w, s);
    }
  }

  // Moving on keeps what was loaded behind what is in the table.
  lemma LoadedKept(freshReread: bool, l: Loaded, db: Db, db': Db)
    requires LoadedOk(l, db.tickets) && Moves(freshReread, db, db')
    ensures LoadedOk(l, db'.tickets)
  {
  }

  // The tickets a step leaves in a tick had been loaded, or are loaded by it.
  lemma TicksFrom(cfg: Config, w: World, s: Step, r: Id, i: nat)
    requires Enabled(cfg, w, s) && TicksOk(w.ticks, w.db.tickets)
    requires r in NextTicks(cfg, w, s) && i < |NextTicks(cfg, w, s)[r]|
    ensures LoadedOk(NextTicks(cfg, w, s)[r][i], w.db.tickets)
  {
    hide FindStuck, Lookup, FetchPending;
    var ticks' := NextTicks(cfg, w, s);
    if s.TickStart? && r == s.r {
      assert ticks'[r][i] == LoadedBatch(w.db.tickets, s.batch)[i + 1];
      assert Stuck(w.db.tickets, w.now - cfg.stuckAfter, s.batch[i + 1]);
    } else if (s.TickNext? || s.TickSkip?) && r == s.r {
      assert ticks'[r][i] == w.ticks[r][i + 1];
    } else {
      assert ticks'[r] == w.ticks[r];
    }
  }

  lemma TicksStep(cfg: Config, w: World, s: Step)
    requires Enabled(cfg, w, s) && TicksOk(w.ticks, w.db.tickets)
    requires Moves(cfg.freshReread, w.db, NextDb(cfg, w, s))
    ensures TicksOk(NextTicks(cfg, w, s), NextDb(cfg, w, s).tickets)
  {
    hide Enabled, NextDb, NextTicks, Moves, LoadedOk;
    var ticks' := NextTicks(cfg, w, s);
    forall r, i | r in ticks' && 0 <= i < |ticks'[r]| ensures LoadedOk(ticks'[r][i], NextDb(cfg, w, s).tickets) {
      TicksFrom(cfg, w, s, r, i);
      LoadedKept(cfg.freshReread, ticks'[r][i], w.db, NextDb(cfg, w, s));
    }
  }
}
