/**
 What each step does, said of the tables and frames alone: when it acts, which rows and frames
 it changes, and every column it writes. The definitions of the steps are not used to say so.
 */
module Effects {
  import opened Domain
  import opened Store
  import opened System
  import opened OutboxTable

  // ----- the tables

  // create_ticket's INSERT. Nothing but the key, the bet, the status and the time of writing is set.
  lemma InsertWrites(cfg: Config, w: World, k: Id)
    requires Enabled(cfg, w, CreateInsert(k))
    ensures var call := w.calls[k];
            var taken := exists t :: t in w.db.tickets && w.db.tickets[t].key == call.key;
            if taken || call.bet.stake <= 0.0 then
              NextDb(cfg, w, CreateInsert(k)) == w.db
            else
              NextDb(cfg, w, CreateInsert(k)) == Db(
                w.db.tickets[call.drawn :=
                  Ticket(call.key, call.bet, New, None, None, None, None, None, None, None, w.now)],
                w.db.outbox + [Row(Message(w.now, call.drawn, TicketBody(call.bet, w.now)), Pending, 0, None, None, w.now)],
                w.db.inbox)
  {
  }

  predicate RecommendationDue(db: Db, m: Message) {
    && m.body.Recommendation? && m.id !in db.inbox && m.ticket in db.tickets
    && db.tickets[m.ticket].status !in {Confirmed, Declined, Cancelled, Expired}
  }

  predicate CancellationDue(db: Db, m: Message) {
    && m.body.CancellationApplied? && m.id !in db.inbox && m.ticket in db.tickets
    && db.tickets[m.ticket].status != Cancelled
  }

  // A frame is claimed exactly when it is a fresh recommendation for a known ticket that is in
  // none of the four terminal statuses, or a fresh CANCELLATION_APPLIED for a known ticket that
  // is not CANCELLED; and in the first case the handler goes on to call the monolith.
  lemma HandledExactlyWhen(cfg: Config, w: World, c: Id)
    requires Enabled(cfg, w, ConsumerHandle(c))
    ensures var m := w.inq[c].message;
            var db' := NextDb(cfg, w, ConsumerHandle(c));
            && (m.id in db'.inbox && m.id !in w.db.inbox <==> RecommendationDue(w.db, m) || CancellationDue(w.db, m))
            && (NextInq(cfg, w, ConsumerHandle(c))[c].phase ==
                  if RecommendationDue(w.db, m) then CallingMonolith else Handled)
  {
  }

  lemma HandlingWrites(cfg: Config, w: World, c: Id)
    requires Enabled(cfg, w, ConsumerHandle(c))
    ensures var m := w.inq[c].message;
            var db' := NextDb(cfg, w, ConsumerHandle(c));
            && (RecommendationDue(w.db, m) ==>
                  db' == w.db.(
                    tickets := w.db.tickets[m.ticket := w.db.tickets[m.ticket].(
                      status := if m.body.action.Accept? then RecommendedConfirm else RecommendedDecline,
                      recommendation := Some(m.body.action), reason := m.body.reason,
                      recommendedAt := Some(w.now), updatedAt := w.now)],
                    inbox := w.db.inbox[m.id := Claim(RECOMMENDATION, m.ticket, w.now)]))
            && (CancellationDue(w.db, m) ==>
                  var was := w.db.tickets[m.ticket].cancelledAt;
                  db' == w.db.(
                    tickets := w.db.tickets[m.ticket := w.db.tickets[m.ticket].(
                      status := Cancelled, cancelledAt := if was.None? then Some(w.now) else was, updatedAt := w.now)],
                    inbox := w.db.inbox[m.id := Claim(CANCELLATION_APPLIED, m.ticket, w.now)]))
            && (!RecommendationDue(w.db, m) && !CancellationDue(w.db, m) ==> db' == w.db)
  {
  }

  // The second transaction acts on every known ticket, unless its read is fresh and the ticket terminal.
  lemma SettlingWrites(cfg: Config, w: World, c: Id)
    requires Enabled(cfg, w, ConsumerSettle(c))
    ensures var m := w.inq[c].message;
            var t := m.ticket;
            var acts := t in w.db.tickets
                        && (cfg.freshReread ==> w.db.tickets[t].status !in {Confirmed, Declined, Cancelled, Expired});
            NextDb(cfg, w, ConsumerSettle(c)) ==
              if !acts then w.db else w.db.(
                tickets := w.db.tickets[t := w.db.tickets[t].(
                  status := Settled, settledAt := Some(w.now), updatedAt := w.now)],
                outbox := w.db.outbox + [Row(
                  Message(w.now, t, if m.body.action.Accept? then ConfirmRecommendation else DeclineRecommendation),
                  Pending, 0, None, None, w.now)])
  {
  }

  // A request writes its reason, cut at 1024 characters, and queues it uncut. The status is left
  // alone only if the session has loaded it as CANCELLATION_REQUESTED.
  ghost predicate RequestWritten(w: World, db': Db, t: Id, why: string, keepStatus: bool) {
    t in w.db.tickets &&
    var row := w.db.tickets[t];
    db' == w.db.(
      tickets := w.db.tickets[t := row.(
        status := if keepStatus then row.status else CancellationRequested,
        failureReason := Some(if |why| > 1024 then why[..1024] else why),
        cancelledAt := Some(w.now), updatedAt := w.now)],
      outbox := w.db.outbox + [Row(Message(w.now, t, RequestCancellation(why)), Pending, 0, None, None, w.now)])
  }

  lemma FailureRequests(cfg: Config, w: World, c: Id, why: string)
    requires Enabled(cfg, w, ConsumerCancel(c, why)) && w.inq[c].message.ticket in w.db.tickets
    ensures RequestWritten(w, NextDb(cfg, w, ConsumerCancel(c, why)), w.inq[c].message.ticket, why, false)
  {
  }

  lemma QueryRequests(cfg: Config, w: World, r: Id, batch: seq<Id>, why: string)
    requires Enabled(cfg, w, TickStart(r, batch, why))
    ensures RequestWritten(w, NextDb(cfg, w, TickStart(r, batch, why)), batch[0], why, false)
  {
    assert Stuck(w.db.tickets, w.now - cfg.stuckAfter, batch[0]);
  }

  lemma TickRequests(cfg: Config, w: World, r: Id, why: string)
    requires Enabled(cfg, w, TickNext(r, why)) && w.ticks[r][0].ticket in w.db.tickets
    ensures RequestWritten(w, NextDb(cfg, w, TickNext(r, why)), w.ticks[r][0].ticket, why,
                           !cfg.freshReread && w.ticks[r][0].status == CancellationRequested)
  {
  }

  // What the gateway writes after a send that went through: SENT_TO_PROVIDER for a ticket that is
  // NEW, a verdict for one that is not terminal, with the first confirmation time kept.
  lemma RecordingWrites(cfg: Config, w: World, c: Id)
    requires Enabled(cfg, w, GatewayRecord(c))
    ensures var m := w.outq[c].message;
            var t := m.ticket;
            var db' := NextDb(cfg, w, GatewayRecord(c));
            if t !in w.db.tickets then db' == w.db else
              var row := w.db.tickets[t];
              var first := if row.confirmedAt.None? then Some(w.now) else row.confirmedAt;
              var terminal := row.status in {Confirmed, Declined, Cancelled, Expired};
              match m.body
              case TicketBody(_, _) =>
                db' == if row.status == New
                       then w.db.(tickets := w.db.tickets[t := row.(status := SentToProvider, updatedAt := w.now)]) else w.db
              case ConfirmRecommendation =>
                db' == if terminal then w.db else
                       w.db.(tickets := w.db.tickets[t := row.(status := Confirmed, confirmedAt := first, updatedAt := w.now)])
              case DeclineRecommendation =>
                db' == if terminal then w.db else
                       w.db.(tickets := w.db.tickets[t := row.(status := Declined, confirmedAt := first, updatedAt := w.now)])
              case _ => db' == w.db
  {
  }

  // A batch's commit: an event whose publish returned is PUBLISHED and shows no error, one whose
  // publish raised has used an attempt, shows the error cut at 2000 characters, and is FAILED
  // with the third; no other row changes, and no ticket or claim.
  lemma CommitWrites(cfg: Config, w: World, p: Id, e: nat)
    requires Enabled(cfg, w, CommitBatch(p)) && e < |w.db.outbox|
    ensures var b := w.batches[p];
            var r := w.db.outbox[e];
            var db' := NextDb(cfg, w, CommitBatch(p));
            && db'.tickets == w.db.tickets && db'.inbox == w.db.inbox && |db'.outbox| == |w.db.outbox|
            && db'.outbox[e] ==
                 if e in b.published then r.(status := Published, publishedAt := Some(w.now), lastError := None)
                 else if e in b.failed then
                   var error := b.failed[e];
                   r.(attempts := r.attempts + 1, status := if r.attempts >= 2 then Failed else r.status,
                      lastError := Some(if |error| > 2000 then error[..2000] else error))
                 else r
  {
  }

  // Every other step leaves the database alone.
  lemma OthersWriteNothing(cfg: Config, w: World, s: Step)
    requires Enabled(cfg, w, s)
    requires !s.CreateInsert? && !s.CommitBatch? && !s.GatewayRecord? && !s.ConsumerHandle?
    requires !s.ConsumerSettle? && !s.ConsumerCancel? && !s.TickStart? && !s.TickNext?
    ensures NextDb(cfg, w, s) == w.db
  {
    hide Enabled;
  }

  // ----- the reconciler's query

  // A tick can start with what is left, after the requests that fail, of the query's answer to a
  // session that skips the rows others hold; which those are is open.
  lemma TickStartsWhen(cfg: Config, w: World, r: Id, batch: seq<Id>, why: string)
    ensures Enabled(cfg, w, TickStart(r, batch, why)) <==>
              r !in w.ticks && batch != [] &&
              exists held: set<Id>, failed: seq<Id> ::
                OldestStuck(w.db.tickets - held, w.now - cfg.stuckAfter, cfg.stuckBatch, failed + batch)
  {
    hide OldestStuck;
    var threshold := w.now - cfg.stuckAfter;
    if held: set<Id>, failed: seq<Id> :| OldestStuck(w.db.tickets - held, threshold, cfg.stuckBatch, failed + batch) {
      assert FindStuckAmid(w.db.tickets, threshold, cfg.stuckBatch, batch, held, failed);
    }
    if FindStuck(w.db.tickets, threshold, cfg.stuckBatch, batch) {
      var held, failed :| FindStuckAmid(w.db.tickets, threshold, cfg.stuckBatch, batch, held, failed);
      assert OldestStuck(w.db.tickets - held, threshold, cfg.stuckBatch, failed + batch);
    }
  }

  // It has loaded the statuses of that moment.
  lemma TickLoads(cfg: Config, w: World, r: Id, batch: seq<Id>, why: string)
    requires Enabled(cfg, w, TickStart(r, batch, why))
    ensures var loaded := NextTicks(cfg, w, TickStart(r, batch, why));
            r in loaded && |loaded[r]| == |batch| - 1 &&
            forall i | 0 < i < |batch| :: batch[i] in w.db.tickets
              && loaded[r][i - 1] == Loaded(batch[i], w.db.tickets[batch[i]].status)
  {
    hide FindStuck;
    assert forall i | 0 <= i < |batch| :: Stuck(w.db.tickets, w.now - cfg.stuckAfter, batch[i]);
  }

  // The query's answer holds tickets in none of the terminal statuses whose last change is older
  // than the threshold, oldest first; it leaves one out only if it is full of older ones.
  lemma StuckExactlyWhen(tickets: map<Id, Ticket>, threshold: int, limit: nat, batch: seq<Id>, t: Id, i: nat, j: nat)
    requires OldestStuck(tickets, threshold, limit, batch) && t in tickets && i < j < |batch|
    ensures batch[i] in tickets && batch[j] in tickets && batch[i] != batch[j]
    ensures tickets[batch[i]].updatedAt <= tickets[batch[j]].updatedAt < threshold
    ensures tickets[batch[i]].status !in {Confirmed, Declined, Cancelled, Expired}
    ensures t !in batch && tickets[t].updatedAt < threshold && tickets[t].status !in {Confirmed, Declined, Cancelled, Expired} ==>
              |batch| == limit && tickets[batch[j]].updatedAt <= tickets[t].updatedAt
  {
    assert Stuck(tickets, threshold, batch[i]) && Stuck(tickets, threshold, batch[j]);
  }

  // ----- the frames

  // What a step does to a frame on provider.out.
  lemma OutFrame(cfg: Config, w: World, s: Step, c: Id)
    requires Enabled(cfg, w, s) && c in w.outq && w.now !in w.outq
    ensures c in NextOutq(cfg, w, s)
    ensures var q := w.outq[c];
            NextOutq(cfg, w, s)[c] ==
              if s == GatewayTake(c) then q.(phase := WithGateway)
              else if s == GatewayRecord(c) then q.(phase := Recorded)
              else if s == GatewayAck(c) || s == GatewaySend(c, SendRejected) then q.(phase := OutAcked)
              else if s.GatewaySend? && s.c == c
              then q.(phase := Sent, acceptedAt := if q.acceptedAt.None? then Some(w.now) else q.acceptedAt)
              else if s == OutReturn(c)
              then if q.returned >= cfg.deliveryLimit then q.(phase := OutDead)
                   else q.(phase := Queued, returned := q.returned + 1)
              else q
  {
    hide FindStuck, Lookup, FetchPending;
  }

  // What a step does to a frame on provider.in.
  lemma InFrame(cfg: Config, w: World, s: Step, c: Id)
    requires Enabled(cfg, w, s) && c in w.inq && w.now !in w.inq
    ensures c in NextInq(cfg, w, s)
    ensures var q := w.inq[c];
            NextInq(cfg, w, s)[c] ==
              if s == ConsumerTake(c) then q.(phase := WithConsumer)
              else if s == ConsumerHandle(c)
              then q.(phase := if RecommendationDue(w.db, q.message) then CallingMonolith else Handled)
              else if s.CallMonolith? && s.c == c then q.(phase := if s.ok then MonolithOk else MonolithFailed)
              else if (s.ConsumerSettle? || s.ConsumerCancel?) && s.c == c then q.(phase := Handled)
              else if s == ConsumerAck(c) then q.(phase := InAcked)
              else if s == InReturn(c)
              then if q.returned >= cfg.deliveryLimit then q.(phase := InDead)
                   else q.(phase := Arrived, returned := q.returned + 1)
              else q
  {
    hide FindStuck, Lookup, FetchPending;
  }

  // The provider's answer to an accepted frame.
  lemma ProviderReplies(cfg: Config, w: World, c: Id, a: Action)
    requires Enabled(cfg, w, GatewaySend(c, SendOk(a)))
    ensures var m := w.outq[c].message;
            NextIssued(w, GatewaySend(c, SendOk(a))) ==
              match m.body
              case TicketBody(_, _) =>
                w.issued[w.now := Issue(Message(w.now, m.ticket, Recommendation(a, Some("mock risk engine decision"))), c)]
              case RequestCancellation(_) => w.issued[w.now := Issue(Message(w.now, m.ticket, CancellationApplied), c)]
              case _ => w.issued
  {
  }

  // A frame the provider has issued arrives as it was issued.
  lemma FrameArrives(cfg: Config, w: World, f: Id)
    requires Enabled(cfg, w, Forward(f))
    ensures NextInq(cfg, w, Forward(f)) == w.inq[w.now := InCopy(w.issued[f].message, 0, Arrived)]
  {
  }

  // The monolith is asked for what the recommendation says.
  lemma AskedFor(cfg: Config, w: World, c: Id, action: Action, ok: bool)
    requires c in w.inq && w.inq[c].message.body.Recommendation?
    ensures Enabled(cfg, w, CallMonolith(c, action, ok)) <==>
              w.inq[c].phase == CallingMonolith && action == w.inq[c].message.body.action
  {
  }

  // A batch is over when it commits or dies, a tick when its process does; a tick takes its
  // tickets one by one.
  lemma BatchesAndTicks(cfg: Config, w: World, s: Step)
    requires Enabled(cfg, w, s)
    ensures s.CommitBatch? || s.AbortBatch? ==>
              s.p !in NextBatches(cfg, w, s) && forall q | q in w.batches && q != s.p ::
                q in NextBatches(cfg, w, s) && NextBatches(cfg, w, s)[q] == w.batches[q]
    ensures s.TickStop? ==> s.r !in NextTicks(cfg, w, s)
    ensures s.TickNext? || s.TickSkip? ==>
              s.r in NextTicks(cfg, w, s) && w.ticks[s.r] == [w.ticks[s.r][0]] + NextTicks(cfg, w, s)[s.r]
  {
    hide FindStuck, Lookup, FetchPending;
  }

  // ----- when a step can happen

  // A process can die, and a handler's exception can escape, between any two of its steps.
  lemma CrashAnywhere(cfg: Config, w: World, c: Id, p: Id, r: Id)
    ensures Enabled(cfg, w, OutReturn(c)) <==> c in w.outq && w.outq[c].phase in {WithGateway, Sent, Recorded}
    ensures Enabled(cfg, w, InReturn(c)) <==>
              c in w.inq && w.inq[c].phase in {WithConsumer, CallingMonolith, MonolithOk, MonolithFailed, Handled}
    ensures Enabled(cfg, w, AbortBatch(p)) <==> p in w.batches
    ensures Enabled(cfg, w, TickStop(r)) <==> r in w.ticks
  {
  }

  // The broker, the provider and the monolith can answer as they like, and the provider can hand
  // over any frame it has issued, any number of times.
  lemma OutcomesOpen(cfg: Config, w: World, p: Id, outcome: PublishOutcome, c: Id, answer: SendAnswer, f: Id, ok: bool)
    ensures p in w.batches && w.batches[p].next < |w.batches[p].rows| && Head(w, p) < |w.db.outbox| ==>
              Enabled(cfg, w, Publish(p, outcome))
    ensures Enabled(cfg, w, GatewaySend(c, answer)) <==> c in w.outq && w.outq[c].phase == WithGateway
    ensures Enabled(cfg, w, Forward(f)) <==> f in w.issued
    ensures c in w.inq && w.inq[c].phase == CallingMonolith && w.inq[c].message.body.Recommendation? ==>
              Enabled(cfg, w, CallMonolith(c, w.inq[c].message.body.action, ok))
  {
  }

  // Otherwise a process takes the next of its steps.
  lemma GatewayInTurn(cfg: Config, w: World, c: Id)
    ensures Enabled(cfg, w, GatewayTake(c)) <==> c in w.outq && w.outq[c].phase == Queued
    ensures Enabled(cfg, w, GatewayRecord(c)) <==> c in w.outq && w.outq[c].phase == Sent
    ensures Enabled(cfg, w, GatewayAck(c)) <==> c in w.outq && w.outq[c].phase == Recorded
  {
  }

  lemma ConsumerInTurn(cfg: Config, w: World, c: Id, why: string)
    ensures Enabled(cfg, w, ConsumerTake(c)) <==> c in w.inq && w.inq[c].phase == Arrived
    ensures Enabled(cfg, w, ConsumerHandle(c)) <==> c in w.inq && w.inq[c].phase == WithConsumer
    ensures Enabled(cfg, w, ConsumerAck(c)) <==> c in w.inq && w.inq[c].phase == Handled
    ensures Enabled(cfg, w, ConsumerSettle(c)) <==>
              c in w.inq && w.inq[c].phase == MonolithOk && w.inq[c].message.body.Recommendation?
    ensures Enabled(cfg, w, ConsumerCancel(c, why)) <==>
              c in w.inq && w.inq[c].phase == MonolithFailed && w.inq[c].message.body.Recommendation?
  {
  }

  lemma OthersInTurn(cfg: Config, w: World, k: Id, p: Id, r: Id, why: string)
    ensures Enabled(cfg, w, CreateInsert(k)) <==> k in w.calls && w.calls[k].phase == Missed
    ensures Enabled(cfg, w, CommitBatch(p)) <==> p in w.batches && w.batches[p].next == |w.batches[p].rows|
    ensures Enabled(cfg, w, TickNext(r, why)) <==> r in w.ticks && w.ticks[r] != []
    ensures Enabled(cfg, w, TickSkip(r)) <==> r in w.ticks && w.ticks[r] != []
  {
  }

  // A producer can take a batch whenever there is a pending event that no other batch holds.
  lemma FetchesWhen(cfg: Config, w: World, p: Id)
    requires cfg.outboxBatch > 0
    ensures Enabled(cfg, w, Fetch(p)) <==>
              p !in w.batches && exists e: nat :: e < |w.db.outbox| && w.db.outbox[e].status == Pending
                                                  && forall q | q in w.batches :: e !in w.batches[q].rows
  {
    var locked := Locked(w.batches);
    var rows := FetchPending(w.db.outbox, locked, 0, cfg.outboxBatch);
    FetchSelects(w.db.outbox, locked, 0, cfg.outboxBatch);
    hide FetchPending;
    assert forall e :: e in locked <==> exists q :: q in w.batches && e in w.batches[q].rows;
    if rows != [] {
      assert Available(w.db.outbox, locked, rows[0]);
    }
    if e: nat :| e < |w.db.outbox| && w.db.outbox[e].status == Pending && forall q | q in w.batches :: e !in w.batches[q].rows {
      assert Available(w.db.outbox, locked, e);
    }
  }

  // A lookup finds a ticket with the key if there is one, and none otherwise.
  lemma LookupFinds(cfg: Config, w: World, k: Id, key: string, bet: Bet, found: Option<Id>)
    ensures Enabled(cfg, w, CreateLookup(k, key, bet, found)) <==>
              k !in w.calls && match found
                               case Some(t) => t in w.db.tickets && w.db.tickets[t].key == key
                               case None => !exists t :: t in w.db.tickets && w.db.tickets[t].key == key
    ensures Enabled(cfg, w, CreateReread(k, found)) <==>
              k in w.calls && w.calls[k].phase == Conflicted
              && match found
                 case Some(t) => t in w.db.tickets && w.db.tickets[t].key == w.calls[k].key
                 case None => !exists t :: t in w.db.tickets && w.db.tickets[t].key == w.calls[k].key
  {
  }
}
