/** From every reachable world, every ticket can still reach a terminal status without another fault. */
module Recovery {
  import opened Counting
  import opened Domain
  import opened Store
  import opened System
  import opened Invariants
  import opened Preservation
  import opened OutboxTable
  import opened Safety

  // No crash, no redelivery, no raising publish, no rejected frame. Handlers caught between
  // their two transactions, where they hold no row lock, do not take part: the continuation
  // works even if they hang.
  predicate FaultFree(s: Step) {
    match s
    case Publish(_, outcome) => outcome.PublishOk?
    case AbortBatch(_) => false
    case GatewaySend(_, answer) => answer.SendOk?
    case OutReturn(_) => false
    case CallMonolith(_, _, _) => false
    case ConsumerSettle(_) => false
    case ConsumerCancel(_, _) => false
    case InReturn(_) => false
    case TickSkip(_) => false
    case TickStop(_) => false
    case _ => true
  }

  ghost predicate SafeRun(cfg: Config, w: World, run: seq<Step>) {
    Run(cfg, w, run) && forall i | 0 <= i < |run| :: FaultFree(run[i])
  }

  ghost predicate Leads(cfg: Config, w: World, w': World) {
    exists run :: SafeRun(cfg, w, run) && After(cfg, w, run) == w'
  }

  // Such a run leaves every handler in flight where it is.
  lemma HandlersHang(cfg: Config, w: World, run: seq<Step>, c: Id)
    requires Reachable(cfg, w) && SafeRun(cfg, w, run) && c in w.inq && Busy(w.inq[c].phase)
    ensures c in After(cfg, w, run).inq && After(cfg, w, run).inq[c] == w.inq[c]
  {
    InvReachable(cfg, w);
    SafeRunKeepsHandlers(cfg, w, run, c);
  }

  lemma {:induction false} SafeRunKeepsHandlers(cfg: Config, w: World, run: seq<Step>, c: Id)
    requires Inv(w) && SafeRun(cfg, w, run) && c in w.inq && Busy(w.inq[c].phase)
    ensures c in After(cfg, w, run).inq && After(cfg, w, run).inq[c] == w.inq[c]
    decreases run
  {
    if run != [] {
      NotYetDrawn(w);
      StepKeepsHandler(cfg, w, run[0], c);
      InvStep(cfg, w, run[0]);
      assert SafeRun(cfg, Do(cfg, w, run[0]), run[1..]);
      SafeRunKeepsHandlers(cfg, Do(cfg, w, run[0]), run[1..], c);
    }
  }

  lemma StepKeepsHandler(cfg: Config, w: World, s: Step, c: Id)
    requires Enabled(cfg, w, s) && FaultFree(s) && c in w.inq && Busy(w.inq[c].phase) && w.now !in w.inq
    ensures c in NextInq(cfg, w, s) && NextInq(cfg, w, s)[c] == w.inq[c]
  {
  }

  lemma LeadsHere(cfg: Config, w: World)
    ensures Leads(cfg, w, w)
  {
    assert SafeRun(cfg, w, []) && After(cfg, w, []) == w;
  }

  lemma LeadsOn(cfg: Config, w: World, w1: World, w2: World)
    requires Leads(cfg, w, w1) && Leads(cfg, w1, w2)
    ensures Leads(cfg, w, w2)
  {
    hide Enabled, Do;
    var a :| SafeRun(cfg, w, a) && After(cfg, w, a) == w1;
    var b :| SafeRun(cfg, w1, b) && After(cfg, w1, b) == w2;
    RunConcat(cfg, w, a, b);
    assert SafeRun(cfg, w, a + b);
  }

  // One more step; the world it leads to is reachable as well.
  lemma LeadsBy(cfg: Config, w: World, w1: World, s: Step)
    requires Leads(cfg, w, w1) && Reachable(cfg, w1) && Enabled(cfg, w1, s) && FaultFree(s)
    ensures Leads(cfg, w, Do(cfg, w1, s)) && Reachable(cfg, Do(cfg, w1, s))
  {
    hide Enabled, Do;
    OneStep(cfg, w1, s);
    assert SafeRun(cfg, w1, [s]);
    LeadsOn(cfg, w, w1, Do(cfg, w1, s));
    var run :| Run(cfg, INIT, run) && After(cfg, INIT, run) == w1;
    RunConcat(cfg, INIT, run, [s]);
  }

  lemma By(cfg: Config, w: World, s: Step) returns (w': World)
    requires Reachable(cfg, w) && Enabled(cfg, w, s) && FaultFree(s)
    ensures w' == Do(cfg, w, s) && Leads(cfg, w, w') && Reachable(cfg, w')
  {
    LeadsHere(cfg, w);
    LeadsBy(cfg, w, w, s);
    w' := Do(cfg, w, s);
  }

  // The parts of the invariant the continuation relies on.
  lemma ReachableFacts(cfg: Config, w: World)
    requires Reachable(cfg, w)
    ensures w.now !in w.outq && w.now !in w.issued && w.now !in w.inq
    ensures forall p | p in w.batches :: BatchOk(w.batches[p], w.db.outbox)
    ensures forall c | c in w.outq :: OutCopyOk(c, w.outq[c], w.db.outbox, w.now)
    ensures forall m | m in w.db.inbox :: m in w.issued
    ensures TicksOk(w.ticks, w.db.tickets)
    ensures forall t | t in w.db.tickets :: w.db.tickets[t].updatedAt < w.now
  {
    InvReachable(cfg, w);
    NotYetDrawn(w);
  }

  lemma UnusedAbove(ids: set<Id>) returns (id: Id)
    ensures forall i | i in ids :: i < id
  {
    id := 0;
    var rest := ids;
    while rest != {}
      invariant rest <= ids
      invariant forall i | i in ids && i !in rest :: i < id
    {
      var x :| x in rest;
      rest := rest - {x};
      id := if x < id then id else x + 1;
    }
  }

  lemma Unused(ids: set<Id>) returns (id: Id)
    ensures id !in ids
  {
    id := UnusedAbove(ids);
  }

  // ----- a pending row gets published

  ghost predicate QueuedFor(w: World, e: nat) {
    exists c :: OutIn(w, c, Queued) && w.outq[c].event == e
  }

  lemma PublishEffect(cfg: Config, w: World, p: Id, w': World)
    requires Enabled(cfg, w, Publish(p, PublishOk)) && w.now !in w.outq && w' == Do(cfg, w, Publish(p, PublishOk))
    ensures w'.db == w.db
    ensures var b := w.batches[p];
            var e := b.rows[b.next];
            w'.batches == w.batches[p := b.(next := b.next + 1, published := b.published + {e})] && QueuedFor(w', e)
    ensures forall e: nat | QueuedFor(w, e) :: QueuedFor(w', e)
  {
    assert OutIn(w', w.now, Queued) && w'.outq[w.now].event == Head(w, p);
    forall e: nat | QueuedFor(w, e) ensures QueuedFor(w', e) {
      var c :| OutIn(w, c, Queued) && w.outq[c].event == e;
      assert OutIn(w', c, Queued) && w'.outq[c].event == e;
    }
  }

  lemma PublishOne(cfg: Config, w: World, p: Id) returns (w': World)
    requires Reachable(cfg, w) && p in w.batches && w.batches[p].next < |w.batches[p].rows|
    ensures Leads(cfg, w, w') && Reachable(cfg, w') && w'.db == w.db
    ensures var b := w.batches[p];
            var e := b.rows[b.next];
            w'.batches == w.batches[p := b.(next := b.next + 1, published := b.published + {e})] && QueuedFor(w', e)
    ensures forall e: nat | QueuedFor(w, e) :: QueuedFor(w', e)
  {
    hide Leads, Reachable;
    ReachableFacts(cfg, w);
    w' := By(cfg, w, Publish(p, PublishOk));
    PublishEffect(cfg, w, p, w');
  }

  lemma {:induction false} PublishAll(cfg: Config, w: World, p: Id) returns (w': World)
    requires Reachable(cfg, w) && p in w.batches && w.batches[p].failed == map[]
    ensures Leads(cfg, w, w') && Reachable(cfg, w') && w'.db == w.db
    ensures p in w'.batches && w'.batches == w.batches[p := w'.batches[p]]
    ensures w'.batches[p].rows == w.batches[p].rows && w'.batches[p].next == |w.batches[p].rows|
    ensures w'.batches[p].failed == map[]
    ensures forall e: nat | QueuedFor(w, e) :: QueuedFor(w', e)
    ensures forall i | w.batches[p].next <= i < |w.batches[p].rows| :: QueuedFor(w', w.batches[p].rows[i])
    decreases |w.batches[p].rows| - w.batches[p].next
  {
    hide Leads, Reachable;
    var b := w.batches[p];
    assert b.next <= |b.rows| by {
      ReachableFacts(cfg, w);
    }
    if b.next == |b.rows| {
      w' := w;
      LeadsHere(cfg, w);
    } else {
      var w1 := PublishOne(cfg, w, p);
      w' := PublishAll(cfg, w1, p);
      LeadsOn(cfg, w, w1, w');
    }
  }

  ghost function AvailableBefore(outbox: seq<Row>, locked: set<nat>, e: nat): set<nat> {
    set j | 0 <= j < e && Available(outbox, locked, j)
  }

  // One whole batch: every row it selects is published.
  lemma RunBatch(cfg: Config, w: World, p: Id) returns (w': World)
    requires Reachable(cfg, w) && p !in w.batches
    requires FetchPending(w.db.outbox, Locked(w.batches), 0, cfg.outboxBatch) != []
    ensures Leads(cfg, w, w') && Reachable(cfg, w')
    ensures var rows := FetchPending(w.db.outbox, Locked(w.batches), 0, cfg.outboxBatch);
            && w'.batches == w.batches
            && w'.db.tickets == w.db.tickets && w'.db.inbox == w.db.inbox
            && |w'.db.outbox| == |w.db.outbox|
            && (forall e | 0 <= e < |w.db.outbox| ::
                  w'.db.outbox[e].message == w.db.outbox[e].message
                  && (if e in rows then w'.db.outbox[e].status.Published? && QueuedFor(w', e)
                      else w'.db.outbox[e] == w.db.outbox[e]))
  {
    hide Leads, Reachable;
    var rows := FetchPending(w.db.outbox, Locked(w.batches), 0, cfg.outboxBatch);
    var w1 := By(cfg, w, Fetch(p));
    var w2 := PublishAll(cfg, w1, p);
    w' := By(cfg, w2, CommitBatch(p));
    LeadsOn(cfg, w, w1, w2);
    LeadsOn(cfg, w, w2, w');
    assert w'.batches == w.batches;
    assert BatchOk(w2.batches[p], w2.db.outbox) by {
      ReachableFacts(cfg, w2);
    }
    CommittedRows(cfg, w2, p);
  }

  lemma CommittedRows(cfg: Config, w: World, p: Id)
    requires Enabled(cfg, w, CommitBatch(p)) && BatchOk(w.batches[p], w.db.outbox) && w.batches[p].failed == map[]
    ensures var w' := Do(cfg, w, CommitBatch(p));
            && |w'.db.outbox| == |w.db.outbox|
            && (forall e | 0 <= e < |w.db.outbox| ::
                  w'.db.outbox[e].message == w.db.outbox[e].message
                  && (if e in w.batches[p].rows then w'.db.outbox[e].status.Published? else w'.db.outbox[e] == w.db.outbox[e]))
            && (forall e: nat | QueuedFor(w, e) :: QueuedFor(w', e))
  {
    var w' := Do(cfg, w, CommitBatch(p));
    assert w'.outq == w.outq;
    forall e: nat | QueuedFor(w, e) ensures QueuedFor(w', e) {
      var c :| OutIn(w, c, Queued) && w.outq[c].event == e;
      assert OutIn(w', c, Queued) && w'.outq[c].event == e;
    }
  }

  lemma {:induction false} PublishRow(cfg: Config, w: World, e: nat) returns (w': World)
    requires cfg.Sane() && Reachable(cfg, w) && Available(w.db.outbox, Locked(w.batches), e)
    ensures Leads(cfg, w, w') && Reachable(cfg, w') && QueuedFor(w', e)
    ensures w'.db.tickets == w.db.tickets
    ensures e < |w'.db.outbox| && w'.db.outbox[e].message == w.db.outbox[e].message
    decreases |AvailableBefore(w.db.outbox, Locked(w.batches), e)|
  {
    hide Leads, Reachable;
    var locked := Locked(w.batches);
    var rows := FetchPending(w.db.outbox, locked, 0, cfg.outboxBatch);
    FetchSelects(w.db.outbox, locked, 0, cfg.outboxBatch);
    var p := Unused(w.batches.Keys);
    var w1 := RunBatch(cfg, w, p);
    if e in rows {
      w' := w1;
    } else {
      var before := AvailableBefore(w.db.outbox, locked, e);
      assert rows[0] in before && rows[0] in rows;
      assert AvailableBefore(w1.db.outbox, locked, e) <= before - {rows[0]};
      SubsetSize(AvailableBefore(w1.db.outbox, locked, e), before - {rows[0]});
      w' := PublishRow(cfg, w1, e);
      LeadsOn(cfg, w, w1, w');
    }
  }

  // ----- a queued cancellation request gets applied

  lemma Deliver(cfg: Config, w: World, c: Id) returns (w': World)
    requires Reachable(cfg, w) && OutIn(w, c, Queued) && w.outq[c].message.body.RequestCancellation?
    requires w.outq[c].message.ticket in w.db.tickets
    ensures Leads(cfg, w, w') && Reachable(cfg, w')
    ensures w.outq[c].message.ticket in w'.db.tickets && w'.db.tickets[w.outq[c].message.ticket].status.Cancelled?
  {
    hide Leads, Reachable, FindStuck, Lookup, FetchPending;
    var w1, f := SendRequest(cfg, w, c);
    var w2 := By(cfg, w1, Forward(f));
    w' := HandleForwarded(cfg, w2, w1.now);
    LeadsOn(cfg, w, w1, w2);
    LeadsOn(cfg, w, w2, w');
  }

  // The mock provider answers an accepted cancellation request with a fresh frame.
  lemma SendRequest(cfg: Config, w: World, c: Id) returns (w': World, f: Id)
    requires Reachable(cfg, w) && OutIn(w, c, Queued) && w.outq[c].message.body.RequestCancellation?
    ensures Leads(cfg, w, w') && Reachable(cfg, w') && w'.db == w.db && f !in w.db.inbox
    ensures f in w'.issued && w'.issued[f].message == Message(f, w.outq[c].message.ticket, CancellationApplied)
  {
    hide Leads, Reachable, FindStuck, Lookup, FetchPending;
    var w1 := By(cfg, w, GatewayTake(c));
    ReachableFacts(cfg, w1);
    f := w1.now;
    w' := By(cfg, w1, GatewaySend(c, SendOk(Accept)));
    LeadsOn(cfg, w, w1, w');
  }

  lemma HandleForwarded(cfg: Config, w: World, d: Id) returns (w': World)
    requires Reachable(cfg, w) && InIn(w, d, Arrived)
    requires w.inq[d].message.body.CancellationApplied? && w.inq[d].message.id !in w.db.inbox
    requires w.inq[d].message.ticket in w.db.tickets
    ensures Leads(cfg, w, w') && Reachable(cfg, w')
    ensures w.inq[d].message.ticket in w'.db.tickets && w'.db.tickets[w.inq[d].message.ticket].status.Cancelled?
  {
    hide Leads, Reachable;
    var w1 := By(cfg, w, ConsumerTake(d));
    w' := By(cfg, w1, ConsumerHandle(d));
    LeadsOn(cfg, w, w1, w');
  }

  // ----- a stuck ticket gets its cancellation requested

  ghost predicate Requested(w: World, t: Id) {
    exists e: nat :: Available(w.db.outbox, Locked(w.batches), e) && HasRow(w, t, e, REQUEST_CANCELLATION)
  }

  lemma {:induction false} OldestOf(tickets: map<Id, Ticket>, pool: set<Id>) returns (t: Id)
    requires pool != {} && pool <= tickets.Keys
    ensures t in pool && forall u | u in pool :: tickets[t].updatedAt <= tickets[u].updatedAt
  {
    t :| t in pool;
    if pool != {t} {
      var u := OldestOf(tickets, pool - {t});
      if tickets[u].updatedAt < tickets[t].updatedAt {
        t := u;
      }
    }
  }

  lemma {:induction false} SelectFrom(tickets: map<Id, Ticket>, pool: set<Id>, limit: nat) returns (batch: seq<Id>)
    requires pool <= tickets.Keys
    ensures |batch| == if limit <= |pool| then limit else |pool|
    ensures forall i | 0 <= i < |batch| :: batch[i] in pool
    ensures forall i, j | 0 <= i < j < |batch| ::
              batch[i] != batch[j] && tickets[batch[i]].updatedAt <= tickets[batch[j]].updatedAt
    ensures forall t | t in pool && t !in batch ::
              |batch| == limit && forall i | 0 <= i < |batch| :: tickets[batch[i]].updatedAt <= tickets[t].updatedAt
    decreases limit
  {
    if limit == 0 || pool == {} {
      batch := [];
    } else {
      var t := OldestOf(tickets, pool);
      var rest := SelectFrom(tickets, pool - {t}, limit - 1);
      batch := [t] + rest;
      forall u | u in pool && u !in batch
        ensures |batch| == limit && forall i | 0 <= i < |batch| :: tickets[batch[i]].updatedAt <= tickets[u].updatedAt
      {
        assert u in pool - {t} && u !in rest;
      }
    }
  }

  lemma SelectOldest(tickets: map<Id, Ticket>, threshold: int, limit: nat) returns (batch: seq<Id>)
    ensures OldestStuck(tickets, threshold, limit, batch)
    ensures limit > 0 && (exists t :: Stuck(tickets, threshold, t)) ==> batch != []
  {
    var pool := set t | t in tickets && Stuck(tickets, threshold, t);
    batch := SelectFrom(tickets, pool, limit);
  }

  lemma NothingHeld(tickets: map<Id, Ticket>, threshold: int, limit: nat, batch: seq<Id>)
    requires OldestStuck(tickets, threshold, limit, batch)
    ensures FindStuck(tickets, threshold, limit, batch)
  {
    assert tickets - {} == tickets && [] + batch == batch;
    assert FindStuckAmid(tickets, threshold, limit, batch, {}, []);
  }

  // What requests for other tickets leave alone.
  ghost predicate Aged(w: World, w': World) {
    && w.now <= w'.now
    && w'.batches == w.batches
    && w.db.outbox <= w'.db.outbox
    && w'.db.tickets.Keys == w.db.tickets.Keys
    && forall x | x in w.db.tickets :: w'.db.tickets[x] == w.db.tickets[x] || w'.db.tickets[x].updatedAt >= w.now
  }

  lemma RequestedStays(w: World, w': World, t: Id)
    requires Requested(w, t) && Aged(w, w')
    ensures Requested(w', t)
  {
    var e: nat :| Available(w.db.outbox, Locked(w.batches), e) && HasRow(w, t, e, REQUEST_CANCELLATION);
    assert w'.db.outbox[e] == w.db.outbox[e];
    assert HasRow(w', t, e, REQUEST_CANCELLATION);
  }

  // The row a request appends is pending, and no batch holds it.
  lemma RequestedNow(w: World, w': World, t: Id, seen: Status, why: string, id: Id)
    requires t in w.db.tickets && forall p | p in w.batches :: BatchOk(w.batches[p], w.db.outbox)
    requires w'.batches == w.batches && w'.db == RequestCancel(w.db, t, seen, why, id, w.now)
    ensures Requested(w', t)
  {
    var e := |w.db.outbox|;
    assert e !in Locked(w.batches);
    assert HasRow(w', t, e, REQUEST_CANCELLATION);
  }

  // The rest of a reconciler tick.
  lemma {:induction false} FinishTick(cfg: Config, w: World, r: Id, t: Id) returns (w': World)
    requires Reachable(cfg, w) && r in w.ticks && t in w.db.tickets
    ensures Leads(cfg, w, w') && Reachable(cfg, w') && Aged(w, w')
    ensures Requested(w', t) || w'.db.tickets[t] == w.db.tickets[t]
    decreases |w.ticks[r]|
  {
    hide Leads, Reachable;
    if w.ticks[r] == [] {
      w' := w;
      LeadsHere(cfg, w);
    } else {
      var w1 := NextInTick(cfg, w, r, t);
      w' := FinishTick(cfg, w1, r, t);
      LeadsOn(cfg, w, w1, w');
      if Requested(w1, t) {
        RequestedStays(w1, w', t);
      }
    }
  }

  lemma NextInTick(cfg: Config, w: World, r: Id, t: Id) returns (w': World)
    requires Reachable(cfg, w) && r in w.ticks && w.ticks[r] != [] && t in w.db.tickets
    ensures Leads(cfg, w, w') && Reachable(cfg, w') && Aged(w, w') && r in w'.ticks && w'.ticks[r] == w.ticks[r][1..]
    ensures Requested(w', t) || w'.db.tickets[t] == w.db.tickets[t]
  {
    hide Leads, Reachable;
    ReachableFacts(cfg, w);
    w' := By(cfg, w, TickNext(r, "stuck"));
    var l := w.ticks[r][0];
    assert LoadedOk(l, w.db.tickets);
    if l.ticket == t {
      RequestedNow(w, w', t, Seen(cfg, w.db, l.ticket, l.status), "stuck", w.now);
    }
  }

  lemma StartTick(cfg: Config, w: World, r: Id, batch: seq<Id>) returns (w': World)
    requires Reachable(cfg, w) && r !in w.ticks && batch != []
    requires FindStuck(w.db.tickets, w.now - cfg.stuckAfter, cfg.stuckBatch, batch)
    ensures Leads(cfg, w, w') && Reachable(cfg, w') && Aged(w, w') && r in w'.ticks && batch[0] in w'.db.tickets
    ensures Requested(w', batch[0]) && w'.db.tickets[batch[0]].updatedAt == w.now
    ensures forall x | x in w.db.tickets && x != batch[0] :: x in w'.db.tickets && w'.db.tickets[x] == w.db.tickets[x]
  {
    hide Leads, Reachable;
    ReachableFacts(cfg, w);
    w' := By(cfg, w, TickStart(r, batch, "stuck"));
    assert Stuck(w.db.tickets, w.now - cfg.stuckAfter, batch[0]);
    RequestedNow(w, w', batch[0], w.db.tickets[batch[0]].status, "stuck", w.now);
  }

  // The tickets that come before t.
  ghost function Older(tickets: map<Id, Ticket>, t: Id): set<Id>
    requires t in tickets
  {
    set x | x in tickets && x != t && !Terminal(tickets[x].status) && tickets[x].updatedAt <= tickets[t].updatedAt
  }

  lemma {:induction false} Reconcile(cfg: Config, w: World, t: Id) returns (w': World)
    requires cfg.Sane() && Reachable(cfg, w) && Stuck(w.db.tickets, w.now - cfg.stuckAfter, t)
    ensures Leads(cfg, w, w') && Reachable(cfg, w') && Requested(w', t) && t in w'.db.tickets
    decreases |Older(w.db.tickets, t)|
  {
    hide Leads, Reachable;
    var batch := SelectOldest(w.db.tickets, w.now - cfg.stuckAfter, cfg.stuckBatch);
    var r := Unused(w.ticks.Keys);
    NothingHeld(w.db.tickets, w.now - cfg.stuckAfter, cfg.stuckBatch, batch);
    var w1 := StartTick(cfg, w, r, batch);
    w' := FinishTick(cfg, w1, r, t);
    LeadsOn(cfg, w, w1, w');
    if Requested(w1, t) {
      RequestedStays(w1, w', t);
    }
    if !Requested(w', t) {
      ReachableFacts(cfg, w);
      OlderShrinks(w, w1, w', t, batch[0]);
      var w2 := w';
      w' := Reconcile(cfg, w2, t);
      LeadsOn(cfg, w, w2, w');
    }
  }

  lemma OlderShrinks(w: World, w1: World, w2: World, t: Id, first: Id)
    requires Aged(w, w1) && Aged(w1, w2) && t in w.db.tickets && first in w.db.tickets && first != t
    requires w1.db.tickets[t] == w.db.tickets[t] && w2.db.tickets[t] == w.db.tickets[t]
    requires !Terminal(w.db.tickets[first].status) && w.db.tickets[first].updatedAt <= w.db.tickets[t].updatedAt
    requires w1.db.tickets[first].updatedAt == w.now && w.db.tickets[t].updatedAt < w.now
    ensures |Older(w2.db.tickets, t)| < |Older(w.db.tickets, t)|
  {
    var older := Older(w.db.tickets, t);
    assert Older(w2.db.tickets, t) <= older - {first};
    SubsetSize(Older(w2.db.tickets, t), older - {first});
  }

  // ----- the theorem

  lemma ToTerminal(cfg: Config, w: World, t: Id) returns (w': World)
    requires cfg.Sane() && Reachable(cfg, w) && t in w.db.tickets
    ensures Leads(cfg, w, w') && Reachable(cfg, w') && t in w'.db.tickets && Terminal(w'.db.tickets[t].status)
  {
    hide Leads, Reachable;
    if Terminal(w.db.tickets[t].status) {
      LeadsHere(cfg, w);
      w' := w;
    } else {
      var w1 := By(cfg, w, Wait(w.db.tickets[t].updatedAt + cfg.stuckAfter));
      var w2 := Reconcile(cfg, w1, t);
      var e: nat :| Available(w2.db.outbox, Locked(w2.batches), e) && HasRow(w2, t, e, REQUEST_CANCELLATION);
      var w3 := PublishRow(cfg, w2, e);
      var c :| OutIn(w3, c, Queued) && w3.outq[c].event == e;
      ReachableFacts(cfg, w3);
      w' := Deliver(cfg, w3, c);
      LeadsOn(cfg, w, w1, w2);
      LeadsOn(cfg, w, w2, w3);
      LeadsOn(cfg, w, w3, w');
    }
  }

  // After any crashes, duplicates, dead-letterings, FAILED rows and rejected frames, every
  // ticket still has a finite continuation without a further fault that ends it.
  lemma Recoverability(cfg: Config, w: World, t: Id)
    requires cfg.Sane() && Reachable(cfg, w) && t in w.db.tickets
    ensures exists run :: SafeRun(cfg, w, run) && t in After(cfg, w, run).db.tickets
                          && Terminal(After(cfg, w, run).db.tickets[t].status)
  {
    InvReachable(cfg, w);
    var w' := ToTerminal(cfg, w, t);
    var run :| SafeRun(cfg, w, run) && After(cfg, w, run) == w';
  }
}
