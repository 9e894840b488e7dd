/** Whole runs, step by step: when things happened, how often, and in which order. */
module History {
  import opened Domain
  import opened Store
  import opened System
  import opened Invariants
  import opened Preservation
  import opened Statuses
  import opened Safety
  import Effects
  import Theorems

  // ----- how often a frame goes back

  function OutReturns(run: seq<Step>, c: Id): nat {
    if run == [] then 0 else (if run[0] == OutReturn(c) then 1 else 0) + OutReturns(run[1..], c)
  }

  function InReturns(run: seq<Step>, c: Id): nat {
    if run == [] then 0 else (if run[0] == InReturn(c) then 1 else 0) + InReturns(run[1..], c)
  }

  // The returns of a copy so far: none before it exists, and one more than the limit once it is dead.
  ghost predicate OutCounted(cfg: Config, outq: map<Id, OutCopy>, c: Id, n: nat) {
    if c !in outq then n == 0
    else outq[c].returned <= cfg.deliveryLimit
         && (if outq[c].phase.OutDead? then outq[c].returned == cfg.deliveryLimit && n == cfg.deliveryLimit + 1
             else n == outq[c].returned)
  }

  ghost predicate InCounted(cfg: Config, inq: map<Id, InCopy>, c: Id, n: nat) {
    if c !in inq then n == 0
    else inq[c].returned <= cfg.deliveryLimit
         && (if inq[c].phase.InDead? then inq[c].returned == cfg.deliveryLimit && n == cfg.deliveryLimit + 1
             else n == inq[c].returned)
  }

  lemma OutCountedStep(cfg: Config, w: World, s: Step, c: Id, n: nat)
    requires Enabled(cfg, w, s) && OutCounted(cfg, w.outq, c, n) && w.now !in w.outq
    ensures OutCounted(cfg, NextOutq(cfg, w, s), c, n + if s == OutReturn(c) then 1 else 0)
  {
    hide FindStuck, Lookup, FetchPending;
  }

  lemma InCountedStep(cfg: Config, w: World, s: Step, c: Id, n: nat)
    requires Enabled(cfg, w, s) && InCounted(cfg, w.inq, c, n) && w.now !in w.inq
    ensures InCounted(cfg, NextInq(cfg, w, s), c, n + if s == InReturn(c) then 1 else 0)
  {
    hide FindStuck, Lookup, FetchPending, StartsSettlement;
  }

  lemma {:induction false} CountedRun(cfg: Config, w: World, run: seq<Step>, c: Id, n: nat, k: nat)
    requires Inv(w) && Run(cfg, w, run) && OutCounted(cfg, w.outq, c, n) && InCounted(cfg, w.inq, c, k)
    ensures OutCounted(cfg, After(cfg, w, run).outq, c, n + OutReturns(run, c))
    ensures InCounted(cfg, After(cfg, w, run).inq, c, k + InReturns(run, c))
    decreases run
  {
    hide Enabled, Inv, OutCounted, InCounted, NextDb, NextCalls, NextBatches, NextOutq, NextIssued, NextInq;
    hide NextTicks, NextSettlements, NextBirths, NextCauses, NextRolledBack, NextUnconfirmed;
    if run != [] {
      assert w.now !in w.outq && w.now !in w.inq by {
        Undrawn(w);
      }
      OutCountedStep(cfg, w, run[0], c, n);
      InCountedStep(cfg, w, run[0], c, k);
      InvStep(cfg, w, run[0]);
      CountedRun(cfg, Do(cfg, w, run[0]), run[1..], c, n + if run[0] == OutReturn(c) then 1 else 0,
                 k + if run[0] == InReturn(c) then 1 else 0);
    }
  }

  // Along every run a frame is returned at most deliveryLimit + 1 times, and it is in the
  // dead-letter queue exactly when it has been returned that often.
  lemma DeadLettersExactly(cfg: Config, run: seq<Step>, c: Id)
    requires Run(cfg, INIT, run)
    ensures var w := After(cfg, INIT, run);
            && OutReturns(run, c) <= cfg.deliveryLimit + 1 && InReturns(run, c) <= cfg.deliveryLimit + 1
            && (c in w.outq ==> (w.outq[c].phase.OutDead? <==> OutReturns(run, c) == cfg.deliveryLimit + 1))
            && (c in w.inq ==> (w.inq[c].phase.InDead? <==> InReturns(run, c) == cfg.deliveryLimit + 1))
  {
    hide Enabled, Do, Inv;
    InitInv();
    CountedRun(cfg, INIT, run, c, 0, 0);
  }

  function OutRetries(c: Id, n: nat): seq<Step> {
    if n == 0 then [] else [GatewayTake(c), OutReturn(c)] + OutRetries(c, n - 1)
  }

  function InRetries(c: Id, n: nat): seq<Step> {
    if n == 0 then [] else [ConsumerTake(c), InReturn(c)] + InRetries(c, n - 1)
  }

  lemma OutRetry(cfg: Config, w: World, c: Id) returns (w1: World, w2: World)
    requires OutIn(w, c, Queued)
    ensures Enabled(cfg, w, GatewayTake(c)) && w1 == Do(cfg, w, GatewayTake(c))
    ensures Enabled(cfg, w1, OutReturn(c)) && w2 == Do(cfg, w1, OutReturn(c)) && c in w2.outq
    ensures if w.outq[c].returned < cfg.deliveryLimit
            then w2.outq[c].phase.Queued? && w2.outq[c].returned == w.outq[c].returned + 1
            else w2.outq[c].phase.OutDead?
  {
    w1 := Do(cfg, w, GatewayTake(c));
    w2 := Do(cfg, w1, OutReturn(c));
  }

  lemma InRetry(cfg: Config, w: World, c: Id) returns (w1: World, w2: World)
    requires InIn(w, c, Arrived)
    ensures Enabled(cfg, w, ConsumerTake(c)) && w1 == Do(cfg, w, ConsumerTake(c))
    ensures Enabled(cfg, w1, InReturn(c)) && w2 == Do(cfg, w1, InReturn(c)) && c in w2.inq
    ensures if w.inq[c].returned < cfg.deliveryLimit
            then w2.inq[c].phase.Arrived? && w2.inq[c].returned == w.inq[c].returned + 1
            else w2.inq[c].phase.InDead?
  {
    w1 := Do(cfg, w, ConsumerTake(c));
    w2 := Do(cfg, w1, InReturn(c));
  }

  lemma RunOfTwo(cfg: Config, w: World, s: Step, s': Step, rest: seq<Step>)
    requires Enabled(cfg, w, s) && Enabled(cfg, Do(cfg, w, s), s') && Run(cfg, Do(cfg, Do(cfg, w, s), s'), rest)
    ensures var run := [s, s'] + rest;
            Run(cfg, w, run) && After(cfg, w, run) == After(cfg, Do(cfg, Do(cfg, w, s), s'), rest)
  {
    hide Enabled, Do;
    var run := [s, s'] + rest;
    assert run[1..] == [s'] + rest && run[1..][1..] == rest;
  }

  // A frame whose send keeps failing is taken and returned deliveryLimit + 1 times, and then dead.
  lemma {:induction false} OutRetriesEnd(cfg: Config, w: World, c: Id)
    requires OutIn(w, c, Queued) && w.outq[c].returned <= cfg.deliveryLimit
    ensures var run := OutRetries(c, cfg.deliveryLimit + 1 - w.outq[c].returned);
            Run(cfg, w, run) && c in After(cfg, w, run).outq && After(cfg, w, run).outq[c].phase.OutDead?
    decreases cfg.deliveryLimit - w.outq[c].returned
  {
    hide Enabled, Do;
    var w1, w2 := OutRetry(cfg, w, c);
    if w.outq[c].returned < cfg.deliveryLimit {
      OutRetriesEnd(cfg, w2, c);
    } else {
      assert OutRetries(c, 1) == [GatewayTake(c), OutReturn(c)] + [];
      assert Run(cfg, w2, []);
    }
    RunOfTwo(cfg, w, GatewayTake(c), OutReturn(c), OutRetries(c, cfg.deliveryLimit - w.outq[c].returned));
  }

  lemma {:induction false} InRetriesEnd(cfg: Config, w: World, c: Id)
    requires InIn(w, c, Arrived) && w.inq[c].returned <= cfg.deliveryLimit
    ensures var run := InRetries(c, cfg.deliveryLimit + 1 - w.inq[c].returned);
            Run(cfg, w, run) && c in After(cfg, w, run).inq && After(cfg, w, run).inq[c].phase.InDead?
    decreases cfg.deliveryLimit - w.inq[c].returned
  {
    hide Enabled, Do;
    var w1, w2 := InRetry(cfg, w, c);
    if w.inq[c].returned < cfg.deliveryLimit {
      InRetriesEnd(cfg, w2, c);
    } else {
      assert InRetries(c, 1) == [ConsumerTake(c), InReturn(c)] + [];
      assert Run(cfg, w2, []);
    }
    RunOfTwo(cfg, w, ConsumerTake(c), InReturn(c), InRetries(c, cfg.deliveryLimit - w.inq[c].returned));
  }

  // ----- how often an event is published

  // The batches that died after they had published the event.
  ghost function RolledBack(cfg: Config, w: World, run: seq<Step>, e: nat): nat
    requires Run(cfg, w, run)
    decreases run
  {
    if run == [] then 0 else
      (if run[0].AbortBatch? && e in w.batches[run[0].p].published then 1 else 0)
      + RolledBack(cfg, Do(cfg, w, run[0]), run[1..], e)
  }

  // The publishes of the event that raised although the broker took the frame.
  ghost function RaisedButTaken(cfg: Config, w: World, run: seq<Step>, e: nat): nat
    requires Run(cfg, w, run)
    decreases run
  {
    if run == [] then 0 else
      (if run[0].Publish? && run[0].outcome.PublishRaised? && run[0].outcome.accepted && Head(w, run[0].p) == e then 1 else 0)
      + RaisedButTaken(cfg, Do(cfg, w, run[0]), run[1..], e)
  }

  lemma {:induction false} DuplicatesRun(cfg: Config, w: World, run: seq<Step>, e: nat)
    requires Run(cfg, w, run)
    ensures After(cfg, w, run).rolledBack[e] == w.rolledBack[e] + RolledBack(cfg, w, run, e)
    ensures After(cfg, w, run).unconfirmed[e] == w.unconfirmed[e] + RaisedButTaken(cfg, w, run, e)
    decreases run
  {
    hide Enabled, NextDb, NextCalls, NextBatches, NextOutq, NextIssued, NextInq, NextTicks, NextSettlements, NextBirths;
    hide NextCauses, NextRolledBack, NextUnconfirmed;
    if run != [] {
      DuplicatesStep(cfg, w, run[0], e);
      DuplicatesRun(cfg, Do(cfg, w, run[0]), run[1..], e);
    }
  }

  lemma DuplicatesStep(cfg: Config, w: World, s: Step, e: nat)
    requires Enabled(cfg, w, s)
    ensures NextRolledBack(w, s)[e] == w.rolledBack[e] + if s.AbortBatch? && e in w.batches[s.p].published then 1 else 0
    ensures NextUnconfirmed(cfg, w, s)[e]
            == w.unconfirmed[e]
               + if s.Publish? && s.outcome.PublishRaised? && s.outcome.accepted && Head(w, s.p) == e then 1 else 0
  {
    hide FindStuck, Lookup, FetchPending;
  }

  // Along every run, the frames the broker has taken for an event: one if it is PUBLISHED, one
  // for each batch of the run that died after publishing it, one if a live batch has, and one for
  // each of the run's publishes that raised although the broker took the frame.
  lemma DuplicatesCounted(cfg: Config, run: seq<Step>, e: nat)
    requires Run(cfg, INIT, run)
    ensures var w := After(cfg, INIT, run);
            |set c | c in w.outq && w.outq[c].event == e|
            == (if e < |w.db.outbox| && w.db.outbox[e].status.Published? then 1 else 0)
               + RolledBack(cfg, INIT, run, e)
               + (if exists p :: p in w.batches && e in w.batches[p].published then 1 else 0)
               + RaisedButTaken(cfg, INIT, run, e)
  {
    hide Enabled, Do;
    DuplicatesRun(cfg, INIT, run, e);
    var w := After(cfg, INIT, run);
    Theorems.ExactDuplicates(cfg, w, e);
    assert CopiesOf(w.outq, e) == set c | c in w.outq && w.outq[c].event == e;
  }

  // ----- how long ago a ticket was changed

  ghost predicate Changes(cfg: Config, w: World, s: Step, t: Id)
    requires Enabled(cfg, w, s)
  {
    t in NextDb(cfg, w, s).tickets && (t !in w.db.tickets || NextDb(cfg, w, s).tickets[t] != w.db.tickets[t])
  }

  // The time of the last step of the run that inserted the ticket or changed its row.
  ghost function ChangedAt(cfg: Config, w: World, run: seq<Step>, t: Id, last: Option<Time>): Option<Time>
    requires Run(cfg, w, run)
    decreases run
  {
    if run == [] then last
    else ChangedAt(cfg, Do(cfg, w, run[0]), run[1..], t, if Changes(cfg, w, run[0], t) then Some(w.now) else last)
  }

  ghost predicate Stamped(tickets: map<Id, Ticket>, t: Id, last: Option<Time>) {
    if t in tickets then last == Some(tickets[t].updatedAt) else last == None
  }

  lemma StampedStep(cfg: Config, w: World, s: Step, t: Id, last: Option<Time>)
    requires Enabled(cfg, w, s) && CreationOk(w.calls, w.db.tickets, w.now) && Stamped(w.db.tickets, t, last)
    ensures Stamped(NextDb(cfg, w, s).tickets, t, if Changes(cfg, w, s, t) then Some(w.now) else last)
  {
    if s.CreateInsert? {
      Effects.InsertWrites(cfg, w, s.k);
    } else {
      hide Enabled, NextDb, CreationOk;
      RewritesStep(cfg, w, s);
    }
  }

  lemma {:induction false} StampedRun(cfg: Config, w: World, run: seq<Step>, t: Id, last: Option<Time>)
    requires Inv(w) && Run(cfg, w, run) && Stamped(w.db.tickets, t, last)
    ensures Stamped(After(cfg, w, run).db.tickets, t, ChangedAt(cfg, w, run, t, last))
    decreases run
  {
    hide Enabled, NextDb, Changes, Stamped;
    if run != [] {
      StampedStep(cfg, w, run[0], t, last);
      InvStep(cfg, w, run[0]);
      StampedRun(cfg, Do(cfg, w, run[0]), run[1..], t, if Changes(cfg, w, run[0], t) then Some(w.now) else last);
    }
  }

  // Along every run, a tick takes a ticket only when more than `stuckAfter` has passed since the
  // last step that inserted the ticket or changed its row.
  lemma StuckMeansOld(cfg: Config, run: seq<Step>, r: Id, batch: seq<Id>, why: string, i: nat)
    requires Run(cfg, INIT, run) && Enabled(cfg, After(cfg, INIT, run), TickStart(r, batch, why)) && i < |batch|
    ensures var last := ChangedAt(cfg, INIT, run, batch[i], None);
            last.Some? && After(cfg, INIT, run).now - last.value > cfg.stuckAfter
  {
    InitInv();
    StampedRun(cfg, INIT, run, batch[i], None);
    var w := After(cfg, INIT, run);
    assert Stuck(w.db.tickets, w.now - cfg.stuckAfter, batch[i]);
  }

  // ----- what a recorded TICKET frame has done

  ghost predicate RecordsSeen(outq: map<Id, OutCopy>, tickets: map<Id, Ticket>) {
    forall c | c in outq && outq[c].message.body.TicketBody? && outq[c].phase.Recorded? ::
      outq[c].message.ticket in tickets && !tickets[outq[c].message.ticket].status.New?
  }

  // A frame's ticket is known.
  lemma TicketOfFrame(w: World, c: Id)
    requires OutCopiesOk(w.outq, w.db.outbox, w.now) && BirthsOk(w.births, w.db.tickets, w.db.outbox) && c in w.outq
    ensures w.outq[c].message.ticket in w.db.tickets
  {
    assert OutCopyOk(c, w.outq[c], w.db.outbox, w.now);
  }

  lemma RecordsStep(cfg: Config, w: World, s: Step)
    requires Inv(w) && Enabled(cfg, w, s) && RecordsSeen(w.outq, w.db.tickets)
    ensures RecordsSeen(NextOutq(cfg, w, s), NextDb(cfg, w, s).tickets)
  {
    hide Inv, Enabled, NextDb, NextOutq, Edge;
    MovesStep(cfg, w, s);
    MovesOneOut(cfg, w, s);
    if OutMoved(w, s).Some? {
      RecordsMoved(cfg, w, s, OutMoved(w, s).value);
    }
    NewIsLeft(cfg.freshReread, w.db, NextDb(cfg, w, s));
  }

  lemma NewIsLeft(freshReread: bool, db: Db, db': Db)
    requires Moves(freshReread, db, db')
    ensures forall t | t in db.tickets && !db.tickets[t].status.New? :: t in db'.tickets && !db'.tickets[t].status.New?
  {
  }

  lemma RecordsMoved(cfg: Config, w: World, s: Step, c: Id)
    requires Inv(w) && Enabled(cfg, w, s) && OutMoved(w, s) == Some(c) && c in NextOutq(cfg, w, s)
    ensures var q := NextOutq(cfg, w, s)[c];
            q.message.body.TicketBody? && q.phase.Recorded? ==>
              q.message.ticket in NextDb(cfg, w, s).tickets && !NextDb(cfg, w, s).tickets[q.message.ticket].status.New?
  {
    if s.GatewayRecord? {
      hide Inv, Enabled;
      assert w.outq[c].message.ticket in w.db.tickets by {
        RecordKnown(w, c);
      }
      Effects.RecordingWrites(cfg, w, c);
    } else {
      hide Inv, FindStuck, Lookup, FetchPending, NextDb;
    }
  }

  lemma RecordKnown(w: World, c: Id)
    requires Inv(w) && c in w.outq
    ensures w.outq[c].message.ticket in w.db.tickets
  {
    TicketOfFrame(w, c);
  }

  lemma {:induction false} RecordsRun(cfg: Config, w: World, run: seq<Step>)
    requires Inv(w) && Run(cfg, w, run) && RecordsSeen(w.outq, w.db.tickets)
    ensures RecordsSeen(After(cfg, w, run).outq, After(cfg, w, run).db.tickets)
    decreases run
  {
    hide Inv, Enabled, RecordsSeen, NextDb, NextOutq;
    if run != [] {
      RecordsStep(cfg, w, run[0]);
      InvStep(cfg, w, run[0]);
      RecordsRun(cfg, Do(cfg, w, run[0]), run[1..]);
    }
  }

  // Once the gateway has recorded an accepted TICKET frame, the ticket is no longer NEW, and never
  // will be again.
  lemma RecordedIsNotNew(cfg: Config, w: World, c: Id)
    requires Reachable(cfg, w) && c in w.outq && w.outq[c].message.body.TicketBody? && w.outq[c].phase.Recorded?
    ensures w.outq[c].message.ticket in w.db.tickets && !w.db.tickets[w.outq[c].message.ticket].status.New?
  {
    InitInv();
    var run :| Run(cfg, INIT, run) && After(cfg, INIT, run) == w;
    RecordsRun(cfg, INIT, run);
  }
}
