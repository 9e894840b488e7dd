/** The invariant holds in every reachable world. */
module Safety {
  import opened Domain
  import opened System
  import opened Invariants
  import opened Preservation
  import opened Statuses
  import opened EvidenceKept
  import opened OutboxTable

  lemma LinksLater(w: World, w': World)
    requires Links(w) && w' == w.(now := w'.now) && w.now <= w'.now
    ensures Links(w')
  {
    assert forall c | c in w.outq :: OutCopyOk(c, w.outq[c], w.db.outbox, w.now);
    assert forall f | f in w.issued :: IssueOk(f, w.issued[f], w.outq, w.now);
  }

  lemma CreationLater(calls: map<Id, Call>, tickets: map<Id, Ticket>, now: Time, now': Time)
    requires CreationOk(calls, tickets, now) && now <= now'
    ensures CreationOk(calls, tickets, now')
  {
    assert forall k | k in calls :: CallOk(calls[k], tickets, now);
  }

  lemma SettlementsLater(w: World, now': Time)
    requires SettledSoFar(w) && w.now <= now'
    ensures SettlementsOk(w.settlements, w.issued, w.inq, w.db.outbox, w.causes, now')
  {
    assert forall m | m in w.settlements :: SettlementOk(m, w.settlements[m], w.issued, w.inq, w.db.outbox, w.causes, w.now);
  }

  lemma GrowsStep(cfg: Config, w: World, s: Step)
    requires Inv(w) && Enabled(cfg, w, s)
    ensures Grows(w, Do(cfg, w, s))
  {
    OutboxStep(cfg, w, s);
    NotYetDrawn(w);
    OutCopiesStep(cfg, w, s);
    TicketsStep(cfg, w, s);
    SettlementsGrowStep(cfg, w, s);
    InboxGrowStep(cfg, w, s);
    IssuedGrowStep(cfg, w, s);
  }

  lemma LinksKept(cfg: Config, w: World, s: Step)
    requires Inv(w) && Enabled(cfg, w, s)
    ensures Links(Do(cfg, w, s))
  {
    LinksStep(cfg, w, s);
    LinksLater(Do(cfg, w, s).(now := w.now + 1), Do(cfg, w, s));
  }

  lemma CreationKept(cfg: Config, w: World, s: Step)
    requires Inv(w) && Enabled(cfg, w, s)
    ensures CreationOk(Do(cfg, w, s).calls, Do(cfg, w, s).db.tickets, Do(cfg, w, s).now)
    ensures BirthsOk(Do(cfg, w, s).births, Do(cfg, w, s).db.tickets, Do(cfg, w, s).db.outbox)
  {
    hide Enabled, SettlementsOk, ClaimsOk, EvidenceOk, CreationOk, BirthsOk, OutboxOk, CountsOk, EarlyOk, TicksOk;
    CreationStep(cfg, w, s);
    CreationLater(Do(cfg, w, s).calls, Do(cfg, w, s).db.tickets, w.now + 1, Do(cfg, w, s).now);
    BirthsStep(cfg, w, s);
  }

  lemma SettlementsKept(cfg: Config, w: World, s: Step)
    requires Inv(w) && Enabled(cfg, w, s)
    ensures SettledSoFar(Do(cfg, w, s)) && ClaimsOk(Do(cfg, w, s).settlements, Do(cfg, w, s).db.inbox)
  {
    hide Enabled, SettlementsOk, ClaimsOk, EvidenceOk, CreationOk, BirthsOk, OutboxOk, CountsOk, EarlyOk, TicksOk;
    SettlementsStep(cfg, w, s);
    SettlementsLater(Do(cfg, w, s).(now := w.now + 1), Do(cfg, w, s).now);
    ClaimsStep(cfg, w, s);
  }

  lemma OutboxKept(cfg: Config, w: World, s: Step)
    requires Inv(w) && Enabled(cfg, w, s)
    ensures var w' := Do(cfg, w, s);
            OutboxOk(w'.db.outbox, w'.batches) &&
            CountsOk(w'.outq, w'.db.outbox, w'.batches, w'.rolledBack, w'.unconfirmed)
  {
    NotYetDrawn(w);
    OutboxOkStep(cfg, w, s);
    CountsStep(cfg, w, s);
  }

  lemma StatusesKept(cfg: Config, w: World, s: Step)
    requires Inv(w) && Enabled(cfg, w, s)
    ensures EarlyOk(Do(cfg, w, s).db) && TicksOk(Do(cfg, w, s).ticks, Do(cfg, w, s).db.tickets)
    ensures EvidenceOk(Do(cfg, w, s))
  {
    hide Enabled, NextDb, NextTicks, EarlyOk, TicksOk, EvidenceOk, Moves, Grows, SettlementsOk, ClaimsOk;
    hide OutboxOk, CountsOk;
    ClaimsKnown(w);
    EarlyStep(cfg, w, s);
    MovesStep(cfg, w, s);
    TicksStep(cfg, w, s);
    GrowsStep(cfg, w, s);
    EvidenceStep(cfg, w, s);
  }

  lemma InvStep(cfg: Config, w: World, s: Step)
    requires Inv(w) && Enabled(cfg, w, s)
    ensures Inv(Do(cfg, w, s))
  {
    hide Enabled, SettlementsOk, ClaimsOk, EvidenceOk, CreationOk, BirthsOk, OutboxOk, CountsOk, EarlyOk;
    hide TicksOk, Links;
    LinksKept(cfg, w, s);
    CreationKept(cfg, w, s);
    SettlementsKept(cfg, w, s);
    OutboxKept(cfg, w, s);
    StatusesKept(cfg, w, s);
  }

  lemma InitInv()
    ensures Inv(INIT)
  {
    forall e: nat ensures |CopiesOf(INIT.outq, e)| == Expected(INIT.db.outbox, INIT.batches, INIT.rolledBack, INIT.unconfirmed, e) {
      assert CopiesOf(INIT.outq, e) == {};
    }
  }

  lemma Undrawn(w: World)
    requires Inv(w)
    ensures w.now !in w.outq && w.now !in w.inq
  {
    NotYetDrawn(w);
  }

  lemma {:induction false} InvRun(cfg: Config, w: World, run: seq<Step>)
    requires Inv(w) && Run(cfg, w, run)
    ensures Inv(After(cfg, w, run))
    decreases run
  {
    if run != [] {
      InvStep(cfg, w, run[0]);
      InvRun(cfg, Do(cfg, w, run[0]), run[1..]);
    }
  }

  lemma InvReachable(cfg: Config, w: World)
    requires Reachable(cfg, w)
    ensures Inv(w)
  {
    var run :| Run(cfg, INIT, run) && After(cfg, INIT, run) == w;
    InitInv();
    InvRun(cfg, INIT, run);
  }
}
