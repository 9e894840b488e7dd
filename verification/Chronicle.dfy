/** The verdict of a ticket, told by the steps of the run that led to it. */
module Chronicle {
  import opened Domain
  import opened Store
  import opened System
  import opened Invariants
  import opened Preservation
  import opened Safety
  import Runs

  // The steps of a run with the times at which they were taken.
  ghost function Log(cfg: Config, w: World, run: seq<Step>): seq<(Time, Step)>
    requires Run(cfg, w, run)
    decreases run
  {
    if run == [] then [] else [(w.now, run[0])] + Log(cfg, Do(cfg, w, run[0]), run[1..])
  }

  // One handler of recommendation m, with copy c of its frame, has taken the steps that the
  // history says about m, at the times it says.
  ghost predicate HandlerTold(m: Id, s: Settlement, c: Id, inq: map<Id, InCopy>, outbox: seq<Row>, log: seq<(Time, Step)>) {
    && c in inq && inq[c].message.id == m && inq[c].message.body.Recommendation?
    && (s.stage.InFlight? ==> s.stage.copy == c)
    && (s.claimedAt, ConsumerHandle(c)) in log
    && (s.okAt.Some? ==> (s.okAt.value, CallMonolith(c, inq[c].message.body.action, true)) in log)
    && (s.stage.AckQueued? && s.stage.row < |outbox| ==> (outbox[s.stage.row].createdAt, ConsumerSettle(c)) in log)
  }

  ghost predicate SettlementTold(m: Id, s: Settlement, inq: map<Id, InCopy>, outbox: seq<Row>, log: seq<(Time, Step)>) {
    exists c :: HandlerTold(m, s, c, inq, outbox, log)
  }

  // The copy was published, and accepted by the provider, when it says so.
  ghost predicate PublishTold(c: Id, q: OutCopy, log: seq<(Time, Step)>) {
    exists p, outcome: PublishOutcome ::
      (outcome.PublishOk? || outcome.accepted) && (q.publishedAt, Publish(p, outcome)) in log
  }

  ghost predicate AcceptTold(c: Id, q: OutCopy, log: seq<(Time, Step)>) {
    q.acceptedAt.Some? ==> exists a :: (q.acceptedAt.value, GatewaySend(c, SendOk(a))) in log
  }

  ghost predicate Told(w: World, log: seq<(Time, Step)>) {
    && (forall m | m in w.settlements :: SettlementTold(m, w.settlements[m], w.inq, w.db.outbox, log))
    && (forall c | c in w.outq :: PublishTold(c, w.outq[c], log) && AcceptTold(c, w.outq[c], log))
  }

  // ----- every step keeps the chronicle

  // The messages of inbound copies stay, and the times of outbox rows.
  ghost predicate Recalls(w: World, inq': map<Id, InCopy>, outbox': seq<Row>) {
    && (forall c | c in w.inq :: c in inq' && inq'[c].message == w.inq[c].message)
    && |w.db.outbox| <= |outbox'| && (forall e | 0 <= e < |w.db.outbox| :: outbox'[e].createdAt == w.db.outbox[e].createdAt)
  }

  lemma RecallsStep(cfg: Config, w: World, s: Step)
    requires Enabled(cfg, w, s) && w.now !in w.inq
    ensures Recalls(w, NextInq(cfg, w, s), NextDb(cfg, w, s).outbox)
  {
    hide NextDb, FindStuck, Lookup, FetchPending;
    OutboxStep(cfg, w, s);
  }

  lemma HandlerKept(m: Id, s: Settlement, c: Id, w: World, inq': map<Id, InCopy>, outbox': seq<Row>, log: seq<(Time, Step)>,
                    entry: (Time, Step))
    requires HandlerTold(m, s, c, w.inq, w.db.outbox, log) && Recalls(w, inq', outbox')
    requires s.stage.AckQueued? ==> s.stage.row < |w.db.outbox|
    ensures HandlerTold(m, s, c, inq', outbox', log + [entry])
  {
  }

  // A step tells of at most one settlement: which one, and by which copy.
  ghost function Tells(w: World, s: Step): Option<Id> {
    match s
    case ConsumerHandle(c) => if c in w.inq && StartsSettlement(w.db, w.inq[c].message) then Some(c) else None
    case CallMonolith(c, _, _) => Some(c)
    case ConsumerSettle(c) => Some(c)
    case ConsumerCancel(c, _) => Some(c)
    case InReturn(c) => if c in w.inq && Busy(w.inq[c].phase) then Some(c) else None
    case _ => None
  }

  lemma OtherSettlements(cfg: Config, w: World, s: Step, m: Id)
    requires Enabled(cfg, w, s) && m in NextSettlements(cfg, w, s)
    requires Tells(w, s).Some? && Tells(w, s).value in w.inq ==> w.inq[Tells(w, s).value].message.id != m
    ensures m in w.settlements && NextSettlements(cfg, w, s)[m] == w.settlements[m]
  {
    hide FindStuck, Lookup, FetchPending, StartsSettlement;
  }

  // The steps of a handler are told by that handler.
  lemma StartTold(cfg: Config, w: World, c: Id, log: seq<(Time, Step)>)
    requires Enabled(cfg, w, ConsumerHandle(c)) && StartsSettlement(w.db, w.inq[c].message)
    ensures var m := w.inq[c].message.id;
            var s := ConsumerHandle(c);
            m in NextSettlements(cfg, w, s)
            && HandlerTold(m, NextSettlements(cfg, w, s)[m], c, NextInq(cfg, w, s), NextDb(cfg, w, s).outbox, log + [(w.now, s)])
  {
    assert (log + [(w.now, ConsumerHandle(c))])[|log|] == (w.now, ConsumerHandle(c));
  }

  lemma NextTold(cfg: Config, w: World, s: Step, c: Id, log: seq<(Time, Step)>)
    requires Enabled(cfg, w, s) && !s.ConsumerHandle? && Tells(w, s) == Some(c) && c in w.inq
    requires w.inq[c].message.id in w.settlements && w.settlements[w.inq[c].message.id].stage == InFlight(c)
    requires HandlerTold(w.inq[c].message.id, w.settlements[w.inq[c].message.id], c, w.inq, w.db.outbox, log)
    ensures var m := w.inq[c].message.id;
            m in NextSettlements(cfg, w, s)
            && HandlerTold(m, NextSettlements(cfg, w, s)[m], c, NextInq(cfg, w, s), NextDb(cfg, w, s).outbox, log + [(w.now, s)])
  {
    hide FindStuck, Lookup, FetchPending;
    assert (log + [(w.now, s)])[|log|] == (w.now, s);
  }

  lemma ToldStep(cfg: Config, w: World, s: Step, c: Id, log: seq<(Time, Step)>)
    requires Enabled(cfg, w, s) && Tells(w, s) == Some(c) && Told(w, log) && c in w.inq && SettledSoFar(w)
    ensures var m := w.inq[c].message.id;
            m in NextSettlements(cfg, w, s)
            && HandlerTold(m, NextSettlements(cfg, w, s)[m], c, NextInq(cfg, w, s), NextDb(cfg, w, s).outbox, log + [(w.now, s)])
  {
    hide NextSettlements, NextInq, NextDb, HandlerTold, SettlementsOk, FindStuck, Lookup, FetchPending;
    if s.ConsumerHandle? {
      StartTold(cfg, w, c, log);
    } else {
      BusyStage(w, c);
      var m := w.inq[c].message.id;
      ByItsCopy(m, w.settlements[m], c, w, log);
      NextTold(cfg, w, s, c, log);
    }
  }

  lemma ByItsCopy(m: Id, s: Settlement, c: Id, w: World, log: seq<(Time, Step)>)
    requires SettlementTold(m, s, w.inq, w.db.outbox, log) && s.stage == InFlight(c)
    ensures HandlerTold(m, s, c, w.inq, w.db.outbox, log)
  {
  }

  lemma SettlementsTold(cfg: Config, w: World, s: Step, log: seq<(Time, Step)>, m: Id)
    requires Inv(w) && Enabled(cfg, w, s) && Told(w, log) && m in NextSettlements(cfg, w, s)
    ensures SettlementTold(m, NextSettlements(cfg, w, s)[m], NextInq(cfg, w, s), NextDb(cfg, w, s).outbox, log + [(w.now, s)])
  {
    hide Enabled, NextSettlements, NextInq, NextDb, HandlerTold, SettlementsOk, Tells, Recalls;
    NotYetDrawn(w);
    RecallsStep(cfg, w, s);
    if Tells(w, s).Some? {
      TellerKnown(cfg, w, s);
      ToldStep(cfg, w, s, Tells(w, s).value, log);
    }
    if !(Tells(w, s).Some? && w.inq[Tells(w, s).value].message.id == m) {
      OtherSettlements(cfg, w, s, m);
      RowKnown(w, m);
      var c :| HandlerTold(m, w.settlements[m], c, w.inq, w.db.outbox, log);
      HandlerKept(m, w.settlements[m], c, w, NextInq(cfg, w, s), NextDb(cfg, w, s).outbox, log, (w.now, s));
    }
  }

  lemma TellerKnown(cfg: Config, w: World, s: Step)
    requires Enabled(cfg, w, s) && Tells(w, s).Some?
    ensures Tells(w, s).value in w.inq
  {
    hide FindStuck, Lookup, FetchPending;
  }

  lemma RowKnown(w: World, m: Id)
    requires SettledSoFar(w) && m in w.settlements
    ensures w.settlements[m].stage.AckQueued? ==> w.settlements[m].stage.row < |w.db.outbox|
  {
    assert SettlementOk(m, w.settlements[m], w.issued, w.inq, w.db.outbox, w.causes, w.now);
  }

  lemma CopiesTold(cfg: Config, w: World, s: Step, log: seq<(Time, Step)>, c: Id)
    requires Enabled(cfg, w, s) && Told(w, log) && w.now !in w.outq && c in NextOutq(cfg, w, s)
    ensures var log' := log + [(w.now, s)];
            PublishTold(c, NextOutq(cfg, w, s)[c], log') && AcceptTold(c, NextOutq(cfg, w, s)[c], log')
  {
    hide FindStuck, Lookup, FetchPending, SettlementTold;
    var log' := log + [(w.now, s)];
    assert log'[|log|] == (w.now, s);
    assert forall x | x in log :: x in log';
    if c in w.outq {
      assert PublishTold(c, w.outq[c], log) && AcceptTold(c, w.outq[c], log);
      var p, outcome: PublishOutcome :| (outcome.PublishOk? || outcome.accepted) && (w.outq[c].publishedAt, Publish(p, outcome)) in log;
      assert (w.outq[c].publishedAt, Publish(p, outcome)) in log';
    } else {
      assert s.Publish? && (w.now, Publish(s.p, s.outcome)) in log';
    }
  }

  lemma ChronicleStep(cfg: Config, w: World, s: Step, log: seq<(Time, Step)>)
    requires Inv(w) && Enabled(cfg, w, s) && Told(w, log)
    ensures Told(Do(cfg, w, s), log + [(w.now, s)])
  {
    hide Inv, Enabled, NextDb, NextCalls, NextBatches, NextOutq, NextIssued, NextInq, SettlementTold, PublishTold, AcceptTold;
    hide NextTicks, NextSettlements, NextBirths, NextCauses, NextRolledBack, NextUnconfirmed;
    forall m | m in NextSettlements(cfg, w, s)
      ensures SettlementTold(m, NextSettlements(cfg, w, s)[m], NextInq(cfg, w, s), NextDb(cfg, w, s).outbox, log + [(w.now, s)])
    {
      SettlementsTold(cfg, w, s, log, m);
    }
    assert w.now !in w.outq by {
      Undrawn(w);
    }
    forall c | c in NextOutq(cfg, w, s)
      ensures PublishTold(c, NextOutq(cfg, w, s)[c], log + [(w.now, s)]) && AcceptTold(c, NextOutq(cfg, w, s)[c], log + [(w.now, s)])
    {
      CopiesTold(cfg, w, s, log, c);
    }
  }

  lemma {:induction false} ChronicleRun(cfg: Config, w: World, run: seq<Step>, log: seq<(Time, Step)>)
    requires Inv(w) && Run(cfg, w, run) && Told(w, log)
    ensures Told(After(cfg, w, run), log + Log(cfg, w, run))
    decreases run
  {
    hide Inv, Enabled, Do, Told;
    if run == [] {
      assert log + [] == log;
    } else {
      ChronicleStep(cfg, w, run[0], log);
      InvStep(cfg, w, run[0]);
      ChronicleRun(cfg, Do(cfg, w, run[0]), run[1..], log + [(w.now, run[0])]);
      assert log + Log(cfg, w, run) == log + [(w.now, run[0])] + Log(cfg, Do(cfg, w, run[0]), run[1..]);
    }
  }

  // ----- the story of a verdict

  // Five steps of the run, in this order: a handler of a recommendation of this action for the
  // ticket claims it; the monolith, asked by that handler for this action, processes it; the
  // handler settles; a batch publishes a copy of the acknowledgement of this action; the provider
  // accepts that copy.
  ghost predicate Story(w: World, run: seq<Step>, t: Id, a: Action, at: seq<nat>, h: Id, c: Id, p: Id,
                        outcome: PublishOutcome, b: Action) {
    && |at| == 5 && at[0] < at[1] < at[2] < at[3] < at[4] < |run|
    && h in w.inq && w.inq[h].message.ticket == t
    && w.inq[h].message.body.Recommendation? && w.inq[h].message.body.action == a
    && c in w.outq && w.outq[c].message.ticket == t
    && w.outq[c].message.body == (match a case Accept => ConfirmRecommendation case Decline => DeclineRecommendation)
    && run[at[0]] == ConsumerHandle(h)
    && run[at[1]] == CallMonolith(h, a, true)
    && run[at[2]] == ConsumerSettle(h)
    && run[at[3]] == Publish(p, outcome) && (outcome.PublishOk? || outcome.accepted)
    && run[at[4]] == GatewaySend(c, SendOk(b))
  }

  // Along every run from the start, a ticket shows a verdict only after this story, told in the
  // steps of the run itself.
  lemma VerdictHasItsStory(cfg: Config, run: seq<Step>, t: Id, a: Action)
    requires Run(cfg, INIT, run)
    requires t in After(cfg, INIT, run).db.tickets
    requires After(cfg, INIT, run).db.tickets[t].status == (match a case Accept => Confirmed case Decline => Declined)
    ensures exists at, h, c, p, outcome, b :: Story(After(cfg, INIT, run), run, t, a, at, h, c, p, outcome, b)
  {
    var w := After(cfg, INIT, run);
    var log := Log(cfg, INIT, run);
    hide Enabled, Do, Told;
    InitInv();
    assert Told(INIT, []) by {
      NothingTold();
    }
    ChronicleRun(cfg, INIT, run, []);
    assert [] + log == log;
    InvRun(cfg, INIT, run);
    var e, c := AcceptedAck(w, t, a);
    LogIsTheRun(cfg, INIT, run);
    StoryOf(w, run, log, t, a, e, c);
  }

  lemma NothingTold()
    ensures Told(INIT, [])
  {
  }

  lemma AcceptedAck(w: World, t: Id, a: Action) returns (e: nat, c: Id)
    requires Inv(w) && t in w.db.tickets && w.db.tickets[t].status == Verdict(a)
    ensures HasRow(w, t, e, TypeOf(AckBody(a))) && c in w.outq && w.outq[c].event == e && w.outq[c].acceptedAt.Some?
    ensures OutCopiesOk(w.outq, w.db.outbox, w.now) && SettledSoFar(w)
  {
    assert Evidence(w, t);
    hide Inv, SettlementsOk;
    var m;
    m, e, c :| Chain(w, t, a, m, e, c);
  }

  // Entry i of the log is step i of the run, and the times increase.
  lemma {:induction false} LogIsTheRun(cfg: Config, w: World, run: seq<Step>)
    requires Run(cfg, w, run)
    ensures var log := Log(cfg, w, run);
            LogOf(run, log) && forall i | 0 <= i < |run| :: w.now <= log[i].0
    decreases run
  {
    hide Enabled, NextDb, NextCalls, NextBatches, NextOutq, NextIssued, NextInq;
    hide NextTicks, NextSettlements, NextBirths, NextCauses, NextRolledBack, NextUnconfirmed;
    if run != [] {
      LogIsTheRun(cfg, Do(cfg, w, run[0]), run[1..]);
    }
  }

  ghost predicate LogOf(run: seq<Step>, log: seq<(Time, Step)>) {
    && |log| == |run| && (forall i | 0 <= i < |run| :: log[i].1 == run[i])
    && (forall i, j | 0 <= i < j < |run| :: log[i].0 < log[j].0)
  }

  // Entries of the log are steps of the run, in the order of their times.
  lemma StepOf(run: seq<Step>, log: seq<(Time, Step)>, entry: (Time, Step)) returns (i: nat)
    requires LogOf(run, log) && entry in log
    ensures i < |run| && log[i] == entry && run[i] == entry.1
  {
    i :| i < |log| && log[i] == entry;
  }

  lemma Earlier(run: seq<Step>, log: seq<(Time, Step)>, i: nat, j: nat)
    requires LogOf(run, log) && i < |log| && j < |log| && log[i].0 < log[j].0
    ensures i < j
  {
  }

  lemma StoryOf(w: World, run: seq<Step>, log: seq<(Time, Step)>, t: Id, a: Action, e: nat, c: Id)
    requires HasRow(w, t, e, TypeOf(AckBody(a))) && c in w.outq && w.outq[c].event == e && w.outq[c].acceptedAt.Some?
    requires OutCopiesOk(w.outq, w.db.outbox, w.now) && SettledSoFar(w) && InCopiesOk(w.inq, w.issued, w.now)
    requires Told(w, log) && LogOf(run, log)
    ensures exists at, h, p, outcome, b :: Story(w, run, t, a, at, h, c, p, outcome, b)
  {
    hide LogOf, SettlementsOk, OutCopiesOk, InCopiesOk, Told, Story;
    var h := SettledBy(w, log, t, a, e);
    var s := w.settlements[w.inq[h].message.id];
    var q := w.outq[c];
    var p, outcome, b := AcceptedBy(w, log, c);
    var times := [s.claimedAt, s.okAt.value, w.db.outbox[e].createdAt, q.publishedAt, q.acceptedAt.value];
    var at := InOrder(run, log, times, [ConsumerHandle(h), CallMonolith(h, a, true), ConsumerSettle(h),
                                        Publish(p, outcome), GatewaySend(c, SendOk(b))]);
    StoryAt(w, run, t, a, at, h, c, p, outcome, b);
  }

  // How an accepted copy got to the provider.
  lemma AcceptedBy(w: World, log: seq<(Time, Step)>, c: Id) returns (p: Id, outcome: PublishOutcome, b: Action)
    requires c in w.outq && w.outq[c].acceptedAt.Some? && OutCopiesOk(w.outq, w.db.outbox, w.now) && Told(w, log)
    ensures var q := w.outq[c];
            && q.event < |w.db.outbox| && q.message == w.db.outbox[q.event].message
            && w.db.outbox[q.event].createdAt < q.publishedAt < q.acceptedAt.value
            && (outcome.PublishOk? || outcome.accepted) && (q.publishedAt, Publish(p, outcome)) in log
            && (q.acceptedAt.value, GatewaySend(c, SendOk(b))) in log
  {
    hide SettlementTold;
    var q := w.outq[c];
    assert OutCopyOk(c, q, w.db.outbox, w.now);
    assert PublishTold(c, q, log) && AcceptTold(c, q, log);
    p, outcome :| (outcome.PublishOk? || outcome.accepted) && (q.publishedAt, Publish(p, outcome)) in log;
    b :| (q.acceptedAt.value, GatewaySend(c, SendOk(b))) in log;
  }

  // Steps with increasing times stand in the run in this order.
  lemma {:induction false} InOrder(run: seq<Step>, log: seq<(Time, Step)>, times: seq<Time>, steps: seq<Step>) returns (at: seq<nat>)
    requires LogOf(run, log) && |times| == |steps| && forall k | 0 <= k < |steps| :: (times[k], steps[k]) in log
    requires forall k | 0 < k < |times| :: times[k - 1] < times[k]
    ensures |at| == |steps| && (forall k | 0 <= k < |at| :: at[k] < |run| && log[at[k]] == (times[k], steps[k]) && run[at[k]] == steps[k])
    ensures forall k | 0 < k < |at| :: at[k - 1] < at[k]
    decreases steps
  {
    if steps == [] {
      at := [];
    } else {
      var last := |steps| - 1;
      var front := InOrder(run, log, times[..last], steps[..last]);
      var i := StepOf(run, log, (times[last], steps[last]));
      if last > 0 {
        Earlier(run, log, front[last - 1], i);
      }
      at := front + [i];
    }
  }

  lemma StoryAt(w: World, run: seq<Step>, t: Id, a: Action, at: seq<nat>, h: Id, c: Id, p: Id, outcome: PublishOutcome, b: Action)
    requires |at| == 5 && at[0] < at[1] && at[1] < at[2] && at[2] < at[3] && at[3] < at[4] && at[4] < |run|
    requires h in w.inq && w.inq[h].message.ticket == t && w.inq[h].message.body.Recommendation?
    requires w.inq[h].message.body.action == a && (outcome.PublishOk? || outcome.accepted)
    requires c in w.outq && w.outq[c].message.ticket == t && w.outq[c].message.body == AckBody(a)
    requires run[at[0]] == ConsumerHandle(h) && run[at[1]] == CallMonolith(h, a, true) && run[at[2]] == ConsumerSettle(h)
    requires run[at[3]] == Publish(p, outcome) && run[at[4]] == GatewaySend(c, SendOk(b))
    ensures Story(w, run, t, a, at, h, c, p, outcome, b)
  {
  }

  // The handler that has queued acknowledgement row e.
  lemma SettledBy(w: World, log: seq<(Time, Step)>, t: Id, a: Action, e: nat) returns (h: Id)
    requires HasRow(w, t, e, TypeOf(AckBody(a))) && SettledSoFar(w) && InCopiesOk(w.inq, w.issued, w.now) && Told(w, log)
    ensures h in w.inq && w.inq[h].message.ticket == t && w.inq[h].message.body.Recommendation?
    ensures w.inq[h].message.body.action == a && w.inq[h].message.id in w.settlements
    ensures var s := w.settlements[w.inq[h].message.id];
            && s.okAt.Some? && s.claimedAt < s.okAt.value < w.db.outbox[e].createdAt
            && (s.claimedAt, ConsumerHandle(h)) in log
            && (s.okAt.value, CallMonolith(h, a, true)) in log
            && (w.db.outbox[e].createdAt, ConsumerSettle(h)) in log
  {
    hide SettlementsOk;
    var m := AckOf(w, e);
    h :| HandlerTold(m, w.settlements[m], h, w.inq, w.db.outbox, log);
  }

  // The settlement an acknowledgement row belongs to.
  lemma AckOf(w: World, e: nat) returns (m: Id)
    requires SettledSoFar(w) && e < |w.db.outbox| && IsAck(w.db.outbox[e].message.body)
    ensures m in w.settlements && m in w.issued && w.issued[m].message.body.Recommendation?
    ensures w.issued[m].message.ticket == w.db.outbox[e].message.ticket
    ensures w.db.outbox[e].message.body == AckBody(w.issued[m].message.body.action)
    ensures var s := w.settlements[m];
            s.stage == AckQueued(e) && s.okAt.Some? && s.claimedAt < s.okAt.value < w.db.outbox[e].createdAt
  {
    m := w.causes[e];
    assert SettlementOk(m, w.settlements[m], w.issued, w.inq, w.db.outbox, w.causes, w.now);
  }
}
