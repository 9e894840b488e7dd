/** Runs that end in a verdict, and runs that take a ticket out of it again. */
module Reopening {
  import opened Domain
  import opened Store
  import opened System
  import opened Preservation
  import opened OutboxTable
  import opened Safety
  import opened Runs

  ghost predicate NothingCancelled(cfg: Config, w: World, run: seq<Step>)
    requires Run(cfg, w, run)
  {
    forall t :: NeverCancelled(cfg, w, run, t)
  }

  // A run from w0 that cancels no ticket leads to w.
  ghost predicate Led(cfg: Config, w0: World, w: World) {
    Reachable(cfg, w) && exists run :: Run(cfg, w0, run) && NothingCancelled(cfg, w0, run) && After(cfg, w0, run) == w
  }

  lemma LedHere(cfg: Config, w: World)
    requires Reachable(cfg, w)
    ensures Led(cfg, w, w)
  {
    hide Enabled, Do;
    assert Run(cfg, w, []) && NothingCancelled(cfg, w, []) && After(cfg, w, []) == w;
  }

  lemma LedInit(cfg: Config)
    ensures Led(cfg, INIT, INIT)
  {
    hide Enabled, Do;
    assert Run(cfg, INIT, []) && After(cfg, INIT, []) == INIT;
    LedHere(cfg, INIT);
  }

  lemma {:induction false} NeverCancelledSnoc(cfg: Config, w: World, run: seq<Step>, s: Step, t: Id)
    requires Run(cfg, w, run) && NeverCancelled(cfg, w, run, t)
    requires Enabled(cfg, After(cfg, w, run), s) && !Cancels(cfg, After(cfg, w, run), s, t)
    ensures Run(cfg, w, run + [s]) && NeverCancelled(cfg, w, run + [s], t)
    ensures After(cfg, w, run + [s]) == Do(cfg, After(cfg, w, run), s)
    decreases run
  {
    hide Enabled, Do, Cancels;
    if run == [] {
      assert run + [s] == [s] && [s][1..] == [];
      assert NeverCancelled(cfg, Do(cfg, w, s), [], t);
    } else {
      NeverCancelledSnoc(cfg, Do(cfg, w, run[0]), run[1..], s, t);
      assert (run + [s])[1..] == run[1..] + [s];
    }
  }

  // One more step of any kind.
  lemma Extend(cfg: Config, w: World, s: Step) returns (w': World)
    requires Reachable(cfg, w) && Enabled(cfg, w, s)
    ensures w' == Do(cfg, w, s) && Reachable(cfg, w')
  {
    hide Enabled, Do;
    w' := Do(cfg, w, s);
    var past :| Run(cfg, INIT, past) && After(cfg, INIT, past) == w;
    OneStep(cfg, w, s);
    RunConcat(cfg, INIT, past, [s]);
  }

  // One more step that cancels nothing.
  lemma Go(cfg: Config, w0: World, w: World, s: Step) returns (w': World)
    requires Led(cfg, w0, w) && Enabled(cfg, w, s) && forall t :: !Cancels(cfg, w, s, t)
    ensures w' == Do(cfg, w, s) && Led(cfg, w0, w')
  {
    hide Enabled, Do, Cancels, NeverCancelled;
    w' := Extend(cfg, w, s);
    OneStep(cfg, w, s);
    var run :| Run(cfg, w0, run) && NothingCancelled(cfg, w0, run) && After(cfg, w0, run) == w;
    RunConcat(cfg, w0, run, [s]);
    forall t ensures NeverCancelled(cfg, w0, run + [s], t) {
      NeverCancelledSnoc(cfg, w0, run, s, t);
    }
  }

  lemma Facts(cfg: Config, w0: World, w: World)
    requires Led(cfg, w0, w)
    ensures w.now !in w.outq && w.now !in w.issued && w.now !in w.inq && w.now !in w.db.tickets
    ensures forall m | m in w.db.inbox :: m in w.issued
    ensures forall x | x in w.db.tickets :: w.db.tickets[x].updatedAt < w.now
  {
    InvReachable(cfg, w);
    NotYetDrawn(w);
  }

  // ----- building blocks: each says all that it changes and that matters to the next

  // Row e is the one row a batch can take, and no batch is live.
  ghost predicate OnlyRow(w: World, e: nat) {
    w.batches == map[] && Available(w.db.outbox, {}, e) && forall f | Available(w.db.outbox, {}, f) :: f == e
  }

  ghost predicate NoRow(w: World) {
    w.batches == map[] && forall f :: !Available(w.db.outbox, {}, f)
  }

  lemma RowAdded(w: World, w': World, r: Row)
    requires NoRow(w) && w'.batches == w.batches && w'.db.outbox == w.db.outbox + [r] && r.status.Pending?
    ensures OnlyRow(w', |w.db.outbox|)
  {
    forall f: nat | Available(w'.db.outbox, {}, f) ensures f == |w.db.outbox| {
      assert f < |w.db.outbox| ==> Available(w.db.outbox, {}, f);
    }
  }

  lemma RowGone(w: World, w': World, e: nat)
    requires OnlyRow(w, e) && w'.batches == map[] && |w'.db.outbox| == |w.db.outbox| && !w'.db.outbox[e].status.Pending?
    requires forall f | 0 <= f < |w.db.outbox| && f != e :: w'.db.outbox[f] == w.db.outbox[f]
    ensures NoRow(w')
  {
    forall f ensures !Available(w'.db.outbox, {}, f) {
      if Available(w'.db.outbox, {}, f) {
        assert Available(w.db.outbox, {}, f);
      }
    }
  }

  lemma Create(cfg: Config, w0: World, w: World, k: Id, key: string) returns (w': World, born: Id)
    requires Led(cfg, w0, w) && NoRow(w) && k !in w.calls
    requires forall x | x in w.db.tickets :: w.db.tickets[x].key != key
    ensures Led(cfg, w0, w') && OnlyRow(w', |w.db.outbox|) && w'.calls.Keys == w.calls.Keys + {k}
    ensures w'.db.inbox == w.db.inbox && w'.ticks == w.ticks
    ensures born !in w.db.tickets && born in w'.db.tickets && w'.db.tickets == w.db.tickets[born := w'.db.tickets[born]]
    ensures w'.db.tickets[born].status.New? && w'.db.tickets[born].key == key
    ensures |w'.db.outbox| == |w.db.outbox| + 1
    ensures w'.db.outbox[|w.db.outbox|].message.ticket == born && w'.db.outbox[|w.db.outbox|].message.body.TicketBody?
  {
    hide Led;
    Facts(cfg, w0, w);
    born := w.now;
    var w1 := Go(cfg, w0, w, CreateLookup(k, key, Bet(0, 1.0, EUR, []), None));
    assert !Refused(w1.db.tickets, key, Bet(0, 1.0, EUR, []));
    w' := Go(cfg, w0, w1, CreateInsert(k));
    RowAdded(w, w', w'.db.outbox[|w.db.outbox|]);
  }

  // A batch takes the row and publishes it; then it commits, or dies.
  lemma PublishCopy(cfg: Config, w0: World, w: World, e: nat) returns (w': World, c: Id)
    requires cfg.Sane() && Led(cfg, w0, w) && OnlyRow(w, e)
    ensures Led(cfg, w0, w') && w'.batches == map[0 := Batch([e], 1, {e}, map[])]
    ensures w'.db == w.db && w'.issued == w.issued && w'.inq == w.inq && w'.ticks == w.ticks && w'.calls == w.calls
    ensures c !in w.outq && OutIn(w', c, Queued) && w'.outq == w.outq[c := w'.outq[c]]
    ensures w'.outq[c].message == w.db.outbox[e].message
  {
    hide Led, FindStuck, Lookup;
    OnlyRowFetched(cfg, w, e);
    var w1 := Go(cfg, w0, w, Fetch(0));
    Facts(cfg, w0, w1);
    c := w1.now;
    assert Head(w1, 0) == e;
    w' := Go(cfg, w0, w1, Publish(0, PublishOk));
    assert w'.batches[0] == Batch([e], 1, {e}, map[]);
  }

  lemma OnlyRowFetched(cfg: Config, w: World, e: nat)
    requires cfg.Sane() && OnlyRow(w, e)
    ensures FetchPending(w.db.outbox, Locked(w.batches), 0, cfg.outboxBatch) == [e]
  {
    assert Locked(w.batches) == {};
    var rows := FetchPending(w.db.outbox, {}, 0, cfg.outboxBatch);
    FetchSelects(w.db.outbox, {}, 0, cfg.outboxBatch);
    assert forall j | 0 <= j < |rows| :: rows[j] == e;
    assert rows[0] == rows[|rows| - 1];
  }

  // The batch commits: the row is published, and no row is left.
  lemma PublishOnly(cfg: Config, w0: World, w: World, e: nat) returns (w': World, c: Id)
    requires cfg.Sane() && Led(cfg, w0, w) && OnlyRow(w, e)
    ensures Led(cfg, w0, w') && NoRow(w') && |w'.db.outbox| == |w.db.outbox|
    ensures w'.db == w.db.(outbox := w'.db.outbox)
    ensures w'.issued == w.issued && w'.inq == w.inq && w'.ticks == w.ticks && w'.calls == w.calls
    ensures c !in w.outq && OutIn(w', c, Queued) && w'.outq == w.outq[c := w'.outq[c]]
    ensures w'.outq[c].message == w.db.outbox[e].message
  {
    hide Led, FindStuck, Lookup, FetchPending;
    var w1;
    w1, c := PublishCopy(cfg, w0, w, e);
    w' := Go(cfg, w0, w1, CommitBatch(0));
    assert w'.batches == map[];
    RowGone(w, w', e);
  }

  // The batch dies after publishing: the row is still to be published.
  lemma PublishRolledBack(cfg: Config, w0: World, w: World, e: nat) returns (w': World, c: Id)
    requires cfg.Sane() && Led(cfg, w0, w) && OnlyRow(w, e)
    ensures Led(cfg, w0, w') && OnlyRow(w', e) && w'.db == w.db
    ensures w'.issued == w.issued && w'.inq == w.inq && w'.ticks == w.ticks && w'.calls == w.calls
    ensures c !in w.outq && OutIn(w', c, Queued) && w'.outq == w.outq[c := w'.outq[c]]
    ensures w'.outq[c].message == w.db.outbox[e].message
  {
    hide Led, FindStuck, Lookup, FetchPending;
    var w1;
    w1, c := PublishCopy(cfg, w0, w, e);
    w' := Go(cfg, w0, w1, AbortBatch(0));
    assert w'.batches == map[];
  }

  // The provider accepts the frame.
  lemma ProviderAccepts(cfg: Config, w0: World, w: World, c: Id, a: Action) returns (w': World, f: Id)
    requires Led(cfg, w0, w) && OutIn(w, c, Queued)
    ensures Led(cfg, w0, w') && OutIn(w', c, Sent) && w'.outq[c].message == w.outq[c].message
    ensures w'.db == w.db && w'.batches == w.batches && w'.inq == w.inq && w'.ticks == w.ticks && w'.calls == w.calls
    ensures w'.outq == w.outq[c := w'.outq[c]] && f !in w.issued
    ensures if HasReply(w.outq[c].message.body)
            then f in w'.issued && w'.issued == w.issued[f := w'.issued[f]]
                 && w'.issued[f].message == Reply(w.outq[c].message, a, f)
            else w'.issued == w.issued
  {
    hide Led, FindStuck, Lookup, FetchPending;
    var w1 := Go(cfg, w0, w, GatewayTake(c));
    Facts(cfg, w0, w1);
    f := w1.now;
    w' := Go(cfg, w0, w1, GatewaySend(c, SendOk(a)));
  }

  // A recommendation arrives, and its handler commits the first transaction.
  lemma Receive(cfg: Config, w0: World, w: World, f: Id) returns (w': World, d: Id)
    requires Led(cfg, w0, w) && f in w.issued && StartsSettlement(w.db, w.issued[f].message)
    ensures Led(cfg, w0, w') && w'.outq == w.outq && w'.issued == w.issued && w'.batches == w.batches
    ensures w'.ticks == w.ticks && d !in w.inq
    ensures w'.inq == w.inq[d := InCopy(w.issued[f].message, 0, CallingMonolith)]
    ensures exists now :: w'.db == FirstTransaction(w.db, w.issued[f].message, now)
  {
    hide Led, FindStuck, Lookup, FetchPending;
    var m := w.issued[f].message;
    var w1 := Arrive(cfg, w0, w, f);
    d := w.now;
    w' := Go(cfg, w0, w1, ConsumerHandle(d));
    assert w'.db == FirstTransaction(w.db, m, w1.now);
  }

  lemma Arrive(cfg: Config, w0: World, w: World, f: Id) returns (w': World)
    requires Led(cfg, w0, w) && f in w.issued
    ensures Led(cfg, w0, w') && w'.outq == w.outq && w'.issued == w.issued && w'.batches == w.batches
    ensures w'.ticks == w.ticks && w'.db == w.db && w.now !in w.inq
    ensures w'.inq == w.inq[w.now := InCopy(w.issued[f].message, 0, WithConsumer)]
  {
    hide Led, FindStuck, Lookup, FetchPending;
    Facts(cfg, w0, w);
    var w1 := Go(cfg, w0, w, Forward(f));
    w' := Go(cfg, w0, w1, ConsumerTake(w.now));
  }

  // The monolith answers.
  lemma Answer(cfg: Config, w0: World, w: World, d: Id, ok: bool) returns (w': World)
    requires Led(cfg, w0, w) && InIn(w, d, CallingMonolith) && w.inq[d].message.body.Recommendation?
    ensures Led(cfg, w0, w') && w'.db == w.db && w'.outq == w.outq && w'.batches == w.batches && w'.ticks == w.ticks
    ensures w'.inq == w.inq[d := w.inq[d].(phase := if ok then MonolithOk else MonolithFailed)]
    ensures w.now < w'.now
  {
    hide Led, FindStuck, Lookup, FetchPending;
    w' := Go(cfg, w0, w, CallMonolith(d, w.inq[d].message.body.action, ok));
  }

  // The second transaction settles the ticket and queues the acknowledgement.
  lemma SecondCommit(cfg: Config, w0: World, w: World, d: Id, t: Id) returns (w': World)
    requires Led(cfg, w0, w) && NoRow(w) && InIn(w, d, MonolithOk) && w.inq[d].message.body.Recommendation?
    requires w.inq[d].message.ticket == t && t in w.db.tickets
    requires cfg.freshReread ==> !Terminal(w.db.tickets[t].status)
    ensures Led(cfg, w0, w') && OnlyRow(w', |w.db.outbox|) && w'.outq == w.outq && w'.ticks == w.ticks
    ensures w'.inq == w.inq[d := w.inq[d].(phase := Handled)]
    ensures |w'.db.outbox| == |w.db.outbox| + 1
    ensures w'.db.outbox[|w.db.outbox|].message.ticket == t
    ensures w'.db.outbox[|w.db.outbox|].message.body == AckBody(w.inq[d].message.body.action)
    ensures t in w'.db.tickets && w'.db.tickets == w.db.tickets[t := w'.db.tickets[t]]
    ensures w'.db.tickets[t].status.Settled? && w'.db.tickets[t].updatedAt == w.now
  {
    hide Led, FindStuck, Lookup, FetchPending;
    w' := Go(cfg, w0, w, ConsumerSettle(d));
    RowAdded(w, w', w'.db.outbox[|w.db.outbox|]);
  }

  // The gateway writes the verdict.
  lemma Record(cfg: Config, w0: World, w: World, c: Id, a: Action, t: Id) returns (w': World)
    requires Led(cfg, w0, w) && OutIn(w, c, Sent) && w.outq[c].message.ticket == t && w.outq[c].message.body == AckBody(a)
    requires t in w.db.tickets && !Terminal(w.db.tickets[t].status)
    ensures Led(cfg, w0, w') && w'.inq == w.inq && w'.ticks == w.ticks && w'.batches == w.batches
    ensures w'.db.outbox == w.db.outbox && t in w'.db.tickets && w'.db.tickets == w.db.tickets[t := w'.db.tickets[t]]
    ensures w'.db.tickets[t].status == Verdict(a)
  {
    hide Led, FindStuck, Lookup, FetchPending;
    w' := Go(cfg, w0, w, GatewayRecord(c));
  }

  // ----- the runs

  // From an answered handler to an acknowledgement that the provider has accepted.
  lemma Acknowledge(cfg: Config, w0: World, w: World, d: Id, a: Action, t: Id) returns (w': World, c: Id)
    requires cfg.Sane() && Led(cfg, w0, w) && NoRow(w) && InIn(w, d, CallingMonolith)
    requires w.inq[d].message.body.Recommendation? && w.inq[d].message.body.action == a
    requires w.inq[d].message.ticket == t && t in w.db.tickets
    requires cfg.freshReread ==> !Terminal(w.db.tickets[t].status)
    ensures Led(cfg, w0, w') && NoRow(w') && OutIn(w', c, Sent)
    ensures w'.outq[c].message.ticket == t && w'.outq[c].message.body == AckBody(a)
    ensures w'.inq == w.inq[d := w.inq[d].(phase := Handled)] && w'.ticks == w.ticks
    ensures t in w'.db.tickets && w'.db.tickets == w.db.tickets[t := w'.db.tickets[t]]
    ensures w'.db.tickets[t].status.Settled? && w'.db.tickets[t].updatedAt > w.now
  {
    hide Led, NoRow, OnlyRow;
    var w1 := Answer(cfg, w0, w, d, true);
    assert NoRow(w1) by {
      NoRowKept(w, w1);
    }
    var w2 := SecondCommit(cfg, w0, w1, d, t);
    var w3;
    w3, c := PublishOnly(cfg, w0, w2, |w1.db.outbox|);
    var f;
    w', f := ProviderAccepts(cfg, w0, w3, c, a);
    NoRowKept(w3, w');
  }

  lemma NoRowKept(w: World, w': World)
    requires NoRow(w) && w'.batches == w.batches && w'.db.outbox == w.db.outbox
    ensures NoRow(w')
  {
  }

  lemma NoRowAtFirst()
    ensures NoRow(INIT)
  {
  }

  // Two tickets; the TICKET row of the older one has been published.
  lemma TwoTickets(cfg: Config) returns (w: World, older: Id, born: Id)
    requires cfg.Sane()
    ensures Led(cfg, INIT, w) && OnlyRow(w, 1) && |w.db.outbox| == 2 && w.ticks == map[] && w.db.inbox == map[]
    ensures older != born && older in w.db.tickets && born in w.db.tickets
    ensures w.db.tickets[older].status.New? && w.db.tickets[born].status.New?
    ensures w.db.outbox[1].message.ticket == born && w.db.outbox[1].message.body.TicketBody?
  {
    hide Led, NoRow, OnlyRow;
    LedInit(cfg);
    NoRowAtFirst();
    var w1, w2, c;
    w1, older := Create(cfg, INIT, INIT, 0, "one");
    w2, c := PublishOnly(cfg, INIT, w1, 0);
    w, born := Create(cfg, INIT, w2, 1, "two");
  }

  // Two handlers of one ticket, for recommendations a and b, each with its first transaction
  // committed: the batch that published the TICKET row first was rolled back.
  ghost predicate TwoHandlers(cfg: Config, w: World, t: Id, older: Id, d: Id, e: Id, a: Action, b: Action) {
    && Led(cfg, INIT, w) && NoRow(w) && w.ticks == map[]
    && older != t && older in w.db.tickets && w.db.tickets[older].status.New?
    && t in w.db.tickets && !Terminal(w.db.tickets[t].status)
    && d != e && WaitsWith(w, d, t, a) && WaitsWith(w, e, t, b)
  }

  ghost predicate WaitsWith(w: World, d: Id, t: Id, a: Action) {
    InIn(w, d, CallingMonolith) && w.inq[d].message.ticket == t
    && w.inq[d].message.body.Recommendation? && w.inq[d].message.body.action == a
  }

  // Two copies of the TICKET frame are accepted, and each is answered.
  lemma TwoAnswers(cfg: Config, a: Action, b: Action) returns (w: World, older: Id, t: Id, f: Id, g: Id)
    requires cfg.Sane()
    ensures Led(cfg, INIT, w) && NoRow(w) && w.ticks == map[] && w.db.inbox == map[]
    ensures older != t && older in w.db.tickets && w.db.tickets[older].status.New?
    ensures t in w.db.tickets && w.db.tickets[t].status.New? && f != g && f in w.issued && g in w.issued
    ensures RecommendationOf(w.issued[f].message, f, t, a) && RecommendationOf(w.issued[g].message, g, t, b)
  {
    hide Led, NoRow, OnlyRow;
    var w1, w2, w3, w4, c, d;
    w1, older, t := TwoTickets(cfg);
    w2, c := PublishRolledBack(cfg, INIT, w1, 1);
    w3, f := ProviderAccepts(cfg, INIT, w2, c, a);
    OnlyRowKept(w2, w3, 1);
    w4, d := PublishOnly(cfg, INIT, w3, 1);
    w, g := ProviderAccepts(cfg, INIT, w4, d, b);
    NoRowKept(w4, w);
  }

  predicate RecommendationOf(m: Message, f: Id, t: Id, a: Action) {
    m.id == f && m.ticket == t && m.body.Recommendation? && m.body.action == a
  }

  lemma OnlyRowKept(w: World, w': World, e: nat)
    requires OnlyRow(w, e) && w'.batches == w.batches && w'.db.outbox == w.db.outbox
    ensures OnlyRow(w', e)
  {
  }

  lemma BothClaimed(cfg: Config, a: Action, b: Action) returns (w: World, older: Id, t: Id, d: Id, e: Id)
    requires cfg.Sane()
    ensures TwoHandlers(cfg, w, t, older, d, e, a, b)
  {
    hide Led, NoRow;
    var w1, w2, f, g;
    w1, older, t, f, g := TwoAnswers(cfg, a, b);
    w2, d := Receive(cfg, INIT, w1, f);
    w, e := Receive(cfg, INIT, w2, g);
    NoRowKept(w1, w);
  }

  // ----- verdicts

  // A ticket with this verdict, in a run that cancels nothing, while another handler of it, for
  // recommendation b, waits for the monolith.
  ghost predicate VerdictWhileWaiting(cfg: Config, w: World, t: Id, e: Id, a: Action, b: Action) {
    && Led(cfg, INIT, w) && NoRow(w) && t in w.db.tickets && w.db.tickets[t].status == Verdict(a)
    && WaitsWith(w, e, t, b)
  }

  lemma FirstVerdict(cfg: Config, a: Action, b: Action) returns (w: World, t: Id, e: Id)
    requires cfg.Sane()
    ensures VerdictWhileWaiting(cfg, w, t, e, a, b)
  {
    hide Led, NoRow;
    var w1, w2, older, d, c;
    w1, older, t, d, e := BothClaimed(cfg, a, b);
    w2, c := Acknowledge(cfg, INIT, w1, d, a, t);
    w := Record(cfg, INIT, w2, c, a, t);
    NoRowKept(w2, w);
  }

  // Both verdicts are reached.
  lemma VerdictReachable(cfg: Config, a: Action)
    requires cfg.Sane()
    ensures exists w, t :: Reachable(cfg, w) && t in w.db.tickets && w.db.tickets[t].status == Verdict(a)
  {
    var w, t, e := FirstVerdict(cfg, a, a);
    assert Reachable(cfg, w) && t in w.db.tickets && w.db.tickets[t].status == Verdict(a);
  }

  // ----- the way the documentation draws

  // The gateway records an accepted TICKET frame.
  lemma RecordSent(cfg: Config, w0: World, w: World, c: Id, t: Id) returns (w': World)
    requires Led(cfg, w0, w) && OutIn(w, c, Sent) && w.outq[c].message.ticket == t && w.outq[c].message.body.TicketBody?
    requires t in w.db.tickets && w.db.tickets[t].status.New?
    ensures Led(cfg, w0, w') && w'.issued == w.issued && w'.batches == w.batches && w'.db.inbox == w.db.inbox
    ensures w'.db.outbox == w.db.outbox && w'.ticks == w.ticks
    ensures t in w'.db.tickets && w'.db.tickets[t].status.SentToProvider?
  {
    hide Led, FindStuck, Lookup, FetchPending;
    w' := Go(cfg, w0, w, GatewayRecord(c));
  }

  // From NEW to SENT_TO_PROVIDER, with the provider's answer on its way.
  lemma SentTicket(cfg: Config, a: Action) returns (w0: World, w: World, t: Id, f: Id)
    requires cfg.Sane()
    ensures Led(cfg, INIT, w0) && t in w0.db.tickets && w0.db.tickets[t].status.New?
    ensures Led(cfg, w0, w) && NoRow(w) && t in w.db.tickets && w.db.tickets[t].status.SentToProvider?
    ensures f in w.issued && RecommendationOf(w.issued[f].message, f, t, a) && f !in w.db.inbox
  {
    hide Led, NoRow, OnlyRow;
    var older, w1, w2, c;
    w0, older, t := TwoTickets(cfg);
    assert Led(cfg, w0, w0) by {
      LedAgain(cfg, INIT, w0);
    }
    w1, c := PublishOnly(cfg, w0, w0, 1);
    w2, f := ProviderAccepts(cfg, w0, w1, c, a);
    w := RecordSent(cfg, w0, w2, c, t);
    NoRowKept(w1, w);
  }

  lemma LedAgain(cfg: Config, w0: World, w: World)
    requires Led(cfg, w0, w)
    ensures Led(cfg, w, w)
  {
    LedHere(cfg, w);
  }

  // From there to RECOMMENDED and SETTLED.
  lemma SettledTicket(cfg: Config, w: World, t: Id, f: Id, a: Action) returns (w1: World, w2: World, c: Id)
    requires cfg.Sane() && Led(cfg, w, w) && NoRow(w) && t in w.db.tickets && w.db.tickets[t].status.SentToProvider?
    requires f in w.issued && RecommendationOf(w.issued[f].message, f, t, a) && f !in w.db.inbox
    ensures Led(cfg, w, w1) && t in w1.db.tickets && w1.db.tickets[t].status == Recommended(a)
    ensures Led(cfg, w1, w2) && t in w2.db.tickets && w2.db.tickets[t].status.Settled?
    ensures OutIn(w2, c, Sent) && w2.outq[c].message.ticket == t && w2.outq[c].message.body == AckBody(a)
  {
    hide Led, NoRow;
    var d;
    w1, d := Receive(cfg, w, w, f);
    NoRowKept(w, w1);
    assert Led(cfg, w1, w1) by {
      LedAgain(cfg, w, w1);
    }
    w2, c := Acknowledge(cfg, w1, w1, d, a, t);
  }

  // The documented way of a ticket.
  ghost predicate Way(cfg: Config, t: Id, a: Action, w0: World, w1: World, w2: World, w3: World, w4: World) {
    && Led(cfg, INIT, w0) && t in w0.db.tickets && w0.db.tickets[t].status == New
    && Led(cfg, w0, w1) && t in w1.db.tickets && w1.db.tickets[t].status == SentToProvider
    && Led(cfg, w1, w2) && t in w2.db.tickets
    && w2.db.tickets[t].status == (match a case Accept => RecommendedConfirm case Decline => RecommendedDecline)
    && Led(cfg, w2, w3) && t in w3.db.tickets && w3.db.tickets[t].status == Settled
    && Led(cfg, w3, w4) && t in w4.db.tickets
    && w4.db.tickets[t].status == (match a case Accept => Confirmed case Decline => Declined)
  }

  // With either read there is a run that takes a ticket from NEW through SENT_TO_PROVIDER, the
  // recommendation and SETTLED to its verdict, and cancels nothing.
  lemma DocumentedWay(cfg: Config, a: Action)
    requires cfg.Sane()
    ensures exists t, w0, w1, w2, w3, w4 :: Way(cfg, t, a, w0, w1, w2, w3, w4)
  {
    hide Led, NoRow;
    var w0, w1, t, f := SentTicket(cfg, a);
    assert Led(cfg, w1, w1) by {
      LedAgain(cfg, w0, w1);
    }
    var w2, w3, c := SettledTicket(cfg, w1, t, f, a);
    assert Led(cfg, w3, w3) by {
      LedAgain(cfg, w2, w3);
    }
    var w4 := Record(cfg, w3, w3, c, a, t);
    assert Way(cfg, t, a, w0, w1, w2, w3, w4);
  }

  // With the stale second read, any delivered verdict is overruled by any later one, the opposite
  // one included, although nothing is ever cancelled.
  ghost predicate Overruling(cfg: Config, w: World, w': World, t: Id, a: Action, b: Action) {
    && Led(cfg, INIT, w) && t in w.db.tickets && w.db.tickets[t].status == Verdict(a)
    && Led(cfg, w, w') && t in w'.db.tickets && w'.db.tickets[t].status == Verdict(b)
  }

  lemma VerdictOverruled(cfg: Config, a: Action, b: Action)
    requires cfg.Sane() && !cfg.freshReread
    ensures exists w, w', t :: Overruling(cfg, w, w', t, a, b)
  {
    hide NoRow, Reachable;
    var w, t, e := FirstVerdict(cfg, a, b);
    LedHere(cfg, w);
    hide Led;
    var w1, c := Acknowledge(cfg, w, w, e, b, t);
    var w' := Record(cfg, w, w1, c, b, t);
    assert Overruling(cfg, w, w', t, a, b);
  }

  // ----- each way out of a verdict

  // In a reachable world, a step takes a confirmed or declined ticket out of its verdict.
  ghost predicate Undoes(cfg: Config, w: World, s: Step, t: Id) {
    && Reachable(cfg, w) && Enabled(cfg, w, s) && Reopens(cfg, w, s, t)
    && t in w.db.tickets && (w.db.tickets[t].status.Confirmed? || w.db.tickets[t].status.Declined?)
    && t in NextDb(cfg, w, s).tickets && !Terminal(NextDb(cfg, w, s).tickets[t].status)
  }

  lemma UndoneBy(cfg: Config, w: World, s: Step, t: Id)
    requires Reachable(cfg, w) && Enabled(cfg, w, s) && Reopens(cfg, w, s, t)
    requires t in w.db.tickets && (w.db.tickets[t].status.Confirmed? || w.db.tickets[t].status.Declined?)
    ensures Undoes(cfg, w, s, t)
  {
    ReopenedExactlyBy(cfg, w, s, t);
  }

  // With the stale second read, a settlement.
  lemma StaleReadReopens(cfg: Config, a: Action)
    requires cfg.Sane() && !cfg.freshReread
    ensures exists w, s: Step, t :: Undoes(cfg, w, s, t) && s.ConsumerSettle? && w.db.tickets[t].status == Verdict(a)
  {
    hide NoRow;
    var w1, t, e := FirstVerdict(cfg, a, a);
    var w := Answer(cfg, INIT, w1, e, true);
    UndoneBy(cfg, w, ConsumerSettle(e), t);
  }

  // With either read, a late monolith failure.
  lemma LateFailureReopens(cfg: Config, a: Action)
    requires cfg.Sane()
    ensures exists w, s: Step, t :: Undoes(cfg, w, s, t) && s.ConsumerCancel? && w.db.tickets[t].status == Verdict(a)
  {
    hide NoRow;
    var w1, t, e := FirstVerdict(cfg, a, a);
    var w := Answer(cfg, INIT, w1, e, false);
    UndoneBy(cfg, w, ConsumerCancel(e, ""), t);
  }

  // With either read, a reconciler whose query came before the verdict, if it takes more than
  // one ticket at a time.
  lemma TickReopens(cfg: Config, a: Action)
    requires cfg.Sane() && cfg.stuckBatch > 1
    ensures exists w, s: Step, t :: Undoes(cfg, w, s, t) && s.TickNext? && w.db.tickets[t].status == Verdict(a)
  {
    hide NoRow;
    var w, t := VerdictDuringTick(cfg, a);
    UndoneBy(cfg, w, TickNext(0, ""), t);
  }

  lemma VerdictDuringTick(cfg: Config, a: Action) returns (w: World, t: Id)
    requires cfg.Sane() && cfg.stuckBatch > 1
    ensures Reachable(cfg, w) && t in w.db.tickets && w.db.tickets[t].status == Verdict(a)
    ensures 0 in w.ticks && w.ticks[0] == [Loaded(t, Settled)]
  {
    hide NoRow, Reachable;
    var w1, w2, older, d, e, c;
    w1, older, t, d, e := BothClaimed(cfg, a, a);
    Facts(cfg, INIT, w1);
    w2, c := Acknowledge(cfg, INIT, w1, d, a, t);
    var w3 := StartTick(cfg, w2, older, t);
    LedHere(cfg, w3);
    w := Record(cfg, w3, w3, c, a, t);
  }

  // The reconciler's query answers with these two, and the first is requested.
  lemma StartTick(cfg: Config, w: World, older: Id, t: Id) returns (w': World)
    requires Reachable(cfg, w) && cfg.stuckBatch > 1 && w.ticks == map[] && older != t
    requires older in w.db.tickets && t in w.db.tickets && w.db.tickets[older].updatedAt <= w.db.tickets[t].updatedAt
    requires !Terminal(w.db.tickets[older].status) && !Terminal(w.db.tickets[t].status)
    ensures Reachable(cfg, w') && w'.ticks == map[0 := [Loaded(t, w.db.tickets[t].status)]]
    ensures w'.outq == w.outq && t in w'.db.tickets && w'.db.tickets[t] == w.db.tickets[t]
  {
    hide Reachable, Lookup, FetchPending;
    var batch := [older, t];
    var w1 := Extend(cfg, w, Wait(w.db.tickets[t].updatedAt + cfg.stuckAfter));
    assert FindStuckAmid(w1.db.tickets, w1.now - cfg.stuckAfter, cfg.stuckBatch, batch, w.db.tickets.Keys - {older, t}, []);
    w' := Extend(cfg, w1, TickStart(0, batch, ""));
    assert LoadedBatch(w1.db.tickets, batch)[1..] == [Loaded(t, w.db.tickets[t].status)];
  }
}
