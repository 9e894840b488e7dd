/** What holds in every reachable world, and along every run. */
module Theorems {
  import opened Domain
  import opened System
  import opened Invariants
  import opened Preservation
  import opened EvidenceKept
  import opened Safety

  // ----- creation

  // Two calls with one key return one ticket, and only one of them reports it created.
  ghost predicate SameTicket(w: World, c: Call, d: Call) {
    c.key == d.key && c.phase.Returned? && d.phase.Returned? ==>
      c.phase.ticket == d.phase.ticket && (c.phase.created && d.phase.created ==> c.drawn == d.drawn)
  }

  lemma CreatedOnce(w: World)
    requires CreationOk(w.calls, w.db.tickets, w.now)
    ensures forall k | k in w.calls && w.calls[k].phase.Returned? ::
              var t := w.calls[k].phase.ticket;
              t in w.db.tickets && w.db.tickets[t].key == w.calls[k].key
              && (w.calls[k].phase.created ==> w.db.tickets[t].bet == w.calls[k].bet)
    ensures forall k, l | k in w.calls && l in w.calls :: SameTicket(w, w.calls[k], w.calls[l])
    ensures forall k | k in w.calls && w.calls[k].phase.Raised? :: w.calls[k].bet.stake <= 0.0
  {
    assert forall k | k in w.calls :: CallOk(w.calls[k], w.db.tickets, w.now);
  }

  // However many calls of create_ticket interleave: a key has one ticket, every call that
  // returns gets that ticket, at most one of them reports having created it (and then with
  // its own bet, whose stake is positive), and only a call whose stake is not positive ends in
  // the re-raised IntegrityError.
  lemma IdempotentCreation(cfg: Config, w: World)
    requires Reachable(cfg, w)
    ensures forall t, u | t in w.db.tickets && u in w.db.tickets && w.db.tickets[t].key == w.db.tickets[u].key :: t == u
    ensures forall k | k in w.calls && w.calls[k].phase.Returned? ::
              var t := w.calls[k].phase.ticket;
              t in w.db.tickets && w.db.tickets[t].key == w.calls[k].key
              && (w.calls[k].phase.created ==> w.db.tickets[t].bet == w.calls[k].bet)
    ensures forall k, l | k in w.calls && l in w.calls && w.calls[k].key == w.calls[l].key
                          && w.calls[k].phase.Returned? && w.calls[l].phase.Returned? ::
              w.calls[k].phase.ticket == w.calls[l].phase.ticket
              && (w.calls[k].phase.created && w.calls[l].phase.created ==> k == l)
    ensures forall t | t in w.db.tickets :: w.db.tickets[t].bet.stake > 0.0
    ensures forall k | k in w.calls && w.calls[k].phase.Raised? :: w.calls[k].bet.stake <= 0.0
  {
    InvReachable(cfg, w);
    CreatedOnce(w);
  }

  // Row e is the one TICKET row of ticket t, it carries the ticket's bet, and every
  // TICKET frame for t, wherever it is, is its message.
  ghost predicate TicketRow(w: World, t: Id, e: nat)
    requires t in w.db.tickets
  {
    && HasRow(w, t, e, TICKET)
    && w.db.outbox[e].message.body.bet == w.db.tickets[t].bet
    && (forall f: nat | HasRow(w, t, f, TICKET) :: f == e)
    && (forall c | c in w.outq && w.outq[c].message.body.TicketBody? && w.outq[c].message.ticket == t ::
          w.outq[c].message == w.db.outbox[e].message)
  }

  lemma TicketRowOf(w: World, t: Id)
    requires Links(w) && BirthsOk(w.births, w.db.tickets, w.db.outbox) && t in w.db.tickets
    ensures TicketRow(w, t, w.births[t])
  {
    var e := w.births[t];
    forall c | c in w.outq && w.outq[c].message.body.TicketBody? && w.outq[c].message.ticket == t
      ensures w.outq[c].message == w.db.outbox[e].message
    {
      assert OutCopyOk(c, w.outq[c], w.db.outbox, w.now);
      assert HasRow(w, t, w.outq[c].event, TICKET);
    }
  }

  lemma OneTicketIdentity(cfg: Config, w: World, t: Id)
    requires Reachable(cfg, w) && t in w.db.tickets
    ensures exists e :: TicketRow(w, t, e)
  {
    InvReachable(cfg, w);
    TicketRowOf(w, t);
  }

  // Committed outbox messages, tickets' keys and bets, claims and issued frames are for all time.
  lemma {:induction false} NothingRewritten(cfg: Config, w: World, run: seq<Step>)
    requires Reachable(cfg, w) && Run(cfg, w, run)
    ensures var w' := After(cfg, w, run);
            && |w.db.outbox| <= |w'.db.outbox|
            && (forall e | 0 <= e < |w.db.outbox| :: w'.db.outbox[e].message == w.db.outbox[e].message)
            && TicketsGrow(w.db.tickets, w'.db.tickets)
            && (forall m | m in w.db.inbox :: m in w'.db.inbox && w'.db.inbox[m] == w.db.inbox[m])
            && (forall f | f in w.issued :: f in w'.issued && w'.issued[f] == w.issued[f])
  {
    InvReachable(cfg, w);
    NothingRewrittenFrom(cfg, w, run);
  }

  lemma {:induction false} NothingRewrittenFrom(cfg: Config, w: World, run: seq<Step>)
    requires Inv(w) && Run(cfg, w, run)
    ensures var w' := After(cfg, w, run);
            && |w.db.outbox| <= |w'.db.outbox|
            && (forall e | 0 <= e < |w.db.outbox| :: w'.db.outbox[e].message == w.db.outbox[e].message)
            && TicketsGrow(w.db.tickets, w'.db.tickets)
            && (forall m | m in w.db.inbox :: m in w'.db.inbox && w'.db.inbox[m] == w.db.inbox[m])
            && (forall f | f in w.issued :: f in w'.issued && w'.issued[f] == w.issued[f])
    decreases run
  {
    if run != [] {
      GrowsStep(cfg, w, run[0]);
      InvStep(cfg, w, run[0]);
      NothingRewrittenFrom(cfg, Do(cfg, w, run[0]), run[1..]);
    }
  }

  // ----- the outbox

  // Every event is pending with attempts to spare, failed with all of them used, or published
  // with a frame the broker has accepted; it shows an error exactly while its last publish
  // counts as failed; and no event is held by two live batches.
  lemma OutboxConservation(cfg: Config, w: World)
    requires Reachable(cfg, w)
    ensures forall e | 0 <= e < |w.db.outbox| ::
              var r := w.db.outbox[e];
              && (r.status.Pending? ==> r.attempts < 3)
              && (r.status.Failed? ==> r.attempts == 3)
              && (r.status.Published? ==> r.attempts <= 2 && exists c :: c in w.outq && w.outq[c].event == e)
              && (r.publishedAt.Some? <==> r.status.Published?)
              && (r.lastError.Some? <==> r.attempts > 0 && !r.status.Published?)
    ensures forall p, q, e | p in w.batches && q in w.batches && p != q && e in w.batches[p].rows :: e !in w.batches[q].rows
  {
    InvReachable(cfg, w);
    forall e | 0 <= e < |w.db.outbox| && w.db.outbox[e].status.Published?
      ensures exists c :: c in w.outq && w.outq[c].event == e
    {
      CopyOfPublished(w, e);
    }
    RowsConserved(w);
  }

  lemma RowsConserved(w: World)
    requires OutboxOk(w.db.outbox, w.batches)
    ensures forall e | 0 <= e < |w.db.outbox| :: RowOk(w.db.outbox[e])
    ensures forall p, q, e | p in w.batches && q in w.batches && p != q && e in w.batches[p].rows :: e !in w.batches[q].rows
  {
  }

  lemma CopyOfPublished(w: World, e: nat)
    requires CountsOk(w.outq, w.db.outbox, w.batches, w.rolledBack, w.unconfirmed)
    requires e < |w.db.outbox| && w.db.outbox[e].status.Published?
    ensures exists c :: c in w.outq && w.outq[c].event == e
  {
    assert |CopiesOf(w.outq, e)| >= 1;
    var c :| c in CopiesOf(w.outq, e);
    assert c in w.outq && w.outq[c].event == e;
  }

  // No step leaves PUBLISHED or FAILED, and attempts only grow.
  lemma OutboxSettled(cfg: Config, w: World, s: Step, e: nat)
    requires Reachable(cfg, w) && Enabled(cfg, w, s) && e < |w.db.outbox|
    ensures e < |NextDb(cfg, w, s).outbox|
    ensures !w.db.outbox[e].status.Pending? ==> NextDb(cfg, w, s).outbox[e] == w.db.outbox[e]
    ensures w.db.outbox[e].attempts <= NextDb(cfg, w, s).outbox[e].attempts <= w.db.outbox[e].attempts + 1
  {
    assert OutboxOk(w.db.outbox, w.batches) by {
      InvReachable(cfg, w);
    }
    SettledStep(cfg, w, s, e);
  }

  lemma SettledStep(cfg: Config, w: World, s: Step, e: nat)
    requires OutboxOk(w.db.outbox, w.batches) && Enabled(cfg, w, s) && e < |w.db.outbox|
    ensures e < |NextDb(cfg, w, s).outbox|
    ensures !w.db.outbox[e].status.Pending? ==> NextDb(cfg, w, s).outbox[e] == w.db.outbox[e]
    ensures w.db.outbox[e].attempts <= NextDb(cfg, w, s).outbox[e].attempts <= w.db.outbox[e].attempts + 1
  {
    hide NextDb, OutboxOk, Enabled;
    if s.CommitBatch? {
      CommitSettled(cfg, w, s.p, e);
    } else {
      OutboxStep(cfg, w, s);
    }
  }

  lemma CommitSettled(cfg: Config, w: World, p: Id, e: nat)
    requires Enabled(cfg, w, CommitBatch(p)) && OutboxOk(w.db.outbox, w.batches) && e < |w.db.outbox|
    ensures var outbox' := NextDb(cfg, w, CommitBatch(p)).outbox;
            && e < |outbox'|
            && (!w.db.outbox[e].status.Pending? ==> outbox'[e] == w.db.outbox[e])
            && w.db.outbox[e].attempts <= outbox'[e].attempts <= w.db.outbox[e].attempts + 1
  {
    var b := w.batches[p];
    assert BatchOk(b, w.db.outbox);
    assert e in b.published || e in b.failed ==> e in b.rows;
  }

  // The frames the broker has accepted for an event: one if it is published, one for each
  // rolled-back batch that had published it, one if a live batch has, and one for each
  // publish that raised although the broker took the frame.
  lemma ExactDuplicates(cfg: Config, w: World, e: nat)
    requires Reachable(cfg, w)
    ensures |CopiesOf(w.outq, e)|
            == (if e < |w.db.outbox| && w.db.outbox[e].status.Published? then 1 else 0)
               + w.rolledBack[e]
               + (if exists p :: p in w.batches && e in w.batches[p].published then 1 else 0)
               + w.unconfirmed[e]
  {
    InvReachable(cfg, w);
    assert LivePublished(w.batches, e) <==> exists p :: p in w.batches && e in w.batches[p].published;
  }

  // ----- evidence

  lemma StatusCarriesEvidence(cfg: Config, w: World, t: Id)
    requires Reachable(cfg, w) && t in w.db.tickets
    ensures Evidence(w, t)
  {
    InvReachable(cfg, w);
  }

  // A ticket is confirmed (declined) only at the end of the whole chain, in this order: its
  // ACCEPT (DECLINE) recommendation was claimed, the monolith accepted it, the acknowledgement
  // row was committed, it was published, and the provider accepted that very frame.
  lemma Causality(cfg: Config, w: World, t: Id, a: Action)
    requires Reachable(cfg, w) && t in w.db.tickets && w.db.tickets[t].status == Verdict(a)
    ensures exists m, e, c :: Chain(w, t, a, m, e, c)
  {
    StatusCarriesEvidence(cfg, w, t);
    ChainFromEvidence(w, t, a);
  }

  lemma ChainFromEvidence(w: World, t: Id, a: Action)
    requires t in w.db.tickets && Evidence(w, t) && w.db.tickets[t].status == Verdict(a)
    ensures exists m, e, c :: Chain(w, t, a, m, e, c)
  {
  }

  // Behind every acknowledgement, whether a row of the outbox or a frame in any queue, with the
  // provider or dead-lettered: its recommendation was claimed, then the monolith accepted it, and
  // then the row was committed.
  ghost predicate Grounded(w: World, m: Message, e: nat) {
    IsAck(m.body) ==> exists r :: AckChain(w, m.ticket, ActionOf(m.body), r, e)
  }

  lemma AcknowledgementsGrounded(cfg: Config, w: World)
    requires Reachable(cfg, w)
    ensures forall e | 0 <= e < |w.db.outbox| :: Grounded(w, w.db.outbox[e].message, e)
    ensures forall c | c in w.outq :: Grounded(w, w.outq[c].message, w.outq[c].event)
  {
    hide Grounded;
    InvReachable(cfg, w);
    forall e | 0 <= e < |w.db.outbox| ensures Grounded(w, w.db.outbox[e].message, e) {
      RowGrounded(w, e);
    }
    assert forall c | c in w.outq :: OutCopyOk(c, w.outq[c], w.db.outbox, w.now);
  }

  lemma RowGrounded(w: World, e: nat)
    requires Links(w) && ClaimsOk(w.settlements, w.db.inbox) && SettledSoFar(w) && e < |w.db.outbox|
    ensures Grounded(w, w.db.outbox[e].message, e)
  {
    hide AckChain, SettlementsOk, ClaimsOk, Links;
    if IsAck(w.db.outbox[e].message.body) {
      AckChainOf(w, e);
    }
  }

  // If every recommendation issued for a ticket carries the same action, the opposite
  // acknowledgement is nowhere: not in the outbox, in no frame, and not in the status.
  lemma NoConflictingVerdicts(cfg: Config, w: World, t: Id, a: Action)
    requires Reachable(cfg, w)
    requires forall f | f in w.issued && w.issued[f].message.ticket == t && w.issued[f].message.body.Recommendation? ::
               w.issued[f].message.body.action == a
    ensures forall e | 0 <= e < |w.db.outbox| && w.db.outbox[e].message.ticket == t && IsAck(w.db.outbox[e].message.body) ::
              w.db.outbox[e].message.body == AckBody(a)
    ensures forall c | c in w.outq && w.outq[c].message.ticket == t && IsAck(w.outq[c].message.body) ::
              w.outq[c].message.body == AckBody(a)
    ensures t in w.db.tickets ==>
              var s := w.db.tickets[t].status;
              && (s.Confirmed? || s.Declined? ==> s == Verdict(a))
              && (s.RecommendedConfirm? || s.RecommendedDecline? ==> s == Recommended(a))
  {
    InvReachable(cfg, w);
    VerdictRows(w, t, a);
    if t in w.db.tickets {
      VerdictStatus(w, t, a);
    }
  }

  lemma VerdictStatus(w: World, t: Id, a: Action)
    requires t in w.db.tickets && Evidence(w, t)
    requires forall f | f in w.issued && w.issued[f].message.ticket == t && w.issued[f].message.body.Recommendation? ::
               w.issued[f].message.body.action == a
    ensures var s := w.db.tickets[t].status;
            && (s.Confirmed? || s.Declined? ==> s == Verdict(a))
            && (s.RecommendedConfirm? || s.RecommendedDecline? ==> s == Recommended(a))
  {
  }

  lemma VerdictRows(w: World, t: Id, a: Action)
    requires Links(w) && SettledSoFar(w)
    requires forall f | f in w.issued && w.issued[f].message.ticket == t && w.issued[f].message.body.Recommendation? ::
               w.issued[f].message.body.action == a
    ensures forall e | 0 <= e < |w.db.outbox| && w.db.outbox[e].message.ticket == t && IsAck(w.db.outbox[e].message.body) ::
              w.db.outbox[e].message.body == AckBody(a)
    ensures forall c | c in w.outq && w.outq[c].message.ticket == t && IsAck(w.outq[c].message.body) ::
              w.outq[c].message.body == AckBody(a)
  {
    forall e | 0 <= e < |w.db.outbox| && w.db.outbox[e].message.ticket == t && IsAck(w.db.outbox[e].message.body)
      ensures w.db.outbox[e].message.body == AckBody(a)
    {
      var m := w.causes[e];
      assert SettlementOk(m, w.settlements[m], w.issued, w.inq, w.db.outbox, w.causes, w.now);
    }
    forall c | c in w.outq && w.outq[c].message.ticket == t && IsAck(w.outq[c].message.body)
      ensures w.outq[c].message.body == AckBody(a)
    {
      assert OutCopyOk(c, w.outq[c], w.db.outbox, w.now);
    }
  }
}
