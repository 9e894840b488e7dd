/** The outbox: what fetch_pending selects, what a batch does to its rows, how often an event is published. */
module OutboxTable {
  import opened Domain
  import opened Store
  import opened System
  import opened Invariants
  import opened Preservation

  // ----- fetch_pending

  predicate Available(outbox: seq<Row>, locked: set<nat>, e: nat) {
    e < |outbox| && outbox[e].status.Pending? && e !in locked
  }

  // The selection is in table order, holds only available rows, and leaves out an
  // available row only when it is full of older ones.
  lemma {:induction false} FetchSelects(outbox: seq<Row>, locked: set<nat>, i: nat, limit: nat)
    requires i <= |outbox|
    ensures var rows := FetchPending(outbox, locked, i, limit);
            && |rows| <= limit
            && (forall j | 0 <= j < |rows| :: i <= rows[j] && Available(outbox, locked, rows[j]))
            && (forall j, k | 0 <= j < k < |rows| :: rows[j] < rows[k])
            && (forall e | i <= e && Available(outbox, locked, e) && e !in rows ::
                  |rows| == limit && forall j | 0 <= j < limit :: rows[j] < e)
    decreases |outbox| - i
  {
    if limit == 0 || i == |outbox| {
    } else if Available(outbox, locked, i) {
      FetchSelects(outbox, locked, i + 1, limit - 1);
    } else {
      FetchSelects(outbox, locked, i + 1, limit);
    }
  }

  // ----- rows and batches

  lemma OutboxAppend(outbox: seq<Row>, outbox': seq<Row>, batches: map<Id, Batch>, now: Time)
    requires OutboxOk(outbox, batches) && outbox <= outbox' && OutboxGrows(outbox, outbox', now)
    ensures OutboxOk(outbox', batches)
  {
    assert forall e | 0 <= e < |outbox| :: outbox'[e] == outbox[e];
  }

  lemma OutboxFetch(outbox: seq<Row>, batches: map<Id, Batch>, p: Id, limit: nat)
    requires OutboxOk(outbox, batches) && p !in batches
    ensures OutboxOk(outbox, batches[p := Batch(FetchPending(outbox, Locked(batches), 0, limit), 0, {}, map[])])
  {
    FetchSelects(outbox, Locked(batches), 0, limit);
  }

  lemma OutboxPublish(outbox: seq<Row>, batches: map<Id, Batch>, p: Id, ok: bool, error: string)
    requires OutboxOk(outbox, batches) && p in batches && batches[p].next < |batches[p].rows|
    ensures var b := batches[p];
            var e := b.rows[b.next];
            OutboxOk(outbox, batches[p := if ok then b.(next := b.next + 1, published := b.published + {e})
                                          else b.(next := b.next + 1, failed := b.failed[e := error])])
  {
    var b := batches[p];
    assert forall i | 0 <= i < |b.rows| && i != b.next :: b.rows[i] != b.rows[b.next];
    assert b.rows[b.next] !in b.published && b.rows[b.next] !in b.failed;
  }

  lemma OutboxCommit(outbox: seq<Row>, batches: map<Id, Batch>, p: Id, now: Time)
    requires OutboxOk(outbox, batches) && p in batches
    ensures OutboxOk(Marked(outbox, batches[p].published, batches[p].failed, now), batches - {p})
  {
    var b := batches[p];
    var outbox' := Marked(outbox, b.published, b.failed, now);
    forall q | q in batches && q != p ensures BatchOk(batches[q], outbox') {
      assert BatchOk(batches[q], outbox);
      forall i | 0 <= i < |batches[q].rows| ensures outbox'[batches[q].rows[i]] == outbox[batches[q].rows[i]] {
        assert batches[q].rows[i] in batches[q].rows;
        assert batches[q].rows[i] !in b.rows;
      }
    }
    forall e | 0 <= e < |outbox'| ensures RowOk(outbox'[e]) {
      assert RowOk(outbox[e]);
      if e in b.published || e in b.failed {
        assert e in b.rows;
      }
    }
  }

  lemma OutboxAbort(outbox: seq<Row>, batches: map<Id, Batch>, p: Id)
    requires OutboxOk(outbox, batches)
    ensures OutboxOk(outbox, batches - {p})
  {
  }

  lemma OutboxBatchStep(cfg: Config, w: World, s: Step)
    requires Enabled(cfg, w, s) && OutboxOk(w.db.outbox, w.batches)
    requires s.Fetch? || s.Publish? || s.CommitBatch? || s.AbortBatch?
    ensures OutboxOk(NextDb(cfg, w, s).outbox, NextBatches(cfg, w, s))
  {
    hide OutboxOk, Marked, FetchPending, FindStuck, Lookup;
    match s
    case Fetch(p) => OutboxFetch(w.db.outbox, w.batches, p, cfg.outboxBatch);
    case Publish(p, outcome) =>
      OutboxPublish(w.db.outbox, w.batches, p, outcome.PublishOk?, if outcome.PublishOk? then "" else outcome.error);
    case CommitBatch(p) => OutboxCommit(w.db.outbox, w.batches, p, w.now);
    case AbortBatch(p) => OutboxAbort(w.db.outbox, w.batches, p);
  }

  lemma BatchesUnchanged(cfg: Config, w: World, s: Step)
    requires Enabled(cfg, w, s) && !s.Fetch? && !s.Publish? && !s.CommitBatch? && !s.AbortBatch?
    ensures NextBatches(cfg, w, s) == w.batches
  {
    hide Enabled;
  }

  lemma OutboxOkStep(cfg: Config, w: World, s: Step)
    requires Enabled(cfg, w, s) && OutboxOk(w.db.outbox, w.batches)
    ensures OutboxOk(NextDb(cfg, w, s).outbox, NextBatches(cfg, w, s))
  {
    hide Enabled, NextDb, NextBatches, OutboxOk;
    if s.Fetch? || s.Publish? || s.CommitBatch? || s.AbortBatch? {
      OutboxBatchStep(cfg, w, s);
    } else {
      BatchesUnchanged(cfg, w, s);
      OutboxStep(cfg, w, s);
      OutboxAppend(w.db.outbox, NextDb(cfg, w, s).outbox, w.batches, w.now);
    }
  }

  // ----- how often an event is published

  lemma CopiesUnchanged(outq: map<Id, OutCopy>, outq': map<Id, OutCopy>, e: nat)
    requires outq'.Keys == outq.Keys && forall c | c in outq :: outq'[c].event == outq[c].event
    ensures CopiesOf(outq', e) == CopiesOf(outq, e)
  {
  }

  lemma CopiesAdded(outq: map<Id, OutCopy>, c: Id, q: OutCopy, e: nat)
    requires c !in outq
    ensures |CopiesOf(outq[c := q], e)| == |CopiesOf(outq, e)| + if q.event == e then 1 else 0
  {
    if q.event == e {
      assert CopiesOf(outq[c := q], e) == CopiesOf(outq, e) + {c};
    } else {
      assert CopiesOf(outq[c := q], e) == CopiesOf(outq, e);
    }
  }

  lemma LiveAfter(batches: map<Id, Batch>, p: Id, b: Batch, e: nat)
    requires p in batches ==> batches[p].published <= b.published
    ensures LivePublished(batches[p := b], e) <==> LivePublished(batches, e) || e in b.published
  {
    if LivePublished(batches, e) {
      var q :| q in batches && e in batches[q].published;
      assert q in batches[p := b] && e in batches[p := b][q].published;
    }
    if e in b.published {
      assert p in batches[p := b];
    }
  }

  lemma LiveWithout(outbox: seq<Row>, batches: map<Id, Batch>, p: Id, e: nat)
    requires OutboxOk(outbox, batches) && p in batches
    ensures LivePublished(batches - {p}, e) <==> LivePublished(batches, e) && e !in batches[p].published
  {
    if LivePublished(batches, e) && e !in batches[p].published {
      var q :| q in batches && e in batches[q].published;
      assert q in batches - {p};
    }
    forall q | q in batches && e in batches[q].published && e in batches[p].published ensures q == p {
      assert BatchOk(batches[q], outbox) && BatchOk(batches[p], outbox);
    }
    if LivePublished(batches - {p}, e) {
      var q :| q in batches - {p} && e in (batches - {p})[q].published;
      assert q in batches && e in batches[q].published;
    }
  }

  lemma CountPublish(cfg: Config, w: World, p: Id, outcome: PublishOutcome, e: nat)
    requires Enabled(cfg, w, Publish(p, outcome)) && OutboxOk(w.db.outbox, w.batches)
    requires w.now !in w.outq
    requires |CopiesOf(w.outq, e)| == Expected(w.db.outbox, w.batches, w.rolledBack, w.unconfirmed, e)
    ensures var s := Publish(p, outcome);
            |CopiesOf(NextOutq(cfg, w, s), e)|
            == Expected(w.db.outbox, NextBatches(cfg, w, s), w.rolledBack, NextUnconfirmed(cfg, w, s), e)
  {
    var s := Publish(p, outcome);
    var b' := NextBatches(cfg, w, s)[p];
    LiveAfter(w.batches, p, b', e);
    CopiesAdded(w.outq, w.now, OutCopy(Head(w, p), w.db.outbox[Head(w, p)].message, w.now, 0, Queued, None), e);
    if e == Head(w, p) {
      HeadNotLive(w.db.outbox, w.batches, p);
    }
  }

  lemma HeadNotLive(outbox: seq<Row>, batches: map<Id, Batch>, p: Id)
    requires OutboxOk(outbox, batches) && p in batches && batches[p].next < |batches[p].rows|
    ensures !LivePublished(batches, batches[p].rows[batches[p].next])
  {
  }

  lemma CountCommit(outbox: seq<Row>, batches: map<Id, Batch>, p: Id, rolledBack: multiset<nat>,
                    unconfirmed: multiset<nat>, now: Time, e: nat)
    requires OutboxOk(outbox, batches) && p in batches
    ensures Expected(Marked(outbox, batches[p].published, batches[p].failed, now), batches - {p}, rolledBack, unconfirmed, e)
            == Expected(outbox, batches, rolledBack, unconfirmed, e)
  {
    var b := batches[p];
    LiveWithout(outbox, batches, p, e);
    assert BatchOk(b, outbox);
    if e in b.published || e in b.failed {
      assert e in b.rows;
    }
    if e in b.published {
      assert LivePublished(batches, e);
    }
  }

  lemma CountAbort(outbox: seq<Row>, batches: map<Id, Batch>, p: Id, rolledBack: multiset<nat>,
                   unconfirmed: multiset<nat>, e: nat)
    requires OutboxOk(outbox, batches) && p in batches
    ensures Expected(outbox, batches - {p}, rolledBack + multiset(batches[p].published), unconfirmed, e)
            == Expected(outbox, batches, rolledBack, unconfirmed, e)
  {
    LiveWithout(outbox, batches, p, e);
    if e in batches[p].published {
      assert LivePublished(batches, e);
    }
  }

  ghost predicate Counted(cfg: Config, w: World, s: Step, e: nat)
    requires Enabled(cfg, w, s)
  {
    |CopiesOf(NextOutq(cfg, w, s), e)|
    == Expected(NextDb(cfg, w, s).outbox, NextBatches(cfg, w, s), NextRolledBack(w, s), NextUnconfirmed(cfg, w, s), e)
  }

  lemma CountBatch(cfg: Config, w: World, s: Step, e: nat)
    requires Enabled(cfg, w, s) && OutboxOk(w.db.outbox, w.batches) && w.now !in w.outq
    requires s.Publish? || s.CommitBatch? || s.AbortBatch?
    requires |CopiesOf(w.outq, e)| == Expected(w.db.outbox, w.batches, w.rolledBack, w.unconfirmed, e)
    ensures Counted(cfg, w, s, e)
  {
    hide OutboxOk, Expected, CopiesOf, Marked, FindStuck, Lookup, FetchPending;
    match s
    case Publish(p, outcome) => CountPublish(cfg, w, p, outcome, e);
    case CommitBatch(p) => CountCommit(w.db.outbox, w.batches, p, w.rolledBack, w.unconfirmed, w.now, e);
    case AbortBatch(p) => CountAbort(w.db.outbox, w.batches, p, w.rolledBack, w.unconfirmed, e);
  }

  // Steps that publish nothing and end no batch.
  lemma CountOther(cfg: Config, w: World, s: Step, e: nat)
    requires Enabled(cfg, w, s) && !s.Publish? && !s.CommitBatch? && !s.AbortBatch?
    requires |CopiesOf(w.outq, e)| == Expected(w.db.outbox, w.batches, w.rolledBack, w.unconfirmed, e)
    ensures Counted(cfg, w, s, e)
  {
    hide Enabled, NextDb, NextOutq, NextBatches, CopiesOf, LivePublished;
    OutboxStep(cfg, w, s);
    MovesOneOut(cfg, w, s);
    OutEventsKept(cfg, w, s);
    CopiesUnchanged(w.outq, NextOutq(cfg, w, s), e);
    LiveOther(cfg, w, s, e);
  }

  lemma OutEventsKept(cfg: Config, w: World, s: Step)
    requires Enabled(cfg, w, s) && !s.Publish?
    ensures OutMoved(w, s).Some? ==>
              var c := OutMoved(w, s).value;
              c in w.outq && c in NextOutq(cfg, w, s) && NextOutq(cfg, w, s)[c].event == w.outq[c].event
  {
    hide FindStuck, Lookup, FetchPending;
  }

  lemma LiveOther(cfg: Config, w: World, s: Step, e: nat)
    requires Enabled(cfg, w, s) && !s.Publish? && !s.CommitBatch? && !s.AbortBatch?
    ensures LivePublished(NextBatches(cfg, w, s), e) <==> LivePublished(w.batches, e)
  {
    if s.Fetch? {
      LiveAfter(w.batches, s.p, NextBatches(cfg, w, s)[s.p], e);
    } else {
      hide Enabled, NextBatches;
      BatchesUnchanged(cfg, w, s);
    }
  }

  lemma CountsStep(cfg: Config, w: World, s: Step)
    requires Enabled(cfg, w, s) && OutboxOk(w.db.outbox, w.batches) && w.now !in w.outq
    requires CountsOk(w.outq, w.db.outbox, w.batches, w.rolledBack, w.unconfirmed)
    ensures CountsOk(NextOutq(cfg, w, s), NextDb(cfg, w, s).outbox, NextBatches(cfg, w, s),
                     NextRolledBack(w, s), NextUnconfirmed(cfg, w, s))
  {
    hide Enabled, NextDb, NextOutq, NextBatches, NextRolledBack, NextUnconfirmed, Expected, CopiesOf, OutboxOk;
    forall e: nat
      ensures |CopiesOf(NextOutq(cfg, w, s), e)|
              == Expected(NextDb(cfg, w, s).outbox, NextBatches(cfg, w, s), NextRolledBack(w, s), NextUnconfirmed(cfg, w, s), e)
    {
      if s.Publish? || s.CommitBatch? || s.AbortBatch? {
        CountBatch(cfg, w, s, e);
      } else {
        CountOther(cfg, w, s, e);
      }
    }
  }
}
