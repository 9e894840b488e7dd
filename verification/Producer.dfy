/** The outbox producer as it runs: the publish loop, and the marks it commits. */
module Producer {
  import opened Domain
  import opened Store
  import Invariants
  import OutboxTable
  import Safety
  import System

  // What publishing `rows` in order leaves behind: the frames the broker has taken, the rows
  // that went through, and the rows that raised.
  function Taken(outbox: seq<Row>, rows: seq<nat>, outcomes: nat -> PublishOutcome): seq<Message>
    requires forall i | 0 <= i < |rows| :: rows[i] < |outbox|
  {
    if rows == [] then [] else
      var e := rows[|rows| - 1];
      Taken(outbox, rows[..|rows| - 1], outcomes)
      + if outcomes(e).PublishOk? || outcomes(e).accepted then [outbox[e].message] else []
  }

  function Through(rows: seq<nat>, outcomes: nat -> PublishOutcome): seq<nat> {
    if rows == [] then [] else
      var e := rows[|rows| - 1];
      Through(rows[..|rows| - 1], outcomes) + if outcomes(e).PublishOk? then [e] else []
  }

  function Raised(rows: seq<nat>, outcomes: nat -> PublishOutcome): seq<(nat, string)> {
    if rows == [] then [] else
      var e := rows[|rows| - 1];
      Raised(rows[..|rows| - 1], outcomes) + if outcomes(e).PublishOk? then [] else [(e, outcomes(e).error)]
  }

  lemma {:induction false} Partition(rows: seq<nat>, outcomes: nat -> PublishOutcome)
    requires forall i, j | 0 <= i < j < |rows| :: rows[i] < rows[j]
    ensures forall e :: e in Through(rows, outcomes) <==> e in rows && outcomes(e).PublishOk?
    ensures forall f :: f in Raised(rows, outcomes) <==> f.0 in rows && outcomes(f.0).PublishRaised? && f.1 == outcomes(f.0).error
    ensures forall j, k | 0 <= j < k < |Raised(rows, outcomes)| :: Raised(rows, outcomes)[j].0 < Raised(rows, outcomes)[k].0
    ensures |Through(rows, outcomes)| + |Raised(rows, outcomes)| == |rows|
    decreases rows
  {
    if rows != [] {
      var last := |rows| - 1;
      var front := rows[..last];
      assert rows == front + [rows[last]];
      Partition(front, outcomes);
      forall j | 0 <= j < |Raised(front, outcomes)| ensures Raised(front, outcomes)[j].0 < rows[last] {
        assert Raised(front, outcomes)[j] in Raised(front, outcomes);
      }
    }
  }

  class OutboxService {
    var rows: seq<Row>          // the outbox table
    var broker: seq<Message>    // what the broker has taken, in order
    const batchSize: nat

    constructor (rows: seq<Row>, batchSize: nat)
      ensures this.rows == rows && broker == [] && this.batchSize == batchSize
    {
      this.rows := rows;
      this.broker := [];
      this.batchSize := batchSize;
    }

    method Publish(m: Message, outcome: PublishOutcome) returns (ok: bool)
      modifies this`broker
      ensures ok == outcome.PublishOk?
      ensures broker == old(broker) + if outcome.PublishOk? || outcome.accepted then [m] else []
    {
      if outcome.PublishOk? || outcome.accepted {
        broker := broker + [m];
      }
      ok := outcome.PublishOk?;
    }

    method MarkPublishedMany(ids: seq<nat>, now: Time)
      modifies this`rows
      ensures rows == Marked(old(rows), set e | e in ids, map[], now)
    {
      if ids == [] {
        assert rows == Marked(rows, set e | e in ids, map[], now);
        return;
      }
      rows := seq(|rows|, i requires 0 <= i < |rows| reads this => if i in ids then PublishedRow(rows[i], now) else rows[i]);
    }

    method MarkFailed(e: nat, error: string)
      requires e < |rows|
      modifies this`rows
      ensures rows == old(rows)[e := FailedRow(old(rows)[e], error)]
    {
      rows := rows[e := FailedRow(rows[e], error)];
    }

    // send_batch: rows another transaction holds are skipped; a publish that raises does not
    // stop the batch; everything is marked and committed at the end.
    method SendBatch(locked: set<nat>, outcomes: nat -> PublishOutcome, now: Time) returns (count: nat)
      modifies this
      ensures var batch := FetchPending(old(rows), locked, 0, batchSize);
              && (forall i | 0 <= i < |batch| :: batch[i] < |old(rows)|)
              && rows == BatchMarked(old(rows), batch, outcomes, now)
              && broker == old(broker) + Taken(old(rows), batch, outcomes)
              && count == |Through(batch, outcomes)|
    {
      var pending := FetchPending(rows, locked, 0, batchSize);
      OutboxTable.FetchSelects(rows, locked, 0, batchSize);
      if pending == [] {
        NothingMarked(rows, outcomes, now);
        return 0;
      }
      var published, failed := PublishEach(pending, outcomes);
      Partition(pending, outcomes);
      MarkAll(pending, published, failed, outcomes, now);
      count := |published|;
    }

    // The publish loop of send_batch.
    method PublishEach(pending: seq<nat>, outcomes: nat -> PublishOutcome)
      returns (published: seq<nat>, failed: seq<(nat, string)>)
      requires forall i | 0 <= i < |pending| :: pending[i] < |rows|
      modifies this`broker
      ensures broker == old(broker) + Taken(rows, pending, outcomes)
      ensures published == Through(pending, outcomes) && failed == Raised(pending, outcomes)
    {
      published, failed := [], [];
      for i := 0 to |pending|
        invariant broker == old(broker) + Taken(rows, pending[..i], outcomes)
        invariant published == Through(pending[..i], outcomes)
        invariant failed == Raised(pending[..i], outcomes)
      {
        var e := pending[i];
        assert pending[..i + 1][..i] == pending[..i];
        var ok := Publish(rows[e].message, outcomes(e));
        if ok {
          published := published + [e];
        } else {
          failed := failed + [(e, outcomes(e).error)];
        }
      }
      assert pending[..|pending|] == pending;
    }

    // The two marking loops of send_batch.
    method MarkAll(ghost pending: seq<nat>, published: seq<nat>, failed: seq<(nat, string)>,
                   ghost outcomes: nat -> PublishOutcome, now: Time)
      requires forall e :: e in published <==> e in pending && outcomes(e).PublishOk?
      requires forall f :: f in failed <==> f.0 in pending && outcomes(f.0).PublishRaised? && f.1 == outcomes(f.0).error
      requires forall j, k | 0 <= j < k < |failed| :: failed[j].0 < failed[k].0
      requires forall i | 0 <= i < |pending| :: pending[i] < |rows|
      modifies this`rows
      ensures rows == BatchMarked(old(rows), pending, outcomes, now)
    {
      ghost var before := rows;
      MarkPublishedMany(published, now);
      ghost var marked := rows;
      for i := 0 to |failed|
        invariant |rows| == |before|
        invariant forall j | 0 <= j < i :: failed[j].0 < |rows| && rows[failed[j].0] == FailedRow(before[failed[j].0], failed[j].1)
        invariant forall e | 0 <= e < |rows| && (forall j | 0 <= j < i :: failed[j].0 != e) :: rows[e] == marked[e]
      {
        assert failed[i] in failed;
        assert failed[i].0 in pending && failed[i].0 !in published;
        MarkFailed(failed[i].0, failed[i].1);
      }
      CommitIsMarked(before, rows, pending, published, failed, outcomes, now);
    }
  }

  // The row after these publishes of it have raised, one after the other.
  function Failing(r: Row, errors: seq<string>): Row {
    if errors == [] then r else FailedRow(Failing(r, errors[..|errors| - 1]), errors[|errors| - 1])
  }

  // A pending row is retired by exactly the publish that uses up its three attempts, stays
  // retired, and shows the last error; its message is never touched.
  lemma {:induction false} RetiredAtThird(r: Row, errors: seq<string>)
    requires r.status.Pending? && r.attempts < 3
    ensures var r' := Failing(r, errors);
            && r'.attempts == r.attempts + |errors| && r'.message == r.message
            && r'.status == (if r.attempts + |errors| >= 3 then Failed else Pending)
            && (errors != [] ==> r'.lastError == Some(Truncated(errors[|errors| - 1], 2000)))
    decreases errors
  {
    if errors != [] {
      RetiredAtThird(r, errors[..|errors| - 1]);
    }
  }

  lemma NothingMarked(outbox: seq<Row>, outcomes: nat -> PublishOutcome, now: Time)
    ensures BatchMarked(outbox, [], outcomes, now) == outbox
  {
  }

  lemma CommitIsMarked(before: seq<Row>, after: seq<Row>, pending: seq<nat>, published: seq<nat>,
                       failed: seq<(nat, string)>, outcomes: nat -> PublishOutcome, now: Time)
    requires |after| == |before|
    requires forall e :: e in published <==> e in pending && outcomes(e).PublishOk?
    requires forall f :: f in failed <==> f.0 in pending && outcomes(f.0).PublishRaised? && f.1 == outcomes(f.0).error
    requires forall j | 0 <= j < |failed| :: failed[j].0 < |before|
    requires forall j | 0 <= j < |failed| :: after[failed[j].0] == FailedRow(before[failed[j].0], failed[j].1)
    requires forall e | 0 <= e < |after| && (forall j | 0 <= j < |failed| :: failed[j].0 != e) ::
               after[e] == Marked(before, set x | x in published, map[], now)[e]
    ensures after == BatchMarked(before, pending, outcomes, now)
  {
    var expected := BatchMarked(before, pending, outcomes, now);
    forall e | 0 <= e < |after| ensures after[e] == expected[e] {
      if e in pending && outcomes(e).PublishRaised? {
        assert (e, outcomes(e).error) in failed;
        var j :| 0 <= j < |failed| && failed[j] == (e, outcomes(e).error);
        assert after[failed[j].0] == FailedRow(before[e], outcomes(e).error);
      } else {
        forall j | 0 <= j < |failed| ensures failed[j].0 != e {
          assert failed[j] in failed;
        }
      }
    }
  }

  // ----- the method as a run of the system

  lemma CommitOfBatch(cfg: System.Config, w: System.World, p: Id, outcomes: nat -> PublishOutcome)
    requires System.Enabled(cfg, w, System.CommitBatch(p)) && Reflects(w.batches[p], w.batches[p].rows, outcomes)
    ensures System.NextDb(cfg, w, System.CommitBatch(p))
            == w.db.(outbox := BatchMarked(w.db.outbox, w.batches[p].rows, outcomes, w.now))
  {
    var b := w.batches[p];
    assert b.published == set e | e in b.rows && outcomes(e).PublishOk?;
    assert b.failed == map e | e in b.rows && outcomes(e).PublishRaised? :: outcomes(e).error;
  }

  // The batch has noted these outcomes of publishing `done`.
  ghost predicate Reflects(b: System.Batch, done: seq<nat>, outcomes: nat -> PublishOutcome) {
    && (forall e :: e in b.published <==> e in done && outcomes(e).PublishOk?)
    && (forall e :: e in b.failed <==> e in done && outcomes(e).PublishRaised?)
    && (forall e | e in b.failed :: b.failed[e] == outcomes(e).error)
  }

  function PublishSteps(p: Id, rows: seq<nat>, outcomes: nat -> PublishOutcome): seq<System.Step> {
    if rows == [] then [] else
      var last := |rows| - 1;
      PublishSteps(p, rows[..last], outcomes) + [System.Publish(p, outcomes(rows[last]))]
  }

  // The messages of the frames that have these ids, in order.
  ghost function MessagesFrom(outq: map<Id, System.OutCopy>, first: Id, n: nat): seq<Message> {
    if n == 0 then [] else
      var c := first + n - 1;
      MessagesFrom(outq, first, n - 1) + if c in outq then [outq[c].message] else []
  }

  // Batch p of world w has published its first n rows, with n steps, and got from w to w'.
  ghost predicate Publishing(w: System.World, p: Id, outcomes: nat -> PublishOutcome, n: nat, w': System.World) {
    && p in w.batches && n <= |w.batches[p].rows| && w'.now == w.now + n && w'.db == w.db
    && p in w'.batches && w'.batches - {p} == w.batches - {p}
    && w'.batches[p].rows == w.batches[p].rows && w'.batches[p].next == n
    && Reflects(w'.batches[p], w.batches[p].rows[..n], outcomes)
    && NewFrames(w, w', n)
    && (forall i | 0 <= i < |w.batches[p].rows| :: w.batches[p].rows[i] < |w.db.outbox|)
    && MessagesFrom(w'.outq, w.now, n) == Taken(w.db.outbox, w.batches[p].rows[..n], outcomes)
  }

  // The queue has got only frames that n steps from w on have published.
  ghost predicate NewFrames(w: System.World, w': System.World, n: nat) {
    && (forall c | c in w.outq :: c in w'.outq && w'.outq[c] == w.outq[c])
    && (forall c | c in w'.outq && c !in w.outq :: w.now <= c < w.now + n && w'.outq[c].phase.Queued?)
  }

  lemma {:induction false} MessagesKept(outq: map<Id, System.OutCopy>, outq': map<Id, System.OutCopy>, first: Id, n: nat)
    requires forall c | first <= c < first + n :: (c in outq <==> c in outq') && (c in outq ==> outq[c] == outq'[c])
    ensures MessagesFrom(outq, first, n) == MessagesFrom(outq', first, n)
  {
    if n > 0 {
      MessagesKept(outq, outq', first, n - 1);
    }
  }

  lemma PublishEffect(cfg: System.Config, w: System.World, p: Id, outcome: PublishOutcome) returns (w': System.World)
    requires p in w.batches && w.batches[p].next < |w.batches[p].rows|
    requires w.batches[p].rows[w.batches[p].next] < |w.db.outbox|
    ensures System.Enabled(cfg, w, System.Publish(p, outcome)) && w' == System.Do(cfg, w, System.Publish(p, outcome))
    ensures w'.now == w.now + 1 && w'.db == w.db
    ensures var b := w.batches[p];
            var e := b.rows[b.next];
            && w'.batches == w.batches[p := b.(next := b.next + 1,
                 published := if outcome.PublishOk? then b.published + {e} else b.published,
                 failed := if outcome.PublishOk? then b.failed else b.failed[e := outcome.error])]
            && w'.outq == if outcome.PublishOk? || outcome.accepted
                          then w.outq[w.now := System.OutCopy(e, w.db.outbox[e].message, w.now, 0, System.Queued, None)]
                          else w.outq
  {
    w' := System.Do(cfg, w, System.Publish(p, outcome));
  }

  lemma ReflectsNext(b: System.Batch, b': System.Batch, done: seq<nat>, e: nat, outcomes: nat -> PublishOutcome)
    requires Reflects(b, done, outcomes)
    requires b'.published == (if outcomes(e).PublishOk? then b.published + {e} else b.published)
    requires b'.failed == (if outcomes(e).PublishOk? then b.failed else b.failed[e := outcomes(e).error])
    ensures Reflects(b', done + [e], outcomes)
  {
  }

  // One more publish.
  lemma FramesNext(w: System.World, w1: System.World, w2: System.World, n: nat, q: System.OutCopy, taken: bool)
    requires NewFrames(w, w1, n) && w1.now == w.now + n && q.phase.Queued?
    requires forall c | c in w.outq :: c < w.now
    requires w2.outq == if taken then w1.outq[w1.now := q] else w1.outq
    ensures NewFrames(w, w2, n + 1)
    ensures MessagesFrom(w2.outq, w.now, n + 1) == MessagesFrom(w1.outq, w.now, n) + if taken then [q.message] else []
  {
    assert w1.now !in w1.outq;
    MessagesKept(w1.outq, w2.outq, w.now, n);
  }

  lemma TakenNext(outbox: seq<Row>, rows: seq<nat>, n: nat, outcomes: nat -> PublishOutcome)
    requires n < |rows| && forall i | 0 <= i < |rows| :: rows[i] < |outbox|
    ensures rows[..n + 1] == rows[..n] + [rows[n]]
    ensures Taken(outbox, rows[..n + 1], outcomes)
            == Taken(outbox, rows[..n], outcomes)
               + if outcomes(rows[n]).PublishOk? || outcomes(rows[n]).accepted then [outbox[rows[n]].message] else []
  {
    assert rows[..n + 1][..n] == rows[..n];
  }

  lemma PublishNext(cfg: System.Config, w: System.World, p: Id, outcomes: nat -> PublishOutcome, n: nat, w1: System.World)
    requires Publishing(w, p, outcomes, n, w1) && n < |w.batches[p].rows|
    requires forall c | c in w.outq :: c < w.now
    ensures var s := System.Publish(p, outcomes(w.batches[p].rows[n]));
            System.Enabled(cfg, w1, s) && Publishing(w, p, outcomes, n + 1, System.Do(cfg, w1, s))
  {
    hide System.Enabled, System.Do, Reflects, NewFrames, MessagesFrom, Taken;
    var rows := w.batches[p].rows;
    var e := rows[n];
    var w2 := PublishEffect(cfg, w1, p, outcomes(e));
    TakenNext(w.db.outbox, rows, n, outcomes);
    ReflectsNext(w1.batches[p], w2.batches[p], rows[..n], e, outcomes);
    FramesNext(w, w1, w2, n, System.OutCopy(e, w.db.outbox[e].message, w1.now, 0, System.Queued, None),
               outcomes(e).PublishOk? || outcomes(e).accepted);
    assert w2.batches - {p} == w1.batches - {p};
  }

  lemma {:induction false} PublishRun(cfg: System.Config, w: System.World, p: Id, outcomes: nat -> PublishOutcome, n: nat)
    requires p in w.batches && Publishing(w, p, outcomes, 0, w) && n <= |w.batches[p].rows|
    requires forall c | c in w.outq :: c < w.now
    ensures var run := PublishSteps(p, w.batches[p].rows[..n], outcomes);
            System.Run(cfg, w, run) && Publishing(w, p, outcomes, n, System.After(cfg, w, run))
    decreases n
  {
    hide Publishing, System.Enabled, System.Do;
    var rows := w.batches[p].rows;
    if n > 0 {
      PublishRun(cfg, w, p, outcomes, n - 1);
      var before := PublishSteps(p, rows[..n - 1], outcomes);
      var w1 := System.After(cfg, w, before);
      assert rows[..n][..n - 1] == rows[..n - 1];
      PublishNext(cfg, w, p, outcomes, n - 1, w1);
      var s := System.Publish(p, outcomes(rows[n - 1]));
      System.OneStep(cfg, w1, s);
      System.RunConcat(cfg, w, before, [s]);
    }
  }

  // The method is a Fetch, one Publish for each row in order, and a CommitBatch: from any
  // reachable world with a row to take this is a run, the table it leaves is the method's, and
  // the frames it adds to the queue are those the method has handed to the broker.
  lemma BatchIsTheSteps(cfg: System.Config, w: System.World, p: Id, outcomes: nat -> PublishOutcome)
    requires System.Reachable(cfg, w) && p !in w.batches
    requires FetchPending(w.db.outbox, System.Locked(w.batches), 0, cfg.outboxBatch) != []
    ensures var rows := FetchPending(w.db.outbox, System.Locked(w.batches), 0, cfg.outboxBatch);
            var run := [System.Fetch(p)] + PublishSteps(p, rows, outcomes) + [System.CommitBatch(p)];
            && (forall i | 0 <= i < |rows| :: rows[i] < |w.db.outbox|)
            && System.Run(cfg, w, run)
            && var w' := System.After(cfg, w, run);
               && w'.db == w.db.(outbox := BatchMarked(w.db.outbox, rows, outcomes, w.now + 1 + |rows|))
               && w'.batches == w.batches
               && NewFrames(w.(now := w.now + 1), w', |rows|)
               && MessagesFrom(w'.outq, w.now + 1, |rows|) == Taken(w.db.outbox, rows, outcomes)
  {
    hide System.Reachable, System.Do, Publishing, FetchPending, Taken, MessagesFrom, PublishSteps;
    var rows := FetchPending(w.db.outbox, System.Locked(w.batches), 0, cfg.outboxBatch);
    var w1 := FetchedBatch(cfg, w, p, outcomes);
    PublishRun(cfg, w1, p, outcomes, |rows|);
    assert rows[..|rows|] == rows;
    var publishes := PublishSteps(p, rows, outcomes);
    var w2 := System.After(cfg, w1, publishes);
    CommittedBatch(cfg, w1, p, outcomes, w2);
    System.OneStep(cfg, w, System.Fetch(p));
    System.RunConcat(cfg, w, [System.Fetch(p)], publishes);
    System.OneStep(cfg, w2, System.CommitBatch(p));
    System.RunConcat(cfg, w, [System.Fetch(p)] + publishes, [System.CommitBatch(p)]);
  }

  lemma FetchedBatch(cfg: System.Config, w: System.World, p: Id, outcomes: nat -> PublishOutcome) returns (w': System.World)
    requires System.Reachable(cfg, w) && System.Enabled(cfg, w, System.Fetch(p))
    ensures w' == System.Do(cfg, w, System.Fetch(p)) && w'.now == w.now + 1 && w'.db == w.db && w'.outq == w.outq
    ensures forall c | c in w'.outq :: c < w'.now
    ensures p in w'.batches && w'.batches - {p} == w.batches
    ensures w'.batches[p].rows == FetchPending(w.db.outbox, System.Locked(w.batches), 0, cfg.outboxBatch)
    ensures Publishing(w', p, outcomes, 0, w')
  {
    hide System.Reachable, FetchPending;
    IdsUsed(cfg, w);
    OutboxTable.FetchSelects(w.db.outbox, System.Locked(w.batches), 0, cfg.outboxBatch);
    w' := System.Do(cfg, w, System.Fetch(p));
    assert w'.batches - {p} == w.batches;
  }

  lemma IdsUsed(cfg: System.Config, w: System.World)
    requires System.Reachable(cfg, w)
    ensures forall c | c in w.outq :: c < w.now
  {
    Safety.InvReachable(cfg, w);
    hide System.Reachable;
    assert forall c | c in w.outq :: Invariants.OutCopyOk(c, w.outq[c], w.db.outbox, w.now);
  }

  lemma CommittedBatch(cfg: System.Config, w: System.World, p: Id, outcomes: nat -> PublishOutcome, w2: System.World)
    requires p in w.batches && Publishing(w, p, outcomes, |w.batches[p].rows|, w2)
    ensures var s := System.CommitBatch(p);
            var rows := w.batches[p].rows;
            && System.Enabled(cfg, w2, s)
            && var w3 := System.Do(cfg, w2, s);
               && w3.db == w.db.(outbox := BatchMarked(w.db.outbox, rows, outcomes, w.now + |rows|))
               && w3.batches == w.batches - {p} && NewFrames(w, w3, |rows|)
               && (forall i | 0 <= i < |rows| :: rows[i] < |w.db.outbox|)
               && MessagesFrom(w3.outq, w.now, |rows|) == Taken(w.db.outbox, rows, outcomes)
  {
    var rows := w.batches[p].rows;
    assert rows[..|rows|] == rows;
    CommitOfBatch(cfg, w2, p, outcomes);
  }
}
