/** With one producer, no pending event waits longer than floor(3k/L) + 3 batches for its k elders. */
module Starvation {
  import opened Counting
  import opened Domain
  import opened Store
  import opened OutboxTable

  // One poll of the producer: the rows that have arrived since the last one, and what
  // becomes of each publish.
  datatype Round = Round(arrivals: seq<Row>, outcomes: nat -> PublishOutcome, now: Time)

  ghost function RunRound(outbox: seq<Row>, limit: nat, r: Round): seq<Row> {
    var all := outbox + r.arrivals;
    BatchMarked(all, FetchPending(all, {}, 0, limit), r.outcomes, r.now)
  }

  ghost function RunRounds(outbox: seq<Row>, limit: nat, rounds: seq<Round>): seq<Row>
    decreases rounds
  {
    if rounds == [] then outbox else RunRounds(RunRound(outbox, limit, rounds[0]), limit, rounds[1..])
  }

  ghost predicate Attempting(outbox: seq<Row>) {
    forall e | 0 <= e < |outbox| && outbox[e].status.Pending? :: outbox[e].attempts < MAX_ATTEMPTS
  }

  ghost predicate ArrivalsOk(rounds: seq<Round>) {
    forall i | 0 <= i < |rounds| :: Attempting(rounds[i].arrivals)
  }

  // How many pending rows come before e, and how many attempts they have left between them.
  ghost function Elders(outbox: seq<Row>, e: nat): nat
    requires e <= |outbox|
  {
    if e == 0 then 0 else Elders(outbox, e - 1) + if outbox[e - 1].status.Pending? then 1 else 0
  }

  ghost function Budget(outbox: seq<Row>, e: nat): nat
    requires e <= |outbox| && Attempting(outbox)
  {
    if e == 0 then 0 else
      Budget(outbox, e - 1) + if outbox[e - 1].status.Pending? then MAX_ATTEMPTS - outbox[e - 1].attempts else 0
  }

  lemma {:induction false} BudgetOfElders(outbox: seq<Row>, e: nat)
    requires e <= |outbox| && Attempting(outbox)
    ensures Budget(outbox, e) <= 3 * Elders(outbox, e)
  {
    if e > 0 {
      BudgetOfElders(outbox, e - 1);
    }
  }

  // How many of the selected rows come before e.
  ghost function Hits(rows: seq<nat>, e: nat): nat {
    if e == 0 then 0 else Hits(rows, e - 1) + if e - 1 in rows then 1 else 0
  }

  lemma {:induction false} HitsAll(rows: seq<nat>, e: nat)
    requires forall i, j | 0 <= i < j < |rows| :: rows[i] < rows[j]
    requires forall i | 0 <= i < |rows| :: rows[i] < e
    ensures Hits(rows, e) == |rows|
    decreases e
  {
    if e > 0 {
      if e - 1 in rows {
        var last := |rows| - 1;
        var i :| 0 <= i < |rows| && rows[i] == e - 1;
        assert rows[last] < e;
        assert i == last;
        HitsAll(rows[..last], e - 1);
        HitsPrefix(rows, last, e - 1);
      } else {
        forall i | 0 <= i < |rows| ensures rows[i] < e - 1 {
          assert rows[i] in rows;
        }
        HitsAll(rows, e - 1);
      }
    }
  }

  lemma {:induction false} HitsPrefix(rows: seq<nat>, last: nat, e: nat)
    requires last < |rows| && forall i | last <= i < |rows| :: e <= rows[i]
    ensures Hits(rows, e) == Hits(rows[..last], e)
    decreases e
  {
    if e > 0 {
      HitsPrefix(rows, last, e - 1);
      assert e - 1 in rows <==> e - 1 in rows[..last];
    }
  }

  lemma {:induction false} BudgetSpent(outbox: seq<Row>, outbox': seq<Row>, rows: seq<nat>, e: nat)
    requires e <= |outbox| && |outbox| <= |outbox'| && Attempting(outbox) && Attempting(outbox')
    requires forall i | 0 <= i < |outbox| ::
               if i in rows
               then outbox[i].status.Pending? && (outbox'[i].status.Pending? ==> outbox'[i].attempts == outbox[i].attempts + 1)
               else outbox'[i] == outbox[i]
    ensures Budget(outbox', e) + Hits(rows, e) <= Budget(outbox, e)
    decreases e
  {
    if e > 0 {
      BudgetSpent(outbox, outbox', rows, e - 1);
    }
  }

  lemma {:induction false} BudgetAppend(outbox: seq<Row>, arrivals: seq<Row>, e: nat)
    requires e <= |outbox| && Attempting(outbox) && Attempting(outbox + arrivals)
    ensures Budget(outbox + arrivals, e) == Budget(outbox, e)
    decreases e
  {
    if e > 0 {
      BudgetAppend(outbox, arrivals, e - 1);
    }
  }

  ghost predicate Picked(outbox: seq<Row>, limit: nat, r: Round, e: nat) {
    e in FetchPending(outbox + r.arrivals, {}, 0, limit)
  }

  // One round: a pending event either uses up one of its own attempts, or sees `limit` of
  // its elders' attempts used up.
  lemma OneRound(outbox: seq<Row>, limit: nat, r: Round, e: nat)
    requires Attempting(outbox) && Attempting(r.arrivals) && e < |outbox| && outbox[e].status.Pending?
    ensures var outbox' := RunRound(outbox, limit, r);
            && |outbox| <= |outbox'| && Attempting(outbox')
            && (outbox'[e].status.Pending? ==>
                  outbox'[e].attempts == outbox[e].attempts + if Picked(outbox, limit, r, e) then 1 else 0)
            && Budget(outbox', e) + (if Picked(outbox, limit, r, e) then 0 else limit) <= Budget(outbox, e)
  {
    var all := outbox + r.arrivals;
    var rows := FetchPending(all, {}, 0, limit);
    FetchSelects(all, {}, 0, limit);
    var outbox' := RunRound(outbox, limit, r);
    assert Attempting(all);
    assert forall i | 0 <= i < |all| && i !in rows :: outbox'[i] == all[i];
    BudgetAppend(outbox, r.arrivals, e);
    BudgetSpent(all, outbox', rows, e);
    if e !in rows {
      assert Available(all, {}, e);
      HitsAll(rows, e);
    }
  }

  ghost function TimesPicked(outbox: seq<Row>, limit: nat, rounds: seq<Round>, e: nat): nat
    decreases rounds
  {
    if rounds == [] then 0 else
      (if Picked(outbox, limit, rounds[0], e) then 1 else 0) + TimesPicked(RunRound(outbox, limit, rounds[0]), limit, rounds[1..], e)
  }

  lemma RoundKeepsDone(outbox: seq<Row>, limit: nat, r: Round, e: nat)
    requires e < |outbox| && !outbox[e].status.Pending?
    ensures e < |RunRound(outbox, limit, r)| && !RunRound(outbox, limit, r)[e].status.Pending?
  {
    FetchSelects(outbox + r.arrivals, {}, 0, limit);
  }

  lemma {:induction false} DoneStays(outbox: seq<Row>, limit: nat, rounds: seq<Round>, e: nat)
    requires e < |outbox| && !outbox[e].status.Pending?
    ensures e < |RunRounds(outbox, limit, rounds)| && !RunRounds(outbox, limit, rounds)[e].status.Pending?
    decreases rounds
  {
    if rounds != [] {
      RoundKeepsDone(outbox, limit, rounds[0], e);
      DoneStays(RunRound(outbox, limit, rounds[0]), limit, rounds[1..], e);
    }
  }

  lemma {:induction false} StillPending(outbox: seq<Row>, limit: nat, rounds: seq<Round>, e: nat)
    requires Attempting(outbox) && ArrivalsOk(rounds) && e < |outbox|
    ensures e < |RunRounds(outbox, limit, rounds)|
    ensures RunRounds(outbox, limit, rounds)[e].status.Pending? ==>
              var picked := TimesPicked(outbox, limit, rounds, e);
              && picked <= |rounds|
              && outbox[e].attempts + picked < MAX_ATTEMPTS
              && (|rounds| - picked) * limit <= Budget(outbox, e)
    decreases rounds
  {
    if rounds == [] {
    } else if !outbox[e].status.Pending? {
      DoneStays(outbox, limit, rounds, e);
    } else {
      var r := rounds[0];
      OneRound(outbox, limit, r, e);
      var outbox' := RunRound(outbox, limit, r);
      StillPending(outbox', limit, rounds[1..], e);
      if RunRounds(outbox, limit, rounds)[e].status.Pending? {
        if !outbox'[e].status.Pending? {
          DoneStays(outbox', limit, rounds[1..], e);
          assert false;
        }
        var rest := |rounds| - 1 - TimesPicked(outbox', limit, rounds[1..], e);
        assert (rest + 1) * limit == rest * limit + limit;
      }
    }
  }

  // However many younger events arrive and whichever publishes raise, a pending event with
  // k pending elders has left PENDING after floor(3k/L) + 3 batches of size L.
  lemma NoStarvation(outbox: seq<Row>, limit: nat, rounds: seq<Round>, e: nat)
    requires limit > 0 && Attempting(outbox) && ArrivalsOk(rounds)
    requires e < |outbox|
    requires |rounds| >= 3 * Elders(outbox, e) / limit + 3
    ensures e < |RunRounds(outbox, limit, rounds)| && !RunRounds(outbox, limit, rounds)[e].status.Pending?
  {
    StillPending(outbox, limit, rounds, e);
    BudgetOfElders(outbox, e);
    if RunRounds(outbox, limit, rounds)[e].status.Pending? {
      var picked := TimesPicked(outbox, limit, rounds, e);
      DivisionBound(|rounds| - picked, limit, 3 * Elders(outbox, e));
      assert false;
    }
  }
}
