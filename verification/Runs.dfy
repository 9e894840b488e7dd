/** Counting and ordering over whole runs: settle calls, the recommendation ledger, one ticket's statuses. */
module Runs {
  import opened Domain
  import opened Store
  import opened System
  import opened Invariants
  import opened Preservation
  import opened Statuses
  import opened Safety

  // ----- at most once per recommendation

  ghost predicate Calls(cfg: Config, w: World, s: Step, m: Id)
    requires Enabled(cfg, w, s)
  {
    s.CallMonolith? && w.inq[s.c].message.id == m
  }

  // The step commits an acknowledgement row for recommendation m.
  ghost predicate Acknowledges(cfg: Config, w: World, s: Step, m: Id)
    requires Enabled(cfg, w, s)
  {
    s.ConsumerSettle? && w.inq[s.c].message.id == m && WillSettle(cfg, w, s.c)
  }

  ghost function SettleCalls(cfg: Config, w: World, run: seq<Step>, m: Id): nat
    requires Run(cfg, w, run)
    decreases run
  {
    if run == [] then 0 else
      (if Calls(cfg, w, run[0], m) then 1 else 0) + SettleCalls(cfg, Do(cfg, w, run[0]), run[1..], m)
  }

  ghost function AckRows(cfg: Config, w: World, run: seq<Step>, m: Id): nat
    requires Run(cfg, w, run)
    decreases run
  {
    if run == [] then 0 else
      (if Acknowledges(cfg, w, run[0], m) then 1 else 0) + AckRows(cfg, Do(cfg, w, run[0]), run[1..], m)
  }

  ghost function CallsOf(settlements: map<Id, Settlement>, m: Id): nat {
    if m in settlements then settlements[m].calls else 0
  }

  ghost function AcksOf(settlements: map<Id, Settlement>, m: Id): nat {
    if m in settlements && settlements[m].stage.AckQueued? then 1 else 0
  }

  lemma CallsStep(cfg: Config, w: World, s: Step, m: Id)
    requires SettledSoFar(w) && ClaimsOk(w.settlements, w.db.inbox) && Enabled(cfg, w, s)
    ensures CallsOf(NextSettlements(cfg, w, s), m) == CallsOf(w.settlements, m) + if Calls(cfg, w, s, m) then 1 else 0
    ensures AcksOf(NextSettlements(cfg, w, s), m) == AcksOf(w.settlements, m) + if Acknowledges(cfg, w, s, m) then 1 else 0
  {
    hide FindStuck, Lookup, FetchPending, Marked;
  }

  lemma {:induction false} CallsRun(cfg: Config, w: World, run: seq<Step>, m: Id)
    requires Inv(w) && Run(cfg, w, run)
    ensures CallsOf(After(cfg, w, run).settlements, m) == CallsOf(w.settlements, m) + SettleCalls(cfg, w, run, m)
    ensures AcksOf(After(cfg, w, run).settlements, m) == AcksOf(w.settlements, m) + AckRows(cfg, w, run, m)
    decreases run
  {
    if run != [] {
      CallsStep(cfg, w, run[0], m);
      InvStep(cfg, w, run[0]);
      CallsRun(cfg, Do(cfg, w, run[0]), run[1..], m);
    }
  }

  // Whatever is redelivered, duplicated or crashes: one recommendation causes at most one
  // settle call and at most one acknowledgement row, the row only after the call, and both
  // only once its claim is durable.
  lemma AtMostOnce(cfg: Config, run: seq<Step>, m: Id)
    requires Run(cfg, INIT, run)
    ensures AckRows(cfg, INIT, run, m) <= SettleCalls(cfg, INIT, run, m) <= 1
    ensures SettleCalls(cfg, INIT, run, m) == 1 ==> m in After(cfg, INIT, run).db.inbox
  {
    InitInv();
    CallsRun(cfg, INIT, run, m);
    InvRun(cfg, INIT, run);
    OnceInWorld(After(cfg, INIT, run), m);
  }

  lemma OnceInWorld(w: World, m: Id)
    requires SettledSoFar(w) && ClaimsOk(w.settlements, w.db.inbox)
    ensures AcksOf(w.settlements, m) <= CallsOf(w.settlements, m) <= 1
    ensures CallsOf(w.settlements, m) == 1 ==> m in w.db.inbox
  {
  }

  // ----- the recommendation ledger

  ghost function ClaimsFor(inbox: map<Id, Claim>, t: Id): set<Id> {
    set m | m in inbox && inbox[m].kind.RECOMMENDATION? && inbox[m].ticket == t
  }

  ghost function AcksFor(outbox: seq<Row>, t: Id): set<nat> {
    set e | 0 <= e < |outbox| && IsAck(outbox[e].message.body) && outbox[e].message.ticket == t
  }

  ghost function HandlersFor(inq: map<Id, InCopy>, t: Id): set<Id> {
    set c | c in inq && Busy(inq[c].phase) && inq[c].message.ticket == t
  }

  datatype Ending = MonolithRefused | SecondSkipped | HandlerCrashed

  // How a step ends the handling of a claimed recommendation without an acknowledgement.
  ghost function Ends(cfg: Config, w: World, s: Step, t: Id): Option<Ending>
    requires Enabled(cfg, w, s)
  {
    match s
    case ConsumerCancel(c, _) => if w.inq[c].message.ticket == t then Some(MonolithRefused) else None
    case ConsumerSettle(c) =>
      if w.inq[c].message.ticket == t && !WillSettle(cfg, w, c) then Some(SecondSkipped) else None
    case InReturn(c) =>
      if w.inq[c].message.ticket == t && Busy(w.inq[c].phase) then Some(HandlerCrashed) else None
    case _ => None
  }

  ghost function Endings(cfg: Config, w: World, run: seq<Step>, t: Id, how: Ending): nat
    requires Run(cfg, w, run)
    decreases run
  {
    if run == [] then 0 else
      (if Ends(cfg, w, run[0], t) == Some(how) then 1 else 0) + Endings(cfg, Do(cfg, w, run[0]), run[1..], t, how)
  }

  lemma ClaimsDelta(cfg: Config, w: World, s: Step, t: Id)
    requires Enabled(cfg, w, s)
    ensures |ClaimsFor(NextDb(cfg, w, s).inbox, t)|
            == |ClaimsFor(w.db.inbox, t)|
               + if s.ConsumerHandle? && w.inq[s.c].message.ticket == t && StartsSettlement(w.db, w.inq[s.c].message) then 1 else 0
  {
    if s.ConsumerHandle? {
      ClaimsAfterFirst(w.db, w.inq[s.c].message, w.now, t);
    } else {
      InboxUnchanged(cfg, w, s);
    }
  }

  lemma ClaimsAfterFirst(db: Db, m: Message, now: Time, t: Id)
    ensures |ClaimsFor(FirstTransaction(db, m, now).inbox, t)|
            == |ClaimsFor(db.inbox, t)| + if m.ticket == t && StartsSettlement(db, m) then 1 else 0
  {
    var inbox' := FirstTransaction(db, m, now).inbox;
    if m.ticket == t && StartsSettlement(db, m) {
      assert ClaimsFor(inbox', t) == ClaimsFor(db.inbox, t) + {m.id};
    } else {
      assert ClaimsFor(inbox', t) == ClaimsFor(db.inbox, t);
    }
  }

  lemma AcksDelta(cfg: Config, w: World, s: Step, t: Id)
    requires Enabled(cfg, w, s)
    ensures |AcksFor(NextDb(cfg, w, s).outbox, t)|
            == |AcksFor(w.db.outbox, t)|
               + if s.ConsumerSettle? && w.inq[s.c].message.ticket == t && WillSettle(cfg, w, s.c) then 1 else 0
  {
    hide NextDb, AcksFor, WillSettle, FindStuck, Lookup, FetchPending;
    OutboxStep(cfg, w, s);
    if s.ConsumerSettle? && w.inq[s.c].message.ticket == t && WillSettle(cfg, w, s.c) {
      AckAppended(cfg, w, s.c);
      AcksAdded(w.db.outbox, NextDb(cfg, w, s).outbox, w.now, t);
    } else {
      NoAckFor(cfg, w, s, t);
      AcksSame(w.db.outbox, NextDb(cfg, w, s).outbox, w.now, t);
    }
  }

  lemma AcksAdded(outbox: seq<Row>, outbox': seq<Row>, now: Time, t: Id)
    requires OutboxGrows(outbox, outbox', now) && |outbox'| == |outbox| + 1
    requires IsAck(outbox'[|outbox|].message.body) && outbox'[|outbox|].message.ticket == t
    ensures |AcksFor(outbox', t)| == |AcksFor(outbox, t)| + 1
  {
    assert AcksFor(outbox', t) == AcksFor(outbox, t) + {|outbox|};
  }

  lemma AcksSame(outbox: seq<Row>, outbox': seq<Row>, now: Time, t: Id)
    requires OutboxGrows(outbox, outbox', now)
    requires forall e | |outbox| <= e < |outbox'| :: !(IsAck(outbox'[e].message.body) && outbox'[e].message.ticket == t)
    ensures |AcksFor(outbox', t)| == |AcksFor(outbox, t)|
  {
    assert AcksFor(outbox', t) == AcksFor(outbox, t);
  }

  lemma AckAppended(cfg: Config, w: World, c: Id)
    requires Enabled(cfg, w, ConsumerSettle(c)) && WillSettle(cfg, w, c)
    ensures var outbox' := NextDb(cfg, w, ConsumerSettle(c)).outbox;
            |outbox'| == |w.db.outbox| + 1 && IsAck(outbox'[|w.db.outbox|].message.body)
            && outbox'[|w.db.outbox|].message.ticket == w.inq[c].message.ticket
  {
  }

  lemma NoAckFor(cfg: Config, w: World, s: Step, t: Id)
    requires Enabled(cfg, w, s)
    requires !(s.ConsumerSettle? && w.inq[s.c].message.ticket == t && WillSettle(cfg, w, s.c))
    ensures forall e | |w.db.outbox| <= e < |NextDb(cfg, w, s).outbox| ::
              !(IsAck(NextDb(cfg, w, s).outbox[e].message.body) && NextDb(cfg, w, s).outbox[e].message.ticket == t)
  {
  }

  lemma HandlersAt(inq: map<Id, InCopy>, c: Id, q: InCopy, t: Id)
    ensures |HandlersFor(inq[c := q], t)|
            == |HandlersFor(inq, t)| - (if c in HandlersFor(inq, t) then 1 else 0)
               + (if Busy(q.phase) && q.message.ticket == t then 1 else 0)
  {
    var inq' := inq[c := q];
    if Busy(q.phase) && q.message.ticket == t {
      assert HandlersFor(inq', t) == HandlersFor(inq, t) + {c};
    } else {
      assert HandlersFor(inq', t) == HandlersFor(inq, t) - {c};
    }
  }

  lemma HandlersDelta(cfg: Config, w: World, s: Step, t: Id)
    requires Enabled(cfg, w, s) && w.now !in w.inq
    ensures |HandlersFor(NextInq(cfg, w, s), t)|
            == |HandlersFor(w.inq, t)|
               + (if s.ConsumerHandle? && w.inq[s.c].message.ticket == t && StartsSettlement(w.db, w.inq[s.c].message) then 1 else 0)
               - (if s.ConsumerSettle? && w.inq[s.c].message.ticket == t && WillSettle(cfg, w, s.c) then 1 else 0)
               - (if Ends(cfg, w, s, t).Some? then 1 else 0)
  {
    hide FindStuck, Lookup, FetchPending;
    MovesOneCopy(cfg, w, s);
    if Moved(w, s).Some? {
      var c := Moved(w, s).value;
      HandlersAt(w.inq, c, NextInq(cfg, w, s)[c], t);
    }
  }

  ghost function Unaccounted(w: World, t: Id): int {
    |ClaimsFor(w.db.inbox, t)| - |AcksFor(w.db.outbox, t)| - |HandlersFor(w.inq, t)|
  }

  ghost function AllEndings(cfg: Config, w: World, run: seq<Step>, t: Id): nat
    requires Run(cfg, w, run)
    decreases run
  {
    if run == [] then 0 else
      (if Ends(cfg, w, run[0], t).Some? then 1 else 0) + AllEndings(cfg, Do(cfg, w, run[0]), run[1..], t)
  }

  lemma {:induction false} EndingsSplit(cfg: Config, w: World, run: seq<Step>, t: Id)
    requires Run(cfg, w, run)
    ensures AllEndings(cfg, w, run, t)
            == Endings(cfg, w, run, t, MonolithRefused) + Endings(cfg, w, run, t, SecondSkipped)
               + Endings(cfg, w, run, t, HandlerCrashed)
    decreases run
  {
    if run != [] {
      EndingsSplit(cfg, Do(cfg, w, run[0]), run[1..], t);
    }
  }

  lemma LedgerStep(cfg: Config, w: World, s: Step, t: Id)
    requires Enabled(cfg, w, s) && w.now !in w.inq
    ensures Unaccounted(Do(cfg, w, s), t) == Unaccounted(w, t) + if Ends(cfg, w, s, t).Some? then 1 else 0
  {
    ClaimsDelta(cfg, w, s, t);
    AcksDelta(cfg, w, s, t);
    HandlersDelta(cfg, w, s, t);
  }

  lemma {:induction false} LedgerRun(cfg: Config, w: World, run: seq<Step>, t: Id)
    requires Inv(w) && Run(cfg, w, run)
    ensures Unaccounted(After(cfg, w, run), t) == Unaccounted(w, t) + AllEndings(cfg, w, run, t)
    decreases run
  {
    if run != [] {
      NotYetDrawn(w);
      LedgerStep(cfg, w, run[0], t);
      InvStep(cfg, w, run[0]);
      LedgerRun(cfg, Do(cfg, w, run[0]), run[1..], t);
    }
  }

  // Nothing claimed is unaccounted for: claimed recommendations = acknowledgement rows +
  // monolith failures + second transactions skipped + handlers in flight + handlers that
  // crashed between the two transactions.
  lemma Ledger(cfg: Config, run: seq<Step>, t: Id)
    requires Run(cfg, INIT, run)
    ensures var w := After(cfg, INIT, run);
            |ClaimsFor(w.db.inbox, t)|
            == |AcksFor(w.db.outbox, t)|
               + Endings(cfg, INIT, run, t, MonolithRefused)
               + Endings(cfg, INIT, run, t, SecondSkipped)
               + |HandlersFor(w.inq, t)|
               + Endings(cfg, INIT, run, t, HandlerCrashed)
  {
    InitInv();
    LedgerRun(cfg, INIT, run, t);
    EndingsSplit(cfg, INIT, run, t);
    assert ClaimsFor(INIT.db.inbox, t) == {} && AcksFor(INIT.db.outbox, t) == {} && HandlersFor(INIT.inq, t) == {};
  }

  // ----- one ticket's statuses

  // A ticket that has not been inserted yet counts as NEW, which is how it will be inserted.
  ghost function StatusOf(w: World, t: Id): Status {
    if t in w.db.tickets then w.db.tickets[t].status else New
  }

  ghost function StatusTrace(cfg: Config, w: World, run: seq<Step>, t: Id): (trace: seq<Status>)
    requires Run(cfg, w, run)
    ensures |trace| == |run| + 1 && trace[0] == StatusOf(w, t)
    decreases run
  {
    [StatusOf(w, t)] + if run == [] then [] else StatusTrace(cfg, Do(cfg, w, run[0]), run[1..], t)
  }

  ghost predicate Path(freshReread: bool, trace: seq<Status>) {
    forall i | 0 <= i < |trace| - 1 :: trace[i + 1] == trace[i] || Edge(freshReread, trace[i], trace[i + 1])
  }

  lemma PathCons(freshReread: bool, first: Status, rest: seq<Status>)
    requires rest != [] && Path(freshReread, rest) && (rest[0] == first || Edge(freshReread, first, rest[0]))
    ensures Path(freshReread, [first] + rest)
  {
    var trace := [first] + rest;
    forall i | 0 <= i < |trace| - 1 ensures trace[i + 1] == trace[i] || Edge(freshReread, trace[i], trace[i + 1]) {
      if i > 0 {
        assert trace[i] == rest[i - 1] && trace[i + 1] == rest[i];
      }
    }
  }

  lemma MovesOf(freshReread: bool, w: World, w': World, t: Id)
    requires Moves(freshReread, w.db, w'.db)
    ensures StatusOf(w', t) == StatusOf(w, t) || Edge(freshReread, StatusOf(w, t), StatusOf(w', t))
  {
  }

  lemma {:induction false} TraceIsPath(cfg: Config, w: World, run: seq<Step>, t: Id)
    requires Inv(w) && Run(cfg, w, run)
    ensures Path(cfg.freshReread, StatusTrace(cfg, w, run, t))
    decreases run
  {
    hide Enabled, Inv, Moves, NextDb, NextCalls, NextBatches, NextOutq, NextIssued, NextInq, NextTicks;
    hide NextSettlements, NextBirths, NextCauses, NextRolledBack, NextUnconfirmed;
    if run != [] {
      MovesStep(cfg, w, run[0]);
      InvStep(cfg, w, run[0]);
      TraceIsPath(cfg, Do(cfg, w, run[0]), run[1..], t);
      MovesOf(cfg.freshReread, w, Do(cfg, w, run[0]), t);
      PathCons(cfg.freshReread, StatusOf(w, t), StatusTrace(cfg, Do(cfg, w, run[0]), run[1..], t));
    }
  }

  // A path leaves the early statuses once and for all, and climbs NEW -> SENT_TO_PROVIDER at most once.
  lemma {:induction false} EarlyOnlyOnce(freshReread: bool, trace: seq<Status>, i: nat, j: nat)
    requires Path(freshReread, trace) && i <= j < |trace|
    ensures trace[j].New? ==> trace[i].New?
    ensures trace[j].SentToProvider? ==> Early(trace[i])
    ensures trace[i].SentToProvider? && Early(trace[j]) ==> trace[j].SentToProvider?
    decreases j
  {
    if i < j {
      EarlyOnlyOnce(freshReread, trace, i, j - 1);
      assert trace[j] == trace[j - 1] || Edge(freshReread, trace[j - 1], trace[j]);
    }
  }

  predicate Enters(trace: seq<Status>, i: nat, s: Status) {
    i + 1 < |trace| && trace[i] != s && trace[i + 1] == s
  }

  // Seen through one ticket, every run of the system is a run of the automaton; NEW is never
  // re-entered, SENT_TO_PROVIDER is entered at most once and never after a recommendation or
  // a cancellation request, and EXPIRED is never reached.
  lemma Projection(cfg: Config, run: seq<Step>, t: Id)
    requires Run(cfg, INIT, run)
    ensures var trace := StatusTrace(cfg, INIT, run, t);
            && Path(cfg.freshReread, trace)
            && (forall i: nat :: !Enters(trace, i, New))
            && (forall i: nat, j: nat | Enters(trace, i, SentToProvider) && Enters(trace, j, SentToProvider) :: i == j)
            && (forall i, j | 0 <= i <= j < |trace| && trace[j].SentToProvider? :: Early(trace[i]))
            && (forall i | 0 <= i < |trace| :: !trace[i].Expired?)
  {
    InitInv();
    TraceIsPath(cfg, INIT, run, t);
    PathFacts(cfg.freshReread, StatusTrace(cfg, INIT, run, t));
  }

  lemma PathFacts(freshReread: bool, trace: seq<Status>)
    requires Path(freshReread, trace) && trace != [] && trace[0].New?
    ensures forall i: nat :: !Enters(trace, i, New)
    ensures forall i: nat, j: nat | Enters(trace, i, SentToProvider) && Enters(trace, j, SentToProvider) :: i == j
    ensures forall i, j | 0 <= i <= j < |trace| && trace[j].SentToProvider? :: Early(trace[i])
    ensures forall i | 0 <= i < |trace| :: !trace[i].Expired?
  {
    forall i, j | 0 <= i <= j < |trace|
      ensures trace[j].New? ==> trace[i].New?
      ensures trace[j].SentToProvider? ==> Early(trace[i])
      ensures trace[i].SentToProvider? && Early(trace[j]) ==> trace[j].SentToProvider?
    {
      EarlyOnlyOnce(freshReread, trace, i, j);
    }
    forall i: nat, j: nat | Enters(trace, i, SentToProvider) && Enters(trace, j, SentToProvider) ensures i == j {
    }
    forall i | 0 <= i < |trace| ensures !trace[i].Expired? {
      NeverExpired(freshReread, trace, i);
    }
  }

  lemma {:induction false} NeverExpired(freshReread: bool, trace: seq<Status>, i: nat)
    requires Path(freshReread, trace) && i < |trace| && !trace[0].Expired?
    ensures !trace[i].Expired?
    decreases i
  {
    if i > 0 {
      NeverExpired(freshReread, trace, i - 1);
      assert trace[i] == trace[i - 1] || Edge(freshReread, trace[i - 1], trace[i]);
    }
  }

  // ----- terminal tickets

  // The step applies a cancellation to ticket t, or requests one for it (see CancelsExactly).
  ghost predicate Cancels(cfg: Config, w: World, s: Step, t: Id)
    requires Enabled(cfg, w, s)
  {
    match s
    case ConsumerHandle(c) => w.inq[c].message.ticket == t && AppliesCancellation(w.db, w.inq[c].message)
    case ConsumerCancel(c, _) => w.inq[c].message.ticket == t
    case TickStart(_, batch, _) => batch[0] == t
    case TickNext(r, _) => w.ticks[r][0].ticket == t
    case _ => false
  }

  ghost predicate QueuesRequest(db: Db, db': Db, t: Id) {
    && |db'.outbox| == |db.outbox| + 1
    && db'.outbox[|db.outbox|].message.ticket == t && db'.outbox[|db.outbox|].message.body.RequestCancellation?
  }

  ghost predicate BecomesCancelled(db: Db, db': Db, t: Id) {
    && t in db.tickets && !db.tickets[t].status.Cancelled?
    && t in db'.tickets && db'.tickets[t].status.Cancelled?
  }

  // These are exactly the steps that queue a REQUEST_CANCELLATION for the ticket, or make it CANCELLED.
  lemma CancelsExactly(cfg: Config, w: World, s: Step, t: Id)
    requires Reachable(cfg, w) && Enabled(cfg, w, s)
    ensures Cancels(cfg, w, s, t)
            <==> QueuesRequest(w.db, NextDb(cfg, w, s), t) || BecomesCancelled(w.db, NextDb(cfg, w, s), t)
  {
    InvReachable(cfg, w);
    if Cancels(cfg, w, s, t) {
      if s.ConsumerCancel? {
        HandledKnown(w, s.c);
      }
      CancelsVisibly(cfg, w, s, t);
    } else {
      CancelsNothing(cfg, w, s, t);
    }
  }

  lemma HandledKnown(w: World, c: Id)
    requires Links(w) && BirthsOk(w.births, w.db.tickets, w.db.outbox)
    requires ClaimsOk(w.settlements, w.db.inbox) && SettledSoFar(w) && c in w.inq && Busy(w.inq[c].phase)
    ensures w.inq[c].message.ticket in w.db.tickets
  {
    hide SettlementsOk, RowsOk, OutCopiesOk, IssuedOk, BirthsOk;
    BusyStage(w, c);
    ClaimsKnown(w);
    assert w.inq[c].message.id in w.db.inbox;
  }

  lemma CancelsVisibly(cfg: Config, w: World, s: Step, t: Id)
    requires Enabled(cfg, w, s) && Cancels(cfg, w, s, t) && TicksOk(w.ticks, w.db.tickets)
    requires s.ConsumerCancel? ==> t in w.db.tickets
    ensures QueuesRequest(w.db, NextDb(cfg, w, s), t) || BecomesCancelled(w.db, NextDb(cfg, w, s), t)
  {
    hide Lookup, FetchPending, Marked;
    assert s.TickNext? ==> LoadedOk(w.ticks[s.r][0], w.db.tickets);
  }

  lemma CancelsNothing(cfg: Config, w: World, s: Step, t: Id)
    requires Enabled(cfg, w, s) && !Cancels(cfg, w, s, t)
    ensures !QueuesRequest(w.db, NextDb(cfg, w, s), t) && !BecomesCancelled(w.db, NextDb(cfg, w, s), t)
  {
    hide FindStuck, Lookup, FetchPending;
  }

  // A terminal ticket's row changes only through cancellation, or through the second
  // transaction of a session that does not see the current row.
  lemma TerminalStability(cfg: Config, w: World, s: Step, t: Id)
    requires Reachable(cfg, w) && Enabled(cfg, w, s)
    requires t in w.db.tickets && Terminal(w.db.tickets[t].status) && !Cancels(cfg, w, s, t)
    requires cfg.freshReread || !(s.ConsumerSettle? && w.inq[s.c].message.ticket == t)
    ensures t in NextDb(cfg, w, s).tickets && NextDb(cfg, w, s).tickets[t] == w.db.tickets[t]
  {
    InvReachable(cfg, w);
    TerminalKept(cfg, w, s, t);
  }

  lemma TerminalKept(cfg: Config, w: World, s: Step, t: Id)
    requires CreationOk(w.calls, w.db.tickets, w.now) && Enabled(cfg, w, s)
    requires t in w.db.tickets && Terminal(w.db.tickets[t].status) && !Cancels(cfg, w, s, t)
    requires cfg.freshReread || !(s.ConsumerSettle? && w.inq[s.c].message.ticket == t)
    ensures t in NextDb(cfg, w, s).tickets && NextDb(cfg, w, s).tickets[t] == w.db.tickets[t]
  {
    hide FindStuck, Lookup, FetchPending, Marked;
  }

  // On a terminal ticket the second transaction is without effect exactly when its locked
  // read returns the current row; otherwise it reopens the ticket and queues an acknowledgement.
  lemma SecondTransactionOnTerminal(cfg: Config, w: World, c: Id)
    requires Enabled(cfg, w, ConsumerSettle(c))
    requires w.inq[c].message.ticket in w.db.tickets && Terminal(w.db.tickets[w.inq[c].message.ticket].status)
    ensures NextDb(cfg, w, ConsumerSettle(c)) == w.db <==> cfg.freshReread
    ensures !cfg.freshReread ==>
              && NextDb(cfg, w, ConsumerSettle(c)).tickets[w.inq[c].message.ticket].status.Settled?
              && |NextDb(cfg, w, ConsumerSettle(c)).outbox| == |w.db.outbox| + 1
  {
    var db' := NextDb(cfg, w, ConsumerSettle(c));
    if !cfg.freshReread {
      assert |db'.outbox| == |w.db.outbox| + 1;
    }
  }

  // A terminal ticket is reopened by exactly these steps: a cancellation requested after a
  // monolith failure, a reconciler request whose session has not already loaded
  // CANCELLATION_REQUESTED, and a second transaction that reads the stale status.
  ghost predicate Reopens(cfg: Config, w: World, s: Step, t: Id)
    requires Enabled(cfg, w, s)
  {
    match s
    case ConsumerCancel(c, _) => w.inq[c].message.ticket == t
    case TickNext(r, _) =>
      w.ticks[r][0].ticket == t && (cfg.freshReread || !w.ticks[r][0].status.CancellationRequested?)
    case ConsumerSettle(c) => w.inq[c].message.ticket == t && !cfg.freshReread
    case _ => false
  }

  lemma ReopenedExactlyBy(cfg: Config, w: World, s: Step, t: Id)
    requires Reachable(cfg, w) && Enabled(cfg, w, s)
    requires t in w.db.tickets && Terminal(w.db.tickets[t].status)
    ensures t in NextDb(cfg, w, s).tickets
    ensures !Terminal(NextDb(cfg, w, s).tickets[t].status) <==> Reopens(cfg, w, s, t)
  {
    InvReachable(cfg, w);
    ReopenedExactly(cfg, w, s, t);
  }

  lemma ReopenedExactly(cfg: Config, w: World, s: Step, t: Id)
    requires CreationOk(w.calls, w.db.tickets, w.now) && Enabled(cfg, w, s)
    requires t in w.db.tickets && Terminal(w.db.tickets[t].status)
    ensures t in NextDb(cfg, w, s).tickets
    ensures !Terminal(NextDb(cfg, w, s).tickets[t].status) <==> Reopens(cfg, w, s, t)
  {
    if Cancels(cfg, w, s, t) || Reopens(cfg, w, s, t) {
      WriteOnTerminal(cfg, w, s, t);
    } else {
      TerminalKept(cfg, w, s, t);
    }
  }

  lemma WriteOnTerminal(cfg: Config, w: World, s: Step, t: Id)
    requires Enabled(cfg, w, s) && (Cancels(cfg, w, s, t) || Reopens(cfg, w, s, t))
    requires t in w.db.tickets && Terminal(w.db.tickets[t].status)
    ensures t in NextDb(cfg, w, s).tickets
    ensures !Terminal(NextDb(cfg, w, s).tickets[t].status) <==> Reopens(cfg, w, s, t)
  {
    hide FindStuck, Lookup, FetchPending, Marked;
  }

  ghost predicate NeverCancelled(cfg: Config, w: World, run: seq<Step>, t: Id)
    requires Run(cfg, w, run)
    decreases run
  {
    run == [] || (!Cancels(cfg, w, run[0], t) && NeverCancelled(cfg, Do(cfg, w, run[0]), run[1..], t))
  }

  // No handler of the ticket waits for the monolith's answer, or holds one that is ok.
  ghost predicate Quiet(inq: map<Id, InCopy>, t: Id) {
    forall c | c in inq && inq[c].message.ticket == t :: !inq[c].phase.CallingMonolith? && !inq[c].phase.MonolithOk?
  }

  // Along this run, in which the ticket is never cancelled, its row stays as it is.
  ghost predicate RowKept(cfg: Config, w: World, run: seq<Step>, t: Id)
    requires t in w.db.tickets
  {
    Run(cfg, w, run) && NeverCancelled(cfg, w, run, t) ==>
      t in After(cfg, w, run).db.tickets && After(cfg, w, run).db.tickets[t] == w.db.tickets[t]
  }

  // The first delivered verdict wins over whatever arrives later, in every run without a
  // cancellation of the ticket, if and only if the second locked read is fresh or no handler of
  // the ticket is between its two transactions with its settlement still to come.
  lemma FirstVerdictWins(cfg: Config, w: World, t: Id)
    requires Reachable(cfg, w) && t in w.db.tickets && Terminal(w.db.tickets[t].status)
    ensures (forall run :: RowKept(cfg, w, run, t)) <==> cfg.freshReread || Quiet(w.inq, t)
  {
    InvReachable(cfg, w);
    if cfg.freshReread || Quiet(w.inq, t) {
      forall run ensures RowKept(cfg, w, run, t) {
        if Run(cfg, w, run) && NeverCancelled(cfg, w, run, t) {
          VerdictKept(cfg, w, run, t);
        }
      }
    } else {
      var run := Overruled(cfg, w, t);
      assert !RowKept(cfg, w, run, t);
    }
  }

  lemma {:induction false} VerdictKept(cfg: Config, w: World, run: seq<Step>, t: Id)
    requires Inv(w) && Run(cfg, w, run) && (cfg.freshReread || Quiet(w.inq, t))
    requires t in w.db.tickets && Terminal(w.db.tickets[t].status) && NeverCancelled(cfg, w, run, t)
    ensures t in After(cfg, w, run).db.tickets && After(cfg, w, run).db.tickets[t] == w.db.tickets[t]
    decreases run
  {
    hide Enabled, Cancels, Quiet, NextDb, NextInq;
    if run != [] {
      VerdictStep(cfg, w, run[0], t);
      InvStep(cfg, w, run[0]);
      VerdictKept(cfg, Do(cfg, w, run[0]), run[1..], t);
    }
  }

  lemma VerdictStep(cfg: Config, w: World, s: Step, t: Id)
    requires CreationOk(w.calls, w.db.tickets, w.now) && Enabled(cfg, w, s) && (cfg.freshReread || Quiet(w.inq, t))
    requires t in w.db.tickets && Terminal(w.db.tickets[t].status) && !Cancels(cfg, w, s, t)
    ensures t in NextDb(cfg, w, s).tickets && NextDb(cfg, w, s).tickets[t] == w.db.tickets[t]
    ensures cfg.freshReread || Quiet(NextInq(cfg, w, s), t)
  {
    hide CreationOk, NextDb, NextInq, FindStuck, Lookup, FetchPending;
    TerminalKept(cfg, w, s, t);
    if !cfg.freshReread {
      QuietStep(cfg, w, s, t);
    }
  }

  // A handler starts only on a ticket that is not terminal.
  lemma QuietStep(cfg: Config, w: World, s: Step, t: Id)
    requires Enabled(cfg, w, s) && Quiet(w.inq, t) && t in w.db.tickets && Terminal(w.db.tickets[t].status)
    ensures Quiet(NextInq(cfg, w, s), t)
  {
    hide FindStuck, Lookup, FetchPending;
    MovesOneCopy(cfg, w, s);
  }

  // With the stale read, the handler of a ticket that is not quiet goes on to settle it.
  lemma Overruled(cfg: Config, w: World, t: Id) returns (run: seq<Step>)
    requires InCopiesOk(w.inq, w.issued, w.now) && SettledSoFar(w) && !cfg.freshReread && !Quiet(w.inq, t)
    requires t in w.db.tickets && Terminal(w.db.tickets[t].status)
    ensures Run(cfg, w, run) && NeverCancelled(cfg, w, run, t)
    ensures t in After(cfg, w, run).db.tickets && After(cfg, w, run).db.tickets[t].status.Settled?
  {
    hide Enabled, Do, Cancels, SettlementsOk;
    var c :| c in w.inq && w.inq[c].message.ticket == t && (w.inq[c].phase.CallingMonolith? || w.inq[c].phase.MonolithOk?);
    BusyWithRecommendation(w, c);
    if w.inq[c].phase.MonolithOk? {
      run := [ConsumerSettle(c)];
      SettleOverrules(cfg, w, c);
    } else {
      var call := CallMonolith(c, w.inq[c].message.body.action, true);
      var w1 := AnswerOk(cfg, w, c);
      SettleOverrules(cfg, w1, c);
      run := [call, ConsumerSettle(c)];
      assert run[1..] == [ConsumerSettle(c)];
    }
  }

  lemma BusyWithRecommendation(w: World, c: Id)
    requires InCopiesOk(w.inq, w.issued, w.now) && SettledSoFar(w) && c in w.inq && Busy(w.inq[c].phase)
    ensures w.inq[c].message.body.Recommendation?
  {
    assert SettlementOk(w.inq[c].message.id, w.settlements[w.inq[c].message.id], w.issued, w.inq, w.db.outbox, w.causes, w.now);
  }

  lemma AnswerOk(cfg: Config, w: World, c: Id) returns (w': World)
    requires InIn(w, c, CallingMonolith) && w.inq[c].message.body.Recommendation?
    ensures var s := CallMonolith(c, w.inq[c].message.body.action, true);
            Enabled(cfg, w, s) && w' == Do(cfg, w, s) && w'.db == w.db
            && InIn(w', c, MonolithOk) && w'.inq[c].message == w.inq[c].message
            && forall t :: !Cancels(cfg, w, s, t)
  {
    w' := Do(cfg, w, CallMonolith(c, w.inq[c].message.body.action, true));
  }

  lemma SettleOverrules(cfg: Config, w: World, c: Id)
    requires !cfg.freshReread && InIn(w, c, MonolithOk) && w.inq[c].message.body.Recommendation?
    requires w.inq[c].message.ticket in w.db.tickets && Terminal(w.db.tickets[w.inq[c].message.ticket].status)
    ensures var run := [ConsumerSettle(c)];
            var t := w.inq[c].message.ticket;
            Run(cfg, w, run) && NeverCancelled(cfg, w, run, t)
            && t in After(cfg, w, run).db.tickets && After(cfg, w, run).db.tickets[t].status.Settled?
  {
    var s := ConsumerSettle(c);
    OneStep(cfg, w, s);
    SecondTransactionOnTerminal(cfg, w, c);
    assert [s][1..] == [];
    assert NeverCancelled(cfg, Do(cfg, w, s), [], w.inq[c].message.ticket);
  }

  // ----- timestamps

  // The first confirmation time is kept for good, a settled ticket stays marked as settled,
  // and an applied cancellation keeps the time of the request.
  lemma TimesKept(cfg: Config, w: World, s: Step, t: Id)
    requires Reachable(cfg, w) && Enabled(cfg, w, s) && t in w.db.tickets
    ensures var row := w.db.tickets[t];
            var db' := NextDb(cfg, w, s);
            && t in db'.tickets
            && (row.confirmedAt.Some? ==> db'.tickets[t].confirmedAt == row.confirmedAt)
            && (row.settledAt.Some? ==> db'.tickets[t].settledAt.Some?)
            && (row.cancelledAt.Some? && (s.ConsumerHandle? || s.GatewayRecord? || s.ConsumerSettle?) ==>
                  db'.tickets[t].cancelledAt == row.cancelledAt)
            && (db'.tickets[t] != row ==> db'.tickets[t].updatedAt == w.now)
  {
    InvReachable(cfg, w);
    TimesStep(cfg, w, s, t);
  }

  lemma TimesStep(cfg: Config, w: World, s: Step, t: Id)
    requires CreationOk(w.calls, w.db.tickets, w.now) && Enabled(cfg, w, s) && t in w.db.tickets
    ensures var row := w.db.tickets[t];
            var db' := NextDb(cfg, w, s);
            && t in db'.tickets
            && (row.confirmedAt.Some? ==> db'.tickets[t].confirmedAt == row.confirmedAt)
            && (row.settledAt.Some? ==> db'.tickets[t].settledAt.Some?)
            && (row.cancelledAt.Some? && (s.ConsumerHandle? || s.GatewayRecord? || s.ConsumerSettle?) ==>
                  db'.tickets[t].cancelledAt == row.cancelledAt)
            && (db'.tickets[t] != row ==> db'.tickets[t].updatedAt == w.now)
  {
    hide NextDb, Enabled, CreationOk;
    if s.CreateInsert? {
      TicketsInsert(cfg, w, s.k);
    } else {
      RewritesStep(cfg, w, s);
      if s.ConsumerHandle? || s.GatewayRecord? || s.ConsumerSettle? {
        CancelTimeKept(cfg, w, s, t);
      }
    }
  }

  lemma CancelTimeKept(cfg: Config, w: World, s: Step, t: Id)
    requires Enabled(cfg, w, s) && t in w.db.tickets && (s.ConsumerHandle? || s.GatewayRecord? || s.ConsumerSettle?)
    ensures t in NextDb(cfg, w, s).tickets
    ensures w.db.tickets[t].cancelledAt.Some? ==> NextDb(cfg, w, s).tickets[t].cancelledAt == w.db.tickets[t].cancelledAt
  {
  }

  // ----- frames

  ghost predicate OutWithin(cfg: Config, outq: map<Id, OutCopy>) {
    forall c | c in outq ::
      outq[c].returned <= cfg.deliveryLimit && (outq[c].phase.OutDead? ==> outq[c].returned == cfg.deliveryLimit)
  }

  ghost predicate InWithin(cfg: Config, inq: map<Id, InCopy>) {
    forall c | c in inq ::
      inq[c].returned <= cfg.deliveryLimit && (inq[c].phase.InDead? ==> inq[c].returned == cfg.deliveryLimit)
  }

  lemma OutLimitStep(cfg: Config, w: World, s: Step)
    requires Enabled(cfg, w, s) && OutWithin(cfg, w.outq) && w.now !in w.outq
    ensures OutWithin(cfg, NextOutq(cfg, w, s))
    ensures forall c | c in w.outq && (w.outq[c].phase.OutDead? || w.outq[c].phase.OutAcked?) ::
              NextOutq(cfg, w, s)[c] == w.outq[c]
  {
    hide FindStuck, Lookup, FetchPending;
  }

  lemma InLimitStep(cfg: Config, w: World, s: Step)
    requires Enabled(cfg, w, s) && InWithin(cfg, w.inq) && w.now !in w.inq
    ensures InWithin(cfg, NextInq(cfg, w, s))
    ensures forall c | c in w.inq && (w.inq[c].phase.InDead? || w.inq[c].phase.InAcked?) ::
              NextInq(cfg, w, s)[c] == w.inq[c]
  {
    hide FindStuck, Lookup, FetchPending;
  }

  lemma {:induction false} LimitRun(cfg: Config, w: World, run: seq<Step>)
    requires Inv(w) && Run(cfg, w, run) && OutWithin(cfg, w.outq) && InWithin(cfg, w.inq)
    ensures OutWithin(cfg, After(cfg, w, run).outq) && InWithin(cfg, After(cfg, w, run).inq)
    decreases run
  {
    if run != [] {
      NotYetDrawn(w);
      OutLimitStep(cfg, w, run[0]);
      InLimitStep(cfg, w, run[0]);
      InvStep(cfg, w, run[0]);
      LimitRun(cfg, Do(cfg, w, run[0]), run[1..]);
    }
  }

  // No frame is delivered more often than the queue allows, only a frame that has used up its
  // deliveries is dead-lettered, and dead or acknowledged frames are final.
  lemma DeliveryLimit(cfg: Config, w: World, s: Step)
    requires Reachable(cfg, w) && Enabled(cfg, w, s)
    ensures OutWithin(cfg, w.outq) && InWithin(cfg, w.inq)
    ensures forall c | c in w.outq && (w.outq[c].phase.OutDead? || w.outq[c].phase.OutAcked?) ::
              NextOutq(cfg, w, s)[c] == w.outq[c]
    ensures forall c | c in w.inq && (w.inq[c].phase.InDead? || w.inq[c].phase.InAcked?) ::
              NextInq(cfg, w, s)[c] == w.inq[c]
  {
    InitInv();
    var run :| Run(cfg, INIT, run) && After(cfg, INIT, run) == w;
    LimitRun(cfg, INIT, run);
    InvReachable(cfg, w);
    NotYetDrawn(w);
    OutLimitStep(cfg, w, s);
    InLimitStep(cfg, w, s);
  }
}
