/** When a terminal status is final for good, whatever the system does next. */
module Finality {
  import opened Domain
  import opened Store
  import opened System
  import opened Invariants
  import opened Preservation
  import opened Safety
  import opened Runs

  // Nothing in flight can take the ticket out of its terminal status: no handler of it has its
  // settlement still to ask for, a failure to report, or, with the stale read, an ok answer to
  // record; and no live tick has loaded it, unless the read is stale and what it has loaded is
  // CANCELLATION_REQUESTED, which it then does not write.
  ghost predicate Final(cfg: Config, w: World, t: Id) {
    HandlersDone(cfg, w.inq, t) && TicksDone(cfg, w.ticks, t)
  }

  ghost predicate HandlersDone(cfg: Config, inq: map<Id, InCopy>, t: Id) {
    forall c | c in inq && inq[c].message.ticket == t ::
      && !inq[c].phase.CallingMonolith? && !inq[c].phase.MonolithFailed?
      && (inq[c].phase.MonolithOk? ==> cfg.freshReread)
  }

  ghost predicate TicksDone(cfg: Config, ticks: map<Id, seq<Loaded>>, t: Id) {
    forall r, i | r in ticks && 0 <= i < |ticks[r]| && ticks[r][i].ticket == t ::
      !cfg.freshReread && ticks[r][i].status.CancellationRequested?
  }

  ghost predicate TerminalAfter(cfg: Config, w: World, run: seq<Step>, t: Id) {
    Run(cfg, w, run) ==> t in After(cfg, w, run).db.tickets && Terminal(After(cfg, w, run).db.tickets[t].status)
  }

  // A terminal ticket stays terminal along every run if and only if nothing in flight can reopen it.
  lemma FinalExactlyWhen(cfg: Config, w: World, t: Id)
    requires Reachable(cfg, w) && t in w.db.tickets && Terminal(w.db.tickets[t].status)
    ensures (forall run :: TerminalAfter(cfg, w, run, t)) <==> Final(cfg, w, t)
  {
    InvReachable(cfg, w);
    if Final(cfg, w, t) {
      forall run ensures TerminalAfter(cfg, w, run, t) {
        if Run(cfg, w, run) {
          FinalRun(cfg, w, run, t);
        }
      }
    } else {
      var run := ReopeningRun(cfg, w, t);
      assert !TerminalAfter(cfg, w, run, t);
    }
  }

  // ----- final statuses stay

  lemma {:induction false} FinalRun(cfg: Config, w: World, run: seq<Step>, t: Id)
    requires Inv(w) && Run(cfg, w, run) && Final(cfg, w, t)
    requires t in w.db.tickets && Terminal(w.db.tickets[t].status)
    ensures t in After(cfg, w, run).db.tickets && Terminal(After(cfg, w, run).db.tickets[t].status)
    decreases run
  {
    hide Enabled, HandlersDone, TicksDone, NextDb, NextInq, NextTicks;
    if run != [] {
      FinalStep(cfg, w, run[0], t);
      InvStep(cfg, w, run[0]);
      FinalRun(cfg, Do(cfg, w, run[0]), run[1..], t);
    }
  }

  lemma FinalStep(cfg: Config, w: World, s: Step, t: Id)
    requires Inv(w) && Enabled(cfg, w, s) && Final(cfg, w, t)
    requires t in w.db.tickets && Terminal(w.db.tickets[t].status)
    ensures t in NextDb(cfg, w, s).tickets && Terminal(NextDb(cfg, w, s).tickets[t].status)
    ensures HandlersDone(cfg, NextInq(cfg, w, s), t) && TicksDone(cfg, NextTicks(cfg, w, s), t)
  {
    hide NextDb, NextInq, NextTicks, CreationOk, FindStuck, Lookup, FetchPending;
    NothingReopens(cfg, w, s, t);
    ReopenedExactly(cfg, w, s, t);
    HandlersStep(cfg, w, s, t);
    TicksStep(cfg, w, s, t);
  }

  lemma NothingReopens(cfg: Config, w: World, s: Step, t: Id)
    requires Enabled(cfg, w, s) && Final(cfg, w, t)
    ensures !Reopens(cfg, w, s, t)
  {
    hide FindStuck, Lookup, FetchPending;
  }

  // A handler starts only on a ticket that is not terminal.
  lemma HandlersStep(cfg: Config, w: World, s: Step, t: Id)
    requires Enabled(cfg, w, s) && HandlersDone(cfg, w.inq, t) && t in w.db.tickets && Terminal(w.db.tickets[t].status)
    ensures HandlersDone(cfg, NextInq(cfg, w, s), t)
  {
    hide FindStuck, Lookup, FetchPending;
    MovesOneCopy(cfg, w, s);
  }

  // A query loads only tickets that are not terminal.
  lemma TicksStep(cfg: Config, w: World, s: Step, t: Id)
    requires Enabled(cfg, w, s) && TicksDone(cfg, w.ticks, t) && t in w.db.tickets && Terminal(w.db.tickets[t].status)
    ensures TicksDone(cfg, NextTicks(cfg, w, s), t)
  {
    hide FindStuck, Lookup, FetchPending;
    var ticks': map<Id, seq<Loaded>> := NextTicks(cfg, w, s);
    forall r: Id, i: nat | r in ticks' && i < |ticks'[r]|
      ensures ticks'[r][i].ticket == t ==> !cfg.freshReread && ticks'[r][i].status.CancellationRequested?
    {
      if s.TickStart? && r == s.r {
        assert ticks'[r][i] == LoadedBatch(w.db.tickets, s.batch)[i + 1];
        assert Stuck(w.db.tickets, w.now - cfg.stuckAfter, s.batch[i + 1]);
      } else if (s.TickNext? || s.TickSkip?) && r == s.r {
        assert ticks'[r][i] == w.ticks[r][i + 1];
      } else {
        assert ticks'[r] == w.ticks[r];
      }
    }
  }

  // ----- what is in flight reopens

  lemma ReopeningRun(cfg: Config, w: World, t: Id) returns (run: seq<Step>)
    requires InCopiesOk(w.inq, w.issued, w.now) && SettledSoFar(w) && !Final(cfg, w, t)
    requires t in w.db.tickets && Terminal(w.db.tickets[t].status)
    ensures Run(cfg, w, run) && t in After(cfg, w, run).db.tickets && !Terminal(After(cfg, w, run).db.tickets[t].status)
  {
    hide Enabled, Do, SettlementsOk, NextDb;
    if c :| c in w.inq && w.inq[c].message.ticket == t
            && (w.inq[c].phase.CallingMonolith? || w.inq[c].phase.MonolithFailed?
                || (w.inq[c].phase.MonolithOk? && !cfg.freshReread)) {
      BusyWithRecommendation(w, c);
      run := HandlerReopens(cfg, w, c, t);
    } else {
      var r, i :| r in w.ticks && 0 <= i < |w.ticks[r]| && w.ticks[r][i].ticket == t
                  && (cfg.freshReread || !w.ticks[r][i].status.CancellationRequested?);
      run := TickReopens(cfg, w, r, i, t);
    }
  }

  lemma HandlerReopens(cfg: Config, w: World, c: Id, t: Id) returns (run: seq<Step>)
    requires c in w.inq && w.inq[c].message.ticket == t && w.inq[c].message.body.Recommendation?
    requires w.inq[c].phase.CallingMonolith? || w.inq[c].phase.MonolithFailed?
             || (w.inq[c].phase.MonolithOk? && !cfg.freshReread)
    requires t in w.db.tickets && Terminal(w.db.tickets[t].status)
    ensures Run(cfg, w, run) && t in After(cfg, w, run).db.tickets && !Terminal(After(cfg, w, run).db.tickets[t].status)
  {
    hide Do, NextDb, FindStuck, Lookup, FetchPending;
    if w.inq[c].phase.MonolithOk? {
      run := LastStep(cfg, w, ConsumerSettle(c), t);
    } else if w.inq[c].phase.MonolithFailed? {
      run := LastStep(cfg, w, ConsumerCancel(c, ""), t);
    } else {
      var w1 := AnswerFailure(cfg, w, c);
      var rest := LastStep(cfg, w1, ConsumerCancel(c, ""), t);
      run := RunCons(cfg, w, CallMonolith(c, w.inq[c].message.body.action, false), rest);
    }
  }

  lemma AnswerFailure(cfg: Config, w: World, c: Id) returns (w': World)
    requires InIn(w, c, CallingMonolith) && w.inq[c].message.body.Recommendation?
    ensures var s := CallMonolith(c, w.inq[c].message.body.action, false);
            Enabled(cfg, w, s) && w' == Do(cfg, w, s) && w'.db == w.db
            && InIn(w', c, MonolithFailed) && w'.inq[c].message == w.inq[c].message
  {
    w' := Do(cfg, w, CallMonolith(c, w.inq[c].message.body.action, false));
  }

  lemma LastStep(cfg: Config, w: World, s: Step, t: Id) returns (run: seq<Step>)
    requires Enabled(cfg, w, s) && Reopens(cfg, w, s, t) && t in w.db.tickets && Terminal(w.db.tickets[t].status)
    ensures Run(cfg, w, run) && t in After(cfg, w, run).db.tickets && !Terminal(After(cfg, w, run).db.tickets[t].status)
  {
    hide Enabled, NextDb, Reopens;
    run := [s];
    OneStep(cfg, w, s);
    WriteOnTerminal(cfg, w, s, t);
  }

  lemma RunCons(cfg: Config, w: World, s: Step, rest: seq<Step>) returns (run: seq<Step>)
    requires Enabled(cfg, w, s) && Run(cfg, Do(cfg, w, s), rest)
    ensures Run(cfg, w, run) && After(cfg, w, run) == After(cfg, Do(cfg, w, s), rest)
  {
    hide Enabled, Do;
    run := [s] + rest;
    assert run[1..] == rest;
  }

  // The requests of the tick before the ticket's fail, and then its own goes through.
  lemma {:induction false} TickReopens(cfg: Config, w: World, r: Id, i: nat, t: Id) returns (run: seq<Step>)
    requires r in w.ticks && i < |w.ticks[r]| && w.ticks[r][i].ticket == t
    requires cfg.freshReread || !w.ticks[r][i].status.CancellationRequested?
    requires t in w.db.tickets && Terminal(w.db.tickets[t].status)
    ensures Run(cfg, w, run) && t in After(cfg, w, run).db.tickets && !Terminal(After(cfg, w, run).db.tickets[t].status)
    decreases i
  {
    hide Do, NextDb, FindStuck, Lookup, FetchPending;
    if i == 0 {
      run := LastStep(cfg, w, TickNext(r, ""), t);
    } else {
      var w1 := SkipOne(cfg, w, r);
      var rest := TickReopens(cfg, w1, r, i - 1, t);
      run := RunCons(cfg, w, TickSkip(r), rest);
    }
  }

  lemma SkipOne(cfg: Config, w: World, r: Id) returns (w': World)
    requires r in w.ticks && w.ticks[r] != []
    ensures Enabled(cfg, w, TickSkip(r)) && w' == Do(cfg, w, TickSkip(r))
    ensures w'.db == w.db && r in w'.ticks && w'.ticks[r] == w.ticks[r][1..]
  {
    w' := Do(cfg, w, TickSkip(r));
  }
}
