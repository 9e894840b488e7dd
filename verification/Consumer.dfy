/** The consumer on its own: repeated provider frames change nothing. */
module Consumer {
  import opened Domain
  import opened Store

  // What the outside world contributes to the handling of one message id: the times, the
  // monolith's answers to the settlement and to a cancellation, and the id of the message that
  // is queued.
  datatype Outcome = Outcome(
    claimedAt: Time, settle: Answer, cancel: Answer, why: string, queuedId: Id, queuedAt: Time)

  // One frame handled to the end, or to the first exception that escapes, with no other process
  // in between. The second locked read then finds the status the first transaction wrote,
  // whichever way it reads.
  function Handle(db: Db, m: Message, o: Outcome): Db {
    var first := FirstTransaction(db, m, o.claimedAt);
    if !StartsSettlement(db, m) then first
    else SecondTransaction(first, m, Recommended(m.body.action), o)
  }

  // What follows the monolith's answer, in a session that sees this status.
  function SecondTransaction(db: Db, m: Message, seen: Status, o: Outcome): Db
    requires m.body.Recommendation?
  {
    match o.settle
    case Processed => Settle(db, m.ticket, m.body.action, seen, o.queuedId, o.queuedAt)
    case MonolithError =>
      if o.cancel.OtherError? then db else RequestCancel(db, m.ticket, seen, o.why, o.queuedId, o.queuedAt)
    case OtherError => db
  }

  function HandleAll(db: Db, frames: seq<Message>, outcomes: Id -> Outcome): Db
    decreases frames
  {
    if frames == [] then db
    else HandleAll(Handle(db, frames[0], outcomes(frames[0].id)), frames[1..], outcomes)
  }

  // The frames without the later occurrences of a message id.
  function Firsts(frames: seq<Message>, seen: set<Id>): seq<Message> {
    if frames == [] then []
    else if frames[0].id in seen then Firsts(frames[1..], seen)
    else [frames[0]] + Firsts(frames[1..], seen + {frames[0].id})
  }

  ghost predicate SameFrames(frames: seq<Message>, history: map<Id, Message>) {
    && (forall i, j | 0 <= i < j < |frames| && frames[i].id == frames[j].id :: frames[i] == frames[j])
    && (forall i | 0 <= i < |frames| && frames[i].id in history :: history[frames[i].id] == frames[i])
  }

  // The consumer would return without a commit.
  predicate Inert(db: Db, m: Message) {
    !StartsSettlement(db, m) && !AppliesCancellation(db, m)
  }

  lemma HandledIsInert(db: Db, m: Message, o: Outcome)
    ensures Inert(Handle(db, m, o), m)
  {
  }

  // No frame makes another one matter again: claims stay, the consumer creates no tickets,
  // and on its own it never reopens a terminal one.
  lemma InertStays(db: Db, m: Message, next: Message, o: Outcome)
    requires Inert(db, m) && (next.id == m.id ==> next == m)
    ensures Inert(Handle(db, next, o), m)
  {
  }

  lemma {:induction false} RepeatsDropped(db: Db, frames: seq<Message>, history: map<Id, Message>, outcomes: Id -> Outcome)
    requires SameFrames(frames, history)
    requires forall id | id in history :: history[id].id == id && Inert(db, history[id])
    ensures HandleAll(db, frames, outcomes) == HandleAll(db, Firsts(frames, history.Keys), outcomes)
    decreases frames
  {
    if frames != [] {
      var m := frames[0];
      if m.id in history {
        RepeatsDropped(db, frames[1..], history, outcomes);
      } else {
        var o := outcomes(m.id);
        var history' := history[m.id := m];
        HandledIsInert(db, m, o);
        forall id | id in history ensures Inert(Handle(db, m, o), history[id]) {
          InertStays(db, history[id], m, o);
        }
        assert history'.Keys == history.Keys + {m.id};
        RepeatsDropped(Handle(db, m, o), frames[1..], history', outcomes);
        var rest := Firsts(frames[1..], history'.Keys);
        assert Firsts(frames, history.Keys) == [m] + rest;
        assert ([m] + rest)[1..] == rest;
      }
    }
  }

  // For any database and any sequence of provider frames with repeats, the consumer leaves
  // tickets, outbox and inbox exactly as the sequence without the later repeats does.
  lemma DuplicateInsensitivity(db: Db, frames: seq<Message>, outcomes: Id -> Outcome)
    requires forall i, j | 0 <= i < j < |frames| && frames[i].id == frames[j].id :: frames[i] == frames[j]
    ensures HandleAll(db, frames, outcomes) == HandleAll(db, Firsts(frames, {}), outcomes)
  {
    var none: map<Id, Message> := map[];
    assert none.Keys == {};
    RepeatsDropped(db, frames, none, outcomes);
  }

  function Ids(frames: seq<Message>): set<Id> {
    set i | 0 <= i < |frames| :: frames[i].id
  }

  lemma IdsCons(m: Message, rest: seq<Message>)
    ensures Ids([m] + rest) == {m.id} + Ids(rest)
  {
    var all := [m] + rest;
    assert all[0].id == m.id;
    assert forall i | 0 <= i < |rest| :: all[i + 1].id == rest[i].id;
  }

  // Firsts drops repeats and nothing else: every id that is not in `seen` is left exactly once.
  lemma {:induction false} FirstsKeepsEachOnce(frames: seq<Message>, seen: set<Id>)
    ensures Ids(Firsts(frames, seen)) == Ids(frames) - seen
    ensures |Firsts(frames, seen)| == |Ids(frames) - seen|
    decreases frames
  {
    if frames != [] {
      var m := frames[0];
      assert frames == [m] + frames[1..];
      IdsCons(m, frames[1..]);
      if m.id in seen {
        FirstsKeepsEachOnce(frames[1..], seen);
        assert Ids(frames) - seen == Ids(frames[1..]) - seen;
      } else {
        FirstsKeepsEachOnce(frames[1..], seen + {m.id});
        IdsCons(m, Firsts(frames[1..], seen + {m.id}));
        assert Ids(frames) - seen == {m.id} + (Ids(frames[1..]) - (seen + {m.id}));
      }
    }
  }

  // A frame that is not durably claimed left no trace at all: unhandled types, unknown
  // tickets, recommendations for terminal tickets, cancellations of cancelled ones.
  lemma UnclaimedLeavesNoTrace(db: Db, m: Message, o: Outcome)
    ensures Handle(db, m, o) != db ==> m.id !in db.inbox && m.id in Handle(db, m, o).inbox
    ensures m.ticket !in db.tickets ==> Handle(db, m, o) == db
    ensures m.ticket in db.tickets && m.body.Recommendation? && Terminal(db.tickets[m.ticket].status) ==> Handle(db, m, o) == db
    ensures m.ticket in db.tickets && m.body.CancellationApplied? && db.tickets[m.ticket].status.Cancelled? ==> Handle(db, m, o) == db
  {
    if !Inert(db, m) {
      assert m.id in Handle(db, m, o).inbox;
    }
  }
}
