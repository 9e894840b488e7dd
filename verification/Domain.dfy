/** The vocabulary of the ticket protocol: statuses, messages and table rows. */
module Domain {

  // uuid4 values and timestamps. Both are natural numbers here: a world hands out
  // the number of the current step, so an id is never drawn twice.
  type Id = nat
  type Time = nat

  datatype Option<+T> = None | Some(value: T) {
    function GetOr(default: T): T {
      if Some? then value else default
    }
  }

  datatype Action = Accept | Decline

  datatype Status =
    | New
    | SentToProvider
    | RecommendedConfirm
    | RecommendedDecline
    | Settled
    | Confirmed
    | Declined
    | CancellationRequested
    | Cancelled
    | Expired

  predicate Terminal(s: Status) {
    s.Confirmed? || s.Declined? || s.Cancelled? || s.Expired?
  }

  datatype Currency = RUB | USD | EUR

  datatype Selection = Selection(event: string, market: string, odds: real)

  // The stake is what the column holds.
  datatype Bet = Bet(user: Id, stake: real, currency: Currency, selections: seq<Selection>)

  datatype Body =
    | TicketBody(bet: Bet, placedAt: Time)
    | Recommendation(action: Action, reason: Option<string>)
    | ConfirmRecommendation
    | DeclineRecommendation
    | RequestCancellation(why: string)
    | CancellationApplied
    | Ack(ackOf: Id)

  datatype MessageType =
    | TICKET
    | RECOMMENDATION
    | CONFIRM_RECOMMENDATION
    | DECLINE_RECOMMENDATION
    | REQUEST_CANCELLATION
    | CANCELLATION_APPLIED
    | ACK

  function TypeOf(b: Body): MessageType {
    match b
    case TicketBody(_, _) => TICKET
    case Recommendation(_, _) => RECOMMENDATION
    case ConfirmRecommendation => CONFIRM_RECOMMENDATION
    case DeclineRecommendation => DECLINE_RECOMMENDATION
    case RequestCancellation(_) => REQUEST_CANCELLATION
    case CancellationApplied => CANCELLATION_APPLIED
    case Ack(_) => ACK
  }

  datatype Message = Message(id: Id, ticket: Id, body: Body)

  // The status a recommendation leads to, the verdict it ends in, and the
  // acknowledgement that tells the provider.
  function Recommended(a: Action): Status {
    if a.Accept? then RecommendedConfirm else RecommendedDecline
  }

  function Verdict(a: Action): Status {
    if a.Accept? then Confirmed else Declined
  }

  function AckBody(a: Action): Body {
    if a.Accept? then ConfirmRecommendation else DeclineRecommendation
  }

  predicate IsAck(b: Body) {
    b.ConfirmRecommendation? || b.DeclineRecommendation?
  }

  // How a call to the monolith ends: it may raise its own error, or any other.
  datatype Answer = Processed | MonolithError | OtherError

  // ----- table rows

  datatype Ticket = Ticket(
    key: string,
    bet: Bet,
    status: Status,
    recommendation: Option<Action>,
    reason: Option<string>,
    recommendedAt: Option<Time>,
    settledAt: Option<Time>,
    confirmedAt: Option<Time>,
    cancelledAt: Option<Time>,
    failureReason: Option<string>,
    updatedAt: Time)

  datatype RowStatus = Pending | Published | Failed

  // An outbox event. The table is a sequence in `created_at` order and the
  // position of a row stands for its id.
  datatype Row = Row(
    message: Message,
    status: RowStatus,
    attempts: nat,
    lastError: Option<string>,
    publishedAt: Option<Time>,
    createdAt: Time)

  // A processed provider message: the inbox row that claims a message id.
  datatype Claim = Claim(kind: MessageType, ticket: Id, processedAt: Time)

  datatype Db = Db(tickets: map<Id, Ticket>, outbox: seq<Row>, inbox: map<Id, Claim>)

  function Truncated(s: string, limit: nat): string {
    if |s| <= limit then s else s[..limit]
  }
}
