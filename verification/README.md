# The ticket lifecycle protocol

A bet is a *ticket*. It is created once per idempotency key, sent to a risk provider, recommended
for acceptance or refusal, settled by a monolith, and confirmed or declined at the provider; when
anything gets stuck, its cancellation is requested. Five processes do this: the ticket API, the
outbox producer, the provider gateway, the provider consumer and the reconciler. They share one
database (tickets, a transactional outbox, a deduplicating inbox) and an at-least-once broker. Any
of them can crash between two commits, frames can be repeated, reordered and dead-lettered, and the
monolith can fail. This project models that protocol and proves what every interleaving keeps.

## How it is modelled

* `Domain` and `Store` hold the rows and messages, and every committed transaction as a function on
  the database.
* `System` is the labelled transition system. A `World` holds the database, the live
  `create_ticket` calls, the live `send_batch` transactions, the frames of both queues with the
  handler each is with, the frames the provider has issued, and the live reconciler ticks. A step
  is one committed transaction or one external effect. `Enabled` says when it can happen; the next
  state is given by one function per part of the world (`NextDb`, `NextOutq`, ...). The last five
  fields of `World` are history and enable nothing.
* `apply_recommendation` is split at its commits: claim and first status change, monolith call, and
  second transaction or cancellation request. A crash (`InReturn`, `OutReturn`, `AbortBatch`,
  `TickStop`) may fall between any two steps, and a frame that is returned too often is
  dead-lettered.
* `Effects` says of every step, in terms of the tables and frames alone, when it can happen and
  what it writes. Statuses, messages and columns are spelled out there, so that it is a second
  account of the steps.
* `Invariants` is one inductive invariant. `Preservation`, `Statuses`, `EvidenceKept` and
  `OutboxTable` prove its parts, `Safety` puts them together, and `Theorems`, `Runs`, `Finality`,
  `Recovery` and `Reopening` draw the conclusions. `History` and `Chronicle` state theirs over the
  steps of a run, without the history fields.
* `Services`, `Producer`, `Gateway` and `Reconciler` are the services as classes whose methods
  change their tables step by step. Each method is proved equal to the transaction functions that
  the system's steps use; `CreateIsTheSteps`, `HandleIsTheSteps`, `BatchIsTheSteps` and
  `RequestIsTheStep` make the connection explicit. A `Session` has a committed store, an open draft
  and an identity map. A call to the monolith returns, raises its own error, or raises anything else.
* `Consumer` and `Starvation` treat a single consumer and a single producer.

### Assumptions

* One step counter serves as the clock and as the supply of uuid4 values, so an id is never drawn
  twice, and newer outbox rows sort after older ones. Outside `System`, ids and times are
  parameters.
* The second locked read of a session (`backend/services/ticket.py:153`) is a parameter,
  `freshReread`. Sessions keep their objects after a commit (`backend/db/session.py:33-37`) and the
  locked read does not ask for them to be refreshed (`backend/db/repositories/ticket.py:26-30`), so
  `freshReread == false` is what the code says. Everything is proved for both readings;
  `TerminalStability` leaves out settlements under the stale one, and `FirstVerdictWins` says exactly
  what the stale one costs.
* The provider answers as its mock does, one reply for each acceptance of a TICKET or
  REQUEST_CANCELLATION frame, with any action, in any order; it may hand an issued frame over any
  number of times, or never. The monolith answers as it likes.
* A broker queue holds ready, unacknowledged, acknowledged and dead frames, in no order; a frame
  that goes back counts as one delivery used.
* The first commit of a reconciler tick (`backend/services/ticket.py:218`) releases the row locks
  of the whole batch. The query and the first request that goes through are therefore one step, and
  the remaining requests are steps of their own that others can get between.
* The reconciler's query skips rows that other transactions hold (SKIP LOCKED). Which rows these are
  is left open: any set of tickets may be held when a tick starts.
* A settle call is a CallMonolith step however it ends. A handler that gets an exception other than
  MonolithError from it, or dies before it sees the answer, is that step followed by InReturn; a bare
  InReturn is a handler that died before the call. `AtMostOnce` therefore counts every call made.
* `request_cancellation` is one step: nothing is committed before its monolith call, and a call that
  fails is no step, InReturn or TickSkip. While the call runs the ticket's row is locked, and in the
  first request of a tick all rows of its batch. Such a call is taken to end; one that hung for ever
  would keep the reconciler from these tickets.
* A bet's stake is the value the column holds, which the table's constraint requires to be positive.

### Where the code and its documentation differ

The documented state machine requests a cancellation for non-terminal tickets only, and shows
terminal statuses as final. `request_cancellation` has no such check, and the second locked read can
be stale. `Runs.ReopenedExactlyBy` says exactly which steps take a ticket out of a terminal status,
`Finality.FinalExactlyWhen` exactly when such a status is final for good, and
`Runs.FirstVerdictWins` exactly when a verdict is safe from all but cancellation. `Reopening` has
a run for each way: `LateFailureReopens` and `TickReopens` with either read, `StaleReadReopens` with
the stale one, and `VerdictOverruled`, in which a ticket shows one verdict and later the opposite one
without any cancellation.

## Model

| member | source | states |
|---|---|---|
| Safety.InvReachable | backend/services/ticket.py:71-227 | the invariant holds in every world that any interleaving of the processes, with any crashes and any outcome of publish, send and monolith call, can reach |
| Recovery.Recoverability | backend/workers/reconciler/worker.py:52-75 | from every reachable world, after any crashes, duplicates, dead-letterings, FAILED rows or rejected frames, every ticket has a finite fault-free continuation to a terminal status, even if all handlers caught between their two transactions hang there (holding no row lock) |
| Recovery.HandlersHang | backend/workers/provider_consumer/worker.py:80-86 | such a continuation leaves every handler in flight exactly where it is |
| Recovery.PublishRow | backend/services/outbox.py:21-54 | a pending row that no live batch holds gets published by fault-free batches, however many older rows are pending |
| Recovery.Reconcile | backend/db/repositories/ticket.py:37-53 | oldest-first ticks reach every stuck ticket, whatever its status, and leave a pending REQUEST_CANCELLATION row for it |
| Theorems.Causality | backend/services/ticket.py:128-166 | CONFIRMED (DECLINED) only at the end of this chain, in this order: an ACCEPT (DECLINE) recommendation claimed, the monolith asked for that action and accepting it, its CONFIRM (DECLINE) row committed, that row published, that very frame accepted by the provider |
| Chronicle.VerdictHasItsStory | backend/services/ticket.py:115-166 | the same told by the run itself: before a ticket shows a verdict, one handler has taken the steps claim, call for this action answered ok, and settlement, a batch has then published a copy of the acknowledgement of this action, and the provider has then accepted that copy |
| Theorems.AcknowledgementsGrounded | backend/services/ticket.py:139-166 | behind every CONFIRM or DECLINE, as an outbox row or as a frame in any queue, at the provider or dead-lettered, stands its claimed recommendation, then the monolith's ok to a call that asked ACCEPT or DECLINE accordingly, then the row |
| Theorems.StatusCarriesEvidence | backend/services/ticket.py:133-227 | each status comes with its proof: the accepted TICKET frame, the claimed recommendation the row quotes, the acknowledgement row with the claimed and accepted recommendation behind it, the request row whose reason the ticket shows, the accepted request and its claimed answer; EXPIRED has none |
| Theorems.NoConflictingVerdicts | backend/services/ticket.py:266-278 | if all recommendations issued for a ticket agree, the opposite acknowledgement is in no outbox row and in no frame anywhere, and no status shows it |
| Theorems.IdempotentCreation | backend/services/ticket.py:71-110 | under any interleaving of create_ticket calls a key has one ticket, every returning call gets it, at most one reports created, and then with its own bet; only a call whose stake the table refuses re-raises |
| Theorems.OneTicketIdentity | backend/services/ticket.py:90-99 | a ticket has exactly one TICKET row, with its bet, and every TICKET frame for it is that row's message |
| Theorems.NothingRewritten | backend/db/repositories/outbox.py:46-76 | along every run, outbox messages, keys and bets of tickets, claims and issued frames are never changed or lost |
| Theorems.OutboxConservation | backend/db/repositories/outbox.py:46-76 | each event is PENDING with fewer than 3 attempts, FAILED with 3, or PUBLISHED with at most 2 and a frame the broker took; live batches hold disjoint rows |
| Theorems.OutboxSettled | backend/db/repositories/outbox.py:60-76 | no step changes a PUBLISHED or FAILED row, and a step adds at most one attempt |
| Theorems.ExactDuplicates | backend/services/outbox.py:22-54 | frames the broker took for an event = 1 if PUBLISHED + rolled-back batches that had published it + 1 if a live batch has + publishes that raised although taken |
| History.DuplicatesCounted | backend/services/outbox.py:22-54 | the same with the rolled-back batches and the raising publishes counted over the steps of the run |
| OutboxTable.FetchSelects | backend/db/repositories/outbox.py:34-44 | the selection is in table order, pending and unlocked, and leaves out an available row only when it is full of older ones |
| Runs.AtMostOnce | backend/services/ticket.py:133-166 | in every run a recommendation causes at most one settle call and at most one acknowledgement row, no row without the call, and no call without a durable claim |
| Runs.Ledger | backend/services/ticket.py:136-166 | claimed recommendations of a ticket = acknowledgement rows + monolith failures + second transactions skipped + handlers in flight + handlers that crashed in between |
| Runs.Projection | backend/workers/provider_gateway/worker.py:112-123 | the statuses of a ticket along any run are a path of the automaton `Edge`; NEW is never re-entered, SENT_TO_PROVIDER at most once and never after a recommendation or request, EXPIRED never |
| Runs.TerminalStability | backend/services/ticket.py:121-126 | with the fresh second read, a step that does not cancel a terminal ticket leaves its row unchanged |
| Runs.CancelsExactly | backend/services/ticket.py:202-227 | the steps that the theorems about terminal tickets set apart as cancelling are exactly those that queue a REQUEST_CANCELLATION for the ticket or make it CANCELLED |
| Runs.FirstVerdictWins | backend/services/ticket.py:153-158 | a terminal ticket keeps its row along every run that never cancels it if and only if the second read is fresh, or no handler of the ticket waits for the monolith or has an ok answer still to settle |
| Runs.SecondTransactionOnTerminal | backend/services/ticket.py:153-166 | on a terminal ticket the second transaction does nothing if and only if its read is fresh; otherwise it settles the ticket and queues an acknowledgement |
| Runs.ReopenedExactlyBy | backend/services/ticket.py:186-218 | a step takes a ticket out of a terminal status if and only if it is a late monolith failure, a reconciler request of a session that has not loaded CANCELLATION_REQUESTED, or a stale second transaction |
| Finality.FinalExactlyWhen | backend/services/ticket.py:186-218 | a terminal ticket stays terminal along every run if and only if no handler of it still has a settlement to ask for, a failure to report or (stale read) an ok answer to record, and no live tick has loaded it (unless, with the stale read, as CANCELLATION_REQUESTED) |
| Runs.TimesKept | backend/workers/provider_gateway/worker.py:119-123 | the first confirmation time is kept for good, an applied cancellation keeps the time of the request, and a row that changes gets a new updated_at |
| Runs.DeliveryLimit | backend/transport/broker.py:24-29 | no copy's count of returns passes the delivery limit, only a copy at the limit is dead-lettered, and dead or acknowledged frames are final |
| History.DeadLettersExactly | backend/transport/broker.py:24-29 | counted over the steps of every run, a frame is returned at most deliveryLimit + 1 times, and is dead-lettered exactly when it has been returned that often |
| History.OutRetriesEnd | backend/transport/broker.py:24-29 | a frame whose send keeps failing is in the dead-letter queue after that many deliveries |
| History.InRetriesEnd | backend/transport/broker.py:24-29 | so is a frame whose handling keeps failing |
| History.StuckMeansOld | backend/db/repositories/ticket.py:42-53 | along every run, a tick takes a ticket only when more than the stuck threshold has passed since the last step that inserted it or changed its row |
| History.RecordedIsNotNew | backend/workers/provider_gateway/worker.py:112-123 | in every reachable world, a ticket whose accepted TICKET frame has been recorded is not NEW |
| Effects.InsertWrites | backend/services/ticket.py:80-99 | an INSERT that no constraint refuses adds a NEW ticket stamped now with every optional column empty, and its fresh pending TICKET row, and nothing else |
| Effects.HandledExactlyWhen | backend/services/ticket.py:115-137 | a frame is claimed exactly when its id is new, its ticket known, and it is a recommendation for a ticket in none of the four terminal statuses or a CANCELLATION_APPLIED for one that is not CANCELLED |
| Effects.HandlingWrites | backend/services/ticket.py:128-137 | the first commit of a handling shows the action and reason of its recommendation, or the cancellation, with its times and its claim, and touches nothing else |
| Effects.SettlingWrites | backend/services/ticket.py:153-166 | when the second transaction acts under either reading, and the one acknowledgement row and the columns it then writes |
| Effects.RecordingWrites | backend/workers/provider_gateway/worker.py:96-123 | a recorded TICKET frame makes a NEW ticket SENT_TO_PROVIDER and leaves any other alone, a verdict is written unless the ticket is terminal, and other frames write nothing |
| Effects.CommitWrites | backend/db/repositories/outbox.py:46-76 | a commit leaves each event PUBLISHED without error, or with one more attempt and its error, FAILED at the third, or untouched |
| Effects.FetchesWhen | backend/db/repositories/outbox.py:34-44 | a batch can be taken exactly when there is a pending event that no live batch holds |
| Effects.TickStartsWhen | backend/workers/reconciler/worker.py:52-75 | which batches a tick can start with, whatever rows others hold and whichever first requests fail |
| Effects.CrashAnywhere | backend/workers/provider_consumer/worker.py:62-86 | a handler, a batch or a tick can die between any two of its steps |
| Reopening.DocumentedWay | backend/constants.py:16-36 | with either read there is a run that cancels nothing and takes a ticket from NEW through SENT_TO_PROVIDER, RECOMMENDED_CONFIRM (or _DECLINE) and SETTLED to CONFIRMED (DECLINED) |
| Reopening.VerdictReachable | backend/workers/provider_gateway/worker.py:112-123 | with either read, CONFIRMED and DECLINED are both reached |
| Reopening.VerdictOverruled | backend/services/ticket.py:153-166 | with the stale read there is a run in which no step requests or applies a cancellation of any ticket, and yet one verdict of a ticket replaces another: two handlers get past their first transaction, and each settles |
| Reopening.StaleReadReopens | backend/services/ticket.py:153-158 | with the stale read there is a run in which a settlement reopens a confirmed or declined ticket |
| Reopening.LateFailureReopens | backend/services/ticket.py:145-151 | with either read there is a run in which a late monolith failure moves a confirmed or declined ticket to CANCELLATION_REQUESTED |
| Reopening.TickReopens | backend/workers/reconciler/worker.py:59-71 | with either read, and batches of more than one, there is a run in which a tick does the same to a ticket that got its verdict after the tick's query |
| Consumer.DuplicateInsensitivity | backend/workers/provider_consumer/worker.py:62-86 | for any database and any sequence of frames with repeats, whatever the monolith returns or raises, the consumer leaves tickets, outbox and inbox exactly as without the later repeats |
| Consumer.FirstsKeepsEachOnce | backend/workers/provider_consumer/worker.py:70-78 | dropping the later repeats leaves every message id exactly once |
| Consumer.InertStays | backend/db/repositories/inbox.py:17-41 | a frame the consumer has nothing to do for stays so whatever frame comes next, claimed or not |
| Consumer.UnclaimedLeavesNoTrace | backend/services/ticket.py:115-126 | handling that changes anything claims the frame; frames for unknown tickets, recommendations for terminal and cancellations of cancelled ones leave no trace |
| Starvation.NoStarvation | backend/services/outbox.py:21-54 | a pending event with k older pending ones has left PENDING after floor(3k/L) + 3 batches, whatever arrives later and whichever publishes raise |
| Starvation.OneRound | backend/db/repositories/outbox.py:60-76 | in each batch a pending event uses one of its own attempts, or sees L attempts of its elders used |
| Reconciler.BatchSize | backend/db/repositories/ticket.py:37-53 | the query's answer is min(L, S) distinct stuck tickets |
| Reconciler.ReasonNamesStatus | backend/workers/reconciler/worker.py:60-68 | the reason a tick gives names the status the ticket was stuck in, and no other |
| Reconciler.TickEffect | backend/workers/reconciler/worker.py:59-71 | a tick moves exactly its batch to CANCELLATION_REQUESTED, adds exactly one request row each, in order, with the status it was stuck in as reason, and leaves other tickets and the inbox alone |
| Reconciler.TickDrains | backend/services/ticket.py:197-218 | a tick takes exactly the tickets whose request goes through out of the stuck set of a fixed threshold; these are its whole batch unless the monolith raises something other than its own error |
| Reconciler.DrainedInCeiling | backend/workers/reconciler/worker.py:52-75 | when every request goes through, the stuck set is empty after n ticks if and only if n >= ceil(S/L) |
| Reconciler.ReconcilerWorker.RecoverStuckTickets | backend/workers/reconciler/worker.py:52-75 | the loop asks the monolith once for each ticket of the query, goes on past exceptions, and amounts to the tick `TickEffect` is about over the others |
| Reconciler.RequestIsTheStep | backend/workers/reconciler/worker.py:65-68 | a request of that tick is the system's TickStart or TickNext |
| Services.ReadingsDiffer | backend/db/repositories/ticket.py:26-30 | the fresh and the stale locked read lead to different tables if and only if the monolith has processed the recommendation and the ticket has become terminal meanwhile |
| Services.Session.ChangeStatus | backend/services/ticket.py:229-246 | the status column is written only when it differs from the loaded one |
| Services.ClaimedForGood | backend/db/repositories/inbox.py:17-41 | once the handling of a frame has changed anything, no frame with its id changes anything again, whatever is committed in between |
| Services.TicketService.CreateTicket | backend/services/ticket.py:71-110 | existing key, INSERT refused by the unique key or the stake check, re-raise exactly when the key is not found then, or a new ticket with its TICKET row |
| Services.CreateIsTheSteps | backend/services/ticket.py:76-110 | CreateLookup, CreateInsert and CreateReread, with anything the others commit in between, end as that method can, in its table and its result |
| Services.TicketService.ApplyRecommendation | backend/services/ticket.py:115-166 | no commit and no call for unknown or terminal tickets; otherwise one settle call between two transactions with anything others commit in between, and an exception escapes exactly when a call raises something other than MonolithError |
| Services.TicketService.RequestCancellation | backend/services/ticket.py:186-218 | the monolith is called once; the request row and status are committed if it returns or raises MonolithError, and nothing is if it raises anything else |
| Services.TicketService.MarkCancellationApplied | backend/services/ticket.py:220-227 | commits CANCELLED, keeping an earlier cancellation time, unless unknown or already cancelled |
| Services.HandleFrame | backend/workers/provider_consumer/worker.py:48-86 | the claim is committed with the first commit of the service and given up when there is none, also when an exception escapes |
| Services.ClaimsExactlyWhenDue | backend/workers/provider_consumer/worker.py:62-86 | the whole handling, with anything others commit in between, claims a frame exactly under the condition of `HandledExactlyWhen`, and otherwise changes nothing and asks nothing |
| Services.AsksWhatTheRowShows | backend/services/ticket.py:136-151 | the monolith is asked once to settle this ticket with the action the committed row shows, once more for the cancellation exactly after its own error, and any other exception of either call escapes |
| Services.AloneIsHandle | backend/workers/provider_consumer/worker.py:62-86 | with nobody else committing, that method is the consumer of `DuplicateInsensitivity` |
| Services.HandleIsTheSteps | backend/workers/provider_consumer/worker.py:62-86 | the halves of that method are the system's ConsumerHandle and ConsumerSettle or ConsumerCancel, or InReturn after a call whose exception escapes |
| Producer.OutboxService.SendBatch | backend/services/outbox.py:21-62 | publishes the fetched rows in order past raising ones, marks each by its own outcome, and returns how many went through |
| Producer.OutboxService.MarkPublishedMany | backend/db/repositories/outbox.py:46-58 | exactly the given rows become PUBLISHED |
| Producer.RetiredAtThird | backend/db/repositories/outbox.py:60-76 | failing publishes use up one attempt each, the row is FAILED from exactly the third on, shows the last error, and keeps its message |
| Producer.Partition | backend/services/outbox.py:28-49 | every fetched row ends in exactly one of the published and failed lists, by its outcome |
| Producer.BatchIsTheSteps | backend/services/outbox.py:21-54 | from every reachable world with a row to take, a Fetch, one Publish for each row in order and a CommitBatch are a run; it leaves the table of `SendBatch` and adds to the queue the frames that method hands to the broker, in order |
| Gateway.ProviderGatewayWorker.SendToProvider | backend/workers/provider_gateway/worker.py:52-68 | transport failure returns the frame, a rejection acks it without a trace, an acceptance writes the status in its own transaction |
| Gateway.ProviderGatewayWorker.HandleMessageSuccessAck | backend/workers/provider_gateway/worker.py:96-123 | the status write is the system's, and is given up for unknown and terminal tickets and for TICKET acks that come late |
| Gateway.ProviderGatewayWorker.ReceiveFromProvider | backend/workers/provider_gateway/worker.py:70-94 | the taken frames are what the stream yields up to the first raising publish; the broker gets exactly these in order, all but possibly the last; acked are exactly the frames whose publish returned and whose ack went through, each after it was forwarded |
| Gateway.MockProviderClient.Send | backend/workers/provider_gateway/client.py:91-107 | a reply is scheduled only for an accepted frame of the two answered types, and once |
| Gateway.RepliesConserved | backend/workers/provider_gateway/client.py:91-155 | in every history of sends, deliveries and stops, each acceptance of a TICKET or REQUEST_CANCELLATION frame has one task waiting, one reply, or a task that a stop cancelled, and the queue receives these replies only |
| Gateway.StopEndsTheStream | backend/workers/provider_gateway/client.py:70-89 | whatever is sent or delivered after a stop, the reader hears exactly the frames queued before it |

## Left out

- Consumer.DuplicateInsensitivity: about the consumer with no other process between its steps; with others, repeats are covered by Runs.AtMostOnce and Runs.Ledger.
- Starvation.NoStarvation: one producer whose batches commit; a crashing producer can repeat a batch for ever.
- Services.TicketService.RequestCancellation: writes `failure_reason` always; the session leaves the column alone when the new text equals the one it has loaded, which differs only if another transaction has changed it since, and then the row keeps the reason of that other request.
- Reconciler.DrainedInCeiling: a fixed threshold, no competing writer, because the first commit of a tick gives up the locks on the rest of its batch, and no exception but the monolith's own, because a ticket whose call keeps raising anything else stays stuck.
- Reconciler.ReconcilerWorker.RecoverStuckTickets: the database's answer to the stuck query is a parameter that satisfies `OldestStuck`; Recovery.SelectOldest shows that there always is one.
- Gateway.ProviderGatewayWorker.ReceiveFromProvider: ends where the loop would wait for the next frame.
- `mark_provider_ack_delivered` is never called and `_handle_message_rejection` does nothing, so neither is a step.
- `expires_at` of a recommendation is never read and is not part of the message; event type and routing key are constants of the outbox rows and are not columns here.
- Frames without a ticket id: every message the services and the mock build carries one, so the envelope's optional field is a plain one.
- Liveness under a scheduler: Recovery.Recoverability gives a continuation, not a fairness argument.
- Wall-clock time beyond the order of events, the stuck threshold and updated_at.
- HTTP routes, API keys, JSON validation and encoding, metrics, probes, logging, process start-up and shutdown, migrations, inbox retention and count_by_status.
