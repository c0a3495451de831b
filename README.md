# Transaction workflow of the financial transaction processor

This project models the transaction workflow of `TransactionService`. It has
three parts:

- **The status state machine.** A fixed predecessor table is keyed by the
  requested status. A move is legal only when the record's current status is
  listed for that target. NEW, and every string that is not a key of the
  table, is never a legal target.
- **The submission saga (`processTransaction`).** The service creates the
  record, checks that it has an id, publishes it to the
  `start-transactions-credit-card` topic, and advances it to IN_PROGRESS. Any
  failure after a create that gave back a document with an id leads to one
  attempt to move the record to PENDING_RETRY. The outcome of that attempt is
  dropped. The first failure is rethrown, wrapped.
- **The result handler (`eachMessage`).** A decoded `{result, transaction}`
  message with result OK, FAILED or FAILED_INCONSISTENCE is applied through the
  guarded update. Any other result is an "Unexpected result type" error. Every
  error is caught at the message boundary.

The modules are:

- `Outcomes` holds the error kinds and the option and result values.
- `Statuses` holds the table, the legality check, and an order (`Rank`) that
  every legal move climbs.
- `Records` holds the transaction record and the document collection. The
  collection's operations are `create`, `findOne` and `updateOne`.
- `Workflow` describes the three operations as functions of the
  collaborators' state, over any number of steps.
- `Service` holds the classes `TransactionStore`, `Producer` and
  `TransactionService`. Their methods update the collection and the
  producer's message log in place. Each method is proved to produce exactly
  the result and the state that the matching `Workflow` or `Records` function
  describes, or, for the send, the one message it appends.

The collection is a sequence of documents, not a map from id to record. The
schema declares `id` as required but not unique
(src/transaction/transaction.schema.ts:39-40). A second submission with the
same id therefore adds a second document, and `findOne` / `updateOne`
filtered by `{id}` act on the first one. That is how the model treats them:
the first document in natural order, taken to be insertion order. A
resubmission can never overwrite an older record or reset its status
(`Workflow.ProcessKeepsEarlierDocs`).

Every foreign step takes a flag saying whether it fails on this call
(`StoreFaults`, `CreateOutcome`, `Env`):

- the store's `create`, which stores the record and returns it, throws, or
  returns no document;
- the producer's `send`;
- each `findOne` and `updateOne`.

The message channel appears in two forms. The producer's acknowledged
messages are `Producer.sent`. Deliveries to the consumer are arguments: one
message at a time for `EachMessage`, or a sequence for `Workflow.Deliver`.

src/types/results.ts is not part of this model. The six statuses are taken to
be the strings NEW, IN_PROGRESS, PENDING_RETRY, OK, FAILED and
FAILED_INCONSISTENCE. Nothing depends on the spelling, only on the six being
distinct.

Some behaviours of the code that are easy to miss:

- The record is stored with the `status` the caller supplied
  (src/dto/transaction.dto.ts:12, transaction.service.ts:82). The service does
  not set NEW. A submission succeeds only if the first document with that id
  is in NEW or PENDING_RETRY (`Workflow.Process`).
- A failure of the IN_PROGRESS advance is compensated like a publish failure.
  The `.catch` at transaction.service.ts:116-124 rethrows into the outer
  catch, which attempts PENDING_RETRY.
- The error propagated after a failed publish carries no broker error. The
  producer's failure is reported with `observer.error()` and no argument
  (transaction.service.ts:170), so the wrapped cause is just
  `PublishFailure`.
- Every submission failure, including a failed create, is rethrown as one
  wrapped error (transaction.service.ts:149). The model keeps the kind of the
  first failure inside `Wrapped`.

## Model

| member | source | states |
|---|---|---|
| `Statuses.Predecessors` | src/transaction/transaction.service.ts:179-195 | the table has exactly five keys (NEW is not one); for each key, a status is listed exactly when (status, key) is one of the nine legal moves spelled out edge by edge |
| `Statuses.CanUpdate` | src/transaction/transaction.service.ts:197-203 | a move is allowed exactly when it is one of the nine legal moves; a target that is not a key of the table is never allowed (fails closed); every allowed move changes the status and climbs the order `Rank` |
| `Statuses.EndPoints` | src/transaction/transaction.service.ts:179-195 | nothing leaves FAILED_INCONSISTENCE and nothing moves into NEW |
| `Records.FirstIndex` | src/transaction/transaction.service.ts:231-234 | the position `findOne({id})` selects: a document with that id, with none before it, and nothing exactly when no document has that id |
| `Records.FindStatus` | src/transaction/transaction.service.ts:230-239 | the status of the first document with that id; nothing exactly when no document has that id |
| `Records.Insert` | src/transaction/transaction.service.ts:82 | `create` appends the record as given; the status then seen for its id is the older document's when one exists, else the record's own |
| `Records.SetStatus` | src/transaction/transaction.service.ts:206-209 | `updateOne` changes only the status field, only of the first document with that id; every other document and field is unchanged; afterwards that id reads the new status |
| `Workflow.Update` | src/transaction/transaction.service.ts:177-226 | the update succeeds exactly when the lookup works, the id exists, the move is legal and the write works; a lookup failure or a missing id ("not found") is reported before the legality check; an illegal move is a "Workflow failure" naming both statuses; on every failure the store is unchanged; on success exactly the first matching document's status is set |
| `Workflow.Compensate` | src/transaction/transaction.service.ts:125-149 | whatever the compensating update does, the error thrown is the first failure, wrapped; nothing is published; exactly one PENDING_RETRY update is requested; the store is unchanged or the first matching document moved legally to PENDING_RETRY |
| `Workflow.Process` | src/transaction/transaction.service.ts:78-151 | create failure or no usable id: nothing published, no status update, wrapped error; publish failure: exactly one PENDING_RETRY attempt and the publish failure is thrown; after a publish, exactly one message carrying the submitted transaction; advance failure: exactly one PENDING_RETRY attempt and the advance's error is thrown; success exactly when all four steps pass; then no compensation, the store is the old documents plus the record as given, with only the first document with its id moved to IN_PROGRESS, and that document was in NEW or PENDING_RETRY |
| `Workflow.Handle` | src/transaction/transaction.service.ts:44-72 | an undecodable message and a result other than OK, FAILED and FAILED_INCONSISTENCE are caught and change nothing; those three are applied through the guarded update, whose error is caught; any caught error leaves the store unchanged; nothing propagates |
| `Workflow.UpdateStep` | src/transaction/transaction.service.ts:197-209 | one status update leaves every document other than the first one with the id unchanged; a document that changes, changes only by a legal move of its status to the requested one |
| `Workflow.HandleStep` | src/transaction/transaction.service.ts:56-65 | handling one message leaves every document other than the first one with the message's id unchanged (all of them for an undecodable message); a document that changes, changes only its status, by a legal move to OK, FAILED or FAILED_INCONSISTENCE |
| `Workflow.DeliverNeverRegresses` | src/transaction/transaction.service.ts:44-72 | over any sequence of deliveries, the consumer never adds or removes documents and never touches a field other than the status; a changed status is one of the three results and strictly higher in `Rank`, so no status is entered twice |
| `Workflow.FailedInconsistenceIsFinal` | src/transaction/transaction.service.ts:190-194 | a record in FAILED_INCONSISTENCE stays unchanged whatever is delivered |
| `Workflow.DeliverAppend` | src/transaction/transaction.service.ts:44 | deliveries are handled one after another: handling `a` and then `b` is handling `a + b` |
| `Workflow.DeliverSkipsRejected` | src/transaction/transaction.service.ts:66-71 | a message whose handling fails is as if it had never been delivered; later messages are handled as usual |
| `Workflow.ProcessKeepsEarlierDocs` | src/transaction/transaction.service.ts:113-144 | a submission adds at most its own document; of the existing documents only the first one with the submitted id can change, and only its status, by a legal, upward move to IN_PROGRESS or PENDING_RETRY |
| `Service.TransactionStore.Create` | src/transaction/transaction.service.ts:82 | `create` throws and stores nothing, returns no document and stores nothing, or appends the record and returns it |
| `Service.TransactionStore.FindOne` | src/transaction/transaction.service.ts:231-234 | `findOne` throws, or returns the status of the first document with that id, and nothing exactly when there is none |
| `Service.TransactionStore.UpdateOne` | src/transaction/transaction.service.ts:206-209 | `updateOne` throws and writes nothing, or sets the first matching document's status |
| `Service.Producer.Send` | src/transaction/transaction.service.ts:160-171 | an acknowledged send appends exactly one message to the topic; a failed one appends nothing and fails with the publish failure |
| `Service.TransactionService.constructor` | src/transaction/transaction.service.ts:16-20 | the service is built over the given store and producer, with no update requested yet |
| `Service.TransactionService.GetTransactionStatus` | src/transaction/transaction.service.ts:230-239 | a store error is passed on; otherwise "not found" exactly when no document has the id, else the first matching document's status |
| `Service.TransactionService.UpdateTransactionStatus` | src/transaction/transaction.service.ts:177-226 | result and new store are exactly those of `Workflow.Update`; the request is logged once |
| `Service.TransactionService.SendTransaction` | src/transaction/transaction.service.ts:155-173 | publishing succeeds and logs exactly the one message, or fails with the publish failure and logs nothing |
| `Service.TransactionService.ProcessTransaction` | src/transaction/transaction.service.ts:78-151 | result, store, published messages and requested updates are exactly those of `Workflow.Process` |
| `Service.TransactionService.EachMessage` | src/transaction/transaction.service.ts:44-72 | caught error and new store are exactly those of `Workflow.Handle`; an update is requested only for the three result statuses |

## Left out

- Kafka wiring, the consumer's start and stop, and the subscription
  (src/kafka/kafka.module.ts, transaction.service.ts:24-39, 243-245). This is
  broker I/O. Deliveries are arguments, and `Workflow.Deliver` stands for the
  runtime calling the handler once per message in order.
- The Observable / `lastValueFrom` / `defaultIfEmpty` wrapping of the send
  (transaction.service.ts:91-111, 159-172). The send is one step that is
  acknowledged or fails. The `EmptyError` branch only changes a log line.
- A send that fails is taken not to have reached the topic (`Producer.sent`
  holds acknowledged messages only). An `updateOne` that throws is taken not
  to have written.
- Mongoose and MongoDB specifics, including schema validation. A record that
  a validator would reject is covered by the create that throws. The order of
  `findOne` / `updateOne` matches is taken to be insertion order.
- How the message value is read and parsed (`toString`, `JSON.parse`,
  transaction.service.ts:46-47). The result is in the model only after
  decoding: `None` when reading or parsing fails, or when the message has no
  transaction with a string id. The source behaves differently for an id
  that is not a string: a numeric `transaction.id` reaches `findOne({id})`
  and `updateOne({id})` (transaction.service.ts:206, 231), where the schema's
  string path casts it (5 becomes "5"), so the source applies the update. The
  model drops such a message. A result that is not a string is modelled as
  some string other than the three result statuses, since `switch` compares
  with `===`. The decoded `error` field is only logged and is not modelled.
- Statuses.CanUpdate: a requested status that names a member inherited by
  every object (such as `constructor` or `toString`) makes the lookup at
  transaction.service.ts:197 raise a TypeError instead of the "Workflow
  failure" error. The model reports every non-key as a workflow failure. In
  both cases nothing is written.
- All `console.log` / `console.error` output. The error caught by the handler
  is returned instead of logged.
- The HTTP controller (transaction.controller.ts), which turns any error into
  a 500 response. The NestJS modules (app.module.ts, transaction.module.ts) are
  dependency-injection wiring. src/types/topics.ts only names topics; the one
  topic used is a constant here.
- Concurrency: submissions and result handling on the same id do not
  interleave. Every operation runs to completion before the next starts.
- `amount` is a `real`. It is carried and never computed with, so IEEE
  double rounding plays no part.
