/** The transaction service over its two collaborators: the document store
    and the message producer. Every step that can fail takes a flag that
    says whether it does; each method is proved to leave exactly the state
    the matching function of `Workflow` or `Records` describes. */
module Service {
  import opened Outcomes
  import opened Statuses
  import opened Records
  import opened Workflow

  /** The transaction collection. */
  class TransactionStore {
    var docs: seq<Transaction>

    constructor (initial: seq<Transaction>)
      ensures docs == initial
    {
      docs := initial;
    }

    /** `create(transaction)`. */
    method Create(txn: Transaction, outcome: CreateOutcome) returns (r: Result<Option<Transaction>>)
      modifies this
      ensures outcome.CreateThrows? ==> r == Failure(StoreError) && docs == old(docs)
      ensures outcome.CreateReturnsNothing? ==> r == Success(None) && docs == old(docs)
      ensures outcome.Created? ==> r == Success(Some(txn)) && docs == Insert(old(docs), txn)
    {
      match outcome
      case CreateThrows => r := Failure(StoreError);
      case CreateReturnsNothing => r := Success(None);
      case Created =>
        docs := Insert(docs, txn);
        r := Success(Some(txn));
    }

    /** `findOne({id}, 'status')`: nothing when no document has that id. */
    method FindOne(id: string, fails: bool) returns (r: Result<Option<string>>)
      ensures fails ==> r == Failure(StoreError)
      ensures !fails ==> r.Success? && (r.value.Some? <==> HasId(docs, id))
      ensures !fails && HasId(docs, id) ==> r.value.value == docs[FirstIndex(docs, id).value].status
    {
      if fails {
        r := Failure(StoreError);
      } else {
        r := Success(FindStatus(docs, id));
      }
    }

    /** `updateOne({id}, {$set: {status}})`. */
    method UpdateOne(id: string, status: string, fails: bool) returns (r: Outcome)
      modifies this
      ensures fails ==> r == Fail(StoreError) && docs == old(docs)
      ensures !fails ==> r == Pass && docs == SetStatus(old(docs), id, status)
    {
      if fails {
        r := Fail(StoreError);
      } else {
        docs := SetStatus(docs, id, status);
        r := Pass;
      }
    }
  }

  /** The message producer; `sent` holds the messages the broker acknowledged. */
  class Producer {
    var sent: seq<Message>

    constructor ()
      ensures sent == []
    {
      sent := [];
    }

    /** `send({topic, messages: [message]})`. */
    method Send(topic: string, payload: Transaction, fails: bool) returns (r: Outcome)
      modifies this
      ensures fails ==> r == Fail(PublishFailure) && sent == old(sent)
      ensures !fails ==> r == Pass && sent == old(sent) + [Message(topic, payload)]
    {
      if fails {
        r := Fail(PublishFailure);
      } else {
        sent := sent + [Message(topic, payload)];
        r := Pass;
      }
    }
  }

  class TransactionService {
    const store: TransactionStore
    const producer: Producer
    /** Every status update asked for so far, in order. */
    ghost var requests: seq<Request>

    constructor (store: TransactionStore, producer: Producer)
      ensures this.store == store && this.producer == producer && requests == []
    {
      this.store := store;
      this.producer := producer;
      requests := [];
    }

    /** The collaborators' state as one value. */
    ghost function Snapshot(): State
      reads this, store, producer
    {
      State(store.docs, producer.sent, requests)
    }

    /** `getTransactionStatus`: the status of the first document with that
        id; "not found" when there is none. */
    method GetTransactionStatus(id: string, findFails: bool) returns (r: Result<string>)
      ensures findFails ==> r == Failure(StoreError)
      ensures !findFails ==> (r.Success? <==> HasId(store.docs, id))
      ensures !findFails && !HasId(store.docs, id) ==> r == Failure(NotFound(id))
      ensures r.Success? ==> Some(r.value) == FindStatus(store.docs, id)
    {
      var found := store.FindOne(id, findFails);
      if found.Failure? {
        return Failure(found.error);
      }
      if found.value.None? {
        return Failure(NotFound(id));
      }
      r := Success(found.value.value);
    }

    /** `updateTransactionStatus`: read the current status, check the move
        against the predecessor table, write only a legal move. */
    method UpdateTransactionStatus(id: string, status: string, f: StoreFaults) returns (r: Outcome)
      modifies this, store
      ensures (r, store.docs) == Update(old(store.docs), id, status, f)
      ensures requests == old(requests) + [Request(id, status)]
    {
      requests := requests + [Request(id, status)];
      var current := GetTransactionStatus(id, f.findFails);
      if current.Failure? {
        return Fail(current.error);
      }
      if !CanUpdate(current.value, status) {
        return Fail(WorkflowFailure(id, current.value, status));
      }
      r := store.UpdateOne(id, status, f.updateFails);
    }

    /** `sendTransaction`: one message to one topic, acknowledged or not. */
    method SendTransaction(topic: string, message: Transaction, fails: bool) returns (r: Outcome)
      modifies producer
      ensures fails ==> r == Fail(PublishFailure) && producer.sent == old(producer.sent)
      ensures !fails ==> r == Pass && producer.sent == old(producer.sent) + [Message(topic, message)]
    {
      r := producer.Send(topic, message, fails);
    }

    /** `processTransaction`. */
    method ProcessTransaction(txn: Transaction, env: Env) returns (r: Outcome)
      modifies this, store, producer
      ensures (r, Snapshot()) == Process(old(Snapshot()), txn, env)
    {
      var created: Option<Transaction> := None;
      var failure: Option<Error> := None;
      // the try block
      var c := store.Create(txn, env.create);
      if c.Failure? {
        failure := Some(c.error);
      } else {
        created := c.value;
        if created.None? || created.value.id == "" {
          failure := Some(MissingId(txn.id));
        } else {
          var published := SendTransaction(START_TRANSACTIONS_CREDIT_CARD, txn, env.publishFails);
          if published.Fail? {
            failure := Some(published.error);
          } else {
            var advanced := UpdateTransactionStatus(created.value.id, IN_PROGRESS, env.advance);
            if advanced.Fail? {
              failure := Some(advanced.error);
            }
          }
        }
      }
      if failure.None? {
        return Pass;
      }
      // the catch block
      if created.Some? && created.value.id != "" {
        var _ := UpdateTransactionStatus(created.value.id, PENDING_RETRY, env.compensation);
      }
      r := Fail(Wrapped(failure.value));
    }

    /** The `eachMessage` handler: apply one of the three result statuses,
        reject anything else, and catch every error at the message boundary.
        `caught` is the error that was caught and logged, if any. */
    method EachMessage(message: Option<ResultMessage>, f: StoreFaults) returns (caught: Option<Error>)
      modifies this, store
      ensures (caught, store.docs) == Handle(old(store.docs), message, f)
      ensures requests == old(requests) +
                          if message.Some? && message.value.result in ResultStatuses
                          then [Request(message.value.transactionId, message.value.result)] else []
    {
      if message.None? {
        return Some(Malformed);
      }
      var m := message.value;
      if m.result == OK || m.result == FAILED || m.result == FAILED_INCONSISTENCE {
        var updated := UpdateTransactionStatus(m.transactionId, m.result, f);
        caught := if updated.Fail? then Some(updated.error) else None;
      } else {
        caught := Some(UnexpectedResult(m.transactionId, m.result));
      }
    }
  }

  /** The record the two scenarios below use. */
  const SampleTransaction := Transaction("4111111111111111", 100.0, "ACME", "2024-01-01T10:00:00Z", "Madrid", "payment", NEW, "tx-1")

  /** A submission of "tx-1" to an empty store: it is published once and
      stored as given, advanced to IN_PROGRESS. */
  method SubmitOne()
  {
    var store := new TransactionStore([]);
    var producer := new Producer();
    var service := new TransactionService(store, producer);
    var fine := StoreFaults(false, false);
    var tx := SampleTransaction;

    var submitted := service.ProcessTransaction(tx, Env(Created, false, fine, fine));
    assert Insert([], tx) == [tx] && FirstIndex([tx], "tx-1") == Some(0);
    assert submitted == Pass;
    assert store.docs == [tx.(status := IN_PROGRESS)];
    assert producer.sent == [Message(START_TRANSACTIONS_CREDIT_CARD, tx)];
  }

  /** Results for the IN_PROGRESS record `SubmitOne` leaves behind: OK is
      applied; an unexpected result is caught and changes nothing; FAILED is
      applied too, since OK is one of FAILED's predecessors; a later OK is
      refused as a workflow failure. */
  method SettleOne()
  {
    var tx := SampleTransaction;
    var store := new TransactionStore([tx.(status := IN_PROGRESS)]);
    var producer := new Producer();
    var service := new TransactionService(store, producer);
    var fine := StoreFaults(false, false);

    var caught := service.EachMessage(Some(ResultMessage(OK, "tx-1")), fine);
    assert FirstIndex(store.docs, "tx-1") == Some(0);
    assert caught.None? && store.docs == [tx.(status := OK)];

    caught := service.EachMessage(Some(ResultMessage("UNKNOWN", "tx-1")), fine);
    assert caught == Some(UnexpectedResult("tx-1", "UNKNOWN")) && store.docs == [tx.(status := OK)];

    caught := service.EachMessage(Some(ResultMessage(FAILED, "tx-1")), fine);
    assert FirstIndex(store.docs, "tx-1") == Some(0);
    assert caught.None? && store.docs == [tx.(status := FAILED)];

    caught := service.EachMessage(Some(ResultMessage(OK, "tx-1")), fine);
    assert FindStatus(store.docs, "tx-1") == Some(FAILED);
    assert caught == Some(WorkflowFailure("tx-1", FAILED, OK)) && store.docs == [tx.(status := FAILED)];
  }
}
