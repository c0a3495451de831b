/** The transaction workflow as functions of the collaborators' state: the
    guarded status update, the submission saga with its compensation, and
    the handler of one result message. The methods of `Service` are proved
    to compute exactly these; the lemmas here say what the workflow
    promises over any number of steps. */
module Workflow {
  import opened Outcomes
  import opened Statuses
  import opened Records

  /** The topic a submitted transaction is published to. */
  const START_TRANSACTIONS_CREDIT_CARD := "start-transactions-credit-card"

  /** The results the consumer applies; any other result is rejected. */
  const ResultStatuses: set<string> := {OK, FAILED, FAILED_INCONSISTENCE}

  /** How the two store calls of one status update behave. */
  datatype StoreFaults = StoreFaults(findFails: bool, updateFails: bool)

  /** How the store's `create` behaves: it stores the record and returns it,
      it throws, or it reports success with no document. */
  datatype CreateOutcome = Created | CreateThrows | CreateReturnsNothing

  /** How every collaborator behaves during one submission: the create, the
      publish, the advance to IN_PROGRESS and the compensating update. */
  datatype Env = Env(create: CreateOutcome, publishFails: bool, advance: StoreFaults, compensation: StoreFaults)

  /** A message acknowledged by the broker. */
  datatype Message = Message(topic: string, payload: Transaction)

  /** One call of the guarded status update, whatever its outcome. */
  datatype Request = Request(id: string, status: string)

  /** The store's documents, the messages published so far, and the status
      updates requested so far. */
  datatype State = State(docs: seq<Transaction>, sent: seq<Message>, requests: seq<Request>)

  /** A decoded result message: its `result` and its `transaction.id`. */
  datatype ResultMessage = ResultMessage(result: string, transactionId: string)

  /** One delivery to the consumer: the message (nothing when it does not
      decode) and how the store behaves while it is handled. */
  datatype Delivery = Delivery(message: Option<ResultMessage>, faults: StoreFaults)

  /** `updateTransactionStatus`: the status is read first, the move is
      checked against the table, and only a legal move is written. */
  function Update(docs: seq<Transaction>, id: string, status: string, f: StoreFaults): (res: (Outcome, seq<Transaction>))
    ensures res.0.Pass? <==>
            !f.findFails && HasId(docs, id) && CanUpdate(FindStatus(docs, id).value, status) && !f.updateFails
    ensures res.0.Fail? ==> res.1 == docs
    ensures f.findFails ==> res.0 == Fail(StoreError)
    ensures !f.findFails && !HasId(docs, id) ==> res.0 == Fail(NotFound(id))
    ensures !f.findFails && HasId(docs, id) && !CanUpdate(FindStatus(docs, id).value, status) ==>
            res.0 == Fail(WorkflowFailure(id, FindStatus(docs, id).value, status))
    ensures !f.findFails && HasId(docs, id) && CanUpdate(FindStatus(docs, id).value, status) && f.updateFails ==>
            res.0 == Fail(StoreError)
    ensures res.0.Pass? ==> res.1 == SetStatus(docs, id, status) && FindStatus(res.1, id) == Some(status)
  {
    if f.findFails then (Fail(StoreError), docs)
    else
      match FindStatus(docs, id)
      case None => (Fail(NotFound(id)), docs)
      case Some(current) =>
        if !CanUpdate(current, status) then (Fail(WorkflowFailure(id, current, status)), docs)
        else if f.updateFails then (Fail(StoreError), docs)
        else (Pass, SetStatus(docs, id, status))
  }

  /** The catch block of `processTransaction` once a document exists: one
      attempt to move it to PENDING_RETRY, whose outcome is dropped, and the
      first failure rethrown wrapped. */
  function Compensate(st: State, id: string, f: StoreFaults, cause: Error): (res: (Outcome, State))
    ensures res.0 == Fail(Wrapped(cause))
    ensures res.1.sent == st.sent
    ensures res.1.requests == st.requests + [Request(id, PENDING_RETRY)]
    ensures res.1.docs == st.docs ||
            (HasId(st.docs, id) && CanUpdate(FindStatus(st.docs, id).value, PENDING_RETRY) &&
             res.1.docs == SetStatus(st.docs, id, PENDING_RETRY))
  {
    (Fail(Wrapped(cause)),
     st.(docs := Update(st.docs, id, PENDING_RETRY, f).1, requests := st.requests + [Request(id, PENDING_RETRY)]))
  }

  /** `processTransaction`: create, check the id, publish to the start topic,
      advance to IN_PROGRESS; any failure after a create that gave back a
      document with an id leads to one compensating update. */
  function Process(st: State, txn: Transaction, env: Env): (res: (Outcome, State))
    // the create failed or gave back nothing usable: nothing is published and no status update is asked for
    ensures !env.create.Created? || txn.id == "" ==>
            res.0 == Fail(Wrapped(if env.create.CreateThrows? then StoreError else MissingId(txn.id))) &&
            res.1 == st.(docs := if env.create.Created? then Insert(st.docs, txn) else st.docs)
    // the publish failed: exactly one compensation, and the publish failure is what is thrown
    ensures env.create.Created? && txn.id != "" && env.publishFails ==>
            res.0 == Fail(Wrapped(PublishFailure)) &&
            res.1 == State(Update(Insert(st.docs, txn), txn.id, PENDING_RETRY, env.compensation).1,
                           st.sent, st.requests + [Request(txn.id, PENDING_RETRY)])
    // the publish succeeded: the submitted transaction is published once, then the advance is asked for
    ensures env.create.Created? && txn.id != "" && !env.publishFails ==>
            res.1.sent == st.sent + [Message(START_TRANSACTIONS_CREDIT_CARD, txn)] &&
            |res.1.requests| > |st.requests| &&
            res.1.requests[..|st.requests| + 1] == st.requests + [Request(txn.id, IN_PROGRESS)]
    // the advance failed: exactly one compensation, and the advance's failure is what is thrown
    ensures env.create.Created? && txn.id != "" && !env.publishFails &&
            Update(Insert(st.docs, txn), txn.id, IN_PROGRESS, env.advance).0.Fail? ==>
            res.0 == Fail(Wrapped(Update(Insert(st.docs, txn), txn.id, IN_PROGRESS, env.advance).0.error)) &&
            res.1.docs == Update(Insert(st.docs, txn), txn.id, PENDING_RETRY, env.compensation).1 &&
            res.1.requests == st.requests + [Request(txn.id, IN_PROGRESS), Request(txn.id, PENDING_RETRY)]
    // success: every step passed, no compensation, and the id's status is now IN_PROGRESS,
    // reached from NEW or PENDING_RETRY
    ensures res.0.Pass? <==>
            env.create.Created? && txn.id != "" && !env.publishFails &&
            Update(Insert(st.docs, txn), txn.id, IN_PROGRESS, env.advance).0.Pass?
    ensures res.0.Pass? ==>
            res.1.requests == st.requests + [Request(txn.id, IN_PROGRESS)] &&
            FindStatus(res.1.docs, txn.id) == Some(IN_PROGRESS) &&
            FindStatus(Insert(st.docs, txn), txn.id) in {Some(NEW), Some(PENDING_RETRY)}
    // on success the record is stored as given and only the first document with its id moved to IN_PROGRESS
    ensures res.0.Pass? ==> res.1.docs == SetStatus(Insert(st.docs, txn), txn.id, IN_PROGRESS)
    ensures res.0.Pass? && !HasId(st.docs, txn.id) ==> txn.status == NEW || txn.status == PENDING_RETRY
    // a failure is always the wrapped first failure
    ensures res.0.Fail? ==> res.0.error.Wrapped?
  {
    match env.create
    case CreateThrows => (Fail(Wrapped(StoreError)), st)
    case CreateReturnsNothing => (Fail(Wrapped(MissingId(txn.id))), st)
    case Created =>
      var created := st.(docs := Insert(st.docs, txn));
      if txn.id == "" then (Fail(Wrapped(MissingId(txn.id))), created)
      else if env.publishFails then Compensate(created, txn.id, env.compensation, PublishFailure)
      else
        var published := created.(sent := st.sent + [Message(START_TRANSACTIONS_CREDIT_CARD, txn)]);
        var advance := Update(published.docs, txn.id, IN_PROGRESS, env.advance);
        var advanced := published.(docs := advance.1, requests := st.requests + [Request(txn.id, IN_PROGRESS)]);
        if advance.0.Pass? then (Pass, advanced)
        else Compensate(advanced, txn.id, env.compensation, advance.0.error)
  }

  /** The body of `eachMessage`: the three result statuses are applied with
      the guarded update; everything else is rejected. The first component
      is the error caught at the message boundary, if any: nothing escapes. */
  function Handle(docs: seq<Transaction>, message: Option<ResultMessage>, f: StoreFaults): (res: (Option<Error>, seq<Transaction>))
    ensures message.None? ==> res == (Some(Malformed), docs)
    ensures message.Some? && message.value.result !in ResultStatuses ==>
            res == (Some(UnexpectedResult(message.value.transactionId, message.value.result)), docs)
    ensures message.Some? && message.value.result in ResultStatuses ==>
            var u := Update(docs, message.value.transactionId, message.value.result, f);
            res.1 == u.1 && (res.0.None? <==> u.0.Pass?) && (u.0.Fail? ==> res.0 == Some(u.0.error))
    ensures res.0.Some? ==> res.1 == docs
  {
    match message
    case None => (Some(Malformed), docs)
    case Some(m) =>
      if m.result == OK || m.result == FAILED || m.result == FAILED_INCONSISTENCE then
        var u := Update(docs, m.transactionId, m.result, f);
        (if u.0.Pass? then None else Some(u.0.error), u.1)
      else (Some(UnexpectedResult(m.transactionId, m.result)), docs)
  }

  /** The store after the consumer has handled `ds`, one message after the
      other in delivery order. */
  function Deliver(docs: seq<Transaction>, ds: seq<Delivery>): seq<Transaction>
    decreases |ds|
  {
    if ds == [] then docs
    else Deliver(Handle(docs, ds[0].message, ds[0].faults).1, ds[1..])
  }

  /** A status update changes at most one document, and that one only by a
      legal move of its status. */
  lemma UpdateStep(docs: seq<Transaction>, id: string, status: string, f: StoreFaults, j: nat)
    requires j < |docs|
    ensures |Update(docs, id, status, f).1| == |docs|
    ensures Update(docs, id, status, f).1[j] == docs[j] ||
            (Update(docs, id, status, f).1[j] == docs[j].(status := status) && CanUpdate(docs[j].status, status))
    ensures FirstIndex(docs, id) != Some(j) ==> Update(docs, id, status, f).1[j] == docs[j]
  {
    // follows from the contracts of Update and SetStatus
  }

  /** Handling one message changes at most one document, and that one only
      by a legal move to one of the three result statuses. */
  lemma HandleStep(docs: seq<Transaction>, d: Delivery, j: nat)
    requires j < |docs|
    ensures |Handle(docs, d.message, d.faults).1| == |docs|
    ensures var after := Handle(docs, d.message, d.faults).1[j];
            after == docs[j] ||
            (after == docs[j].(status := after.status) && after.status in ResultStatuses &&
             CanUpdate(docs[j].status, after.status))
    ensures d.message.None? || FirstIndex(docs, d.message.value.transactionId) != Some(j) ==>
            Handle(docs, d.message, d.faults).1[j] == docs[j]
  {
    // follows from the contracts of Handle, Update and SetStatus
  }

  /** The consumer never adds or removes a document, never touches a field
      other than the status, and only moves a status upwards in the order of
      the table, to one of the three result statuses: no status is ever
      entered twice. */
  lemma {:induction false} DeliverNeverRegresses(docs: seq<Transaction>, ds: seq<Delivery>, j: nat)
    requires j < |docs|
    ensures |Deliver(docs, ds)| == |docs|
    ensures var after := Deliver(docs, ds)[j];
            after == docs[j] ||
            (after == docs[j].(status := after.status) && after.status in ResultStatuses &&
             Rank(docs[j].status) < Rank(after.status))
    decreases |ds|
  {
    if ds != [] {
      var next := Handle(docs, ds[0].message, ds[0].faults).1;
      HandleStep(docs, ds[0], j);
      DeliverNeverRegresses(next, ds[1..], j);
    }
  }

  /** A record in FAILED_INCONSISTENCE stays there whatever is delivered. */
  lemma FailedInconsistenceIsFinal(docs: seq<Transaction>, ds: seq<Delivery>, j: nat)
    requires j < |docs| && docs[j].status == FAILED_INCONSISTENCE
    ensures |Deliver(docs, ds)| == |docs| && Deliver(docs, ds)[j] == docs[j]
  {
    DeliverNeverRegresses(docs, ds, j);
    assert Rank(Deliver(docs, ds)[j].status) <= 6;
  }

  /** Handling the deliveries `a` and then `b` is handling `a + b`. */
  lemma {:induction false} DeliverAppend(docs: seq<Transaction>, a: seq<Delivery>, b: seq<Delivery>)
    ensures Deliver(docs, a + b) == Deliver(Deliver(docs, a), b)
    decreases |a|
  {
    if a == [] {
      assert a + b == b;
    } else {
      var next := Handle(docs, a[0].message, a[0].faults).1;
      assert (a + b)[0] == a[0];
      assert (a + b)[1..] == a[1..] + b;
      DeliverAppend(next, a[1..], b);
    }
  }

  /** A message whose handling fails (it does not decode, its result is
      unexpected, or its update is refused or fails) is as if it had never
      been delivered: the deliveries after it are handled as usual. */
  lemma DeliverSkipsRejected(docs: seq<Transaction>, before: seq<Delivery>, d: Delivery, after: seq<Delivery>)
    requires Handle(Deliver(docs, before), d.message, d.faults).0.Some?
    ensures Deliver(docs, before + [d] + after) == Deliver(Deliver(docs, before), after)
  {
    DeliverAppend(docs, before + [d], after);
    DeliverAppend(docs, before, [d]);
    assert [d][1..] == [];
  }

  /** A submission adds at most the one document it creates, and changes a
      document already in the store only by a legal move of its status to
      IN_PROGRESS or PENDING_RETRY (the first document with the submitted id
      is the one the advance and the compensation reach). */
  lemma ProcessKeepsEarlierDocs(st: State, txn: Transaction, env: Env, j: nat)
    requires j < |st.docs|
    ensures |Process(st, txn, env).1.docs| == |st.docs| + if env.create.Created? then 1 else 0
    ensures var after := Process(st, txn, env).1.docs[j];
            after == st.docs[j] ||
            (after == st.docs[j].(status := after.status) && after.status in {IN_PROGRESS, PENDING_RETRY} &&
             CanUpdate(st.docs[j].status, after.status) && Rank(st.docs[j].status) < Rank(after.status))
    ensures FirstIndex(st.docs, txn.id) != Some(j) ==> Process(st, txn, env).1.docs[j] == st.docs[j]
  {
    // follows from the contracts of Process, Compensate, Update, Insert and SetStatus
  }
}
