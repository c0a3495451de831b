/** The transaction record and the document collection that holds it.

    The collection is a sequence of documents in their natural order: the
    schema declares `id` required but not unique, so two documents may share
    an id, and `findOne` / `updateOne` filtered by id act on the first one. */
module Records {
  import opened Outcomes

  /** One stored transaction; `kind` is the record's `type` field. */
  datatype Transaction = Transaction(
    creditCardNumber: string,
    amount: real,
    destination: string,
    transactionDatetime: string,
    location: string,
    kind: string,
    status: string,
    id: string)

  /** Some document carries `id`. */
  predicate HasId(docs: seq<Transaction>, id: string)
  {
    exists j :: 0 <= j < |docs| && docs[j].id == id
  }

  /** The position of the first document that carries `id`. */
  function FirstIndex(docs: seq<Transaction>, id: string): (r: Option<nat>)
    ensures r.Some? ==> r.value < |docs| && docs[r.value].id == id
    ensures r.Some? ==> forall j :: 0 <= j < r.value ==> docs[j].id != id
    ensures r.None? ==> forall j :: 0 <= j < |docs| ==> docs[j].id != id
    ensures r.Some? <==> HasId(docs, id)
    decreases |docs|
  {
    if |docs| == 0 then None
    else if docs[0].id == id then Some(0)
    else
      match FirstIndex(docs[1..], id)
      case None => None
      case Some(k) => Some(k + 1)
  }

  /** `findOne({id}, 'status')`: the status of the first document with that
      id, or nothing when there is none. */
  function FindStatus(docs: seq<Transaction>, id: string): (r: Option<string>)
    ensures r.Some? <==> HasId(docs, id)
    ensures forall j ::
              0 <= j < |docs| && docs[j].id == id && (forall k :: 0 <= k < j ==> docs[k].id != id) ==>
              r == Some(docs[j].status)
  {
    match FirstIndex(docs, id)
    case None => None
    case Some(k) => Some(docs[k].status)
  }

  /** `create(transaction)`: the record is stored as given, after every
      document already there. */
  function Insert(docs: seq<Transaction>, t: Transaction): (r: seq<Transaction>)
    ensures |r| == |docs| + 1 && r[..|docs|] == docs && r[|docs|] == t
    ensures FindStatus(r, t.id) == if HasId(docs, t.id) then FindStatus(docs, t.id) else Some(t.status)
  {
    FirstIndexAppend(docs, t, t.id);
    docs + [t]
  }

  /** `updateOne({id}, {$set: {status}})`: the first document with that id
      gets the new status; no other document and no other field changes. */
  function SetStatus(docs: seq<Transaction>, id: string, status: string): (r: seq<Transaction>)
    ensures |r| == |docs|
    ensures forall j :: 0 <= j < |docs| ==> r[j] == docs[j].(status := r[j].status)
    ensures forall j :: 0 <= j < |docs| && FirstIndex(docs, id) != Some(j) ==> r[j] == docs[j]
    ensures !HasId(docs, id) ==> r == docs
    ensures FindStatus(r, id) == if HasId(docs, id) then Some(status) else None
  {
    match FirstIndex(docs, id)
    case None => docs
    case Some(k) =>
      var r := docs[k := docs[k].(status := status)];
      FirstIndexSameIds(docs, r, id);
      r
  }

  /** Appending a document leaves the first match among the earlier ones
      where it was, and makes the new one the first match otherwise. */
  lemma {:induction false} FirstIndexAppend(docs: seq<Transaction>, t: Transaction, id: string)
    ensures FirstIndex(docs + [t], id) ==
            if HasId(docs, id) then FirstIndex(docs, id)
            else if t.id == id then Some(|docs|)
            else None
  {
    if |docs| > 0 && docs[0].id != id {
      assert (docs + [t])[1..] == docs[1..] + [t];
      FirstIndexAppend(docs[1..], t, id);
      assert HasId(docs, id) <==> HasId(docs[1..], id) by {
        if HasId(docs, id) {
          var j :| 0 <= j < |docs| && docs[j].id == id;
          assert docs[1..][j - 1].id == id;
        }
        if HasId(docs[1..], id) {
          var j :| 0 <= j < |docs[1..]| && docs[1..][j].id == id;
          assert docs[j + 1].id == id;
        }
      }
    }
  }

  /** Two collections with the same ids in the same order have the same first
      match for every id. */
  lemma FirstIndexSameIds(a: seq<Transaction>, b: seq<Transaction>, id: string)
    requires |a| == |b|
    requires forall j :: 0 <= j < |a| ==> a[j].id == b[j].id
    ensures FirstIndex(a, id) == FirstIndex(b, id)
  {
    // follows from the first-occurrence contract of FirstIndex
  }
}
