/**
 * The disease-history handlers of the backend. Each user's records live in
 * the `diseases` collection under that user; the store is a map from the
 * user id to that collection, with a new record added at the end. The store's id
 * generator, its clock and whether a read or write succeeds are inputs.
 */
module Diseases {
  import opened Wrappers
  import opened Http
  import opened Text
  import Sorting

  /** A stored disease record; medicines and comments may be missing. */
  datatype Record = Record(
    name: string,
    date: string,
    medicines: Option<string>,
    comments: Option<string>,
    createdAt: string)

  /** A document, and also the `{ id, ...data }` entry the listing returns. */
  datatype RecordDoc = RecordDoc(id: string, data: Record)

  datatype AddRequest = AddRequest(
    userId: Option<string>,
    name: Option<string>,
    date: Option<string>,
    medicines: Option<string>,
    comments: Option<string>)

  /** The records of one user (none when the user has no collection yet). */
  function RecordsOf(store: map<string, seq<RecordDoc>>, userId: string): seq<RecordDoc> {
    if userId in store then store[userId] else []
  }

  predicate CanAdd(req: AddRequest) {
    Present(req.userId) && Present(req.name) && Present(req.date)
  }

  /**
   * `addDisease`. `added` is the store's answer to the write (the new
   * document's id, or a failure); `now` is the creation time.
   */
  function AddDisease(store: map<string, seq<RecordDoc>>, req: AddRequest, now: string, added: Ext<string>)
    : (r: (map<string, seq<RecordDoc>>, Reply<string>))
    ensures r.1 == Rejected(400, "Missing fields") <==> !CanAdd(req)
    ensures r.1.Sent? <==> CanAdd(req) && added.Ok?
    ensures r.1.Rejected? ==> r.0 == store
    ensures CanAdd(req) && added.Fail? ==> r.1 == Rejected(500, "Failed to add disease")
    ensures r.1.Sent? ==>
      && r.1.status == 200 && r.1.body == added.value
      && r.0 == store[req.userId.value := RecordsOf(store, req.userId.value)
                        + [RecordDoc(added.value, Record(req.name.value, req.date.value, req.medicines, req.comments, now))]]
  {
    if !CanAdd(req) then (store, Rejected(400, "Missing fields"))
    else match added
      case Fail(_) => (store, Rejected(500, "Failed to add disease"))
      case Ok(id) =>
        var uid := req.userId.value;
        var record := Record(req.name.value, req.date.value, req.medicines, req.comments, now);
        (store[uid := RecordsOf(store, uid) + [RecordDoc(id, record)]], Sent(200, id))
  }

  /** Adding a record touches only the owner's collection, and a later listing of that user includes it. */
  lemma AddOnlyTouchesOwner(store: map<string, seq<RecordDoc>>, req: AddRequest, now: string, added: Ext<string>, other: string)
    requires AddDisease(store, req, now, added).1.Sent?
    ensures other != req.userId.value ==> RecordsOf(AddDisease(store, req, now, added).0, other) == RecordsOf(store, other)
    ensures var s := AddDisease(store, req, now, added).0;
      RecordDoc(added.value, Record(req.name.value, req.date.value, req.medicines, req.comments, now))
        in Listed(s, req.userId.value)
  {
    var s := AddDisease(store, req, now, added).0;
    var d := RecordDoc(added.value, Record(req.name.value, req.date.value, req.medicines, req.comments, now));
    assert d in RecordsOf(s, req.userId.value);
    ListedIsPermutation(s, req.userId.value);
    assert d in multiset(RecordsOf(s, req.userId.value));
  }

  /** The order the listing asks the store for: latest date first. */
  predicate LaterOrSame(a: RecordDoc, b: RecordDoc) {
    StrLe(b.data.date, a.data.date)
  }

  lemma LaterOrSameIsTotalPreorder()
    ensures Sorting.TotalPreorder(LaterOrSame)
  {
    forall a, b ensures LaterOrSame(a, b) || LaterOrSame(b, a) {
      StrLeTotal(a.data.date, b.data.date);
    }
    forall a, b, c | LaterOrSame(a, b) && LaterOrSame(b, c) ensures LaterOrSame(a, c) {
      StrLeTransitive(c.data.date, b.data.date, a.data.date);
    }
  }

  /** The user's records in the order the store is asked for. */
  function Listed(store: map<string, seq<RecordDoc>>, userId: string): seq<RecordDoc> {
    Sorting.InsertionSort(RecordsOf(store, userId), LaterOrSame)
  }

  /**
   * `getDiseases`: the user's records, each with its id, latest date first.
   * `readOk` is whether the query succeeds.
   */
  function GetDiseases(store: map<string, seq<RecordDoc>>, userId: string, readOk: bool): (r: Reply<seq<RecordDoc>>)
    ensures !readOk <==> r == Rejected(500, "Failed to fetch diseases")
    ensures readOk ==> r == Sent(200, Listed(store, userId))
    ensures readOk ==> |r.body| == |RecordsOf(store, userId)|
  {
    if !readOk then Rejected(500, "Failed to fetch diseases")
    else Sent(200, Listed(store, userId))
  }

  /** The listing holds each of the user's records as often as stored, latest date first. */
  lemma ListedIsPermutation(store: map<string, seq<RecordDoc>>, userId: string)
    ensures multiset(Listed(store, userId)) == multiset(RecordsOf(store, userId))
    ensures Sorting.SortedBy(Listed(store, userId), LaterOrSame)
  {
    LaterOrSameIsTotalPreorder();
    Sorting.InsertionSortSorted(RecordsOf(store, userId), LaterOrSame);
  }
}
