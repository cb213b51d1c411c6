/**
 * The appointment handlers of the backend: booking a request, listing a
 * doctor's or a patient's appointments, and accepting or rejecting one.
 * The `appointments` collection is a sequence of documents: a new booking
 * is added at the end, and a listing returns them in that order. The
 * store's id generator, its clock and whether a write or read succeeds are
 * inputs.
 */
module Appointments {
  import opened Wrappers
  import opened Http
  import opened Text
  import opened Seqs
  import Sorting

  const StatusPending := "pending"
  const StatusAccepted := "accepted"
  const StatusRejected := "rejected"

  /** A stored appointment; `doctorName` and `patientName` may be left out by the client. */
  datatype Appointment = Appointment(
    doctorId: string,
    doctorName: Option<string>,
    patientId: string,
    patientName: Option<string>,
    date: string,
    time: string,
    reason: string,
    status: string,
    createdAt: string)

  /** A document of the collection, and also the `{ id, ...data }` entry a listing returns. */
  datatype Doc = Doc(id: string, data: Appointment)

  /** The body of a booking request; every field may be missing. */
  datatype BookingRequest = BookingRequest(
    doctorId: Option<string>,
    doctorName: Option<string>,
    patientId: Option<string>,
    patientName: Option<string>,
    date: Option<string>,
    time: Option<string>,
    reason: Option<string>)

  /** The statuses an appointment can be in. */
  predicate KnownStatus(s: string) {
    s == StatusPending || s == StatusAccepted || s == StatusRejected
  }

  /** Every stored appointment has a known status. */
  ghost predicate AllKnown(store: seq<Doc>) {
    forall i :: 0 <= i < |store| ==> KnownStatus(store[i].data.status)
  }

  /** Document ids are unique in the collection. */
  ghost predicate UniqueIds(store: seq<Doc>) {
    forall i, j :: 0 <= i < j < |store| ==> store[i].id != store[j].id
  }

  /** The fields a booking cannot do without: doctor, patient, date and time. */
  predicate HasRequiredFields(req: BookingRequest) {
    Present(req.doctorId) && Present(req.patientId) && Present(req.date) && Present(req.time)
  }

  /** The record a valid booking request is stored as. */
  function NewAppointment(req: BookingRequest, now: string): (a: Appointment)
    requires HasRequiredFields(req)
  {
    Appointment(req.doctorId.value, req.doctorName, req.patientId.value, req.patientName,
                req.date.value, req.time.value, OrElse(req.reason, ""), StatusPending, now)
  }

  /**
   * `createAppointment`: the new collection and the reply. `added` is the
   * store's answer to the write (the new document's id, or a failure);
   * `now` is the creation time.
   */
  function CreateAppointment(store: seq<Doc>, req: BookingRequest, now: string, added: Ext<string>)
    : (r: (seq<Doc>, Reply<string>))
    ensures r.1 == Rejected(400, "Missing required fields") <==> !HasRequiredFields(req)
    ensures r.1.Rejected? ==> r.0 == store
    ensures r.1.Sent? <==> HasRequiredFields(req) && added.Ok?
    ensures r.1.Sent? ==>
      && r.1.status == 201 && r.1.body == added.value
      && |r.0| == |store| + 1 && r.0[..|store|] == store
      && r.0[|store|].id == added.value
      && r.0[|store|].data.createdAt == now
    ensures HasRequiredFields(req) && added.Fail? ==> r.1 == Rejected(500, "Failed to create appointment")
  {
    if !HasRequiredFields(req) then (store, Rejected(400, "Missing required fields"))
    else match added
      case Ok(id) => (store + [Doc(id, NewAppointment(req, now))], Sent(201, id))
      case Fail(_) => (store, Rejected(500, "Failed to create appointment"))
  }

  /** A created appointment is pending, keeps what was asked for, and its reason defaults to the empty text. */
  lemma CreatedIsPending(store: seq<Doc>, req: BookingRequest, now: string, added: Ext<string>)
    requires CreateAppointment(store, req, now, added).1.Sent?
    ensures var s := CreateAppointment(store, req, now, added).0;
      var a := s[|s| - 1].data;
      && a.status == StatusPending && a.createdAt == now
      && Some(a.doctorId) == req.doctorId && Some(a.patientId) == req.patientId
      && Some(a.date) == req.date && Some(a.time) == req.time
      && a.doctorName == req.doctorName && a.patientName == req.patientName
      && (Present(req.reason) ==> a.reason == req.reason.value)
      && (!Present(req.reason) ==> a.reason == "")
  {
  }

  /** The only statuses a client may write. */
  predicate WritableStatus(status: Option<string>) {
    status == Some(StatusAccepted) || status == Some(StatusRejected)
  }

  /** The collection with the status of document `id` set to `status`, every other field and document as before. */
  function SetStatus(store: seq<Doc>, id: string, status: string): (r: seq<Doc>)
    ensures |r| == |store|
    ensures forall i :: 0 <= i < |store| ==> r[i].id == store[i].id
    ensures forall i :: 0 <= i < |store| && store[i].id != id ==> r[i] == store[i]
    ensures forall i :: 0 <= i < |store| && store[i].id == id ==> r[i].data == store[i].data.(status := status)
  {
    Map(store, (d: Doc) => if d.id == id then d.(data := d.data.(status := status)) else d)
  }

  /** The document with id `id` is in the collection. */
  predicate HasDoc(store: seq<Doc>, id: string) {
    exists i :: 0 <= i < |store| && store[i].id == id
  }

  /**
   * `updateAppointmentStatus`. `writeOk` is whether the store accepts the
   * update; updating a document that does not exist fails in the store.
   */
  function UpdateAppointmentStatus(store: seq<Doc>, id: string, status: Option<string>, writeOk: bool)
    : (r: (seq<Doc>, Reply<string>))
    ensures r.1 == Rejected(400, "Invalid status") <==> !WritableStatus(status)
    ensures r.1.Sent? <==> WritableStatus(status) && HasDoc(store, id) && writeOk
    ensures r.1.Rejected? ==> r.0 == store
    ensures r.1.Sent? ==> r.1.status == 200 && r.0 == SetStatus(store, id, status.value)
    ensures r.1.Sent? ==> r.1.body == "Appointment " + status.value
    ensures r.1.Rejected? && WritableStatus(status) ==> r.1 == Rejected(500, "Failed to update appointment")
  {
    if !WritableStatus(status) then (store, Rejected(400, "Invalid status"))
    else if !HasDoc(store, id) || !writeOk then (store, Rejected(500, "Failed to update appointment"))
    else (SetStatus(store, id, status.value), Sent(200, "Appointment " + status.value))
  }

  /** Booking keeps every status known and, given a fresh id from the store, every id unique. */
  lemma CreatePreservesInvariant(store: seq<Doc>, req: BookingRequest, now: string, added: Ext<string>)
    requires AllKnown(store) && UniqueIds(store)
    requires added.Ok? ==> forall i :: 0 <= i < |store| ==> store[i].id != added.value
    ensures AllKnown(CreateAppointment(store, req, now, added).0)
    ensures UniqueIds(CreateAppointment(store, req, now, added).0)
  {
  }

  /** A status update keeps every status known and the ids as they were. */
  lemma UpdatePreservesInvariant(store: seq<Doc>, id: string, status: Option<string>, writeOk: bool)
    requires AllKnown(store) && UniqueIds(store)
    ensures AllKnown(UpdateAppointmentStatus(store, id, status, writeOk).0)
    ensures UniqueIds(UpdateAppointmentStatus(store, id, status, writeOk).0)
  {
    var r := UpdateAppointmentStatus(store, id, status, writeOk);
    if r.1.Sent? {
      forall i | 0 <= i < |store| ensures KnownStatus(r.0[i].data.status) {
        assert store[i].id == id ==> r.0[i].data.status == status.value;
      }
    }
  }

  /** Writing the same status twice is writing it once. */
  lemma SetStatusIdempotent(store: seq<Doc>, id: string, status: string)
    ensures SetStatus(SetStatus(store, id, status), id, status) == SetStatus(store, id, status)
  {
  }

  /** A pending appointment can be accepted or rejected, and nothing else can be written over it. */
  lemma OnlyDecisionsAreWritten(store: seq<Doc>, id: string, status: Option<string>, writeOk: bool, i: int)
    requires 0 <= i < |store| && store[i].id == id
    ensures var s := UpdateAppointmentStatus(store, id, status, writeOk).0;
      s[i].data.status == store[i].data.status || s[i].data.status == StatusAccepted || s[i].data.status == StatusRejected
  {
  }

  /** The listing entries that belong to a doctor, in store order. */
  function ForDoctor(store: seq<Doc>, doctorId: string): seq<Doc> {
    Filter(store, (d: Doc) => d.data.doctorId == doctorId)
  }

  /** The listing entries that belong to a patient, in store order. */
  function ForPatient(store: seq<Doc>, patientId: string): seq<Doc> {
    Filter(store, (d: Doc) => d.data.patientId == patientId)
  }

  /**
   * `getDoctorAppointments`: the documents whose doctor is `doctorId`, each
   * with its id, pushed one by one in store order. `readOk` is whether the
   * query succeeds.
   */
  method GetDoctorAppointments(store: seq<Doc>, doctorId: string, readOk: bool) returns (r: Reply<Listing<Doc>>)
    ensures !readOk ==> r == Rejected(500, "Failed to fetch appointments")
    ensures readOk ==> r.Sent? && r.status == 200 && Counted(r.body)
    ensures readOk ==> r.body.data == ForDoctor(store, doctorId)
  {
    if !readOk {
      return Rejected(500, "Failed to fetch appointments");
    }
    var appointments: seq<Doc> := [];
    var i := 0;
    while i < |store|
      invariant 0 <= i <= |store|
      invariant appointments == ForDoctor(store[..i], doctorId)
    {
      assert store[..i + 1][..i] == store[..i];
      if store[i].data.doctorId == doctorId {
        appointments := appointments + [store[i]];
      }
      i := i + 1;
    }
    assert store[..|store|] == store;
    return Sent(200, Listing(|appointments|, appointments));
  }

  /** A doctor's listing holds exactly that doctor's documents, in store order. */
  lemma ForDoctorExact(store: seq<Doc>, doctorId: string)
    ensures forall d :: d in ForDoctor(store, doctorId) <==> d in store && d.data.doctorId == doctorId
    ensures IsSubsequence(ForDoctor(store, doctorId), store)
  {
    FilterMembers(store, (d: Doc) => d.data.doctorId == doctorId);
    FilterIsSubsequence(store, (d: Doc) => d.data.doctorId == doctorId);
  }

  /**
   * The order of the patient listing: by date, then by time. For dates
   * written `YYYY-MM-DD` and times written `HH:MM` this is the order of the
   * instants `date + "T" + time`.
   */
  predicate Earlier(a: Doc, b: Doc) {
    StrLe(a.data.date, b.data.date) && (a.data.date == b.data.date ==> StrLe(a.data.time, b.data.time))
  }

  lemma EarlierIsTotalPreorder()
    ensures Sorting.TotalPreorder(Earlier)
  {
    forall a, b ensures Earlier(a, b) || Earlier(b, a) {
      StrLeTotal(a.data.date, b.data.date);
      StrLeTotal(a.data.time, b.data.time);
      if !StrLe(a.data.date, b.data.date) || !StrLe(b.data.date, a.data.date) {
      } else {
        StrLeAntisymmetric(a.data.date, b.data.date);
      }
    }
    forall a, b, c | Earlier(a, b) && Earlier(b, c) ensures Earlier(a, c) {
      StrLeTransitive(a.data.date, b.data.date, c.data.date);
      if a.data.date == c.data.date {
        StrLeAntisymmetric(a.data.date, b.data.date);
        StrLeTransitive(a.data.time, b.data.time, c.data.time);
      }
    }
  }

  /**
   * `getPatientAppointments`: the patient's documents, each with its id,
   * pushed in store order and then sorted in place by date and time.
   */
  method GetPatientAppointments(store: seq<Doc>, patientId: string, readOk: bool) returns (r: Reply<Listing<Doc>>)
    ensures !readOk ==> r == Rejected(500, "Failed to fetch appointments")
    ensures readOk ==> r.Sent? && r.status == 200 && Counted(r.body)
    ensures readOk ==> Sorting.SortedBy(r.body.data, Earlier)
    ensures readOk ==> multiset(r.body.data) == multiset(ForPatient(store, patientId))
  {
    if !readOk {
      return Rejected(500, "Failed to fetch appointments");
    }
    var found: seq<Doc> := [];
    var i := 0;
    while i < |store|
      invariant 0 <= i <= |store|
      invariant found == ForPatient(store[..i], patientId)
    {
      assert store[..i + 1][..i] == store[..i];
      if store[i].data.patientId == patientId {
        found := found + [store[i]];
      }
      i := i + 1;
    }
    assert store[..|store|] == store;
    var appointments := new Doc[|found|](k requires 0 <= k < |found| => found[k]);
    assert appointments[..] == found;
    EarlierIsTotalPreorder();
    Sorting.SortInPlace(appointments, Earlier);
    return Sent(200, Listing(appointments.Length, appointments[..]));
  }

  /** A patient's listing holds exactly that patient's documents. */
  lemma ForPatientExact(store: seq<Doc>, patientId: string)
    ensures forall d :: d in ForPatient(store, patientId) <==> d in store && d.data.patientId == patientId
  {
    FilterMembers(store, (d: Doc) => d.data.patientId == patientId);
  }
}
