/**
 * The doctor list page: the search over the doctors the backend lists, and
 * booking an appointment with the selected doctor. The signed-in user and
 * the backend's answer to the booking are inputs.
 */
module DoctorList {
  import opened Wrappers
  import opened Http
  import opened Text
  import opened Seqs
  import opened Accounts
  import opened AuthContext
  import Appointments

  /** A doctor is shown when the search text occurs, ignoring case, in the name or the specialty. */
  predicate MatchesSearch(d: DoctorCard, term: string) {
    Includes(ToLower(d.name), ToLower(term)) || Includes(ToLower(d.specialty), ToLower(term))
  }

  /** `filteredDoctors`. */
  function FilterDoctors(doctors: seq<DoctorCard>, term: string): seq<DoctorCard> {
    Filter(doctors, d => MatchesSearch(d, term))
  }

  /**
   * The search keeps exactly the doctors that match, in the list's order,
   * and an empty search keeps them all.
   */
  lemma FilterDoctorsExact(doctors: seq<DoctorCard>, term: string)
    ensures forall d :: d in FilterDoctors(doctors, term) <==> d in doctors && MatchesSearch(d, term)
    ensures IsSubsequence(FilterDoctors(doctors, term), doctors)
    ensures term == "" ==> FilterDoctors(doctors, term) == doctors
  {
    FilterMembers(doctors, d => MatchesSearch(d, term));
    FilterIsSubsequence(doctors, d => MatchesSearch(d, term));
    if term == "" {
      forall i | 0 <= i < |doctors| ensures MatchesSearch(doctors[i], term) {
        IncludesEmpty(ToLower(doctors[i].name));
      }
      FilterAllPass(doctors, d => MatchesSearch(d, term));
    }
  }

  /** The body of the booking request. `patientName` is missing when the user has no e-mail. */
  datatype Payload = Payload(
    doctorId: string,
    doctorName: string,
    patientId: string,
    patientName: Option<string>,
    date: string,
    time: string,
    reason: string)

  /** The payload for booking `doctor` as `user`: the patient's name is the e-mail before its first `@`. */
  function MakePayload(doctor: DoctorCard, user: User, date: string, time: string, reason: string): (p: Payload)
    ensures p.patientName.Some? <==> user.email.Some?
    ensures p.patientName.Some? ==>
      && IsPrefix(p.patientName.value, user.email.value)
      && '@' !in p.patientName.value
      && (|p.patientName.value| < |user.email.value| ==> user.email.value[|p.patientName.value|] == '@')
    ensures p.doctorId == doctor.id && p.doctorName == doctor.name && p.patientId == user.uid
    ensures p.date == date && p.time == time && p.reason == reason
  {
    Payload(doctor.id, doctor.name, user.uid,
            if user.email.Some? then Some(BeforeFirst(user.email.value, '@')) else None,
            date, time, reason)
  }

  /** The request the backend receives: `JSON.stringify` drops a missing `patientName`. */
  function AsRequest(p: Payload): Appointments.BookingRequest {
    Appointments.BookingRequest(Some(p.doctorId), Some(p.doctorName), Some(p.patientId), p.patientName,
                                Some(p.date), Some(p.time), Some(p.reason))
  }

  /**
   * A booking with a doctor, a signed-in user with an e-mail, a date and a
   * time is stored by the backend as a pending appointment of that doctor
   * and patient, with both names. Without an e-mail the payload has no
   * `patientName`, and the store refuses a document with an undefined field.
   */
  lemma BookingIsStoredPending(store: seq<Appointments.Doc>, doctor: DoctorCard, user: User,
                               date: string, time: string, reason: string, now: string, id: string)
    requires doctor.id != "" && user.uid != "" && date != "" && time != ""
    requires user.email.Some?
    ensures var req := AsRequest(MakePayload(doctor, user, date, time, reason));
      var r := Appointments.CreateAppointment(store, req, now, Ok(id));
      && r.1 == Sent(201, id)
      && r.0[|r.0| - 1].data.status == Appointments.StatusPending
      && r.0[|r.0| - 1].data.doctorId == doctor.id
      && r.0[|r.0| - 1].data.patientId == user.uid
      && r.0[|r.0| - 1].data.date == date && r.0[|r.0| - 1].data.time == time
      && r.0[|r.0| - 1].data.doctorName == Some(doctor.name)
      && r.0[|r.0| - 1].data.patientName == Some(BeforeFirst(user.email.value, '@'))
  {
    var req := AsRequest(MakePayload(doctor, user, date, time, reason));
    assert Appointments.HasRequiredFields(req);
    Appointments.CreatedIsPending(store, req, now, Ok(id));
  }

  datatype BookingStatus = Idle | Loading | Success | Error

  /** The backend's answer: whether the status was ok, and the `error` field of its body. */
  datatype Response = Response(ok: bool, error: Option<string>)

  /**
   * The status and error message a booking ends with. `response` is the
   * answer, or a failure (network error or unreadable body) with its message.
   */
  function Outcome(response: Ext<Response>): (r: (BookingStatus, string))
    ensures r.0 == Success <==> response.Ok? && response.value.ok
    ensures r.0 == Success || r.0 == Error
    ensures response.Ok? && !response.value.ok ==> r.1 == OrElse(response.value.error, "Failed to book appointment")
    ensures response.Fail? ==> r.1 == OrElse(Some(response.message), "Network error")
  {
    match response
    case Ok(res) =>
      if res.ok then (Success, "") else (Error, OrElse(res.error, "Failed to book appointment"))
    case Fail(m) => (Error, OrElse(Some(m), "Network error"))
  }

  /** A booking that fails always says why; one that succeeds shows no message. */
  lemma ErrorAlwaysExplained(response: Ext<Response>)
    ensures Outcome(response).0 == Error <==> Outcome(response).1 != ""
  {
    var r := Outcome(response);
    if r.0 == Error {
      assert "Failed to book appointment" != "" && "Network error" != "";
    }
  }

  /** The booking dialog's state. */
  class Booking {
    var selectedDoctor: Option<DoctorCard>
    var bookingDate: string
    var bookingTime: string
    var bookingReason: string
    var bookingStatus: BookingStatus
    var errorMessage: string

    constructor ()
      ensures selectedDoctor == None && bookingStatus == Idle && errorMessage == ""
      ensures bookingDate == "" && bookingTime == "" && bookingReason == ""
    {
      selectedDoctor := None;
      bookingDate := "";
      bookingTime := "";
      bookingReason := "";
      bookingStatus := Idle;
      errorMessage := "";
    }

    /**
     * `handleBookAppointment`. `currentUser` is the signed-in user, if any;
     * `response` is the backend's answer to the request. `sent` is the
     * payload posted, nothing when no request is made.
     */
    method HandleBookAppointment(currentUser: Option<User>, response: Ext<Response>) returns (sent: Option<Payload>)
      modifies this
      ensures selectedDoctor.None? || currentUser.None? ==>
        sent.None? && bookingStatus == old(bookingStatus) && errorMessage == old(errorMessage)
      ensures selectedDoctor.Some? && currentUser.Some? ==>
        && sent == Some(MakePayload(selectedDoctor.value, currentUser.value, bookingDate, bookingTime, bookingReason))
        && (bookingStatus, errorMessage) == Outcome(response)
      ensures selectedDoctor == old(selectedDoctor) && bookingDate == old(bookingDate)
      ensures bookingTime == old(bookingTime) && bookingReason == old(bookingReason)
    {
      if selectedDoctor.None? || currentUser.None? {
        return None;
      }
      bookingStatus := Loading;
      errorMessage := "";
      var payload := MakePayload(selectedDoctor.value, currentUser.value, bookingDate, bookingTime, bookingReason);
      match response {
        case Ok(res) =>
          if res.ok {
            bookingStatus := Success;
          } else {
            bookingStatus := Error;
            errorMessage := OrElse(res.error, "Failed to book appointment");
          }
        case Fail(m) =>
          bookingStatus := Error;
          errorMessage := OrElse(Some(m), "Network error");
      }
      return Some(payload);
    }
  }
}
