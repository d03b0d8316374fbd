/**
 * The patient's appointment history: it works out whose appointments to
 * ask for (the logged-in user, else a `?patient=` parameter), chooses the
 * endpoint query from that, and shows the loaded list.
 */
module AppointmentHistory {
  import opened JsValues
  import opened JsString
  import opened Entities
  import BookAppointment

  const LoadErrorMessage: string := "Could not load appointments."

  /** The user object is present and its `id` is neither `undefined` nor `null`. */
  predicate HasUserId(user: UserValue)
  {
    user.Obj? && user.user.id.Some?
  }

  /**
   * `user?.id ?? (query.get("patient") ? Number(query.get("patient")) : null)`,
   * with `query` the `patient` search parameter (None when absent).
   */
  function HistoryPatientId(user: UserValue, query: Option<string>): (r: Option<JsNumber>)
    ensures HasUserId(user) ==> r == Some(Int(user.user.id.value))
    ensures !HasUserId(user) && Truthy(query) ==> r == Some(ToNumber(query.value))
    ensures !HasUserId(user) && !Truthy(query) ==> r == None
  {
    if HasUserId(user) then Some(Int(user.user.id.value))
    else if Truthy(query) then Some(ToNumber(query.value))
    else None
  }

  /** Which list is fetched: `/appointments/` or `/appointments/?patient=<id>`. */
  datatype AppointmentsQuery = AllAppointments | ForPatient(patient: int)

  /** The URL choice: the patient filter is used exactly when the id is truthy. */
  function QueryFor(patientId: Option<JsNumber>): (q: AppointmentsQuery)
    ensures q.ForPatient? <==> patientId.Some? && NumTruthy(patientId.value)
    ensures q.ForPatient? ==> patientId == Some(Int(q.patient)) && q.patient != 0
  {
    if patientId.Some? && NumTruthy(patientId.value) then ForPatient(patientId.value.n) else AllAppointments
  }

  /** A logged-in user with id 0 fetches the unfiltered list, whatever the URL says. */
  lemma ZeroIdFetchesAll(user: UserValue, query: Option<string>)
    requires user.Obj? && user.user.id == Some(0)
    ensures QueryFor(HistoryPatientId(user, query)) == AllAppointments
  {
  }

  /** Without a user id, a white-space `?patient=` is a present but zero id, and the unfiltered list is fetched. */
  lemma BlankParameterFetchesAll(user: UserValue, query: string)
    requires !HasUserId(user)
    requires query != "" && Trim(query) == ""
    ensures HistoryPatientId(user, Some(query)) == Some(Int(0))
    ensures QueryFor(HistoryPatientId(user, Some(query))) == AllAppointments
  {
  }

  /** Without a user id, `?patient=<n>` written in decimal fetches patient `n`'s list when `n` is positive. */
  lemma ParameterSelectsPatient(user: UserValue, n: nat)
    requires !HasUserId(user)
    requires n > 0
    ensures QueryFor(HistoryPatientId(user, Some(NatToString(n)))) == ForPatient(n)
  {
    NumberOfDecimalText(n);
  }

  /**
   * The history page and the booking form read the same user id: for a
   * non-zero id the booking is made for the patient whose list is shown; an
   * id of 0 books for `null` and shows the unfiltered list.
   */
  lemma BookingAndHistoryAgreeOnPatient(user: UserValue, query: Option<string>)
    requires user.Obj? && user.user.id.Some?
    ensures user.user.id.value != 0 ==>
            BookAppointment.BookingPatientId(user) == Some(user.user.id.value) &&
            QueryFor(HistoryPatientId(user, query)) == ForPatient(user.user.id.value)
    ensures user.user.id.value == 0 ==>
            BookAppointment.BookingPatientId(user) == None &&
            QueryFor(HistoryPatientId(user, query)) == AllAppointments
  {
  }

  /** "No appointments found." shows only when nothing is loading, there is no error and the list is empty. */
  predicate ShowsEmptyMessage(loading: bool, err: string, items: seq<Appointment>)
  {
    !loading && err == "" && |items| == 0
  }

  class HistoryView {
    var items: seq<Appointment>
    var loading: bool
    var err: string

    constructor ()
      ensures items == [] && loading && err == ""
    {
      items := [];
      loading := true;
      err := "";
    }

    /**
     * The load effect for a given `patientId`: it clears the error, fetches
     * the chosen list and, for a reply with `res.ok` and a parsed body, stores
     * its `items` array (or `[]`); any other outcome keeps the list and sets
     * the error. Loading ends either way.
     */
    method Load(patientId: Option<JsNumber>, reply: Fetched<ListBody<Appointment>>) returns (query: AppointmentsQuery)
      modifies this
      ensures query == QueryFor(patientId)
      ensures !loading
      ensures HttpOkWithBody(reply) ==> items == ItemsOrEmpty(reply.body.value) && err == ""
      ensures !HttpOkWithBody(reply) ==> items == old(items) && err == LoadErrorMessage
      ensures ShowsEmptyMessage(loading, err, items) <==> HttpOkWithBody(reply) && items == []
    {
      loading := true;
      err := "";
      query := QueryFor(patientId);
      if HttpOkWithBody(reply) {
        items := ItemsOrEmpty(reply.body.value);
      } else {
        err := LoadErrorMessage;
      }
      loading := false;
    }
  }
}
