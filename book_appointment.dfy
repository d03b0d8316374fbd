/**
 * The booking form: it loads the chosen provider, validates the form in a
 * fixed order, builds the appointment payload and reports the outcome of
 * the request that creates the appointment.
 */
module BookAppointment {
  import opened JsValues
  import opened JsString
  import opened Entities

  const MissingDateTimeMessage: string := "Please choose a date, start time, and end time."
  const MissingNameMessage: string := "Please enter the patient name."
  const BookedMessage: string := "Appointment booked successfully!"
  const FallbackErrorMessage: string := "Something went wrong booking the appointment."
  const ProviderErrorMessage: string := "Could not load provider information."

  /** `user?.id || null`: the logged-in user's id, unless it is missing or 0. */
  function BookingPatientId(user: UserValue): (r: Option<int>)
    ensures r.Some? <==> user.Obj? && IdTruthy(user.user.id)
    ensures r.Some? ==> r.value == user.user.id.value && r.value != 0
  {
    if user.Obj? && IdTruthy(user.user.id) then user.user.id else None
  }

  /**
   * The checks `handleSubmit` runs before any request: date and both times
   * first, then the patient name after trimming. None means the form passes.
   */
  function ValidateBooking(date: string, startTime: string, endTime: string, patientName: string): (r: Option<string>)
    ensures r == Some(MissingDateTimeMessage) <==> date == "" || startTime == "" || endTime == ""
    ensures r == Some(MissingNameMessage) <==>
            date != "" && startTime != "" && endTime != "" && Trim(patientName) == ""
    ensures r == None <==> date != "" && startTime != "" && endTime != "" && Trim(patientName) != ""
  {
    if date == "" || startTime == "" || endTime == "" then Some(MissingDateTimeMessage)
    else if Trim(patientName) == "" then Some(MissingNameMessage)
    else None
  }

  /**
   * The times are only checked for presence: swapping the start and the end
   * time, or replacing either by any other non-empty text, never changes the
   * verdict, so an end before the start passes.
   */
  lemma TimesCheckedOnlyForPresence(date: string, startTime: string, endTime: string, patientName: string,
                                    startTime': string, endTime': string)
    requires (startTime == "") == (startTime' == "") && (endTime == "") == (endTime' == "")
    ensures ValidateBooking(date, startTime, endTime, patientName) == ValidateBooking(date, endTime, startTime, patientName)
    ensures ValidateBooking(date, startTime, endTime, patientName) == ValidateBooking(date, startTime', endTime', patientName)
  {
  }

  /** The local date-time text `${date}T${time}:00` handed to `new Date`. */
  function LocalDateTime(date: string, time: string): string
  {
    date + "T" + time + ":00"
  }

  /** The JSON payload posted to create an appointment. */
  datatype Payload = Payload(
    provider: JsNumber,
    patient: Option<int>,
    patientName: string,
    providerName: string,
    service: string,
    start: string,
    end: string,
    status: string,
    notes: string)

  function BuildPayload(providerId: string, patientId: Option<int>, provider: Option<Provider>,
                        patientName: string, service: string, date: string,
                        startTime: string, endTime: string, notes: string): Payload
  {
    Payload(
      provider := ToNumber(providerId),
      patient := patientId,
      patientName := Trim(patientName),
      providerName := if provider.Some? && Truthy(provider.value.userName) then provider.value.userName.value else "",
      service := Trim(service),
      start := LocalDateTime(date, startTime),
      end := LocalDateTime(date, endTime),
      status := Confirmed,
      notes := Trim(notes))
  }

  /**
   * A payload built from a form that passed validation is always
   * "confirmed", carries a non-empty patient name and text fields with no
   * surrounding white space, and names the provider only when it is known.
   */
  lemma PayloadOfValidForm(providerId: string, patientId: Option<int>, provider: Option<Provider>,
                           patientName: string, service: string, date: string,
                           startTime: string, endTime: string, notes: string)
    requires ValidateBooking(date, startTime, endTime, patientName) == None
    ensures var p := BuildPayload(providerId, patientId, provider, patientName, service, date, startTime, endTime, notes);
            p.status == Confirmed && p.patient == patientId &&
            p.patientName != [] && Trimmed(p.patientName) && Trimmed(p.service) && Trimmed(p.notes) &&
            (provider.None? ==> p.providerName == "")
  {
    TrimmedResult(patientName);
    TrimmedResult(service);
    TrimmedResult(notes);
  }

  /** "Could not create appointment (HTTP <status>)" */
  function HttpErrorMessage(status: nat): string
  {
    "Could not create appointment (HTTP " + NatToString(status) + ")"
  }

  /**
   * The form error after a failed request: the server's `error` text or the
   * HTTP status for a refused request; the runtime's message (or a fixed
   * sentence) when the request never completed.
   */
  function SubmitError(reply: Fetched<ErrorBody>): (msg: string)
    requires !HttpOk(reply)
    ensures msg != ""
    ensures reply.Answered? && reply.body.Some? && Truthy(reply.body.value.error) ==> msg == reply.body.value.error.value
    ensures reply.Answered? && !(reply.body.Some? && Truthy(reply.body.value.error)) ==> msg == HttpErrorMessage(reply.status)
    ensures reply.NetworkFailure? ==> msg == (if reply.message != "" then reply.message else FallbackErrorMessage)
  {
    match reply
    case NetworkFailure(message) => if message != "" then message else FallbackErrorMessage
    case Answered(_, status, body) =>
      var error := if body.Some? then body.value.error else None;
      OrElse(error, HttpErrorMessage(status))
  }

  /** The status in the fallback message is the decimal text of the HTTP status. */
  lemma HttpErrorMessageNamesStatus(status: nat)
    ensures var m := HttpErrorMessage(status);
            |m| > 36 && m[..35] == "Could not create appointment (HTTP " &&
            ToNumber(m[35..|m| - 1]) == Int(status)
  {
    var prefix := "Could not create appointment (HTTP ";
    var digits := NatToString(status);
    var m := HttpErrorMessage(status);
    assert |prefix| == 35;
    assert m == prefix + digits + ")";
    assert m[..35] == prefix;
    assert m[35..|m| - 1] == digits;
    NumberOfDecimalText(status);
  }

  /** The provider endpoint's body `{item}`. */
  datatype ItemBody = ItemBody(item: Option<Provider>)

  class BookingForm {
    /** The `providerId` route parameter. */
    const providerId: string
    /** `user?.id || null` for the logged-in user. */
    const patientId: Option<int>

    var provider: Option<Provider>
    var loadingProvider: bool
    var providerError: string

    var patientName: string
    var service: string
    var date: string
    var startTime: string
    var endTime: string
    var notes: string

    var submitting: bool
    var formError: string
    var successMessage: string

    constructor (providerId: string, user: UserValue)
      ensures this.providerId == providerId && patientId == BookingPatientId(user)
      ensures provider == None && loadingProvider && providerError == ""
      ensures patientName == "" && service == "Physical" && date == "" && startTime == "" && endTime == "" && notes == ""
      ensures !submitting && formError == "" && successMessage == ""
    {
      this.providerId := providerId;
      patientId := BookingPatientId(user);
      provider := None;
      loadingProvider := true;
      providerError := "";
      patientName, service, date, startTime, endTime, notes := "", "Physical", "", "", "", "";
      submitting := false;
      formError := "";
      successMessage := "";
    }

    /**
     * `fetchProvider`: nothing happens without a provider id; otherwise a
     * reply with `res.ok` and a parsed body sets `provider` to its `item`
     * (or `null`) and any other outcome sets the provider error.
     */
    method LoadProvider(reply: Fetched<ItemBody>) returns (requested: bool)
      modifies this`provider, this`loadingProvider, this`providerError
      ensures requested == (providerId != "")
      ensures !requested ==> provider == old(provider) && loadingProvider == old(loadingProvider) &&
                             providerError == old(providerError)
      ensures requested ==> !loadingProvider
      ensures requested && HttpOkWithBody(reply) ==> provider == reply.body.value.item && providerError == ""
      ensures requested && !HttpOkWithBody(reply) ==> provider == old(provider) && providerError == ProviderErrorMessage
    {
      if providerId == "" {
        return false;
      }
      requested := true;
      loadingProvider := true;
      providerError := "";
      if HttpOkWithBody(reply) {
        provider := reply.body.value.item;
      } else {
        providerError := ProviderErrorMessage;
      }
      loadingProvider := false;
    }

    /**
     * `handleSubmit`. `sent` is the payload posted, None when validation
     * stopped the submission; `reply` is the outcome of that post;
     * `toHistory` is the navigation to the appointment history that follows
     * an accepted booking.
     */
    method Submit(reply: Fetched<ErrorBody>) returns (sent: Option<Payload>, toHistory: bool)
      modifies this`submitting, this`formError, this`successMessage
      ensures sent.Some? <==> ValidateBooking(date, startTime, endTime, patientName) == None
      ensures sent.None? ==> formError == ValidateBooking(date, startTime, endTime, patientName).value &&
                             successMessage == "" && submitting == old(submitting)
      ensures sent.Some? ==> sent.value == BuildPayload(providerId, patientId, provider, patientName, service,
                                                        date, startTime, endTime, notes)
      ensures sent.Some? ==> !submitting
      ensures toHistory <==> sent.Some? && HttpOk(reply)
      ensures sent.Some? && HttpOk(reply) ==> successMessage == BookedMessage && formError == ""
      ensures sent.Some? && !HttpOk(reply) ==> successMessage == "" && formError == SubmitError(reply)
    {
      formError := "";
      successMessage := "";
      var invalid := ValidateBooking(date, startTime, endTime, patientName);
      if invalid.Some? {
        formError := invalid.value;
        return None, false;
      }
      submitting := true;
      if HttpOk(reply) {
        successMessage := BookedMessage;
        toHistory := true;
      } else {
        formError := SubmitError(reply);
        toHistory := false;
      }
      submitting := false;
      // The payload depends only on fields this method does not write.
      sent := Some(BuildPayload(providerId, patientId, provider, patientName, service,
                                date, startTime, endTime, notes));
    }
  }
}
