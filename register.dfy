/**
 * The registration page. It posts to the register endpoint itself (it does
 * not go through the session store's `register`) and judges the reply by
 * its HTTP status.
 */
module Register {
  import opened JsValues
  import opened JsString
  import opened Entities

  const RequiredMessage: string := "Username and password are required."
  const MismatchMessage: string := "Passwords do not match."
  const FallbackMessage: string := "Could not create account."

  /**
   * The checks run before any request: both required fields first, then
   * the confirmation. The e-mail address is not checked. None means the form passes.
   */
  function ValidateRegistration(username: string, password: string, password2: string): (r: Option<string>)
    ensures r == Some(RequiredMessage) <==> username == "" || password == ""
    ensures r == Some(MismatchMessage) <==> username != "" && password != "" && password != password2
    ensures r == None <==> username != "" && password != "" && password == password2
  {
    if username == "" || password == "" then Some(RequiredMessage)
    else if password != password2 then Some(MismatchMessage)
    else None
  }

  /** `HTTP <status>` */
  function HttpStatusMessage(status: nat): string
  {
    "HTTP " + NatToString(status)
  }

  /**
   * The error shown after a failed request: the server's `error` text, else
   * `HTTP <status>` (an unreadable body counts as `{}`); the runtime's
   * message, else a fixed sentence, when the request never completed.
   */
  function RegisterError(reply: Fetched<ErrorBody>): (msg: string)
    requires !HttpOk(reply)
    ensures msg != ""
    ensures reply.Answered? && reply.body.Some? && Truthy(reply.body.value.error) ==> msg == reply.body.value.error.value
    ensures reply.Answered? && !(reply.body.Some? && Truthy(reply.body.value.error)) ==> msg == HttpStatusMessage(reply.status)
    ensures reply.NetworkFailure? ==> msg == (if reply.message != "" then reply.message else FallbackMessage)
  {
    match reply
    case NetworkFailure(message) => if message != "" then message else FallbackMessage
    case Answered(_, status, body) =>
      var error := if body.Some? then body.value.error else None;
      OrElse(error, HttpStatusMessage(status))
  }

  /** The body posted to the register endpoint. */
  datatype RegisterRequest = RegisterRequest(username: string, email: string, password: string)

  class RegisterForm {
    var username: string
    var email: string
    var password: string
    var password2: string
    var error: string
    var submitting: bool

    constructor ()
      ensures username == "" && email == "" && password == "" && password2 == ""
      ensures error == "" && !submitting
    {
      username, email, password, password2 := "", "", "", "";
      error := "";
      submitting := false;
    }

    /**
     * `handleSubmit`. `sent` is the request posted, None when validation
     * stopped the submission; `toLogin` is the navigation to the login page
     * that follows an accepted request.
     */
    method Submit(reply: Fetched<ErrorBody>) returns (sent: Option<RegisterRequest>, toLogin: bool)
      modifies this`error, this`submitting
      ensures sent.Some? <==> ValidateRegistration(username, password, password2) == None
      ensures sent.None? ==> error == ValidateRegistration(username, password, password2).value &&
                             submitting == old(submitting)
      ensures sent.Some? ==> sent.value == RegisterRequest(username, email, password) && !submitting
      ensures toLogin <==> sent.Some? && HttpOk(reply)
      ensures sent.Some? && HttpOk(reply) ==> error == ""
      ensures sent.Some? && !HttpOk(reply) ==> error == RegisterError(reply)
    {
      error := "";
      var invalid := ValidateRegistration(username, password, password2);
      if invalid.Some? {
        error := invalid.value;
        return None, false;
      }
      submitting := true;
      sent := Some(RegisterRequest(username, email, password));
      if HttpOk(reply) {
        toLogin := true;
      } else {
        toLogin := false;
        error := RegisterError(reply);
      }
      submitting := false;
    }
  }
}
