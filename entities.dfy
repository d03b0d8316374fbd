/**
 * The records the client receives from the backend, reduced to the fields
 * its decisions read, and the shapes of the response bodies it inspects.
 */
module Entities {
  import opened JsValues

  /**
   * The logged-in user object as the login endpoint returns it: `id`,
   * `role` ("patient" or "provider", but any text may arrive) and, for
   * providers, `provider_id`. Each field may be missing.
   */
  datatype User = User(id: Option<int>, role: Option<string>, providerId: Option<int>)

  /** The falsy values JSON can carry besides `null`: `false`, `0` and `""`. */
  datatype FalsyValue = False | Zero | EmptyString

  /**
   * The value held by the session's `user` variable: `undefined`, `null`,
   * another falsy JSON value, or an object. A truthy JSON value that is not
   * an object (`true`, a non-zero number, a non-empty string, an array)
   * behaves like an object none of whose fields is present.
   */
  datatype UserValue = Undefined | Null | Falsy(value: FalsyValue) | Obj(user: User)

  /** `!user` is false: a user object (a truthy value) is present. */
  predicate HasUser(v: UserValue)
  {
    v.Obj?
  }

  /** `user && user.provider_id`: a provider id to fetch bookings with. */
  predicate HasProviderId(v: UserValue)
  {
    v.Obj? && IdTruthy(v.user.providerId)
  }

  /**
   * An appointment: `start` is the instant its `start` text denotes, None
   * when `new Date(start)` is an Invalid Date.
   */
  datatype Appointment = Appointment(
    id: int,
    patientName: string,
    service: string,
    status: string,
    start: Option<int>,
    notes: string)

  /** The status of a booked appointment that can still be cancelled or completed. */
  const Confirmed: string := "confirmed"

  /** A provider as listed by the providers endpoint. */
  datatype Provider = Provider(id: int, userName: Option<string>, location: Option<string>)

  /**
   * A body `{status, items}`: `items` is None when the field is missing or
   * is not an array.
   */
  datatype ListBody<T> = ListBody(status: Option<string>, items: Option<seq<T>>)

  /** A body that may carry an `error` text. */
  datatype ErrorBody = ErrorBody(error: Option<string>)

  /** `Array.isArray(data.items) ? data.items : []` */
  function ItemsOrEmpty<T>(body: ListBody<T>): seq<T>
  {
    if body.items.Some? then body.items.value else []
  }

  /** The reply parsed to a body whose `status` is "ok" (`data.status === "ok"`). */
  predicate StatusOk<T>(reply: Fetched<ListBody<T>>)
  {
    reply.Answered? && reply.body.Some? && reply.body.value.status == Some("ok")
  }
}
