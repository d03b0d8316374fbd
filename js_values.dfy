/**
 * The few JavaScript runtime values the client's decisions depend on:
 * optional fields (`undefined`/`null`), truthiness, numbers produced by
 * `Number(...)`, and the outcome of a `fetch` call.
 */
module JsValues {

  /** A field that may be `undefined` or `null` (None) or hold a value. */
  datatype Option<+T> = None | Some(value: T)

  /** Truthiness of an optional string: `undefined`, `null` and `""` are falsy. */
  predicate Truthy(s: Option<string>)
  {
    s.Some? && s.value != ""
  }

  /** `s || fallback` for an optional string. */
  function OrElse(s: Option<string>, fallback: string): (r: string)
    ensures fallback != "" ==> r != ""
  {
    if Truthy(s) then s.value else fallback
  }

  /**
   * A JavaScript number as far as the client uses it: an integer value or
   * `NaN`. Ids and instants are integers throughout the client.
   */
  datatype JsNumber = NaN | Int(n: int)

  /** Truthiness of a number: `0` and `NaN` are falsy. */
  predicate NumTruthy(x: JsNumber)
  {
    x.Int? && x.n != 0
  }

  /** Truthiness of an optional integer field (`undefined`, `null` and `0` are falsy). */
  predicate IdTruthy(x: Option<int>)
  {
    x.Some? && x.value != 0
  }

  /**
   * What a `fetch(...)` call, followed by `res.json()` where the caller reads
   * the body, can produce:
   *  - NetworkFailure: the promise rejected; `message` is the runtime's text;
   *  - Answered: the server replied with HTTP `status` (`ok` is `res.ok`);
   *    `body` is None when `res.json()` rejected (the text was not JSON) or
   *    the JSON value was `null`, so that reading a property of it throws.
   */
  datatype Fetched<B> =
    | NetworkFailure(message: string)
    | Answered(ok: bool, status: nat, body: Option<B>)

  /** `res.ok` was true: the request reached the server and was accepted. */
  predicate HttpOk<B>(r: Fetched<B>)
  {
    r.Answered? && r.ok
  }

  /** `res.ok` was true and the body parsed to a JSON object. */
  predicate HttpOkWithBody<B>(r: Fetched<B>)
  {
    r.Answered? && r.ok && r.body.Some?
  }
}
