/**
 * The session store (`AuthProvider`): the in-memory `user` and
 * `isAuthenticated` values and the durable `"user"` entry of the browser's
 * local storage, with the rehydrate effect run on mount and the `login`,
 * `register` and `logout` operations.
 *
 * Each operation is a pure step on a `Session` value; the class `AuthStore`
 * performs the same updates in place and is proved to agree with the steps.
 */
module AuthContext {
  import opened JsValues
  import opened Entities
  import RouteGuard

  const InvalidCredentials: string := "Invalid credentials"
  const NetworkError: string := "Network error"
  const RegistrationFailed: string := "Registration failed"

  /**
   * JSON as far as the store relies on it: `encode` is the text
   * `JSON.stringify` gives for a user object; `parse` is `JSON.parse`, None
   * when it throws.
   */
  datatype Codec = Codec(encode: User -> string, parse: string -> Option<UserValue>)

  /** What JSON guarantees about the two functions. */
  ghost predicate ValidCodec(c: Codec)
  {
    (forall u :: c.encode(u) != [] && c.encode(u)[0] == '{') &&
    (forall u :: c.parse(c.encode(u)) == Some(Obj(u))) &&
    c.parse("null") == Some(Null) &&
    (forall v :: c.parse(FalsyText(v)) == Some(Falsy(v))) &&
    c.parse("undefined") == None &&
    (forall t :: c.parse(t) != Some(Undefined))
  }

  /** `JSON.stringify` of a falsy value. */
  function FalsyText(v: FalsyValue): string
  {
    match v
    case False => "false"
    case Zero => "0"
    case EmptyString => "\"\""
  }

  /**
   * `localStorage.setItem("user", JSON.stringify(v))`: the stored text.
   * `JSON.stringify(undefined)` is `undefined`, which `setItem` stores as the
   * text "undefined".
   */
  function StoredText(c: Codec, v: UserValue): string
  {
    match v
    case Undefined => "undefined"
    case Null => "null"
    case Falsy(f) => FalsyText(f)
    case Obj(u) => c.encode(u)
  }

  /** The store's state: the two React state values and the `"user"` storage entry (None when absent). */
  datatype Session = Session(user: UserValue, isAuthenticated: bool, slot: Option<string>)

  /** The state when the provider mounts, with whatever the storage entry already holds. */
  function Mounted(saved: Option<string>): Session
  {
    Session(Null, false, saved)
  }

  // ---------------------------------------------------------------------------
  // Rehydrate on mount
  // ---------------------------------------------------------------------------

  /** ParseThrew: `JSON.parse` threw inside the effect; nothing catches it. */
  datatype RehydrateOutcome = NothingSaved | Restored | ParseThrew

  /**
   * The mount effect: a non-empty entry is parsed into `user` and the
   * session is marked authenticated. The entry itself is never written, and
   * only a restored entry changes the state.
   */
  function RehydrateStep(c: Codec, s: Session): (r: (Session, RehydrateOutcome))
    ensures r.0.slot == s.slot
    ensures r.1 == NothingSaved <==> !Truthy(s.slot)
    ensures r.1 != Restored ==> r.0 == s
  {
    if !Truthy(s.slot) then (s, NothingSaved)
    else
      match c.parse(s.slot.value)
      case None => (s, ParseThrew)
      case Some(v) => (s.(user := v, isAuthenticated := true), Restored)
  }

  /**
   * A non-empty entry either throws in the parse or is restored, and a
   * restored entry sets the parsed user and the flag together.
   */
  lemma RehydrateEffect(c: Codec, s: Session)
    ensures var (t, o) := RehydrateStep(c, s);
            (o == ParseThrew <==> Truthy(s.slot) && c.parse(s.slot.value).None?) &&
            (o == Restored ==> t.isAuthenticated && Some(t.user) == c.parse(s.slot.value))
  {
  }

  // ---------------------------------------------------------------------------
  // Login
  // ---------------------------------------------------------------------------

  /** The login endpoint's JSON body: `status` and `user`. */
  datatype LoginBody = LoginBody(status: Option<string>, user: UserValue)

  /** `{success: true, user}` or `{success: false, message}`. */
  datatype LoginResult = LoggedIn(user: UserValue) | LoginFailed(message: string)

  /** The reply parsed and its `status` is "ok"; the HTTP status is not consulted. */
  predicate LoginAccepted(reply: Fetched<LoginBody>)
  {
    reply.Answered? && reply.body.Some? && reply.body.value.status == Some("ok")
  }

  /**
   * `login`: the result and the new state agree. A login succeeds exactly
   * when the reply is accepted, and then the session holds the reported
   * user, whose JSON text is the new entry; a failed login leaves the
   * session as it was.
   */
  function LoginStep(c: Codec, s: Session, reply: Fetched<LoginBody>): (r: (Session, LoginResult))
    ensures r.1.LoggedIn? <==> LoginAccepted(reply)
    ensures r.1.LoggedIn? ==> r.0.user == r.1.user && r.0.isAuthenticated && r.0.slot == Some(StoredText(c, r.0.user))
    ensures r.1.LoginFailed? ==> r.0 == s && r.1.message in {NetworkError, InvalidCredentials}
  {
    if reply.NetworkFailure? || reply.body.None? then
      (s, LoginFailed(NetworkError))
    else if reply.body.value.status != Some("ok") then
      (s, LoginFailed(InvalidCredentials))
    else
      var u := reply.body.value.user;
      (Session(u, true, Some(StoredText(c, u))), LoggedIn(u))
  }

  /**
   * A refused or failed login changes nothing; its message is "Network error"
   * exactly when the request or the parse of the reply failed, and
   * "Invalid credentials" otherwise.
   */
  lemma LoginFailureChangesNothing(c: Codec, s: Session, reply: Fetched<LoginBody>)
    requires !LoginAccepted(reply)
    ensures LoginStep(c, s, reply).0 == s
    ensures LoginStep(c, s, reply).1.LoginFailed?
    ensures LoginStep(c, s, reply).1.message == NetworkError <==> reply.NetworkFailure? || reply.body.None?
    ensures LoginStep(c, s, reply).1.message == InvalidCredentials <==> reply.Answered? && reply.body.Some?
  {
  }

  /** An accepted login stores the returned user in memory and in the entry, and reports it. */
  lemma LoginSuccessStoresUser(c: Codec, s: Session, reply: Fetched<LoginBody>)
    requires ValidCodec(c)
    requires LoginAccepted(reply)
    ensures var (t, r) := LoginStep(c, s, reply);
            r == LoggedIn(reply.body.value.user) &&
            t.user == reply.body.value.user && t.isAuthenticated &&
            t.slot == Some(StoredText(c, t.user)) && Truthy(t.slot)
  {
  }

  // ---------------------------------------------------------------------------
  // Register
  // ---------------------------------------------------------------------------

  /** The register endpoint's JSON body: `status` and an optional `error`. */
  datatype RegisterBody = RegisterBody(status: Option<string>, error: Option<string>)

  /** `{success: true}` or `{success: false, message}`. */
  datatype RegisterResult = Registered | RegisterFailed(message: string)

  /** `register`: a mapping of the reply alone, with no access to the session. */
  function RegisterOutcome(reply: Fetched<RegisterBody>): (r: RegisterResult)
    ensures r == Registered <==>
            reply.Answered? && reply.body.Some? && reply.body.value.status == Some("created")
    ensures reply.NetworkFailure? || reply.body.None? ==> r == RegisterFailed(NetworkError)
    ensures reply.Answered? && reply.body.Some? && r.RegisterFailed? ==>
            r.message == (if Truthy(reply.body.value.error) then reply.body.value.error.value
                          else RegistrationFailed)
    ensures r.RegisterFailed? ==> r.message != ""
  {
    if reply.NetworkFailure? || reply.body.None? then RegisterFailed(NetworkError)
    else if reply.body.value.status != Some("created") then
      RegisterFailed(OrElse(reply.body.value.error, RegistrationFailed))
    else Registered
  }

  // ---------------------------------------------------------------------------
  // Logout
  // ---------------------------------------------------------------------------

  /** `logout`: whatever the session, the state of a fresh mount with nothing stored. */
  function LogoutStep(s: Session): (r: Session)
    ensures r == Mounted(None)
  {
    Session(Null, false, None)
  }

  /** A second logout changes nothing. */
  lemma LogoutIdempotent(s: Session)
    ensures LogoutStep(LogoutStep(s)) == LogoutStep(s)
  {
  }

  // ---------------------------------------------------------------------------
  // The session invariant
  // ---------------------------------------------------------------------------

  /**
   * The two flags move together: the session is authenticated exactly when
   * the entry holds a non-empty text, and an unauthenticated session holds
   * the `null` user.
   */
  predicate Consistent(s: Session)
  {
    (s.isAuthenticated <==> Truthy(s.slot)) && (!s.isAuthenticated ==> s.user == Null)
  }

  /** The entry of an authenticated session parses back to its user, so a reload restores it. */
  predicate SlotMatchesUser(c: Codec, s: Session)
  {
    s.isAuthenticated ==> s.slot.Some? && c.parse(s.slot.value) == Some(s.user)
  }

  /** After a mount whose effect did not throw, the session is consistent and agrees with its entry. */
  lemma RehydrateEstablishesInvariant(c: Codec, saved: Option<string>)
    ensures RehydrateStep(c, Mounted(saved)).1 != ParseThrew ==>
            Consistent(RehydrateStep(c, Mounted(saved)).0) &&
            SlotMatchesUser(c, RehydrateStep(c, Mounted(saved)).0)
  {
  }

  /** Every login, accepted or not, keeps the session consistent. */
  lemma LoginPreservesConsistency(c: Codec, s: Session, reply: Fetched<LoginBody>)
    requires ValidCodec(c)
    requires Consistent(s)
    ensures Consistent(LoginStep(c, s, reply).0)
  {
  }

  /** Logout makes any session consistent. */
  lemma LogoutEstablishesConsistency(s: Session)
    ensures Consistent(LogoutStep(s))
  {
  }

  /**
   * A login whose accepted reply carries a user (object or `null`) keeps the
   * entry in step with memory, and reloading the page then restores exactly
   * the logged-in session.
   */
  lemma LoginThenReloadRestoresSession(c: Codec, s: Session, reply: Fetched<LoginBody>)
    requires ValidCodec(c)
    requires SlotMatchesUser(c, s)
    requires LoginAccepted(reply) ==> reply.body.value.user != Undefined
    ensures SlotMatchesUser(c, LoginStep(c, s, reply).0)
    ensures LoginAccepted(reply) ==>
            RehydrateStep(c, Mounted(LoginStep(c, s, reply).0.slot)) == (LoginStep(c, s, reply).0, Restored)
  {
    if LoginAccepted(reply) {
      var u := reply.body.value.user;
      assert c.parse(StoredText(c, u)) == Some(u);
    }
  }

  /**
   * An "ok" reply without a `user` field authenticates a session whose user
   * is `undefined` (which the route guard still refuses) and stores the text
   * "undefined", so the next page load's `JSON.parse` throws.
   */
  lemma LoginWithoutUserBreaksReload(c: Codec, s: Session, ok: bool, status: nat)
    requires ValidCodec(c)
    ensures var t := LoginStep(c, s, Answered(ok, status, Some(LoginBody(Some("ok"), Undefined)))).0;
            t.isAuthenticated && t.user == Undefined && !SlotMatchesUser(c, t) &&
            RehydrateStep(c, Mounted(t.slot)).1 == ParseThrew
  {
  }

  /**
   * An "ok" reply whose `user` is a falsy JSON value (`false`, `0`, `""`)
   * authenticates the session, and a reload restores it, yet the route guard
   * sends every such session to the login page.
   */
  lemma FalsyUserIsSignedInButRefused(c: Codec, s: Session, ok: bool, status: nat, v: FalsyValue,
                                      allowedRoles: Option<seq<string>>)
    requires ValidCodec(c)
    ensures var t := LoginStep(c, s, Answered(ok, status, Some(LoginBody(Some("ok"), Falsy(v))))).0;
            t.isAuthenticated && Consistent(t) &&
            RehydrateStep(c, Mounted(t.slot)) == (t, Restored) &&
            RouteGuard.Decide(t.isAuthenticated, t.user, allowedRoles) == RouteGuard.Navigate(RouteGuard.LoginPath)
  {
    assert c.parse(FalsyText(v)) == Some(Falsy(v));
  }

  // ---------------------------------------------------------------------------
  // The store itself
  // ---------------------------------------------------------------------------

  class AuthStore {
    const codec: Codec
    var user: UserValue
    var isAuthenticated: bool
    /** localStorage "user" */
    var slot: Option<string>

    function State(): Session
      reads this
    {
      Session(user, isAuthenticated, slot)
    }

    constructor (codec: Codec, saved: Option<string>)
      ensures this.codec == codec && State() == Mounted(saved)
    {
      this.codec := codec;
      user := Null;
      isAuthenticated := false;
      slot := saved;
    }

    /** The mount effect. */
    method RehydrateOnMount() returns (outcome: RehydrateOutcome)
      modifies this
      ensures (State(), outcome) == RehydrateStep(codec, old(State()))
    {
      var saved := slot;
      if !Truthy(saved) {
        return NothingSaved;
      }
      var parsed := codec.parse(saved.value);
      if parsed.None? {
        return ParseThrew;
      }
      user := parsed.value;
      isAuthenticated := true;
      outcome := Restored;
    }

    method Login(reply: Fetched<LoginBody>) returns (result: LoginResult)
      modifies this
      ensures (State(), result) == LoginStep(codec, old(State()), reply)
    {
      if reply.NetworkFailure? || reply.body.None? {
        return LoginFailed(NetworkError);
      }
      var data := reply.body.value;
      if data.status != Some("ok") {
        return LoginFailed(InvalidCredentials);
      }
      user := data.user;
      isAuthenticated := true;
      slot := Some(StoredText(codec, data.user));
      result := LoggedIn(data.user);
    }

    /**
     * `register` reads no state and, having no `modifies` frame, changes
     * none: that empty frame is all this method adds to `RegisterOutcome`.
     */
    method Register(reply: Fetched<RegisterBody>) returns (result: RegisterResult)
      ensures result == RegisterOutcome(reply)
    {
      result := RegisterOutcome(reply);
    }

    method Logout()
      modifies this
      ensures State() == LogoutStep(old(State()))
    {
      user := Null;
      isAuthenticated := false;
      slot := None;
    }
  }
}
