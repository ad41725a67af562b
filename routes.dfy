/**
 * The HTTP handlers: the authentication guard, the session settings, tracking lookup,
 * sign-up, sign-in, the current-user endpoint and the newsletter endpoint. The request body
 * arrives already parsed by the schema (`None` is a validation error); password hashing and
 * comparison are function parameters standing for bcrypt.
 */
module Routes {
  import opened Wrappers
  import opened Records
  import opened Storage
  import opened EventSort

  datatype Body =
    | Error(error: string)
    | TrackingResult(shipment: Shipment, events: seq<TrackingEvent>)
    | SignedIn(user: UserRecord)
    | CurrentUser(user: UserRecord)
    | Subscribed(message: string)

  datatype Response = Response(status: int, body: Body)

  /** The error answers of the handlers. */
  const Unauthorized: Response := Response(401, Error("Unauthorized"))
  const InvalidTrackingNumber: Response := Response(400, Error("Invalid tracking number"))
  const ShipmentNotFound: Response := Response(404, Error("Shipment not found"))
  const InvalidInput: Response := Response(400, Error("Invalid input"))
  const UserExists: Response := Response(400, Error("User already exists with this email"))
  /** The one answer for an unknown email and for a wrong password alike. */
  const InvalidCredentials: Response := Response(401, Error("Invalid credentials"))
  const SignInFailed: Response := Response(500, Error("Failed to sign in"))
  const NotAuthenticated: Response := Response(401, Error("Not authenticated"))
  const EmailRequired: Response := Response(400, Error("Email is required"))

  /** The server-side session of one client. */
  class Session {
    var user: Option<UserRecord>
  }

  // ---------------------------------------------------------------- middleware

  datatype GuardResult = Next | Reject(response: Response)

  /** `isAuthenticated`: pass on when the session holds a user, otherwise answer 401. */
  function IsAuthenticated(sessionUser: Option<UserRecord>): (r: GuardResult)
    ensures r.Next? <==> sessionUser.Some?
    ensures r.Reject? ==> r.response == Unauthorized
  {
    if sessionUser.Some? then Next else Reject(Unauthorized)
  }

  // ---------------------------------------------------------------- session settings

  const MillisPerDay: int := 24 * 60 * 60 * 1000
  const SessionTtl: int := 7 * 24 * 60 * 60 * 1000
  const DevSessionSecret: string := "logistics-session-secret-key-dev"

  datatype SessionConfig = SessionConfig(
    storeTtl: int, tableName: string, createTableIfMissing: bool,
    secret: string, resave: bool, saveUninitialized: bool,
    cookieHttpOnly: bool, cookieSecure: bool, cookieMaxAge: int)

  /**
   * The options given to the session store and the session middleware; `secretEnv` is
   * `SESSION_SECRET` and `production` is `NODE_ENV === 'production'`.
   */
  function MakeSessionConfig(secretEnv: Option<string>, production: bool): (c: SessionConfig)
    ensures c.cookieMaxAge == c.storeTtl == 604800000 == 7 * MillisPerDay
    ensures c.secret == (if secretEnv.Some? && secretEnv.value != "" then secretEnv.value else DevSessionSecret)
    ensures c.secret != ""
    ensures c.cookieHttpOnly && c.cookieSecure == production
    ensures !c.resave && !c.saveUninitialized && c.tableName == "sessions"
  {
    SessionConfig(
      SessionTtl, "sessions", true,
      if secretEnv.Some? && secretEnv.value != "" then secretEnv.value else DevSessionSecret,
      false, false,
      true, production, SessionTtl)
  }

  // ---------------------------------------------------------------- tracking

  /** `trackingRequestSchema`: the tracking number must be a string of at least one character. */
  function ParseTrackingRequest(trackingNumber: Option<string>): (r: Option<string>)
    ensures r.Some? <==> trackingNumber.Some? && |trackingNumber.value| >= 1
    ensures r.Some? ==> r == trackingNumber
  {
    if trackingNumber.Some? && |trackingNumber.value| >= 1 then trackingNumber else None
  }

  /**
   * `POST /api/tracking`. An unknown tracking number answers 404 and touches no event list;
   * a known one answers the shipment with its events sorted by time, and because the sort
   * works on the stored array, the store's list is sorted too.
   */
  method HandleTracking(store: MemStorage, trackingNumber: Option<string>) returns (response: Response)
    requires store.Valid()
    modifies store.trackingEvents.Values
    ensures store.Valid()
    ensures ParseTrackingRequest(trackingNumber).None? ==>
      response == InvalidTrackingNumber
    ensures ParseTrackingRequest(trackingNumber).Some? && trackingNumber.value !in store.shipments ==>
      response == ShipmentNotFound
    ensures response.status != 200 ==>
      forall a :: a in store.trackingEvents.Values ==> a[..] == old(a[..])
    ensures ParseTrackingRequest(trackingNumber).Some? && trackingNumber.value in store.shipments ==>
      var shipment := store.shipments[trackingNumber.value];
      var stored := store.trackingEvents[shipment.id];
      && stored[..] == SortByTime(old(stored[..]))
      && response == Response(200, TrackingResult(shipment, stored[..]))
      && forall a :: a in store.trackingEvents.Values && a != stored ==> a[..] == old(a[..])
  {
    var parsed := ParseTrackingRequest(trackingNumber);
    if parsed.None? {
      return InvalidTrackingNumber;
    }
    var shipment := store.GetShipmentByTrackingNumber(parsed.value);
    if shipment.None? {
      return ShipmentNotFound;
    }
    var events := store.GetTrackingEvents(shipment.value.id);
    ghost var before := events[..];
    assert forall k :: k in store.trackingEvents && store.trackingEvents[k] == events ==>
      forall i :: 0 <= i < |before| ==> before[i].shipmentId == Some(k);
    SortInPlace(events);
    SortByTimeCorrect(before);
    assert forall a :: a in store.trackingEvents.Values && a != events ==> a[..] == old(a[..]);
    SortKeepsLinks(store, events, before);
    response := Response(200, TrackingResult(shipment.value, events[..]));
  }

  /** Sorting one stored list keeps every event under the shipment it names. */
  lemma SortKeepsLinks(store: MemStorage, events: array<TrackingEvent>, before: seq<TrackingEvent>)
    requires events in store.trackingEvents.Values
    requires multiset(SortByTime(before)) == multiset(before)
    requires events[..] == SortByTime(before)
    requires forall k, i :: (k in store.trackingEvents && store.trackingEvents[k] != events
      && 0 <= i < store.trackingEvents[k].Length) ==> store.trackingEvents[k][i].shipmentId == Some(k)
    requires forall k :: k in store.trackingEvents && store.trackingEvents[k] == events ==>
      forall i :: 0 <= i < |before| ==> before[i].shipmentId == Some(k)
    ensures forall k, i :: k in store.trackingEvents && 0 <= i < store.trackingEvents[k].Length ==>
      store.trackingEvents[k][i].shipmentId == Some(k)
  {
    forall k, i | k in store.trackingEvents && 0 <= i < store.trackingEvents[k].Length
      && store.trackingEvents[k] == events
      ensures store.trackingEvents[k][i].shipmentId == Some(k)
    {
      assert events[..][i] in multiset(before);
    }
  }

  // ---------------------------------------------------------------- sign-up and sign-in

  /** Some stored user has this email. */
  ghost predicate EmailTaken(users: map<string, UserRecord>, email: string)
  {
    exists id :: id in users && FieldIs(users[id], "email", email)
  }

  /** The user object the handlers return and put into the session: the record without its password. */
  function PublicUser(user: UserRecord): (u: UserRecord)
    ensures "password" !in u
    ensures forall f :: f in u <==> f in user && f != "password"
    ensures forall f :: f in u ==> u[f] == user[f]
  {
    Without(user, "password")
  }

  /**
   * `POST /api/auth/signup`. `parsed` is the validated body (it then carries `email` and
   * `password`), `hash` is `bcrypt.hash(_, 12)` and `id` the fresh `randomUUID()`.
   */
  method HandleSignUp(store: MemStorage, session: Session, parsed: Option<UserRecord>,
                      hash: string -> string, id: string) returns (response: Response)
    requires store.Valid()
    requires id !in store.users
    requires parsed.Some? ==> "email" in parsed.value && "password" in parsed.value
    modifies store, session
    ensures store.Valid()
    ensures store.shipments == old(store.shipments) && store.trackingEvents == old(store.trackingEvents)
    ensures store.contacts == old(store.contacts) && store.quotes == old(store.quotes)
    ensures parsed.None? ==>
      && response == InvalidInput
      && store.users == old(store.users) && store.userOrder == old(store.userOrder)
      && session.user == old(session.user)
    ensures parsed.Some? && EmailTaken(old(store.users), parsed.value["email"]) ==>
      && response == UserExists
      && store.users == old(store.users) && store.userOrder == old(store.userOrder)
      && session.user == old(session.user)
    ensures parsed.Some? && !EmailTaken(old(store.users), parsed.value["email"]) ==>
      var stored := Without(parsed.value, "recaptcha")["password" := hash(parsed.value["password"])]["id" := id];
      && store.users == old(store.users)[id := stored] && store.userOrder == old(store.userOrder) + [id]
      && FieldIs(store.users[id], "password", hash(parsed.value["password"]))
      && session.user == Some(PublicUser(stored))
      && response == Response(200, SignedIn(PublicUser(stored)))
    ensures session.user != old(session.user) ==> "password" !in session.user.value
  {
    if parsed.None? {
      return InvalidInput;
    }
    var userData := Without(parsed.value, "recaptcha");
    response := Register(store, session, userData, hash, id);
  }

  /**
   * The sign-up handler once the body is valid and the recaptcha token is dropped: refuse a
   * taken email, otherwise store the user with the hashed password and sign them in.
   */
  method Register(store: MemStorage, session: Session, userData: UserRecord,
                  hash: string -> string, id: string) returns (response: Response)
    requires store.Valid()
    requires id !in store.users
    requires "email" in userData && "password" in userData
    modifies store, session
    ensures store.Valid()
    ensures store.shipments == old(store.shipments) && store.trackingEvents == old(store.trackingEvents)
    ensures store.contacts == old(store.contacts) && store.quotes == old(store.quotes)
    ensures EmailTaken(old(store.users), userData["email"]) ==>
      && response == UserExists
      && store.users == old(store.users) && store.userOrder == old(store.userOrder)
      && session.user == old(session.user)
    ensures !EmailTaken(old(store.users), userData["email"]) ==>
      var stored := userData["password" := hash(userData["password"])]["id" := id];
      && store.users == old(store.users)[id := stored] && store.userOrder == old(store.userOrder) + [id]
      && FieldIs(store.users[id], "password", hash(userData["password"]))
      && session.user == Some(PublicUser(stored))
      && response == Response(200, SignedIn(PublicUser(stored)))
    ensures session.user != old(session.user) ==> "password" !in session.user.value
  {
    var existing := store.FindFirst("email", userData["email"]);
    if existing.Some? {
      ghost var owner :| owner in store.users && store.users[owner] == existing.value;
      assert EmailTaken(store.users, userData["email"]);
      return UserExists;
    }
    var hashedPassword := hash(userData["password"]);
    var user := store.CreateUser(userData["password" := hashedPassword], id);
    var userWithoutPassword := PublicUser(user);
    session.user := Some(userWithoutPassword);
    response := Response(200, SignedIn(userWithoutPassword));
  }

  /**
   * `POST /api/auth/signin`. `compare` is `bcrypt.compare`; when the stored user has no
   * password field bcrypt rejects its arguments and the handler answers 500.
   */
  method HandleSignIn(store: MemStorage, session: Session, parsed: Option<UserRecord>,
                      compare: (string, string) -> bool) returns (response: Response)
    requires store.Valid()
    requires parsed.Some? ==> "email" in parsed.value && "password" in parsed.value
    modifies session
    ensures parsed.None? ==> response == InvalidInput && session.user == old(session.user)
    ensures parsed.Some? ==>
      var found := FirstMatch(store.users, store.userOrder, "email", parsed.value["email"]);
      && (found.None? <==> !EmailTaken(store.users, parsed.value["email"]))
      && (found.None? ==> response == InvalidCredentials && session.user == old(session.user))
      && (found.Some? && "password" !in found.value ==>
            response == SignInFailed && session.user == old(session.user))
      && (found.Some? && "password" in found.value && !compare(parsed.value["password"], found.value["password"]) ==>
            response == InvalidCredentials && session.user == old(session.user))
      && (found.Some? && "password" in found.value && compare(parsed.value["password"], found.value["password"]) ==>
            && response == Response(200, SignedIn(PublicUser(found.value)))
            && session.user == Some(PublicUser(found.value)))
    ensures session.user != old(session.user) ==> "password" !in session.user.value
  {
    if parsed.None? {
      return InvalidInput;
    }
    var credentials := Without(parsed.value, "recaptcha");
    var user := store.FindFirst("email", credentials["email"]);
    if user.None? {
      return InvalidCredentials;
    }
    if "password" !in user.value {
      return SignInFailed;
    }
    var isValidPassword := compare(credentials["password"], user.value["password"]);
    if !isValidPassword {
      return InvalidCredentials;
    }
    var userWithoutPassword := PublicUser(user.value);
    session.user := Some(userWithoutPassword);
    response := Response(200, SignedIn(userWithoutPassword));
  }

  // ---------------------------------------------------------------- current user, newsletter

  /** `GET /api/auth/user`: the session's user, or 401 when there is none. */
  function GetCurrentUser(sessionUser: Option<UserRecord>): (r: Response)
    ensures r.status == 200 <==> sessionUser.Some?
    ensures sessionUser.Some? ==> r.body == CurrentUser(sessionUser.value)
    ensures sessionUser.None? ==> r == NotAuthenticated
  {
    if sessionUser.Some? then Response(200, CurrentUser(sessionUser.value))
    else NotAuthenticated
  }

  /** The guard lets a request through exactly when the current-user endpoint answers 200. */
  lemma GuardAgreesWithCurrentUser(sessionUser: Option<UserRecord>)
    ensures IsAuthenticated(sessionUser).Next? <==> GetCurrentUser(sessionUser).status == 200
  {
  }

  /** `POST /api/newsletter`: a missing or empty email is refused. */
  function HandleNewsletter(email: Option<string>): (r: Response)
    ensures r.status == 200 <==> email.Some? && email.value != ""
    ensures r.status != 200 ==> r == EmailRequired
    ensures r.status == 200 ==> r.body == Subscribed("Subscribed to newsletter")
  {
    if email.None? || email.value == "" then EmailRequired
    else Response(200, Subscribed("Subscribed to newsletter"))
  }

  // ---------------------------------------------------------------- seed data and the sort

  /** The seeded event lists are already in time order, so the first lookup does not reorder them. */
  lemma SeedEventsInTimeOrder()
    ensures SortByTime(SeedEventsOne) == SeedEventsOne
    ensures SortByTime(SeedEventsTwo) == SeedEventsTwo
  {
    assert SortedByTime(SeedEventsOne) by {
      assert TimeKey(SeedEventsOne[0]) == 1734255000000 && TimeKey(SeedEventsOne[1]) == 1734358500000;
      assert TimeKey(SeedEventsOne[2]) == 1734389100000 && TimeKey(SeedEventsOne[3]) == 1734422400000;
    }
    assert SortedByTime(SeedEventsTwo) by {
      assert TimeKey(SeedEventsTwo[0]) == 1733824800000 && TimeKey(SeedEventsTwo[1]) == 1734264000000;
    }
    SortByTimeOfSorted(SeedEventsOne);
    SortByTimeOfSorted(SeedEventsTwo);
  }
}
