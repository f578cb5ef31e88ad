/**
 * The account rules of the server (backend/Controller/Controller.js):
 * registration, login with its day streak, the profile upsert and the
 * profile lookup.  The user collection is a map from email to record; the
 * password hash and the session token are free constructors standing for
 * bcrypt and jwt; a calendar day is an integer day number.
 */
module Accounts {
  import opened Wrappers
  import EmailFormat

  // ---------------------------------------------------------------------------
  // Request fields and the opaque libraries
  // ---------------------------------------------------------------------------

  /** A property of a JSON request body: absent, `null`, or a value. */
  datatype Field<T> = Undefined | Null | Given(value: T)

  /** JavaScript truthiness of a string property: present and not empty. */
  predicate Truthy(f: Field<string>) {
    f.Given? && f.value != ""
  }

  /** What the database keeps for a property: the value, or nothing for `null`. */
  function Stored<T>(f: Field<T>): Option<T> {
    if f.Given? then Some(f.value) else None
  }

  /** `if (x !== undefined) user.f = x`: absent keeps, `null` clears, a value replaces. */
  function Overwrite<T>(current: Option<T>, f: Field<T>): (r: Option<T>)
    ensures f.Undefined? ==> r == current
    ensures f.Null? ==> r == None
    ensures f.Given? ==> r == Some(f.value)
  {
    if f.Undefined? then current else Stored(f)
  }

  /** `bcrypt.hash(password, 10)`; `bcrypt.compare` accepts exactly the hashed password. */
  datatype PasswordHash = Bcrypt(secret: string)

  predicate PasswordMatches(password: string, hash: PasswordHash) {
    hash == Bcrypt(password)
  }

  /** `jwt.sign({ id })`. */
  datatype Token = Jwt(userId: nat)

  // ---------------------------------------------------------------------------
  // Records, requests and responses
  // ---------------------------------------------------------------------------

  datatype User = User(
    id: nat,
    name: string,
    email: string,
    password: PasswordHash,
    firstName: Option<string>,
    surname: Option<string>,
    gender: Option<string>,
    birthDate: Option<string>,
    height: Option<string>,
    weight: Option<string>,
    heartSurgery: Option<bool>,
    withinSixMonths: Option<bool>,
    heartSurgeryComment: Option<string>,
    fractures: Option<bool>,
    withinSixMonthsFracture: Option<bool>,
    fracturesComment: Option<string>,
    streakCount: Option<int>,
    lastLoginDate: Option<int>,
    loginDates: seq<int>)

  type Users = map<string, User>

  datatype RegisterRequest = RegisterRequest(
    name: Field<string>, email: Field<string>, password: Field<string>,
    height: Field<string>, weight: Field<string>, gender: Field<string>, birthDate: Field<string>)

  datatype LoginRequest = LoginRequest(email: Field<string>, password: Field<string>)

  datatype ProfileRequest = ProfileRequest(
    email: Field<string>, firstName: Field<string>, surname: Field<string>, sex: Field<string>,
    birthDate: Field<string>, height: Field<string>, weight: Field<string>,
    heartSurgery: Field<bool>, withinSixMonths: Field<bool>, heartSurgeryComment: Field<string>,
    fractures: Field<bool>, withinSixMonthsFracture: Field<bool>, fracturesComment: Field<string>)

  datatype UserSummary = UserSummary(id: nat, name: string, email: string)

  datatype LoginView = LoginView(id: nat, name: string, email: string, firstName: Option<string>, streakCount: int)

  datatype ProfileView = ProfileView(
    id: nat, firstName: Option<string>, surname: Option<string>, name: string, email: string,
    height: Option<string>, weight: Option<string>, gender: Option<string>, birthDate: Option<string>)

  datatype FullProfile = FullProfile(
    id: nat, firstName: Option<string>, surname: Option<string>, name: string, email: string,
    height: Option<string>, weight: Option<string>, gender: Option<string>, birthDate: Option<string>,
    streakCount: int, lastLoginDate: Option<int>,
    heartSurgery: Option<bool>, withinSixMonths: Option<bool>, heartSurgeryComment: Option<string>,
    fractures: Option<bool>, withinSixMonthsFracture: Option<bool>, fracturesComment: Option<string>)

  /** The JSON bodies the handlers send. */
  datatype Body =
    | Failure(message: string)
    | Unavailable(message: string, error: string)
    | Created(message: string, user: UserSummary)
    | LoggedIn(message: string, token: Token, login: LoginView)
    | ProfileSaved(message: string, profile: ProfileView)
    | ProfileFound(found: FullProfile)

  datatype Response = Response(status: int, body: Body)

  /** A response together with the user collection and id counter after it. */
  datatype Outcome = Outcome(response: Response, users: Users, nextId: nat)

  const DbUnavailableMsg := "Database connection not available. Please check MongoDB Atlas IP whitelist settings."
  const DbUnavailableError := "MongoDB not connected"
  const MissingFieldsMsg := "Name, email, and password are required"
  const InvalidEmailMsg := "Please enter a valid email address"
  const ShortPasswordMsg := "Password must be at least 6 characters long"
  const DuplicateEmailMsg := "User with this email already exists"
  const CreatedMsg := "User created successfully"
  const LoginMissingMsg := "Email and password are required"
  const BadCredentialsMsg := "Invalid email or password"
  const LoginOkMsg := "Login successful"
  const EmailRequiredMsg := "Email is required"
  const ProfileUpdatedMsg := "Profile updated successfully"
  const NotFoundMsg := "User not found"
  const MinPasswordLength := 6

  const DbUnavailable := Response(503, Unavailable(DbUnavailableMsg, DbUnavailableError))

  // ---------------------------------------------------------------------------
  // The store invariant
  // ---------------------------------------------------------------------------

  predicate Increasing(ds: seq<int>) {
    forall j, m :: 0 <= j < m < |ds| ==> ds[j] < ds[m]
  }

  /**
   * Number of entries at the end of `ds` that are consecutive days, counting
   * back from the last one.
   */
  function RunLength(ds: seq<int>): nat {
    if |ds| == 0 then 0
    else if |ds| >= 2 && ds[|ds| - 2] + 1 == ds[|ds| - 1] then 1 + RunLength(ds[..|ds| - 1])
    else 1
  }

  /**
   * `n` is the length of the run of consecutive days that ends with the last
   * login: the last `n` entries are the days `last - n + 1 .. last`, and the
   * entry before them, if any, is not the day before the run.
   */
  ghost predicate IsStreakOf(n: nat, ds: seq<int>) {
    && n <= |ds|
    && (n == 0 <==> ds == [])
    && (forall j :: |ds| - n <= j < |ds| ==> ds[j] == ds[|ds| - 1] - (|ds| - 1 - j))
    && (n < |ds| ==> ds[|ds| - 1 - n] != ds[|ds| - 1] - n)
  }

  lemma {:induction false} RunLengthIsStreak(ds: seq<int>)
    ensures IsStreakOf(RunLength(ds), ds)
  {
    if |ds| >= 2 && ds[|ds| - 2] + 1 == ds[|ds| - 1] {
      var init := ds[..|ds| - 1];
      RunLengthIsStreak(init);
      forall j | |ds| - RunLength(ds) <= j < |ds|
        ensures ds[j] == ds[|ds| - 1] - (|ds| - 1 - j)
      {
        if j < |ds| - 1 {
          assert ds[j] == init[j];
        }
      }
      if RunLength(ds) < |ds| {
        assert ds[|ds| - 1 - RunLength(ds)] == init[|init| - 1 - RunLength(init)];
      }
    }
  }

  /**
   * The login history of a record: days strictly increasing, the last one is
   * `lastLoginDate`, and `streakCount` is the run of consecutive days ending
   * there; a record that never logged in has neither.
   */
  ghost predicate HistoryConsistent(u: User) {
    && Increasing(u.loginDates)
    && (u.lastLoginDate.None? <==> u.loginDates == [])
    && (u.lastLoginDate.Some? ==>
          && u.loginDates[|u.loginDates| - 1] == u.lastLoginDate.value
          && u.streakCount == Some(RunLength(u.loginDates)))
  }

  /** Emails are unique keys, ids are below the counter and distinct. */
  ghost predicate StoreShape(users: Users, nextId: nat) {
    && (forall e :: e in users ==> users[e].email == e && users[e].id < nextId)
    && (forall e, f :: e in users && f in users && e != f ==> users[e].id != users[f].id)
  }

  /** Every record's login history is consistent. */
  ghost predicate HistoriesConsistent(users: Users) {
    forall e :: e in users ==> HistoryConsistent(users[e])
  }

  /** The shape of the collection together with consistent login histories. */
  ghost predicate StoreValid(users: Users, nextId: nat) {
    StoreShape(users, nextId) && HistoriesConsistent(users)
  }

  /** Nobody's last login lies after `today`. */
  ghost predicate NotInFuture(users: Users, today: int) {
    forall e :: e in users && users[e].lastLoginDate.Some? ==> users[e].lastLoginDate.value <= today
  }

  lemma EmptyStoreValid()
    ensures StoreValid(map[], 0)
  {
  }

  /** Adding a fresh record with the next id keeps the store's shape, and its validity when the record's history is consistent. */
  lemma AddKeepsStoreValid(users: Users, nextId: nat, u: User)
    requires StoreShape(users, nextId)
    requires u.email !in users && u.id == nextId
    ensures StoreShape(users[u.email := u], nextId + 1)
    ensures StoreValid(users, nextId) && HistoryConsistent(u) ==> StoreValid(users[u.email := u], nextId + 1)
  {
  }

  // ---------------------------------------------------------------------------
  // createUser
  // ---------------------------------------------------------------------------

  /** Name, email and password all present and non-empty. */
  predicate RegistrationFilled(req: RegisterRequest) {
    Truthy(req.name) && Truthy(req.email) && Truthy(req.password)
  }

  /** Every check of `createUser` passes. */
  predicate RegistrationAccepted(users: Users, connected: bool, req: RegisterRequest) {
    && connected
    && RegistrationFilled(req)
    && EmailFormat.IsValidEmail(req.email.value)
    && |req.password.value| >= MinPasswordLength
    && req.email.value !in users
  }

  /** The record `User.create` stores for an accepted registration. */
  function NewAccount(id: nat, req: RegisterRequest): (u: User)
    requires RegistrationFilled(req)
    ensures u.id == id && u.email == req.email.value && u.name == req.name.value
    ensures PasswordMatches(req.password.value, u.password)
    ensures u.streakCount == Some(0) && u.lastLoginDate.None? && HistoryConsistent(u)
  {
    User(id, req.name.value, req.email.value, Bcrypt(req.password.value),
      None, None, Stored(req.gender), Stored(req.birthDate), Stored(req.height), Stored(req.weight),
      None, None, None, None, None, None,
      Some(0), None, [])
  }

  /**
   * `createUser`: the checks in order (connection, required fields, email
   * format, password length, duplicate email); only an accepted request
   * stores a record, and the reply names the account without its password.
   */
  function Register(users: Users, nextId: nat, connected: bool, req: RegisterRequest): (o: Outcome)
    ensures !connected ==> o.response == DbUnavailable
    ensures connected && !RegistrationFilled(req) ==> o.response == Response(400, Failure(MissingFieldsMsg))
    ensures (connected && RegistrationFilled(req) && !EmailFormat.IsValidEmail(req.email.value)) ==>
      o.response == Response(400, Failure(InvalidEmailMsg))
    ensures (connected && RegistrationFilled(req) && EmailFormat.IsValidEmail(req.email.value)
             && |req.password.value| < MinPasswordLength) ==>
      o.response == Response(400, Failure(ShortPasswordMsg))
    ensures (connected && RegistrationFilled(req) && EmailFormat.IsValidEmail(req.email.value)
             && |req.password.value| >= MinPasswordLength && req.email.value in users) ==>
      o.response == Response(400, Failure(DuplicateEmailMsg))
    ensures o.response.status == 201 <==> RegistrationAccepted(users, connected, req)
    ensures RegistrationAccepted(users, connected, req) ==>
      && o.users == users[req.email.value := NewAccount(nextId, req)]
      && o.nextId == nextId + 1
      && o.response.body == Created(CreatedMsg, UserSummary(nextId, req.name.value, req.email.value))
    ensures !RegistrationAccepted(users, connected, req) ==> o.users == users && o.nextId == nextId
  {
    if !connected then Outcome(DbUnavailable, users, nextId)
    else if !RegistrationFilled(req) then Outcome(Response(400, Failure(MissingFieldsMsg)), users, nextId)
    else if !EmailFormat.IsValidEmail(req.email.value) then Outcome(Response(400, Failure(InvalidEmailMsg)), users, nextId)
    else if |req.password.value| < MinPasswordLength then Outcome(Response(400, Failure(ShortPasswordMsg)), users, nextId)
    else if req.email.value in users then Outcome(Response(400, Failure(DuplicateEmailMsg)), users, nextId)
    else
      var u := NewAccount(nextId, req);
      Outcome(Response(201, Created(CreatedMsg, UserSummary(u.id, u.name, u.email))), users[u.email := u], nextId + 1)
  }

  /** The reasons `createUser` gives for a refusal. */
  const RegisterFailureMessages := {MissingFieldsMsg, InvalidEmailMsg, ShortPasswordMsg, DuplicateEmailMsg}

  /** `createUser` answers 201 with the new account, 400 with one of its reasons, or 503. */
  lemma RegisterReplies(users: Users, nextId: nat, connected: bool, req: RegisterRequest)
    ensures var r := Register(users, nextId, connected, req).response;
      || (r.status == 201 && r.body.Created?)
      || (r.status == 400 && r.body.Failure? && r.body.message in RegisterFailureMessages)
      || r == DbUnavailable
  {
  }

  /** Registration keeps the store's shape, and keeps a valid store valid. */
  lemma RegisterKeepsStoreValid(users: Users, nextId: nat, connected: bool, req: RegisterRequest)
    requires StoreShape(users, nextId)
    ensures var o := Register(users, nextId, connected, req); StoreShape(o.users, o.nextId)
    ensures var o := Register(users, nextId, connected, req); StoreValid(users, nextId) ==> StoreValid(o.users, o.nextId)
  {
    if RegistrationAccepted(users, connected, req) {
      AddKeepsStoreValid(users, nextId, NewAccount(nextId, req));
    }
  }

  /** A second registration with the same email is refused with 400, whatever else it carries. */
  lemma DuplicateRegistrationRefused(users: Users, nextId: nat, req: RegisterRequest, req2: RegisterRequest, today: int)
    requires RegistrationAccepted(users, true, req)
    requires RegistrationFilled(req2) && req2.email == req.email && |req2.password.value| >= MinPasswordLength
    ensures var o := Register(users, nextId, true, req);
      Register(o.users, o.nextId, true, req2).response == Response(400, Failure(DuplicateEmailMsg))
  {
  }

  // ---------------------------------------------------------------------------
  // loginUser
  // ---------------------------------------------------------------------------

  /**
   * The streak after a login on day `today`: 1 on a first login, unchanged on
   * the same day, one more on the next day, and 1 after any other gap
   * (including a last login in the future).
   */
  function NextStreak(stored: Option<int>, lastLogin: Option<int>, today: int): (n: int)
    ensures lastLogin.None? ==> n == 1
    ensures lastLogin.Some? && today == lastLogin.value ==> n == stored.GetOr(0)
    ensures lastLogin.Some? && today == lastLogin.value + 1 ==> n == stored.GetOr(0) + 1
    ensures lastLogin.Some? && today != lastLogin.value && today != lastLogin.value + 1 ==> n == 1
  {
    var streakCount := stored.GetOr(0);
    match lastLogin
    case None => 1
    case Some(last) =>
      var daysDiff := today - last;
      if daysDiff == 0 then streakCount
      else if daysDiff == 1 then streakCount + 1
      else 1
  }

  /** The days of `loginDates` after logging in on `today`. */
  function AddLoginDate(loginDates: seq<int>, today: int): (r: seq<int>)
    ensures today in r
    ensures today in loginDates ==> r == loginDates
    ensures today !in loginDates ==> r == loginDates + [today]
  {
    if today in loginDates then loginDates else loginDates + [today]
  }

  /** The record after a successful login on `today`. */
  function RecordLogin(u: User, today: int): (r: User)
    ensures r == u.(streakCount := r.streakCount, lastLoginDate := r.lastLoginDate, loginDates := r.loginDates)
    ensures r.lastLoginDate == Some(today)
    ensures r.streakCount == Some(NextStreak(u.streakCount, u.lastLoginDate, today))
    ensures |u.loginDates| <= |r.loginDates| <= |u.loginDates| + 1 && r.loginDates[..|u.loginDates|] == u.loginDates
    ensures r.loginDates == AddLoginDate(u.loginDates, today) && today in r.loginDates
  {
    u.(streakCount := Some(NextStreak(u.streakCount, u.lastLoginDate, today)),
       lastLoginDate := Some(today),
       loginDates := AddLoginDate(u.loginDates, today))
  }

  /** Response and collection after `loginUser`. */
  datatype LoginOutcome = LoginOutcome(response: Response, users: Users)

  /** Email and password both present and non-empty. */
  predicate CredentialsFilled(req: LoginRequest) {
    Truthy(req.email) && Truthy(req.password)
  }

  /** The credentials name a stored account and its password. */
  predicate Authenticates(users: Users, req: LoginRequest) {
    CredentialsFilled(req) && req.email.value in users && PasswordMatches(req.password.value, users[req.email.value].password)
  }

  /**
   * `loginUser`: 400 for missing credentials, the same 401 for an unknown
   * email and a wrong password, otherwise the login is recorded and the
   * reply carries a token for the account and its new streak.
   */
  function Login(users: Users, req: LoginRequest, today: int): (o: LoginOutcome)
    ensures !CredentialsFilled(req) ==> o.response == Response(400, Failure(LoginMissingMsg))
    ensures CredentialsFilled(req) && !Authenticates(users, req) ==> o.response == Response(401, Failure(BadCredentialsMsg))
    ensures o.response.status == 200 <==> Authenticates(users, req)
    ensures !Authenticates(users, req) ==> o.users == users
    ensures Authenticates(users, req) ==>
      var u := users[req.email.value];
      var r := RecordLogin(u, today);
      && o.users == users[req.email.value := r]
      && o.response == Response(200, LoggedIn(LoginOkMsg, Jwt(u.id),
           LoginView(u.id, u.name, u.email, u.firstName, NextStreak(u.streakCount, u.lastLoginDate, today))))
  {
    if !CredentialsFilled(req) then LoginOutcome(Response(400, Failure(LoginMissingMsg)), users)
    else if req.email.value !in users then LoginOutcome(Response(401, Failure(BadCredentialsMsg)), users)
    else
      var u := users[req.email.value];
      if !PasswordMatches(req.password.value, u.password) then LoginOutcome(Response(401, Failure(BadCredentialsMsg)), users)
      else
        var r := RecordLogin(u, today);
        LoginOutcome(Response(200, LoggedIn(LoginOkMsg, Jwt(r.id), LoginView(r.id, r.name, r.email, r.firstName, r.streakCount.value))),
          users[req.email.value := r])
  }

  /**
   * A login on a day no earlier than the last one keeps the history
   * consistent: the stored streak is always the number of consecutive days,
   * ending today, on which the account logged in.
   */
  lemma RecordLoginKeepsHistory(u: User, today: int)
    requires HistoryConsistent(u)
    requires u.lastLoginDate.Some? ==> u.lastLoginDate.value <= today
    ensures HistoryConsistent(RecordLogin(u, today))
  {
    var ds := u.loginDates;
    var r := RecordLogin(u, today);
    if u.lastLoginDate.None? {
      assert r.loginDates == [today];
    } else {
      var last := u.lastLoginDate.value;
      if today == last {
        assert ds[|ds| - 1] == today;
        assert r.loginDates == ds;
      } else {
        assert today !in ds by {
          forall j | 0 <= j < |ds| ensures ds[j] != today {
            assert j == |ds| - 1 || ds[j] < ds[|ds| - 1];
          }
        }
        AppendLaterDay(ds, today);
      }
    }
  }

  /** Appending a day after the last one keeps the days increasing and extends or restarts the run. */
  lemma AppendLaterDay(ds: seq<int>, today: int)
    requires Increasing(ds) && ds != [] && ds[|ds| - 1] < today
    ensures Increasing(ds + [today])
    ensures RunLength(ds + [today]) == if ds[|ds| - 1] + 1 == today then RunLength(ds) + 1 else 1
  {
    var ds' := ds + [today];
    assert ds'[..|ds'| - 1] == ds;
  }

  /**
   * A login keeps the store's shape; it keeps the login histories
   * consistent when no last login lies after `today`.
   */
  lemma LoginKeepsStoreValid(users: Users, nextId: nat, req: LoginRequest, today: int)
    requires StoreShape(users, nextId)
    ensures StoreShape(Login(users, req, today).users, nextId)
    ensures StoreValid(users, nextId) && NotInFuture(users, today) ==>
      StoreValid(Login(users, req, today).users, nextId) && NotInFuture(Login(users, req, today).users, today)
  {
    if Authenticates(users, req) && StoreValid(users, nextId) && NotInFuture(users, today) {
      RecordLoginKeepsHistory(users[req.email.value], today);
    }
  }

  /**
   * `loginUser` also accepts a login dated before the last one: it answers
   * 200 with the streak restarted at 1 and appends the earlier day, after
   * which the login days are out of order and the store is no longer valid.
   */
  lemma BackwardsLoginBreaksHistory()
    ensures var u := User(0, "Ann", "ann@mail.co", Bcrypt("secret"), None, None, None, None, None, None,
        None, None, None, None, None, None, Some(1), Some(10), [10]);
      var users := map["ann@mail.co" := u];
      var o := Login(users, LoginRequest(Given("ann@mail.co"), Given("secret")), 8);
      && StoreValid(users, 1)
      && o.response.status == 200 && o.response.body.login.streakCount == 1
      && o.users["ann@mail.co"].loginDates == [10, 8]
      && !StoreValid(o.users, 1)
  {
    var u := User(0, "Ann", "ann@mail.co", Bcrypt("secret"), None, None, None, None, None, None,
      None, None, None, None, None, None, Some(1), Some(10), [10]);
    var users := map["ann@mail.co" := u];
    var o := Login(users, LoginRequest(Given("ann@mail.co"), Given("secret")), 8);
    var ds := o.users["ann@mail.co"].loginDates;
    assert ds == [10, 8];
    assert !(ds[0] < ds[1]);
    assert !HistoryConsistent(o.users["ann@mail.co"]);
  }

  /** Logging in twice on the same day changes nothing the second time. */
  lemma SecondLoginSameDay(users: Users, req: LoginRequest, today: int)
    requires Authenticates(users, req)
    ensures var once := Login(users, req, today).users;
      Login(once, req, today).users == once
  {
    var u := users[req.email.value];
    var r := RecordLogin(u, today);
    assert RecordLogin(r, today) == r;
  }

  /** Registering and then logging in with the same credentials succeeds; any other password is refused. */
  lemma RegisterThenLogin(users: Users, nextId: nat, req: RegisterRequest, password: string, today: int)
    requires RegistrationAccepted(users, true, req)
    ensures var o := Register(users, nextId, true, req);
      var login := Login(o.users, LoginRequest(req.email, Given(password)), today);
      && (password == req.password.value ==> login.response.status == 200 && login.response.body.token == Jwt(nextId))
      && (password != "" && password != req.password.value ==> login.response == Response(401, Failure(BadCredentialsMsg)))
  {
    var o := Register(users, nextId, true, req);
    var email := req.email.value;
    assert o.users[email] == NewAccount(nextId, req);
    assert o.users[email].password == Bcrypt(req.password.value);
  }

  // ---------------------------------------------------------------------------
  // updateProfile
  // ---------------------------------------------------------------------------

  /** Decimal digits of a natural number, as `String(n)` writes them. */
  function NatToString(n: nat): string
    decreases n
  {
    var digit := ['0', '1', '2', '3', '4', '5', '6', '7', '8', '9'][n % 10];
    if n < 10 then [digit] else NatToString(n / 10) + [digit]
  }

  /** `'temp_password_' + Date.now()`. */
  function TempPassword(now: nat): string {
    "temp_password_" + NatToString(now)
  }

  /** The minimal record `updateProfile` creates for an unknown email. */
  function NewProfileAccount(id: nat, email: string, req: ProfileRequest, now: nat): (u: User)
    ensures u.id == id && u.email == email && u.name != ""
    ensures PasswordMatches(TempPassword(now), u.password)
    ensures u.streakCount == Some(0) && u.lastLoginDate.None? && HistoryConsistent(u)
  {
    User(id, if Truthy(req.firstName) then req.firstName.value else "User", email, Bcrypt(TempPassword(now)),
      Stored(req.firstName), Stored(req.surname), None, None, None, None,
      None, None, None, None, None, None,
      Some(0), None, [])
  }

  /**
   * The field updates of `updateProfile`: every supplied property overwrites
   * its field (`sex` goes to `gender`), nothing else changes, and `name`
   * follows a non-empty `firstName`.
   */
  function MergeProfile(u: User, req: ProfileRequest): (r: User)
    ensures r.id == u.id && r.email == u.email && r.password == u.password
    ensures r.streakCount == u.streakCount && r.lastLoginDate == u.lastLoginDate && r.loginDates == u.loginDates
    ensures req.firstName.Undefined? ==> r.firstName == u.firstName
    ensures req.firstName.Given? ==> r.firstName == Some(req.firstName.value)
    ensures r.name == if Truthy(req.firstName) then req.firstName.value else u.name
    ensures r.firstName == Overwrite(u.firstName, req.firstName)
    ensures r.surname == Overwrite(u.surname, req.surname)
    ensures r.gender == Overwrite(u.gender, req.sex)
    ensures r.birthDate == Overwrite(u.birthDate, req.birthDate)
    ensures r.height == Overwrite(u.height, req.height)
    ensures r.weight == Overwrite(u.weight, req.weight)
    ensures r.heartSurgery == Overwrite(u.heartSurgery, req.heartSurgery)
    ensures r.withinSixMonths == Overwrite(u.withinSixMonths, req.withinSixMonths)
    ensures r.heartSurgeryComment == Overwrite(u.heartSurgeryComment, req.heartSurgeryComment)
    ensures r.fractures == Overwrite(u.fractures, req.fractures)
    ensures r.withinSixMonthsFracture == Overwrite(u.withinSixMonthsFracture, req.withinSixMonthsFracture)
    ensures r.fracturesComment == Overwrite(u.fracturesComment, req.fracturesComment)
  {
    var m := MergeMedical(MergePersonal(u, req), req);
    m.(name := if Truthy(req.firstName) then req.firstName.value else u.name)
  }

  /**
   * The personal fields of `updateProfile`: each overwritten when supplied;
   * identity, password, login history and the medical fields are untouched.
   */
  function MergePersonal(u: User, req: ProfileRequest): (r: User)
    ensures r.(firstName := u.firstName, surname := u.surname, gender := u.gender,
      birthDate := u.birthDate, height := u.height, weight := u.weight) == u
    ensures r.firstName == Overwrite(u.firstName, req.firstName)
    ensures r.surname == Overwrite(u.surname, req.surname)
    ensures r.gender == Overwrite(u.gender, req.sex)
    ensures r.birthDate == Overwrite(u.birthDate, req.birthDate)
    ensures r.height == Overwrite(u.height, req.height)
    ensures r.weight == Overwrite(u.weight, req.weight)
  {
    u.(firstName := Overwrite(u.firstName, req.firstName),
       surname := Overwrite(u.surname, req.surname),
       gender := Overwrite(u.gender, req.sex),
       birthDate := Overwrite(u.birthDate, req.birthDate),
       height := Overwrite(u.height, req.height),
       weight := Overwrite(u.weight, req.weight))
  }

  /**
   * The medical-history fields of `updateProfile`: each overwritten when
   * supplied; every other field is untouched.
   */
  function MergeMedical(u: User, req: ProfileRequest): (r: User)
    ensures r.(heartSurgery := u.heartSurgery, withinSixMonths := u.withinSixMonths,
      heartSurgeryComment := u.heartSurgeryComment, fractures := u.fractures,
      withinSixMonthsFracture := u.withinSixMonthsFracture, fracturesComment := u.fracturesComment) == u
    ensures r.heartSurgery == Overwrite(u.heartSurgery, req.heartSurgery)
    ensures r.withinSixMonths == Overwrite(u.withinSixMonths, req.withinSixMonths)
    ensures r.heartSurgeryComment == Overwrite(u.heartSurgeryComment, req.heartSurgeryComment)
    ensures r.fractures == Overwrite(u.fractures, req.fractures)
    ensures r.withinSixMonthsFracture == Overwrite(u.withinSixMonthsFracture, req.withinSixMonthsFracture)
    ensures r.fracturesComment == Overwrite(u.fracturesComment, req.fracturesComment)
  {
    u.(heartSurgery := Overwrite(u.heartSurgery, req.heartSurgery),
       withinSixMonths := Overwrite(u.withinSixMonths, req.withinSixMonths),
       heartSurgeryComment := Overwrite(u.heartSurgeryComment, req.heartSurgeryComment),
       fractures := Overwrite(u.fractures, req.fractures),
       withinSixMonthsFracture := Overwrite(u.withinSixMonthsFracture, req.withinSixMonthsFracture),
       fracturesComment := Overwrite(u.fracturesComment, req.fracturesComment))
  }

  /** The reply's view of a saved profile. */
  function ViewOf(u: User): ProfileView {
    ProfileView(u.id, u.firstName, u.surname, u.name, u.email, u.height, u.weight, u.gender, u.birthDate)
  }

  /**
   * `updateProfile`: 503 without a database, 400 without an email, otherwise
   * the record for the email (created on the spot when unknown) receives
   * the supplied fields.
   */
  function UpdateProfileSpec(users: Users, nextId: nat, connected: bool, req: ProfileRequest, now: nat): (o: Outcome)
    ensures !connected ==> o.response == DbUnavailable && o.users == users
    ensures connected && !Truthy(req.email) ==> o.response == Response(400, Failure(EmailRequiredMsg)) && o.users == users
    ensures o.response.status == 200 <==> connected && Truthy(req.email)
    ensures o.response.status == 200 ==>
      var email := req.email.value;
      var base := if email in users then users[email] else NewProfileAccount(nextId, email, req, now);
      && o.users == users[email := MergeProfile(base, req)]
      && o.nextId == (if email in users then nextId else nextId + 1)
      && o.response == Response(200, ProfileSaved(ProfileUpdatedMsg, ViewOf(MergeProfile(base, req))))
    ensures o.response.status != 200 ==> o.nextId == nextId
  {
    if !connected then Outcome(DbUnavailable, users, nextId)
    else if !Truthy(req.email) then Outcome(Response(400, Failure(EmailRequiredMsg)), users, nextId)
    else
      var email := req.email.value;
      var base := if email in users then users[email] else NewProfileAccount(nextId, email, req, now);
      var u := MergeProfile(base, req);
      Outcome(Response(200, ProfileSaved(ProfileUpdatedMsg, ViewOf(u))), users[email := u],
        if email in users then nextId else nextId + 1)
  }

  /** A request that supplies no profile field leaves the record as it was. */
  lemma MergeNothingIsIdentity(u: User, email: Field<string>)
    ensures MergeProfile(u, ProfileRequest(email, Undefined, Undefined, Undefined, Undefined, Undefined, Undefined,
      Undefined, Undefined, Undefined, Undefined, Undefined, Undefined)) == u
  {
  }

  /** Applying the same profile update twice is the same as applying it once. */
  lemma MergeProfileIdempotent(u: User, req: ProfileRequest)
    ensures MergeProfile(MergeProfile(u, req), req) == MergeProfile(u, req)
  {
  }

  /** Repeating an update request changes neither the collection nor the id counter. */
  lemma UpdateProfileIdempotent(users: Users, nextId: nat, connected: bool, req: ProfileRequest, now: nat, later: nat)
    ensures var o := UpdateProfileSpec(users, nextId, connected, req, now);
      var o2 := UpdateProfileSpec(o.users, o.nextId, connected, req, later);
      o2.users == o.users && o2.nextId == o.nextId && o2.response == o.response
  {
    var o := UpdateProfileSpec(users, nextId, connected, req, now);
    if connected && Truthy(req.email) {
      var email := req.email.value;
      var base := if email in users then users[email] else NewProfileAccount(nextId, email, req, now);
      MergeProfileIdempotent(base, req);
      assert o.users[email] == MergeProfile(base, req);
    }
  }

  /**
   * An update keeps the store's shape, and keeps a valid store valid: login
   * history is untouched and a created record has none.
   */
  lemma UpdateProfileKeepsStoreValid(users: Users, nextId: nat, connected: bool, req: ProfileRequest, now: nat)
    requires StoreShape(users, nextId)
    ensures var o := UpdateProfileSpec(users, nextId, connected, req, now); StoreShape(o.users, o.nextId)
    ensures var o := UpdateProfileSpec(users, nextId, connected, req, now); StoreValid(users, nextId) ==> StoreValid(o.users, o.nextId)
  {
    if connected && Truthy(req.email) {
      var email := req.email.value;
      if email !in users {
        AddKeepsStoreValid(users, nextId, MergeProfile(NewProfileAccount(nextId, email, req, now), req));
      }
    }
  }

  // ---------------------------------------------------------------------------
  // getUserProfile
  // ---------------------------------------------------------------------------

  function FullProfileOf(u: User): FullProfile {
    FullProfile(u.id, u.firstName, u.surname, u.name, u.email, u.height, u.weight, u.gender, u.birthDate,
      u.streakCount.GetOr(0), u.lastLoginDate,
      u.heartSurgery, u.withinSixMonths, u.heartSurgeryComment,
      u.fractures, u.withinSixMonthsFracture, u.fracturesComment)
  }

  /**
   * `getUserProfile`: 503 without a database, 400 for an empty email, 404 for
   * an unknown one, else the stored profile with a missing streak shown as 0.
   */
  function GetUserProfile(users: Users, connected: bool, email: string): (r: Response)
    ensures !connected ==> r == DbUnavailable
    ensures connected && email == "" ==> r == Response(400, Failure(EmailRequiredMsg))
    ensures connected && email != "" && email !in users ==> r == Response(404, Failure(NotFoundMsg))
    ensures r.status == 200 <==> connected && email != "" && email in users
    ensures r.status == 200 ==>
      && r.body.ProfileFound?
      && r.body.found.id == users[email].id
      && r.body.found.streakCount == (if users[email].streakCount.Some? then users[email].streakCount.value else 0)
  {
    if !connected then DbUnavailable
    else if email == "" then Response(400, Failure(EmailRequiredMsg))
    else if email !in users then Response(404, Failure(NotFoundMsg))
    else Response(200, ProfileFound(FullProfileOf(users[email])))
  }

  /** In a valid store, a lookup shows the streak a login just reported. */
  lemma LookupAfterLogin(users: Users, nextId: nat, req: LoginRequest, today: int)
    requires StoreValid(users, nextId) && Authenticates(users, req)
    ensures var o := Login(users, req, today);
      GetUserProfile(o.users, true, req.email.value).body.found.streakCount == o.response.body.login.streakCount
  {
  }

  /** After an update, a lookup returns what the update wrote, with every field the request supplied. */
  lemma LookupAfterUpdate(users: Users, nextId: nat, req: ProfileRequest, now: nat)
    requires Truthy(req.email)
    ensures var o := UpdateProfileSpec(users, nextId, true, req, now);
      var p := GetUserProfile(o.users, true, req.email.value);
      && p.status == 200
      && (req.firstName.Given? ==> p.body.found.firstName == Some(req.firstName.value))
      && (req.sex.Given? ==> p.body.found.gender == Some(req.sex.value))
      && (req.heartSurgery.Given? ==> p.body.found.heartSurgery == Some(req.heartSurgery.value))
      && (Truthy(req.firstName) ==> p.body.found.name == req.firstName.value)
      && (req.email.value !in users && !Truthy(req.firstName) ==> p.body.found.name == "User")
  {
  }

  /** The overwrites of the personal fields, one field at a time. */
  method ApplyPersonalFields(user0: User, req: ProfileRequest) returns (user: User)
    ensures user == MergePersonal(user0, req)
  {
    user := user0;
    if !req.firstName.Undefined? { user := user.(firstName := Stored(req.firstName)); }
    if !req.surname.Undefined? { user := user.(surname := Stored(req.surname)); }
    if !req.sex.Undefined? { user := user.(gender := Stored(req.sex)); }
    if !req.birthDate.Undefined? { user := user.(birthDate := Stored(req.birthDate)); }
    if !req.height.Undefined? { user := user.(height := Stored(req.height)); }
    if !req.weight.Undefined? { user := user.(weight := Stored(req.weight)); }
  }

  /** The overwrites of the medical-history fields, one field at a time. */
  method ApplyMedicalFields(user0: User, req: ProfileRequest) returns (user: User)
    ensures user == MergeMedical(user0, req)
  {
    user := user0;
    if !req.heartSurgery.Undefined? { user := user.(heartSurgery := Stored(req.heartSurgery)); }
    if !req.withinSixMonths.Undefined? { user := user.(withinSixMonths := Stored(req.withinSixMonths)); }
    if !req.heartSurgeryComment.Undefined? { user := user.(heartSurgeryComment := Stored(req.heartSurgeryComment)); }
    if !req.fractures.Undefined? { user := user.(fractures := Stored(req.fractures)); }
    if !req.withinSixMonthsFracture.Undefined? { user := user.(withinSixMonthsFracture := Stored(req.withinSixMonthsFracture)); }
    if !req.fracturesComment.Undefined? { user := user.(fracturesComment := Stored(req.fracturesComment)); }
  }

  // ---------------------------------------------------------------------------
  // The collection, updated in place by the handlers
  // ---------------------------------------------------------------------------

  /** The user collection of the database and the id generator. */
  class UserStore {
    var users: Users
    var nextId: nat

    /**
     * What every reachable collection satisfies.  Consistent login
     * histories are not part of it: a login dated before the last one
     * breaks them (see `BackwardsLoginBreaksHistory`).
     */
    ghost predicate Valid()
      reads this
    {
      StoreShape(users, nextId)
    }

    constructor ()
      ensures users == map[] && nextId == 0
      ensures Valid() && StoreValid(users, nextId)
    {
      users := map[];
      nextId := 0;
    }

    /** `createUser`. */
    method CreateUser(connected: bool, req: RegisterRequest) returns (res: Response)
      requires Valid()
      modifies this
      ensures Valid()
      ensures old(StoreValid(users, nextId)) ==> StoreValid(users, nextId)
      ensures Outcome(res, users, nextId) == Register(old(users), old(nextId), connected, req)
    {
      RegisterKeepsStoreValid(users, nextId, connected, req);
      if !connected {
        return DbUnavailable;
      }
      if !Truthy(req.name) || !Truthy(req.email) || !Truthy(req.password) {
        return Response(400, Failure(MissingFieldsMsg));
      }
      var email := req.email.value;
      if !EmailFormat.IsValidEmail(email) {
        return Response(400, Failure(InvalidEmailMsg));
      }
      if |req.password.value| < MinPasswordLength {
        return Response(400, Failure(ShortPasswordMsg));
      }
      if email in users {
        return Response(400, Failure(DuplicateEmailMsg));
      }
      var hashedPassword := Bcrypt(req.password.value);
      var user := User(nextId, req.name.value, email, hashedPassword,
        None, None, Stored(req.gender), Stored(req.birthDate), Stored(req.height), Stored(req.weight),
        None, None, None, None, None, None,
        Some(0), None, []);
      users := users[email := user];
      nextId := nextId + 1;
      res := Response(201, Created(CreatedMsg, UserSummary(user.id, user.name, user.email)));
    }

    /** `loginUser`, with `today` the current day number. */
    method LoginUser(req: LoginRequest, today: int) returns (res: Response)
      requires Valid()
      modifies this
      ensures Valid()
      ensures old(StoreValid(users, nextId) && NotInFuture(users, today)) ==>
        StoreValid(users, nextId) && NotInFuture(users, today)
      ensures nextId == old(nextId)
      ensures LoginOutcome(res, users) == Login(old(users), req, today)
    {
      LoginKeepsStoreValid(users, nextId, req, today);
      if !Truthy(req.email) || !Truthy(req.password) {
        return Response(400, Failure(LoginMissingMsg));
      }
      var email := req.email.value;
      if email !in users {
        return Response(401, Failure(BadCredentialsMsg));
      }
      var user := users[email];
      var isPasswordCorrect := PasswordMatches(req.password.value, user.password);
      if !isPasswordCorrect {
        return Response(401, Failure(BadCredentialsMsg));
      }
      var streakCount := user.streakCount.GetOr(0);
      if user.lastLoginDate.Some? {
        var daysDiff := today - user.lastLoginDate.value;
        if daysDiff == 0 {
        } else if daysDiff == 1 {
          streakCount := streakCount + 1;
        } else {
          streakCount := 1;
        }
      } else {
        streakCount := 1;
      }
      var loginDates := user.loginDates;
      var todayExists := today in loginDates;
      if !todayExists {
        loginDates := loginDates + [today];
      }
      user := user.(streakCount := Some(streakCount));
      user := user.(lastLoginDate := Some(today));
      user := user.(loginDates := loginDates);
      users := users[email := user];
      res := Response(200, LoggedIn(LoginOkMsg, Jwt(user.id),
        LoginView(user.id, user.name, user.email, user.firstName, user.streakCount.value)));
    }

    /** `updateProfile`, with `now` the current time in milliseconds. */
    method UpdateProfile(connected: bool, req: ProfileRequest, now: nat) returns (res: Response)
      requires Valid()
      modifies this
      ensures Valid()
      ensures old(StoreValid(users, nextId)) ==> StoreValid(users, nextId)
      ensures Outcome(res, users, nextId) == UpdateProfileSpec(old(users), old(nextId), connected, req, now)
    {
      UpdateProfileKeepsStoreValid(users, nextId, connected, req, now);
      if !connected {
        return DbUnavailable;
      }
      if !Truthy(req.email) {
        return Response(400, Failure(EmailRequiredMsg));
      }
      var email := req.email.value;
      var user: User;
      if email !in users {
        var tempPassword := TempPassword(now);
        var name := if Truthy(req.firstName) then req.firstName.value else "User";
        user := User(nextId, name, email, Bcrypt(tempPassword),
          Stored(req.firstName), Stored(req.surname), None, None, None, None,
          None, None, None, None, None, None,
          Some(0), None, []);
        nextId := nextId + 1;
      } else {
        user := users[email];
      }
      user := ApplyPersonalFields(user, req);
      user := ApplyMedicalFields(user, req);
      if Truthy(req.firstName) {
        user := user.(name := req.firstName.value);
      }
      users := users[email := user];
      res := Response(200, ProfileSaved(ProfileUpdatedMsg, ViewOf(user)));
    }
  }
}
