/**
 * The decisions of the sign-up screen (SignUpScreen.js): the form checks,
 * the request it sends, how it reads the reply, and which alert it shows
 * for every outcome.  The network is a parameter: the result of `fetch`
 * (a status with the read body, or a thrown error) is handed in.
 */
module SignUp {
  import opened Wrappers
  import opened JsText
  import Accounts

  /** `Alert.alert(title, message)`. */
  datatype Alert = Alert(title: string, message: string)

  const FillAllMsg := "Please fill in all fields"
  const MismatchMsg := "Passwords do not match"
  const ShortPasswordMsg := "Password must be at least 6 characters long"
  const MinPasswordLength := 6

  // ---------------------------------------------------------------------------
  // Form validation and the request body
  // ---------------------------------------------------------------------------

  /** The four text inputs of the form. */
  datatype FormFields = FormFields(fullName: string, email: string, password: string, confirmPassword: string)

  predicate AllFilled(f: FormFields) {
    f.fullName != "" && f.email != "" && f.password != "" && f.confirmPassword != ""
  }

  /**
   * The checks of `handleSignUp` in their order: an empty field, then a
   * confirmation that differs, then a short password; `None` lets the
   * request go out.
   */
  function ValidateSignUp(f: FormFields): (r: Option<Alert>)
    ensures !AllFilled(f) ==> r == Some(Alert("Error", FillAllMsg))
    ensures AllFilled(f) && f.password != f.confirmPassword ==> r == Some(Alert("Error", MismatchMsg))
    ensures (AllFilled(f) && f.password == f.confirmPassword && |f.password| < MinPasswordLength) ==>
      r == Some(Alert("Error", ShortPasswordMsg))
    ensures r.None? <==> AllFilled(f) && f.password == f.confirmPassword && |f.password| >= MinPasswordLength
  {
    if !AllFilled(f) then Some(Alert("Error", FillAllMsg))
    else if f.password != f.confirmPassword then Some(Alert("Error", MismatchMsg))
    else if |f.password| < MinPasswordLength then Some(Alert("Error", ShortPasswordMsg))
    else None
  }

  /** The JSON body posted to `/users/register`. */
  datatype SignUpRequest = SignUpRequest(name: string, email: string, password: string)

  /** `email.trim().toLowerCase()`: never longer than the input, and empty exactly for an all-blank input. */
  function NormalizeEmail(email: string): (n: string)
    ensures |n| <= |email|
    ensures n == "" <==> forall j :: 0 <= j < |email| ==> IsWhitespace(email[j])
  {
    TrimBounds(email);
    ToLower(Trim(email))
  }

  /** A normalised address has no whitespace at its ends and no upper-case ASCII letter. */
  lemma NormalizedEmailShape(email: string)
    ensures var n := NormalizeEmail(email);
      && (n == [] || (!IsWhitespace(n[0]) && !IsWhitespace(n[|n| - 1])))
      && forall j :: 0 <= j < |n| ==> !IsAsciiUpper(n[j])
  {
    TrimBounds(email);
  }

  /** Lower-casing changes nothing on a string without upper-case ASCII letters. */
  lemma ToLowerOfLower(s: string)
    requires forall j :: 0 <= j < |s| ==> !IsAsciiUpper(s[j])
    ensures ToLower(s) == s
  {
    assert forall j :: 0 <= j < |s| ==> ToLower(s)[j] == s[j];
  }

  /** Normalising an address twice gives the same address as normalising it once. */
  lemma NormalizeEmailIdempotent(email: string)
    ensures NormalizeEmail(NormalizeEmail(email)) == NormalizeEmail(email)
  {
    var n := NormalizeEmail(email);
    NormalizedEmailShape(email);
    TrimOfTrimmed(n);
    ToLowerOfLower(n);
  }

  /** `requestBody`: the name and password as typed, the email normalised. */
  function RequestBody(f: FormFields): (b: SignUpRequest)
    ensures b.name == f.fullName && b.password == f.password
    ensures b.email == NormalizeEmail(f.email)
  {
    SignUpRequest(f.fullName, ToLower(Trim(f.email)), f.password)
  }

  /** How the server receives the body: the three properties, nothing else. */
  function AsRegisterRequest(b: SignUpRequest): Accounts.RegisterRequest {
    Accounts.RegisterRequest(Accounts.Given(b.name), Accounts.Given(b.email), Accounts.Given(b.password),
      Accounts.Undefined, Accounts.Undefined, Accounts.Undefined, Accounts.Undefined)
  }

  /**
   * A request the form lets through always passes the server's
   * required-name, required-password and password-length checks; only the
   * email can still be refused.
   */
  lemma ValidFormMeetsServerChecks(f: FormFields)
    requires ValidateSignUp(f).None?
    ensures var req := AsRegisterRequest(RequestBody(f));
      && Accounts.Truthy(req.name) && Accounts.Truthy(req.password)
      && |req.password.value| >= Accounts.MinPasswordLength
  {
  }

  /**
   * An email of blanks passes the form's own check, but is sent empty and is
   * refused by the server as a missing field.
   */
  lemma BlankEmailRefusedByServer(f: FormFields, users: Accounts.Users, nextId: nat)
    requires ValidateSignUp(f).None?
    requires forall j :: 0 <= j < |f.email| ==> IsWhitespace(f.email[j])
    ensures Accounts.Register(users, nextId, true, AsRegisterRequest(RequestBody(f))).response
      == Accounts.Response(400, Accounts.Failure(Accounts.MissingFieldsMsg))
  {
    assert Trim(f.email) == [] by {
      TrimBounds(f.email);
    }
  }

  // ---------------------------------------------------------------------------
  // Reading the reply
  // ---------------------------------------------------------------------------

  /** The parsed reply: its `message` property, when there is one. */
  datatype ResponseData = ResponseData(message: Option<string>)

  /** `response.text()`: it failed, or it gave a text and (when the text is JSON) its parse. */
  datatype ReadResult = ReadFailed | TextRead(text: string, json: Option<ResponseData>)

  const ReadErrorMsg := "Error reading server response"
  const EmptyResponseMsg := "Empty response from server"

  /**
   * The `data` the screen works with: the parsed JSON; the raw text when it
   * is not JSON; fixed messages for an empty text and for a failed read.
   */
  function ParseResponse(read: ReadResult): (data: ResponseData)
    ensures read.ReadFailed? ==> data.message == Some(ReadErrorMsg)
    ensures read.TextRead? && read.text == "" ==> data.message == Some(EmptyResponseMsg)
    ensures read.TextRead? && read.text != "" && read.json.None? ==> data.message == Some(read.text)
    ensures read.TextRead? && read.text != "" && read.json.Some? ==> data == read.json.value
  {
    match read
    case ReadFailed => ResponseData(Some(ReadErrorMsg))
    case TextRead(text, json) =>
      if text != "" then
        match json
        case Some(parsed) => parsed
        case None => ResponseData(Some(if text != "" then text else "Unknown error occurred"))
      else ResponseData(Some(EmptyResponseMsg))
  }

  /** `data.message || fallback`. */
  function MessageOr(data: ResponseData, fallback: string): (m: string)
    ensures data.message.Some? && data.message.value != "" ==> m == data.message.value
    ensures !(data.message.Some? && data.message.value != "") ==> m == fallback
  {
    if data.message.Some? && data.message.value != "" then data.message.value else fallback
  }

  const InvalidInfoMsg := "Invalid information provided. Please check your details."
  const DatabaseErrorMsg := "Database connection error. Please check MongoDB Atlas settings and IP whitelist."
  const ServerErrorMsg := "Server error. Please try again later."
  const AlreadyRegisteredMsg := "This email is already registered. Please use a different email or login instead."
  const CreateFailedMsg := "Failed to create account"
  const SuccessMsg := "Account created successfully!\n\nYou can now login with your credentials."

  /**
   * The message of a failed reply: 503 and 409 have fixed texts whatever the
   * body says; 400, 500 and every other status show the server's message,
   * each with its own default.
   */
  function FailureMessage(status: int, data: ResponseData): (m: string)
    ensures m != ""
    ensures status == 503 ==> m == DatabaseErrorMsg
    ensures status == 409 ==> m == AlreadyRegisteredMsg
    ensures status == 400 ==> m == MessageOr(data, InvalidInfoMsg)
    ensures status == 500 ==> m == MessageOr(data, ServerErrorMsg)
    ensures status !in {400, 409, 500, 503} ==> m == MessageOr(data, CreateFailedMsg)
  {
    var errorMessage := MessageOr(data, CreateFailedMsg);
    if status == 400 then MessageOr(data, InvalidInfoMsg)
    else if status == 503 then DatabaseErrorMsg
    else if status == 500 then MessageOr(data, ServerErrorMsg)
    else if status == 409 then AlreadyRegisteredMsg
    else errorMessage
  }

  // ---------------------------------------------------------------------------
  // Thrown errors
  // ---------------------------------------------------------------------------

  /** What `fetch` gave back: a reply with its status and body, or a thrown error. */
  datatype FetchResult = Responded(status: int, read: ReadResult) | FetchFailed(name: string, message: string)

  const CannotConnect := "Cannot connect to server"
  const RequestTimeout := "Request timeout"
  const TimeoutRewrite := RequestTimeout + ". Please check" + " your connection" + " and try again."

  /** `error?.message || error?.toString() || 'Unknown error'` for an Error with this name and message. */
  function ErrorText(name: string, message: string): (t: string)
    ensures t != ""
    ensures message != "" ==> t == message
    ensures message == "" && name != "" ==> t == name
    ensures message == "" && name == "" ==> t == "Unknown error"
  {
    if message != "" then message else if name != "" then name else "Unknown error"
  }

  /**
   * The message of the error that reaches the outer `catch` when `fetch`
   * throws: aborts and timeouts become a timeout message, the known network
   * failures a connection message, anything else passes through.
   */
  function RethrownMessage(name: string, message: string, apiBaseUrl: string): (t: string)
    ensures name == "AbortError" || name == "TimeoutError" ==> t == TimeoutRewrite
  {
    if name == "AbortError" || name == "TimeoutError" then TimeoutRewrite
    else if Contains(message, "Network request failed") || Contains(message, "Failed to fetch")
      || Contains(message, "NetworkError") then
      CannotConnect + " at " + apiBaseUrl
        + ". Please check:\n1. Backend server is running\n2. Correct IP address in config/api.js\n3. Same WiFi network"
    else ErrorText(name, message)
  }

  predicate IsConnectionFailure(errorMsg: string) {
    || Contains(errorMsg, CannotConnect)
    || Contains(errorMsg, "Network request failed")
    || Contains(errorMsg, "Failed to fetch")
    || Contains(errorMsg, "Network error")
  }

  predicate IsTimeout(errorMsg: string) {
    Contains(errorMsg, RequestTimeout) || Contains(errorMsg, "timeout")
  }

  function ConnectionHelp(apiBaseUrl: string): string {
    "Cannot connect to server at:\n" + apiBaseUrl + "\n\nPlease check:\n\n"
      + "1. Backend server is running:\n   cd motionphysio/backend\n   npm start\n\n"
      + "2. Your computer IP: 192.168.0.6\n   (Update config/api.js if different)\n\n"
      + "3. Phone and computer on same WiFi\n\n"
      + "4. Firewall allows port 5000\n\n"
      + "5. Try: http://192.168.0.6:5000 in browser"
  }

  const TimeoutHelp := "Request took too long. Please check:\n\n1. Backend server is running\n2. Network connection is stable\n3. Try again"
  const InvalidResponseMsg := "Invalid response from server. Please check if the backend is running correctly."
  const UnexpectedMsg := "An unexpected error occurred. Please try again."

  /**
   * The alert for a caught error, by the first test its text passes:
   * connection failure, then timeout, then a JSON problem, else the text itself.
   */
  function ClassifyError(errorMsg: string, apiBaseUrl: string): (a: Alert)
    ensures IsConnectionFailure(errorMsg) ==> a == Alert("Connection Error", ConnectionHelp(apiBaseUrl))
    ensures !IsConnectionFailure(errorMsg) && IsTimeout(errorMsg) ==> a == Alert("Timeout Error", TimeoutHelp)
    ensures (!IsConnectionFailure(errorMsg) && !IsTimeout(errorMsg) && Contains(errorMsg, "JSON")) ==>
      a == Alert("Server Error", InvalidResponseMsg)
    ensures (!IsConnectionFailure(errorMsg) && !IsTimeout(errorMsg) && !Contains(errorMsg, "JSON")) ==>
      a == Alert("Connection Error", if errorMsg != "" then errorMsg else UnexpectedMsg)
  {
    if IsConnectionFailure(errorMsg) then Alert("Connection Error", ConnectionHelp(apiBaseUrl))
    else if IsTimeout(errorMsg) then Alert("Timeout Error", TimeoutHelp)
    else if Contains(errorMsg, "JSON") then Alert("Server Error", InvalidResponseMsg)
    else Alert("Connection Error", if errorMsg != "" then errorMsg else UnexpectedMsg)
  }

  /** A string cannot contain a text whose first character it lacks. */
  lemma MissingFirstChar(s: string, sub: string)
    requires sub != [] && sub[0] !in s
    ensures !Contains(s, sub)
  {
    forall i | 0 <= i <= |s| - |sub|
      ensures !OccursAt(s, sub, i)
    {
      assert s[i..i + |sub|][0] == s[i];
    }
  }

  /** The alert shown when `fetch` itself throws. */
  function FetchErrorAlert(name: string, message: string, apiBaseUrl: string): Alert {
    ClassifyError(RethrownMessage(name, message, apiBaseUrl), apiBaseUrl)
  }

  /** An aborted or timed-out request always ends in the timeout alert. */
  lemma AbortShowsTimeout(name: string, message: string, apiBaseUrl: string)
    requires name == "AbortError" || name == "TimeoutError"
    ensures FetchErrorAlert(name, message, apiBaseUrl) == Alert("Timeout Error", TimeoutHelp)
  {
    var t := TimeoutRewrite;
    assert 'C' !in t && 'N' !in t && 'F' !in t;
    MissingFirstChar(t, CannotConnect);
    MissingFirstChar(t, "Network request failed");
    MissingFirstChar(t, "Failed to fetch");
    MissingFirstChar(t, "Network error");
    assert t[..|RequestTimeout|] == RequestTimeout;
    assert Contains(t, RequestTimeout);
  }

  /** A failure that `fetch` reports as a network failure always ends in the connection alert. */
  lemma NetworkFailureShowsConnectionError(name: string, message: string, apiBaseUrl: string)
    requires name != "AbortError" && name != "TimeoutError"
    requires Contains(message, "Network request failed") || Contains(message, "Failed to fetch") || Contains(message, "NetworkError")
    ensures FetchErrorAlert(name, message, apiBaseUrl) == Alert("Connection Error", ConnectionHelp(apiBaseUrl))
  {
    var t := RethrownMessage(name, message, apiBaseUrl);
    assert t[..|CannotConnect|] == CannotConnect;
    assert Contains(t, CannotConnect);
  }

  /**
   * A caught error always has a text, so the last branch of the
   * classification shows that text and never its generic fallback.
   */
  lemma CaughtErrorAlwaysHasText(name: string, message: string, apiBaseUrl: string)
    ensures var t := RethrownMessage(name, message, apiBaseUrl);
      && t != ""
      && (!IsConnectionFailure(t) && !IsTimeout(t) && !Contains(t, "JSON") ==>
            FetchErrorAlert(name, message, apiBaseUrl) == Alert("Connection Error", t))
  {
  }

  // ---------------------------------------------------------------------------
  // The whole exchange
  // ---------------------------------------------------------------------------

  /** `response.ok`. */
  predicate IsOk(status: int) {
    200 <= status <= 299
  }

  /** The alert `handleSignUp` ends with once the request was sent. */
  function SignUpResult(fetched: FetchResult, apiBaseUrl: string): (a: Alert)
    ensures fetched.Responded? && IsOk(fetched.status) ==> a == Alert("Success", SuccessMsg)
    ensures fetched.Responded? && !IsOk(fetched.status) ==>
      a == Alert("Signup Failed", FailureMessage(fetched.status, ParseResponse(fetched.read)))
    ensures fetched.FetchFailed? ==> a == FetchErrorAlert(fetched.name, fetched.message, apiBaseUrl)
  {
    match fetched
    case Responded(status, read) =>
      var data := ParseResponse(read);
      if IsOk(status) then Alert("Success", SuccessMsg)
      else Alert("Signup Failed", FailureMessage(status, data))
    case FetchFailed(name, message) => FetchErrorAlert(name, message, apiBaseUrl)
  }

  /** The `message` property of a server body, as the JSON the screen parses. */
  function BodyJson(b: Accounts.Body): ResponseData {
    match b
    case Failure(message) => ResponseData(Some(message))
    case Unavailable(message, _) => ResponseData(Some(message))
    case Created(message, _) => ResponseData(Some(message))
    case LoggedIn(message, _, _) => ResponseData(Some(message))
    case ProfileSaved(message, _) => ResponseData(Some(message))
    case ProfileFound(_) => ResponseData(None)
  }

  /** The server's reply as it arrives: its status and its non-empty JSON text. */
  function Delivered(r: Accounts.Response, text: string): FetchResult {
    Responded(r.status, TextRead(text, Some(BodyJson(r.body))))
  }

  /**
   * Client and server together: an accepted sign-up shows the success alert,
   * a refusal with 400 shows the server's own reason, an unavailable
   * database shows the fixed database text; the server never answers 409,
   * so a duplicate email is reported with the server's 400 reason and the
   * screen's own 409 text is never shown.
   */
  lemma SignUpAgainstServer(f: FormFields, users: Accounts.Users, nextId: nat, connected: bool, text: string, apiBaseUrl: string)
    requires text != ""
    ensures var r := Accounts.Register(users, nextId, connected, AsRegisterRequest(RequestBody(f))).response;
      var a := SignUpResult(Delivered(r, text), apiBaseUrl);
      && (r.status == 201 ==> a == Alert("Success", SuccessMsg))
      && (r.status == 400 ==> a == Alert("Signup Failed", r.body.message))
      && (r.status == 503 ==> a == Alert("Signup Failed", DatabaseErrorMsg))
      && r.status != 409
  {
    var r := Accounts.Register(users, nextId, connected, AsRegisterRequest(RequestBody(f))).response;
    Accounts.RegisterReplies(users, nextId, connected, AsRegisterRequest(RequestBody(f)));
    ServerReplyShown(r, text, apiBaseUrl);
  }

  /** The alert for each reply `createUser` can give. */
  lemma ServerReplyShown(r: Accounts.Response, text: string, apiBaseUrl: string)
    requires text != ""
    requires || (r.status == 201 && r.body.Created?)
             || (r.status == 400 && r.body.Failure? && r.body.message in Accounts.RegisterFailureMessages)
             || r == Accounts.DbUnavailable
    ensures var a := SignUpResult(Delivered(r, text), apiBaseUrl);
      && (r.status == 201 ==> a == Alert("Success", SuccessMsg))
      && (r.status == 400 ==> a == Alert("Signup Failed", r.body.message))
      && (r.status == 503 ==> a == Alert("Signup Failed", DatabaseErrorMsg))
      && r.status != 409
  {
  }

  // ---------------------------------------------------------------------------
  // The screen's state
  // ---------------------------------------------------------------------------

  /** How `handleSignUp` leaves the form before awaiting the reply. */
  datatype Start = Rejected(alert: Alert) | Sent(request: SignUpRequest)

  function BeginSignUp(f: FormFields): (s: Start)
    ensures s.Sent? <==> ValidateSignUp(f).None?
    ensures s.Rejected? ==> Some(s.alert) == ValidateSignUp(f)
    ensures s.Sent? ==> s.request == RequestBody(f)
  {
    match ValidateSignUp(f)
    case Some(alert) => Rejected(alert)
    case None => Sent(RequestBody(f))
  }

  /**
   * The sign-up form: its four inputs, the loading flag, and the email of
   * the render whose `handleSignUp` sent the request, which the success
   * alert's OK handler closes over.
   */
  class SignUpForm {
    var fullName: string
    var email: string
    var password: string
    var confirmPassword: string
    var loading: bool
    var submittedEmail: string

    function Fields(): FormFields
      reads this
    {
      FormFields(fullName, email, password, confirmPassword)
    }

    constructor ()
      ensures Fields() == FormFields("", "", "", "") && !loading
    {
      fullName, email, password, confirmPassword := "", "", "", "";
      loading := false;
      submittedEmail := "";
    }

    /** The inputs' `onChangeText`, which stay editable while a request is out. */
    method SetFullName(value: string)
      modifies this
      ensures Fields() == old(Fields()).(fullName := value)
      ensures loading == old(loading) && submittedEmail == old(submittedEmail)
    {
      fullName := value;
    }

    method SetEmail(value: string)
      modifies this
      ensures Fields() == old(Fields()).(email := value)
      ensures loading == old(loading) && submittedEmail == old(submittedEmail)
    {
      email := value;
    }

    method SetPassword(value: string)
      modifies this
      ensures Fields() == old(Fields()).(password := value)
      ensures loading == old(loading) && submittedEmail == old(submittedEmail)
    {
      password := value;
    }

    method SetConfirmPassword(value: string)
      modifies this
      ensures Fields() == old(Fields()).(confirmPassword := value)
      ensures loading == old(loading) && submittedEmail == old(submittedEmail)
    {
      confirmPassword := value;
    }

    /**
     * `handleSignUp` up to the request: a failed check alerts and leaves
     * everything as it was; otherwise loading turns on and the body is sent.
     */
    method HandleSignUp() returns (start: Start)
      modifies this
      ensures start == BeginSignUp(old(Fields()))
      ensures Fields() == old(Fields())
      ensures loading == (start.Sent? || old(loading))
      ensures submittedEmail == if start.Sent? then old(email) else old(submittedEmail)
    {
      if fullName == "" || email == "" || password == "" || confirmPassword == "" {
        return Rejected(Alert("Error", FillAllMsg));
      }
      if password != confirmPassword {
        return Rejected(Alert("Error", MismatchMsg));
      }
      if |password| < MinPasswordLength {
        return Rejected(Alert("Error", ShortPasswordMsg));
      }
      loading := true;
      submittedEmail := email;
      var requestBody := SignUpRequest(fullName, ToLower(Trim(email)), password);
      start := Sent(requestBody);
    }

    /** The rest of `handleSignUp`: whatever came back, an alert is shown and loading turns off. */
    method FinishSignUp(fetched: FetchResult, apiBaseUrl: string) returns (alert: Alert)
      modifies this
      ensures alert == SignUpResult(fetched, apiBaseUrl)
      ensures Fields() == old(Fields()) && submittedEmail == old(submittedEmail)
      ensures !loading
    {
      match fetched {
        case Responded(status, read) =>
          var data := ParseResponse(read);
          if IsOk(status) {
            alert := Alert("Success", SuccessMsg);
          } else {
            var errorMessage := FailureMessage(status, data);
            alert := Alert("Signup Failed", errorMessage);
          }
        case FetchFailed(name, message) =>
          var errorMsg := RethrownMessage(name, message, apiBaseUrl);
          alert := ClassifyError(errorMsg, apiBaseUrl);
      }
      loading := false;
    }

    /**
     * The success alert's OK button: the form is cleared and login opens
     * prefilled with the email as typed when the request was sent, whatever
     * the input holds now.
     */
    method ConfirmSuccess() returns (emailPrefill: string)
      modifies this
      ensures Fields() == FormFields("", "", "", "")
      ensures emailPrefill == old(submittedEmail)
      ensures loading == old(loading) && submittedEmail == old(submittedEmail)
    {
      emailPrefill := submittedEmail;
      fullName, email, password, confirmPassword := "", "", "", "";
    }
  }

  /**
   * Typing a new email while the request is out does not change the address
   * the login screen is opened with: it is the one that was submitted.
   */
  method EditEmailWhileSending() returns (shown: Alert, prefill: string)
    ensures shown.title == "Success" && prefill == "a@b.co"
  {
    var form := new SignUpForm();
    form.SetFullName("Ann");
    form.SetEmail("a@b.co");
    form.SetPassword("secret1");
    form.SetConfirmPassword("secret1");
    var start := form.HandleSignUp();
    assert ValidateSignUp(FormFields("Ann", "a@b.co", "secret1", "secret1")).None?;
    form.SetEmail("z@b.co");
    shown := form.FinishSignUp(Responded(201, TextRead("", None)), "");
    prefill := form.ConfirmSuccess();
  }
}
