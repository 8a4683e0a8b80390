/** The sign-up / sign-in form: client-side validation in sign-up mode, the
    request each mode sends, the mapping of reply status codes to navigation
    or an error message, and the keys written to local storage on sign-in. */
module Auth {
  import opened Wrappers
  import opened Text

  const MinPasswordLength: nat := 8
  const MismatchError: string := "Passwords do not match"
  const ShortPasswordError: string := "Password must be at least 8 characters long"
  const PhoneTakenError: string := "Phone number already exists"
  const SignupFailedError: string := "Signup failed. Please try again."
  const BadCredentialsError: string := "Invalid phone number or password"
  const GenericError: string := "An error occurred. Please try again."
  const SigninPath: string := "/auth/signin"
  const ProfilePath: string := "/profile"

  datatype Form = Form(phoneNumber: string, firstName: string, middleName: string, lastName: string,
                       password: string, confirmPassword: string)

  /** The request bodies; a sign-up request has no place for the confirmation. */
  datatype Request =
    | SignupRequest(phoneNumber: string, firstName: string, middleName: string, lastName: string, password: string)
    | SigninRequest(phoneNumber: string, password: string)

  /** The sign-in reply body; `user` is the user object as JSON text. */
  datatype SigninBody = SigninBody(token: string, refreshToken: string, user: string)

  /** A reply with its `statusCode` (and, for sign-in, its body), or a raised
      request error carrying the server's `message`, if any. */
  datatype Response = Replied(statusCode: int, body: SigninBody) | Raised(serverMessage: Option<string>)

  /** What the form does with a reply: navigate, or show an error. */
  datatype Outcome = GoTo(path: string) | ShowError(message: string)

  /** Sign-up validation: the confirmation is checked before the length, and
      the length is counted in UTF-16 code units, as `.length` counts it. */
  function ValidateSignup(password: string, confirmPassword: string): (r: Option<string>)
    ensures r.None? <==> password == confirmPassword && Utf16Length(password) >= MinPasswordLength
    ensures password != confirmPassword ==> r == Some(MismatchError)
    ensures password == confirmPassword && Utf16Length(password) < MinPasswordLength
            ==> r == Some(ShortPasswordError)
  {
    if password != confirmPassword then Some(MismatchError)
    else if Utf16Length(password) < MinPasswordLength then Some(ShortPasswordError)
    else None
  }

  /** Four characters outside the Basic Multilingual Plane already make a
      long enough password, while seven ordinary ones do not. */
  lemma {:induction false} LengthCountsCodeUnits(astral: char, plain: char)
    requires astral as int > 0xFFFF && plain as int <= 0xFFFF
    ensures ValidateSignup([astral, astral, astral, astral], [astral, astral, astral, astral]).None?
    ensures ValidateSignup([plain, plain, plain, plain, plain, plain, plain],
                           [plain, plain, plain, plain, plain, plain, plain]) == Some(ShortPasswordError)
  {
    var a := [astral, astral, astral, astral];
    assert Utf16Length(a[3..]) == 2;
    assert a[2..][1..] == a[3..];
    assert Utf16Length(a[2..]) == 4;
    assert a[1..][1..] == a[2..];
    assert Utf16Length(a[1..]) == 6;
    assert Utf16Length(a) == 8;
  }

  /** The request a submit sends in `mode`, if any: sign-in always sends one,
      sign-up only after validation, any other mode none. */
  function RequestFor(mode: string, form: Form): (r: Option<Request>)
    ensures mode == "signin" ==> r == Some(SigninRequest(form.phoneNumber, form.password))
    ensures mode == "signup" ==> (r.Some? <==> ValidateSignup(form.password, form.confirmPassword).None?)
    ensures mode == "signup" && r.Some?
            ==> r.value == SignupRequest(form.phoneNumber, form.firstName, form.middleName, form.lastName, form.password)
    ensures mode != "signup" && mode != "signin" ==> r.None?
  {
    if mode == "signup" then
      if ValidateSignup(form.password, form.confirmPassword).Some? then None
      else Some(SignupRequest(form.phoneNumber, form.firstName, form.middleName, form.lastName, form.password))
    else if mode == "signin" then Some(SigninRequest(form.phoneNumber, form.password))
    else None
  }

  function SignupOutcome(statusCode: int): (o: Outcome)
    ensures o.GoTo? <==> statusCode == 201
    ensures o.GoTo? ==> o.path == SigninPath
    ensures statusCode == 409 ==> o == ShowError(PhoneTakenError)
    ensures statusCode != 201 && statusCode != 409 ==> o == ShowError(SignupFailedError)
  {
    if statusCode == 201 then GoTo(SigninPath)
    else if statusCode == 409 then ShowError(PhoneTakenError)
    else ShowError(SignupFailedError)
  }

  function SigninOutcome(statusCode: int): (o: Outcome)
    ensures o.GoTo? <==> statusCode == 200
    ensures o.GoTo? ==> o.path == ProfilePath
    ensures o.ShowError? ==> o.message == BadCredentialsError
  {
    if statusCode == 200 then GoTo(ProfilePath) else ShowError(BadCredentialsError)
  }

  /** `error.response?.data?.message || 'An error occurred…'`. */
  function RaisedMessage(serverMessage: Option<string>): (m: string)
    ensures Truthy(serverMessage) ==> m == serverMessage.value
    ensures !Truthy(serverMessage) ==> m == GenericError
  {
    if Truthy(serverMessage) then serverMessage.value else GenericError
  }

  /** The form's state: the error line, local storage, the app's
      authenticated flag and the navigation performed, if any. */
  class AuthPage {
    var error: string
    var storage: map<string, string>
    var authenticated: bool
    var navigatedTo: Option<string>

    constructor (storage: map<string, string>, authenticated: bool)
      ensures this.error == "" && this.storage == storage && this.authenticated == authenticated
      ensures navigatedTo.None?
    {
      this.error := "";
      this.storage := storage;
      this.authenticated := authenticated;
      this.navigatedTo := None;
    }

    /** `handleSubmit`: clear the error, validate, send the request for `mode`
        (returned), and act on `response`, the reply to it. */
    method Submit(mode: string, form: Form, response: Response) returns (sent: Option<Request>)
      modifies this
      ensures sent == RequestFor(mode, form)
      ensures sent.None?
              ==> storage == old(storage) && authenticated == old(authenticated)
                  && navigatedTo == old(navigatedTo)
      ensures mode == "signup" && sent.None?
              ==> Some(error) == ValidateSignup(form.password, form.confirmPassword)
      ensures mode != "signup" && mode != "signin" ==> error == ""
      ensures sent.Some? && response.Raised?
              ==> error == RaisedMessage(response.serverMessage) && storage == old(storage)
                  && authenticated == old(authenticated) && navigatedTo == old(navigatedTo)
      ensures mode == "signup" && sent.Some? && response.Replied?
              ==> storage == old(storage) && authenticated == old(authenticated)
                  && match SignupOutcome(response.statusCode)
                     case GoTo(path) => navigatedTo == Some(path) && error == ""
                     case ShowError(m) => navigatedTo == old(navigatedTo) && error == m
      ensures mode == "signin" && response.Replied? && response.statusCode == 200
              ==> storage == old(storage)["token" := response.body.token]
                                         ["refreshToken" := response.body.refreshToken]
                                         ["user" := response.body.user]
                  && authenticated && navigatedTo == Some(ProfilePath) && error == ""
      ensures mode == "signin" && response.Replied? && response.statusCode != 200
              ==> storage == old(storage) && authenticated == old(authenticated)
                  && navigatedTo == old(navigatedTo) && error == BadCredentialsError
    {
      error := "";
      sent := RequestFor(mode, form);
      if mode == "signup" {
        var invalid := ValidateSignup(form.password, form.confirmPassword);
        if invalid.Some? {
          error := invalid.value;
          return;
        }
      }
      if sent.None? {
        return;
      }
      match response
      case Raised(serverMessage) =>
        error := RaisedMessage(serverMessage);
      case Replied(statusCode, body) =>
        if mode == "signup" {
          match SignupOutcome(statusCode) {
            case GoTo(path) => navigatedTo := Some(path);
            case ShowError(m) => error := m;
          }
        } else if statusCode == 200 {
          storage := storage["token" := body.token];
          storage := storage["refreshToken" := body.refreshToken];
          storage := storage["user" := body.user];
          authenticated := true;
          navigatedTo := Some(ProfilePath);
        } else {
          error := BadCredentialsError;
        }
    }
  }
}
