/** The sign-in and sign-up page: the field checks, the error record built by
    `validateForm`, the messages shown for a failed attempt, and where the user
    is sent afterwards. The e-mail check is an input. */
module Auth {
  import opened Js
  import opened JsString

  const MinPasswordLength: nat := 6
  const MobileLength: nat := 10

  const EmailError: string := "Please enter a valid email address"
  const PasswordError: string := "Password must be at least 6 characters"
  const MobileError: string := "Please enter a valid 10-digit mobile number"

  const AdminRole: string := "admin"
  const AdminHome: string := "/admin"
  const Home: string := "/"

  // ---------------------------------------------------------------------------
  // Field checks

  /** `passwordSchema`: `z.string().min(6)`. */
  predicate PasswordValid(password: string) {
    |password| >= MinPasswordLength
  }

  /** `\d`: an ASCII digit. */
  predicate Digit(c: char) {
    '0' <= c <= '9'
  }

  /** The digits after the first: `\d{9}` up to the end. */
  predicate AllDigits(s: string) {
    s == [] || (Digit(s[0]) && AllDigits(s[1..]))
  }

  /** `mobileSchema`: `/^[6-9]\d{9}$/`. */
  predicate MobileValid(mobile: string) {
    |mobile| == MobileLength && '6' <= mobile[0] <= '9' && AllDigits(mobile[1..])
  }

  lemma {:induction false} AllDigitsIff(s: string)
    ensures AllDigits(s) <==> forall i :: 0 <= i < |s| ==> Digit(s[i])
  {
    if s != [] {
      AllDigitsIff(s[1..]);
      assert forall i :: 1 <= i < |s| ==> s[i] == s[1..][i - 1];
    }
  }

  /** A mobile number passes exactly when it has ten characters, all digits, the
      first of them 6 to 9. */
  lemma MobileValidIff(mobile: string)
    ensures MobileValid(mobile) <==>
      |mobile| == 10 && (forall i :: 0 <= i < |mobile| ==> Digit(mobile[i])) && '6' <= mobile[0] <= '9'
  {
    if |mobile| > 0 {
      AllDigitsIff(mobile[1..]);
      assert forall i :: 1 <= i < |mobile| ==> mobile[i] == mobile[1..][i - 1];
    }
  }

  // ---------------------------------------------------------------------------
  // The error record

  /** The error record: one optional message per field. */
  datatype Errors = Errors(email: Option<string>, password: Option<string>, mobileNumber: Option<string>)

  const NoErrors: Errors := Errors(None, None, None)

  /** `Object.keys(errors).length` */
  function KeyCount(e: Errors): (n: nat)
    ensures n <= 3
    ensures n == 0 <==> e == NoErrors
  {
    (if e.email.Some? then 1 else 0) + (if e.password.Some? then 1 else 0)
    + (if e.mobileNumber.Some? then 1 else 0)
  }

  /** The errors `validateForm` records. */
  function ExpectedErrors(emailValid: bool, password: string, isSignUp: bool, mobile: string): Errors {
    Errors(
      if emailValid then None else Some(EmailError),
      if PasswordValid(password) then None else Some(PasswordError),
      if isSignUp && mobile != "" && !MobileValid(mobile) then Some(MobileError) else None)
  }

  /** The mobile number is only checked when signing up and when it is filled
      in; the form is accepted exactly when no field has an error. */
  lemma ErrorsExplained(emailValid: bool, password: string, isSignUp: bool, mobile: string)
    ensures var e := ExpectedErrors(emailValid, password, isSignUp, mobile);
      (e.email.Some? <==> !emailValid)
      && (e.password.Some? <==> !PasswordValid(password))
      && (e.mobileNumber.Some? <==> isSignUp && mobile != "" && !MobileValid(mobile))
      && (KeyCount(e) == 0 <==> emailValid && PasswordValid(password) && (!isSignUp || mobile == "" || MobileValid(mobile)))
  {
  }

  /** In sign-in mode, or with the field left empty, the mobile number never
      produces an error, whatever it holds. */
  lemma MobileOnlyCheckedOnSignUp(emailValid: bool, password: string, isSignUp: bool, mobile: string)
    requires !isSignUp || mobile == ""
    ensures ExpectedErrors(emailValid, password, isSignUp, mobile) == ExpectedErrors(emailValid, password, false, "")
  {
  }

  datatype AuthResponse =
    | Failed(message: string)
    | Succeeded(role: Option<string>)
    | Threw

  const AlreadyRegistered: string := "already registered"
  const InvalidCredentials: string := "Invalid credentials"
  const AlreadyRegisteredToast: string := "This email is already registered. Please sign in."
  const InvalidLoginToast: string := "Invalid email or password"
  const UnexpectedToast: string := "An unexpected error occurred"
  const CreatedToast: string := "Account created successfully!"
  const WelcomeToast: string := "Welcome back!"

  /** The page after a successful attempt: the admin area for an admin, the home
      page for anyone else. */
  function RouteAfterAuth(role: Option<string>): (path: string)
    ensures path == AdminHome <==> role == Some(AdminRole)
    ensures path == AdminHome || path == Home
  {
    if role == Some(AdminRole) then AdminHome else Home
  }

  /** The effect run when the page opens with a user already signed in. */
  function RedirectSignedIn(signedIn: bool, loading: bool, isAdmin: bool): (nav: Option<string>)
    ensures nav.Some? <==> signedIn && !loading
    ensures nav.Some? ==> nav.value == RouteAfterAuth(if isAdmin then Some(AdminRole) else None)
  {
    if signedIn && !loading then Some(if isAdmin then AdminHome else Home) else None
  }

  /** The toast for a failed attempt: the two known messages are reworded, any
      other is shown as it is. */
  function FailureToast(isSignUp: bool, message: string): (toast: string)
    ensures isSignUp && Includes(message, AlreadyRegistered) ==> toast == AlreadyRegisteredToast
    ensures !isSignUp && Includes(message, InvalidCredentials) ==> toast == InvalidLoginToast
    ensures isSignUp && !Includes(message, AlreadyRegistered) ==> toast == message
    ensures !isSignUp && !Includes(message, InvalidCredentials) ==> toast == message
  {
    if isSignUp then
      if Includes(message, AlreadyRegistered) then AlreadyRegisteredToast else message
    else
      if Includes(message, InvalidCredentials) then InvalidLoginToast else message
  }

  // ---------------------------------------------------------------------------
  // The page state

  class AuthPage {
    var isSignUp: bool
    var email: string
    var password: string
    var fullName: string
    var mobileNumber: string
    var isSubmitting: bool
    var errors: Errors

    constructor ()
      ensures !isSignUp && email == "" && password == "" && fullName == "" && mobileNumber == ""
      ensures !isSubmitting && errors == NoErrors
    {
      isSignUp := false;
      email := "";
      password := "";
      fullName := "";
      mobileNumber := "";
      isSubmitting := false;
      errors := NoErrors;
    }

    /** `validateForm`; `emailValid` is the outcome of `emailSchema`. */
    method ValidateForm(emailValid: bool) returns (ok: bool)
      modifies this
      ensures errors == ExpectedErrors(emailValid, password, isSignUp, mobileNumber)
      ensures ok <==> emailValid && PasswordValid(password) && (!isSignUp || mobileNumber == "" || MobileValid(mobileNumber))
      ensures isSignUp == old(isSignUp) && email == old(email) && password == old(password)
      ensures fullName == old(fullName) && mobileNumber == old(mobileNumber) && isSubmitting == old(isSubmitting)
    {
      var newErrors := NoErrors;
      if !emailValid {
        newErrors := newErrors.(email := Some(EmailError));
      }
      if !PasswordValid(password) {
        newErrors := newErrors.(password := Some(PasswordError));
      }
      if isSignUp && mobileNumber != "" {
        if !MobileValid(mobileNumber) {
          newErrors := newErrors.(mobileNumber := Some(MobileError));
        }
      }
      errors := newErrors;
      ok := KeyCount(newErrors) == 0;
    }

    /** `handleSubmit`: validates, then sends the attempt, whose outcome is
        `response`. Returns the toast shown (if any) and where the user is sent. */
    method Submit(emailValid: bool, response: AuthResponse) returns (toast: Option<string>, nav: Option<string>)
      modifies this
      ensures errors == ExpectedErrors(emailValid, password, isSignUp, mobileNumber)
      ensures errors != NoErrors ==> toast == None && nav == None && isSubmitting == old(isSubmitting)
      ensures errors == NoErrors ==> !isSubmitting
      ensures nav.Some? <==> errors == NoErrors && response.Succeeded?
      ensures nav.Some? ==> nav.value == RouteAfterAuth(response.role)
      ensures errors == NoErrors && response.Failed? ==> toast == Some(FailureToast(isSignUp, response.message))
      ensures errors == NoErrors && response.Succeeded? ==> toast == Some(if isSignUp then CreatedToast else WelcomeToast)
      ensures errors == NoErrors && response.Threw? ==> toast == Some(UnexpectedToast)
      ensures isSignUp == old(isSignUp) && email == old(email) && password == old(password)
      ensures fullName == old(fullName) && mobileNumber == old(mobileNumber)
    {
      toast := None;
      nav := None;
      var ok := ValidateForm(emailValid);
      if !ok {
        return;
      }
      isSubmitting := true;
      match response {
        case Failed(message) =>
          toast := Some(FailureToast(isSignUp, message));
        case Succeeded(role) =>
          toast := Some(if isSignUp then CreatedToast else WelcomeToast);
          nav := Some(RouteAfterAuth(role));
        case Threw =>
          toast := Some(UnexpectedToast);
      }
      isSubmitting := false;
    }

    /** The "Create One" / "Sign In" link. */
    method ToggleMode()
      modifies this
      ensures isSignUp == !old(isSignUp) && errors == NoErrors
      ensures email == old(email) && password == old(password) && fullName == old(fullName)
      ensures mobileNumber == old(mobileNumber) && isSubmitting == old(isSubmitting)
    {
      isSignUp := !isSignUp;
      errors := NoErrors;
    }
  }
}
