/**
 * The sign-in page: the login guard and its error text, the signup checks in the order
 * the page makes them, the profile metadata it sends, and the fields it clears after a
 * successful signup. The auth service is represented by the outcome of its call.
 */
module Auth {
  import opened Text

  datatype UserType = Individual | Company

  /** What the auth call gave back: success, an error with its message, or an exception. */
  datatype AuthCall = Succeeded | Failed(message: string) | Threw

  const InvalidCredentials := "Invalid login credentials"
  const WrongEmailOrPassword := "Forkert email eller adgangskode"
  const AlreadyRegistered := "User already registered"
  const TryLaterText := "Prøv venligst igen senere."

  const MinPasswordLength: nat := 6

  /** The description of a failed login: the known credentials error gets a Danish text; any other message is shown as it is. */
  function LoginErrorText(message: string): (r: string)
    ensures message == InvalidCredentials ==> r == WrongEmailOrPassword
    ensures message != InvalidCredentials ==> r == message
  {
    if message == InvalidCredentials then WrongEmailOrPassword else message
  }

  datatype LoginOutcome = LoginSkipped | LoginError(description: string) | LoggedIn

  /** `handleLogin`: nothing happens unless both fields are non-empty; then the auth call's outcome decides. */
  function HandleLogin(email: string, password: string, call: AuthCall): (r: LoginOutcome)
    ensures r == LoginSkipped <==> email == "" || password == ""
    ensures r == LoggedIn <==> email != "" && password != "" && call == Succeeded
    ensures email != "" && password != "" && call.Failed? ==> r == LoginError(LoginErrorText(call.message))
    ensures email != "" && password != "" && call == Threw ==> r == LoginError(TryLaterText)
  {
    if email == "" || password == "" then LoginSkipped
    else match call
      case Succeeded => LoggedIn
      case Failed(m) => LoginError(LoginErrorText(m))
      case Threw => LoginError(TryLaterText)
  }

  /** The signup form's fields. */
  datatype SignupForm = SignupForm(email: string, password: string, confirm: string, userType: UserType,
                                   firstName: string, lastName: string, companyName: string, cvrNumber: string)

  /** `user_type` plus the two trimmed fields of that type; the other type's fields are not sent. */
  datatype Metadata = IndividualData(firstName: string, lastName: string) | CompanyData(companyName: string, cvrNumber: string)

  function MetadataType(m: Metadata): UserType {
    if m.IndividualData? then Individual else Company
  }

  /** The result of the signup checks: a silent return, the first failed check, or the metadata to submit. */
  datatype SignupCheck = Silent | PasswordMismatch | PasswordTooShort | MissingNames | MissingCompany | Ready(metadata: Metadata)

  /** The checks of `handleSignup`, in order, up to the call to the auth service. */
  function ValidateSignup(f: SignupForm): (r: SignupCheck)
    ensures r == Silent <==> f.email == "" || f.password == "" || f.confirm == ""
    ensures r == PasswordMismatch <==> r != Silent && f.password != f.confirm
    ensures r == PasswordTooShort <==> r != Silent && f.password == f.confirm && |f.password| < MinPasswordLength
    ensures r == MissingNames <==>
              && f.email != "" && f.password != "" && f.confirm != ""
              && f.password == f.confirm && |f.password| >= MinPasswordLength
              && f.userType == Individual && (Trim(f.firstName) == "" || Trim(f.lastName) == "")
    ensures r == MissingCompany <==>
              && f.email != "" && f.password != "" && f.confirm != ""
              && f.password == f.confirm && |f.password| >= MinPasswordLength
              && f.userType == Company && (Trim(f.companyName) == "" || Trim(f.cvrNumber) == "")
    ensures r.Ready? ==> MetadataType(r.metadata) == f.userType
    ensures r.Ready? && f.userType == Individual ==> r.metadata == IndividualData(Trim(f.firstName), Trim(f.lastName))
    ensures r.Ready? && f.userType == Company ==> r.metadata == CompanyData(Trim(f.companyName), Trim(f.cvrNumber))
  {
    if f.email == "" || f.password == "" || f.confirm == "" then Silent
    else if f.password != f.confirm then PasswordMismatch
    else if |f.password| < MinPasswordLength then PasswordTooShort
    else match f.userType
      case Individual =>
        if Trim(f.firstName) == "" || Trim(f.lastName) == "" then MissingNames
        else Ready(IndividualData(Trim(f.firstName), Trim(f.lastName)))
      case Company =>
        if Trim(f.companyName) == "" || Trim(f.cvrNumber) == "" then MissingCompany
        else Ready(CompanyData(Trim(f.companyName), Trim(f.cvrNumber)))
  }

  /**
   * A form reaches the auth service exactly when all three credential fields are filled
   * in, the passwords agree and are at least six long, and the two fields of the chosen
   * type are not blank (only whitespace counts as blank).
   */
  lemma ReadyIff(f: SignupForm)
    ensures ValidateSignup(f).Ready? <==>
              && f.email != "" && f.password != "" && f.confirm != ""
              && f.password == f.confirm && |f.password| >= MinPasswordLength
              && (f.userType == Individual ==> !AllWhitespace(f.firstName) && !AllWhitespace(f.lastName))
              && (f.userType == Company ==> !AllWhitespace(f.companyName) && !AllWhitespace(f.cvrNumber))
  {
    TrimEmptyIff(f.firstName);
    TrimEmptyIff(f.lastName);
    TrimEmptyIff(f.companyName);
    TrimEmptyIff(f.cvrNumber);
  }

  /** The sent names carry no surrounding whitespace, whatever the user typed. */
  lemma MetadataIsTrimmed(f: SignupForm)
    requires ValidateSignup(f).Ready? && f.userType == Individual
    ensures Trim(ValidateSignup(f).metadata.firstName) == ValidateSignup(f).metadata.firstName
    ensures Trim(ValidateSignup(f).metadata.lastName) == ValidateSignup(f).metadata.lastName
  {
    TrimIdempotent(f.firstName);
    TrimIdempotent(f.lastName);
  }

  /** The description of a failed signup: a message mentioning an existing user gets its own text; others are shown as they are. */
  datatype SignupError = UserExists | Other(message: string)

  function SignupErrorOf(message: string): (r: SignupError)
    ensures r == UserExists <==> Contains(message, AlreadyRegistered)
    ensures r.Other? ==> r.message == message
  {
    if ContainsFrom(message, AlreadyRegistered, 0) then UserExists else Other(message)
  }

  datatype SignupOutcome = Checked(check: SignupCheck) | Registered | RegisterFailed(error: SignupError) | RegisterThrew

  class SignupPage {
    var loginEmail: string
    var loginPassword: string
    var form: SignupForm

    constructor ()
      ensures loginEmail == "" && loginPassword == "" && form == SignupForm("", "", "", Individual, "", "", "", "")
    {
      loginEmail, loginPassword := "", "";
      form := SignupForm("", "", "", Individual, "", "", "", "");
    }

    /**
     * `handleSignup`. A failed check, a failed call or an exception leaves every field as it
     * was. A successful signup clears the email, both passwords and the four profile
     * fields; the chosen user type and the login fields stay.
     */
    method HandleSignup(call: AuthCall) returns (outcome: SignupOutcome)
      modifies this`form
      ensures !ValidateSignup(old(form)).Ready? ==> outcome == Checked(ValidateSignup(old(form))) && form == old(form)
      ensures ValidateSignup(old(form)).Ready? ==>
                match call
                case Succeeded =>
                  outcome == Registered && form == SignupForm("", "", "", old(form).userType, "", "", "", "")
                case Failed(m) => outcome == RegisterFailed(SignupErrorOf(m)) && form == old(form)
                case Threw => outcome == RegisterThrew && form == old(form)
    {
      var check := ValidateSignup(form);
      if !check.Ready? {
        return Checked(check);
      }
      match call {
        case Succeeded =>
          form := form.(email := "", password := "", confirm := "",
                        firstName := "", lastName := "", companyName := "", cvrNumber := "");
          outcome := Registered;
        case Failed(m) =>
          outcome := RegisterFailed(SignupErrorOf(m));
        case Threw =>
          outcome := RegisterThrew;
      }
    }
  }
}
