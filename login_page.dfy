/** The login / registration / verification form (`src/components/LoginPage.tsx`
    and its older twin `src/components/LoginPage.jsx`). `handleSubmit` runs
    a chain of checks and either sets an error message and sends nothing,
    or sends one request; the response handlers then update the form. The
    request and its response are separate steps here, so the network call
    in between is left to the caller. */
module LoginPage {
  import opened Common
  import opened PhoneFormat
  import AuthServer

  /** Which of the two components: they differ in the licence rule. */
  datatype Edition = Tsx | Jsx

  /** The text inputs of the form, `""` until typed into. */
  datatype Form = Form(
    identifier: string,
    password: string,
    username: string,
    fullName: string,
    email: string,
    phoneNumber: string,
    licenseNumber: string,
    licenseExpiryDate: string,
    role: string,
    adminCode: string)

  function InitialForm(): Form {
    Form("", "", "", "", "", "", "", "", "user", "")
  }

  /** What a submit sends to the back end. */
  datatype Request =
    | VerifyCall(email: string, code: string)
    | RegisterCall(body: AuthServer.RegisterRequest)
    | LoginCall(identifier: string, password: string)

  const MSG_ENTER_CODE: string := "Please enter the verification code"
  const MSG_ALL_FIELDS: string := "All fields are required"
  const MSG_NAME_PHONE: string := "Full name and phone number are required"
  const MSG_LICENCE: string := "License number and expiry date are required for regular users"
  const MSG_GUARD_DETAILS: string := "All security guard details are required"
  const MSG_GMAIL: string := "You must use a Gmail account (email must end with @gmail.com)"
  const MSG_ADMIN_CODE_REQUIRED: string := "Admin code is required for admin account"
  const MSG_ADMIN_CODE_INVALID: string := "Invalid admin code"
  const MSG_PASSWORD_SHORT: string := "Password must be at least 6 characters"
  const MSG_LOGIN_FIELDS: string := "Email, phone number, and password are required"
  const MSG_VERIFY_FIRST: string := "Please verify your email first. Check your Gmail for the confirmation code."
  const MSG_CHECK_GMAIL: string := "Check your Gmail for the confirmation code!"

  // ---------------------------------------------------------------------
  // The registration checks
  // ---------------------------------------------------------------------

  predicate HasBasics(f: Form) {
    f.email != "" && f.password != "" && f.username != "" && f.role != ""
  }

  /** The personal details each component asks for: the `.tsx` form lets an
      admin leave out the licence, the `.jsx` form wants it from everyone. */
  predicate HasDetails(edition: Edition, f: Form) {
    f.fullName != "" && f.phoneNumber != ""
    && (edition == Jsx || f.role != "admin" ==> f.licenseNumber != "" && f.licenseExpiryDate != "")
  }

  predicate AdminCodeOk(f: Form) {
    f.role == "admin" ==> f.adminCode == AuthServer.ADMIN_CODE
  }

  /** What a registration must satisfy before anything is sent. */
  predicate ClientAcceptable(edition: Edition, f: Form) {
    HasBasics(f) && HasDetails(edition, f) && EndsWith(f.email, "@gmail.com")
    && AdminCodeOk(f) && |f.password| >= 6
  }

  /** The message of the failing details check. */
  function DetailsMessage(edition: Edition, f: Form): string {
    match edition
    case Jsx => MSG_GUARD_DETAILS
    case Tsx => if f.fullName == "" || f.phoneNumber == "" then MSG_NAME_PHONE else MSG_LICENCE
  }

  /** The first failing registration check, in the handler's order; each
      message is given exactly when every earlier check passed and its own
      fails. */
  function RegisterFailure(edition: Edition, f: Form): (err: Option<string>)
    ensures err.None? <==> ClientAcceptable(edition, f)
    ensures err == Some(MSG_ALL_FIELDS) <==> !HasBasics(f)
    ensures HasBasics(f) && !HasDetails(edition, f) <==> err == Some(DetailsMessage(edition, f))
    ensures err == Some(MSG_GMAIL) <==>
      (HasBasics(f) && HasDetails(edition, f) && !EndsWith(f.email, "@gmail.com"))
    ensures err == Some(MSG_ADMIN_CODE_REQUIRED) <==>
      (HasBasics(f) && HasDetails(edition, f) && EndsWith(f.email, "@gmail.com")
       && f.role == "admin" && f.adminCode == "")
    ensures err == Some(MSG_ADMIN_CODE_INVALID) <==>
      (HasBasics(f) && HasDetails(edition, f) && EndsWith(f.email, "@gmail.com")
       && f.role == "admin" && f.adminCode != "" && f.adminCode != AuthServer.ADMIN_CODE)
    ensures err == Some(MSG_PASSWORD_SHORT) <==>
      (HasBasics(f) && HasDetails(edition, f) && EndsWith(f.email, "@gmail.com")
       && AdminCodeOk(f) && |f.password| < 6)
  {
    if !HasBasics(f) then Some(MSG_ALL_FIELDS)
    else if edition == Tsx && (f.fullName == "" || f.phoneNumber == "") then Some(MSG_NAME_PHONE)
    else if edition == Tsx && f.role != "admin" && (f.licenseNumber == "" || f.licenseExpiryDate == "") then Some(MSG_LICENCE)
    else if edition == Jsx && (f.fullName == "" || f.phoneNumber == "" || f.licenseNumber == "" || f.licenseExpiryDate == "")
      then Some(MSG_GUARD_DETAILS)
    else if !EndsWith(f.email, "@gmail.com") then Some(MSG_GMAIL)
    else if f.role == "admin" && f.adminCode == "" then Some(MSG_ADMIN_CODE_REQUIRED)
    else if f.role == "admin" && f.adminCode != AuthServer.ADMIN_CODE then Some(MSG_ADMIN_CODE_INVALID)
    else if |f.password| < 6 then Some(MSG_PASSWORD_SHORT)
    else None
  }

  /** The request body: the `.tsx` form sends the licence only for
      non-admins (an absent field reaches the server as falsy, `""` here). */
  function RegisterBody(edition: Edition, f: Form): (body: AuthServer.RegisterRequest)
    ensures body.email == f.email && body.password == f.password && body.username == f.username
    ensures body.role == f.role && body.adminCode == f.adminCode
    ensures body.fullName == f.fullName && body.phoneNumber == f.phoneNumber
    ensures (edition == Jsx || f.role != "admin") ==>
      body.licenseNumber == f.licenseNumber && body.licenseExpiryDate == f.licenseExpiryDate
    ensures edition == Tsx && f.role == "admin" ==> body.licenseNumber == "" && body.licenseExpiryDate == ""
  {
    var withLicence := edition == Jsx || f.role != "admin";
    AuthServer.RegisterRequest(f.email, f.password, f.username, f.role, f.adminCode, f.fullName, f.phoneNumber,
                               if withLicence then f.licenseNumber else "",
                               if withLicence then f.licenseExpiryDate else "")
  }

  /** A registration the form lets through, for one of the two roles its
      select offers, passes every check of the server too. */
  lemma ClientChecksImplyServerChecks(edition: Edition, f: Form)
    requires ClientAcceptable(edition, f) && f.role in {"user", "admin"}
    ensures AuthServer.RegisterCheck(RegisterBody(edition, f)).None?
  {
    var body := RegisterBody(edition, f);
    assert AuthServer.HasRequiredFields(body);
  }

  /** The length rule is the form's own: the server takes any non-empty
      password that passes its other checks. */
  lemma ServerAcceptsShortPasswords(edition: Edition, f: Form)
    requires HasBasics(f) && HasDetails(edition, f) && EndsWith(f.email, "@gmail.com") && AdminCodeOk(f)
    requires f.role in {"user", "admin"} && |f.password| < 6
    ensures RegisterFailure(edition, f) == Some(MSG_PASSWORD_SHORT)
    ensures AuthServer.RegisterCheck(RegisterBody(edition, f)).None?
  {
    var body := RegisterBody(edition, f);
    assert AuthServer.HasRequiredFields(body);
  }

  /** The phone field is run through `formatPhoneNumber` on every change,
      so once typed into it is never empty. */
  lemma TypedPhoneIsNeverEmpty(input: string)
    ensures FormatPhoneNumber(input) != "" && StartsWith(FormatPhoneNumber(input), "+63")
  {
    FormatPhoneNumberShape(input);
  }

  // ---------------------------------------------------------------------
  // The e-mail the verification step uses after a login
  // ---------------------------------------------------------------------

  /** As written: a login refused for an unverified account takes the
      e-mail from the registration field, not from the response. */
  function VerificationEmailAsWritten(f: Form, responseEmail: string): string {
    f.email
  }

  /** Corrected: the e-mail the server sends back with `requiresVerification`. */
  function VerificationEmail(f: Form, responseEmail: string): string {
    responseEmail
  }

  /** After a fresh page load the registration e-mail is empty, so the
      as-written choice makes the verification request carry no e-mail. */
  lemma VerificationEmailAsWrittenIsEmpty(identifier: string, password: string, responseEmail: string)
    requires responseEmail != ""
    ensures VerificationEmailAsWritten(InitialForm().(identifier := identifier, password := password), responseEmail) == ""
    ensures VerificationEmail(InitialForm().(identifier := identifier, password := password), responseEmail) != ""
  {
  }

  // ---------------------------------------------------------------------
  // The component's state
  // ---------------------------------------------------------------------

  class LoginForm {
    const edition: Edition
    var form: Form
    var error: string
    var isLoading: bool
    var isRegistering: bool
    var requiresVerification: bool
    var verificationCode: string
    var verificationEmail: string

    constructor (edition: Edition)
      ensures this.edition == edition && form == InitialForm()
      ensures error == "" && !isLoading && !isRegistering && !requiresVerification
      ensures verificationCode == "" && verificationEmail == ""
    {
      this.edition := edition;
      form := InitialForm();
      error, isLoading, isRegistering, requiresVerification := "", false, false, false;
      verificationCode, verificationEmail := "", "";
    }

    /** The phone input's `onChange`. */
    method SetPhoneNumber(input: string)
      modifies this
      ensures form == old(form).(phoneNumber := FormatPhoneNumber(input))
      ensures StartsWith(form.phoneNumber, "+63") && |form.phoneNumber| <= 16
      ensures error == old(error) && isLoading == old(isLoading) && isRegistering == old(isRegistering)
      ensures requiresVerification == old(requiresVerification)
      ensures verificationCode == old(verificationCode) && verificationEmail == old(verificationEmail)
    {
      FormatPhoneNumberShape(input);
      form := form.(phoneNumber := FormatPhoneNumber(input));
    }

    /** The code input's `onChange`: `value.slice(0, 6)`. */
    method SetVerificationCode(input: string)
      modifies this
      ensures |verificationCode| == (if |input| < 6 then |input| else 6)
      ensures verificationCode == input[..|verificationCode|]
      ensures form == old(form) && error == old(error) && isLoading == old(isLoading)
      ensures isRegistering == old(isRegistering) && requiresVerification == old(requiresVerification)
      ensures verificationEmail == old(verificationEmail)
    {
      verificationCode := Take(input, 6);
    }

    /** The "Register" / "Login" toggle: the e-mail field survives it. */
    method ToggleRegistering()
      modifies this
      ensures isRegistering == !old(isRegistering) && error == ""
      ensures form == old(form).(password := "", adminCode := "", identifier := "")
      ensures isLoading == old(isLoading) && requiresVerification == old(requiresVerification)
      ensures verificationCode == old(verificationCode) && verificationEmail == old(verificationEmail)
    {
      isRegistering := !isRegistering;
      error := "";
      form := form.(password := "", adminCode := "", identifier := "");
    }

    /** `handleSubmit` up to its `fetch`: the verification, registration or
        login checks, in that order of modes. A refused submit sets its
        message and sends nothing; an accepted one sends one request and
        leaves the form loading. Nothing but the message and the loading
        flag changes. */
    method Submit() returns (req: Option<Request>)
      modifies this
      ensures requiresVerification ==>
        if verificationCode == "" then req.None? && error == MSG_ENTER_CODE && !isLoading
        else req == Some(VerifyCall(verificationEmail, verificationCode)) && error == "" && isLoading
      ensures !requiresVerification && isRegistering ==>
        match RegisterFailure(edition, form)
        case Some(m) => req.None? && error == m && !isLoading
        case None => req == Some(RegisterCall(RegisterBody(edition, form))) && error == "" && isLoading
      ensures !requiresVerification && !isRegistering ==>
        if form.identifier == "" || form.password == "" then req.None? && error == MSG_LOGIN_FIELDS && !isLoading
        else req == Some(LoginCall(form.identifier, form.password)) && error == "" && isLoading
      ensures form == old(form) && isRegistering == old(isRegistering)
      ensures requiresVerification == old(requiresVerification)
      ensures verificationCode == old(verificationCode) && verificationEmail == old(verificationEmail)
    {
      error := "";
      isLoading := true;
      if requiresVerification {
        if verificationCode == "" {
          error := MSG_ENTER_CODE;
          isLoading := false;
          return None;
        }
        return Some(VerifyCall(verificationEmail, verificationCode));
      }
      if isRegistering {
        var failure := RegisterFailure(edition, form);
        if failure.Some? {
          error := failure.value;
          isLoading := false;
          return None;
        }
        return Some(RegisterCall(RegisterBody(edition, form)));
      }
      if form.identifier == "" || form.password == "" {
        error := MSG_LOGIN_FIELDS;
        isLoading := false;
        return None;
      }
      return Some(LoginCall(form.identifier, form.password));
    }

    /** The answer to the verification request. */
    method OnVerifyResponse(ok: bool, serverError: string)
      modifies this
      ensures !isLoading && form == old(form) && isRegistering == old(isRegistering)
      ensures !ok ==>
        error == (if serverError != "" then serverError else "Verification failed")
        && requiresVerification == old(requiresVerification)
        && verificationCode == old(verificationCode) && verificationEmail == old(verificationEmail)
      ensures ok ==>
        error == "Email verified! You can now login." && !requiresVerification
        && verificationCode == "" && verificationEmail == ""
    {
      isLoading := false;
      if !ok {
        error := if serverError != "" then serverError else "Verification failed";
        return;
      }
      error := "Email verified! You can now login.";
      requiresVerification := false;
      verificationCode, verificationEmail := "", "";
    }

    /** The answer to the registration request: a pending verification
        clears every input but the role and remembers the e-mail. */
    method OnRegisterResponse(ok: bool, serverError: string, needsVerification: bool)
      modifies this
      ensures !isLoading && verificationCode == old(verificationCode)
      ensures !ok ==>
        error == (if serverError != "" then serverError else "Registration failed")
        && form == old(form) && isRegistering == old(isRegistering)
        && requiresVerification == old(requiresVerification) && verificationEmail == old(verificationEmail)
      ensures ok && needsVerification ==>
        requiresVerification && verificationEmail == old(form).email && error == MSG_CHECK_GMAIL
        && form == InitialForm().(role := old(form).role) && isRegistering == old(isRegistering)
      ensures ok && !needsVerification ==>
        !isRegistering && form == old(form).(password := "") && error == "Registration successful! Please login."
        && requiresVerification == old(requiresVerification) && verificationEmail == old(verificationEmail)
    {
      isLoading := false;
      if !ok {
        error := if serverError != "" then serverError else "Registration failed";
        return;
      }
      if needsVerification {
        requiresVerification := true;
        verificationEmail := form.email;
        error := MSG_CHECK_GMAIL;
        form := InitialForm().(role := form.role);
        return;
      }
      isRegistering := false;
      form := form.(password := "");
      error := "Registration successful! Please login.";
    }

    /** The answer to the login request as written; `loggedIn` is the call
        of `onLogin`. An unverified account switches the form to the code
        step with the registration field's e-mail, not the one the server
        sent back. */
    method OnLoginResponse(ok: bool, serverError: string, needsVerification: bool, responseEmail: string)
      returns (loggedIn: bool)
      modifies this
      ensures !isLoading && loggedIn == ok
      ensures isRegistering == old(isRegistering) && verificationCode == old(verificationCode)
      ensures !ok && needsVerification ==>
        requiresVerification && verificationEmail == old(form).email
        && error == MSG_VERIFY_FIRST && form == old(form).(password := "")
      ensures !ok && !needsVerification ==>
        error == (if serverError != "" then serverError else "Login failed")
        && form == old(form) && requiresVerification == old(requiresVerification)
        && verificationEmail == old(verificationEmail)
      ensures ok ==>
        form == old(form) && error == old(error) && requiresVerification == old(requiresVerification)
        && verificationEmail == old(verificationEmail)
    {
      loggedIn := OnLoginAnswer(ok, serverError, needsVerification, VerificationEmailAsWritten(form, responseEmail));
    }

    /** The same answer with the corrected choice: the code step uses the
        e-mail the server sent back with `requiresVerification`. */
    method OnLoginResponseCorrected(ok: bool, serverError: string, needsVerification: bool, responseEmail: string)
      returns (loggedIn: bool)
      modifies this
      ensures !isLoading && loggedIn == ok
      ensures isRegistering == old(isRegistering) && verificationCode == old(verificationCode)
      ensures !ok && needsVerification ==>
        requiresVerification && verificationEmail == responseEmail
        && error == MSG_VERIFY_FIRST && form == old(form).(password := "")
      ensures !ok && !needsVerification ==>
        error == (if serverError != "" then serverError else "Login failed")
        && form == old(form) && requiresVerification == old(requiresVerification)
        && verificationEmail == old(verificationEmail)
      ensures ok ==>
        form == old(form) && error == old(error) && requiresVerification == old(requiresVerification)
        && verificationEmail == old(verificationEmail)
    {
      loggedIn := OnLoginAnswer(ok, serverError, needsVerification, VerificationEmail(form, responseEmail));
    }

    /** The branches of the login answer, given the e-mail that the code
        step is to use. */
    method OnLoginAnswer(ok: bool, serverError: string, needsVerification: bool, toVerify: string)
      returns (loggedIn: bool)
      modifies this
      ensures !isLoading && loggedIn == ok
      ensures isRegistering == old(isRegistering) && verificationCode == old(verificationCode)
      ensures !ok && needsVerification ==>
        requiresVerification && verificationEmail == toVerify
        && error == MSG_VERIFY_FIRST && form == old(form).(password := "")
      ensures !ok && !needsVerification ==>
        error == (if serverError != "" then serverError else "Login failed")
        && form == old(form) && requiresVerification == old(requiresVerification)
        && verificationEmail == old(verificationEmail)
      ensures ok ==>
        form == old(form) && error == old(error) && requiresVerification == old(requiresVerification)
        && verificationEmail == old(verificationEmail)
    {
      isLoading := false;
      if !ok {
        if needsVerification {
          requiresVerification := true;
          verificationEmail := toVerify;
          error := MSG_VERIFY_FIRST;
          form := form.(password := "");
          return false;
        }
        error := if serverError != "" then serverError else "Login failed";
        return false;
      }
      return true;
    }

    /** The `catch` of `handleSubmit`. */
    method OnFetchError(message: string)
      modifies this
      ensures error == "Error: " + message && !isLoading
      ensures form == old(form) && isRegistering == old(isRegistering)
      ensures requiresVerification == old(requiresVerification)
      ensures verificationCode == old(verificationCode) && verificationEmail == old(verificationEmail)
    {
      error := "Error: " + message;
      isLoading := false;
    }
  }

  /** As written, the login into an unverified account followed by the
      code: the verification request carries whatever the registration
      field holds. After a fresh page load that is nothing, and the server
      refuses the request before it ever looks at the code. */
  method VerifyAfterLoginAsWritten(s: AuthServer.Server, page: LoginForm, code: string, now: int)
    returns (loginStatus: int, account: Option<nat>, status: int, msg: string)
    requires s.Valid()
    requires !page.requiresVerification && !page.isRegistering
    requires page.form.identifier != "" && page.form.password != ""
    modifies s, page
    ensures s.Valid()
    ensures loginStatus == 403 && code != "" ==>
      account.Some? && account.value in old(s.users)
      && !old(s.users)[account.value].verified
      && page.verificationEmail == old(page.form.email)
      && (old(page.form.email) == "" ==> status == 400 && msg == "Email and code are required")
  {
    var req := page.Submit();
    var identifier, password := page.form.identifier, page.form.password;
    ghost var typed := page.form.email;
    var m, needsVerification, responseEmail, view;
    loginStatus, m, account, needsVerification, responseEmail, view := s.Login(identifier, password);
    var loggedIn := page.OnLoginResponse(loginStatus == 200, m, needsVerification, responseEmail);
    if loginStatus != 403 || code == "" {
      return loginStatus, account, loginStatus, m;
    }
    assert page.verificationEmail == typed;
    page.SetVerificationCode(code);
    var verify := page.Submit();
    status, msg := s.Verify(page.verificationEmail, page.verificationCode, now);
  }

  /** Corrected, the same sequence on the form: the verification request
      carries the account's own e-mail, so a typed code is looked up. */
  method VerifyAfterLogin(s: AuthServer.Server, page: LoginForm, code: string, now: int)
    returns (loginStatus: int, account: Option<nat>, status: int, msg: string)
    requires s.Valid()
    requires !page.requiresVerification && !page.isRegistering
    requires page.form.identifier != "" && page.form.password != ""
    modifies s, page
    ensures s.Valid()
    ensures loginStatus == 403 && code != "" ==>
      account.Some? && account.value in old(s.users)
      && AuthServer.Identifies(old(s.users)[account.value], old(page.form.identifier))
      && !old(s.users)[account.value].verified
      && page.verificationEmail == old(s.users)[account.value].email
      && (old(s.users)[account.value].email != "" ==> msg != "Email and code are required")
  {
    var req := page.Submit();
    var identifier, password := page.form.identifier, page.form.password;
    var m, needsVerification, responseEmail, view;
    loginStatus, m, account, needsVerification, responseEmail, view := s.Login(identifier, password);
    var loggedIn := page.OnLoginResponseCorrected(loginStatus == 200, m, needsVerification, responseEmail);
    if loginStatus != 403 || code == "" {
      return loginStatus, account, loginStatus, m;
    }
    ghost var email := responseEmail;
    assert page.verificationEmail == email;
    page.SetVerificationCode(code);
    var verify := page.Submit();
    status, msg := s.Verify(page.verificationEmail, page.verificationCode, now);
  }
}
