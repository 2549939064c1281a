/** The sign-in screen: a three-mode form (login, signup, password reset), the
    e-mail filter applied as the address is typed, the normalisation applied
    on submit and the mapping of the auth provider's error codes to messages. */
module AuthPage {
  import opened Account
  import opened Text

  datatype Mode = Login | Signup | Reset

  predicate IsEmailChar(c: char) {
    IsAsciiLower(c) || IsAsciiUpper(c) || IsAsciiDigit(c)
    || c == '@' || c == '.' || c == '_' || c == '+' || c == '-'
  }

  predicate IsCleanEmailChar(c: char) {
    IsAsciiLower(c) || IsAsciiDigit(c) || c == '@' || c == '.' || c == '_' || c == '+' || c == '-'
  }

  predicate IsCleanEmail(s: string) {
    forall i :: 0 <= i < |s| ==> IsCleanEmailChar(s[i])
  }

  /** `.replace(/[^a-zA-Z0-9@._+-]/g, '')` */
  function KeepEmailChars(s: string): (r: string)
    ensures forall i :: 0 <= i < |r| ==> IsEmailChar(r[i])
    ensures |r| <= |s|
  {
    if s == [] then []
    else if IsEmailChar(s[0]) then [s[0]] + KeepEmailChars(s[1..])
    else KeepEmailChars(s[1..])
  }

  /** The filter works left to right: filtering a concatenation concatenates
      the filtered parts, so the kept characters stay in their input order. */
  lemma {:induction false} KeepEmailCharsAppend(a: string, b: string)
    ensures KeepEmailChars(a + b) == KeepEmailChars(a) + KeepEmailChars(b)
  {
    if a == [] {
      assert a + b == b;
    } else {
      assert (a + b)[0] == a[0];
      assert (a + b)[1..] == a[1..] + b;
      KeepEmailCharsAppend(a[1..], b);
    }
  }

  /** A single character is kept exactly when `[a-zA-Z0-9@._+-]` matches it. */
  lemma KeepEmailCharsSingle(c: char)
    ensures KeepEmailChars([c]) == if IsEmailChar(c) then [c] else []
  {
    assert [c][1..] == [];
  }

  /** `handleEmailChange`: filter, then lower-case. Only ASCII characters are
      left after the filter, so lower-casing them is ASCII lower-casing. */
  function SanitizeEmail(val: string): (r: string)
    ensures IsCleanEmail(r)
  {
    ToLowerAscii(KeepEmailChars(val))
  }

  lemma {:induction false} KeepEmailCharsKeepsCleanEmails(s: string)
    requires IsCleanEmail(s)
    ensures KeepEmailChars(s) == s
  {
    if s != [] {
      assert IsCleanEmail(s[1..]) by {
        forall i | 0 <= i < |s[1..]| ensures IsCleanEmailChar(s[1..][i]) {
          assert s[1..][i] == s[i + 1];
        }
      }
      KeepEmailCharsKeepsCleanEmails(s[1..]);
    }
  }

  /** Sanitising is idempotent: a clean address is its own sanitised form. */
  lemma SanitizeEmailIdempotent(val: string)
    ensures SanitizeEmail(SanitizeEmail(val)) == SanitizeEmail(val)
  {
    var r := SanitizeEmail(val);
    KeepEmailCharsKeepsCleanEmails(r);
    assert ToLowerAscii(r) == r;
  }

  /** `email.trim().toLowerCase()` in `handleEmailAuth`, for the values the
      field can hold (those are ASCII: see `SubmittedEmailIsFieldValue`). */
  function NormalizeEmail(email: string): (r: string)
    ensures |r| <= |email|
    ensures r == [] <==> IsBlank(email)
  {
    TrimStartSpec(email);
    TrimEndSpec(TrimStart(email));
    TrimEmptyIffBlank(email);
    ToLowerAscii(Trim(email))
  }

  /** A clean address has no white space and no capitals, so normalising it
      changes nothing. */
  lemma CleanEmailIsNormal(s: string)
    requires IsCleanEmail(s)
    ensures NormalizeEmail(s) == s
  {
    CleanEmailIsTrimmed(s);
    CleanEmailIsLowerCase(s);
  }

  lemma CleanEmailIsTrimmed(s: string)
    requires IsCleanEmail(s)
    ensures Trim(s) == s
  {
    if s != [] {
      assert IsCleanEmailChar(s[0]) && IsCleanEmailChar(s[|s| - 1]);
    }
    UnpaddedIsTrimmed(s);
  }

  lemma CleanEmailIsLowerCase(s: string)
    requires IsCleanEmail(s)
    ensures ToLowerAscii(s) == s
  {
    var r := ToLowerAscii(s);
    forall i | 0 <= i < |s| ensures r[i] == s[i] {
      assert IsCleanEmailChar(s[i]);
    }
  }

  /** The field only ever holds sanitised text, so the address submitted is
      exactly the field's value. */
  lemma SubmittedEmailIsFieldValue(val: string)
    ensures NormalizeEmail(SanitizeEmail(val)) == SanitizeEmail(val)
  {
    CleanEmailIsNormal(SanitizeEmail(val));
  }

  /** The messages the form shows. */
  const EmailInUseMessage: string := "Email already in use. Please log in."
  const BadCredentialsMessage: string := "Invalid email or password"
  const ResetSentMessage: string := "Reset link sent! Check your inbox."

  /** An error raised by the auth provider. */
  datatype AuthError = AuthError(code: string, message: string)

  /** The message shown for an error. */
  function ErrorMessage(e: AuthError): (m: string)
    ensures e.code == "auth/email-already-in-use" ==> m == EmailInUseMessage
    ensures e.code in {"auth/wrong-password", "auth/user-not-found", "auth/invalid-credential"}
            ==> m == BadCredentialsMessage
    ensures (e.code !in {"auth/email-already-in-use", "auth/wrong-password", "auth/user-not-found",
                         "auth/invalid-credential"}) ==> m == e.message
  {
    if e.code == "auth/email-already-in-use" then EmailInUseMessage
    else if e.code == "auth/wrong-password" || e.code == "auth/user-not-found" || e.code == "auth/invalid-credential"
    then BadCredentialsMessage
    else e.message
  }

  /** The buttons that change the mode. */
  datatype ModeButton =
    | ForgotPassword  // "forgot" link, shown in login mode
    | Back            // the two back buttons, shown in reset mode
    | FooterSwitch    // the footer link, shown outside reset mode

  /** The mode a button leads to, or `None` when the button is not shown in `mode`. */
  function ButtonTarget(mode: Mode, b: ModeButton): (r: Option<Mode>)
    ensures r == Some(Reset) ==> mode == Login && b == ForgotPassword
    ensures mode == Reset && r.Some? ==> r.value == Login
    ensures b == FooterSwitch && mode == Login ==> r == Some(Signup)
    ensures b == FooterSwitch && mode == Signup ==> r == Some(Login)
  {
    match b
    case ForgotPassword => if mode == Login then Some(Reset) else None
    case Back => if mode == Reset then Some(Login) else None
    case FooterSwitch =>
      if mode == Reset then None else Some(if mode == Login then Signup else Login)
  }

  /** The footer link flips between login and signup, so two presses come back
      to where they started; reset is reached only through the "forgot" link
      in login mode, and every way out of reset leads to login. */
  lemma FooterSwitchIsInvolution(mode: Mode)
    requires mode != Reset
    ensures var m := ButtonTarget(mode, FooterSwitch);
      m.Some? && m.value != Reset && ButtonTarget(m.value, FooterSwitch) == Some(mode)
  {
  }

  lemma ResetReachedOnlyByForgot(mode: Mode, b: ModeButton)
    ensures ButtonTarget(mode, b) == Some(Reset) <==> mode == Login && b == ForgotPassword
    ensures mode == Reset ==> (ButtonTarget(mode, b).Some? <==> b == Back)
  {
  }

  /** The call `handleEmailAuth` makes for the current mode. */
  datatype AuthRequest = SignIn(email: string) | CreateUser(email: string) | SendResetEmail(email: string)

  function RequestFor(mode: Mode, email: string): (r: AuthRequest)
    ensures r.email == NormalizeEmail(email)
    ensures r.SignIn? <==> mode == Login
    ensures r.CreateUser? <==> mode == Signup
    ensures r.SendResetEmail? <==> mode == Reset
  {
    match mode
    case Login => SignIn(NormalizeEmail(email))
    case Signup => CreateUser(NormalizeEmail(email))
    case Reset => SendResetEmail(NormalizeEmail(email))
  }

  /** For a clean address the request carries the address unchanged. */
  lemma RequestCarriesFieldValue(mode: Mode, email: string)
    requires IsCleanEmail(email)
    ensures RequestFor(mode, email).email == email
  {
    CleanEmailIsNormal(email);
  }

  /** The form's state (the password field is not modelled). */
  class AuthForm {
    var mode: Mode
    var email: string
    var showPassword: bool
    var error: string
    var success: string
    var loading: bool

    /** The e-mail field only ever holds what `handleEmailChange` stored. */
    predicate Valid()
      reads this
    {
      IsCleanEmail(email)
    }

    constructor ()
      ensures Valid()
      ensures mode == Login && email == "" && !showPassword && error == "" && success == "" && !loading
    {
      mode, email, showPassword, error, success, loading := Login, "", false, "", "", false;
    }

    /** `toggleMode(newMode)`: switch mode and clear the messages and the password toggle. */
    method ToggleMode(newMode: Mode)
      requires Valid()
      modifies this
      ensures Valid()
      ensures mode == newMode && error == "" && success == "" && !showPassword
      ensures email == old(email) && loading == old(loading)
    {
      mode := newMode;
      error := "";
      success := "";
      showPassword := false;
    }

    /** A press of a mode button; a button that is not shown does nothing. */
    method Press(b: ModeButton)
      requires Valid()
      modifies this
      ensures Valid()
      ensures ButtonTarget(old(mode), b).Some? ==>
        mode == ButtonTarget(old(mode), b).value && error == "" && success == "" && !showPassword
      ensures ButtonTarget(old(mode), b).None? ==>
        mode == old(mode) && error == old(error) && success == old(success) && showPassword == old(showPassword)
      ensures email == old(email) && loading == old(loading)
    {
      var target := ButtonTarget(mode, b);
      if target.Some? {
        ToggleMode(target.value);
      }
    }

    /** The password visibility toggle. */
    method TogglePassword()
      requires Valid()
      modifies this
      ensures Valid()
      ensures showPassword == !old(showPassword)
      ensures mode == old(mode) && email == old(email) && error == old(error) && success == old(success)
      ensures loading == old(loading)
    {
      showPassword := !showPassword;
    }

    /** `handleEmailChange` */
    method EmailChange(val: string)
      modifies this
      ensures Valid()
      ensures email == SanitizeEmail(val)
      ensures mode == old(mode) && showPassword == old(showPassword)
      ensures error == old(error) && success == old(success) && loading == old(loading)
    {
      email := SanitizeEmail(val);
    }

    /** `handleEmailAuth`: makes the request for the current mode with the
        normalised address (which, for a valid form, is the field's value: see
        `RequestCarriesFieldValue`); `failure` is the provider's error, if it
        raises one. A successful login or signup leaves the spinner on: the app
        replaces the screen once the session changes. */
    method Submit(failure: Option<AuthError>) returns (request: AuthRequest)
      requires Valid()
      modifies this
      ensures Valid()
      ensures request == RequestFor(mode, email)
      ensures request.email == email
      ensures mode == old(mode) && email == old(email) && showPassword == old(showPassword)
      ensures failure.Some? ==> error == ErrorMessage(failure.value) && success == "" && !loading
      ensures failure.None? ==> error == ""
      ensures failure.None? && mode == Reset ==> success == ResetSentMessage && !loading
      ensures failure.None? && mode != Reset ==> success == "" && loading
    {
      request := RequestFor(mode, email);
      RequestCarriesFieldValue(mode, email);
      Settle(failure);
    }

    /** The messages and the spinner once the request has been answered. */
    method Settle(failure: Option<AuthError>)
      modifies this
      ensures mode == old(mode) && email == old(email) && showPassword == old(showPassword)
      ensures failure.Some? ==> error == ErrorMessage(failure.value) && success == "" && !loading
      ensures failure.None? ==> error == ""
      ensures failure.None? && mode == Reset ==> success == ResetSentMessage && !loading
      ensures failure.None? && mode != Reset ==> success == "" && loading
    {
      loading, error, success := true, "", "";
      if failure.Some? {
        error := ErrorMessage(failure.value);
        loading := false;
      } else if mode == Reset {
        success := ResetSentMessage;
        loading := false;
      }
    }
  }
}
