// The sign-in page: the e-mail shape check, the sign-up password rules, the order in which
// a submission is checked, and the form state it leaves behind.

module LoginPage {
  import opened JsCommon
  import opened JsText

  // ------------------------------------------------------------ the e-mail shape

  /**
   * One way of reading `s` against `/^[^\s@]+@[^\s@]+\.[^\s@]+$/`: the `@` at `at`, the
   * dot at `dot`, at least one character in each of the three runs, no white space, and no
   * other `@` anywhere.
   */
  predicate EmailSplit(s: string, at: nat, dot: nat)
  {
    0 < at && at + 1 < dot && dot + 1 < |s| && s[dot] == '.' &&
    forall k :: 0 <= k < |s| ==> !IsSpace(s[k]) && (s[k] == '@' <==> k == at)
  }

  /** The regular expression accepts `s`: some reading of it fits. */
  predicate MatchesEmailPattern(s: string)
  {
    exists at: nat, dot: nat | at < dot < |s| :: EmailSplit(s, at, dot)
  }

  /**
   * `validateEmail`, computed: no white space, the only `@` is not the first character, and
   * the part after it has a dot that is neither its first nor its last character.
   */
  predicate ValidEmail(s: string)
  {
    (forall k :: 0 <= k < |s| ==> !IsSpace(s[k])) &&
    match LastIndex(s, '@')
    case None => false
    case Some(at) => at > 0 && '@' !in s[..at] && at + 2 <= |s| - 1 && '.' in s[at + 2..|s| - 1]
  }

  /** The computed check accepts exactly the strings the regular expression matches. */
  lemma ValidEmailIsPattern(s: string)
    ensures ValidEmail(s) <==> MatchesEmailPattern(s)
  {
    if ValidEmail(s) {
      var at := LastIndex(s, '@').value;
      var j :| 0 <= j < |s[at + 2..|s| - 1]| && s[at + 2..|s| - 1][j] == '.';
      var dot := at + 2 + j;
      forall k | 0 <= k < |s|
        ensures s[k] == '@' <==> k == at
      {
        if k < at {
          assert s[k] == s[..at][k];
        } else if k > at {
          assert s[k] == s[at + 1..][k - at - 1];
        }
      }
      assert EmailSplit(s, at, dot);
    }
    if MatchesEmailPattern(s) {
      var at: nat, dot: nat :| at < dot < |s| && EmailSplit(s, at, dot);
      var last := LastIndex(s, '@');
      assert last == Some(at) by {
        assert s[at] == '@';
        assert last.Some? && s[last.value] == '@';
      }
      assert '@' !in s[..at] by {
        forall k | 0 <= k < at
          ensures s[..at][k] != '@'
        {
          assert s[..at][k] == s[k];
        }
      }
      assert s[at + 2..|s| - 1][dot - at - 2] == '.';
    }
  }

  // ------------------------------------------------------------ the password rules

  datatype PasswordIssue = TooShort | NoUppercase | NoLowercase | NoDigit

  predicate HasUpper(p: string)
  {
    exists k | 0 <= k < |p| :: IsUpper(p[k])
  }

  predicate HasLower(p: string)
  {
    exists k | 0 <= k < |p| :: IsLower(p[k])
  }

  predicate HasDigit(p: string)
  {
    exists k | 0 <= k < |p| :: IsDigit(p[k])
  }

  /** `validatePassword`: the first rule broken, checked in the order length, upper case, lower case, digit. */
  function PasswordIssueOf(p: string): (r: Option<PasswordIssue>)
    ensures r.None? <==> |p| >= 6 && HasUpper(p) && HasLower(p) && HasDigit(p)
    ensures r == Some(TooShort) <==> |p| < 6
    ensures r == Some(NoUppercase) <==> |p| >= 6 && !HasUpper(p)
    ensures r == Some(NoLowercase) <==> |p| >= 6 && HasUpper(p) && !HasLower(p)
    ensures r == Some(NoDigit) <==> |p| >= 6 && HasUpper(p) && HasLower(p) && !HasDigit(p)
  {
    if |p| < 6 then Some(TooShort)
    else if !HasUpper(p) then Some(NoUppercase)
    else if !HasLower(p) then Some(NoLowercase)
    else if !HasDigit(p) then Some(NoDigit)
    else None
  }

  // ------------------------------------------------------------ submitting the form

  /** What the form shows in its error line. */
  datatype FormError = MissingFields | InvalidEmail | EmailRequired | WeakPassword(issue: PasswordIssue) |
                       Failed(message: string)

  function Text(e: FormError): string
  {
    match e
    case MissingFields => "Please fill in all fields"
    case InvalidEmail => "Please enter a valid email address"
    case EmailRequired => "Please enter your email address"
    case WeakPassword(TooShort) => "Password must be at least 6 characters long"
    case WeakPassword(NoUppercase) => "Password must contain at least one uppercase letter"
    case WeakPassword(NoLowercase) => "Password must contain at least one lowercase letter"
    case WeakPassword(NoDigit) => "Password must contain at least one number"
    case Failed(message) => message
  }

  /**
   * The checks `handleSubmit` makes before calling the auth service, in order: both fields
   * filled, the e-mail shape, and, when signing up only, the password rules.
   */
  function SubmitCheck(email: string, password: string, isSignUp: bool): (r: Option<FormError>)
    ensures r == Some(MissingFields) <==> email == "" || password == ""
    ensures r == Some(InvalidEmail) <==> email != "" && password != "" && !ValidEmail(email)
    ensures r.None? <==> email != "" && password != "" && ValidEmail(email) &&
                         (isSignUp ==> PasswordIssueOf(password).None?)
    ensures r.Some? && r.value.WeakPassword? ==> isSignUp && Some(r.value.issue) == PasswordIssueOf(password)
  {
    if email == "" || password == "" then Some(MissingFields)
    else if !ValidEmail(email) then Some(InvalidEmail)
    else if isSignUp && PasswordIssueOf(password).Some? then Some(WeakPassword(PasswordIssueOf(password).value))
    else None
  }

  /** Signing in never applies the password rules: a short password reaches the auth service. */
  lemma SignInSkipsPasswordRules(email: string, password: string)
    requires ValidEmail(email) && password != ""
    ensures SubmitCheck(email, password, false).None?
  {
  }

  /** The outcome of a call to the auth service: success, a thrown `Error`, or some other thrown value. */
  datatype AuthOutcome = AuthOk | AuthError(message: string) | AuthThrewValue

  /** The message shown for a failed call: the error's message, or the fallback for any other value. */
  function FailureMessage(outcome: AuthOutcome, fallback: string): string
  {
    if outcome.AuthError? then outcome.message else fallback
  }

  /** The page's form state. */
  class LoginForm {
    var isSignUp: bool
    var email: string
    var password: string
    var error: Option<FormError>
    var loading: bool

    constructor ()
      ensures !isSignUp && email == "" && password == "" && error.None? && !loading
    {
      isSignUp := false;
      email := "";
      password := "";
      error := None;
      loading := false;
    }

    /**
     * `handleSubmit`: a failed check shows its error and calls nothing; otherwise the auth
     * service is called (`called`), a successful sign-up returns to sign-in mode with both
     * fields cleared, and a failure shows its message.
     */
    method Submit(auth: AuthOutcome) returns (called: bool)
      modifies this
      ensures called <==> SubmitCheck(old(email), old(password), old(isSignUp)).None?
      ensures !called ==> error == SubmitCheck(old(email), old(password), old(isSignUp)) &&
                          isSignUp == old(isSignUp) && email == old(email) && password == old(password) &&
                          loading == old(loading)
      ensures called && auth.AuthOk? && old(isSignUp) ==> !isSignUp && email == "" && password == "" && error.None?
      ensures called && auth.AuthOk? && !old(isSignUp) ==>
                isSignUp == old(isSignUp) && email == old(email) && password == old(password) && error.None?
      ensures called && !auth.AuthOk? ==>
                error == Some(Failed(FailureMessage(auth, "An error occurred"))) &&
                isSignUp == old(isSignUp) && email == old(email) && password == old(password)
      ensures called ==> !loading
    {
      error := None;
      var check := SubmitCheck(email, password, isSignUp);
      if check.Some? {
        error := check;
        return false;
      }
      called := true;
      loading := true;
      if auth.AuthOk? {
        if isSignUp {
          isSignUp := false;
          email := "";
          password := "";
        }
      } else {
        error := Some(Failed(FailureMessage(auth, "An error occurred")));
      }
      loading := false;
    }

    /** `handlePasswordReset`: needs an e-mail address of the right shape; a failure shows its message. */
    method PasswordReset(auth: AuthOutcome) returns (called: bool)
      modifies this
      ensures called <==> old(email) != "" && ValidEmail(old(email))
      ensures old(email) == "" ==> error == Some(EmailRequired)
      ensures old(email) != "" && !ValidEmail(old(email)) ==> error == Some(InvalidEmail)
      ensures called && auth.AuthOk? ==> error.None?
      ensures called && !auth.AuthOk? ==> error == Some(Failed(FailureMessage(auth, "Failed to send reset email")))
      ensures isSignUp == old(isSignUp) && email == old(email) && password == old(password)
      ensures called ==> !loading
      ensures !called ==> loading == old(loading)
    {
      if email == "" {
        error := Some(EmailRequired);
        return false;
      }
      if !ValidEmail(email) {
        error := Some(InvalidEmail);
        return false;
      }
      called := true;
      loading := true;
      if auth.AuthOk? {
        error := None;
      } else {
        error := Some(Failed(FailureMessage(auth, "Failed to send reset email")));
      }
      loading := false;
    }

    /** `toggleSignUp`: switch mode, clear the error and the password, keep the e-mail address. */
    method ToggleSignUp()
      modifies this
      ensures isSignUp == !old(isSignUp) && error.None? && password == ""
      ensures email == old(email) && loading == old(loading)
    {
      isSignUp := !isSignUp;
      error := None;
      password := "";
    }
  }

  /** Toggling twice returns to the starting mode with the password cleared. */
  method ToggleTwice(form: LoginForm)
    modifies form
    ensures form.isSignUp == old(form.isSignUp) && form.password == "" && form.email == old(form.email)
  {
    form.ToggleSignUp();
    form.ToggleSignUp();
  }
}
