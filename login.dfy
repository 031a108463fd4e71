/**
 * The login page (client/src/pages/Login.jsx): the form validator, the mock credential
 * check that stores a token, and the Google login that always succeeds. Each handler is
 * split at its `await` into the part before the simulated delay and the part after it.
 */
module Login {
  import opened Wrappers
  import opened Text
  import opened Browser
  import App

  const EmailRequired := "Email is required"
  const EmailInvalid := "Please enter a valid email address"
  const PasswordRequired := "Password is required"
  const PasswordTooShort := "Password must be at least 6 characters"
  const SubmitFailed := "Invalid email or password. Please try again."

  const AdminEmail := "admin@flawfinder.ai"
  const AdminPassword := "password123"
  const AdminToken := "12345"
  const GoogleToken := "google12345"

  /** `s[lo..hi]` is a non-empty run of characters matched by `\S`. */
  ghost predicate NonSpaceRun(s: string, lo: int, hi: int) {
    0 <= lo < hi <= |s| && forall k :: lo <= k < hi ==> !IsJsWhitespace(s[k])
  }

  /** `s[a..e]` matches `\S+@\S+\.\S+`, with the `@` at `at` and the `.` at `dot`. */
  ghost predicate MatchAt(s: string, a: int, at: int, dot: int, e: int) {
    NonSpaceRun(s, a, at) && at < |s| && s[at] == '@'
    && NonSpaceRun(s, at + 1, dot) && dot < |s| && s[dot] == '.'
    && NonSpaceRun(s, dot + 1, e)
  }

  /** `/\S+@\S+\.\S+/.test(s)`: the pattern is unanchored, so some substring of `s` matches it. */
  ghost predicate MatchesEmailRegex(s: string) {
    exists a, at, dot, e :: MatchAt(s, a, at, dot, e)
  }

  /** A `.` at `dot` after the `@` at `at`, with only non-spaces between them (at least one) and a non-space after it. */
  predicate DotAfter(s: string, at: int, dot: int) {
    0 <= at && at + 1 < dot < |s| - 1 && s[dot] == '.' && !IsJsWhitespace(s[dot + 1])
    && forall k | at < k < dot :: !IsJsWhitespace(s[k])
  }

  /** An `@` at `at` with a non-space before it and a suitable `.` somewhere after it. */
  predicate AtSignAt(s: string, at: int) {
    0 < at < |s| && s[at] == '@' && !IsJsWhitespace(s[at - 1])
    && exists dot | at + 1 < dot < |s| - 1 :: DotAfter(s, at, dot)
  }

  /** The pattern test decided directly, by looking for a suitable `@`. */
  predicate LooksLikeEmail(s: string) {
    exists at | 0 < at < |s| :: AtSignAt(s, at)
  }

  lemma LooksLikeEmailIsRegex(s: string)
    ensures LooksLikeEmail(s) <==> MatchesEmailRegex(s)
  {
    if LooksLikeEmail(s) {
      var at :| 0 < at < |s| && AtSignAt(s, at);
      var dot :| at + 1 < dot < |s| - 1 && DotAfter(s, at, dot);
      assert MatchAt(s, at - 1, at, dot, dot + 2);
    }
    if MatchesEmailRegex(s) {
      var a, at, dot, e :| MatchAt(s, a, at, dot, e);
      assert DotAfter(s, at, dot);
      assert AtSignAt(s, at);
    }
  }

  /** JavaScript's `s.length`: UTF-16 code units, two for a character beyond the Basic Multilingual Plane. */
  function Utf16Length(s: string): (n: nat)
    ensures |s| <= n <= 2 * |s|
  {
    if s == [] then 0 else (if s[0] as int > 0xFFFF then 2 else 1) + Utf16Length(s[1..])
  }

  /** The error record `validateForm` builds for the two fields. */
  function FormErrors(email: string, password: string): map<string, string> {
    var emailErrors :=
      if email == "" then map["email" := EmailRequired]
      else if !LooksLikeEmail(email) then map["email" := EmailInvalid]
      else map[];
    var passwordErrors :=
      if password == "" then map["password" := PasswordRequired]
      else if Utf16Length(password) < 6 then map["password" := PasswordTooShort]
      else map[];
    emailErrors + passwordErrors
  }

  /**
   * What `validateForm` records: at most one error per field, each field judged on its own,
   * the email against the regular expression and the password by its JavaScript length.
   */
  lemma FormErrorsMeaning(email: string, password: string)
    ensures FormErrors(email, password).Keys <= {"email", "password"}
    ensures "email" in FormErrors(email, password) <==> email == "" || !MatchesEmailRegex(email)
    ensures "email" in FormErrors(email, password) ==>
      FormErrors(email, password)["email"] == (if email == "" then EmailRequired else EmailInvalid)
    ensures "password" in FormErrors(email, password) <==> Utf16Length(password) < 6
    ensures "password" in FormErrors(email, password) ==>
      FormErrors(email, password)["password"] == (if password == "" then PasswordRequired else PasswordTooShort)
  {
    LooksLikeEmailIsRegex(email);
  }

  /** The form passes exactly when the email matches the pattern and the password has six code units. */
  lemma FormValidIff(email: string, password: string)
    ensures FormErrors(email, password) == map[] <==> MatchesEmailRegex(email) && Utf16Length(password) >= 6
  {
    var errs := FormErrors(email, password);
    FormErrorsMeaning(email, password);
    if MatchesEmailRegex(email) && Utf16Length(password) >= 6 {
      assert email != "" by {
        var a, at, dot, e :| MatchAt(email, a, at, dot, e);
      }
      assert errs.Keys == {};
    } else {
      assert "email" in errs || "password" in errs;
    }
  }

  /** Only the one hard-coded pair is accepted. */
  predicate CredentialsAccepted(email: string, password: string) {
    email == AdminEmail && password == AdminPassword
  }

  class LoginForm {
    var email: string
    var password: string
    var isLoading: bool
    var errors: map<string, string>

    constructor ()
      ensures email == "" && password == "" && !isLoading && errors == map[]
    {
      email, password, isLoading, errors := "", "", false, map[];
    }

    method SetEmail(value: string)
      modifies this
      ensures email == value && password == old(password)
      ensures isLoading == old(isLoading) && errors == old(errors)
    {
      email := value;
    }

    method SetPassword(value: string)
      modifies this
      ensures password == value && email == old(email)
      ensures isLoading == old(isLoading) && errors == old(errors)
    {
      password := value;
    }

    /** The submit and social-login buttons are disabled while an attempt is in flight. */
    predicate ButtonsDisabled()
      reads this
    {
      isLoading
    }

    /** `validateForm`: fills a fresh error record field by field, stores it, and reports whether it is empty. */
    method ValidateForm() returns (valid: bool)
      modifies this
      ensures errors == FormErrors(email, password)
      ensures valid <==> errors == map[]
      ensures email == old(email) && password == old(password) && isLoading == old(isLoading)
    {
      var newErrors: map<string, string> := map[];
      if email == "" {
        newErrors := newErrors["email" := EmailRequired];
      } else if !LooksLikeEmail(email) {
        newErrors := newErrors["email" := EmailInvalid];
      }
      if password == "" {
        newErrors := newErrors["password" := PasswordRequired];
      } else if Utf16Length(password) < 6 {
        newErrors := newErrors["password" := PasswordTooShort];
      }
      errors := newErrors;
      valid := newErrors == map[];
    }

    /**
     * `handleSubmit` up to its simulated delay: an invalid form stops here with its errors
     * shown; a valid one starts loading with the errors cleared.
     */
    method BeginSubmit() returns (proceed: bool)
      modifies this
      ensures proceed <==> FormErrors(email, password) == map[]
      ensures !proceed ==> errors == FormErrors(email, password) && isLoading == old(isLoading)
      ensures proceed ==> isLoading && errors == map[]
      ensures email == old(email) && password == old(password)
    {
      var valid := ValidateForm();
      if !valid {
        return false;
      }
      isLoading := true;
      errors := map[];
      proceed := true;
    }

    /**
     * `handleSubmit` after the delay: the accepted pair stores the token, sets the session and
     * goes to `/dashboard`; any other pair only shows the failure. Loading ends either way.
     */
    method FinishSubmit(app: App.AppState, browser: BrowserContext)
      modifies this, app, browser
      ensures !isLoading && email == old(email) && password == old(password)
      ensures app.loading == old(app.loading)
      ensures CredentialsAccepted(email, password) ==>
        && browser.authToken == Some(AdminToken) && app.isAuthenticated
        && browser.pathname == "/dashboard" && errors == old(errors)
        && browser.effects == old(browser.effects)
             + [StoreToken(AdminToken), Toast(true, "Welcome to FlawFinder AI!"), NavigateTo("/dashboard")]
      ensures !CredentialsAccepted(email, password) ==>
        && browser.authToken == old(browser.authToken) && app.isAuthenticated == old(app.isAuthenticated)
        && browser.pathname == old(browser.pathname) && errors == map["submit" := SubmitFailed]
        && browser.effects == old(browser.effects) + [Toast(false, "Invalid email or password")]
    {
      if CredentialsAccepted(email, password) {
        browser.SetToken(AdminToken);
        app.SetIsAuthenticated(true);
        browser.ShowToast(true, "Welcome to FlawFinder AI!");
        browser.Navigate("/dashboard");
      } else {
        browser.ShowToast(false, "Invalid email or password");
        errors := map["submit" := SubmitFailed];
      }
      isLoading := false;
    }

    /** `handleGoogleLogin` up to its simulated delay. */
    method BeginGoogleLogin()
      modifies this
      ensures isLoading && email == old(email) && password == old(password) && errors == old(errors)
    {
      isLoading := true;
    }

    /** `handleGoogleLogin` after the delay: unconditionally stores the Google token and signs in. */
    method FinishGoogleLogin(app: App.AppState, browser: BrowserContext)
      modifies this, app, browser
      ensures !isLoading && email == old(email) && password == old(password) && errors == old(errors)
      ensures app.isAuthenticated && app.loading == old(app.loading)
      ensures browser.authToken == Some(GoogleToken) && browser.pathname == "/dashboard"
      ensures browser.effects == old(browser.effects)
        + [StoreToken(GoogleToken), Toast(true, "Logged in with Google"), NavigateTo("/dashboard")]
    {
      browser.SetToken(GoogleToken);
      app.SetIsAuthenticated(true);
      browser.ShowToast(true, "Logged in with Google");
      browser.Navigate("/dashboard");
      isLoading := false;
    }
  }
}
