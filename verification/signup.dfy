/**
 The sign-up form: the order of its input checks, the messages an
 authentication failure is reported with, and the two loading flags that
 disable both buttons while either sign-in path is in flight.

 The authentication provider is not modelled: a call's outcome is a
 parameter, either success or a failure with an optional error code.
 */
module Signup {
  import opened Types

  const FillInMessage: string := "Please fill in all fields"
  const MismatchMessage: string := "Passwords do not match"
  const TooShortMessage: string := "Password must be at least 6 characters"
  const MinPasswordLength: nat := 6

  /**
   JavaScript `length`: the number of UTF-16 code units, two for every
   character outside the Basic Multilingual Plane.
   */
  function Utf16Length(s: string): (n: nat)
    ensures |s| <= n <= 2 * |s|
  {
    if s == [] then 0
    else (if s[0] as int > 0xFFFF then 2 else 1) + Utf16Length(s[1..])
  }

  /**
   The checks `handleSubmit` makes before calling the provider, in order:
   every field filled in, then both passwords equal, then the password at
   least six code units long. `None` means the sign-up goes ahead.
   */
  function Validate(email: string, password: string, confirm: string): (error: Option<string>)
    ensures error.None? <==> email != "" && password != "" && confirm != "" && password == confirm && Utf16Length(password) >= MinPasswordLength
    ensures error == Some(FillInMessage) <==> email == "" || password == "" || confirm == ""
    ensures error == Some(MismatchMessage) ==> password != confirm
    ensures error == Some(TooShortMessage) ==> password == confirm && |password| < MinPasswordLength
    ensures error.Some? ==> error.value in {FillInMessage, MismatchMessage, TooShortMessage}
  {
    if email == "" || password == "" || confirm == "" then Some(FillInMessage)
    else if password != confirm then Some(MismatchMessage)
    else if Utf16Length(password) < MinPasswordLength then Some(TooShortMessage)
    else None
  }

  /** Six characters always satisfy the length check, whatever they are. */
  lemma SixCharactersSuffice(email: string, password: string)
    requires email != "" && |password| >= MinPasswordLength
    ensures Validate(email, password, password).None?
  {
  }

  /** What an authentication call came back with. */
  datatype AuthOutcome = Success | AuthError(code: Option<string>)

  /** The toast a sign-up failure shows, by error code. */
  function SignupErrorMessage(code: Option<string>): (msg: string)
    ensures msg != ""
    ensures code == Some("auth/email-already-in-use") ==> msg == "Email already in use"
    ensures code == Some("auth/invalid-email") ==> msg == "Invalid email address"
    ensures code == Some("auth/weak-password") ==> msg == "Password is too weak"
    ensures msg == "Failed to create account. Please try again." <==>
      code !in {Some("auth/email-already-in-use"), Some("auth/invalid-email"), Some("auth/weak-password")}
  {
    if code == Some("auth/email-already-in-use") then "Email already in use"
    else if code == Some("auth/invalid-email") then "Invalid email address"
    else if code == Some("auth/weak-password") then "Password is too weak"
    else "Failed to create account. Please try again."
  }

  /** The toast a Google sign-in failure shows: closing the popup is a cancellation, anything else a failure. */
  function GoogleErrorMessage(code: Option<string>): (msg: string)
    ensures msg == "Sign-in cancelled" <==> code == Some("auth/popup-closed-by-user")
    ensures msg != "Sign-in cancelled" ==> msg == "Failed to sign in with Google"
  {
    if code == Some("auth/popup-closed-by-user") then "Sign-in cancelled" else "Failed to sign in with Google"
  }

  /** The two in-flight flags of the form. */
  datatype FormState = FormState(loading: bool, googleLoading: bool)

  const Idle: FormState := FormState(false, false)

  /** Both buttons are disabled while either flag is set. */
  predicate ButtonsDisabled(f: FormState) {
    f.loading || f.googleLoading
  }

  /** The user-visible result of a step: a toast, and whether the page navigates home. */
  datatype Toast = NoToast | SuccessToast(message: string) | ErrorToast(message: string)

  datatype Step = Step(state: FormState, call: bool, toast: Toast, navigates: bool)

  /**
   The browser's own constraint validation, which runs before the submit
   handler: all three inputs are `required`, and the email input has type
   `email`. Whether a non-empty address is well formed is the browser's
   verdict, given as `emailWellFormed`.
   */
  predicate BrowserAccepts(email: string, password: string, confirm: string, emailWellFormed: bool) {
    email != "" && password != "" && confirm != "" && emailWellFormed
  }

  /**
   A click on "Create Account" (or submitting the form with it): ignored
   while the button is disabled; blocked by the browser, with no toast and
   no call, when a field is empty or the address is malformed; otherwise a
   failed check shows its message and calls nothing, and a passed one starts
   the sign-up call and sets `loading`. The browser stops every empty form
   first, so the fill-in toast never shows.
   */
  function BeginSignup(f: FormState, email: string, password: string, confirm: string, emailWellFormed: bool): (r: Step)
    ensures r.call <==> !ButtonsDisabled(f) && BrowserAccepts(email, password, confirm, emailWellFormed) && Validate(email, password, confirm).None?
    ensures r.call ==> r.state == f.(loading := true)
    ensures !r.call ==> r.state == f && !r.navigates
    ensures !BrowserAccepts(email, password, confirm, emailWellFormed) ==> r.toast == NoToast
    ensures !ButtonsDisabled(f) && BrowserAccepts(email, password, confirm, emailWellFormed) && Validate(email, password, confirm).Some? ==>
      r.toast == ErrorToast(Validate(email, password, confirm).value)
    ensures r.toast != ErrorToast(FillInMessage)
  {
    if ButtonsDisabled(f) || !BrowserAccepts(email, password, confirm, emailWellFormed) then Step(f, false, NoToast, false)
    else match Validate(email, password, confirm)
      case Some(msg) => Step(f, false, ErrorToast(msg), false)
      case None => Step(f.(loading := true), true, NoToast, false)
  }

  /**
   A form with an empty field or an address the browser rejects never
   reaches the submit handler: nothing is called, no toast shows, and the
   flags stay as they were.
   */
  lemma BrowserBlocksInvalidForm(f: FormState, email: string, password: string, confirm: string, emailWellFormed: bool)
    requires email == "" || password == "" || confirm == "" || !emailWellFormed
    ensures BeginSignup(f, email, password, confirm, emailWellFormed) == Step(f, false, NoToast, false)
  {
  }

  /** The sign-up call returns: success navigates home, failure shows its message; `loading` is cleared either way. */
  function FinishSignup(f: FormState, outcome: AuthOutcome): (r: Step)
    ensures !r.state.loading && r.state.googleLoading == f.googleLoading && !r.call
    ensures r.navigates <==> outcome.Success?
    ensures outcome.AuthError? ==> r.toast == ErrorToast(SignupErrorMessage(outcome.code))
    ensures outcome.Success? ==> r.toast == SuccessToast("Account created successfully!")
  {
    match outcome
    case Success => Step(f.(loading := false), false, SuccessToast("Account created successfully!"), true)
    case AuthError(code) => Step(f.(loading := false), false, ErrorToast(SignupErrorMessage(code)), false)
  }

  /** A click on "Continue with Google": ignored while disabled, otherwise the popup call starts. */
  function BeginGoogle(f: FormState): (r: Step)
    ensures r.call <==> !ButtonsDisabled(f)
    ensures r.call ==> r.state == f.(googleLoading := true)
    ensures !r.call ==> r.state == f
  {
    if ButtonsDisabled(f) then Step(f, false, NoToast, false)
    else Step(f.(googleLoading := true), true, NoToast, false)
  }

  /**
   The success toast of the Google path, character for character as the
   page writes it: the UTF-8 bytes of a party-popper emoji read back as
   Windows-1252 text.
   */
  const GoogleWelcome: string := "Welcome! \U{00F0}\U{0178}\U{017D}\U{2030}"

  /** The popup call returns: success navigates home, failure shows its message; `googleLoading` is cleared either way. */
  function FinishGoogle(f: FormState, outcome: AuthOutcome): (r: Step)
    ensures !r.state.googleLoading && r.state.loading == f.loading && !r.call
    ensures r.navigates <==> outcome.Success?
    ensures outcome.AuthError? ==> r.toast == ErrorToast(GoogleErrorMessage(outcome.code))
    ensures outcome.Success? ==> r.toast == SuccessToast(GoogleWelcome)
  {
    match outcome
    case Success => Step(f.(googleLoading := false), false, SuccessToast(GoogleWelcome), true)
    case AuthError(code) => Step(f.(googleLoading := false), false, ErrorToast(GoogleErrorMessage(code)), false)
  }

  /** The events of the form. */
  datatype Event =
    | ClickSignup(email: string, password: string, confirm: string, emailWellFormed: bool)
    | SignupReturned(outcome: AuthOutcome)
    | ClickGoogle
    | GoogleReturned(outcome: AuthOutcome)

  function Apply(f: FormState, ev: Event): Step {
    match ev
    case ClickSignup(e, p, c, w) => BeginSignup(f, e, p, c, w)
    case SignupReturned(o) => FinishSignup(f, o)
    case ClickGoogle => BeginGoogle(f)
    case GoogleReturned(o) => FinishGoogle(f, o)
  }

  /** The final state of a run of events and how many provider calls it started. */
  function CallsStarted(f: FormState, evs: seq<Event>): (r: (FormState, nat))
    decreases |evs|
  {
    if evs == [] then (f, 0)
    else
      var step := Apply(f, evs[0]);
      var rest := CallsStarted(step.state, evs[1..]);
      (rest.0, rest.1 + if step.call then 1 else 0)
  }

  /**
   The two sign-in paths never run at the same time: from a form where they
   are not both in flight, no run of events sets both flags.
   */
  lemma {:induction false} NeverBothInFlight(f: FormState, evs: seq<Event>)
    requires !(f.loading && f.googleLoading)
    ensures !(CallsStarted(f, evs).0.loading && CallsStarted(f, evs).0.googleLoading)
    decreases |evs|
  {
    if evs != [] {
      NeverBothInFlight(Apply(f, evs[0]).state, evs[1..]);
    }
  }

  /**
   While a call is in flight, clicks start nothing: a run of clicks with no
   return in it starts no provider call and leaves the flags as they were.
   */
  lemma {:induction false} ClicksWhileBusyStartNothing(f: FormState, evs: seq<Event>)
    requires ButtonsDisabled(f)
    requires forall i :: 0 <= i < |evs| ==> evs[i].ClickSignup? || evs[i].ClickGoogle?
    ensures CallsStarted(f, evs) == (f, 0)
    decreases |evs|
  {
    if evs != [] {
      ClicksWhileBusyStartNothing(f, evs[1..]);
    }
  }
}
