/**
 * The login page's authentication flow (src/app/login/page.js) as a state
 * machine: the page's state variables are fields, and each handler is split at
 * its `await fetch` into a `Submit…` method (the synchronous part, which returns
 * the request it sends, if any) and a `…Replied` method (the rest of the `try`,
 * the `catch` and the `finally`, given the reply). The one-second countdown
 * intervals and the one-shot timeouts are events of their own.
 */
module LoginPage {
  import opened Wrappers
  import opened Text
  import opened Http
  import opened Validation
  import opened ErrorMapping
  import opened Cooldown
  import opened Session

  /** The requests the page sends, with the fields of their JSON bodies. */
  datatype Request =
    | SignupRequest(name: string, email: string, password: string, retypePassword: string)
    | VerifySignupRequest(email: string, otp: string, signupToken: string)
    | LoginRequest(email: string, password: string, deviceFingerprint: string)
    | ResendVerificationRequest(email: string)
    | ForgotPasswordRequest(email: string)
    | ResetPasswordRequest(email: string, otp: string, newPassword: string, retypePassword: string)
    | VerifyTokenRequest(token: string)

  /** The callbacks handed to `setTimeout` that have not run yet. */
  datatype Timeout =
    | OpenDashboard      // router.push('/dashboard') after a login or signup with a token
    | BackToLogin        // return to the login form after a signup without a token
    | ClearLoginMessage  // hide the reset-success banner

  const InvalidCodeMessage := "Please enter a valid 6-digit code"
  const PasswordResetMessage := "Password reset successful! You can now log in with your new password."  // the banner after a password reset
  const CodeResentMessage := "Verification code resent! Please check your email."  // a signup code sent again
  const VerificationSentMessage := "Verification email sent! Please check your inbox."  // a verification e-mail sent again
  const AccountRedirectMessage := "Account created successfully! Redirecting..."  // a verified signup that came with a token
  const SignupFailedMessage := "Failed to initiate signup. Please try again."  // a failed signup request
  const ResetFailedMessage := "Failed to reset password. Please try again."  // a failed password reset
  const ResendCodeFailedMessage := "Failed to resend code. Please try again."  // a failed signup-code resend
  const VerifyFailedMessage := "Verification failed. Please try again."  // a failed code verification
  const LoggedInMessage := "Logged in successfully! Redirecting..."  // an accepted login that came with a token
  const ResendVerificationPrefix := "Failed to resend verification email: "  // a failed verification-mail resend
  const EmailFirstMessage := "Please enter your email address first"  // resending without an address
  const TokenMissingMessage := "Login successful! Please try again."  // an accepted login without a token
  const InvalidEmailMessage := "Please enter a valid email address"  // an address the format check refuses
  const ResendVerificationFallback := "Failed to resend verification email"  // fallback for a verification-mail resend
  const CredentialsRequiredMessage := "Email and password are required"  // a login with an empty field
  const AccountCreatedMessage := "Account created! Please log in."  // a verified signup without a token
  const SendResetFallback := "Failed to send reset code"  // fallback for a reset-code request
  const ResendCodeFallback := "Failed to resend code"  // fallback for a signup-code resend
  const VerifyFallback := "Verification failed"  // fallback for a code verification
  const LoginFallback := "Login failed"  // fallback for a login request
  const SignupFallback := "Signup failed"  // fallback for a signup request

  class AuthPage {
    // Which form is shown.
    var isSignup: bool
    var showForgotPassword: bool
    var error: string

    // Password reset.
    var resetEmail: string
    var showResetOTP: bool
    var resetOTP: string
    var showNewPassword: bool
    var newPassword: string
    var retypeNewPassword: string
    var isRequestingReset: bool
    var isResettingPassword: bool
    var resetOTPResendCooldown: int

    // Signup.
    var signupName: string
    var signupEmail: string
    var signupPassword: string
    var signupReenterPassword: string
    var signupMessage: string
    var isSignupLoading: bool
    var showOTPVerification: bool
    var otpCode: string
    var signupToken: string
    var isVerifyingOTP: bool
    var otpResendCooldown: int

    // Login.
    var loginEmail: string
    var loginPassword: string
    var loginMessage: string
    var showResendOption: bool
    var isResending: bool
    var deviceFingerprint: string

    // The environment the handlers act on.
    /** Countdown intervals still running for each cooldown; a new one never stops an old one. */
    var otpIntervals: nat
    var resetIntervals: nat
    /** Scheduled one-shot callbacks. */
    var timeouts: seq<Timeout>
    /** The paths handed to `router.push`, oldest first. */
    var navigations: seq<string>
    /** The `auth-token` slot of local storage. */
    const store: TokenStore

    /**
     * The cooldowns stay within 0..60 and are positive only while an interval is
     * left to count them down; the code inputs hold sanitised codes.
     */
    predicate Valid()
      reads this`otpResendCooldown, this`resetOTPResendCooldown, this`otpIntervals, this`resetIntervals
      reads this`otpCode, this`resetOTP
    {
      && 0 <= otpResendCooldown <= ResendCooldown
      && 0 <= resetOTPResendCooldown <= ResendCooldown
      && (otpResendCooldown > 0 ==> otpIntervals > 0)
      && (resetOTPResendCooldown > 0 ==> resetIntervals > 0)
      && IsSanitizedCode(otpCode)
      && IsSanitizedCode(resetOTP)
    }

    /** The page as first rendered: every field at its `useState` default. */
    constructor(store: TokenStore)
      ensures Valid()
      ensures this.store == store
      ensures !isSignup && !showForgotPassword && error == ""
      ensures resetEmail == "" && !showResetOTP && resetOTP == "" && !showNewPassword
      ensures newPassword == "" && retypeNewPassword == ""
      ensures !isRequestingReset && !isResettingPassword && resetOTPResendCooldown == 0
      ensures signupName == "" && signupEmail == "" && signupPassword == "" && signupReenterPassword == ""
      ensures signupMessage == "" && !isSignupLoading && !showOTPVerification
      ensures otpCode == "" && signupToken == "" && !isVerifyingOTP && otpResendCooldown == 0
      ensures loginEmail == "" && loginPassword == "" && loginMessage == ""
      ensures !showResendOption && !isResending && deviceFingerprint == ""
      ensures otpIntervals == 0 && resetIntervals == 0 && timeouts == [] && navigations == []
    {
      isSignup, showForgotPassword, error := false, false, "";
      resetEmail, showResetOTP, resetOTP, showNewPassword := "", false, "", false;
      newPassword, retypeNewPassword := "", "";
      isRequestingReset, isResettingPassword, resetOTPResendCooldown := false, false, 0;
      signupName, signupEmail, signupPassword, signupReenterPassword := "", "", "", "";
      signupMessage, isSignupLoading, showOTPVerification := "", false, false;
      otpCode, signupToken, isVerifyingOTP, otpResendCooldown := "", "", false, 0;
      loginEmail, loginPassword, loginMessage := "", "", "";
      showResendOption, isResending, deviceFingerprint := false, false, "";
      otpIntervals, resetIntervals, timeouts, navigations := 0, 0, [], [];
      this.store := store;
    }

    function Form(): SignupForm
      reads this
    {
      SignupForm(signupName, signupEmail, signupPassword, signupReenterPassword)
    }

    // ----- signup -----

    /**
     * `handleSignup` up to its `fetch`: ignored while a signup is in flight;
     * otherwise the first failing rule's message is shown and the loading flag
     * dropped, or, when every rule passes, the request goes out with the flag set.
     */
    method SubmitSignup() returns (req: Option<Request>)
      requires Valid()
      modifies this`signupMessage, this`error, this`isSignupLoading
      ensures Valid()
      ensures old(isSignupLoading) ==> req.None? && unchanged(this`signupMessage, this`error, this`isSignupLoading)
      ensures !old(isSignupLoading) ==>
                && error == ""
                && match CheckSignup(Form())
                   case Some(rule) => req.None? && signupMessage == SignupRuleMessage(rule) && !isSignupLoading
                   case None =>
                     && req == Some(SignupRequest(signupName, signupEmail, signupPassword, signupReenterPassword))
                     && signupMessage == ""
                     && isSignupLoading
    {
      if isSignupLoading {
        return None;
      }
      signupMessage, error, isSignupLoading := "", "", true;
      match CheckSignup(Form()) {
        case Some(rule) =>
          signupMessage, isSignupLoading := SignupRuleMessage(rule), false;
          req := None;
        case None =>
          req := Some(SignupRequest(signupName, signupEmail, signupPassword, signupReenterPassword));
      }
    }

    /**
     * The rest of `handleSignup`: a signup token moves the page to the code step
     * and starts a fresh 60-second cooldown with its own interval; a success
     * without a token and every error only set the message; the loading flag
     * always ends false.
     */
    method SignupReplied(reply: Reply)
      requires Valid()
      modifies this`signupToken, this`showOTPVerification, this`signupMessage,
               this`otpResendCooldown, this`otpIntervals, this`isSignupLoading
      ensures Valid()
      ensures !isSignupLoading
      ensures match PlainOutcome(reply, SignupFallback)
        case Success(body) =>
          if Truthy(body.signupToken) then
            && signupToken == body.signupToken.value
            && showOTPVerification
            && signupMessage == ""
            && otpResendCooldown == ResendCooldown
            && otpIntervals == old(otpIntervals) + 1
          else
            && signupMessage == SignupFailedMessage
            && unchanged(this`signupToken, this`showOTPVerification, this`otpResendCooldown, this`otpIntervals)
        case Thrown(message, _) =>
          && signupMessage == SignupErrorMessage(message)
          && unchanged(this`signupToken, this`showOTPVerification, this`otpResendCooldown, this`otpIntervals)
    {
      match PlainOutcome(reply, SignupFallback) {
      case Success(body) =>
        if Truthy(body.signupToken) {
          signupToken, showOTPVerification, signupMessage := body.signupToken.value, true, "";
          otpResendCooldown, otpIntervals := ResendCooldown, otpIntervals + 1;
        } else {
          signupMessage := SignupFailedMessage;
        }
      case Thrown(message, _) =>
        signupMessage := SignupErrorMessage(message);
      }
      isSignupLoading := false;
    }

    // ----- signup code -----

    /** The code input's change handler: only the first six digits typed are kept. */
    method OtpInput(raw: string)
      requires Valid()
      modifies this`otpCode
      ensures Valid()
      ensures otpCode == SanitizeCode(raw)
    {
      otpCode := SanitizeCode(raw);
    }

    /**
     * `handleVerifyOTP` up to its `fetch`: ignored while a verification is in
     * flight; a code that is not six digits only sets the message; otherwise the
     * code goes out with the signup token.
     */
    method SubmitVerifyOtp() returns (req: Option<Request>)
      requires Valid()
      modifies this`signupMessage, this`isVerifyingOTP
      ensures Valid()
      ensures old(isVerifyingOTP) ==> req.None? && unchanged(this`signupMessage, this`isVerifyingOTP)
      ensures !old(isVerifyingOTP) && !IsSixDigitCode(otpCode) ==>
                req.None? && signupMessage == InvalidCodeMessage && !isVerifyingOTP
      ensures !old(isVerifyingOTP) && IsSixDigitCode(otpCode) ==>
                && req == Some(VerifySignupRequest(signupEmail, otpCode, signupToken))
                && signupMessage == ""
                && isVerifyingOTP
      ensures req.Some? ==> IsSanitizedCode(req.value.otp)
    {
      if isVerifyingOTP {
        return None;
      }
      if !IsSixDigitCode(otpCode) {
        signupMessage := InvalidCodeMessage;
        return None;
      }
      isVerifyingOTP, signupMessage := true, "";
      req := Some(VerifySignupRequest(signupEmail, otpCode, signupToken));
    }

    /**
     * The rest of `handleVerifyOTP`: a token is stored and the dashboard opened
     * after a delay; a success without a token sends the user back to the login
     * form after a delay; a failure shows the message and clears the code.
     */
    method VerifyOtpReplied(reply: Reply)
      requires Valid()
      modifies this`signupMessage, this`otpCode, this`timeouts, this`isVerifyingOTP, store
      ensures Valid()
      ensures !isVerifyingOTP
      ensures match PlainOutcome(reply, VerifyFallback)
        case Success(body) =>
          && unchanged(this`otpCode)
          && if Truthy(body.token) then
               && store.authToken == Some(body.token.value)
               && signupMessage == AccountRedirectMessage
               && timeouts == old(timeouts) + [OpenDashboard]
             else
               && unchanged(store)
               && signupMessage == AccountCreatedMessage
               && timeouts == old(timeouts) + [BackToLogin]
        case Thrown(message, _) =>
          && signupMessage == StrOr(message, VerifyFailedMessage)
          && otpCode == ""
          && unchanged(store) && unchanged(this`timeouts)
    {
      match PlainOutcome(reply, VerifyFallback) {
      case Success(body) =>
        if Truthy(body.token) {
          store.Save(body.token.value);
          signupMessage := AccountRedirectMessage;
          timeouts := timeouts + [OpenDashboard];
        } else {
          signupMessage := AccountCreatedMessage;
          timeouts := timeouts + [BackToLogin];
        }
      case Thrown(message, _) =>
        signupMessage := StrOr(message, VerifyFailedMessage);
        otpCode := "";
      }
      isVerifyingOTP := false;
    }

    /**
     * `handleResendOTP` up to its `fetch`: nothing happens while the cooldown
     * runs; otherwise the signup request is sent again.
     */
    method SubmitResendOtp() returns (req: Option<Request>)
      requires Valid()
      modifies this`isSignupLoading, this`signupMessage
      ensures Valid()
      ensures old(otpResendCooldown) > 0 ==> req.None? && unchanged(this`isSignupLoading, this`signupMessage)
      ensures old(otpResendCooldown) <= 0 ==>
                && req == Some(SignupRequest(signupName, signupEmail, signupPassword, signupReenterPassword))
                && isSignupLoading
                && signupMessage == ""
    {
      if otpResendCooldown > 0 {
        return None;
      }
      isSignupLoading, signupMessage := true, "";
      req := Some(SignupRequest(signupName, signupEmail, signupPassword, signupReenterPassword));
    }

    /**
     * The rest of `handleResendOTP`: a new signup token replaces the old one and
     * restarts the cooldown; a success without a token changes nothing visible;
     * an error is shown.
     */
    method ResendOtpReplied(reply: Reply)
      requires Valid()
      modifies this`signupToken, this`signupMessage, this`otpResendCooldown, this`otpIntervals, this`isSignupLoading
      ensures Valid()
      ensures !isSignupLoading
      ensures match PlainOutcome(reply, ResendCodeFallback)
        case Success(body) =>
          if Truthy(body.signupToken) then
            && signupToken == body.signupToken.value
            && signupMessage == CodeResentMessage
            && otpResendCooldown == ResendCooldown
            && otpIntervals == old(otpIntervals) + 1
          else
            unchanged(this`signupToken, this`signupMessage, this`otpResendCooldown, this`otpIntervals)
        case Thrown(message, _) =>
          && signupMessage == StrOr(message, ResendCodeFailedMessage)
          && unchanged(this`signupToken, this`otpResendCooldown, this`otpIntervals)
    {
      match PlainOutcome(reply, ResendCodeFallback) {
      case Success(body) =>
        if Truthy(body.signupToken) {
          signupToken, signupMessage := body.signupToken.value, CodeResentMessage;
          otpResendCooldown, otpIntervals := ResendCooldown, otpIntervals + 1;
        }
      case Thrown(message, _) =>
        signupMessage := StrOr(message, ResendCodeFailedMessage);
      }
      isSignupLoading := false;
    }

    /**
     * One firing of a signup-code countdown interval: the counter ticks, and the
     * interval stops itself when the tick reaches zero.
     */
    method OtpCountdownTick()
      requires Valid() && otpIntervals > 0
      modifies this`otpResendCooldown, this`otpIntervals
      ensures Valid()
      ensures otpResendCooldown == Tick(old(otpResendCooldown))
      ensures otpIntervals == if ClearsInterval(old(otpResendCooldown)) then old(otpIntervals) - 1 else old(otpIntervals)
    {
      if ClearsInterval(otpResendCooldown) {
        otpIntervals := otpIntervals - 1;
      }
      otpResendCooldown := Tick(otpResendCooldown);
    }

    // ----- login -----

    /**
     * `handleLogin` up to its `fetch`: both messages are cleared; a missing
     * e-mail or password sets a message and sends nothing.
     */
    method SubmitLogin() returns (req: Option<Request>)
      requires Valid()
      modifies this`loginMessage, this`error
      ensures Valid()
      ensures error == ""
      ensures loginEmail == "" || loginPassword == "" ==>
                req.None? && loginMessage == CredentialsRequiredMessage
      ensures loginEmail != "" && loginPassword != "" ==>
                req == Some(LoginRequest(loginEmail, loginPassword, deviceFingerprint)) && loginMessage == ""
    {
      loginMessage, error := "", "";
      if loginEmail == "" || loginPassword == "" {
        loginMessage := CredentialsRequiredMessage;
        return None;
      }
      req := Some(LoginRequest(loginEmail, loginPassword, deviceFingerprint));
    }

    /**
     * The rest of `handleLogin`: a token is stored and the dashboard opened after
     * a delay; a failure is classified, which decides both the shown message and
     * whether the resend-verification action is offered.
     */
    method LoginReplied(reply: Reply)
      requires Valid()
      modifies this`loginMessage, this`showResendOption, this`timeouts, store
      ensures Valid()
      ensures match LoginOutcome(reply)
        case Success(body) =>
          && unchanged(this`showResendOption)
          && if Truthy(body.token) then
               && store.authToken == Some(body.token.value)
               && loginMessage == LoggedInMessage
               && timeouts == old(timeouts) + [OpenDashboard]
             else
               && unchanged(store) && unchanged(this`timeouts)
               && loginMessage == TokenMissingMessage
        case Thrown(message, code) =>
          && showResendOption == NeedsVerification(StrOr(message, LoginFallback), code)
          && loginMessage == LoginErrorMessage(StrOr(message, LoginFallback), code)
          && unchanged(store) && unchanged(this`timeouts)
    {
      match LoginOutcome(reply) {
      case Success(body) =>
        LoginAccepted(body.token);
      case Thrown(message, code) =>
        ShowLoginFailure(message, code);
      }
    }

    /**
     * The `ok` path of `handleLogin`: a token is stored and the dashboard opened
     * after a delay; a reply without a token only sets a message.
     */
    method LoginAccepted(token: Option<string>)
      requires Valid()
      modifies this`loginMessage, this`timeouts, store
      ensures Valid()
      ensures Truthy(token) ==>
                && store.authToken == Some(token.value)
                && loginMessage == LoggedInMessage
                && timeouts == old(timeouts) + [OpenDashboard]
      ensures !Truthy(token) ==>
                && unchanged(store) && unchanged(this`timeouts)
                && loginMessage == TokenMissingMessage
    {
      if Truthy(token) {
        store.Save(token.value);
        loginMessage := LoggedInMessage;
        timeouts := timeouts + [OpenDashboard];
      } else {
        loginMessage := TokenMissingMessage;
      }
    }

    /**
     * The `catch` of `handleLogin`: the failure decides whether the
     * resend-verification action is offered and which message is shown.
     */
    method ShowLoginFailure(message: string, code: Option<string>)
      requires Valid()
      modifies this`loginMessage, this`showResendOption
      ensures Valid()
      ensures showResendOption == NeedsVerification(StrOr(message, LoginFallback), code)
      ensures loginMessage == LoginErrorMessage(StrOr(message, LoginFallback), code)
    {
      // `errorMessage = error.message || 'Login failed'`; the page compares the raw
      // message with "Failed to fetch", which "Login failed" never equals, so the
      // classification can read `errorMessage` throughout.
      var errorMessage := StrOr(message, LoginFallback);
      showResendOption := NeedsVerification(errorMessage, code);
      loginMessage := LoginErrorMessage(errorMessage, code);
    }

    /** Fingerprint generation finished (the hash itself is not part of this model). */
    method FingerprintReady(fingerprint: string)
      requires Valid()
      modifies this`deviceFingerprint
      ensures Valid()
      ensures deviceFingerprint == fingerprint
    {
      deviceFingerprint := fingerprint;
    }

    /**
     * `handleResendVerification` up to its `fetch`: without an e-mail only a
     * message is set; otherwise the flag is raised and the request sent.
     */
    method SubmitResendVerification() returns (req: Option<Request>)
      requires Valid()
      modifies this`loginMessage, this`isResending
      ensures Valid()
      ensures loginEmail == "" ==>
                req.None? && loginMessage == EmailFirstMessage && unchanged(this`isResending)
      ensures loginEmail != "" ==>
                req == Some(ResendVerificationRequest(loginEmail)) && isResending && loginMessage == ""
    {
      if loginEmail == "" {
        loginMessage := EmailFirstMessage;
        return None;
      }
      isResending, loginMessage := true, "";
      req := Some(ResendVerificationRequest(loginEmail));
    }

    /** The rest of `handleResendVerification`. */
    method ResendVerificationReplied(reply: Reply)
      requires Valid()
      modifies this`loginMessage, this`showResendOption, this`isResending
      ensures Valid()
      ensures !isResending
      ensures match PlainOutcome(reply, ResendVerificationFallback)
        case Success(_) =>
          loginMessage == VerificationSentMessage && !showResendOption
        case Thrown(message, _) =>
          loginMessage == ResendVerificationPrefix + message && unchanged(this`showResendOption)
    {
      match PlainOutcome(reply, ResendVerificationFallback) {
      case Success(_) =>
        loginMessage, showResendOption := VerificationSentMessage, false;
      case Thrown(message, _) =>
        loginMessage := ResendVerificationPrefix + message;
      }
      isResending := false;
    }

    // ----- session on mount -----

    /**
     * The mount effect up to the `fetch` in `checkAuth`: the stored token is read
     * once, and without one nothing is sent (`checkAuth` returns null at once).
     */
    method SubmitSessionCheck() returns (req: Option<Request>)
      ensures req.Some? <==> HasToken(store.authToken)
      ensures req.Some? ==> req == Some(VerifyTokenRequest(store.authToken.value))
    {
      if HasToken(store.authToken) {
        req := Some(VerifyTokenRequest(store.authToken.value));
      } else {
        req := None;
      }
    }

    /**
     * The rest of the mount effect, given the token that was sent: an answer
     * accepting it with a user opens the dashboard. The token is the one read
     * before the request, whatever the store holds by the time the reply comes.
     */
    method SessionChecked(sent: string, reply: Reply)
      requires Valid()
      modifies this`navigations
      ensures Valid()
      ensures CheckAuth(Some(sent), reply).Some? ==> navigations == old(navigations) + ["/dashboard"]
      ensures CheckAuth(Some(sent), reply).None? ==> navigations == old(navigations)
    {
      if CheckAuth(Some(sent), reply).Some? {
        navigations := navigations + ["/dashboard"];
      }
    }

    // ----- password reset -----

    /**
     * `handleForgotPassword` up to its `fetch`: the error is cleared, an invalid
     * e-mail sets it; only after that check is a request in flight a reason to
     * stop; otherwise the flag is raised and the request sent.
     */
    method SubmitForgotPassword() returns (req: Option<Request>)
      requires Valid()
      modifies this`error, this`isRequestingReset
      ensures Valid()
      ensures !IsValidEmail(resetEmail) ==>
                req.None? && error == InvalidEmailMessage && unchanged(this`isRequestingReset)
      ensures IsValidEmail(resetEmail) ==> error == ""
      ensures IsValidEmail(resetEmail) && old(isRequestingReset) ==> req.None? && isRequestingReset
      ensures IsValidEmail(resetEmail) && !old(isRequestingReset) ==>
                req == Some(ForgotPasswordRequest(resetEmail)) && isRequestingReset
    {
      error := "";
      if !IsValidEmail(resetEmail) {
        error := InvalidEmailMessage;
        return None;
      }
      if isRequestingReset {
        return None;
      }
      isRequestingReset, error := true, "";
      req := Some(ForgotPasswordRequest(resetEmail));
    }

    /** The rest of `handleForgotPassword`: success moves to the code step and starts the reset cooldown. */
    method ForgotPasswordReplied(reply: Reply)
      requires Valid()
      modifies this`showResetOTP, this`error, this`resetOTPResendCooldown, this`resetIntervals, this`isRequestingReset
      ensures Valid()
      ensures !isRequestingReset
      ensures match PlainOutcome(reply, SendResetFallback)
        case Success(_) =>
          && showResetOTP && error == ""
          && resetOTPResendCooldown == ResendCooldown
          && resetIntervals == old(resetIntervals) + 1
        case Thrown(message, _) =>
          && error == ResetRequestErrorMessage(message)
          && unchanged(this`showResetOTP, this`resetOTPResendCooldown, this`resetIntervals)
    {
      match PlainOutcome(reply, SendResetFallback) {
      case Success(_) =>
        showResetOTP, error := true, "";
        resetOTPResendCooldown, resetIntervals := ResendCooldown, resetIntervals + 1;
      case Thrown(message, _) =>
        error := ResetRequestErrorMessage(message);
      }
      isRequestingReset := false;
    }

    /** The reset code input's change handler. */
    method ResetOtpInput(raw: string)
      requires Valid()
      modifies this`resetOTP
      ensures Valid()
      ensures resetOTP == SanitizeCode(raw)
    {
      resetOTP := SanitizeCode(raw);
    }

    /**
     * `handleVerifyResetOTP`: only the shape of the code is checked; a six-digit
     * code moves on to the new-password step without any request.
     */
    method VerifyResetOtp()
      requires Valid()
      modifies this`error, this`showResetOTP, this`showNewPassword
      ensures Valid()
      ensures !IsSixDigitCode(resetOTP) ==>
                error == InvalidCodeMessage && unchanged(this`showResetOTP, this`showNewPassword)
      ensures IsSixDigitCode(resetOTP) ==> !showResetOTP && showNewPassword && error == ""
    {
      if !IsSixDigitCode(resetOTP) {
        error := InvalidCodeMessage;
        return;
      }
      showResetOTP, showNewPassword, error := false, true, "";
    }

    /**
     * `handleResetPassword` up to its `fetch`: ignored while a reset is in
     * flight; the first failing password rule sets the error and leaves both
     * password fields as typed; otherwise the request carries the e-mail, the
     * code and both passwords.
     */
    method SubmitResetPassword() returns (req: Option<Request>)
      requires Valid()
      modifies this`error, this`isResettingPassword
      ensures Valid()
      ensures old(isResettingPassword) ==> req.None? && unchanged(this`error, this`isResettingPassword)
      ensures !old(isResettingPassword) && CheckNewPassword(newPassword, retypeNewPassword).Some? ==>
                && req.None?
                && error == PasswordRuleMessage(CheckNewPassword(newPassword, retypeNewPassword).value)
                && !isResettingPassword
      ensures !old(isResettingPassword) && CheckNewPassword(newPassword, retypeNewPassword).None? ==>
                && req == Some(ResetPasswordRequest(resetEmail, resetOTP, newPassword, retypeNewPassword))
                && error == ""
                && isResettingPassword
      ensures req.Some? ==> IsSanitizedCode(req.value.otp)
    {
      if isResettingPassword {
        return None;
      }
      error := "";
      var failed := CheckNewPassword(newPassword, retypeNewPassword);
      if failed.Some? {
        error := PasswordRuleMessage(failed.value);
        return None;
      }
      isResettingPassword, error := true, "";
      req := Some(ResetPasswordRequest(resetEmail, resetOTP, newPassword, retypeNewPassword));
    }

    /**
     * The rest of `handleResetPassword`: success closes the reset dialog, empties
     * every reset field, stops the cooldown and shows a banner on the login form
     * that a timeout later hides; a failure only sets the error.
     */
    method ResetPasswordReplied(reply: Reply)
      requires Valid()
      modifies this`error, this`showForgotPassword, this`showResetOTP, this`showNewPassword,
               this`resetEmail, this`resetOTP, this`newPassword, this`retypeNewPassword,
               this`resetOTPResendCooldown, this`loginMessage, this`timeouts, this`isResettingPassword
      ensures Valid()
      ensures !isResettingPassword
      ensures match ResetOutcome(reply)
        case Success(_) =>
          && error == ""
          && !showForgotPassword && !showResetOTP && !showNewPassword
          && resetEmail == "" && resetOTP == "" && newPassword == "" && retypeNewPassword == ""
          && resetOTPResendCooldown == 0
          && loginMessage == PasswordResetMessage
          && timeouts == old(timeouts) + [ClearLoginMessage]
        case Thrown(message, _) =>
          && error == StrOr(message, ResetFailedMessage)
          && unchanged(this`showForgotPassword, this`showResetOTP, this`showNewPassword, this`resetEmail, this`resetOTP)
          && unchanged(this`newPassword, this`retypeNewPassword, this`resetOTPResendCooldown, this`loginMessage, this`timeouts)
    {
      match ResetOutcome(reply) {
      case Success(_) =>
        ClearResetDialog();
        loginMessage := PasswordResetMessage;
        timeouts := timeouts + [ClearLoginMessage];
      case Thrown(message, _) =>
        error := StrOr(message, ResetFailedMessage);
      }
      isResettingPassword := false;
    }

    /** The state updates after a successful reset: every step of the dialog closes and every reset field empties. */
    method ClearResetDialog()
      requires Valid()
      modifies this`error, this`showForgotPassword, this`showResetOTP, this`showNewPassword,
               this`resetEmail, this`resetOTP, this`newPassword, this`retypeNewPassword, this`resetOTPResendCooldown
      ensures Valid()
      ensures error == "" && !showForgotPassword && !showResetOTP && !showNewPassword
      ensures resetEmail == "" && resetOTP == "" && newPassword == "" && retypeNewPassword == ""
      ensures resetOTPResendCooldown == 0
    {
      error, showForgotPassword, showResetOTP, showNewPassword := "", false, false, false;
      resetEmail, resetOTP, newPassword, retypeNewPassword := "", "", "", "";
      resetOTPResendCooldown := 0;
    }

    /** `handleResendResetOTP` up to its `fetch`: nothing happens while the reset cooldown runs. */
    method SubmitResendResetOtp() returns (req: Option<Request>)
      requires Valid()
      modifies this`isRequestingReset, this`error
      ensures Valid()
      ensures old(resetOTPResendCooldown) > 0 ==> req.None? && unchanged(this`isRequestingReset, this`error)
      ensures old(resetOTPResendCooldown) <= 0 ==>
                req == Some(ForgotPasswordRequest(resetEmail)) && isRequestingReset && error == ""
    {
      if resetOTPResendCooldown > 0 {
        return None;
      }
      isRequestingReset, error := true, "";
      req := Some(ForgotPasswordRequest(resetEmail));
    }

    /** The rest of `handleResendResetOTP`: success restarts the reset cooldown. */
    method ResendResetOtpReplied(reply: Reply)
      requires Valid()
      modifies this`error, this`resetOTPResendCooldown, this`resetIntervals, this`isRequestingReset
      ensures Valid()
      ensures !isRequestingReset
      ensures match PlainOutcome(reply, ResendCodeFallback)
        case Success(_) =>
          error == "" && resetOTPResendCooldown == ResendCooldown && resetIntervals == old(resetIntervals) + 1
        case Thrown(message, _) =>
          && error == StrOr(message, ResendCodeFailedMessage)
          && unchanged(this`resetOTPResendCooldown, this`resetIntervals)
    {
      match PlainOutcome(reply, ResendCodeFallback) {
      case Success(_) =>
        error := "";
        resetOTPResendCooldown, resetIntervals := ResendCooldown, resetIntervals + 1;
      case Thrown(message, _) =>
        error := StrOr(message, ResendCodeFailedMessage);
      }
      isRequestingReset := false;
    }

    /** One firing of a reset-code countdown interval. */
    method ResetCountdownTick()
      requires Valid() && resetIntervals > 0
      modifies this`resetOTPResendCooldown, this`resetIntervals
      ensures Valid()
      ensures resetOTPResendCooldown == Tick(old(resetOTPResendCooldown))
      ensures resetIntervals ==
                if ClearsInterval(old(resetOTPResendCooldown)) then old(resetIntervals) - 1 else old(resetIntervals)
    {
      if ClearsInterval(resetOTPResendCooldown) {
        resetIntervals := resetIntervals - 1;
      }
      resetOTPResendCooldown := Tick(resetOTPResendCooldown);
    }

    // ----- timeouts -----

    /** The pending timeout at index `k` runs and is removed. */
    method TimeoutFires(k: nat)
      requires Valid() && k < |timeouts|
      modifies this`timeouts, this`navigations, this`isSignup, this`showOTPVerification,
               this`otpCode, this`signupToken, this`loginMessage
      ensures Valid()
      ensures timeouts == old(timeouts[..k] + timeouts[k + 1..])
      ensures match old(timeouts[k])
        case OpenDashboard =>
          && navigations == old(navigations) + ["/dashboard"]
          && unchanged(this`isSignup, this`showOTPVerification, this`otpCode, this`signupToken, this`loginMessage)
        case BackToLogin =>
          && !isSignup && !showOTPVerification && otpCode == "" && signupToken == ""
          && unchanged(this`navigations, this`loginMessage)
        case ClearLoginMessage =>
          && loginMessage == ""
          && unchanged(this`navigations, this`isSignup, this`showOTPVerification, this`otpCode, this`signupToken)
    {
      var t := timeouts[k];
      timeouts := timeouts[..k] + timeouts[k + 1..];
      match t {
      case OpenDashboard =>
        navigations := navigations + ["/dashboard"];
      case BackToLogin =>
        isSignup, showOTPVerification, otpCode, signupToken := false, false, "", "";
      case ClearLoginMessage =>
        loginMessage := "";
      }
    }
  }
}
