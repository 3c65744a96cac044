/**
 * How the login page turns a failure into the text it shows: the login failure
 * classification (with the resend-verification offer), the signup rewrite and the
 * reset-request rewrite (src/app/login/page.js).
 */
module ErrorMapping {
  import opened Wrappers
  import opened Text

  /** The message of the error the fetch API raises when no server answered. */
  const FetchFailure := "Failed to fetch"

  // ----- login -----

  const LoginUnreachableMessage := "Unable to connect to the server. " + "Please check your network connection or try again later."
  const InvalidCredentialsMessage := "Invalid email or password. Please try again."
  const ServerTroubleMessage := "Server connection error. " + "Please try again later or contact support."
  const LoginFailedPrefix := "Login failed: "

  /** The groups a failed login falls into, in the order the page tests for them. */
  datatype LoginErrorClass = Unreachable | BadCredentials | ServerTrouble | Unclassified(raw: string)

  /** The failure asks for e-mail verification, so the resend-verification action is offered. */
  predicate NeedsVerification(message: string, code: Option<string>)
  {
    || Contains(message, "verify your email")
    || Contains(message, "email before logging in")
    || code == Some("VERIFICATION_REQUIRED")
  }

  /** The evidence for each class, taken on its own. */
  predicate LoginClassMatches(c: LoginErrorClass, message: string, code: Option<string>)
  {
    match c
    case Unreachable => message == FetchFailure || code == Some("DATABASE_ERROR")
    case BadCredentials => Contains(message, "Invalid") || Contains(message, "credentials")
    case ServerTrouble =>
      Contains(message, "database") || Contains(message, "server") || Contains(message, "Can't reach")
    case Unclassified(raw) => raw == message
  }

  function LoginClassRank(c: LoginErrorClass): nat
  {
    match c
    case Unreachable => 0
    case BadCredentials => 1
    case ServerTrouble => 2
    case Unclassified(_) => 3
  }

  /** The class of a failed login: the first, in rank order, whose evidence is present. */
  function ClassifyLoginError(message: string, code: Option<string>): (c: LoginErrorClass)
    ensures LoginClassMatches(c, message, code)
    ensures forall d :: LoginClassRank(d) < LoginClassRank(c) ==> !LoginClassMatches(d, message, code)
  {
    if message == FetchFailure || code == Some("DATABASE_ERROR") then Unreachable
    else if Contains(message, "Invalid") || Contains(message, "credentials") then BadCredentials
    else if Contains(message, "database") || Contains(message, "server") || Contains(message, "Can't reach") then
      ServerTrouble
    else
      Unclassified(message)
  }

  function LoginErrorText(c: LoginErrorClass): string
  {
    match c
    case Unreachable => LoginUnreachableMessage
    case BadCredentials => InvalidCredentialsMessage
    case ServerTrouble => ServerTroubleMessage
    case Unclassified(raw) => LoginFailedPrefix + raw
  }

  /** The text the login form shows for a failure with this message and code. */
  function LoginErrorMessage(message: string, code: Option<string>): string
  {
    LoginErrorText(ClassifyLoginError(message, code))
  }

  /** Reads a shown login failure text back to the class that produced it. */
  function LoginClassOfText(text: string): Option<LoginErrorClass>
  {
    if text == LoginUnreachableMessage then Some(Unreachable)
    else if text == InvalidCredentialsMessage then Some(BadCredentials)
    else if text == ServerTroubleMessage then Some(ServerTrouble)
    else if |LoginFailedPrefix| <= |text| && text[..|LoginFailedPrefix|] == LoginFailedPrefix then
      Some(Unclassified(text[|LoginFailedPrefix|..]))
    else None
  }

  /** The shown text determines the class, and for an unclassified failure the server's own message. */
  lemma LoginTextIdentifiesClass(c: LoginErrorClass)
    ensures LoginClassOfText(LoginErrorText(c)) == Some(c)
  {
    if c.Unclassified? {
      var t := LoginErrorText(c);
      assert t[..|LoginFailedPrefix|] == LoginFailedPrefix;
      assert t[|LoginFailedPrefix|..] == c.raw;
      assert t[0] == 'L';
      assert LoginUnreachableMessage[0] == 'U' && InvalidCredentialsMessage[0] == 'I' && ServerTroubleMessage[0] == 'S';
    }
  }

  /** A failure carrying the code VERIFICATION_REQUIRED always offers the resend action. */
  lemma VerificationCodeOffersResend(message: string)
    ensures NeedsVerification(message, Some("VERIFICATION_REQUIRED"))
  {
  }

  /** Any message containing either of the server's phrasings for an unverified account offers the resend action. */
  lemma VerificationWordingOffersResend(head: string, tail: string, code: Option<string>)
    ensures NeedsVerification(head + "verify your email" + tail, code)
    ensures NeedsVerification(head + "email before logging in" + tail, code)
  {
    var p, q := "verify your email", "email before logging in";
    var s, t := head + p + tail, head + q + tail;
    assert s[|head|..|head| + |p|] == p;
    ContainsSlice(s, p, |head|);
    assert t[|head|..|head| + |q|] == q;
    ContainsSlice(t, q, |head|);
  }

  /** A plain invalid-credentials failure does not offer it, and is shown as invalid credentials. */
  lemma InvalidCredentialsNoResend()
    ensures !NeedsVerification("Invalid credentials", None)
    ensures LoginErrorMessage("Invalid credentials", None) == InvalidCredentialsMessage
  {
    var s := "Invalid credentials";
    ShortNotContains(s, "email before logging in");
    forall i | 0 <= i && i + 17 <= |s| ensures !OccursAt(s, "verify your email", i) {
      assert s[i..i + 17][1] == s[i + 1];
    }
    ContainsSlice(s, "Invalid", 0);
  }

  // ----- signup -----

  const AuthServerUnreachableMessage := "Unable to connect " + "to authentication server. " + "Please check your network or contact support."
  const DuplicateAccountMessage := "An account with " + "this email already exists. " + "Please try logging in instead."
  const SignupFailedPrefix := "Signup failed: "

  datatype SignupErrorClass = SignupUnreachable | DuplicateAccount | SignupRejected(raw: string)

  /** A signup failure: no server, an account that already exists, or any other rejection. */
  function ClassifySignupError(message: string): (c: SignupErrorClass)
    ensures c == SignupUnreachable <==> message == FetchFailure
    ensures c == DuplicateAccount <==>
              message != FetchFailure && (Contains(message, "already exists") || Contains(message, "User already"))
    ensures c.SignupRejected? ==> c.raw == message
  {
    if message == FetchFailure then SignupUnreachable
    else if Contains(message, "already exists") || Contains(message, "User already") then DuplicateAccount
    else SignupRejected(message)
  }

  function SignupErrorText(c: SignupErrorClass): string
  {
    match c
    case SignupUnreachable => AuthServerUnreachableMessage
    case DuplicateAccount => DuplicateAccountMessage
    case SignupRejected(raw) => SignupFailedPrefix + raw
  }

  /** The text the signup form shows for a failure with this message. */
  function SignupErrorMessage(message: string): string
  {
    SignupErrorText(ClassifySignupError(message))
  }

  function SignupClassOfText(text: string): Option<SignupErrorClass>
  {
    if text == AuthServerUnreachableMessage then Some(SignupUnreachable)
    else if text == DuplicateAccountMessage then Some(DuplicateAccount)
    else if |SignupFailedPrefix| <= |text| && text[..|SignupFailedPrefix|] == SignupFailedPrefix then
      Some(SignupRejected(text[|SignupFailedPrefix|..]))
    else None
  }

  /** The shown signup text determines the class, and for a plain rejection the server's message. */
  lemma SignupTextIdentifiesClass(c: SignupErrorClass)
    ensures SignupClassOfText(SignupErrorText(c)) == Some(c)
  {
    if c.SignupRejected? {
      var t := SignupErrorText(c);
      assert t[..|SignupFailedPrefix|] == SignupFailedPrefix;
      assert t[|SignupFailedPrefix|..] == c.raw;
      assert t[0] == 'S';
      assert AuthServerUnreachableMessage[0] == 'U' && DuplicateAccountMessage[0] == 'A';
    }
  }

  // ----- password-reset request -----

  /** The reset request shows the server's message, except that a fetch failure is rewritten. */
  function ResetRequestErrorMessage(message: string): (text: string)
    ensures message == FetchFailure ==> text == AuthServerUnreachableMessage
    ensures message != FetchFailure ==> text == message
  {
    if message == FetchFailure then AuthServerUnreachableMessage else message
  }
}
