/**
 The sign-up and sign-in forms of ola-frontend/src/pages/Register.tsx and Login.tsx: their
 field validation, which reports the first failing check, and the decision the login form takes
 on the server's reply. Lengths are counted in characters.
 */
module AuthForms {

  import opened Common
  import opened EmailPattern
  import opened UserSlice

  const NAME_TOO_SHORT := "Name must be at least 2 characters long"
  const EMAIL_INVALID := "Please enter a valid email address"
  const PASSWORD_TOO_SHORT := "Password must be at least 6 characters long"

  predicate NameOk(name: string)
  {
    |name| >= 2
  }

  predicate PasswordOk(password: string)
  {
    |password| >= 6
  }

  /** `validateForm` of the register page: name, then email, then password. */
  function ValidateRegister(name: string, email: string, password: string): (r: Check)
    ensures r == Valid <==> NameOk(name) && EmailSpec(email) && PasswordOk(password)
    ensures !NameOk(name) ==> r == Invalid(NAME_TOO_SHORT)
    ensures NameOk(name) && !EmailSpec(email) ==> r == Invalid(EMAIL_INVALID)
    ensures NameOk(name) && EmailSpec(email) && !PasswordOk(password) ==> r == Invalid(PASSWORD_TOO_SHORT)
  {
    if name == "" || |name| < 2 then Invalid(NAME_TOO_SHORT)
    else if email == "" || !MatchesEmail(email) then Invalid(EMAIL_INVALID)
    else if password == "" || |password| < 6 then Invalid(PASSWORD_TOO_SHORT)
    else Valid
  }

  /** `validateForm` of the login page: email, then password. */
  function ValidateLogin(email: string, password: string): (r: Check)
    ensures r == Valid <==> EmailSpec(email) && PasswordOk(password)
    ensures !EmailSpec(email) ==> r == Invalid(EMAIL_INVALID)
    ensures EmailSpec(email) && !PasswordOk(password) ==> r == Invalid(PASSWORD_TOO_SHORT)
  {
    if email == "" || !MatchesEmail(email) then Invalid(EMAIL_INVALID)
    else if password == "" || |password| < 6 then Invalid(PASSWORD_TOO_SHORT)
    else Valid
  }

  /** The two forms check an email and a password the same way. */
  lemma LoginChecksAsRegister(name: string, email: string, password: string)
    requires NameOk(name)
    ensures ValidateRegister(name, email, password) == ValidateLogin(email, password)
  {
  }

  /** What the login request came back with: a reply body, or a thrown error carrying the
      server's `msg` and the error's own `message`. */
  datatype LoginReply =
    | Replied(ok: bool, token: Option<string>, user: Option<Profile>)
    | Threw(serverMsg: Option<string>, message: Option<string>)

  /** The form's final state: the session, the error it shows, and where it navigated. */
  datatype LoginOutcome = LoginOutcome(session: Session, error: Option<string>, navigatedTo: Option<string>)

  const LOGIN_REJECTED := "Login failed. Please try again."
  const LOGIN_FAILED := "Login failed"

  /** `err.response?.data?.msg || err.message || 'Login failed'`. */
  function ThrownMessage(serverMsg: Option<string>, message: Option<string>): (m: string)
    ensures m != ""
    ensures Truthy(serverMsg) ==> m == serverMsg.value
    ensures !Truthy(serverMsg) && Truthy(message) ==> m == message.value
    ensures !Truthy(serverMsg) && !Truthy(message) ==> m == LOGIN_FAILED
  {
    if Truthy(serverMsg) then serverMsg.value
    else if Truthy(message) then message.value
    else LOGIN_FAILED
  }

  /** Where a signed-in account lands. */
  function HomeFor(p: Profile): string
  {
    if p.role == "driver" then "/driver" else "/"
  }

  /** `handleSubmit` of the login page. An invalid form stops before any request. A reply that is
      ok and carries a token stores the session and navigates by role; reading the user's name
      for the welcome message fails when the reply has no user, after the session was stored,
      and the engine's message for that failure is `missingUserError`. Any other reply, or a
      thrown request, leaves the session alone and shows an error. */
  function LoginSubmit(s: Session, email: string, password: string, reply: LoginReply,
                       codec: Codec, missingUserError: string): (r: LoginOutcome)
    ensures ValidateLogin(email, password).Invalid? ==>
      r == LoginOutcome(s, Some(ValidateLogin(email, password).message), None)
    ensures r.navigatedTo.Some? <==>
      && ValidateLogin(email, password) == Valid
      && reply.Replied? && reply.ok && Truthy(reply.token) && reply.user.Some?
    ensures r.navigatedTo.Some? ==>
      && r.session == SetUser(s, reply.token.value, reply.user, codec)
      && r.navigatedTo.value == HomeFor(reply.user.value)
      && r.error == None
    ensures r.session != s ==> r.session.state.token.Some? && r.session.state.token.value != ""
    ensures (ValidateLogin(email, password) == Valid && reply.Replied? && !(reply.ok && Truthy(reply.token)))
      ==> r == LoginOutcome(s, Some(LOGIN_REJECTED), None)
    ensures (ValidateLogin(email, password) == Valid && reply.Threw?)
      ==> r == LoginOutcome(s, Some(ThrownMessage(reply.serverMsg, reply.message)), None)
  {
    match ValidateLogin(email, password)
    case Invalid(msg) => LoginOutcome(s, Some(msg), None)
    case Valid =>
      match reply
      case Threw(serverMsg, message) => LoginOutcome(s, Some(ThrownMessage(serverMsg, message)), None)
      case Replied(ok, token, user) =>
        if ok && Truthy(token) then
          var signedIn := SetUser(s, token.value, user, codec);
          match user
          case Some(p) => LoginOutcome(signedIn, None, Some(HomeFor(p)))
          case None => LoginOutcome(signedIn, Some(ThrownMessage(None, Some(missingUserError))), None)
        else LoginOutcome(s, Some(LOGIN_REJECTED), None)
  }
}
