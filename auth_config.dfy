/**
 * The authentication configuration: one credentials provider that knows a
 * single operator account from the environment, the callbacks that carry the
 * operator's role from the sign-in into the token and from the token into the
 * session, the session check for the operator area, and the choice of the
 * signing secret.
 *
 * The environment is passed in: `operatorEmail` is `OPERATOR_EMAIL ?? ""`
 * and `operatorPassword` is `OPERATOR_PASSWORD ?? ""`.
 */
module AuthConfig {
  import opened Wrappers
  import opened Text
  import Middleware

  /** The two credential fields as submitted; None when a field is missing. */
  datatype Credentials = Credentials(email: Option<string>, password: Option<string>)

  /** The user object a successful sign-in yields. */
  datatype AuthUser = AuthUser(id: string, email: string, name: string, role: string)

  const OperatorRole := "OPERATOR"

  /**
   * `authorize`: the normalised e-mail must equal the configured operator
   * e-mail, which must not be empty, and the password must equal the
   * configured password exactly.
   */
  function Authorize(credentials: Option<Credentials>, operatorEmail: string, operatorPassword: string)
    : (r: Option<AuthUser>)
    ensures r.Some? <==>
      && credentials.Some?
      && credentials.value.email.Some? && credentials.value.email.value != []
      && credentials.value.password.Some? && credentials.value.password.value != []
      && operatorEmail != []
      && NormalizeEmail(credentials.value.email.value) == operatorEmail
      && credentials.value.password.value == operatorPassword
    ensures r.Some? ==> r.value == AuthUser("operator", operatorEmail, "Operator", OperatorRole)
  {
    if credentials.None? then None
    else
      var c := credentials.value;
      if c.email.None? || c.email.value == [] || c.password.None? || c.password.value == [] then None
      else
        var email := NormalizeEmail(c.email.value);
        if operatorEmail != [] && email == operatorEmail && c.password.value == operatorPassword then
          Some(AuthUser("operator", email, "Operator", OperatorRole))
        else None
  }

  /**
   * The configured e-mail is compared with the trimmed, lower-cased input
   * but is not normalised itself: a configured e-mail holding an upper-case
   * letter or surrounded by white space admits no sign-in at all.
   */
  lemma UnnormalisedOperatorEmailLocksOut(credentials: Option<Credentials>, operatorEmail: string,
                                          operatorPassword: string)
    requires operatorEmail != []
    requires (exists i :: 0 <= i < |operatorEmail| && IsUpper(operatorEmail[i]))
             || IsJsSpace(operatorEmail[0]) || IsJsSpace(operatorEmail[|operatorEmail| - 1])
    ensures Authorize(credentials, operatorEmail, operatorPassword).None?
  {
  }

  /** With no operator password configured, nobody signs in. */
  lemma NoPasswordLocksOut(credentials: Option<Credentials>, operatorEmail: string)
    ensures Authorize(credentials, operatorEmail, "").None?
  {
  }

  /** Any capitalisation or padding of the operator's e-mail signs in with the right password. */
  lemma OperatorSignsIn(email: string, operatorEmail: string, operatorPassword: string)
    requires operatorEmail != [] && operatorPassword != []
    requires email != [] && NormalizeEmail(email) == operatorEmail
    ensures Authorize(Some(Credentials(Some(email), Some(operatorPassword))), operatorEmail, operatorPassword)
         == Some(AuthUser("operator", operatorEmail, "Operator", OperatorRole))
  {
  }

  // ---------------------------------------------------------------- token and session

  /** The signed token's claims that the callbacks touch. */
  class Token {
    var role: Option<string>
    var email: Option<string>

    constructor (role: Option<string>, email: Option<string>)
      ensures this.role == role && this.email == email
    {
      this.role := role;
      this.email := email;
    }

    /** The `jwt` callback: on sign-in the user's role and e-mail are copied in; otherwise the token stays. */
    method Jwt(user: Option<AuthUser>)
      modifies this
      ensures user.Some? ==> role == Some(user.value.role) && email == Some(user.value.email)
      ensures user.None? ==> role == old(role) && email == old(email)
    {
      if user.Some? {
        role := Some(user.value.role);
        email := Some(user.value.email);
      }
    }
  }

  /** The user part of a session. */
  class SessionUser {
    var email: Option<string>
    var name: Option<string>
    var role: Option<string>

    constructor (email: Option<string>, name: Option<string>)
      ensures this.email == email && this.name == name && role.None?
    {
      this.email := email;
      this.name := name;
      role := None;
    }
  }

  /** A session as the auth library hands it to the callbacks; `user` may be absent. */
  class Session {
    var user: SessionUser?

    constructor (user: SessionUser?)
      ensures this.user == user
    {
      this.user := user;
    }
  }

  /** The `session` callback: the token's role is copied onto the session's user, if there is one. */
  method SessionCallback(session: Session, token: Token) returns (r: Session)
    modifies session.user
    ensures r == session && session.user == old(session.user)
    ensures session.user != null ==>
      && session.user.role == token.role
      && session.user.email == old(session.user.email) && session.user.name == old(session.user.name)
  {
    if session.user != null {
      session.user.role := token.role;
    }
    r := session;
  }

  // ---------------------------------------------------------------- access and secret

  /** The `authorized` callback: a guarded path needs a signed-in user; every other path is open. */
  function Authorized(pathname: string, hasUser: bool): (ok: bool)
    ensures ok <==> !Middleware.IsGuarded(pathname) || hasUser
  {
    if StartsWith(pathname, "/admin") && !Middleware.IsSignInPage(pathname) then hasUser else true
  }

  /**
   * The middleware and the session check agree on what they guard: a request
   * one of them turns away is for a guarded path, and the sign-in pages are
   * open to both.
   */
  lemma GuardsAgree(pathname: string, cookies: map<string, string>, hasUser: bool)
    ensures Middleware.Decide(pathname, cookies).Redirect? ==> !Authorized(pathname, false)
    ensures !Authorized(pathname, hasUser) ==> Middleware.IsGuarded(pathname)
    ensures Middleware.IsSignInPage(pathname) ==>
              Authorized(pathname, hasUser) && Middleware.Decide(pathname, cookies) == Middleware.Next
  {
  }

  const DevFallbackSecret := "dev-fallback-secret-not-for-production"

  /**
   * The signing secret: `NEXTAUTH_SECRET`, else `AUTH_SECRET` (an empty value
   * counts as unset), else none in production and a fixed development
   * fallback elsewhere.
   */
  function FinalSecret(nextAuthSecret: Option<string>, authSecret: Option<string>, nodeEnv: Option<string>)
    : (r: Option<string>)
    ensures r != Some([])
    ensures nextAuthSecret.Some? && nextAuthSecret.value != [] ==> r == nextAuthSecret
    ensures ((nextAuthSecret.None? || nextAuthSecret.value == []) && authSecret.Some? && authSecret.value != [])
              ==> r == authSecret
    ensures r.None? <==>
      (nextAuthSecret.None? || nextAuthSecret.value == []) && (authSecret.None? || authSecret.value == [])
      && nodeEnv == Some("production")
    ensures ((nextAuthSecret.None? || nextAuthSecret.value == []) && (authSecret.None? || authSecret.value == [])
             && nodeEnv != Some("production")) ==> r == Some(DevFallbackSecret)
  {
    var computed := if nextAuthSecret.Some? && nextAuthSecret.value != [] then nextAuthSecret else authSecret;
    if computed.Some? && computed.value != [] then computed
    else if nodeEnv == Some("production") then None
    else Some(DevFallbackSecret)
  }
}
