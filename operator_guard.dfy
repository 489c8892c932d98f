/**
 * The operator guard used by operator-only server actions and pages: the
 * current session (what `auth()` returns, or null) must have a user whose
 * role is OPERATOR.
 */
module OperatorGuard {
  import opened Wrappers
  import opened AuthConfig

  const UnauthorizedMessage := "Unauthorized: sign in required"
  const ForbiddenMessage := "Forbidden: operator access required"

  /** The session belongs to a signed-in user with the operator role. */
  predicate IsOperatorSession(session: Session?)
    reads session, if session == null then {} else {session.user}
  {
    session != null && session.user != null && session.user.role == Some(OperatorRole)
  }

  /**
   * `requireOperator`: the session itself when it is an operator's; otherwise
   * the error it throws, "Unauthorized" without a signed-in user and
   * "Forbidden" for a user of another role.
   */
  function RequireOperator(session: Session?): (r: Result<Session, string>)
    reads session, if session == null then {} else {session.user}
    ensures r.Ok? <==> IsOperatorSession(session)
    ensures r.Ok? ==> r.value == session
    ensures r.Err? ==> r.error == (if session == null || session.user == null then UnauthorizedMessage
                                   else ForbiddenMessage)
  {
    if session == null || session.user == null then Err(UnauthorizedMessage)
    else if session.user.role != Some(OperatorRole) then Err(ForbiddenMessage)
    else Ok(session)
  }

  /** `getOperatorSession`: the session when it is an operator's, null otherwise. */
  function GetOperatorSession(session: Session?): (r: Session?)
    reads session, if session == null then {} else {session.user}
    ensures r != null <==> IsOperatorSession(session)
    ensures r != null ==> r == session
  {
    if session == null || session.user == null then null
    else if session.user.role != Some(OperatorRole) then null
    else session
  }

  /** The two guards admit exactly the same sessions and hand back the same session. */
  lemma GuardsAdmitTheSame(session: Session?)
    ensures RequireOperator(session).Ok? <==> GetOperatorSession(session) != null
    ensures RequireOperator(session).Ok? ==> RequireOperator(session).value == GetOperatorSession(session)
  {
  }

  /**
   * A sign-in followed by the two callbacks: the provider's answer goes
   * through the `jwt` callback into the token and through the `session`
   * callback onto the session's user. A successful operator sign-in passes
   * the guard; a refused one leaves the token's earlier role in charge.
   */
  method SignInThenGuard(credentials: Option<Credentials>, operatorEmail: string, operatorPassword: string,
                         token: Token, session: Session)
    returns (r: Result<Session, string>)
    requires session.user != null
    modifies token, session.user
    ensures Authorize(credentials, operatorEmail, operatorPassword).Some? ==> r == Ok(session)
    ensures Authorize(credentials, operatorEmail, operatorPassword).None? ==>
              (r.Ok? <==> old(token.role) == Some(OperatorRole))
  {
    var user := Authorize(credentials, operatorEmail, operatorPassword);
    token.Jwt(user);
    var s := SessionCallback(session, token);
    r := RequireOperator(s);
  }
}
