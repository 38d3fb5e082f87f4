/** The session a request carries and the two guards that run before the
    protected routes: `login_required` and `admin_required`. */
module Middleware {
  import opened Common

  /** `req.session.user` as set by a successful login. */
  datatype SessionUser = SessionUser(id: int, username: string, isAdmin: bool)

  /** The mutable session object; `user` is `None` until a login succeeds. */
  class Session {
    var user: Option<SessionUser>

    constructor ()
      ensures user == None
    {
      user := None;
    }
  }

  /** What a guard does with a request: hand it on with `next()`, answer it
      with an error status, or throw (`req.session.user` on a request that has
      no session object), which Express turns into its own 500 answer. */
  datatype GuardOutcome = Next | Reject(status: int, error: string) | Crash

  /** The answer a guard that did not call `next()` sends. */
  function GuardFailure(g: GuardOutcome): Failure
    requires !g.Next?
  {
    match g
    case Reject(status, error) => HttpError(status, error)
    case Crash => InternalError
  }

  const LoginRequiredError: string := "Authentication required. Please log in."
  const AdminRequiredError: string := "Forbidden. Administrator access required."

  /** `login_required`: the request goes on iff it has a session holding a user. */
  function LoginRequired(session: Session?): (g: GuardOutcome)
    reads session
    ensures g.Next? <==> session != null && session.user.Some?
    ensures !g.Next? ==> g == Reject(401, LoginRequiredError)
  {
    if session != null && session.user.Some? then Next else Reject(401, LoginRequiredError)
  }

  /** `admin_required`: the request goes on iff the session user is an
      administrator; it reads `req.session.user` without checking the session. */
  function AdminRequired(session: Session?): (g: GuardOutcome)
    reads session
    ensures g.Next? <==> session != null && session.user.Some? && session.user.value.isAdmin
    ensures g.Crash? <==> session == null
    ensures g.Reject? ==> g == Reject(403, AdminRequiredError)
  {
    if session == null then Crash
    else if session.user.Some? && session.user.value.isAdmin then Next
    else Reject(403, AdminRequiredError)
  }

  /** Whatever passes `admin_required` also passes `login_required`. */
  lemma AdminPassesLogin(session: Session?)
    requires AdminRequired(session).Next?
    ensures LoginRequired(session).Next?
  {
  }

  /** With a session present, a request `login_required` rejects is rejected
      by `admin_required` too, with 403 rather than 401. */
  lemma LoginRejectedIsAdminRejected(session: Session?)
    requires session != null && !LoginRequired(session).Next?
    ensures AdminRequired(session) == Reject(403, AdminRequiredError)
  {
  }
}
