/**
 * The signed-in caller and the error codes every action handler can raise.
 */
module Auth {
  import opened Wrappers
  import opened Content

  /**
   * The `ActionError` codes the handlers throw, and `InsertFailed`: the
   * database error an insert whose primary key is already taken throws. No
   * handler catches it, so it reaches the caller as an unhandled failure
   * rather than as an action error code.
   */
  datatype Error = Unauthorized | NotFound | BadRequest | PaymentRequired | InsertFailed

  /** `context.locals.user`: who is calling, and whether their plan is paid. */
  datatype User = User(id: Id, isPaid: bool)

  /** `requireUser`: the signed-in user, or UNAUTHORIZED when there is none. */
  function RequireUser(user: Option<User>): (r: Result<User, Error>)
    ensures r.Ok? <==> user.Some?
    ensures r.Ok? ==> r.value == user.value
    ensures r.Err? ==> r.error == Unauthorized
  {
    match user
    case Some(u) => Ok(u)
    case None => Err(Unauthorized)
  }
}
