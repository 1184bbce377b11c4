/**
 * `DiscoverabilityViewController`: the same dispatch as the account
 * controller, for the "Look Me Up" permission. It reuses the account
 * controller's package builders, but its error switch has no case for
 * `notAuthenticated`, which therefore falls to `default`.
 */
module DiscoverabilityController {
  import opened Wrappers
  import opened Silver
  import Account = AccountStatusController

  /** `denied(_:)`: the "Look Me Up" problem. */
  function DeniedPackage(message: string): (p: Account.Package)
    ensures p.message == message
    ensures p.title == "Look Me Up"
    ensures p.problemType == Account.Awkward && p.seconds == None
  {
    Account.Package(message, "Look Me Up", Account.Awkward, None)
  }

  /**
   * `handle(success:)`: a granted permission continues; a status that could
   * not be completed is presented as on the account path, a denial as "Look
   * Me Up"; both are awkward, keep their message and have no retry delay.
   * `.initialState` is a programming error in the caller (`fatalError`).
   */
  function HandleSuccess(status: ApplicationPermissionStatus): (r: Account.Resolution)
    requires !status.InitialState?
    ensures r.Continue? <==> status.Granted?
    ensures r.Fail? ==> r.package.message == status.message
    ensures r.Fail? ==> r.package.problemType == Account.Awkward && r.package.seconds == None
    ensures status.CouldNotComplete? ==> r == Account.HandleSuccess(AccountStatus.CouldNotDetermine(status.message))
    ensures status.Denied? ==> r.package.title == "Look Me Up"
  {
    match status
    case Granted => Account.Continue
    case CouldNotComplete(message) => Account.OutcomeFailed(Account.CouldNotDeterminePackage(message))
    case Denied(message) => Account.OutcomeFailed(DeniedPackage(message))
  }

  /** The kinds this controller names in its switch: all the account controller's but `notAuthenticated`. */
  predicate Handled(error: CloudError) {
    !error.Other? && !error.NotAuthenticated?
  }

  /**
   * `handle(error:)`: never continues; `nil`, `notAuthenticated` and the
   * unhandled kinds present "Unexpected" with the fixed message.
   */
  function HandleError(error: Option<CloudError>): (r: Account.Resolution)
    ensures r.Fail?
    ensures r.package.message ==
      if error.Some? && Handled(error.value) then error.value.message else UnexpectedErrorMessage
    ensures r.package.title == "Unexpected" <==> error.None? || !Handled(error.value)
    ensures error.None? || !Handled(error.value) ==> r == Account.UnexpectedError()
  {
    match error
    case None => Account.UnexpectedError()
    case Some(e) =>
      match e
      case IncompatibleVersion(message) => Account.OutcomeFailed(Account.IncompatibleVersionPackage(message))
      case NetworkFailure(message, seconds) => Account.OutcomeFailed(Account.NetworkFailurePackage(message, seconds))
      case OperationCancelled(message) => Account.OutcomeFailed(Account.OperationCancelledPackage(message))
      case RequestRateLimited(message, seconds) =>
        Account.OutcomeFailed(Account.RequestRateLimitedPackage(message, seconds))
      case ServerResponseLost(message) => Account.OutcomeFailed(Account.ServerResponseLostPackage(message))
      case ServiceUnavailable(message, seconds) =>
        Account.OutcomeFailed(Account.ServiceUnavailablePackage(message, seconds))
      case _ => Account.UnexpectedError()
  }

  /**
   * The two controllers present an error differently exactly when it is
   * `notAuthenticated`: "Not Authenticated" on the account path, "Unexpected"
   * here.
   */
  lemma ErrorHandlersDifferOnlyOnNotAuthenticated(error: Option<CloudError>)
    ensures HandleError(error) != Account.HandleError(error) <==> error.Some? && error.value.NotAuthenticated?
    ensures error.Some? && error.value.NotAuthenticated? ==>
      HandleError(error).package.title == "Unexpected" &&
      Account.HandleError(error).package.title == "Not Authenticated"
  {
  }
}
