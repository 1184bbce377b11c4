/**
 * `AccountStatusViewController`: turns the outcome of the account lookup into
 * exactly one of two results, going on to the next step or presenting a
 * problem screen described by a `Package`.
 */
module AccountStatusController {
  import opened Wrappers
  import opened Silver

  /** `ProblemViewController.ProblemType`. */
  datatype ProblemType = Awkward | Error

  /** `Package`: the tuple handed to the problem screen. */
  datatype Package = Package(message: string, title: string, problemType: ProblemType, seconds: Option<int>)

  /** Continue (the controller's success hook) or `outcomeFailed(package)`. */
  datatype Resolution = Continue | Fail(package: Package)

  // Package builders, one per problem the controller can present.

  function CouldNotDeterminePackage(message: string): Package {
    Package(message, "Could Not Determine", Awkward, None)
  }

  function NoAccountPackage(message: string): Package {
    Package(message, "No Account", Awkward, None)
  }

  function RestrictedPackage(message: string): Package {
    Package(message, "Restricted", Awkward, None)
  }

  function IncompatibleVersionPackage(message: string): Package {
    Package(message, "Incompatible Version", Awkward, None)
  }

  function NetworkFailurePackage(message: string, seconds: int): Package {
    Package(message, "Network Failure", Error, Some(seconds))
  }

  function NotAuthenticatedPackage(message: string): Package {
    Package(message, "Not Authenticated", Awkward, None)
  }

  function OperationCancelledPackage(message: string): Package {
    Package(message, "Operation Cancelled", Awkward, None)
  }

  function RequestRateLimitedPackage(message: string, seconds: int): Package {
    Package(message, "Rate Limited", Awkward, Some(seconds))
  }

  function ServerResponseLostPackage(message: string): Package {
    Package(message, "Response Lost", Error, None)
  }

  function ServiceUnavailablePackage(message: string, seconds: int): Package {
    Package(message, "Service Unavailable", Awkward, Some(seconds))
  }

  function UnexpectedPackage(message: string): Package {
    Package(message, "Unexpected", Error, None)
  }

  /** `outcomeFailed(_:)`: the failure route, carrying the package unchanged. */
  function OutcomeFailed(package: Package): (r: Resolution)
    ensures r.Fail? && r.package == package
  {
    Fail(package)
  }

  /**
   * `handle(success:container:)`: an available account continues; every
   * other status presents an awkward problem with its own message and no
   * retry delay.
   */
  function HandleSuccess(status: AccountStatus): (r: Resolution)
    ensures r.Continue? <==> status.Available?
    ensures r.Fail? ==> r.package.message == status.message
    ensures r.Fail? ==> r.package.problemType == Awkward && r.package.seconds == None
  {
    match status
    case Available => Continue
    case CouldNotDetermine(message) => OutcomeFailed(CouldNotDeterminePackage(message))
    case NoAccount(message) => OutcomeFailed(NoAccountPackage(message))
    case Restricted(message) => OutcomeFailed(RestrictedPackage(message))
  }

  /** The kinds this controller names in its switch; the rest reach `default`. */
  predicate Handled(error: CloudError) {
    !error.Other?
  }

  /**
   * `handle(error:)`: never continues. A missing error or an unhandled kind
   * presents "Unexpected" with the library's fixed message; a handled kind
   * passes its own message through. Only the time-bounded kinds carry their
   * seconds, and only network failure, lost response and the unexpected case
   * are shown as errors rather than awkward situations.
   */
  function HandleError(error: Option<CloudError>): (r: Resolution)
    ensures r.Fail?
    ensures r.package.message ==
      if error.Some? && Handled(error.value) then error.value.message else UnexpectedErrorMessage
    ensures r.package.seconds ==
      if error.Some? && error.value.TimeBounded() then Some(error.value.seconds) else None
    ensures r.package.problemType == Error <==>
      error.None? || error.value.NetworkFailure? || error.value.ServerResponseLost? || !Handled(error.value)
    ensures r.package.title == "Unexpected" <==> error.None? || !Handled(error.value)
  {
    match error
    case None => UnexpectedError()
    case Some(e) =>
      match e
      case IncompatibleVersion(message) => OutcomeFailed(IncompatibleVersionPackage(message))
      case NetworkFailure(message, seconds) => OutcomeFailed(NetworkFailurePackage(message, seconds))
      case NotAuthenticated(message) => OutcomeFailed(NotAuthenticatedPackage(message))
      case OperationCancelled(message) => OutcomeFailed(OperationCancelledPackage(message))
      case RequestRateLimited(message, seconds) => OutcomeFailed(RequestRateLimitedPackage(message, seconds))
      case ServerResponseLost(message) => OutcomeFailed(ServerResponseLostPackage(message))
      case ServiceUnavailable(message, seconds) => OutcomeFailed(ServiceUnavailablePackage(message, seconds))
      case Other => UnexpectedError()
  }

  /** `unexpected(CloudError.unexpectedErrorMessage)`, shared by the nil and `default` branches. */
  function UnexpectedError(): (r: Resolution)
    ensures r == Fail(Package(UnexpectedErrorMessage, "Unexpected", Error, None))
  {
    OutcomeFailed(UnexpectedPackage(UnexpectedErrorMessage))
  }

  /** The title shown for each account status other than `.available`. */
  lemma SuccessTitles(message: string)
    ensures HandleSuccess(CouldNotDetermine(message)).package.title == "Could Not Determine"
    ensures HandleSuccess(NoAccount(message)).package.title == "No Account"
    ensures HandleSuccess(Restricted(message)).package.title == "Restricted"
  {
  }

  /** The title shown for each error kind the controller handles. */
  lemma ErrorTitles(message: string, seconds: int)
    ensures HandleError(Some(IncompatibleVersion(message))).package.title == "Incompatible Version"
    ensures HandleError(Some(NetworkFailure(message, seconds))).package.title == "Network Failure"
    ensures HandleError(Some(NotAuthenticated(message))).package.title == "Not Authenticated"
    ensures HandleError(Some(OperationCancelled(message))).package.title == "Operation Cancelled"
    ensures HandleError(Some(RequestRateLimited(message, seconds))).package.title == "Rate Limited"
    ensures HandleError(Some(ServerResponseLost(message))).package.title == "Response Lost"
    ensures HandleError(Some(ServiceUnavailable(message, seconds))).package.title == "Service Unavailable"
  {
  }

  /**
   * Distinct error kinds are presented under distinct titles, so the problem
   * screen tells every handled kind apart; unhandled kinds all share one.
   */
  lemma ErrorTitleIdentifiesKind(a: CloudError, b: CloudError)
    requires HandleError(Some(a)).package.title == HandleError(Some(b)).package.title
    ensures a.IncompatibleVersion? <==> b.IncompatibleVersion?
    ensures a.NetworkFailure? <==> b.NetworkFailure?
    ensures a.NotAuthenticated? <==> b.NotAuthenticated?
    ensures a.OperationCancelled? <==> b.OperationCancelled?
    ensures a.RequestRateLimited? <==> b.RequestRateLimited?
    ensures a.ServerResponseLost? <==> b.ServerResponseLost?
    ensures a.ServiceUnavailable? <==> b.ServiceUnavailable?
    ensures a.Other? <==> b.Other?
  {
  }
}
