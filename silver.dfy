/**
 * The result types that the `Silver` library hands to the view controllers.
 * Only the cases that the controllers' switches name are modelled; every other
 * `CloudError` case is collapsed into the catch-all `Other`, which those
 * switches send to their `default` branch.
 */
module Silver {

  /** Outcome of asking for the current user's iCloud account status. */
  datatype AccountStatus =
    | Available
    | CouldNotDetermine(message: string)
    | NoAccount(message: string)
    | Restricted(message: string)

  /** Outcome of asking whether the user is discoverable by e-mail ("Look Me Up"). */
  datatype ApplicationPermissionStatus =
    | Granted
    | CouldNotComplete(message: string)
    | Denied(message: string)
    | InitialState

  /**
   * The domain errors the controllers distinguish. Three of them are
   * time-bounded and carry a retry-after in seconds.
   */
  datatype CloudError =
    | IncompatibleVersion(message: string)
    | NetworkFailure(message: string, seconds: int)
    | NotAuthenticated(message: string)
    | OperationCancelled(message: string)
    | RequestRateLimited(message: string, seconds: int)
    | ServerResponseLost(message: string)
    | ServiceUnavailable(message: string, seconds: int)
    | Other
  {
    /** The kinds that tell the user how long to wait before retrying. */
    predicate TimeBounded() {
      NetworkFailure? || RequestRateLimited? || ServiceUnavailable?
    }
  }

  /**
   * `CloudError.unexpectedErrorMessage`. Its text is defined inside the library
   * and is not part of this model; nothing proved here depends on the text.
   */
  const UnexpectedErrorMessage: string := "An unexpected error occurred."
}
