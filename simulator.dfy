/**
 * `ContainerSimulator`: a stand-in for the CloudKit container that fails on
 * purpose. Unless the error rate is 0, each backend operation draws a random
 * number and compares it with the rate; it either fails after a delay with a
 * synthetic `CKError`, or succeeds at once with the nominal status.
 *
 * The random sources are parameters: `raw` is the value `arc4random()`
 * returned (at most `UInt32Max`), `pick` the index `randomElement()` chose.
 * The asynchronous `delay` becomes a tag on the delivered result.
 */
module Simulator {
  import opened Wrappers

  /** `UInt32.max`, the largest value `arc4random()` can return. */
  const UInt32Max: nat := 4294967295

  /** `simulateErrorDelay`: seconds before a simulated error is delivered. */
  const SimulateErrorDelay: real := 1.0

  /** Retry-after, in seconds, stored in every synthetic error. */
  const SimulatedRetryAfter: int := 3

  /** `CKErrorDomain`, the domain of every synthetic error. */
  const CKErrorDomain: string := "CKErrorDomain"

  /** The `CKError.Code` values the simulator uses; `OtherCode` stands for any further code a caller adds. */
  datatype ErrorCode =
    | NetworkFailure
    | ServiceUnavailable
    | NetworkUnavailable
    | IncompatibleVersion
    | RequestRateLimited
    | OperationCancelled
    | ServerResponseLost
    | ZoneNotFound
    | OtherCode(name: string)

  /** `simulateErrorsPossibleCodes`: the catalog of errors that can be simulated. */
  const PossibleCodes: seq<ErrorCode> := [
    NetworkFailure,
    ServiceUnavailable,
    NetworkUnavailable,
    IncompatibleVersion,
    RequestRateLimited,
    OperationCancelled,
    ServerResponseLost,
    ZoneNotFound
  ]

  /** The part of a synthetic `CKError` the model keeps. */
  datatype SimulatedError = SimulatedError(domain: string, code: ErrorCode, retryAfter: int)

  /** `CKAccountStatus`, restricted to the values the simulator delivers. */
  datatype CKAccountStatus = CouldNotDetermine | Available

  /** `CKContainer_Application_PermissionStatus`, restricted to the values the simulator delivers. */
  datatype CKPermissionStatus = CouldNotComplete | Granted

  /** When the completion handler runs: inline, or after a `delay` of some seconds. */
  datatype Timing = Inline | After(seconds: real)

  /** The single invocation of a completion handler: its two arguments and when it happens. */
  datatype Delivery<S> = Delivery(status: S, error: Option<SimulatedError>, timing: Timing)

  /** `max(0, min(1, r))`. */
  function Clamp(r: real): (c: real)
    ensures 0.0 <= c <= 1.0
    ensures 0.0 <= r <= 1.0 ==> c == r
    ensures r < 0.0 ==> c == 0.0
    ensures r > 1.0 ==> c == 1.0
  {
    var upper := if r < 1.0 then r else 1.0;
    if 0.0 < upper then upper else 0.0
  }

  /** Clamping twice stores the same value as clamping once. */
  lemma ClampIdempotent(r: real)
    ensures Clamp(Clamp(r)) == Clamp(r)
  {
  }

  /** `Float(arc4random()) / Float(UInt32.max)`, computed exactly. */
  function DrawRatio(raw: nat): (q: real)
    requires raw <= UInt32Max
    ensures 0.0 <= q <= 1.0
    ensures q == 1.0 <==> raw == UInt32Max
  {
    raw as real / UInt32Max as real
  }

  /** The decision `shouldThrowError` takes for a given rate and draw. */
  predicate ShouldFail(rate: real, raw: nat)
    requires raw <= UInt32Max
  {
    rate > 0.0 && DrawRatio(raw) < rate
  }

  /** The least integer that is not below `x`. */
  function Ceil(x: real): (c: int)
    ensures x <= c as real < x + 1.0
  {
    if x.Floor as real == x then x.Floor else x.Floor + 1
  }

  /** A non-positive rate never fails, whatever the draw. */
  lemma NeverFailsAtZeroRate(rate: real, raw: nat)
    requires raw <= UInt32Max
    requires rate <= 0.0
    ensures !ShouldFail(rate, raw)
  {
  }

  /** At rate 1 every draw fails except the maximal one, whose ratio is exactly 1. */
  lemma FullRateFailsBelowMax(raw: nat)
    requires raw <= UInt32Max
    ensures ShouldFail(1.0, raw) <==> raw < UInt32Max
  {
  }

  /**
   * For a positive rate the comparison of the ratio with the rate is a
   * threshold on the raw draw: the first `Ceil(rate * UInt32Max)` draws fail.
   */
  lemma FailThreshold(rate: real, raw: nat)
    requires raw <= UInt32Max
    requires rate > 0.0
    ensures ShouldFail(rate, raw) <==> raw < Ceil(rate * UInt32Max as real)
  {
  }

  /** A higher rate fails on every draw on which a lower rate fails. */
  lemma FailureMonotoneInRate(low: real, high: real, raw: nat)
    requires raw <= UInt32Max
    requires low <= high
    ensures ShouldFail(low, raw) ==> ShouldFail(high, raw)
  {
  }

  /** How many of the draws `0, 1, …, n - 1` make a call fail at the given rate. */
  ghost function FailingDraws(rate: real, n: nat): (count: nat)
    requires n <= UInt32Max + 1
    ensures count <= n
  {
    if n == 0 then 0
    else FailingDraws(rate, n - 1) + (if ShouldFail(rate, n - 1) then 1 else 0)
  }

  /** Below any bound `n`, the failing draws are exactly those under the threshold. */
  lemma {:induction false} FailingDrawsCount(rate: real, n: nat)
    requires 0.0 < rate
    requires n <= UInt32Max + 1
    ensures FailingDraws(rate, n) == if n <= Ceil(rate * UInt32Max as real) then n else Ceil(rate * UInt32Max as real)
  {
    if n > 0 {
      FailingDrawsCount(rate, n - 1);
      FailThreshold(rate, n - 1);
    }
  }

  /**
   * Over all `UInt32Max + 1` equally likely draws, a rate in (0, 1] makes
   * exactly `Ceil(rate * UInt32Max)` of them fail; at rate 1 all but one.
   */
  lemma {:induction false} FailingDrawsTotal(rate: real)
    requires 0.0 < rate <= 1.0
    ensures FailingDraws(rate, UInt32Max + 1) == Ceil(rate * UInt32Max as real)
    ensures rate == 1.0 ==> FailingDraws(rate, UInt32Max + 1) == UInt32Max
  {
    FailingDrawsCount(rate, UInt32Max + 1);
  }

  /** A non-positive rate makes none of the draws fail. */
  lemma {:induction false} NoFailingDrawsAtZeroRate(rate: real, n: nat)
    requires rate <= 0.0
    requires n <= UInt32Max + 1
    ensures FailingDraws(rate, n) == 0
  {
    if n > 0 {
      NoFailingDrawsAtZeroRate(rate, n - 1);
    }
  }

  /** `createError(code:)`: a `CKError` in `CKErrorDomain` with the code and a retry-after of 3 seconds. */
  function CreateError(code: ErrorCode): (e: SimulatedError)
    ensures e.domain == CKErrorDomain
    ensures e.code == code
    ensures e.retryAfter == SimulatedRetryAfter
  {
    SimulatedError(CKErrorDomain, code, SimulatedRetryAfter)
  }

  /** What a failing call delivers after the delay, with the catalog entry `pick`. */
  function Failed<S>(status: S, pick: nat): (d: Delivery<S>)
    requires pick < |PossibleCodes|
  {
    Delivery(status, Some(CreateError(PossibleCodes[pick])), After(SimulateErrorDelay))
  }

  class ContainerSimulator {
    /**
     * The probability, between 0 and 1, that a call fails. The field is
     * private to the class, so only `EnableSimulatedErrors` changes it and
     * `Valid()` holds whenever an operation runs.
     */
    var simulateErrorRate: real

    ghost predicate Valid()
      reads this
    {
      0.0 <= simulateErrorRate <= 1.0
    }

    /** A new simulator fails every call except on the maximal draw. */
    constructor ()
      ensures Valid()
      ensures simulateErrorRate == 1.0
    {
      simulateErrorRate := 1.0;
    }

    /** `enableSimulatedErrors(errorRate:)`: stores the rate clamped to [0, 1]. */
    method EnableSimulatedErrors(errorRate: real)
      modifies this
      ensures Valid()
      ensures simulateErrorRate == Clamp(errorRate)
      ensures 0.0 <= errorRate <= 1.0 ==> simulateErrorRate == errorRate
    {
      simulateErrorRate := Clamp(errorRate);
    }

    /** `shouldThrowError()` for the draw `raw`. */
    method ShouldThrowError(raw: nat) returns (fail: bool)
      requires Valid()
      requires raw <= UInt32Max
      ensures fail == ShouldFail(simulateErrorRate, raw)
      ensures simulateErrorRate <= 0.0 ==> !fail
      ensures simulateErrorRate > 0.0 ==> (fail <==> raw < Ceil(simulateErrorRate * UInt32Max as real))
    {
      if simulateErrorRate <= 0.0 {
        return false;
      }
      var rand := raw as real / UInt32Max as real;
      fail := rand < simulateErrorRate;
      FailThreshold(simulateErrorRate, raw);
    }

    /**
     * At the rate currently stored, exactly `Ceil(rate * UInt32Max)` of the
     * `UInt32Max + 1` possible draws make `ShouldThrowError` fail, and none
     * when errors are switched off.
     */
    lemma FailingDrawsAtCurrentRate()
      requires Valid()
      ensures simulateErrorRate == 0.0 ==> FailingDraws(simulateErrorRate, UInt32Max + 1) == 0
      ensures simulateErrorRate > 0.0 ==>
        FailingDraws(simulateErrorRate, UInt32Max + 1) == Ceil(simulateErrorRate * UInt32Max as real)
    {
      if simulateErrorRate == 0.0 {
        NoFailingDrawsAtZeroRate(simulateErrorRate, UInt32Max + 1);
      } else {
        FailingDrawsTotal(simulateErrorRate);
      }
    }

    /**
     * `createRandomError(_:)`: an error whose code is the `pick`-th entry of
     * the catalog followed by `additionalCodes`.
     */
    method CreateRandomError(additionalCodes: seq<ErrorCode>, pick: nat) returns (e: SimulatedError)
      requires pick < |PossibleCodes + additionalCodes|
      ensures e.code in PossibleCodes + additionalCodes
      ensures pick < |PossibleCodes| ==> e.code == PossibleCodes[pick]
      ensures pick >= |PossibleCodes| ==> e.code == additionalCodes[pick - |PossibleCodes|]
      ensures e.domain == CKErrorDomain && e.retryAfter == SimulatedRetryAfter
    {
      var errors := PossibleCodes + additionalCodes;
      var code := errors[pick];
      e := CreateError(code);
    }

    /**
     * `accountStatus(completionHandler:)`: the handler runs once, with
     * `(.couldNotDetermine, error)` after the delay when the call fails and
     * with `(.available, nil)` inline otherwise.
     */
    method AccountStatus(raw: nat, pick: nat) returns (d: Delivery<CKAccountStatus>)
      requires Valid()
      requires raw <= UInt32Max
      requires pick < |PossibleCodes|
      ensures ShouldFail(simulateErrorRate, raw) ==> d == Failed(CKAccountStatus.CouldNotDetermine, pick)
      ensures !ShouldFail(simulateErrorRate, raw) ==> d == Delivery(CKAccountStatus.Available, None, Inline)
      ensures d.error.Some? <==> d.timing.After?
    {
      var fail := ShouldThrowError(raw);
      if fail {
        var error := CreateRandomError([], pick);
        d := Delivery(CKAccountStatus.CouldNotDetermine, Some(error), After(SimulateErrorDelay));
      } else {
        d := Delivery(CKAccountStatus.Available, None, Inline);
      }
    }

    /**
     * `status(forApplicationPermission:completionHandler:)`: `(.couldNotComplete, error)`
     * after the delay on failure, `(.granted, nil)` inline otherwise. The
     * permission asked about does not influence the result.
     */
    method PermissionStatus(raw: nat, pick: nat) returns (d: Delivery<CKPermissionStatus>)
      requires Valid()
      requires raw <= UInt32Max
      requires pick < |PossibleCodes|
      ensures ShouldFail(simulateErrorRate, raw) ==> d == Failed(CKPermissionStatus.CouldNotComplete, pick)
      ensures !ShouldFail(simulateErrorRate, raw) ==> d == Delivery(CKPermissionStatus.Granted, None, Inline)
      ensures d.error.Some? <==> d.timing.After?
    {
      var fail := ShouldThrowError(raw);
      if fail {
        var error := CreateRandomError([], pick);
        d := Delivery(CKPermissionStatus.CouldNotComplete, Some(error), After(SimulateErrorDelay));
      } else {
        d := Delivery(CKPermissionStatus.Granted, None, Inline);
      }
    }

    /**
     * `requestApplicationPermission(_:completionHandler:)`: like
     * `PermissionStatus`, except that the inline `.granted` delivery on success
     * also carries a freshly created random error.
     */
    method RequestApplicationPermission(raw: nat, pick: nat) returns (d: Delivery<CKPermissionStatus>)
      requires Valid()
      requires raw <= UInt32Max
      requires pick < |PossibleCodes|
      ensures ShouldFail(simulateErrorRate, raw) ==> d == Failed(CKPermissionStatus.CouldNotComplete, pick)
      ensures !ShouldFail(simulateErrorRate, raw) ==>
        d == Delivery(CKPermissionStatus.Granted, Some(CreateError(PossibleCodes[pick])), Inline)
      ensures d.error.Some?
      ensures d.status.Granted? <==> d.timing.Inline?
    {
      var fail := ShouldThrowError(raw);
      if fail {
        var error := CreateRandomError([], pick);
        d := Delivery(CKPermissionStatus.CouldNotComplete, Some(error), After(SimulateErrorDelay));
      } else {
        var error := CreateRandomError([], pick);
        d := Delivery(CKPermissionStatus.Granted, Some(error), Inline);
      }
    }
  }

  /**
   * A client at error rate 0 (asked for as -0.5): every operation succeeds
   * inline, and the permission request still reports its coexisting error.
   */
  method ZeroRateScenario(raw: nat, pick: nat) returns (account: Delivery<CKAccountStatus>, request: Delivery<CKPermissionStatus>)
    requires raw <= UInt32Max
    requires pick < |PossibleCodes|
    ensures account == Delivery(CKAccountStatus.Available, None, Inline)
    ensures request.status == CKPermissionStatus.Granted && request.timing == Inline && request.error.Some?
  {
    var simulator := new ContainerSimulator();
    simulator.EnableSimulatedErrors(-0.5);
    account := simulator.AccountStatus(raw, pick);
    request := simulator.RequestApplicationPermission(raw, pick);
  }

  /**
   * A client at full rate (asked for as 1.7): any draw but the maximal one
   * fails after the delay with a catalog error that asks to retry after 3 seconds.
   */
  method FullRateScenario(raw: nat, pick: nat) returns (account: Delivery<CKAccountStatus>)
    requires raw < UInt32Max
    requires pick < |PossibleCodes|
    ensures account.status == CKAccountStatus.CouldNotDetermine
    ensures account.timing == After(SimulateErrorDelay) && SimulateErrorDelay > 0.0
    ensures account.error.Some? && account.error.value.code in PossibleCodes
    ensures account.error.value.retryAfter == 3
  {
    var simulator := new ContainerSimulator();
    simulator.EnableSimulatedErrors(1.7);
    FullRateFailsBelowMax(raw);
    account := simulator.AccountStatus(raw, pick);
  }
}
