# Cloud status core of SilverDemo, in Dafny

SilverDemo is an iOS demo of the `Silver` CloudKit helper library. This project models its two
deterministic decision layers:

- **`ContainerSimulator`** (module `Simulator`). This is a fault-injecting stand-in for a CloudKit container.
  - It has one mutable setting, the error rate. The setter clamps it to [0, 1].
  - Unless the rate is 0, each of its three backend operations draws a random number and compares it with the rate. At rate 0 the guard returns before anything is drawn.
  - A failing call hands its completion handler a fixed failure status and a synthetic `CKError`. The delivery happens after a one-second delay. The error's code comes from an eight-entry catalog and its retry-after is 3.
  - A succeeding call hands over the nominal status at once.
  - `requestApplicationPermission` still attaches a random error when it succeeds. The model keeps this quirk.
- **The outcome dispatch of `AccountStatusViewController` and `DiscoverabilityViewController`** (modules `AccountStatusController` and `DiscoverabilityController`).
  - Each controller maps an account status, a permission status or an optional `CloudError` to exactly one result: continue, or present a problem screen.
  - The problem screen is described by a `Package`: message, title, problem type and optional seconds.
  - The two controllers differ in one case. The account controller handles `notAuthenticated`, while the discoverability controller sends it to its `default` branch, "Unexpected".

Module `Silver` holds the library types that the controllers switch over. It keeps only the cases those switches name, plus a catch-all `CloudError.Other` for the `default` branch. Module `Wrappers` holds `Option`, which stands for Swift optionals.

How the model represents the simulator's inputs and deliveries:
- The randomness is passed in as parameters:
  - `raw` is the value `arc4random()` returned, at most `UInt32Max`;
  - `pick` is the catalog index `randomElement()` chose.
- Each completion-handler call is one returned `Delivery`: the status, the optional error, and a `Timing` tag, either `Inline` or `After(seconds)`. A method returns exactly one value, so "the handler runs exactly once" holds by construction.
- The rate is a `real`. The draw ratio `raw / UInt32Max` is computed exactly.

The doc comment on the rate ("The frequency that a simulated error will occur (0-1)", Cloud/Simulator.swift:18) suggests that a rate of 1 makes every call fail. The code compares `rand < rate` with `rand` in [0, 1] inclusive, so at rate 1 the maximal draw still succeeds. The model follows the code, computed in exact arithmetic:
- `FullRateFailsBelowMax` states this exception;
- `FailingDrawsTotal` shows that, in exact arithmetic, exactly `UInt32Max` of the `UInt32Max + 1` draws fail at rate 1.

In the program's `Float` arithmetic, more draws succeed at rate 1: every draw from 4294967168 to 4294967295 rounds to 2^32 and gives a ratio of 1. See the `Float` line under "## Left out".

## Model

| member | source | states |
|---|---|---|
| `Simulator.Clamp` | Cloud/Simulator.swift:36-38 | `max(0, min(1, r))` always lies in [0, 1]. It keeps an in-range value, sends a negative value to 0 and sends a value above 1 to 1. |
| `Simulator.ClampIdempotent` | Cloud/Simulator.swift:36-38 | Clamping an already clamped rate changes nothing, so setting the same rate twice has no further effect. |
| `Simulator.ContainerSimulator.constructor` | Cloud/Simulator.swift:19 | A new simulator starts at error rate 1. |
| `Simulator.ContainerSimulator.EnableSimulatedErrors` | Cloud/Simulator.swift:36-38 | The stored rate becomes the clamped argument, so the object invariant 0 ≤ rate ≤ 1 holds. The three operations and `ShouldThrowError` require that invariant. An in-range argument is stored unchanged. |
| `Simulator.DrawRatio` | Cloud/Simulator.swift:82 | The draw ratio lies in [0, 1]. It equals 1 exactly for the maximal draw. |
| `Simulator.NeverFailsAtZeroRate` | Cloud/Simulator.swift:77-80 | A rate ≤ 0 never fails, whatever the draw (the guard). |
| `Simulator.FullRateFailsBelowMax` | Cloud/Simulator.swift:82-83 | At rate 1 a call fails exactly when the draw is below `UInt32.max`. |
| `Simulator.FailThreshold` | Cloud/Simulator.swift:82-83 | For a positive rate, `rand < rate` holds exactly for the draws below `Ceil(rate * UInt32.max)`. |
| `Simulator.FailureMonotoneInRate` | Cloud/Simulator.swift:77-83 | Raising the rate never turns a failing draw into a succeeding one. |
| `Simulator.FailingDraws` | Cloud/Simulator.swift:77-83 | The reference count of the draws below n on which the comparison fails; `FailingDrawsCount` and `FailingDrawsTotal` state its value. Its own contract only bounds it by n. |
| `Simulator.FailingDrawsCount` | Cloud/Simulator.swift:77-83 | For a positive rate, the number of failing draws among the first n equals `min(n, Ceil(rate * UInt32.max))`. |
| `Simulator.FailingDrawsTotal` | Cloud/Simulator.swift:77-83 | For a rate in (0, 1], exactly `Ceil(rate * UInt32.max)` of the `UInt32.max + 1` possible draws fail, in exact arithmetic. At rate 1 that is all draws but one. |
| `Simulator.NoFailingDrawsAtZeroRate` | Cloud/Simulator.swift:77-80 | For a rate ≤ 0, no draw fails. |
| `Simulator.ContainerSimulator.FailingDrawsAtCurrentRate` | Cloud/Simulator.swift:19-38 | For the rate a simulator holds, exactly `Ceil(rate * UInt32.max)` of all draws fail, and none at rate 0, in exact arithmetic. |
| `Simulator.ContainerSimulator.ShouldThrowError` | Cloud/Simulator.swift:77-84 | Returns false for a rate ≤ 0. Otherwise it returns true exactly when the draw is below the rate's threshold. |
| `Simulator.CreateError` | Cloud/Simulator.swift:92-99 | The error has domain `CKErrorDomain`, the given code and a retry-after of 3. |
| `Simulator.ContainerSimulator.CreateRandomError` | Cloud/Simulator.swift:86-90 | The code is the chosen member of the catalog followed by the additional codes. The error has a retry-after of 3 and domain `CKErrorDomain`. |
| `Simulator.ContainerSimulator.AccountStatus` | Cloud/Simulator.swift:44-53 | On failure it delivers `(.couldNotDetermine, catalog error)` after the delay. Otherwise it delivers `(.available, nil)` inline. An error is present exactly when the delivery is delayed. |
| `Simulator.ContainerSimulator.PermissionStatus` | Cloud/Simulator.swift:55-64 | On failure it delivers `(.couldNotComplete, catalog error)` after the delay. Otherwise it delivers `(.granted, nil)` inline. |
| `Simulator.ContainerSimulator.RequestApplicationPermission` | Cloud/Simulator.swift:66-75 | The failure path matches `PermissionStatus`. The success path delivers `.granted` inline with a non-nil catalog error. Every delivery carries an error. |
| `Simulator.ZeroRateScenario` | Cloud/Simulator.swift:36-75 | After setting the rate to -0.5, the account status is `(.available, nil)` inline. A permission request is granted inline and still reports an error. |
| `Simulator.FullRateScenario` | Cloud/Simulator.swift:36-53 | After setting the rate to 1.7, any draw below the maximum delivers `.couldNotDetermine` after the delay. The error comes from the catalog and has retry-after 3. |
| `AccountStatusController.OutcomeFailed` | Cloud/ViewControllers/AccountStatusViewController.swift:149-151 | The failure route carries its package unchanged. |
| `AccountStatusController.HandleSuccess` | Cloud/ViewControllers/AccountStatusViewController.swift:18-29 | Continues exactly for `.available`. Every other status yields an awkward package with its own message and no seconds. |
| `AccountStatusController.HandleError` | Cloud/ViewControllers/AccountStatusViewController.swift:31-54 | Never continues. `nil` and unhandled kinds get "Unexpected" with the fixed message; handled kinds keep their message. Seconds are set exactly for the time-bounded kinds. The type is `.error` exactly for network failure, lost response and unexpected. |
| `AccountStatusController.UnexpectedError` | Cloud/ViewControllers/AccountStatusViewController.swift:141-147 | The unexpected package has the fixed message, title "Unexpected", type `.error` and no seconds. |
| `AccountStatusController.SuccessTitles` | Cloud/ViewControllers/AccountStatusViewController.swift:62-84 | The titles are "Could Not Determine", "No Account" and "Restricted". |
| `AccountStatusController.ErrorTitles` | Cloud/ViewControllers/AccountStatusViewController.swift:88-139 | Each of the seven handled error kinds has its fixed title. |
| `AccountStatusController.ErrorTitleIdentifiesKind` | Cloud/ViewControllers/AccountStatusViewController.swift:36-147 | Equal titles imply the same error kind: every handled kind gets a title of its own. |
| `DiscoverabilityController.HandleSuccess` | Cloud/ViewControllers/DiscoverabilityViewController.swift:17-28 | Continues exactly for `.granted`. `.couldNotComplete` is presented as the account path's "Could Not Determine" and `.denied` as "Look Me Up", both awkward, with the message kept and no seconds. `.initialState` is excluded by the precondition (`fatalError`). |
| `DiscoverabilityController.DeniedPackage` | Cloud/ViewControllers/DiscoverabilityViewController.swift:53-59 | The denial package keeps the message and has title "Look Me Up", type `.awkward` and no seconds. |
| `DiscoverabilityController.HandleError` | Cloud/ViewControllers/DiscoverabilityViewController.swift:30-51 | Never continues. `nil`, `notAuthenticated` and unhandled kinds yield the unexpected package. Handled kinds keep their message. |
| `DiscoverabilityController.ErrorHandlersDifferOnlyOnNotAuthenticated` | Cloud/ViewControllers/DiscoverabilityViewController.swift:35-50 | The two controllers' error results differ exactly for `notAuthenticated`: "Unexpected" here, "Not Authenticated" on the account path. |

## Left out

- Float arithmetic in `shouldThrowError`: the model computes the ratio and the rate as exact reals. In `Float`, `UInt32.max` and every draw from 4294967168 up round to 2^32 and yield a ratio of 1, so at rate 1 the program fails on 2^32 − 128 draws, not on `UInt32Max` of them as the exact counts of `FailingDrawsTotal` say. NaN rates are also not modelled.
- `arc4random()` and `randomElement()`: they become the parameters `raw` and `pick`. The model makes no statement about their distribution beyond counting draws.
- The wall-clock timing of `delay` (`DispatchQueue.main.asyncAfter`): only the tag that says which branch is delayed, and by how long, is modelled.
- `publicCloudDatabase` just calls `fatalError()`, so it is not modelled.
- The permission argument of the two permission operations: the simulator ignores it, so the model does not take it.
- Construction details of `NSError`/`CKError`: raw code values and the user-info dictionary beyond retry-after are not modelled.
- The `Silver` library (its `CKError` → `CloudError` translation and `CurrentUser`) is not part of this model. The text of `CloudError.unexpectedErrorMessage` is a stand-in, and no proof depends on it.
- The controllers' UIKit glue (`didFinishAnimation`, `performSegue`, `prepare(for:sender:)`, `DispatchQueue.main.async`): `OutcomeFailed` stops at the package handed to the segue. The two "must override" success hooks become the `Continue` result.
- `Cloud/Utility.swift` and `ConnectedViewController.swift` contain UI styling, a timer wrapper, a reachability probe and a button handler. They are not modelled.
