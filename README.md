# License verifier cache and date validation, modelled in Dafny

Two small pieces of decision logic from the MUI X packages.

**The license verifier** (`license_verifier.dfy`, module `LicenseVerifier`).
A commercial package asks the verifier for its license status. The package is
one of three: `x-data-grid-pro`, `x-data-grid-premium` or `x-date-pickers-pro`.
The verifier keeps a process-wide map from package to the last
`(license key, status)` pair.

- **Cache hit.** The map holds an entry for the package, and its key is strictly
  equal to the key configured now. An absent key equals an absent key. The
  cached status is returned. Nothing else happens.
- **Cache miss.** The verifier derives the accepted license scopes and the plan
  label from whether the package name contains `premium`. It then asks the
  license decoder for a status and overwrites the package's entry with the
  current key and that status. Each non-valid status fires exactly one error
  notifier, with that status's arguments. The status is returned.

The class `LicenseStatusCache` stands for the module-level map. Its method
`Verify` is the body of the hook. Three fields make up its state:

- `sharedLicenseStatuses`, the map;
- `emitted`, the log of notifier calls;
- `requests`, a ghost log of the decoder requests.

`Verify` is specified by the pure function `Step`. Whole sequences of calls are
handled by `Replay`. On top of these, the model proves:

- a hit is silent;
- a miss stores exactly what it returns;
- the dispatch table is total and exclusive;
- repeated calls with an unchanged key consult the decoder at most once;
- the cache is transparent: if every cached status is the decoder's verdict on
  its cached key (invariant `Decided`), every call returns the decoder's verdict
  on the current key.

The cache is keyed by package and license key only. `releaseInfo` is passed to
the decoder but is not part of the cache key. So a hit returns the cached status
whatever `releaseInfo` the caller passes (`CacheHit`, `Idempotent`), and
transparency holds when each package keeps one release descriptor
(`ReleaseFixed`). The notices name packages under the `@mui/` namespace, as in
the code.

**Date validation** (`validate_date.dfy`, module `DateValidation`).
`ValidateDate` returns `None` (the source's `null`) for a null value. For any
other value it returns the first failing rule, in this order: `invalidDate`,
`shouldDisableDate`, `shouldDisableMonth`, `shouldDisableYear`, `disableFuture`,
`disablePast`, `minDate`, `maxDate`. When every rule passes it returns `None`.
Dates are day numbers, so "before the day" is `<` and "after the day" is `>`.
The adapter is modelled by an arbitrary validity predicate and the current day.
The resolved `minDate` and `maxDate` are inputs. The result type
`Option<DateValidationError>` has exactly nine values: `None` and the eight error
tags.

`wrappers.dfy` holds the `Option` type shared by both modules.

## Model

| member | source | states |
|---|---|---|
| `LicenseVerifier.NameOfInjective` | packages/x-license-pro/src/useLicenseVerifier/useLicenseVerifier.ts:14-17 | `NameOf` gives the three names of the package union as literal strings. Distinct packages have distinct names. |
| `LicenseVerifier.Includes` | packages/x-license-pro/src/useLicenseVerifier/useLicenseVerifier.ts:36 | JavaScript's `includes`: some index where the needle occurs (`OccursAt`). The empty needle is always included. A needle that is found is no longer than the string. |
| `LicenseVerifier.PremiumMarker` | packages/x-license-pro/src/useLicenseVerifier/useLicenseVerifier.ts:36-40 | Of the three package names, only `x-data-grid-premium` contains `premium`. |
| `LicenseVerifier.AcceptedScopes` | packages/x-license-pro/src/useLicenseVerifier/useLicenseVerifier.ts:36-38 | `premium` is always accepted. The scopes are exactly `[premium]` for the premium grid and `[pro, premium]` otherwise. |
| `LicenseVerifier.ProAcceptedUnlessPremiumName` | packages/x-license-pro/src/useLicenseVerifier/useLicenseVerifier.ts:36-38 | `pro` is accepted exactly when the package name does not contain `premium`. |
| `LicenseVerifier.Plan` | packages/x-license-pro/src/useLicenseVerifier/useLicenseVerifier.ts:40 | The label is `Premium` or `Pro`. It is `Premium` exactly when the scopes are `[premium]`, and so exactly for the premium grid. |
| `LicenseVerifier.FullPackageNameStrips` | packages/x-license-pro/src/useLicenseVerifier/useLicenseVerifier.ts:49 | The full name is the `@mui/` prefix followed by the package name. Stripping the five-character prefix gives the package name back. |
| `LicenseVerifier.Dispatch` | packages/x-license-pro/src/useLicenseVerifier/useLicenseVerifier.ts:49-61 | At most one notification fires, and none exactly for `Valid`. A fired notification reports the decided status and carries the plan label and/or `@mui/` name its notifier takes. |
| `LicenseVerifier.DispatchExclusive` | packages/x-license-pro/src/useLicenseVerifier/useLicenseVerifier.ts:51-61 | For a non-valid status, a notification that reports it with the right arguments is the only one fired. |
| `LicenseVerifier.Step` | packages/x-license-pro/src/useLicenseVerifier/useLicenseVerifier.ts:29-63 | A hit (`IsHit`: an entry exists and its key is strictly equal to the current key) is exactly the case where no decoder request is made. A hit returns the cached status, leaves the map as it was and emits nothing. A miss sends `RequestFor`'s request to the decoder, returns its verdict and emits that verdict's `Dispatch` with the plan label and `@mui/` name. After any call, the package's entry pairs the current key with the returned status. No other entry is added, removed or changed. |
| `LicenseVerifier.CacheHit` | packages/x-license-pro/src/useLicenseVerifier/useLicenseVerifier.ts:29-34 | When the entry's key equals the current key, absent keys included, the cached status is returned. The map is unchanged, nothing is emitted and the decoder is not consulted. |
| `LicenseVerifier.CacheMiss` | packages/x-license-pro/src/useLicenseVerifier/useLicenseVerifier.ts:36-63 | On a miss, the decoder gets the argument object `(releaseInfo, key, acceptedScopes, isProduction)` that `RequestFor` builds. Its verdict is returned. The map becomes the old map with the package's entry replaced by the current key and that verdict. The verdict's dispatch is emitted. |
| `LicenseVerifier.Idempotent` | packages/x-license-pro/src/useLicenseVerifier/useLicenseVerifier.ts:29-48 | A second call for the same package with an unchanged key returns the same status, emits nothing, consults nothing and leaves the map as the first call left it. |
| `LicenseVerifier.KeyChange` | packages/x-license-pro/src/useLicenseVerifier/useLicenseVerifier.ts:30-48 | After the key changes, the next call consults the decoder on the new key and returns its verdict, not the stale status. It caches the new pair. |
| `LicenseVerifier.StepKeepsDecided` | packages/x-license-pro/src/useLicenseVerifier/useLicenseVerifier.ts:41-48 | A call keeps the invariant that every cached status is the decoder's verdict on its cached key. Under it, the returned status is the decoder's verdict on the current key. |
| `LicenseVerifier.ReplayHits` | packages/x-license-pro/src/useLicenseVerifier/useLicenseVerifier.ts:29-34 | From a hit, any number of calls with the same package and key return the cached status. They leave the map unchanged, emit nothing and make no decoder request. |
| `LicenseVerifier.Memoised` | packages/x-license-pro/src/useLicenseVerifier/useLicenseVerifier.ts:29-48 | Over any run of calls for one package with an unchanged key, the decoder is consulted at most once and at most one notification fires. All results are equal. |
| `LicenseVerifier.ReplayTransparent` | packages/x-license-pro/src/useLicenseVerifier/useLicenseVerifier.ts:41-48 | From a cache that keeps the invariant, each call in a run returns the decoder's verdict on that call's key. Each package keeps one release descriptor. The invariant still holds at the end. |
| `LicenseVerifier.MissingKeyScenario` | packages/x-license-pro/src/useLicenseVerifier/useLicenseVerifier.ts:55-56 | With no key, the date pickers' first call is decided `NotFound`. It emits only the missing-key notice with plan `Pro` and name `@mui/x-date-pickers-pro`. |
| `LicenseVerifier.LicenseStatusCache.constructor` | packages/x-license-pro/src/useLicenseVerifier/useLicenseVerifier.ts:19-21 | The shared map starts empty. No notification has fired and no request has been made. |
| `LicenseVerifier.LicenseStatusCache.Verify` | packages/x-license-pro/src/useLicenseVerifier/useLicenseVerifier.ts:28-63 | Returns `Step`'s status and sets the map to `Step`'s map. It appends `Step`'s notifications to the log and `Step`'s request, if any, to the request log. |
| `LicenseVerifier.KeyReplacedScenario` | packages/x-license-pro/src/useLicenseVerifier/useLicenseVerifier.ts:29-63 | A run of three calls for `x-data-grid-premium` on an empty cache: a key the decoder finds valid, the same key again, then a different key it finds invalid. The results are `[Valid, Valid, Invalid]`. The only notification is the invalid-key one. The decoder gets exactly two requests, for the first key and then the second, each with scopes `[premium]`. The map ends as the single entry `x-data-grid-premium ↦ (second key, Invalid)`. |
| `DateValidation.ValidateDate` | packages/x-date-pickers/src/internals/utils/validation/validateDate.ts:17-58 | Null gives `None`. A reported error is a failing rule and every earlier rule passes. `None` for a non-null value means every rule passes. `Fails` states each rule's condition as the code's cases do (:32-54). `Fires` is the `Boolean(cb && cb(value))` guard of the three callbacks (:35-42): the callback is present and returns true. |
| `DateValidation.FirstFailing` | packages/x-date-pickers/src/internals/utils/validation/validateDate.ts:31-57 | Reference definition over a list of rules. A result is a listed failing rule. `None` means no listed rule fails. The first failing position is the result. |
| `DateValidation.ValidateIsFirstFailing` | packages/x-date-pickers/src/internals/utils/validation/validateDate.ts:31-57 | For a non-null value, the validator equals the first failing rule of the order `invalidDate` … `maxDate`. |
| `DateValidation.NullIsValid` | packages/x-date-pickers/src/internals/utils/validation/validateDate.ts:23-25 | A null value gives no error, whatever the props and adapter. |
| `DateValidation.InvalidDateFirst` | packages/x-date-pickers/src/internals/utils/validation/validateDate.ts:32-33 | A non-null value the adapter calls invalid always gives `invalidDate`, ahead of every other rule. |
| `DateValidation.FirstMatchWins` | packages/x-date-pickers/src/internals/utils/validation/validateDate.ts:31-55 | If a rule fails and every earlier rule passes, that rule is the result. |
| `DateValidation.AbsentCallbacksNeverFire` | packages/x-date-pickers/src/internals/utils/validation/validateDate.ts:35-42 | An absent `shouldDisableDate`, `shouldDisableMonth` or `shouldDisableYear` callback never yields its error. |
| `DateValidation.FlagsSwitchOffRules` | packages/x-date-pickers/src/internals/utils/validation/validateDate.ts:44-48 | With `disableFuture` false the result is never `disableFuture`. With `disablePast` false it is never `disablePast`. |
| `DateValidation.BoundsErrorsNeedBounds` | packages/x-date-pickers/src/internals/utils/validation/validateDate.ts:50-54 | `minDate` only for a day before the resolved minimum. `maxDate` only for a day after the resolved maximum. |

## Left out

- `React.useMemo` and its dependency list (useLicenseVerifier.ts:27, 64): render-time memoisation by the framework. `Verify` models only the callback's body, called whenever the caller wants a status.
- The license decoder `verifyLicense` (key decoding, signature and expiry checks) is not part of this model. It is the parameter `decide`, a total and therefore deterministic function of its request. Claims such as "no key gives `NotFound`" belong to it, so `MissingKeyScenario` takes that verdict as a hypothesis.
- `LicenseInfo.getLicenseKey()` is not part of this model. The current key is the parameter `licenseKey: Option<string>`.
- `process.env.NODE_ENV === 'production'` is the boolean parameter `isProduction`.
- The text and console output of the `show...Error` notifiers are left out. Each call is logged as a `LicenseError` value carrying its arguments.
- Concurrency and atomic replacement of cache entries are left out: the code runs single-threaded and each entry is replaced whole.
- `applyDefaultDate` is not part of this model. The already-resolved optional `minDate` and `maxDate` are inputs (`Bounds`).
- The date library behind `adapter.utils` is left out: calendar, time zones and time of day. A date is a day number, `isValid` is an arbitrary predicate, and the clock reading `adapter.utils.date()` is the input `Adapter.now`.
- The `Validator` type and the `useValidation` hook machinery are left out.
- `DateValidation.ValidateDate` treats only `null` as the null value, as the strict comparison in the code does. An `undefined` value is not modelled.
