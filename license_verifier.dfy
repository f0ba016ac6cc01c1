/**
 * The license verifier of the commercial packages: a process-wide cache of the
 * last (license key, status) pair per package, consulted before the opaque
 * license decoder, and the table that turns each non-valid status into exactly
 * one error notification.
 *
 * The decoder (`verifyLicense`) is a parameter `decide` of type
 * `Request -> LicenseStatus`: a total function, hence deterministic, whose
 * internals are not part of this model.  The notifiers `show...Error` become
 * `LicenseError` values appended to a log.
 */
module LicenseVerifier {
  import opened Wrappers

  // ---------------------------------------------------------------------------
  // Package names and the premium test
  // ---------------------------------------------------------------------------

  /** The closed set of commercial package names. */
  datatype PackageName = DataGridPro | DataGridPremium | DatePickersPro

  /** The textual name of a package, as it appears in the source's string union. */
  function NameOf(p: PackageName): string
  {
    match p
    case DataGridPro => "x-data-grid-pro"
    case DataGridPremium => "x-data-grid-premium"
    case DatePickersPro => "x-date-pickers-pro"
  }

  /** `sub` occurs in `s` starting at index `i`. */
  predicate OccursAt(s: string, sub: string, i: int)
  {
    0 <= i && i + |sub| <= |s| && s[i..i + |sub|] == sub
  }

  /** JavaScript's `s.includes(sub)`: `sub` occurs somewhere in `s`. */
  predicate Includes(s: string, sub: string)
    ensures |sub| == 0 ==> Includes(s, sub)
    ensures Includes(s, sub) ==> |sub| <= |s|
  {
    assert |sub| == 0 ==> OccursAt(s, sub, 0);
    exists i | 0 <= i <= |s| - |sub| :: OccursAt(s, sub, i)
  }

  /** Every character of a found substring is a character of the string. */
  lemma IncludesKeepsChars(s: string, sub: string, c: char)
    requires Includes(s, sub) && c in sub
    ensures c in s
  {
    var i :| 0 <= i <= |s| - |sub| && OccursAt(s, sub, i);
    var k :| 0 <= k < |sub| && sub[k] == c;
    assert s[i + k] == c;
  }

  /** Distinct packages have distinct names. */
  lemma NameOfInjective(p: PackageName, q: PackageName)
    requires NameOf(p) == NameOf(q)
    ensures p == q
  {
  }

  /** A name without the letter `m` does not contain "premium". */
  lemma NoMarkerWithoutM(name: string)
    requires 'm' !in name
    ensures !Includes(name, "premium")
  {
    if Includes(name, "premium") {
      IncludesKeepsChars(name, "premium", 'm');
    }
  }

  /** Of the three package names, only the premium data grid contains "premium". */
  lemma PremiumMarker(p: PackageName)
    ensures Includes(NameOf(p), "premium") <==> p == DataGridPremium
  {
    match p
    case DataGridPro =>
      NoMarkerWithoutM("x-data-grid-pro");
    case DatePickersPro =>
      NoMarkerWithoutM("x-date-pickers-pro");
    case DataGridPremium =>
      var s := "x-data-grid-premium";
      assert s[12..19] == "premium";
      assert OccursAt(s, "premium", 12);
  }

  // ---------------------------------------------------------------------------
  // Scopes, plan label, fully qualified name
  // ---------------------------------------------------------------------------

  datatype LicenseScope = Pro | Premium

  /** The license scopes that unlock a package. */
  function AcceptedScopes(p: PackageName): (r: seq<LicenseScope>)
    ensures Premium in r
    ensures r == [Premium] <==> p == DataGridPremium
    ensures r != [Premium] ==> r == [Pro, Premium]
  {
    PremiumMarker(p);
    if Includes(NameOf(p), "premium") then [Premium] else [Pro, Premium]
  }

  /** `pro` is accepted exactly when the package name does not contain "premium". */
  lemma ProAcceptedUnlessPremiumName(p: PackageName)
    ensures Pro in AcceptedScopes(p) <==> !Includes(NameOf(p), "premium")
  {
    PremiumMarker(p);
  }

  /** The plan label shown in error messages; it follows the same test as the scopes. */
  function Plan(p: PackageName): (r: string)
    ensures r == "Premium" || r == "Pro"
    ensures r == "Premium" <==> AcceptedScopes(p) == [Premium]
    ensures r == "Premium" <==> p == DataGridPremium
  {
    PremiumMarker(p);
    if Includes(NameOf(p), "premium") then "Premium" else "Pro"
  }

  /** The npm name of a package, under the `@mui/` namespace. */
  function FullPackageName(p: PackageName): string
  {
    "@mui/" + NameOf(p)
  }

  /** The npm name is the `@mui/` prefix followed by the package name: stripping the prefix gives the name back. */
  lemma FullPackageNameStrips(p: PackageName)
    ensures |FullPackageName(p)| == 5 + |NameOf(p)|
    ensures FullPackageName(p)[..5] == "@mui/" && FullPackageName(p)[5..] == NameOf(p)
  {
  }

  // ---------------------------------------------------------------------------
  // Statuses and the error dispatch table
  // ---------------------------------------------------------------------------

  datatype LicenseStatus = Valid | Invalid | OutOfScope | NotFound | ExpiredAnnual | ExpiredVersion

  /** One call of an error notifier, with the arguments it was given. */
  datatype LicenseError =
    | InvalidKeyError
    | PlanMismatchError
    | MissingKeyError(plan: string, packageName: string)
    | ExpiredAnnualError(plan: string)
    | ExpiredVersionError(packageName: string)

  /** The status each notifier reports: the inverse of the dispatch table. */
  function Reports(e: LicenseError): LicenseStatus
  {
    match e
    case InvalidKeyError => Invalid
    case PlanMismatchError => OutOfScope
    case MissingKeyError(_, _) => NotFound
    case ExpiredAnnualError(_) => ExpiredAnnual
    case ExpiredVersionError(_) => ExpiredVersion
  }

  /** The notifier arguments carried by `e` are exactly `plan` and `fullName`, where it has them. */
  predicate CarriesArguments(e: LicenseError, plan: string, fullName: string)
  {
    (e.MissingKeyError? ==> e.plan == plan && e.packageName == fullName) &&
    (e.ExpiredAnnualError? ==> e.plan == plan) &&
    (e.ExpiredVersionError? ==> e.packageName == fullName)
  }

  /** The notifications fired for a freshly decided status (an if/else-if chain in the source). */
  function Dispatch(status: LicenseStatus, plan: string, fullName: string): (r: seq<LicenseError>)
    ensures |r| <= 1
    ensures r == [] <==> status == Valid
    ensures forall e :: e in r ==> Reports(e) == status && CarriesArguments(e, plan, fullName)
  {
    match status
    case Valid => []
    case Invalid => [InvalidKeyError]
    case OutOfScope => [PlanMismatchError]
    case NotFound => [MissingKeyError(plan, fullName)]
    case ExpiredAnnual => [ExpiredAnnualError(plan)]
    case ExpiredVersion => [ExpiredVersionError(fullName)]
  }

  /** A status and the arguments determine the notification uniquely: the table is exclusive. */
  lemma DispatchExclusive(status: LicenseStatus, plan: string, fullName: string, e: LicenseError)
    requires status != Valid
    requires Reports(e) == status && CarriesArguments(e, plan, fullName)
    ensures Dispatch(status, plan, fullName) == [e]
  {
  }

  // ---------------------------------------------------------------------------
  // The cache step as a specification function
  // ---------------------------------------------------------------------------

  /** What is cached per package: the key that was decided and the status it got. */
  datatype Entry = Entry(key: Option<string>, status: LicenseStatus)

  /** The argument object handed to the license decoder. */
  datatype Request = Request(releaseInfo: string, licenseKey: Option<string>,
                             acceptedScopes: seq<LicenseScope>, isProduction: bool)

  /** The cache holds an entry for `p` whose key is (strictly) equal to the current key. */
  predicate IsHit(statuses: map<PackageName, Entry>, p: PackageName, licenseKey: Option<string>)
  {
    p in statuses && statuses[p].key == licenseKey
  }

  /** The request a miss sends to the decoder. */
  function RequestFor(p: PackageName, releaseInfo: string, licenseKey: Option<string>, isProduction: bool): Request
  {
    Request(releaseInfo, licenseKey, AcceptedScopes(p), isProduction)
  }

  /**
   * The observable effect of one verification: the status returned, the new
   * cache, the notifications fired, and the decoder request made (if any).
   */
  datatype Outcome = Outcome(status: LicenseStatus, statuses: map<PackageName, Entry>,
                             emitted: seq<LicenseError>, request: Option<Request>)

  /** One call of the verifier, as a function of the cache before it. */
  function Step(statuses: map<PackageName, Entry>, p: PackageName, releaseInfo: string,
                licenseKey: Option<string>, isProduction: bool, decide: Request -> LicenseStatus): (o: Outcome)
    ensures o.request.None? <==> IsHit(statuses, p, licenseKey)
    // a hit returns the cached status and changes nothing
    ensures IsHit(statuses, p, licenseKey) ==> o.status == statuses[p].status && o.statuses == statuses && o.emitted == []
    // a miss returns the decoder's verdict on the current key, stores it and notifies it
    ensures !IsHit(statuses, p, licenseKey) ==>
      && o.request == Some(RequestFor(p, releaseInfo, licenseKey, isProduction))
      && o.status == decide(o.request.value)
      && o.emitted == Dispatch(o.status, Plan(p), FullPackageName(p))
    // after any call, the entry for p pairs the current key with the returned status
    ensures p in o.statuses && o.statuses[p] == Entry(licenseKey, o.status)
    // and no other package's entry is touched
    ensures forall q :: q != p ==> (q in o.statuses <==> q in statuses)
    ensures forall q :: q in statuses && q != p ==> o.statuses[q] == statuses[q]
  {
    if IsHit(statuses, p, licenseKey) then
      Outcome(statuses[p].status, statuses, [], None)
    else
      var request := RequestFor(p, releaseInfo, licenseKey, isProduction);
      var status := decide(request);
      Outcome(status, statuses[p := Entry(licenseKey, status)],
              Dispatch(status, Plan(p), FullPackageName(p)), Some(request))
  }

  /** A hit returns the cached status, consults nothing, changes nothing and notifies nothing. */
  lemma CacheHit(statuses: map<PackageName, Entry>, p: PackageName, releaseInfo: string,
                 licenseKey: Option<string>, isProduction: bool, decide: Request -> LicenseStatus)
    requires p in statuses && statuses[p].key == licenseKey
    ensures var o := Step(statuses, p, releaseInfo, licenseKey, isProduction, decide);
      o.status == statuses[p].status && o.statuses == statuses && o.emitted == [] && o.request == None
  {
  }

  /**
   * A miss (no entry, or an entry for another key, absent and present keys
   * included) returns the decoder's verdict on the current key, stores exactly
   * that pair and fires the notification of that verdict.
   */
  lemma CacheMiss(statuses: map<PackageName, Entry>, p: PackageName, releaseInfo: string,
                  licenseKey: Option<string>, isProduction: bool, decide: Request -> LicenseStatus)
    requires p !in statuses || statuses[p].key != licenseKey
    ensures var o := Step(statuses, p, releaseInfo, licenseKey, isProduction, decide);
      var req := Request(releaseInfo, licenseKey, AcceptedScopes(p), isProduction);
      && o.request == Some(req)
      && o.status == decide(req)
      && o.statuses == statuses[p := Entry(licenseKey, decide(req))]
      && o.emitted == Dispatch(decide(req), Plan(p), FullPackageName(p))
  {
  }

  /** Two consecutive calls for one package with an unchanged key: the second is a silent hit. */
  lemma Idempotent(statuses: map<PackageName, Entry>, p: PackageName, releaseInfo1: string, releaseInfo2: string,
                   licenseKey: Option<string>, isProduction: bool, decide: Request -> LicenseStatus)
    ensures var o1 := Step(statuses, p, releaseInfo1, licenseKey, isProduction, decide);
      var o2 := Step(o1.statuses, p, releaseInfo2, licenseKey, isProduction, decide);
      o2.status == o1.status && o2.statuses == o1.statuses && o2.emitted == [] && o2.request == None
  {
  }

  /** After a key change the stale status is not returned: the decoder decides the new key. */
  lemma KeyChange(statuses: map<PackageName, Entry>, p: PackageName, releaseInfo: string,
                  oldKey: Option<string>, newKey: Option<string>, isProduction: bool, decide: Request -> LicenseStatus)
    requires oldKey != newKey
    ensures var o1 := Step(statuses, p, releaseInfo, oldKey, isProduction, decide);
      var o2 := Step(o1.statuses, p, releaseInfo, newKey, isProduction, decide);
      && o2.request == Some(RequestFor(p, releaseInfo, newKey, isProduction))
      && o2.status == decide(RequestFor(p, releaseInfo, newKey, isProduction))
      && o2.statuses[p] == Entry(newKey, o2.status)
  {
  }

  // ---------------------------------------------------------------------------
  // The no-stale-pairing invariant and many calls
  // ---------------------------------------------------------------------------

  /**
   * Every cached status is the decoder's verdict on the cached key, for the
   * package's release information: a stored status never belongs to another key.
   */
  ghost predicate Decided(statuses: map<PackageName, Entry>, releaseOf: PackageName -> string,
                          isProduction: bool, decide: Request -> LicenseStatus)
  {
    forall q :: q in statuses ==>
      statuses[q].status == decide(RequestFor(q, releaseOf(q), statuses[q].key, isProduction))
  }

  /**
   * A call keeps the invariant, and then the cache is transparent: the status
   * returned is the decoder's verdict on the current key, hit or miss.
   */
  lemma StepKeepsDecided(statuses: map<PackageName, Entry>, p: PackageName, releaseOf: PackageName -> string,
                         licenseKey: Option<string>, isProduction: bool, decide: Request -> LicenseStatus)
    requires Decided(statuses, releaseOf, isProduction, decide)
    ensures var o := Step(statuses, p, releaseOf(p), licenseKey, isProduction, decide);
      && Decided(o.statuses, releaseOf, isProduction, decide)
      && o.status == decide(RequestFor(p, releaseOf(p), licenseKey, isProduction))
  {
    var o := Step(statuses, p, releaseOf(p), licenseKey, isProduction, decide);
    forall q | q in o.statuses
      ensures o.statuses[q].status == decide(RequestFor(q, releaseOf(q), o.statuses[q].key, isProduction))
    {
      if q != p {
        assert o.statuses[q] == statuses[q];
      }
    }
  }

  /** One call of the verifier: which package, with which release information and current key. */
  datatype Call = Call(packageName: PackageName, releaseInfo: string, licenseKey: Option<string>)

  /** The combined effect of a sequence of calls. */
  datatype Trace = Trace(statuses: map<PackageName, Entry>, results: seq<LicenseStatus>,
                         emitted: seq<LicenseError>, requests: seq<Request>)

  function RequestsOf(o: Outcome): seq<Request>
  {
    if o.request.Some? then [o.request.value] else []
  }

  /** Runs the calls one after the other, threading the cache through. */
  function Replay(statuses: map<PackageName, Entry>, calls: seq<Call>, isProduction: bool,
                  decide: Request -> LicenseStatus): (t: Trace)
    ensures |t.results| == |calls|
    ensures |t.requests| <= |calls|
    decreases |calls|
  {
    if calls == [] then Trace(statuses, [], [], [])
    else
      var c := calls[0];
      var o := Step(statuses, c.packageName, c.releaseInfo, c.licenseKey, isProduction, decide);
      var t := Replay(o.statuses, calls[1..], isProduction, decide);
      Trace(t.statuses, [o.status] + t.results, o.emitted + t.emitted, RequestsOf(o) + t.requests)
  }

  /** The first call of a run, then the rest of the run from the cache it leaves. */
  lemma ReplayFirst(statuses: map<PackageName, Entry>, calls: seq<Call>, isProduction: bool,
                    decide: Request -> LicenseStatus)
    requires calls != []
    ensures var o := Step(statuses, calls[0].packageName, calls[0].releaseInfo, calls[0].licenseKey, isProduction, decide);
      var t := Replay(o.statuses, calls[1..], isProduction, decide);
      var whole := Replay(statuses, calls, isProduction, decide);
      whole == Trace(t.statuses, [o.status] + t.results, o.emitted + t.emitted, RequestsOf(o) + t.requests)
  {
  }

  /** All calls are for package `p` with key `licenseKey`; release information may vary. */
  predicate SamePackageAndKey(calls: seq<Call>, p: PackageName, licenseKey: Option<string>)
  {
    forall i :: 0 <= i < |calls| ==> calls[i].packageName == p && calls[i].licenseKey == licenseKey
  }

  /** From a hit, repeated calls with the same key are all silent hits returning the cached status. */
  lemma {:induction false} ReplayHits(statuses: map<PackageName, Entry>, calls: seq<Call>, p: PackageName,
                                      licenseKey: Option<string>, isProduction: bool, decide: Request -> LicenseStatus)
    requires IsHit(statuses, p, licenseKey)
    requires SamePackageAndKey(calls, p, licenseKey)
    ensures var t := Replay(statuses, calls, isProduction, decide);
      && t.statuses == statuses && t.emitted == [] && t.requests == []
      && forall i :: 0 <= i < |t.results| ==> t.results[i] == statuses[p].status
    decreases |calls|
  {
    if calls != [] {
      assert SamePackageAndKey(calls[1..], p, licenseKey) by {
        forall i | 0 <= i < |calls[1..]| ensures calls[1..][i] == calls[i + 1] { }
      }
      ReplayHits(statuses, calls[1..], p, licenseKey, isProduction, decide);
    }
  }

  /**
   * Memoisation: over any number of calls for one package with an unchanged
   * key, the decoder is consulted at most once, at most one notification
   * fires, and every call returns the same status.
   */
  lemma Memoised(statuses: map<PackageName, Entry>, calls: seq<Call>, p: PackageName,
                 licenseKey: Option<string>, isProduction: bool, decide: Request -> LicenseStatus)
    requires SamePackageAndKey(calls, p, licenseKey)
    ensures var t := Replay(statuses, calls, isProduction, decide);
      && |t.requests| <= 1 && |t.emitted| <= 1
      && forall i :: 0 <= i < |t.results| ==> t.results[i] == t.results[0]
  {
    if calls != [] {
      var c := calls[0];
      var o := Step(statuses, c.packageName, c.releaseInfo, c.licenseKey, isProduction, decide);
      assert SamePackageAndKey(calls[1..], p, licenseKey) by {
        forall i | 0 <= i < |calls[1..]| ensures calls[1..][i] == calls[i + 1] { }
      }
      ReplayHits(o.statuses, calls[1..], p, licenseKey, isProduction, decide);
    }
  }

  /** The decoder's verdict on a call's own key, with its package's release information. */
  function Verdict(c: Call, releaseOf: PackageName -> string, isProduction: bool,
                   decide: Request -> LicenseStatus): LicenseStatus
  {
    decide(RequestFor(c.packageName, releaseOf(c.packageName), c.licenseKey, isProduction))
  }

  /** Every call's release information is the one fixed for its package. */
  predicate ReleaseFixed(calls: seq<Call>, releaseOf: PackageName -> string)
  {
    forall i :: 0 <= i < |calls| ==> calls[i].releaseInfo == releaseOf(calls[i].packageName)
  }

  /**
   * Starting from a cache that keeps the invariant (the empty one does), every
   * result of a run is the decoder's verdict on that call's key: caching never
   * changes what a call returns, only whether the decoder is consulted.
   */
  lemma {:induction false} ReplayTransparent(statuses: map<PackageName, Entry>, calls: seq<Call>,
                                             releaseOf: PackageName -> string, isProduction: bool,
                                             decide: Request -> LicenseStatus)
    requires Decided(statuses, releaseOf, isProduction, decide)
    requires ReleaseFixed(calls, releaseOf)
    ensures var t := Replay(statuses, calls, isProduction, decide);
      && Decided(t.statuses, releaseOf, isProduction, decide)
      && forall i :: 0 <= i < |calls| ==> t.results[i] == Verdict(calls[i], releaseOf, isProduction, decide)
    decreases |calls|
  {
    if calls != [] {
      var c := calls[0];
      var rest := calls[1..];
      assert c.releaseInfo == releaseOf(c.packageName);
      var o := Step(statuses, c.packageName, c.releaseInfo, c.licenseKey, isProduction, decide);
      StepKeepsDecided(statuses, c.packageName, releaseOf, c.licenseKey, isProduction, decide);
      assert ReleaseFixed(rest, releaseOf) by {
        forall i | 0 <= i < |rest| ensures rest[i] == calls[i + 1] { }
      }
      ReplayTransparent(o.statuses, rest, releaseOf, isProduction, decide);
      ReplayFirst(statuses, calls, isProduction, decide);
      TransparentCons(c, rest, calls, o.status, Replay(o.statuses, rest, isProduction, decide).results,
                      Replay(statuses, calls, isProduction, decide).results, releaseOf, isProduction, decide);
    }
  }

  /** Gluing the first result onto the results of the rest of a run. */
  lemma TransparentCons(c: Call, rest: seq<Call>, calls: seq<Call>, first: LicenseStatus,
                        restResults: seq<LicenseStatus>, results: seq<LicenseStatus>,
                        releaseOf: PackageName -> string, isProduction: bool, decide: Request -> LicenseStatus)
    requires calls == [c] + rest && results == [first] + restResults && |restResults| == |rest|
    requires first == Verdict(c, releaseOf, isProduction, decide)
    requires forall i :: 0 <= i < |rest| ==> restResults[i] == Verdict(rest[i], releaseOf, isProduction, decide)
    ensures forall i :: 0 <= i < |calls| ==> results[i] == Verdict(calls[i], releaseOf, isProduction, decide)
  {
    forall i | 0 <= i < |calls|
      ensures results[i] == Verdict(calls[i], releaseOf, isProduction, decide)
    {
      if i > 0 {
        assert calls[i] == rest[i - 1] && results[i] == restResults[i - 1];
      }
    }
  }

  // ---------------------------------------------------------------------------
  // Scenarios
  // ---------------------------------------------------------------------------

  /** No key configured for the date pickers: the missing-key notice names the Pro plan and the npm name. */
  lemma MissingKeyScenario(decide: Request -> LicenseStatus, releaseInfo: string, isProduction: bool)
    requires decide(Request(releaseInfo, None, [Pro, Premium], isProduction)) == NotFound
    ensures var o := Step(map[], DatePickersPro, releaseInfo, None, isProduction, decide);
      o.status == NotFound && o.emitted == [MissingKeyError("Pro", "@mui/x-date-pickers-pro")]
  {
    var scopes := AcceptedScopes(DatePickersPro);
    assert scopes == [Pro, Premium];
    assert Plan(DatePickersPro) == "Pro";
    assert FullPackageName(DatePickersPro) == "@mui/x-date-pickers-pro";
    CacheMiss(map[], DatePickersPro, releaseInfo, None, isProduction, decide);
  }

  /**
   * Key replaced on a fresh cache: a valid key, the same key again, then a
   * different key that is invalid.  Only the third call consults the decoder
   * again and only it notifies; the cache ends with the new pair.
   */
  lemma KeyReplacedScenario(decide: Request -> LicenseStatus, releaseInfo: string, isProduction: bool,
                            key1: string, key2: string)
    requires key1 != key2
    requires decide(Request(releaseInfo, Some(key1), [Premium], isProduction)) == Valid
    requires decide(Request(releaseInfo, Some(key2), [Premium], isProduction)) == Invalid
    ensures var t := Replay(map[], [Call(DataGridPremium, releaseInfo, Some(key1)),
                                    Call(DataGridPremium, releaseInfo, Some(key1)),
                                    Call(DataGridPremium, releaseInfo, Some(key2))], isProduction, decide);
      && t.results == [Valid, Valid, Invalid]
      && t.emitted == [InvalidKeyError]
      && t.requests == [Request(releaseInfo, Some(key1), [Premium], isProduction),
                        Request(releaseInfo, Some(key2), [Premium], isProduction)]
      && t.statuses == map[DataGridPremium := Entry(Some(key2), Invalid)]
  {
    var p := DataGridPremium;
    assert AcceptedScopes(p) == [Premium];
    var c1, c3 := Call(p, releaseInfo, Some(key1)), Call(p, releaseInfo, Some(key2));
    var m1 := map[p := Entry(Some(key1), Valid)];
    var o1 := Step(map[], p, releaseInfo, Some(key1), isProduction, decide);
    CacheMiss(map[], p, releaseInfo, Some(key1), isProduction, decide);
    assert o1.statuses == m1 && o1.emitted == [];
    var o2 := Step(m1, p, releaseInfo, Some(key1), isProduction, decide);
    CacheHit(m1, p, releaseInfo, Some(key1), isProduction, decide);
    var o3 := Step(m1, p, releaseInfo, Some(key2), isProduction, decide);
    CacheMiss(m1, p, releaseInfo, Some(key2), isProduction, decide);
    assert m1[p := Entry(Some(key2), Invalid)] == map[p := Entry(Some(key2), Invalid)];
    ReplayThree(map[], c1, c1, c3, isProduction, decide);
  }

  /** A run of one call is that call's outcome. */
  lemma ReplayOne(statuses: map<PackageName, Entry>, c: Call, isProduction: bool, decide: Request -> LicenseStatus)
    ensures var o := Step(statuses, c.packageName, c.releaseInfo, c.licenseKey, isProduction, decide);
      Replay(statuses, [c], isProduction, decide) == Trace(o.statuses, [o.status], o.emitted, RequestsOf(o))
  {
    var o := Step(statuses, c.packageName, c.releaseInfo, c.licenseKey, isProduction, decide);
    assert [c][1..] == [];
    assert Replay(o.statuses, [], isProduction, decide) == Trace(o.statuses, [], [], []);
    assert o.emitted + [] == o.emitted && RequestsOf(o) + [] == RequestsOf(o);
  }

  /** A run of two calls, one step at a time. */
  lemma ReplayTwo(statuses: map<PackageName, Entry>, c1: Call, c2: Call, isProduction: bool,
                  decide: Request -> LicenseStatus)
    ensures var o1 := Step(statuses, c1.packageName, c1.releaseInfo, c1.licenseKey, isProduction, decide);
      var o2 := Step(o1.statuses, c2.packageName, c2.releaseInfo, c2.licenseKey, isProduction, decide);
      Replay(statuses, [c1, c2], isProduction, decide)
        == Trace(o2.statuses, [o1.status, o2.status], o1.emitted + o2.emitted, RequestsOf(o1) + RequestsOf(o2))
  {
    var o1 := Step(statuses, c1.packageName, c1.releaseInfo, c1.licenseKey, isProduction, decide);
    ReplayOne(o1.statuses, c2, isProduction, decide);
    assert [c1, c2][1..] == [c2];
    ReplayFirst(statuses, [c1, c2], isProduction, decide);
  }

  /** A run of three calls, one step at a time. */
  lemma ReplayThree(statuses: map<PackageName, Entry>, c1: Call, c2: Call, c3: Call, isProduction: bool,
                    decide: Request -> LicenseStatus)
    ensures var o1 := Step(statuses, c1.packageName, c1.releaseInfo, c1.licenseKey, isProduction, decide);
      var o2 := Step(o1.statuses, c2.packageName, c2.releaseInfo, c2.licenseKey, isProduction, decide);
      var o3 := Step(o2.statuses, c3.packageName, c3.releaseInfo, c3.licenseKey, isProduction, decide);
      Replay(statuses, [c1, c2, c3], isProduction, decide)
        == Trace(o3.statuses, [o1.status, o2.status, o3.status], o1.emitted + (o2.emitted + o3.emitted),
                 RequestsOf(o1) + (RequestsOf(o2) + RequestsOf(o3)))
  {
    var o1 := Step(statuses, c1.packageName, c1.releaseInfo, c1.licenseKey, isProduction, decide);
    var o2 := Step(o1.statuses, c2.packageName, c2.releaseInfo, c2.licenseKey, isProduction, decide);
    var o3 := Step(o2.statuses, c3.packageName, c3.releaseInfo, c3.licenseKey, isProduction, decide);
    ReplayTwo(o1.statuses, c2, c3, isProduction, decide);
    assert [o1.status] + [o2.status, o3.status] == [o1.status, o2.status, o3.status];
    assert [c1, c2, c3][1..] == [c2, c3];
    ReplayFirst(statuses, [c1, c2, c3], isProduction, decide);
  }

  // ---------------------------------------------------------------------------
  // The verifier object
  // ---------------------------------------------------------------------------

  /**
   * The shared status cache with the notifications it has fired so far.  One
   * instance stands for the module-level `sharedLicenseStatuses` object.
   */
  class LicenseStatusCache {
    /** The last (key, status) pair per package. */
    var sharedLicenseStatuses: map<PackageName, Entry>
    /** Every error notification fired, in order. */
    var emitted: seq<LicenseError>
    /** Every request the decoder was consulted with, in order. */
    ghost var requests: seq<Request>

    constructor ()
      ensures sharedLicenseStatuses == map[] && emitted == [] && requests == []
    {
      sharedLicenseStatuses := map[];
      emitted := [];
      requests := [];
    }

    /** The body of the verifier hook: cache lookup, decision on a miss, store, notify. */
    method Verify(packageName: PackageName, releaseInfo: string, licenseKey: Option<string>,
                  isProduction: bool, decide: Request -> LicenseStatus) returns (status: LicenseStatus)
      modifies this
      ensures var o := Step(old(sharedLicenseStatuses), packageName, releaseInfo, licenseKey, isProduction, decide);
        && status == o.status
        && sharedLicenseStatuses == o.statuses
        && emitted == old(emitted) + o.emitted
        && requests == old(requests) + RequestsOf(o)
    {
      if packageName in sharedLicenseStatuses && sharedLicenseStatuses[packageName].key == licenseKey {
        CacheHit(sharedLicenseStatuses, packageName, releaseInfo, licenseKey, isProduction, decide);
        return sharedLicenseStatuses[packageName].status;
      }
      CacheMiss(sharedLicenseStatuses, packageName, releaseInfo, licenseKey, isProduction, decide);

      var acceptedScopes := AcceptedScopes(packageName);
      var plan := Plan(packageName);
      var request := Request(releaseInfo, licenseKey, acceptedScopes, isProduction);
      status := decide(request);
      requests := requests + [request];

      sharedLicenseStatuses := sharedLicenseStatuses[packageName := Entry(licenseKey, status)];
      var fullPackageName := FullPackageName(packageName);

      if status == Invalid {
        emitted := emitted + [InvalidKeyError];
      } else if status == OutOfScope {
        emitted := emitted + [PlanMismatchError];
      } else if status == NotFound {
        emitted := emitted + [MissingKeyError(plan, fullPackageName)];
      } else if status == ExpiredAnnual {
        emitted := emitted + [ExpiredAnnualError(plan)];
      } else if status == ExpiredVersion {
        emitted := emitted + [ExpiredVersionError(fullPackageName)];
      }
    }
  }
}
