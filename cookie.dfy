/**
 * The session-cookie authenticator (addon/authenticators/osf-cookie.js):
 * `_test` probes the current session, sets up feature flags and pushes the
 * current user into the store; `restore` invalidates on a failed probe;
 * `invalidate` clears the session locally or does nothing; `authenticate`
 * settles as `_test` does.
 *
 * The probe request itself is abstracted to its outcome, and the feature
 * service, the store and the session are reduced to what the authenticator
 * hands them.
 */
module CookieAuthenticator {
  import opened Common

  /** A value a failed promise carries, as `invalidate(data)` sees it. */
  datatype FailureValue =
    | Undefined                                       // no value, as from `Deferred().reject()`
    | ErrorObject(id: Option<string>, status: Option<int>) // an object with optional `id` and `status`

  /** `!data || data.id && data.status !== 401`, where `&&` binds tighter than `||`. */
  function ClearsSession(data: FailureValue): (clears: bool)
    ensures data.Undefined? ==> clears
    ensures clears && data.ErrorObject? ==> Truthy(data.id) && data.status != Some(401)
  {
    match data
    case Undefined => true
    case ErrorObject(id, status) => Truthy(id) && status != Some(401)
  }

  /**
   * The branch `invalidate` takes, case by case: a missing value clears; an
   * object clears only when it has an id and its status is not 401, so an
   * object without an id never clears, whatever its status.
   */
  lemma ClearsSessionCases(id: Option<string>, status: Option<int>)
    ensures ClearsSession(Undefined)
    ensures !Truthy(id) ==> !ClearsSession(ErrorObject(id, status))
    ensures !ClearsSession(ErrorObject(id, Some(401)))
    ensures Truthy(id) && status != Some(401) ==> ClearsSession(ErrorObject(id, status))
  {
  }

  /** A user resource as the API returns it. */
  datatype UserData = UserData(id: string, attributes: map<string, string>)

  /** `meta.current_user`: a JSON:API document around the user. */
  datatype CurrentUser = CurrentUser(data: UserData)

  /** `meta.active_flags`: an array of flag names, or anything that is not an array. */
  datatype ActiveFlags = FlagArray(flags: seq<string>) | NotAnArray

  /** The `meta` object of the probe's response. `currentUser` is `None` when it is `null`. */
  datatype Meta = Meta(activeFlags: ActiveFlags, currentUser: Option<CurrentUser>)

  /** How the probe of the current session ended. */
  datatype Probe = Answered(meta: Meta) | ProbeFailed(reason: FailureValue)

  /**
   * How `_test` settles: a failed probe passes its reason on, a `null` current
   * user rejects with no value, and otherwise it resolves to the user's data.
   */
  function TestResult(probe: Probe): (r: Settled<UserData, FailureValue>)
    ensures r.Rejected? <==> probe.ProbeFailed? || probe.meta.currentUser.None?
    ensures probe.ProbeFailed? ==> r.reason == probe.reason
    ensures probe.Answered? && probe.meta.currentUser.None? ==> r.reason == Undefined
    ensures r.Fulfilled? ==> r.value == probe.meta.currentUser.value.data
  {
    match probe
    case ProbeFailed(reason) => Rejected(reason)
    case Answered(meta) =>
      if meta.currentUser.None? then Rejected(Undefined) else Fulfilled(meta.currentUser.value.data)
  }

  /** `features` maps exactly the names in `flags` to true. */
  ghost predicate IsFeatureMap(features: map<string, bool>, flags: seq<string>) {
    && features.Keys == (set f | f in flags)
    && forall f :: f in features ==> features[f]
  }

  /**
   * The `reduce` of `_test`: `acc[flag] = true` for every flag, so duplicates
   * collapse into one key.
   */
  method BuildFeatureMap(flags: seq<string>) returns (acc: map<string, bool>)
    ensures IsFeatureMap(acc, flags)
    ensures |acc| <= |flags|
  {
    acc := map[];
    for i := 0 to |flags|
      invariant acc.Keys == (set f | f in flags[..i])
      invariant forall f :: f in acc ==> acc[f]
      invariant |acc| <= i
    {
      assert flags[..i + 1] == flags[..i] + [flags[i]];
      acc := acc[flags[i] := true];
    }
    assert flags[..|flags|] == flags;
  }

  /** Restoring a session whose probe says there is no current user logs the user out locally. */
  lemma NullUserClearsOnRestore(flags: ActiveFlags)
    ensures var r := TestResult(Answered(Meta(flags, None)));
            r.Rejected? && ClearsSession(r.reason)
  {
  }

  /** A failed probe whose error carries no id (an HTTP error object) never clears the session. */
  lemma ProbeErrorWithoutIdKeepsSession(status: Option<int>)
    ensures var r := TestResult(ProbeFailed(ErrorObject(None, status)));
            r.Rejected? && !ClearsSession(r.reason)
  {
  }

  class Authenticator {
    /** The argument of the last `features.setup` call; `None` while it has not been called. */
    var features: Option<map<string, bool>>
    /** The current-user payloads pushed into the store, oldest first. */
    var pushed: seq<CurrentUser>
    /** How many times the session was cleared locally (`session._clear(true)`). */
    var sessionClears: nat

    constructor()
      ensures features == None && pushed == [] && sessionClears == 0
    {
      features, pushed, sessionClears := None, [], 0;
    }

    /**
     * `_test`: on an answer, set up the features when `active_flags` is an
     * array (even if the answer is then rejected), then reject on a `null`
     * current user or push a copy of it into the store and resolve to its data.
     */
    method Test(probe: Probe) returns (r: Settled<UserData, FailureValue>)
      modifies this
      ensures r == TestResult(probe)
      ensures probe.Answered? && probe.meta.activeFlags.FlagArray? ==>
                features.Some? && IsFeatureMap(features.value, probe.meta.activeFlags.flags)
      ensures !(probe.Answered? && probe.meta.activeFlags.FlagArray?) ==> features == old(features)
      ensures pushed == if probe.Answered? && probe.meta.currentUser.Some?
                        then old(pushed) + [probe.meta.currentUser.value]
                        else old(pushed)
      ensures sessionClears == old(sessionClears)
    {
      if probe.ProbeFailed? {
        r := Rejected(probe.reason);
        return;
      }
      var meta := probe.meta;
      if meta.activeFlags.FlagArray? {
        var flagMap := BuildFeatureMap(meta.activeFlags.flags);
        features := Some(flagMap);
      }
      if meta.currentUser.None? {
        r := Rejected(Undefined);
        return;
      }
      pushed := pushed + [meta.currentUser.value];
      r := Fulfilled(meta.currentUser.value.data);
    }

    /** `invalidate(data)`: clear the session locally, or resolve without doing anything. */
    method Invalidate(data: FailureValue)
      modifies this
      ensures sessionClears == old(sessionClears) + (if ClearsSession(data) then 1 else 0)
      ensures features == old(features) && pushed == old(pushed)
    {
      if ClearsSession(data) {
        sessionClears := sessionClears + 1;
      }
    }

    /** `restore`: probe, and on failure invalidate with the failure's value; settles as the probe does. */
    method Restore(probe: Probe) returns (r: Settled<UserData, FailureValue>)
      modifies this
      ensures r == TestResult(probe)
      ensures probe.Answered? && probe.meta.activeFlags.FlagArray? ==>
                features.Some? && IsFeatureMap(features.value, probe.meta.activeFlags.flags)
      ensures !(probe.Answered? && probe.meta.activeFlags.FlagArray?) ==> features == old(features)
      ensures pushed == if probe.Answered? && probe.meta.currentUser.Some?
                        then old(pushed) + [probe.meta.currentUser.value]
                        else old(pushed)
      ensures sessionClears == old(sessionClears) + (if r.Rejected? && ClearsSession(r.reason) then 1 else 0)
    {
      r := Test(probe);
      if r.Rejected? {
        Invalidate(r.reason);
      }
    }

    /** `authenticate`: resolves or rejects exactly as `_test` does. */
    method Authenticate(probe: Probe) returns (r: Settled<UserData, FailureValue>)
      modifies this
      ensures r == TestResult(probe)
      ensures probe.Answered? && probe.meta.activeFlags.FlagArray? ==>
                features.Some? && IsFeatureMap(features.value, probe.meta.activeFlags.flags)
      ensures !(probe.Answered? && probe.meta.activeFlags.FlagArray?) ==> features == old(features)
      ensures pushed == if probe.Answered? && probe.meta.currentUser.Some?
                        then old(pushed) + [probe.meta.currentUser.value]
                        else old(pushed)
      ensures sessionClears == old(sessionClears)
    {
      r := Test(probe);
    }
  }
}
