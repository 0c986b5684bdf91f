/**
 * The environment provider (contexts/EnvironmentContext.js): the table of deployment
 * environments, the environment chosen at start-up from the persisted choice, switching
 * environments (persisting the choice, notifying every registered refresh callback, and
 * announcing the change), and the duplicate-free list of refresh callbacks.
 * A callback is known by its identity; whether it raises when called is an input.
 */
module EnvironmentContext {
  import opened Wrappers
  import opened JsObject
  import McpService

  datatype EnvironmentConfig = EnvironmentConfig(
    name: string, baseURL: string, employeeAPI: string, assetAPI: string, notificationAPI: string, color: string)

  const Environments: map<string, EnvironmentConfig> := map[
    "development" := EnvironmentConfig(
      "Development", "http://localhost:8081", "http://localhost:8082",
      "http://localhost:8083", "http://localhost:8084", "#4CAF50"),
    "staging" := EnvironmentConfig(
      "Staging", "http://agent-broker-mcp-server-staging.us-e1.cloudhub.io",
      "http://employee-onboarding-mcp-server-staging.us-e1.cloudhub.io",
      "http://asset-allocation-mcp-server-staging.us-e1.cloudhub.io",
      "http://employee-notification-service-staging.us-e1.cloudhub.io", "#FF9800"),
    "production" := EnvironmentConfig(
      "Production", "http://agent-broker-mcp-server.us-e1.cloudhub.io",
      "http://employee-onboarding-mcp-server.us-e1.cloudhub.io",
      "http://asset-allocation-mcp-server.us-e1.cloudhub.io",
      "http://employee-notification-service.us-e1.cloudhub.io", "#f44336")
  ]

  /**
   * The broker URL the service falls back to for staging is the production one, not the
   * staging broker this table lists; development and production agree.
   */
  lemma FallbackURLsAgainstTable()
    ensures McpService.EnvironmentURLs.Keys == Environments.Keys
    ensures McpService.EnvironmentURLs["development"] == Environments["development"].baseURL
    ensures McpService.EnvironmentURLs["production"] == Environments["production"].baseURL
    ensures McpService.EnvironmentURLs["staging"] != Environments["staging"].baseURL
  {
    var s := McpService.EnvironmentURLs["staging"];
    var t := Environments["staging"].baseURL;
    assert s[30] != t[30];
  }

  // ---------------------------------------------------------------------------
  // The initial environment
  // ---------------------------------------------------------------------------

  /**
   * The initial environment as written: `saved && ENVIRONMENTS[saved] ? saved : 'production'`.
   * The table is an object literal, so a saved name of an `Object.prototype` member is kept.
   */
  function InitialEnvironmentAsWritten(saved: Option<string>): (r: string)
    ensures r !in Environments <==> Truthy(saved) && saved.value !in Environments && saved.value in ObjectPrototypeKeys
  {
    if Truthy(saved) && !Lookup(Environments, saved.value).Undefined? then saved.value else "production"
  }

  /** A saved `constructor` becomes the current environment, which has no configuration. */
  lemma InitialEnvironmentInheritedKey()
    ensures InitialEnvironmentAsWritten(Some("constructor")) == "constructor"
    ensures "constructor" !in Environments
  {
  }

  /** The initial environment, reading only the table's own entries: the saved one when it is known, else production. */
  function InitialEnvironment(saved: Option<string>): (r: string)
    ensures r in Environments
    ensures saved.Some? && saved.value in Environments ==> r == saved.value
    ensures (saved.None? || saved.value !in Environments) ==> r == "production"
  {
    if saved.Some? && saved.value in Environments then saved.value else "production"
  }

  /** The two agree whenever the saved name is not an inherited member's. */
  lemma InitialEnvironmentCorrectionAgrees(saved: Option<string>)
    requires saved.Some? ==> saved.value !in ObjectPrototypeKeys
    ensures InitialEnvironmentAsWritten(saved) == InitialEnvironment(saved)
  {
  }

  // ---------------------------------------------------------------------------
  // Switching
  // ---------------------------------------------------------------------------

  /**
   * Whether `switchEnvironment` goes ahead, as written: `!ENVIRONMENTS[newEnvironment]` is
   * false for an inherited member's name too.
   */
  predicate SwitchAcceptedAsWritten(newEnvironment: string) {
    !Lookup(Environments, newEnvironment).Undefined?
  }

  /** As written, a switch to `toString` goes ahead, to an environment that has no configuration. */
  lemma SwitchAcceptsInheritedKey()
    ensures SwitchAcceptedAsWritten("toString") && "toString" !in Environments
    ensures forall name :: SwitchAcceptedAsWritten(name) <==> name in Environments || name in ObjectPrototypeKeys
  {
  }

  /** The reason announced with a switch: a switch to the current environment is a failover. */
  function SwitchReason(previous: string, next: string): (reason: string)
    ensures reason == "failover" <==> previous == next
    ensures reason != "failover" ==> reason == "user-switch"
  {
    if previous != next then "user-switch" else "failover"
  }

  /** The `environment-changed` event's detail. */
  datatype EnvironmentChanged = EnvironmentChanged(from: string, to: string, config: EnvironmentConfig, reason: string)

  /** A refresh callback, known by its identity. */
  type CallbackId = nat

  /** What is passed to `registerRefreshCallback`: a function, or any other value. */
  datatype Candidate = FunctionValue(id: CallbackId) | OtherValue

  /** One call of a refresh callback, with the environment it was told about. */
  datatype Invocation = Invocation(callback: CallbackId, environment: string)

  /** The calls `switchEnvironment` makes: every callback, in order, with the new environment. */
  function Notifications(callbacks: seq<CallbackId>, environment: string): (r: seq<Invocation>)
    ensures |r| == |callbacks|
    ensures forall i :: 0 <= i < |r| ==> r[i] == Invocation(callbacks[i], environment)
  {
    if callbacks == [] then []
    else Notifications(callbacks[..|callbacks| - 1], environment) + [Invocation(callbacks[|callbacks| - 1], environment)]
  }

  /** The callbacks whose error is caught and logged, in calling order. */
  function Raised(callbacks: seq<CallbackId>, raises: set<CallbackId>): (r: seq<CallbackId>)
    ensures |r| <= |callbacks|
    ensures forall c :: c in r <==> c in callbacks && c in raises
  {
    if callbacks == [] then []
    else
      var last := callbacks[|callbacks| - 1];
      Raised(callbacks[..|callbacks| - 1], raises) + (if last in raises then [last] else [])
  }

  predicate NoDuplicates(callbacks: seq<CallbackId>) {
    forall i, j :: 0 <= i < j < |callbacks| ==> callbacks[i] != callbacks[j]
  }

  /** With no duplicates registered, a switch calls each registered callback exactly once. */
  lemma {:induction false} EachNotifiedOnce(callbacks: seq<CallbackId>, environment: string)
    requires NoDuplicates(callbacks)
    ensures var n := Notifications(callbacks, environment);
      && (forall i, j :: 0 <= i < j < |n| ==> n[i].callback != n[j].callback)
      && (forall c :: c in callbacks <==> Invocation(c, environment) in n)
  {
    var n := Notifications(callbacks, environment);
    forall c | Invocation(c, environment) in n ensures c in callbacks {
      var i :| 0 <= i < |n| && n[i] == Invocation(c, environment);
      assert callbacks[i] == c;
    }
    forall c | c in callbacks ensures Invocation(c, environment) in n {
      var i :| 0 <= i < |callbacks| && callbacks[i] == c;
      assert n[i] == Invocation(c, environment);
    }
  }

  // ---------------------------------------------------------------------------
  // Registering refresh callbacks
  // ---------------------------------------------------------------------------

  /** `registerRefreshCallback`'s update: a function not yet registered is appended; anything else changes nothing. */
  function Registered(callbacks: seq<CallbackId>, candidate: Candidate): (r: seq<CallbackId>)
    ensures NoDuplicates(callbacks) ==> NoDuplicates(r)
    ensures candidate.OtherValue? ==> r == callbacks
    ensures candidate.FunctionValue? ==>
      && (forall c :: c in r <==> c in callbacks || c == candidate.id)
      && |r| >= |callbacks| && r[..|callbacks|] == callbacks
      && (|r| == |callbacks| <==> candidate.id in callbacks)
  {
    if candidate.FunctionValue? && candidate.id !in callbacks then callbacks + [candidate.id] else callbacks
  }

  /** `unregisterRefreshCallback`'s update: `prev.filter(cb => cb !== callback)`. */
  function Without(callbacks: seq<CallbackId>, id: CallbackId): (r: seq<CallbackId>)
    ensures forall c :: c in r <==> c in callbacks && c != id
    ensures |r| <= |callbacks|
  {
    if callbacks == [] then []
    else (if callbacks[0] == id then [] else [callbacks[0]]) + Without(callbacks[1..], id)
  }

  /** Filtering keeps the order of the others: it distributes over concatenation. */
  lemma {:induction false} WithoutKeepsOrder(a: seq<CallbackId>, b: seq<CallbackId>, id: CallbackId)
    ensures Without(a + b, id) == Without(a, id) + Without(b, id)
  {
    if a == [] {
      assert a + b == b;
    } else {
      WithoutKeepsOrder(a[1..], b, id);
      var head := if a[0] == id then [] else [a[0]];
      assert (a + b)[0] == a[0] && (a + b)[1..] == a[1..] + b;
      calc {
        Without(a + b, id);
        head + Without(a[1..] + b, id);
        head + (Without(a[1..], id) + Without(b, id));
        (head + Without(a[1..], id)) + Without(b, id);
        Without(a, id) + Without(b, id);
      }
    }
  }

  /** Filtering a list that does not hold `id` leaves it as it is. */
  lemma {:induction false} WithoutAbsent(callbacks: seq<CallbackId>, id: CallbackId)
    requires id !in callbacks
    ensures Without(callbacks, id) == callbacks
  {
    if callbacks != [] {
      assert callbacks[0] != id && id !in callbacks[1..];
      WithoutAbsent(callbacks[1..], id);
      assert callbacks == [callbacks[0]] + callbacks[1..];
    }
  }

  /** Filtering keeps a duplicate-free list duplicate-free. */
  lemma {:induction false} WithoutNoDuplicates(callbacks: seq<CallbackId>, id: CallbackId)
    requires NoDuplicates(callbacks)
    ensures NoDuplicates(Without(callbacks, id))
  {
    if callbacks != [] {
      WithoutNoDuplicates(callbacks[1..], id);
      assert callbacks[0] !in callbacks[1..];
    }
  }

  /** Unregistering a callback just registered restores the list. */
  lemma RegisterThenUnregister(callbacks: seq<CallbackId>, id: CallbackId)
    requires id !in callbacks
    ensures Without(Registered(callbacks, FunctionValue(id)), id) == callbacks
  {
    WithoutKeepsOrder(callbacks, [id], id);
    WithoutAbsent(callbacks, id);
    assert Without([id], id) == [];
  }

  // ---------------------------------------------------------------------------
  // The provider
  // ---------------------------------------------------------------------------

  class EnvironmentProvider {
    var currentEnvironment: string
    /** The persisted `selectedEnvironment`. */
    var stored: Option<string>
    var refreshCallbacks: seq<CallbackId>
    /** Every refresh-callback call made, in order. */
    var invocations: seq<Invocation>
    /** Every callback whose error was caught and logged, in order. */
    var failures: seq<CallbackId>
    /** Every `environment-changed` event dispatched, in order. */
    var events: seq<EnvironmentChanged>

    /** The current environment has a configuration and no callback is registered twice. */
    predicate Valid()
      reads this
    {
      currentEnvironment in Environments && NoDuplicates(refreshCallbacks)
    }

    /** `environmentConfig`. */
    function Config(): (c: EnvironmentConfig)
      reads this
      requires Valid()
      ensures c == Environments[currentEnvironment]
      ensures c in Environments.Values
    {
      Environments[currentEnvironment]
    }

    /** The provider starts in the initial environment with no callbacks. */
    constructor(saved: Option<string>)
      ensures Valid()
      ensures currentEnvironment == InitialEnvironment(saved) && stored == saved
      ensures refreshCallbacks == [] && invocations == [] && failures == [] && events == []
    {
      currentEnvironment := InitialEnvironment(saved);
      stored := saved;
      refreshCallbacks := [];
      invocations := [];
      failures := [];
      events := [];
    }

    /**
     * `switchEnvironment`. `raises` holds the callbacks that raise when called. An unknown
     * name changes nothing. Otherwise the environment is set and persisted, every callback
     * is called once in registration order whether or not an earlier one raised, and one
     * event announces the change.
     */
    method SwitchEnvironment(newEnvironment: string, raises: set<CallbackId>)
      requires Valid()
      modifies this
      ensures Valid()
      ensures newEnvironment !in Environments ==>
        && currentEnvironment == old(currentEnvironment) && stored == old(stored)
        && invocations == old(invocations) && failures == old(failures) && events == old(events)
      ensures refreshCallbacks == old(refreshCallbacks)
      ensures newEnvironment in Environments ==>
        && currentEnvironment == newEnvironment && stored == Some(newEnvironment)
        && invocations == old(invocations) + Notifications(old(refreshCallbacks), newEnvironment)
        && failures == old(failures) + Raised(old(refreshCallbacks), raises)
        && events == old(events) + [EnvironmentChanged(old(currentEnvironment), newEnvironment,
             Environments[newEnvironment], SwitchReason(old(currentEnvironment), newEnvironment))]
    {
      if newEnvironment !in Environments {
        return;
      }
      var previousEnvironment := currentEnvironment;
      currentEnvironment := newEnvironment;
      stored := Some(newEnvironment);
      NotifyCallbacks(newEnvironment, raises);
      var reason := SwitchReason(previousEnvironment, newEnvironment);
      events := events + [EnvironmentChanged(previousEnvironment, newEnvironment, Environments[newEnvironment], reason)];
    }

    /** The `forEach` over the callbacks: each is called; an error it raises is caught and logged, and the loop goes on. */
    method NotifyCallbacks(environment: string, raises: set<CallbackId>)
      modifies this`invocations, this`failures
      ensures invocations == old(invocations) + Notifications(refreshCallbacks, environment)
      ensures failures == old(failures) + Raised(refreshCallbacks, raises)
    {
      var i := 0;
      while i < |refreshCallbacks|
        invariant 0 <= i <= |refreshCallbacks|
        invariant invocations == old(invocations) + Notifications(refreshCallbacks[..i], environment)
        invariant failures == old(failures) + Raised(refreshCallbacks[..i], raises)
      {
        var callback := refreshCallbacks[i];
        assert refreshCallbacks[..i + 1][..i] == refreshCallbacks[..i];
        invocations := invocations + [Invocation(callback, environment)];
        if callback in raises {
          failures := failures + [callback];
        }
        i := i + 1;
      }
      assert refreshCallbacks[..i] == refreshCallbacks;
    }

    /** `registerRefreshCallback`. */
    method RegisterRefreshCallback(candidate: Candidate)
      requires Valid()
      modifies this
      ensures Valid()
      ensures refreshCallbacks == Registered(old(refreshCallbacks), candidate)
      ensures currentEnvironment == old(currentEnvironment) && stored == old(stored)
      ensures invocations == old(invocations) && failures == old(failures) && events == old(events)
    {
      refreshCallbacks := Registered(refreshCallbacks, candidate);
    }

    /** `unregisterRefreshCallback`. */
    method UnregisterRefreshCallback(id: CallbackId)
      requires Valid()
      modifies this
      ensures Valid()
      ensures refreshCallbacks == Without(old(refreshCallbacks), id)
      ensures currentEnvironment == old(currentEnvironment) && stored == old(stored)
      ensures invocations == old(invocations) && failures == old(failures) && events == old(events)
    {
      WithoutNoDuplicates(refreshCallbacks, id);
      refreshCallbacks := Without(refreshCallbacks, id);
    }
  }
}
