/**
 * The registry of Unleash clients: one client per allowed caller
 * application, built at start-up, looked up per request and closed at
 * shutdown, plus the one-shot readiness flag.
 *
 * The goroutine per application, the WaitGroup barrier, the buffered error
 * channel, the RWMutex and the atomic flag are replaced by one sequential
 * pass over the per-application construction outcomes, which is what the
 * join-all barrier makes observable once it returns.
 */
module Clients {
  import opened Wrappers

  /** An opaque handle for one constructed Unleash SDK client. */
  datatype Client = Client(handle: nat)

  /** What one application's `unleash.NewClient` (followed by `WaitForReady`) produced. */
  datatype Construction = Built(client: Client) | Failed(cause: string)

  /** One entry of the aggregate error: the application whose construction failed and why. */
  datatype InitError = InitError(app: string, cause: string)

  datatype InitResult = Initialized | AggregateFailure(errs: seq<InitError>)

  /** The errors the barrier collects: one per failed construction, in list order. */
  function Failures(apps: seq<string>, outcomes: seq<Construction>): seq<InitError>
    requires |apps| == |outcomes|
  {
    if apps == [] then []
    else
      var n := |apps| - 1;
      Failures(apps[..n], outcomes[..n]) +
        (match outcomes[n]
         case Failed(cause) => [InitError(apps[n], cause)]
         case Built(_) => [])
  }

  /** How many constructions failed. */
  function FailedCount(outcomes: seq<Construction>): nat
  {
    if outcomes == [] then 0
    else FailedCount(outcomes[..|outcomes| - 1]) + (if outcomes[|outcomes| - 1].Failed? then 1 else 0)
  }

  /** The applications whose construction succeeded. */
  function BuiltApps(apps: seq<string>, outcomes: seq<Construction>): set<string>
    requires |apps| == |outcomes|
  {
    set i | 0 <= i < |apps| && outcomes[i].Built? :: apps[i]
  }

  /** `Failures` of a non-empty list: the errors of all but the last outcome, then the last one's, if it failed. */
  lemma FailuresLast(apps: seq<string>, outcomes: seq<Construction>)
    requires |apps| == |outcomes| && apps != []
    ensures var n := |apps| - 1;
      Failures(apps, outcomes) == Failures(apps[..n], outcomes[..n]) +
        (if outcomes[n].Failed? then [InitError(apps[n], outcomes[n].cause)] else [])
  {
  }

  /** Extending the processed prefix by one outcome adds its error, or its application to the built set. */
  lemma PrefixStep(apps: seq<string>, outcomes: seq<Construction>, i: nat)
    requires |apps| == |outcomes| && i < |apps|
    ensures Failures(apps[..i + 1], outcomes[..i + 1]) == Failures(apps[..i], outcomes[..i]) +
      (if outcomes[i].Failed? then [InitError(apps[i], outcomes[i].cause)] else [])
    ensures BuiltApps(apps[..i + 1], outcomes[..i + 1]) ==
      BuiltApps(apps[..i], outcomes[..i]) + (if outcomes[i].Built? then {apps[i]} else {})
  {
    assert apps[..i + 1][..i] == apps[..i];
    assert outcomes[..i + 1][..i] == outcomes[..i];
    FailuresLast(apps[..i + 1], outcomes[..i + 1]);
  }

  /**
   * `m` is `m0` after inserting the clients built for the first `k`
   * applications: the built applications are added, each mapped to a client
   * built for it, and every other entry is kept.
   */
  ghost predicate Inserted(m0: map<string, Client>, m: map<string, Client>, apps: seq<string>, outcomes: seq<Construction>, k: nat)
    requires |apps| == |outcomes| && k <= |apps|
  {
    && m.Keys == m0.Keys + BuiltApps(apps[..k], outcomes[..k])
    && (forall app :: app in m && app !in BuiltApps(apps[..k], outcomes[..k]) ==> m[app] == m0[app])
    && (forall app :: app in BuiltApps(apps[..k], outcomes[..k]) ==>
          exists j :: 0 <= j < k && apps[j] == app && outcomes[j] == Built(m[app]))
  }

  /** Handling the next outcome, inserting its client if it was built, keeps `Inserted`. */
  lemma InsertedStep(m0: map<string, Client>, m: map<string, Client>, apps: seq<string>, outcomes: seq<Construction>, k: nat)
    requires |apps| == |outcomes| && k < |apps|
    requires Inserted(m0, m, apps, outcomes, k)
    ensures Inserted(m0, if outcomes[k].Built? then m[apps[k] := outcomes[k].client] else m, apps, outcomes, k + 1)
  {
    PrefixStep(apps, outcomes, k);
  }

  /** Every entry of the aggregate names an application whose construction failed, with its cause. */
  lemma {:induction false} FailuresSound(apps: seq<string>, outcomes: seq<Construction>)
    requires |apps| == |outcomes|
    ensures |Failures(apps, outcomes)| == FailedCount(outcomes)
    ensures forall e :: e in Failures(apps, outcomes) ==>
      exists i :: 0 <= i < |apps| && apps[i] == e.app && outcomes[i] == Failed(e.cause)
  {
    if apps != [] {
      var n := |apps| - 1;
      var prev := Failures(apps[..n], outcomes[..n]);
      FailuresSound(apps[..n], outcomes[..n]);
      FailuresLast(apps, outcomes);
      assert outcomes[..n] == outcomes[..|outcomes| - 1];
      forall e | e in Failures(apps, outcomes)
        ensures exists i :: 0 <= i < |apps| && apps[i] == e.app && outcomes[i] == Failed(e.cause)
      {
        if e in prev {
          var i :| 0 <= i < n && apps[..n][i] == e.app && outcomes[..n][i] == Failed(e.cause);
          assert apps[i] == e.app && outcomes[i] == Failed(e.cause);
        } else {
          assert apps[n] == e.app && outcomes[n] == Failed(e.cause);
        }
      }
    }
  }

  /** Every application whose construction failed has its entry in the aggregate. */
  lemma {:induction false} FailuresComplete(apps: seq<string>, outcomes: seq<Construction>)
    requires |apps| == |outcomes|
    ensures forall i :: 0 <= i < |apps| && outcomes[i].Failed? ==>
      InitError(apps[i], outcomes[i].cause) in Failures(apps, outcomes)
  {
    if apps != [] {
      var n := |apps| - 1;
      var prev := Failures(apps[..n], outcomes[..n]);
      FailuresComplete(apps[..n], outcomes[..n]);
      FailuresLast(apps, outcomes);
      forall i | 0 <= i < |apps| && outcomes[i].Failed?
        ensures InitError(apps[i], outcomes[i].cause) in Failures(apps, outcomes)
      {
        if i < n {
          assert apps[..n][i] == apps[i] && outcomes[..n][i] == outcomes[i];
          assert InitError(apps[i], outcomes[i].cause) in prev;
        }
      }
    }
  }

  /**
   * Exactly one error per failing application: the aggregate has one entry
   * per failed construction, each entry names a failed application with its
   * cause, and every failed application is named.
   */
  lemma {:induction false} FailuresOnePerFailedApp(apps: seq<string>, outcomes: seq<Construction>)
    requires |apps| == |outcomes|
    ensures |Failures(apps, outcomes)| == FailedCount(outcomes)
    ensures forall e :: e in Failures(apps, outcomes) ==>
      exists i :: 0 <= i < |apps| && apps[i] == e.app && outcomes[i] == Failed(e.cause)
    ensures forall i :: 0 <= i < |apps| && outcomes[i].Failed? ==>
      InitError(apps[i], outcomes[i].cause) in Failures(apps, outcomes)
  {
    FailuresSound(apps, outcomes);
    FailuresComplete(apps, outcomes);
  }

  /** Initialize reports an error iff at least one construction failed. */
  lemma FailuresEmptyIffAllBuilt(apps: seq<string>, outcomes: seq<Construction>)
    requires |apps| == |outcomes|
    ensures Failures(apps, outcomes) == [] <==> forall i :: 0 <= i < |outcomes| ==> outcomes[i].Built?
  {
    FailuresOnePerFailedApp(apps, outcomes);
    if Failures(apps, outcomes) != [] {
      var e := Failures(apps, outcomes)[0];
      assert e in Failures(apps, outcomes);
    }
  }

  /** Only allow-listed applications are ever built; with no failure, all of them are. */
  lemma BuiltAppsWithinAllowList(apps: seq<string>, outcomes: seq<Construction>)
    requires |apps| == |outcomes|
    ensures BuiltApps(apps, outcomes) <= set app | app in apps
    ensures Failures(apps, outcomes) == [] ==> BuiltApps(apps, outcomes) == set app | app in apps
  {
    if Failures(apps, outcomes) == [] {
      FailuresEmptyIffAllBuilt(apps, outcomes);
      forall app | app in apps ensures app in BuiltApps(apps, outcomes) {
        var i :| 0 <= i < |apps| && apps[i] == app;
        assert outcomes[i].Built?;
      }
    }
  }

  /** The process-wide registry state: the client map, the readiness flag and the allow-list it serves. */
  class Registry {
    /** `nais.InboundApps`: fixed before the registry is used. */
    const inbound: seq<string>
    var clientMap: map<string, Client>
    var ready: bool
    /** Every `client.Close()` call made so far, with the application it was registered under. */
    var closed: seq<(string, Client)>

    /** The map never holds a client for an application outside the allow-list. */
    ghost predicate Valid()
      reads this
    {
      forall app :: app in clientMap ==> app in inbound
    }

    constructor (inbound: seq<string>)
      ensures this.inbound == inbound
      ensures clientMap == map[] && !ready && closed == []
      ensures Valid()
    {
      this.inbound := inbound;
      clientMap := map[];
      ready := false;
      closed := [];
    }

    /**
     * Builds one client per allow-listed application; `outcomes[i]` is what
     * the construction for `inbound[i]` produced. A built client is inserted
     * under its application; a failed one contributes one error and nothing
     * else. After the barrier, any error makes the whole call fail without
     * touching the flag; otherwise the flag is set.
     */
    method Initialize(outcomes: seq<Construction>) returns (r: InitResult)
      requires Valid()
      requires |outcomes| == |inbound|
      modifies this
      ensures Valid()
      ensures clientMap.Keys == old(clientMap).Keys + BuiltApps(inbound, outcomes)
      ensures forall app :: app in clientMap && app !in BuiltApps(inbound, outcomes) ==>
        clientMap[app] == old(clientMap)[app]
      ensures forall app :: app in BuiltApps(inbound, outcomes) ==>
        exists i :: 0 <= i < |inbound| && inbound[i] == app && outcomes[i] == Built(clientMap[app])
      ensures Failures(inbound, outcomes) == [] ==> r == Initialized
      ensures Failures(inbound, outcomes) != [] ==> r == AggregateFailure(Failures(inbound, outcomes))
      ensures ready == (old(ready) || Failures(inbound, outcomes) == [])
      ensures closed == old(closed)
    {
      // Every construction runs to completion before anything is collected.
      var errChan: seq<InitError> := [];
      for i := 0 to |inbound|
        invariant Valid()
        invariant ready == old(ready) && closed == old(closed)
        invariant errChan == Failures(inbound[..i], outcomes[..i])
        invariant Inserted(old(clientMap), clientMap, inbound, outcomes, i)
      {
        PrefixStep(inbound, outcomes, i);
        InsertedStep(old(clientMap), clientMap, inbound, outcomes, i);
        var app := inbound[i];
        match outcomes[i]
        case Failed(cause) =>
          errChan := errChan + [InitError(app, cause)];
        case Built(client) =>
          clientMap := clientMap[app := client];
      }
      assert inbound[..|inbound|] == inbound && outcomes[..|outcomes|] == outcomes;

      var errs: seq<InitError> := [];
      for k := 0 to |errChan|
        invariant errs == errChan[..k]
      {
        errs := errs + [errChan[k]];
      }
      assert errChan[..|errChan|] == errChan;

      if |errs| > 0 {
        return AggregateFailure(errs);
      }
      ready := true;
      return Initialized;
    }

    /** `Ready()`: the readiness flag, read without touching the map. */
    method Ready() returns (r: bool)
      ensures r <==> ready
    {
      r := ready;
    }

    /** `Get(appName)`: a read-only lookup; found exactly when the application has a client. */
    method Get(app: string) returns (client: Option<Client>)
      ensures client.Some? <==> app in clientMap
      ensures client.Some? ==> client.value == clientMap[app]
    {
      if app in clientMap {
        client := Some(clientMap[app]);
      } else {
        client := None;
      }
    }

    /**
     * Closes every registered client once, in whatever order the map yields
     * them, then empties the map; the readiness flag is left alone.
     */
    method Close()
      requires Valid()
      modifies this
      ensures Valid()
      ensures clientMap == map[] && ready == old(ready)
      ensures |closed| >= |old(closed)| && closed[..|old(closed)|] == old(closed)
      ensures CloseCalls(closed[|old(closed)|..], old(clientMap), old(clientMap).Keys)
      ensures |closed| == |old(closed)| + |old(clientMap).Keys|
    {
      var calls := CloseEach(clientMap);
      assert (closed + calls)[|closed|..] == calls;
      closed := closed + calls;
      clientMap := map[];
    }

    /** `IsValidApp(appName)`: membership in the allow-list, whatever the map holds. */
    function IsValidApp(app: string): (b: bool)
      ensures b <==> exists i :: 0 <= i < |inbound| && inbound[i] == app
    {
      app in inbound
    }
  }

  /**
   * `calls` closes exactly the clients registered in `m` under `apps`, each
   * once: every call closes the client stored under its application, no
   * application is closed twice, and every application in `apps` is closed.
   */
  ghost predicate CloseCalls(calls: seq<(string, Client)>, m: map<string, Client>, apps: set<string>)
  {
    && (forall i :: 0 <= i < |calls| ==> calls[i].0 in apps && calls[i].0 in m && calls[i].1 == m[calls[i].0])
    && (forall i, j :: 0 <= i < j < |calls| ==> calls[i].0 != calls[j].0)
    && (forall app :: app in apps ==> exists i :: 0 <= i < |calls| && calls[i].0 == app)
  }

  /** Closing one more registered application extends a run of close calls. */
  lemma CloseCallsStep(calls: seq<(string, Client)>, m: map<string, Client>, apps: set<string>, app: string)
    requires CloseCalls(calls, m, apps)
    requires app in m && app !in apps
    ensures CloseCalls(calls + [(app, m[app])], m, apps + {app})
  {
    var calls' := calls + [(app, m[app])];
    forall a | a in apps + {app} ensures exists i :: 0 <= i < |calls'| && calls'[i].0 == a {
      if a == app {
        assert calls'[|calls|].0 == a;
      } else {
        var i :| 0 <= i < |calls| && calls[i].0 == a;
        assert calls'[i].0 == a;
      }
    }
  }

  /** Closing each of `apps` exactly once takes one call per application. */
  lemma {:induction false} CloseCallsCount(calls: seq<(string, Client)>, m: map<string, Client>, apps: set<string>)
    requires CloseCalls(calls, m, apps)
    ensures |calls| == |apps|
    decreases |calls|
  {
    if calls != [] {
      var n := |calls| - 1;
      var app := calls[n].0;
      assert CloseCalls(calls[..n], m, apps - {app}) by {
        forall a | a in apps - {app} ensures exists i :: 0 <= i < n && calls[..n][i].0 == a {
          var i :| 0 <= i < |calls| && calls[i].0 == a;
          assert calls[..n][i].0 == a;
        }
      }
      CloseCallsCount(calls[..n], m, apps - {app});
    }
  }

  /**
   * The loop of `Close`: one `client.Close()` per entry of `m`, in the
   * (unspecified) order the map is ranged over.
   */
  method CloseEach(m: map<string, Client>) returns (calls: seq<(string, Client)>)
    ensures CloseCalls(calls, m, m.Keys)
    ensures |calls| == |m.Keys|
  {
    calls := [];
    ghost var done: set<string> := {};
    var remaining := m.Keys;
    while remaining != {}
      invariant done !! remaining && done + remaining == m.Keys
      invariant CloseCalls(calls, m, done)
      decreases remaining
    {
      var app :| app in remaining;
      CloseCallsStep(calls, m, done, app);
      calls := calls + [(app, m[app])];
      done := done + {app};
      remaining := remaining - {app};
    }
    CloseCallsCount(calls, m, done);
  }

  /** A lookup succeeds only for an allow-listed application. */
  lemma GetOnlyFindsValidApps(r: Registry, app: string)
    requires r.Valid()
    requires app in r.clientMap
    ensures r.IsValidApp(app)
  {
  }

  /**
   * Start-up as the server performs it: a fresh registry for the allow-list,
   * then `Initialize`. It succeeds exactly when every construction succeeded,
   * and then the registry is ready and `Get` finds a client for an
   * application exactly when `IsValidApp` accepts it.
   */
  method StartRegistry(inbound: seq<string>, outcomes: seq<Construction>) returns (reg: Registry, r: InitResult)
    requires |outcomes| == |inbound|
    ensures reg.Valid() && reg.inbound == inbound
    ensures r == Initialized <==> Failures(inbound, outcomes) == []
    ensures reg.ready <==> r == Initialized
    ensures reg.clientMap.Keys == BuiltApps(inbound, outcomes)
    ensures r == Initialized ==> forall app :: reg.IsValidApp(app) <==> app in reg.clientMap
  {
    reg := new Registry(inbound);
    r := reg.Initialize(outcomes);
    BuiltAppsWithinAllowList(inbound, outcomes);
  }
}
