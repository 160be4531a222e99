/**
 * The standard endpoint mapper of the proxy: a registry of backends, actions and routes that
 * rejects duplicate ids, and the first-match mapping of a request to a backend.
 *
 * The request is not modelled: what a route's matcher answers for it and what the backend
 * selector chooses for a routing key are parameters of `Map`.
 */
module EndpointMapper {
  import opened Wrappers
  import Text

  datatype BackendConfiguration = BackendConfiguration(id: string, host: string, port: int)

  /** The action types the mapper knows (`proxy`, `cache`) and any other configured type. */
  datatype ActionType = Proxy | Cache | OtherType(name: string)

  datatype ActionConfiguration = ActionConfiguration(id: string, actionType: ActionType)

  /** What a matching route extracts from the request, handed to the backend selector. */
  datatype RoutingKey = RoutingKey(key: string)

  /** A route: its id and the id of the action it leads to. */
  datatype RouteConfiguration = RouteConfiguration(id: string, action: string)

  datatype MapAction = ProxyAction | CacheAction

  /** `MapResult`: NOT_FOUND, or the backend's address and what to do with the request. */
  datatype MapResult = NotFound | Mapped(host: string, port: int, action: MapAction)

  datatype ConfigurationNotValid = ConfigurationNotValid(message: string)

  /** `isAvailable`: every backend counts as available. */
  predicate IsAvailable(backend: BackendConfiguration) {
    true
  }

  /** The result tag of a proxying or caching action. */
  function ResultAction(t: ActionType): MapAction
    requires t.Proxy? || t.Cache?
  {
    if t.Proxy? then ProxyAction else CacheAction
  }

  /**
   * The inner loop of `map` over the selected backend ids for one matching route: Some(result)
   * when the loop returns, None when it runs to its end and `map` goes on with the next route.
   */
  function ScanBackends(t: ActionType, ids: seq<string>, backends: map<string, BackendConfiguration>): (r: Option<MapResult>)
    ensures t.OtherType? ==> (r.Some? <==> ids != []) && (r.Some? ==> r.value == NotFound)
    ensures !t.OtherType? ==> (r.None? <==> forall k :: 0 <= k < |ids| ==> ids[k] !in backends)
    ensures !t.OtherType? && r.Some? ==>
              exists k :: 0 <= k < |ids| && ids[k] in backends
                          && (forall j :: 0 <= j < k ==> ids[j] !in backends)
                          && r.value == Mapped(backends[ids[k]].host, backends[ids[k]].port, ResultAction(t))
    decreases |ids|
  {
    if ids == [] then None
    else
      match t
      case OtherType(_) => Some(NotFound)
      case _ =>
        if ids[0] in backends && IsAvailable(backends[ids[0]]) then
          Some(Mapped(backends[ids[0]].host, backends[ids[0]].port, ResultAction(t)))
        else
          var rest := ScanBackends(t, ids[1..], backends);
          assert rest.Some? ==> exists k :: 1 <= k < |ids| && ids[k] in backends
                                           && (forall j :: 0 <= j < k ==> ids[j] !in backends)
                                           && rest.value == Mapped(backends[ids[k]].host, backends[ids[k]].port, ResultAction(t)) by {
            if rest.Some? {
              var k :| 0 <= k < |ids[1..]| && ids[1..][k] in backends
                       && (forall j :: 0 <= j < k ==> ids[1..][j] !in backends)
                       && rest.value == Mapped(backends[ids[1..][k]].host, backends[ids[1..][k]].port, ResultAction(t));
              assert ids[k + 1] == ids[1..][k];
              forall j | 0 <= j < k + 1 ensures ids[j] !in backends {
                if j > 0 { assert ids[j] == ids[1..][j - 1]; }
              }
            }
          }
          rest
  }

  /** What `map` answers over `routes`, tried in order. */
  function MapRoutes(routes: seq<RouteConfiguration>, actions: map<string, ActionConfiguration>,
                     backends: map<string, BackendConfiguration>,
                     matches: RouteConfiguration -> Option<RoutingKey>, select: RoutingKey -> seq<string>): MapResult
    decreases |routes|
  {
    if routes == [] then NotFound
    else
      match matches(routes[0])
      case None => MapRoutes(routes[1..], actions, backends, matches, select)
      case Some(key) =>
        if routes[0].action !in actions then NotFound
        else
          match ScanBackends(actions[routes[0].action].actionType, select(key), backends)
          case Some(result) => result
          case None => MapRoutes(routes[1..], actions, backends, matches, select)
  }

  /** Whether some registered route already has this id, ignoring case. */
  predicate RouteIdTaken(routes: seq<RouteConfiguration>, id: string) {
    exists k :: 0 <= k < |routes| && Text.EqualsIgnoreCase(routes[k].id, id)
  }

  class StandardEndpointMapper {
    var backends: map<string, BackendConfiguration>
    var allbackendids: seq<string>
    var routes: seq<RouteConfiguration>
    var actions: map<string, ActionConfiguration>

    /**
     * The registry's invariant: `allbackendids` lists every registered backend id once, in
     * registration order, and no two routes have ids that differ only in case.
     */
    ghost predicate Valid()
      reads this
    {
      && (forall id :: id in backends <==> id in allbackendids)
      && (forall i, j :: 0 <= i < j < |allbackendids| ==> allbackendids[i] != allbackendids[j])
      && (forall i, j :: 0 <= i < j < |routes| ==> !Text.EqualsIgnoreCase(routes[i].id, routes[j].id))
    }

    constructor ()
      ensures Valid()
      ensures backends == map[] && allbackendids == [] && routes == [] && actions == map[]
    {
      backends := map[];
      allbackendids := [];
      routes := [];
      actions := map[];
    }

    /**
     * `addBackend`: registers the backend under its id. The entry is written before the
     * duplicate check, so a rejected backend still replaces the one registered under its id.
     */
    method AddBackend(backend: BackendConfiguration) returns (o: Outcome<ConfigurationNotValid>)
      requires Valid()
      modifies this
      ensures Valid()
      ensures backends == old(backends)[backend.id := backend]
      ensures o.Fail? <==> backend.id in old(backends)
      ensures o.Fail? ==> o.error == ConfigurationNotValid("backend " + backend.id + " is already configured")
      ensures o.Fail? ==> allbackendids == old(allbackendids)
      ensures o.Pass? ==> allbackendids == old(allbackendids) + [backend.id]
      ensures routes == old(routes) && actions == old(actions)
    {
      var previous := if backend.id in backends then Some(backends[backend.id]) else None;
      backends := backends[backend.id := backend];
      if previous.Some? {
        return Fail(ConfigurationNotValid("backend " + backend.id + " is already configured"));
      }
      allbackendids := allbackendids + [backend.id];
      o := Pass;
    }

    /** `addAction`: registers the action under its id, with the same write-before-check order. */
    method AddAction(action: ActionConfiguration) returns (o: Outcome<ConfigurationNotValid>)
      requires Valid()
      modifies this
      ensures Valid()
      ensures actions == old(actions)[action.id := action]
      ensures o.Fail? <==> action.id in old(actions)
      ensures o.Fail? ==> o.error == ConfigurationNotValid("action " + action.id + " is already configured")
      ensures backends == old(backends) && allbackendids == old(allbackendids) && routes == old(routes)
    {
      var previous := if action.id in actions then Some(actions[action.id]) else None;
      actions := actions[action.id := action];
      if previous.Some? {
        return Fail(ConfigurationNotValid("action " + action.id + " is already configured"));
      }
      o := Pass;
    }

    /** `addRoute`: appends the route unless a route with the same id, ignoring case, exists. */
    method AddRoute(route: RouteConfiguration) returns (o: Outcome<ConfigurationNotValid>)
      requires Valid()
      modifies this
      ensures Valid()
      ensures o.Fail? <==> RouteIdTaken(old(routes), route.id)
      ensures o.Fail? ==> o.error == ConfigurationNotValid("route " + route.id + " is already configured") && routes == old(routes)
      ensures o.Pass? ==> routes == old(routes) + [route]
      ensures backends == old(backends) && allbackendids == old(allbackendids) && actions == old(actions)
    {
      if RouteIdTaken(routes, route.id) {
        return Fail(ConfigurationNotValid("route " + route.id + " is already configured"));
      }
      routes := routes + [route];
      o := Pass;
    }

    /**
     * `map`: the first route that matches the request decides, unless none of the backends
     * selected for it is registered, in which case the next matching route is tried.
     */
    method Map(matches: RouteConfiguration -> Option<RoutingKey>, select: RoutingKey -> seq<string>) returns (result: MapResult)
      ensures result == MapRoutes(routes, actions, backends, matches, select)
    {
      var i := 0;
      while i < |routes|
        invariant 0 <= i <= |routes|
        invariant MapRoutes(routes, actions, backends, matches, select) == MapRoutes(routes[i..], actions, backends, matches, select)
      {
        var route := routes[i];
        assert routes[i..][1..] == routes[i + 1..];
        var matchResult := matches(route);
        if matchResult.Some? {
          if route.action !in actions {
            return NotFound;
          }
          var action := actions[route.action];
          var selectedBackends := select(matchResult.value);
          var j := 0;
          while j < |selectedBackends|
            invariant 0 <= j <= |selectedBackends|
            invariant ScanBackends(action.actionType, selectedBackends, backends) == ScanBackends(action.actionType, selectedBackends[j..], backends)
          {
            var backendId := selectedBackends[j];
            assert selectedBackends[j..][1..] == selectedBackends[j + 1..];
            match action.actionType {
              case Proxy =>
                if backendId in backends && IsAvailable(backends[backendId]) {
                  var backend := backends[backendId];
                  return Mapped(backend.host, backend.port, ProxyAction);
                }
              case Cache =>
                if backendId in backends && IsAvailable(backends[backendId]) {
                  var backend := backends[backendId];
                  return Mapped(backend.host, backend.port, CacheAction);
                }
              case OtherType(_) =>
                return NotFound;
            }
            j := j + 1;
          }
        }
        i := i + 1;
      }
      return NotFound;
    }

    /**
     * `RandomBackendSelector.selectBackends`: a shuffled copy of `allbackendids`, by the
     * Fisher-Yates steps of `Collections.shuffle`; `random(i)` stands for the random draw made
     * for position i, reduced to the range 0..i.
     */
    method SelectBackends(random: nat -> nat) returns (result: seq<string>)
      ensures |result| == |allbackendids|
      ensures multiset(result) == multiset(allbackendids)
    {
      var a := new string[|allbackendids|](k requires 0 <= k < |allbackendids| reads this => allbackendids[k]);
      assert a[..] == allbackendids;
      var i := a.Length;
      while i > 1
        invariant 0 <= i <= a.Length
        invariant multiset(a[..]) == multiset(allbackendids)
      {
        i := i - 1;
        var j := random(i) % (i + 1);
        a[i], a[j] := a[j], a[i];
      }
      result := a[..];
    }
  }

  // ---------------------------------------------------------------------------
  // Properties of the mapping
  // ---------------------------------------------------------------------------

  /** When no route matches the request, the answer is NOT_FOUND. */
  lemma {:induction false} NoMatchIsNotFound(routes: seq<RouteConfiguration>, actions: map<string, ActionConfiguration>,
                                             backends: map<string, BackendConfiguration>,
                                             matches: RouteConfiguration -> Option<RoutingKey>, select: RoutingKey -> seq<string>)
    requires forall k :: 0 <= k < |routes| ==> matches(routes[k]).None?
    ensures MapRoutes(routes, actions, backends, matches, select) == NotFound
    decreases |routes|
  {
    if routes != [] {
      NoMatchIsNotFound(routes[1..], actions, backends, matches, select);
    }
  }

  /** Routes that do not match are skipped: the answer is the one of the remaining routes. */
  lemma {:induction false} SkipsNonMatching(prefix: seq<RouteConfiguration>, rest: seq<RouteConfiguration>,
                                            actions: map<string, ActionConfiguration>, backends: map<string, BackendConfiguration>,
                                            matches: RouteConfiguration -> Option<RoutingKey>, select: RoutingKey -> seq<string>)
    requires forall k :: 0 <= k < |prefix| ==> matches(prefix[k]).None?
    ensures MapRoutes(prefix + rest, actions, backends, matches, select) == MapRoutes(rest, actions, backends, matches, select)
    decreases |prefix|
  {
    if prefix != [] {
      var all := prefix + rest;
      assert all[0] == prefix[0] && all[1..] == prefix[1..] + rest;
      assert matches(all[0]).None?;
      assert MapRoutes(all, actions, backends, matches, select) == MapRoutes(all[1..], actions, backends, matches, select);
      SkipsNonMatching(prefix[1..], rest, actions, backends, matches, select);
    } else {
      assert prefix + rest == rest;
    }
  }

  /** The first matching route names an unregistered action: NOT_FOUND, later routes are ignored. */
  lemma UnknownActionIsNotFound(route: RouteConfiguration, rest: seq<RouteConfiguration>,
                                actions: map<string, ActionConfiguration>, backends: map<string, BackendConfiguration>,
                                matches: RouteConfiguration -> Option<RoutingKey>, select: RoutingKey -> seq<string>)
    requires matches(route).Some? && route.action !in actions
    ensures MapRoutes([route] + rest, actions, backends, matches, select) == NotFound
  {
    assert ([route] + rest)[0] == route;
  }

  /**
   * The first matching route has an action of another type than proxy and cache: NOT_FOUND as
   * soon as one backend is selected; with no backend selected the next routes are tried.
   */
  lemma OtherActionType(route: RouteConfiguration, rest: seq<RouteConfiguration>,
                        actions: map<string, ActionConfiguration>, backends: map<string, BackendConfiguration>,
                        matches: RouteConfiguration -> Option<RoutingKey>, select: RoutingKey -> seq<string>)
    requires matches(route).Some? && route.action in actions && actions[route.action].actionType.OtherType?
    ensures select(matches(route).value) != [] ==> MapRoutes([route] + rest, actions, backends, matches, select) == NotFound
    ensures select(matches(route).value) == [] ==>
              MapRoutes([route] + rest, actions, backends, matches, select) == MapRoutes(rest, actions, backends, matches, select)
  {
    assert ([route] + rest)[0] == route && ([route] + rest)[1..] == rest;
  }

  /**
   * The first matching route proxies or caches: the answer is the first selected backend that
   * is registered, tagged with the action; with none registered, the next routes are tried.
   */
  lemma ProxyOrCacheFirstRegistered(route: RouteConfiguration, rest: seq<RouteConfiguration>,
                                    actions: map<string, ActionConfiguration>, backends: map<string, BackendConfiguration>,
                                    matches: RouteConfiguration -> Option<RoutingKey>, select: RoutingKey -> seq<string>)
    requires matches(route).Some? && route.action in actions && !actions[route.action].actionType.OtherType?
    ensures var ids := select(matches(route).value);
            var result := MapRoutes([route] + rest, actions, backends, matches, select);
            && ((forall k :: 0 <= k < |ids| ==> ids[k] !in backends) ==> result == MapRoutes(rest, actions, backends, matches, select))
            && (forall k :: 0 <= k < |ids| && ids[k] in backends && (forall j :: 0 <= j < k ==> ids[j] !in backends) ==>
                  result == Mapped(backends[ids[k]].host, backends[ids[k]].port, ResultAction(actions[route.action].actionType)))
  {
    assert ([route] + rest)[0] == route && ([route] + rest)[1..] == rest;
    var ids := select(matches(route).value);
    var t := actions[route.action].actionType;
    var r := ScanBackends(t, ids, backends);
    forall k | 0 <= k < |ids| && ids[k] in backends && (forall j :: 0 <= j < k ==> ids[j] !in backends)
      ensures r == Some(Mapped(backends[ids[k]].host, backends[ids[k]].port, ResultAction(t)))
    {
      var m :| 0 <= m < |ids| && ids[m] in backends
               && (forall j :: 0 <= j < m ==> ids[j] !in backends)
               && r.value == Mapped(backends[ids[m]].host, backends[ids[m]].port, ResultAction(t));
      assert m == k;
    }
  }

  /**
   * Soundness: a request is only ever sent to a registered backend, through a route that
   * matches it and whose registered action is proxy or cache, selected for that route's key.
   */
  lemma {:induction false} MappedIsSound(routes: seq<RouteConfiguration>, actions: map<string, ActionConfiguration>,
                                         backends: map<string, BackendConfiguration>,
                                         matches: RouteConfiguration -> Option<RoutingKey>, select: RoutingKey -> seq<string>)
    ensures var result := MapRoutes(routes, actions, backends, matches, select);
            result.Mapped? ==>
              exists k, id :: 0 <= k < |routes| && matches(routes[k]).Some? && routes[k].action in actions
                              && !actions[routes[k].action].actionType.OtherType?
                              && result.action == ResultAction(actions[routes[k].action].actionType)
                              && id in select(matches(routes[k]).value) && id in backends
                              && result.host == backends[id].host && result.port == backends[id].port
    decreases |routes|
  {
    var result := MapRoutes(routes, actions, backends, matches, select);
    if routes != [] && result.Mapped? {
      var route := routes[0];
      var next := MapRoutes(routes[1..], actions, backends, matches, select);
      if matches(route).Some? && route.action in actions &&
         ScanBackends(actions[route.action].actionType, select(matches(route).value), backends).Some? {
        var ids := select(matches(route).value);
        var k :| 0 <= k < |ids| && ids[k] in backends
                 && result == Mapped(backends[ids[k]].host, backends[ids[k]].port, ResultAction(actions[route.action].actionType));
        assert ids[k] in ids;
      } else {
        assert result == next;
        MappedIsSound(routes[1..], actions, backends, matches, select);
        var k, id :| 0 <= k < |routes[1..]| && matches(routes[1..][k]).Some? && routes[1..][k].action in actions
                     && !actions[routes[1..][k].action].actionType.OtherType?
                     && next.action == ResultAction(actions[routes[1..][k].action].actionType)
                     && id in select(matches(routes[1..][k]).value) && id in backends
                     && next.host == backends[id].host && next.port == backends[id].port;
        assert routes[k + 1] == routes[1..][k];
      }
    }
  }

  /**
   * With a selector that returns every registered backend (as the random selector does), the
   * first matching route that proxies or caches is always mapped, once a backend exists.
   */
  lemma AllBackendsSelectedIsMapped(route: RouteConfiguration, rest: seq<RouteConfiguration>,
                                    actions: map<string, ActionConfiguration>, backends: map<string, BackendConfiguration>,
                                    matches: RouteConfiguration -> Option<RoutingKey>, select: RoutingKey -> seq<string>)
    requires matches(route).Some? && route.action in actions && !actions[route.action].actionType.OtherType?
    requires select(matches(route).value) != [] && forall id :: id in select(matches(route).value) ==> id in backends
    ensures MapRoutes([route] + rest, actions, backends, matches, select).Mapped?
  {
    var ids := select(matches(route).value);
    assert ids[0] in ids;
    ProxyOrCacheFirstRegistered(route, rest, actions, backends, matches, select);
  }
}
