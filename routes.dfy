/**
 * The public transport route registry: stops, routes with an ordered list of
 * stops, and a reverse index from each stop to the routes that serve it.
 */
module Routes {
  import opened Wrappers
  import opened Seqs

  datatype Coordinates = Coordinates(lat: real, lng: real)

  datatype Stop = Stop(id: string, name: string, coordinates: Option<Coordinates>)

  /** A route: the set of its stops and the order in which it visits them. */
  datatype Route = Route(id: string, name: string, stops: set<string>, order: seq<string>)

  /** The errors the registry throws, one per message of the source. */
  datatype RouteError =
    | RouteExists(routeId: string)
    | StopNotRegistered(stopId: string)
    | RouteNotFound(routeId: string)
    | StopAlreadyOnRoute(stopId: string, routeId: string)
    | StopNotOnRoute(stopId: string, routeId: string)

  datatype Connected = Connected(stop: Stop, routeCount: nat)

  datatype Statistics = Statistics(totalRoutes: nat, totalStops: nat, mostConnectedStop: Option<Connected>)

  // ---------------------------------------------------------------------
  // Operations on a route's `order` array
  // ---------------------------------------------------------------------

  /** Where `splice`/`push` put a new stop: the end when no position is
      given or it is past the end, otherwise the position clamped at 0. */
  function InsertIndex(len: nat, position: Option<int>): (k: nat)
    ensures k <= len
  {
    if position.None? || position.value >= len then len
    else if position.value < 0 then 0
    else position.value
  }

  /** The order after inserting `s` at the position `addStopToRoute` uses. */
  function InsertAt(order: seq<string>, position: Option<int>, s: string): (r: seq<string>)
    ensures |r| == |order| + 1
    ensures r[InsertIndex(|order|, position)] == s
    ensures r[..InsertIndex(|order|, position)] + r[InsertIndex(|order|, position) + 1..] == order
  {
    var k := InsertIndex(|order|, position);
    assert (order[..k] + [s] + order[k..])[k + 1..] == order[k..];
    assert (order[..k] + [s] + order[k..])[..k] == order[..k];
    order[..k] + [s] + order[k..]
  }

  /** `Array.prototype.indexOf`: the first index holding `s`, or -1. */
  function IndexOf(order: seq<string>, s: string): (i: int)
    ensures i == -1 <==> s !in order
    ensures i != -1 ==> 0 <= i < |order| && order[i] == s && s !in order[..i]
  {
    if order == [] then -1
    else if order[0] == s then 0
    else
      var j := IndexOf(order[1..], s);
      if j == -1 then -1
      else
        assert order[..j + 1] == [order[0]] + order[1..][..j];
        j + 1
  }

  /** The order after `removeStopFromRoute` splices out the first `s`. */
  function RemoveFirst(order: seq<string>, s: string): (r: seq<string>)
    ensures s !in order ==> r == order
    ensures s in order ==> |r| == |order| - 1
    ensures s in order ==> exists k :: 0 <= k < |order| && order[k] == s && s !in order[..k] && r == order[..k] + order[k + 1..]
  {
    var index := IndexOf(order, s);
    if index > -1 then order[..index] + order[index + 1..] else order
  }

  /** Inserting a stop that is not on the route and then removing it gives
      back the original order, wherever it was inserted. */
  lemma RemoveUndoesInsert(order: seq<string>, position: Option<int>, s: string)
    requires s !in order
    ensures RemoveFirst(InsertAt(order, position, s), s) == order
  {
    var k := InsertIndex(|order|, position);
    var r := InsertAt(order, position, s);
    assert r[..k] == order[..k];
    var i := IndexOf(r, s);
    assert r[k] == s;
    assert r[..k + 1][i] == s;
  }

  /** The elements of an order after an insertion are the old ones plus `s`,
      and a duplicate-free order stays duplicate-free when `s` is new. */
  lemma InsertAtElems(order: seq<string>, position: Option<int>, s: string)
    ensures Elems(InsertAt(order, position, s)) == Elems(order) + {s}
    ensures NoDup(order) && s !in order ==> NoDup(InsertAt(order, position, s))
  {
    var k := InsertIndex(|order|, position);
    assert InsertAt(order, position, s) == order[..k] + [s] + order[k..];
    assert order == order[..k] + order[k..];
    SpliceOut(order[..k], s, order[k..]);
    if NoDup(order) && s !in order {
      SpliceIn(order[..k], s, order[k..]);
    }
  }

  /** Removing the first `s` keeps every other element; when the order is
      duplicate-free it stays so and loses exactly `s`. */
  lemma RemoveFirstElems(order: seq<string>, s: string)
    ensures Elems(order) - {s} <= Elems(RemoveFirst(order, s)) <= Elems(order)
    ensures NoDup(order) ==> NoDup(RemoveFirst(order, s)) && Elems(RemoveFirst(order, s)) == Elems(order) - {s}
  {
    var index := IndexOf(order, s);
    if index > -1 {
      var a, b := order[..index], order[index + 1..];
      assert order == a + [s] + b;
      assert RemoveFirst(order, s) == a + b;
      SpliceOut(a, s, b);
    }
  }

  /** The insertion of the demonstration program: P004 at position 2 of
      the northern route goes between P002 and P003; removing it again
      restores the route. */
  lemma DemoInsertion()
    ensures InsertAt(["P001", "P002", "P003"], Some(2), "P004") == ["P001", "P002", "P004", "P003"]
    ensures RemoveFirst(["P001", "P002", "P004", "P003"], "P004") == ["P001", "P002", "P003"]
  {
    RemoveUndoesInsert(["P001", "P002", "P003"], Some(2), "P004");
  }

  /** A route created from a list that repeats a stop keeps the repeat in
      its order: after the stop is removed, the route no longer has it but
      still lists it once. */
  lemma RepeatedStopOutlivesRemoval()
    ensures var route := Route("R001", "Ruta Norte", Elems(["P001", "P001"]), ["P001", "P001"]);
            var after := WithoutStop(route, "P001");
            after.stops == {} && after.order == ["P001"]
  {
    assert Elems(["P001", "P001"]) == {"P001"};
  }

  // ---------------------------------------------------------------------
  // Specification helpers
  // ---------------------------------------------------------------------

  /** The first stop of `ordered` that is not registered, if any. */
  function FirstUnregistered(ordered: seq<string>, registered: set<string>): (r: Option<string>)
    ensures r.None? <==> forall i :: 0 <= i < |ordered| ==> ordered[i] in registered
    ensures r.Some? ==> exists i :: 0 <= i < |ordered| && ordered[i] == r.value && r.value !in registered
                                   && forall j :: 0 <= j < i ==> ordered[j] in registered
  {
    if ordered == [] then None
    else if ordered[0] !in registered then Some(ordered[0])
    else
      var r := FirstUnregistered(ordered[1..], registered);
      assert r.Some? ==> exists i :: 1 <= i < |ordered| && ordered[i] == r.value && r.value !in registered
                                     && forall j :: 1 <= j < i ==> ordered[j] in registered;
      r
  }

  /** The reverse index after route `rid` is added to every stop in `ks`. */
  function AddToAll(index: map<string, set<string>>, ks: set<string>, rid: string): (r: map<string, set<string>>)
    ensures r.Keys == index.Keys
  {
    map s | s in index :: if s in ks then index[s] + {rid} else index[s]
  }

  // ---------------------------------------------------------------------
  // The registry's invariant, on the values of its four fields
  // ---------------------------------------------------------------------

  /** The reverse index has exactly the registered stops as keys, in the
      order `ids` lists them once each, and agrees with every route's stop
      set in both directions; records sit under their own ids; a route only
      visits registered stops and visits each of its stops at least once. */
  ghost predicate Consistent(routes: map<string, Route>, index: map<string, set<string>>,
                             stops: map<string, Stop>, ids: seq<string>)
  {
    && index.Keys == stops.Keys
    && NoDup(ids)
    && (forall s :: s in ids <==> s in index)
    && (forall s :: s in stops ==> stops[s].id == s)
    && (forall r :: r in routes ==> routes[r].id == r)
    && (forall r :: r in routes ==> routes[r].stops <= Elems(routes[r].order))
    && (forall r, s :: r in routes && s in routes[r].order ==> s in stops)
    && (forall r, s :: r in routes && s in routes[r].stops ==> s in index && r in index[s])
    && (forall s, r :: s in index && r in index[s] ==> r in routes && s in routes[r].stops)
  }

  /** Every route visits each of its stops exactly once. */
  ghost predicate OrdersExact(routes: map<string, Route>)
  {
    forall r :: r in routes ==> NoDup(routes[r].order) && Elems(routes[r].order) == routes[r].stops
  }

  /** A route after `addStopToRoute` put `stopId` at `position`. */
  function WithStop(route: Route, stopId: string, position: Option<int>): (r: Route)
    ensures r.id == route.id && r.name == route.name
    ensures r.stops == route.stops + {stopId}
    ensures |r.order| == |route.order| + 1
  {
    route.(stops := route.stops + {stopId}, order := InsertAt(route.order, position, stopId))
  }

  /** A route after `removeStopFromRoute` took `stopId` off it. */
  function WithoutStop(route: Route, stopId: string): (r: Route)
    ensures r.id == route.id && r.name == route.name
    ensures r.stops == route.stops - {stopId}
    ensures stopId in route.order ==> |r.order| == |route.order| - 1
  {
    route.(stops := route.stops - {stopId}, order := RemoveFirst(route.order, stopId))
  }

  lemma RegisterKeepsConsistent(routes: map<string, Route>, index: map<string, set<string>>,
                                stops: map<string, Stop>, ids: seq<string>, stop: Stop)
    requires Consistent(routes, index, stops, ids)
    ensures stop.id in index ==> Consistent(routes, index, stops[stop.id := stop], ids)
    ensures stop.id !in index ==> Consistent(routes, index[stop.id := {}], stops[stop.id := stop], ids + [stop.id])
  {
    if stop.id !in index {
      var ids' := ids + [stop.id];
      forall i, j | 0 <= i < j < |ids'| ensures ids'[i] != ids'[j] {
        if j == |ids| {
          assert ids[i] in index;
        }
      }
    }
  }

  lemma {:induction false} CreateKeepsConsistent(routes: map<string, Route>, index: map<string, set<string>>,
                                                 stops: map<string, Stop>, ids: seq<string>,
                                                 id: string, name: string, ordered: seq<string>)
    requires Consistent(routes, index, stops, ids)
    requires id !in routes
    requires forall i :: 0 <= i < |ordered| ==> ordered[i] in stops
    ensures Consistent(routes[id := Route(id, name, Elems(ordered), ordered)], AddToAll(index, Elems(ordered), id), stops, ids)
    ensures OrdersExact(routes) && NoDup(ordered) ==> OrdersExact(routes[id := Route(id, name, Elems(ordered), ordered)])
  {
    var routes' := routes[id := Route(id, name, Elems(ordered), ordered)];
    var index' := AddToAll(index, Elems(ordered), id);
    forall r, s | r in routes' && s in routes'[r].order ensures s in stops {
      if r == id {
        var i :| 0 <= i < |ordered| && ordered[i] == s;
      }
    }
    forall s, r | s in index' && r in index'[s] ensures r in routes' && s in routes'[r].stops {
      if r != id {
        assert r in index[s];
      }
    }
  }

  lemma AddKeepsConsistent(routes: map<string, Route>, index: map<string, set<string>>,
                           stops: map<string, Stop>, ids: seq<string>,
                           routeId: string, stopId: string, position: Option<int>)
    requires Consistent(routes, index, stops, ids)
    requires routeId in routes && stopId in stops && stopId !in routes[routeId].stops
    ensures Consistent(routes[routeId := WithStop(routes[routeId], stopId, position)],
                       index[stopId := index[stopId] + {routeId}], stops, ids)
    ensures OrdersExact(routes) ==> OrdersExact(routes[routeId := WithStop(routes[routeId], stopId, position)])
  {
    var route := routes[routeId];
    var route' := WithStop(route, stopId, position);
    var routes' := routes[routeId := route'];
    var index' := index[stopId := index[stopId] + {routeId}];
    InsertAtElems(route.order, position, stopId);
    assert Elems(route'.order) == Elems(route.order) + {stopId};
    forall r | r in routes' ensures routes'[r].stops <= Elems(routes'[r].order) {
    }
    forall r, s | r in routes' && s in routes'[r].order ensures s in stops {
      if r == routeId && s != stopId {
        assert s in Elems(route.order);
      }
    }
    forall r, s | r in routes' && s in routes'[r].stops ensures s in index' && r in index'[s] {
    }
    forall s, r | s in index' && r in index'[s] ensures r in routes' && s in routes'[r].stops {
      if s != stopId || r != routeId {
        assert r in index[s];
      }
    }
    if OrdersExact(routes) {
      forall r | r in routes' ensures NoDup(routes'[r].order) && Elems(routes'[r].order) == routes'[r].stops {
        if r == routeId {
          assert stopId !in Elems(route.order);
        }
      }
    }
  }

  lemma RemoveKeepsConsistent(routes: map<string, Route>, index: map<string, set<string>>,
                              stops: map<string, Stop>, ids: seq<string>,
                              routeId: string, stopId: string)
    requires Consistent(routes, index, stops, ids)
    requires routeId in routes && stopId in routes[routeId].stops
    ensures stopId in index
    ensures Consistent(routes[routeId := WithoutStop(routes[routeId], stopId)],
                       index[stopId := index[stopId] - {routeId}], stops, ids)
    ensures OrdersExact(routes) ==> OrdersExact(routes[routeId := WithoutStop(routes[routeId], stopId)])
  {
    RemoveFirstElems(routes[routeId].order, stopId);
  }

  // ---------------------------------------------------------------------
  // The registry
  // ---------------------------------------------------------------------

  class PublicTransportRouteSystem {
    var routes: map<string, Route>
    var stopToRoutes: map<string, set<string>>
    var stops: map<string, Stop>
    /** The keys of `stopToRoutes` in insertion order, the order in which a
        JavaScript `Map` is iterated. */
    var stopIds: seq<string>

    ghost predicate Valid()
      reads this
    {
      Consistent(routes, stopToRoutes, stops, stopIds)
    }

    constructor()
      ensures Valid() && OrdersExact(routes)
      ensures routes == map[] && stopToRoutes == map[] && stops == map[] && stopIds == []
    {
      routes := map[];
      stopToRoutes := map[];
      stops := map[];
      stopIds := [];
    }

    /** Registers or replaces a stop; a new stop gets an empty route set,
        a known one keeps its routes. */
    method RegisterStop(stop: Stop)
      requires Valid()
      modifies this
      ensures Valid()
      ensures stops == old(stops)[stop.id := stop]
      ensures routes == old(routes)
      ensures stop.id in old(stopToRoutes) ==> stopToRoutes == old(stopToRoutes) && stopIds == old(stopIds)
      ensures stop.id !in old(stopToRoutes) ==> stopToRoutes == old(stopToRoutes)[stop.id := {}] && stopIds == old(stopIds) + [stop.id]
    {
      RegisterKeepsConsistent(routes, stopToRoutes, stops, stopIds, stop);
      stops := stops[stop.id := stop];
      if stop.id !in stopToRoutes {
        stopToRoutes := stopToRoutes[stop.id := {}];
        stopIds := stopIds + [stop.id];
      }
    }

    /** Creates a route visiting `orderedStops`. Every check runs before
        anything changes, so a call that fails (the id is taken, or some
        stop is not registered) changes nothing. */
    method CreateRoute(id: string, name: string, orderedStops: seq<string>) returns (outcome: Outcome<RouteError>)
      requires Valid()
      modifies this
      ensures Valid()
      ensures id in old(routes) ==> outcome == Fail(RouteExists(id))
      ensures id !in old(routes) && FirstUnregistered(orderedStops, old(stops).Keys).Some? ==>
                outcome == Fail(StopNotRegistered(FirstUnregistered(orderedStops, old(stops).Keys).value))
      ensures outcome.Pass? <==> id !in old(routes) && FirstUnregistered(orderedStops, old(stops).Keys).None?
      ensures outcome.Fail? ==> routes == old(routes) && stopToRoutes == old(stopToRoutes)
      ensures outcome.Pass? ==> routes == old(routes)[id := Route(id, name, Elems(orderedStops), orderedStops)]
      ensures outcome.Pass? ==> stopToRoutes == AddToAll(old(stopToRoutes), Elems(orderedStops), id)
      ensures stops == old(stops) && stopIds == old(stopIds)
      ensures old(OrdersExact(routes)) && NoDup(orderedStops) ==> OrdersExact(routes)
    {
      if id in routes {
        return Fail(RouteExists(id));
      }
      var missing := FindUnregistered(orderedStops);
      if missing.Some? {
        return Fail(StopNotRegistered(missing.value));
      }
      CreateKeepsConsistent(routes, stopToRoutes, stops, stopIds, id, name, orderedStops);
      routes := routes[id := Route(id, name, Elems(orderedStops), orderedStops)];
      IndexRoute(id, orderedStops);
      outcome := Pass;
    }

    /** The validation loop of `createRoute`: the first stop of the list
        that is not registered. */
    method FindUnregistered(orderedStops: seq<string>) returns (missing: Option<string>)
      ensures missing == FirstUnregistered(orderedStops, stops.Keys)
    {
      for i := 0 to |orderedStops|
        invariant FirstUnregistered(orderedStops, stops.Keys) == FirstUnregistered(orderedStops[i..], stops.Keys)
      {
        assert orderedStops[i..][1..] == orderedStops[i + 1..];
        if orderedStops[i] !in stops {
          return Some(orderedStops[i]);
        }
      }
      assert orderedStops[|orderedStops|..] == [];
      missing := None;
    }

    /** The indexing loop of `createRoute`: route `id` is added to the
        route set of every stop in the list. */
    method IndexRoute(id: string, orderedStops: seq<string>)
      requires forall i :: 0 <= i < |orderedStops| ==> orderedStops[i] in stopToRoutes
      modifies this
      ensures stopToRoutes == AddToAll(old(stopToRoutes), Elems(orderedStops), id)
      ensures routes == old(routes) && stops == old(stops) && stopIds == old(stopIds)
    {
      for i := 0 to |orderedStops|
        invariant stopToRoutes == AddToAll(old(stopToRoutes), Elems(orderedStops[..i]), id)
        invariant routes == old(routes) && stops == old(stops) && stopIds == old(stopIds)
      {
        ElemsPrefix(orderedStops, i + 1);
        stopToRoutes := stopToRoutes[orderedStops[i] := stopToRoutes[orderedStops[i]] + {id}];
      }
      assert orderedStops[..|orderedStops|] == orderedStops;
    }

    /** The routes indexed under `stopId`, each once; none for an
        unregistered stop. */
    method GetRoutesByStop(stopId: string) returns (result: seq<Route>)
      requires Valid()
      ensures stopId !in stopToRoutes ==> result == []
      ensures stopId in stopToRoutes ==> |result| == |stopToRoutes[stopId]|
      ensures forall i :: 0 <= i < |result| ==>
                (result[i].id in routes && result[i] == routes[result[i].id] && stopId in result[i].stops)
      ensures forall rid :: rid in routes && stopId in routes[rid].stops ==> routes[rid] in result
      ensures NoDup(result)
    {
      result := [];
      if stopId !in stopToRoutes {
        return;
      }
      var routeIds := stopToRoutes[stopId];
      var remaining := routeIds;
      while remaining != {}
        invariant remaining <= routeIds
        invariant |result| + |remaining| == |routeIds|
        invariant forall i :: 0 <= i < |result| ==> result[i].id in routeIds - remaining && result[i] == routes[result[i].id]
        invariant forall rid :: rid in routeIds - remaining ==> routes[rid] in result
        invariant NoDup(result)
        decreases |remaining|
      {
        var routeId :| routeId in remaining;
        result := result + [routes[routeId]];
        remaining := remaining - {routeId};
      }
    }

    /** Adds a registered stop to a route at `position`. Fails, changing
        nothing, for an unknown route, an unknown stop or a stop the route
        already has. */
    method AddStopToRoute(routeId: string, stopId: string, position: Option<int>) returns (outcome: Outcome<RouteError>)
      requires Valid()
      modifies this
      ensures Valid()
      ensures routeId !in old(routes) ==> outcome == Fail(RouteNotFound(routeId))
      ensures routeId in old(routes) && stopId !in old(stops) ==> outcome == Fail(StopNotRegistered(stopId))
      ensures routeId in old(routes) && stopId in old(stops) && stopId in old(routes)[routeId].stops ==>
                outcome == Fail(StopAlreadyOnRoute(stopId, routeId))
      ensures outcome.Pass? <==> routeId in old(routes) && stopId in old(stops) && stopId !in old(routes)[routeId].stops
      ensures outcome.Fail? ==> routes == old(routes) && stopToRoutes == old(stopToRoutes)
      ensures outcome.Pass? ==> routes == old(routes)[routeId := WithStop(old(routes)[routeId], stopId, position)]
      ensures outcome.Pass? ==> stopToRoutes == old(stopToRoutes)[stopId := old(stopToRoutes)[stopId] + {routeId}]
      ensures stops == old(stops) && stopIds == old(stopIds)
      ensures old(OrdersExact(routes)) ==> OrdersExact(routes)
    {
      if routeId !in routes {
        return Fail(RouteNotFound(routeId));
      }
      var route := routes[routeId];
      if stopId !in stops {
        return Fail(StopNotRegistered(stopId));
      }
      if stopId in route.stops {
        return Fail(StopAlreadyOnRoute(stopId, routeId));
      }
      AddKeepsConsistent(routes, stopToRoutes, stops, stopIds, routeId, stopId, position);
      routes := routes[routeId := WithStop(route, stopId, position)];
      stopToRoutes := stopToRoutes[stopId := stopToRoutes[stopId] + {routeId}];
      outcome := Pass;
    }

    /** Takes a stop off a route: out of its stop set, its first occurrence
        out of the order, and the route out of the stop's index entry.
        Fails, changing nothing, for an unknown route or a stop the route
        does not have. */
    method RemoveStopFromRoute(routeId: string, stopId: string) returns (outcome: Outcome<RouteError>)
      requires Valid()
      modifies this
      ensures Valid()
      ensures routeId !in old(routes) ==> outcome == Fail(RouteNotFound(routeId))
      ensures routeId in old(routes) && stopId !in old(routes)[routeId].stops ==> outcome == Fail(StopNotOnRoute(stopId, routeId))
      ensures outcome.Pass? <==> routeId in old(routes) && stopId in old(routes)[routeId].stops
      ensures outcome.Fail? ==> routes == old(routes) && stopToRoutes == old(stopToRoutes)
      ensures outcome.Pass? ==> routes == old(routes)[routeId := WithoutStop(old(routes)[routeId], stopId)]
      ensures outcome.Pass? ==> stopId in old(stopToRoutes) && stopToRoutes == old(stopToRoutes)[stopId := old(stopToRoutes)[stopId] - {routeId}]
      ensures stops == old(stops) && stopIds == old(stopIds)
      ensures old(OrdersExact(routes)) ==> OrdersExact(routes)
    {
      if routeId !in routes {
        return Fail(RouteNotFound(routeId));
      }
      var route := routes[routeId];
      if stopId !in route.stops {
        return Fail(StopNotOnRoute(stopId, routeId));
      }
      RemoveKeepsConsistent(routes, stopToRoutes, stops, stopIds, routeId, stopId);
      routes := routes[routeId := WithoutStop(route, stopId)];
      stopToRoutes := stopToRoutes[stopId := stopToRoutes[stopId] - {routeId}];
      outcome := Pass;
    }

    /** The route stored under `routeId`, if any. */
    function GetRoute(routeId: string): (r: Option<Route>)
      reads this
      ensures r.Some? <==> routeId in routes
      ensures r.Some? ==> r.value == routes[routeId]
      ensures Valid() && r.Some? ==> r.value.id == routeId
    {
      if routeId in routes then Some(routes[routeId]) else None
    }

    /** The stop records of a route in its visiting order; none for an
        unknown route. */
    function GetRouteStops(routeId: string): (r: seq<Stop>)
      requires Valid()
      reads this
      ensures routeId !in routes ==> r == []
      ensures routeId in routes ==> |r| == |routes[routeId].order|
      ensures routeId in routes ==> forall i :: 0 <= i < |r| ==> r[i].id == routes[routeId].order[i] && r[i] == stops[r[i].id]
    {
      if routeId !in routes then []
      else
        var order, registered := routes[routeId].order, stops;
        assert forall i :: 0 <= i < |order| ==> order[i] in order;
        seq(|order|, i requires 0 <= i < |order| && order[i] in registered => registered[order[i]])
    }

    /** Whether a route has a stop; false for an unknown route. On a valid
        registry the reverse index gives the same answer. */
    function RouteHasStop(routeId: string, stopId: string): (r: bool)
      reads this
      ensures routeId !in routes ==> !r
      ensures routeId in routes ==> (r <==> stopId in routes[routeId].stops)
      ensures Valid() ==> (r <==> stopId in stopToRoutes && routeId in stopToRoutes[stopId])
    {
      routeId in routes && stopId in routes[routeId].stops
    }

    /** Counts routes and stops and finds the first stop, in registration
        order, served by strictly more routes than every stop before it and
        at least as many as every stop after it. */
    method GetStatistics() returns (statistics: Statistics)
      requires Valid()
      ensures statistics.totalRoutes == |routes| && statistics.totalStops == |stops|
      ensures statistics.mostConnectedStop.None? <==> forall s :: s in stopToRoutes ==> stopToRoutes[s] == {}
      ensures statistics.mostConnectedStop.Some? ==>
                var m := statistics.mostConnectedStop.value;
                exists i :: 0 <= i < |stopIds| && stopIds[i] == m.stop.id && m.stop == stops[stopIds[i]]
                            && m.routeCount == |stopToRoutes[stopIds[i]]|
                            && (forall j :: 0 <= j < i ==> |stopToRoutes[stopIds[j]]| < m.routeCount)
                            && (forall j :: i < j < |stopIds| ==> |stopToRoutes[stopIds[j]]| <= m.routeCount)
    {
      var mostConnectedStop: Option<Connected> := None;
      var maxRoutes := 0;
      ghost var best := 0;
      for i := 0 to |stopIds|
        invariant mostConnectedStop.None? ==> maxRoutes == 0
        invariant mostConnectedStop.None? ==> forall j :: 0 <= j < i ==> stopToRoutes[stopIds[j]] == {}
        invariant mostConnectedStop.Some? ==>
                    && 0 <= best < i && stopIds[best] == mostConnectedStop.value.stop.id
                    && mostConnectedStop.value.stop == stops[stopIds[best]]
                    && 0 < maxRoutes == mostConnectedStop.value.routeCount == |stopToRoutes[stopIds[best]]|
                    && (forall j :: 0 <= j < best ==> |stopToRoutes[stopIds[j]]| < maxRoutes)
                    && (forall j :: best < j < i ==> |stopToRoutes[stopIds[j]]| <= maxRoutes)
      {
        var routeSet := stopToRoutes[stopIds[i]];
        if |routeSet| > maxRoutes {
          maxRoutes := |routeSet|;
          mostConnectedStop := Some(Connected(stops[stopIds[i]], maxRoutes));
          best := i;
        }
      }
      if mostConnectedStop.None? {
        forall s | s in stopToRoutes ensures stopToRoutes[s] == {} {
          var j :| 0 <= j < |stopIds| && stopIds[j] == s;
        }
      } else {
        assert |stopToRoutes[stopIds[best]]| > 0;
      }
      statistics := Statistics(|routes|, |stops|, mostConnectedStop);
    }
  }
}

