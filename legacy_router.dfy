/**
 * emit/router.py: the older router. Nodes record their field schema, and `add_routes`
 * adds the node as a destination of each origin it subscribes to; there are no
 * patterns and no regeneration.
 */
module LegacyRouter {
  import opened Values

  type Routes = map<string, set<string>>

  /** The `subscribes_to` argument: `None`, one string, or a list of names. */
  datatype Origins = NoOrigins | OriginString(text: string) | OriginList(names: seq<string>)

  /** Python truthiness: `None`, `''` and `[]` are false. */
  predicate Truthy(arg: Origins)
  {
    match arg
    case NoOrigins => false
    case OriginString(t) => t != ""
    case OriginList(ns) => ns != []
  }

  /** `list(origins)`: a string becomes the list of its one-character strings. */
  function AsList(arg: Origins): (r: seq<string>)
    requires !arg.NoOrigins?
    ensures arg.OriginString? ==> |r| == |arg.text| && forall i :: 0 <= i < |r| ==> r[i] == [arg.text[i]]
    ensures arg.OriginList? ==> r == arg.names
  {
    match arg
    case OriginString(t) => seq(|t|, i requires 0 <= i < |t| => [t[i]])
    case OriginList(ns) => ns
  }

  /** The table after `destination` is added to the set of every name in `origins`. */
  function WithRoutes(routes: Routes, origins: seq<string>, destination: string): (r: Routes)
    ensures r.Keys == routes.Keys + set o | o in origins
    ensures forall o :: o in origins ==> r[o] == Get(routes, o, {}) + {destination}
    ensures forall o :: o in routes && o !in origins ==> r[o] == routes[o]
  {
    map o | o in routes.Keys + (set x | x in origins) ::
      if o in origins then Get(routes, o, {}) + {destination} else routes[o]
  }

  /** Adding the routes of one more origin is one update of the table. */
  lemma WithRoutesStep(routes: Routes, origins: seq<string>, i: int, destination: string)
    requires 0 <= i < |origins|
    ensures var before := WithRoutes(routes, origins[..i], destination);
      WithRoutes(routes, origins[..i + 1], destination)
      == before[origins[i] := Get(before, origins[i], {}) + {destination}]
  {
    var before := WithRoutes(routes, origins[..i], destination);
    var after := WithRoutes(routes, origins[..i + 1], destination);
    assert origins[..i + 1] == origins[..i] + [origins[i]];
    forall o | o in after ensures after[o] == before[origins[i] := Get(before, origins[i], {}) + {destination}][o] {
      if o != origins[i] && o in origins[..i] {
        assert o in origins[..i + 1];
      }
    }
  }

  /** Adding the same routes twice is the same as adding them once. */
  lemma WithRoutesIdempotent(routes: Routes, origins: seq<string>, destination: string)
    ensures WithRoutes(WithRoutes(routes, origins, destination), origins, destination)
         == WithRoutes(routes, origins, destination)
  {
    var once := WithRoutes(routes, origins, destination);
    var twice := WithRoutes(once, origins, destination);
    forall o | o in twice ensures twice[o] == once[o] {
      if o in origins {
        assert once[o] + {destination} == once[o];
      }
    }
  }

  /** Every existing edge is kept, and each origin given now routes to the destination. */
  lemma WithRoutesGrows(routes: Routes, origins: seq<string>, destination: string, o: string)
    requires o in routes || o in origins
    ensures var r := WithRoutes(routes, origins, destination);
      && o in r
      && (o in routes ==> routes[o] <= r[o])
      && (destination in r[o] <==> o in origins || destination in routes[o])
  {
  }

  /** The field schema `namedtuple(name + '_fields', fields)` records: its type name and field names. */
  datatype Schema = Schema(typeName: string, fieldNames: seq<string>)

  class Router {
    var routes: Routes
    var fields: map<string, Schema>

    /** `__init__(initial_routes)`: the given table, or an empty one when none (or an empty one) is given. */
    constructor (initialRoutes: Option<Routes>)
      ensures routes == (if initialRoutes.Some? then initialRoutes.value else map[])
      ensures fields == map[]
    {
      routes := if initialRoutes.Some? then initialRoutes.value else map[];
      fields := map[];
    }

    /** `add_routes`: each origin in turn gets an entry and the destination joins it. */
    method AddRoutes(origins: seq<string>, destination: string)
      modifies this`routes
      ensures routes == WithRoutes(old(routes), origins, destination)
    {
      var i := 0;
      while i < |origins|
        invariant 0 <= i <= |origins|
        invariant routes == WithRoutes(old(routes), origins[..i], destination)
      {
        var origin := origins[i];
        var current := Get(routes, origin, {});
        WithRoutesStep(old(routes), origins, i, destination);
        routes := routes[origin := current + {destination}];
        i := i + 1;
      }
      assert origins[..i] == origins;
    }

    /**
     * `node(fields, subscribes_to)` applied to a function named `name`: the field schema
     * is recorded under the name, the routes are added only when `subscribes_to` is truthy,
     * and the returned wrapper gives whatever the function gives.
     */
    method Node<A, R>(name: string, fieldNames: seq<string>, subscribesTo: Origins, func: A -> R)
      returns (inner: A -> R)
      modifies this`routes, this`fields
      ensures fields == old(fields)[name := Schema(name + "_fields", fieldNames)]
      ensures routes == if Truthy(subscribesTo) then WithRoutes(old(routes), AsList(subscribesTo), name)
                        else old(routes)
      ensures forall a :: inner(a) == func(a)
    {
      fields := fields[name := Schema(name + "_fields", fieldNames)];
      if Truthy(subscribesTo) {
        AddRoutes(AsList(subscribesTo), name);
      }
      inner := a => func(a);
    }
  }
}
