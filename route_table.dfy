/**
 * The route table of emit/router/core.py as a pure function of the registry: which
 * destinations each origin name is routed to, given every known name, the subscribe
 * patterns and the ignore patterns of every destination.
 */
module RouteTable {
  import opened Values

  /** The reserved pseudo-origin that `Router.__call__` routes from. */
  const EntryPoint: string := "__entry_point"

  /** `re.compile(pattern).search(name)` succeeds: the regular-expression engine is a parameter. */
  type Search = (string, string) -> bool

  /** origin name -> set of destination names. */
  type Routes = map<string, set<string>>

  /** The registry state the route table is derived from: `names`, `regexes`, `ignore_regexes`. */
  datatype Patterns = Patterns(
    names: set<string>,
    subscribe: map<string, seq<string>>,
    ignore: map<string, seq<string>>)

  /** `any(p.search(name) for p in patterns)` */
  predicate AnyMatch(search: Search, patterns: seq<string>, name: string)
  {
    exists i :: 0 <= i < |patterns| && search(patterns[i], name)
  }

  /** Origin `o` is one of the names the subscribe patterns of destination `d` pick up. */
  predicate Resolves(search: Search, p: Patterns, d: string, o: string)
  {
    d in p.subscribe && o in p.names && o != d && AnyMatch(search, p.subscribe[d], o)
  }

  /** Some ignore pattern of destination `d` matches origin `o`. */
  predicate Ignored(search: Search, p: Patterns, d: string, o: string)
  {
    d in p.ignore && AnyMatch(search, p.ignore[d], o)
  }

  /** The destinations among `ds` whose subscribe patterns resolve origin `o`. */
  function ResolvedBy(search: Search, p: Patterns, ds: set<string>, o: string): set<string>
  {
    set d | d in ds && Resolves(search, p, d, o)
  }

  /** The destinations among `ds` that resolve origin `o` and do not ignore it. */
  function KeptBy(search: Search, p: Patterns, ds: set<string>, o: string): set<string>
  {
    set d | d in ds && Resolves(search, p, d, o) && !Ignored(search, p, d, o)
  }

  /** The known names that some destination among `ds` resolves. */
  function OriginsOf(search: Search, p: Patterns, ds: set<string>): set<string>
  {
    set o | o in p.names && ResolvedBy(search, p, ds, o) != {}
  }

  /**
   * The table after the loop of `regenerate_routes` has handled the destinations `ds`:
   * every resolved origin gets an entry, each (origin, destination) pair it handled is
   * removed when ignored and added otherwise, and every other pair is left as it was.
   */
  function RegenerateOver(search: Search, p: Patterns, ds: set<string>, routes: Routes): Routes
  {
    map o | o in routes.Keys + OriginsOf(search, p, ds) ::
      (Get(routes, o, {}) - ResolvedBy(search, p, ds, o)) + KeptBy(search, p, ds, o)
  }

  /** `regenerate_routes`: the loop over every destination that has subscribe patterns. */
  function Regenerated(search: Search, p: Patterns, routes: Routes): Routes
  {
    RegenerateOver(search, p, p.subscribe.Keys, routes)
  }

  /**
   * What `regenerate_routes` leaves for one (origin, destination) pair: a resolved origin
   * always has an entry, which holds the destination exactly when it does not ignore the
   * origin; a pair that does not resolve is left as it was.
   */
  lemma RegeneratedPair(search: Search, p: Patterns, routes: Routes, o: string, d: string)
    ensures var r := Regenerated(search, p, routes);
      && (o in r <==> o in routes || o in OriginsOf(search, p, p.subscribe.Keys))
      && (Resolves(search, p, d, o) ==> o in r && (d in r[o] <==> !Ignored(search, p, d, o)))
      && (o in r && !Resolves(search, p, d, o) ==> (d in r[o] <==> o in routes && d in routes[o]))
  {
    if Resolves(search, p, d, o) {
      assert d in ResolvedBy(search, p, p.subscribe.Keys, o);
    }
  }

  /** What one pass of the inner loop over the resolved origins `os` of destination `d` does. */
  function HandleOrigins(search: Search, p: Patterns, d: string, os: set<string>, routes: Routes): Routes
  {
    map o | o in routes.Keys + os ::
      if o !in os then routes[o]
      else if Ignored(search, p, d, o) then Get(routes, o, {}) - {d}
      else Get(routes, o, {}) + {d}
  }

  /** The origins the subscribe patterns of `d` resolve: the list `resolved` of `regenerate_routes`. */
  function ResolvedOrigins(search: Search, p: Patterns, d: string): set<string>
  {
    set o | o in p.names && Resolves(search, p, d, o)
  }

  /** Handling one more origin is a single update of the table. */
  lemma HandleOneMore(search: Search, p: Patterns, d: string, os: set<string>, o: string, routes: Routes)
    requires o !in os
    ensures HandleOrigins(search, p, d, os + {o}, routes)
         == HandleOrigins(search, p, d, os, routes)[o :=
              if Ignored(search, p, d, o) then Get(routes, o, {}) - {d} else Get(routes, o, {}) + {d}]
  {
  }

  /** Adding destination `d` to the handled ones adds at most `d` to what resolves origin `o`. */
  lemma ResolvedByOneMore(search: Search, p: Patterns, ds: set<string>, d: string, o: string)
    ensures ResolvedBy(search, p, ds + {d}, o)
         == ResolvedBy(search, p, ds, o) + (if Resolves(search, p, d, o) then {d} else {})
    ensures KeptBy(search, p, ds + {d}, o)
         == KeptBy(search, p, ds, o)
            + (if Resolves(search, p, d, o) && !Ignored(search, p, d, o) then {d} else {})
  {
  }

  /** The entry of any name after regeneration, present or not. */
  lemma GetRegenerateOver(search: Search, p: Patterns, ds: set<string>, routes: Routes, o: string)
    ensures Get(RegenerateOver(search, p, ds, routes), o, {})
         == (Get(routes, o, {}) - ResolvedBy(search, p, ds, o)) + KeptBy(search, p, ds, o)
  {
    if o !in RegenerateOver(search, p, ds, routes) {
      assert ResolvedBy(search, p, ds, o) == {};
      assert KeptBy(search, p, ds, o) == {};
    }
  }

  /** The set algebra of one resolved origin: removing or adding `d` after the update. */
  lemma ResolvedEntryStep(g: set<string>, rb: set<string>, kb: set<string>, d: string)
    requires d !in kb
    ensures ((g - rb) + kb) - {d} == (g - (rb + {d})) + kb
    ensures ((g - rb) + kb) + {d} == (g - (rb + {d})) + (kb + {d})
  {
  }

  /** One origin of `HandleDestination` that `d` resolves. */
  lemma HandleDestinationResolved(search: Search, p: Patterns, ds: set<string>, d: string, routes: Routes, o: string)
    requires d !in ds && Resolves(search, p, d, o)
    ensures var lhs := HandleOrigins(search, p, d, ResolvedOrigins(search, p, d), RegenerateOver(search, p, ds, routes));
      var rhs := RegenerateOver(search, p, ds + {d}, routes);
      o in lhs && o in rhs && lhs[o] == rhs[o]
  {
    var before := RegenerateOver(search, p, ds, routes);
    var lhs := HandleOrigins(search, p, d, ResolvedOrigins(search, p, d), before);
    var rhs := RegenerateOver(search, p, ds + {d}, routes);
    var g, rb, kb := Get(routes, o, {}), ResolvedBy(search, p, ds, o), KeptBy(search, p, ds, o);
    ResolvedByOneMore(search, p, ds, d, o);
    GetRegenerateOver(search, p, ds, routes, o);
    assert o in ResolvedOrigins(search, p, d);
    assert lhs[o] == if Ignored(search, p, d, o) then Get(before, o, {}) - {d} else Get(before, o, {}) + {d};
    assert d in ResolvedBy(search, p, ds + {d}, o);
    assert o in OriginsOf(search, p, ds + {d});
    assert rhs[o] == (g - ResolvedBy(search, p, ds + {d}, o)) + KeptBy(search, p, ds + {d}, o);
    assert d !in kb;
    ResolvedEntryStep(g, rb, kb, d);
  }

  /** One origin of `HandleDestination` that `d` does not resolve. */
  lemma HandleDestinationOther(search: Search, p: Patterns, ds: set<string>, d: string, routes: Routes, o: string)
    requires d !in ds && !Resolves(search, p, d, o)
    ensures var lhs := HandleOrigins(search, p, d, ResolvedOrigins(search, p, d), RegenerateOver(search, p, ds, routes));
      var rhs := RegenerateOver(search, p, ds + {d}, routes);
      && (o in lhs <==> o in rhs)
      && (o in lhs ==> lhs[o] == rhs[o])
  {
    ResolvedByOneMore(search, p, ds, d, o);
    assert o !in ResolvedOrigins(search, p, d);
    assert o in OriginsOf(search, p, ds + {d}) <==> o in OriginsOf(search, p, ds);
  }

  /** Handling every resolved origin of a new destination `d` extends the regeneration by `d`. */
  lemma HandleDestination(search: Search, p: Patterns, ds: set<string>, d: string, routes: Routes)
    requires d !in ds
    ensures HandleOrigins(search, p, d, ResolvedOrigins(search, p, d), RegenerateOver(search, p, ds, routes))
         == RegenerateOver(search, p, ds + {d}, routes)
  {
    var lhs := HandleOrigins(search, p, d, ResolvedOrigins(search, p, d), RegenerateOver(search, p, ds, routes));
    var rhs := RegenerateOver(search, p, ds + {d}, routes);
    forall o
      ensures o in lhs <==> o in rhs
      ensures o in lhs ==> lhs[o] == rhs[o]
    {
      if Resolves(search, p, d, o) {
        HandleDestinationResolved(search, p, ds, d, routes, o);
      } else {
        HandleDestinationOther(search, p, ds, d, routes, o);
      }
    }
  }

  // ---------------------------------------------------------------------------
  // The invariant the registration methods keep.

  /**
   * Outside the pseudo-origin, the table holds exactly the edges the patterns call for:
   * an entry for each resolved name, and in it each destination that resolves it
   * without ignoring it.
   */
  ghost predicate Exact(search: Search, p: Patterns, routes: Routes)
  {
    && (forall o :: o != EntryPoint ==>
          (o in routes <==> o in OriginsOf(search, p, p.subscribe.Keys)))
    && (forall o, d :: o in routes && o != EntryPoint ==>
          (d in routes[o] <==> Resolves(search, p, d, o) && !Ignored(search, p, d, o)))
  }

  /** Outside the pseudo-origin, every entry and every edge is one the patterns resolve. */
  ghost predicate Sound(search: Search, p: Patterns, routes: Routes)
  {
    forall o :: o in routes && o != EntryPoint ==>
      o in OriginsOf(search, p, p.subscribe.Keys)
      && routes[o] <= ResolvedBy(search, p, p.subscribe.Keys, o)
  }

  /** Registration only grows the registry: names are added, and pattern lists are first-write-wins. */
  ghost predicate Extends(p: Patterns, p': Patterns)
  {
    && p.names <= p'.names
    && (forall d :: d in p.subscribe ==> d in p'.subscribe && p'.subscribe[d] == p.subscribe[d])
    && (forall d :: d in p.ignore ==> d in p'.ignore && p'.ignore[d] == p.ignore[d])
  }

  /** Growing the registry never unresolves an edge, so an exact table stays sound. */
  lemma ExtendKeepsSound(search: Search, p: Patterns, p': Patterns, routes: Routes)
    requires Exact(search, p, routes) && Extends(p, p')
    ensures Sound(search, p', routes)
  {
    forall o | o in routes && o != EntryPoint
      ensures o in OriginsOf(search, p', p'.subscribe.Keys)
      ensures routes[o] <= ResolvedBy(search, p', p'.subscribe.Keys, o)
    {
      assert o in OriginsOf(search, p, p.subscribe.Keys);
      var d :| d in ResolvedBy(search, p, p.subscribe.Keys, o);
      assert Resolves(search, p', d, o);
      assert d in ResolvedBy(search, p', p'.subscribe.Keys, o);
    }
  }

  /** Regenerating a sound table makes it exact: stale edges of newly ignored pairs are removed. */
  lemma RegeneratedExact(search: Search, p: Patterns, routes: Routes)
    requires Sound(search, p, routes)
    ensures Exact(search, p, Regenerated(search, p, routes))
  {
    var r := Regenerated(search, p, routes);
    forall o, d | o in r && o != EntryPoint
      ensures d in r[o] <==> Resolves(search, p, d, o) && !Ignored(search, p, d, o)
    {
      if o in routes && d in routes[o] {
        assert d in ResolvedBy(search, p, p.subscribe.Keys, o);
      }
    }
  }

  /** An exact table is determined by the registry alone: registration order does not matter. */
  lemma ExactDetermined(search: Search, p: Patterns, r1: Routes, r2: Routes, o: string)
    requires Exact(search, p, r1) && Exact(search, p, r2) && o != EntryPoint
    ensures o in r1 <==> o in r2
    ensures o in r1 ==> r1[o] == r2[o]
  {
    if o in r1 {
      assert r1[o] == r2[o] by {
        forall d ensures d in r1[o] <==> d in r2[o] {
        }
      }
    }
  }

  /**
   * The table the registry calls for, built directly: an entry for each resolved name,
   * holding the destinations that resolve it without ignoring it.
   */
  ghost function Expected(search: Search, p: Patterns): Routes
  {
    map o | o in OriginsOf(search, p, p.subscribe.Keys) :: KeptBy(search, p, p.subscribe.Keys, o)
  }

  /**
   * An exact table is the expected table when the pseudo-origin is neither an entry of
   * it nor a registered name.
   */
  lemma ExactIsExpected(search: Search, p: Patterns, routes: Routes)
    requires Exact(search, p, routes) && EntryPoint !in routes && EntryPoint !in p.names
    ensures routes == Expected(search, p)
  {
    var e := Expected(search, p);
    assert routes.Keys == e.Keys by {
      forall o ensures o in routes <==> o in e {
        if o == EntryPoint {
          assert o !in OriginsOf(search, p, p.subscribe.Keys);
        }
      }
    }
    forall o | o in routes ensures routes[o] == e[o] {
      assert forall d :: d in routes[o] <==> d in e[o];
    }
  }

  /** Regeneration adds entries only for known names. */
  lemma RegeneratedKeysWithin(search: Search, p: Patterns, routes: Routes)
    ensures Regenerated(search, p, routes).Keys <= routes.Keys + p.names
  {
  }

  /** Regenerating over no destinations changes nothing. */
  lemma RegenerateOverNothing(search: Search, p: Patterns, routes: Routes)
    ensures RegenerateOver(search, p, {}, routes) == routes
  {
    var r := RegenerateOver(search, p, {}, routes);
    assert OriginsOf(search, p, {}) == {} by {
      forall o ensures ResolvedBy(search, p, {}, o) == {} {
      }
    }
    forall o | o in routes ensures r[o] == routes[o] {
      assert ResolvedBy(search, p, {}, o) == {} && KeptBy(search, p, {}, o) == {};
    }
  }

  /** Regeneration only looks at the names and the subscribe patterns to decide the entries. */
  lemma RegeneratedKeys(search: Search, p1: Patterns, p2: Patterns, routes: Routes)
    requires p1.names == p2.names && p1.subscribe == p2.subscribe
    ensures Regenerated(search, p2, Regenerated(search, p1, routes)).Keys == Regenerated(search, p2, routes).Keys
  {
    assert OriginsOf(search, p1, p1.subscribe.Keys) == OriginsOf(search, p2, p2.subscribe.Keys) by {
      forall o ensures ResolvedBy(search, p1, p1.subscribe.Keys, o) == ResolvedBy(search, p2, p2.subscribe.Keys, o) {
      }
    }
  }

  /** One origin of `RegeneratedAbsorbs`. */
  lemma RegeneratedAbsorbsAt(search: Search, p1: Patterns, p2: Patterns, routes: Routes, o: string)
    requires p1.names == p2.names && p1.subscribe == p2.subscribe
    requires o in Regenerated(search, p2, routes)
    requires o in Regenerated(search, p2, Regenerated(search, p1, routes))
    ensures Regenerated(search, p2, Regenerated(search, p1, routes))[o] == Regenerated(search, p2, routes)[o]
  {
    var first := Regenerated(search, p1, routes);
    forall d ensures d in Regenerated(search, p2, first)[o] <==> d in Regenerated(search, p2, routes)[o] {
      RegeneratedPair(search, p1, routes, o, d);
      RegeneratedPair(search, p2, first, o, d);
      RegeneratedPair(search, p2, routes, o, d);
      assert Resolves(search, p1, d, o) == Resolves(search, p2, d, o);
    }
  }

  /**
   * Regenerating with more ignore patterns after regenerating with fewer gives the same
   * table as regenerating once with more: the second pass decides every resolved pair anew.
   */
  lemma RegeneratedAbsorbs(search: Search, p1: Patterns, p2: Patterns, routes: Routes)
    requires p1.names == p2.names && p1.subscribe == p2.subscribe
    ensures Regenerated(search, p2, Regenerated(search, p1, routes)) == Regenerated(search, p2, routes)
  {
    var twice := Regenerated(search, p2, Regenerated(search, p1, routes));
    var once := Regenerated(search, p2, routes);
    RegeneratedKeys(search, p1, p2, routes);
    forall o | o in once ensures twice[o] == once[o] {
      RegeneratedAbsorbsAt(search, p1, p2, routes, o);
    }
  }

  /** Regenerating twice gives the same table as regenerating once. */
  lemma RegeneratedIdempotent(search: Search, p: Patterns, routes: Routes)
    ensures Regenerated(search, p, Regenerated(search, p, routes)) == Regenerated(search, p, routes)
  {
    RegeneratedAbsorbs(search, p, p, routes);
  }

  /** In an exact table no origin other than the pseudo-origin routes to itself. */
  lemma ExactHasNoSelfLoops(search: Search, p: Patterns, routes: Routes, o: string)
    requires Exact(search, p, routes) && o in routes && o != EntryPoint
    ensures o !in routes[o]
  {
  }
}
