/**
 * Concrete runs of the core `Router` with a search engine that covers the patterns the
 * registration tests use: literal names, and `.+`. Each replay ends in the exact table
 * the corresponding test expects.
 */
module Scenarios {
  import opened RouteTable
  import opened RouterCore

  predicate StartsWith(name: string, prefix: string)
  {
    |prefix| <= |name| && name[..|prefix|] == prefix
  }

  /** `pattern` occurs somewhere in `name`. */
  predicate Contains(name: string, pattern: string)
    decreases |name|
  {
    StartsWith(name, pattern) || (name != [] && Contains(name[1..], pattern))
  }

  /** A name shorter than the pattern does not contain it. */
  lemma {:induction false} ShorterNeverContains(name: string, pattern: string)
    requires |name| < |pattern|
    ensures !Contains(name, pattern)
    decreases |name|
  {
    if name != [] {
      ShorterNeverContains(name[1..], pattern);
    }
  }

  /** `name` has a character other than a newline, which is what `.+` needs to match. */
  predicate HasLineCharacter(name: string)
  {
    exists i :: 0 <= i < |name| && name[i] != '\n'
  }

  /** `re.compile(pattern).search(name)` for `.+` and for patterns without metacharacters. */
  predicate LiteralSearch(pattern: string, name: string)
  {
    if pattern == ".+" then HasLineCharacter(name) else Contains(name, pattern)
  }

  // ---------------------------------------------------------------------------
  // test_ignored_routes

  function IgnoredRoutesRegistry(): Patterns
  {
    Patterns({"test1", "test2", "test3"},
             map["test1" := [], "test2" := [], "test3" := ["test1", "test2"]],
             map["test3" := ["test2"]])
  }

  /** Which destinations resolve each name: only `test3`'s patterns match anything. */
  lemma IgnoredRoutesResolution(d: string, o: string)
    ensures Resolves(LiteralSearch, IgnoredRoutesRegistry(), d, o)
        <==> d == "test3" && (o == "test1" || o == "test2")
  {
    var p := IgnoredRoutesRegistry();
    assert LiteralSearch(p.subscribe["test3"][0], "test1");
    assert LiteralSearch(p.subscribe["test3"][1], "test2");
    if d == "test3" && o == "test3" {
      assert !Resolves(LiteralSearch, p, d, o);
    }
  }

  /** `test1` and `test2` are the names some destination resolves. */
  lemma IgnoredRoutesOrigins()
    ensures OriginsOf(LiteralSearch, IgnoredRoutesRegistry(), IgnoredRoutesRegistry().subscribe.Keys)
         == {"test1", "test2"}
  {
    var p := IgnoredRoutesRegistry();
    var ds := p.subscribe.Keys;
    forall o ensures ResolvedBy(LiteralSearch, p, ds, o) == if o in {"test1", "test2"} then {"test3"} else {} {
      forall d ensures Resolves(LiteralSearch, p, d, o) <==> d == "test3" && (o == "test1" || o == "test2") {
        IgnoredRoutesResolution(d, o);
      }
    }
  }

  /** `test3` keeps `test1` and ignores `test2`. */
  lemma IgnoredRoutesKept()
    ensures var p := IgnoredRoutesRegistry();
      && KeptBy(LiteralSearch, p, p.subscribe.Keys, "test1") == {"test3"}
      && KeptBy(LiteralSearch, p, p.subscribe.Keys, "test2") == {}
  {
    var p := IgnoredRoutesRegistry();
    forall d ensures Resolves(LiteralSearch, p, d, "test1") <==> d == "test3" {
      IgnoredRoutesResolution(d, "test1");
    }
    forall d ensures Resolves(LiteralSearch, p, d, "test2") <==> d == "test3" {
      IgnoredRoutesResolution(d, "test2");
    }
    assert LiteralSearch(p.ignore["test3"][0], "test2");
    assert !LiteralSearch(p.ignore["test3"][0], "test1") by {
      assert "test1"[1..] == "est1";
      ShorterNeverContains("est1", "test2");
      assert "test1"[..5] != "test2" by { assert "test1"[4] != "test2"[4]; }
    }
  }

  /** `test3` subscribes to `test1` and `test2` and ignores `test2`. */
  lemma IgnoredRoutesTable()
    ensures Expected(LiteralSearch, IgnoredRoutesRegistry()) == map["test1" := {"test3"}, "test2" := {}]
  {
    IgnoredRoutesOrigins();
    IgnoredRoutesKept();
  }

  /** `register_route(None, 'test1')` and `register_route(None, 'test2')` on a new router. */
  method TwoPlainNodes() returns (router: Router)
    ensures fresh(router) && router.search == LiteralSearch && router.Valid()
    ensures router.names == {"test1", "test2"} && router.regexes == map["test1" := [], "test2" := []]
    ensures router.ignoreRegexes == map[] && router.routes.Keys <= {"test1", "test2"}
  {
    router := new Router(LiteralSearch);
    ghost var r0 := router.routes;
    var _ := router.RegisterRoute(NoPatterns, "test1");
    RegeneratedKeysWithin(LiteralSearch, router.Table(), r0);
    ghost var r1 := router.routes;
    var _ := router.RegisterRoute(NoPatterns, "test2");
    RegeneratedKeysWithin(LiteralSearch, router.Table(), r1);
  }

  /**
   * `register_route(None, 'test1')`, `register_route(None, 'test2')`,
   * `register_route(['test1', 'test2'], 'test3')`, `register_ignore('test2', 'test3')`:
   * `test2` keeps an empty entry.
   */
  method ReplayIgnoredRoutes() returns (routes: Routes)
    ensures routes == map["test1" := {"test3"}, "test2" := {}]
  {
    var router := TwoPlainNodes();
    ghost var r2 := router.routes;
    var _ := router.RegisterRoute(PatternList(["test1", "test2"]), "test3");
    RegeneratedKeysWithin(LiteralSearch, router.Table(), r2);
    ghost var r3 := router.routes;
    var _ := router.RegisterIgnore(OnePattern("test2"), "test3");
    RegeneratedKeysWithin(LiteralSearch, router.Table(), r3);
    assert router.routes.Keys <= {"test1", "test2", "test3"};
    assert router.Table() == IgnoredRoutesRegistry();
    routes := router.routes;
    IgnoredRoutesFinal(routes);
  }

  /** Any table exact for this registry, and without the pseudo-origin, is the expected one. */
  lemma IgnoredRoutesFinal(routes: Routes)
    requires Exact(LiteralSearch, IgnoredRoutesRegistry(), routes)
    requires routes.Keys <= {"test1", "test2", "test3"}
    ensures routes == map["test1" := {"test3"}, "test2" := {}]
  {
    ExactIsExpected(LiteralSearch, IgnoredRoutesRegistry(), routes);
    IgnoredRoutesTable();
  }

  // ---------------------------------------------------------------------------
  // test_register_route_regex, test_register_route_before, test_unsubscribed_routes_are_added

  /** `test2` subscribes to `.+`; `test` to `testPatterns`. */
  function RegexRegistry(testPatterns: seq<string>): Patterns
  {
    Patterns({"test", "test2"}, map["test" := testPatterns, "test2" := [".+"]], map[])
  }

  /** `test2` subscribes to everything; `test` to patterns that do not pick up `test2`. */
  lemma RegexTable(testPatterns: seq<string>)
    requires forall i :: 0 <= i < |testPatterns| ==> !LiteralSearch(testPatterns[i], "test2")
    ensures Expected(LiteralSearch, RegexRegistry(testPatterns)) == map["test" := {"test2"}]
  {
    var p := RegexRegistry(testPatterns);
    var ds := p.subscribe.Keys;
    assert LiteralSearch(p.subscribe["test2"][0], "test") by {
      assert "test"[0] != '\n';
    }
    assert Resolves(LiteralSearch, p, "test2", "test");
    assert ResolvedBy(LiteralSearch, p, ds, "test2") == {};
    assert "test2" in ResolvedBy(LiteralSearch, p, ds, "test");
    assert OriginsOf(LiteralSearch, p, ds) == {"test"};
    assert KeptBy(LiteralSearch, p, ds, "test") == {"test2"};
  }

  /** Any table exact for such a registry, and without the pseudo-origin, is the expected one. */
  lemma RegexFinal(testPatterns: seq<string>, routes: Routes)
    requires forall i :: 0 <= i < |testPatterns| ==> !LiteralSearch(testPatterns[i], "test2")
    requires Exact(LiteralSearch, RegexRegistry(testPatterns), routes)
    requires routes.Keys <= {"test", "test2"}
    ensures routes == map["test" := {"test2"}]
  {
    ExactIsExpected(LiteralSearch, RegexRegistry(testPatterns), routes);
    RegexTable(testPatterns);
  }

  /** The pattern `__entry_point` does not pick up `test2`. */
  lemma EntryPointPatternMissesTest2()
    ensures !LiteralSearch("__entry_point", "test2")
  {
    ShorterNeverContains("test2", "__entry_point");
  }

  /** `register_route('__entry_point', 'test')`, then `register_route('.+', 'test2')`. */
  method ReplayRegexAfter() returns (routes: Routes)
    ensures routes == map["test" := {"test2"}]
  {
    var router := new Router(LiteralSearch);
    ghost var r0 := router.routes;
    var _ := router.RegisterRoute(OnePattern("__entry_point"), "test");
    RegeneratedKeysWithin(LiteralSearch, router.Table(), r0);
    ghost var r1 := router.routes;
    var _ := router.RegisterRoute(OnePattern(".+"), "test2");
    RegeneratedKeysWithin(LiteralSearch, router.Table(), r1);
    assert router.routes.Keys <= {"test", "test2"};
    assert router.Table() == RegexRegistry(["__entry_point"]);
    routes := router.routes;
    EntryPointPatternMissesTest2();
    RegexFinal(["__entry_point"], routes);
  }

  /** The same registrations in the other order give the same table. */
  method ReplayRegexBefore() returns (routes: Routes)
    ensures routes == map["test" := {"test2"}]
  {
    var router := new Router(LiteralSearch);
    ghost var r0 := router.routes;
    var _ := router.RegisterRoute(OnePattern(".+"), "test2");
    RegeneratedKeysWithin(LiteralSearch, router.Table(), r0);
    ghost var r1 := router.routes;
    var _ := router.RegisterRoute(OnePattern("__entry_point"), "test");
    RegeneratedKeysWithin(LiteralSearch, router.Table(), r1);
    assert router.routes.Keys <= {"test", "test2"};
    assert router.Table() == RegexRegistry(["__entry_point"]);
    routes := router.routes;
    EntryPointPatternMissesTest2();
    RegexFinal(["__entry_point"], routes);
  }

  /** `register_route('.+', 'test2')`, then `register_route(None, 'test')`: `test` still gets its entry. */
  method ReplayUnsubscribed() returns (routes: Routes)
    ensures routes == map["test" := {"test2"}]
  {
    var router := new Router(LiteralSearch);
    ghost var r0 := router.routes;
    var _ := router.RegisterRoute(OnePattern(".+"), "test2");
    RegeneratedKeysWithin(LiteralSearch, router.Table(), r0);
    ghost var r1 := router.routes;
    var _ := router.RegisterRoute(NoPatterns, "test");
    RegeneratedKeysWithin(LiteralSearch, router.Table(), r1);
    assert router.routes.Keys <= {"test", "test2"};
    assert router.Table() == RegexRegistry([]);
    routes := router.routes;
    RegexFinal([], routes);
  }
}
