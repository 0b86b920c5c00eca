/**
 * emit/router/core.py: the `Router` object. It registers nodes (their fields, callables,
 * subscribe and ignore patterns), keeps the route table in step with the registry, and
 * routes messages from an origin to every current subscriber. Calls into user code are
 * not made: each call `dispatch` would make is recorded in the ghost `trace`.
 */
module RouterCore {
  import opened Values
  import opened RouteTable
  import opened Wrapping
  import Messages
  import opened Deliveries

  /** The `subscribe_to` / `ignore` argument: `None`, one pattern string, or a list of patterns. */
  datatype PatternArg = NoPatterns | OnePattern(pattern: string) | PatternList(patterns: seq<string>)

  /** Python truthiness of the argument: `None`, `''` and `[]` are false. */
  predicate Truthy(arg: PatternArg)
  {
    match arg
    case NoPatterns => false
    case OnePattern(p) => p != ""
    case PatternList(ps) => ps != []
  }

  /** `origins = origins or []`, then a non-list becomes a one-element list (`register_route`). */
  function SubscribeList(arg: PatternArg): seq<string>
  {
    if !Truthy(arg) then []
    else if arg.OnePattern? then [arg.pattern]
    else arg.patterns
  }

  /** The `TypeError` `re.compile(None)` raises. */
  const CompileNoneMessage: string := "first argument must be string or compiled pattern"

  /**
   * `register_ignore` has no `or []`: a non-list, `None` included, becomes a one-element
   * list, and compiling `None` fails.
   */
  function IgnoreList(arg: PatternArg): Result<seq<string>>
  {
    match arg
    case NoPatterns => Err(TypeError(CompileNoneMessage))
    case OnePattern(p) => Ok([p])
    case PatternList(ps) => Ok(ps)
  }

  /** `routes.setdefault('__entry_point', set()).add(destination)` */
  function WithEntryPoint(routes: Routes, destination: string): Routes
  {
    routes[EntryPoint := Get(routes, EntryPoint, {}) + {destination}]
  }

  /**
   * The keyword `dispatch` adds to every call, and the `TypeError` when the message has it
   * too. Python puts the callee's name and `()` in front of this text; only the part that
   * does not depend on the callee is modelled.
   */
  const OriginKeyword: string := "_origin"
  const DuplicateOrigin: string := "got multiple values for keyword argument '_origin'"

  /** Dispatching `message` to each of `subs` succeeds: each has a callable, and the message no `_origin`. */
  predicate Deliverable(subs: set<string>, functions: map<string, Callable>, message: Bundle)
  {
    && subs <= functions.Keys
    && (subs != {} ==> OriginKeyword !in message)
  }

  /**
   * The errors a failed dispatch to one of `subs` propagates: the message already has an
   * `_origin`, or a subscriber has no callable.
   */
  predicate RouteError(e: Error, subs: set<string>, functions: map<string, Callable>)
  {
    e == TypeError(DuplicateOrigin) || (e.KeyError? && e.key in subs && e.key !in functions)
  }

  /** Every message of `messages` can be dispatched to every one of `subs`. */
  predicate AllDeliverable(subs: set<string>, functions: map<string, Callable>, messages: seq<Bundle>)
  {
    forall m :: m in messages ==> Deliverable(subs, functions, m)
  }

  lemma AllDeliverableStep(subs: set<string>, functions: map<string, Callable>, messages: seq<Bundle>, i: int)
    requires 0 <= i < |messages|
    requires AllDeliverable(subs, functions, messages[..i]) && Deliverable(subs, functions, messages[i])
    ensures AllDeliverable(subs, functions, messages[..i + 1])
  {
    assert messages[..i + 1] == messages[..i] + [messages[i]];
  }

  class Router {
    /** The regular-expression engine: `search(pattern, name)` is `re.compile(pattern).search(name)`. */
    const search: Search

    var routes: Routes
    var names: set<string>
    var regexes: map<string, seq<string>>
    var ignoreRegexes: map<string, seq<string>>
    var fields: map<string, seq<string>>
    var functions: map<string, Callable>
    var routingEnabled: bool

    /** Every call `dispatch` has made, in order. */
    ghost var trace: seq<Delivery>

    function Table(): Patterns
      reads this`names, this`regexes, this`ignoreRegexes
    {
      Patterns(names, regexes, ignoreRegexes)
    }

    /** The route table is the one the registry calls for (outside the pseudo-origin). */
    ghost predicate Valid()
      reads this`routes, this`names, this`regexes, this`ignoreRegexes
    {
      Exact(search, Table(), routes)
    }

    /** The destinations `route(origin, ...)` dispatches to. */
    function Subscribers(origin: string): set<string>
      reads this`routingEnabled, this`routes
    {
      if routingEnabled then Get(routes, origin, {}) else {}
    }

    /** Every dispatch of `route(origin, message)` would succeed. */
    predicate CanDeliver(origin: string, message: Bundle)
      reads this`routingEnabled, this`routes, this`functions
    {
      Deliverable(Subscribers(origin), functions, message)
    }

    /** `Router.__init__`: empty registry and table, routing enabled. */
    constructor (search: Search)
      ensures this.search == search && Valid()
      ensures routes == map[] && names == {} && regexes == map[] && ignoreRegexes == map[]
      ensures fields == map[] && functions == map[] && routingEnabled && trace == []
    {
      this.search := search;
      routes := map[];
      names := {};
      regexes := map[];
      ignoreRegexes := map[];
      fields := map[];
      functions := map[];
      routingEnabled := true;
      trace := [];
    }

    /** `add_entry_point`: the destination joins the pseudo-origin's set, which is returned. */
    method AddEntryPoint(destination: string) returns (entries: set<string>)
      requires Valid()
      modifies this`routes
      ensures Valid()
      ensures routes == WithEntryPoint(old(routes), destination)
      ensures entries == routes[EntryPoint]
      ensures destination in entries && Get(old(routes), EntryPoint, {}) <= entries
    {
      var current := Get(routes, EntryPoint, {});
      routes := routes[EntryPoint := current + {destination}];
      entries := routes[EntryPoint];
    }

    /**
     * `regenerate_routes`: for each destination with subscribe patterns, every other known
     * name its patterns match gets an entry, and the edge to the destination is removed
     * when an ignore pattern matches the name and added otherwise.
     */
    method RegenerateRoutes()
      modifies this`routes
      ensures routes == Regenerated(search, Table(), old(routes))
      ensures Sound(search, Table(), old(routes)) ==> Valid()
    {
      var p := Table();
      var pending := regexes.Keys;
      ghost var done: set<string> := {};
      RegenerateOverNothing(search, p, old(routes));
      while pending != {}
        invariant pending + done == regexes.Keys && pending !! done
        invariant routes == RegenerateOver(search, p, done, old(routes))
        decreases pending
      {
        var destination :| destination in pending;
        var origins := regexes[destination];
        var resolved := set name | name in names && name != destination && AnyMatch(search, origins, name);
        assert resolved == ResolvedOrigins(search, p, destination);
        UpdateOrigins(destination, resolved);
        HandleDestination(search, p, done, destination, old(routes));
        pending := pending - {destination};
        done := done + {destination};
      }
      if Sound(search, Table(), old(routes)) {
        RegeneratedExact(search, Table(), old(routes));
      }
    }

    /**
     * The inner loop of `regenerate_routes` for one destination: each resolved origin gets
     * an entry, without the destination when an ignore pattern of it matches the origin
     * and with it otherwise.
     */
    method UpdateOrigins(destination: string, resolved: set<string>)
      modifies this`routes
      ensures routes == HandleOrigins(search, Table(), destination, resolved, old(routes))
    {
      var ignores := Get(ignoreRegexes, destination, []);
      var todo := resolved;
      ghost var seen: set<string> := {};
      while todo != {}
        invariant todo + seen == resolved && todo !! seen
        invariant routes == HandleOrigins(search, Table(), destination, seen, old(routes))
        decreases todo
      {
        var origin :| origin in todo;
        var destinations := Get(routes, origin, {});
        assert destinations == Get(old(routes), origin, {});
        HandleOneMore(search, Table(), destination, seen, origin, old(routes));
        if AnyMatch(search, ignores, origin) {
          routes := routes[origin := destinations - {destination}];
        } else {
          routes := routes[origin := destinations + {destination}];
        }
        todo := todo - {origin};
        seen := seen + {origin};
      }
    }

    /**
     * `register_route`: the destination becomes a known name, its subscribe patterns are
     * stored unless it already has some (first write wins), the table is regenerated and
     * the stored patterns are returned.
     */
    method RegisterRoute(origins: PatternArg, destination: string) returns (patterns: seq<string>)
      requires Valid()
      modifies this`routes, this`names, this`regexes
      ensures Valid()
      ensures names == old(names) + {destination}
      ensures regexes == if destination in old(regexes) then old(regexes)
                         else old(regexes)[destination := SubscribeList(origins)]
      ensures routes == Regenerated(search, Table(), old(routes))
      ensures patterns == regexes[destination]
    {
      ghost var p0 := Table();
      names := names + {destination};
      if destination !in regexes {
        regexes := regexes[destination := SubscribeList(origins)];
      }
      ExtendKeepsSound(search, p0, Table(), routes);
      RegenerateRoutes();
      patterns := regexes[destination];
    }

    /**
     * `register_ignore`: the destination's ignore patterns are stored unless it already has
     * some (first write wins), the table is regenerated and the stored patterns are
     * returned. `None` cannot be compiled, and nothing changes.
     */
    method RegisterIgnore(origins: PatternArg, destination: string) returns (r: Result<seq<string>>)
      requires Valid()
      modifies this`routes, this`ignoreRegexes
      ensures Valid()
      ensures origins.NoPatterns? ==>
        r == Err(TypeError(CompileNoneMessage)) && routes == old(routes) && ignoreRegexes == old(ignoreRegexes)
      ensures !origins.NoPatterns? ==>
        && ignoreRegexes == (if destination in old(ignoreRegexes) then old(ignoreRegexes)
                             else old(ignoreRegexes)[destination := IgnoreList(origins).value])
        && routes == Regenerated(search, Table(), old(routes))
        && r == Ok(ignoreRegexes[destination])
    {
      var compiled := IgnoreList(origins);
      if compiled.Err? {
        return Err(compiled.error);
      }
      ghost var p0 := Table();
      if destination !in ignoreRegexes {
        ignoreRegexes := ignoreRegexes[destination := compiled.value];
      }
      ExtendKeepsSound(search, p0, Table(), routes);
      RegenerateRoutes();
      r := Ok(ignoreRegexes[destination]);
    }

    /**
     * `register`: store the node's fields and callable (last registration wins), register
     * its subscribe patterns, its ignore patterns when given, and mark it as an entry point
     * when asked.
     */
    method Register(name: string, func: Callable, fieldNames: seq<string>, subscribeTo: PatternArg,
                    entryPoint: bool, ignore: PatternArg)
      requires Valid()
      modifies this`routes, this`names, this`regexes, this`ignoreRegexes, this`fields, this`functions
      ensures Valid()
      ensures fields == old(fields)[name := fieldNames]
      ensures functions == old(functions)[name := func]
      ensures names == old(names) + {name}
      ensures regexes == if name in old(regexes) then old(regexes)
                         else old(regexes)[name := SubscribeList(subscribeTo)]
      ensures ignoreRegexes == if !Truthy(ignore) || name in old(ignoreRegexes) then old(ignoreRegexes)
                               else old(ignoreRegexes)[name := IgnoreList(ignore).value]
      ensures var table := Regenerated(search, Table(), old(routes));
        routes == if entryPoint then WithEntryPoint(table, name) else table
    {
      fields := fields[name := fieldNames];
      functions := functions[name := func];
      ghost var routes0 := routes;
      var _ := RegisterRoute(subscribeTo, name);
      if Truthy(ignore) {
        ghost var p1 := Table();
        var _ := RegisterIgnore(ignore, name);
        RegeneratedAbsorbs(search, p1, Table(), routes0);
      }
      if entryPoint {
        var _ := AddEntryPoint(name);
      }
    }

    /** `disable_routing`: later routes dispatch nothing; the table is kept. */
    method DisableRouting()
      modifies this`routingEnabled
      ensures !routingEnabled
    {
      routingEnabled := false;
    }

    /** `enable_routing`: routing resumes with the table as it is. */
    method EnableRouting()
      modifies this`routingEnabled
      ensures routingEnabled
    {
      routingEnabled := true;
    }

    /**
     * `dispatch`: look up the destination's callable (a `KeyError` when it has none) and
     * call it with the message's fields and the origin as `_origin`, which fails when the
     * message already has an `_origin` field.
     */
    method Dispatch(origin: string, destination: string, message: Bundle) returns (r: Result<()>)
      modifies this`trace
      ensures destination !in functions ==> r == Err(KeyError(destination)) && trace == old(trace)
      ensures destination in functions && OriginKeyword in message ==>
        r == Err(TypeError(DuplicateOrigin)) && trace == old(trace)
      ensures destination in functions && OriginKeyword !in message ==>
        r == Ok(()) && trace == old(trace) + [Delivery(origin, destination, message)]
    {
      if destination !in functions {
        return Err(KeyError(destination));
      }
      if OriginKeyword in message {
        return Err(TypeError(DuplicateOrigin));
      }
      trace := trace + [Delivery(origin, destination, message)];
      return Ok(());
    }

    /**
     * `route`: nothing when routing is disabled or the origin has no entry; otherwise one
     * dispatch per subscriber, in the set's (unspecified) order, stopping at the first
     * failing dispatch.
     */
    method Route(origin: string, message: Bundle) returns (r: Result<()>)
      modifies this`trace
      ensures old(trace) <= trace
      ensures r.Ok? <==> CanDeliver(origin, message)
      ensures r.Ok? ==> DeliversOnce(trace[|old(trace)|..], origin, Subscribers(origin), message)
      ensures r.Err? ==> RouteError(r.error, Subscribers(origin), functions)
      ensures r.Err? ==> DeliversPart(trace[|old(trace)|..], origin, Subscribers(origin), message)
    {
      if !routingEnabled {
        SuffixAfter(trace, []);
        return Ok(());
      }
      r := DispatchAll(origin, Get(routes, origin, {}), message);
    }

    /** The loop of `route`: dispatch to each of `subs` in turn, stopping at the first failure. */
    method DispatchAll(origin: string, subs: set<string>, message: Bundle) returns (r: Result<()>)
      modifies this`trace
      ensures old(trace) <= trace
      ensures r.Ok? <==> Deliverable(subs, functions, message)
      ensures r.Ok? ==> DeliversOnce(trace[|old(trace)|..], origin, subs, message)
      ensures r.Err? ==> RouteError(r.error, subs, functions)
      ensures r.Err? ==> DeliversPart(trace[|old(trace)|..], origin, subs, message)
    {
      var pending := subs;
      ghost var done: set<string> := {};
      ghost var sent: seq<Delivery> := [];
      ghost var callables := functions;
      while pending != {}
        invariant pending + done == subs && pending !! done
        invariant callables == functions
        invariant trace == old(trace) + sent
        invariant DeliversOnce(sent, origin, done, message)
        invariant done <= callables.Keys
        invariant done != {} ==> OriginKeyword !in message
        decreases pending
      {
        var destination :| destination in pending;
        r := Dispatch(origin, destination, message);
        if r.Err? {
          SuffixAfter(old(trace), sent);
          assert done < subs && DeliversOnce(trace[|old(trace)|..], origin, done, message);
          return;
        }
        DeliversOnceOneMore(sent, origin, done, message, destination);
        AppendAssociative(old(trace), sent, [Delivery(origin, destination, message)]);
        sent := sent + [Delivery(origin, destination, message)];
        pending := pending - {destination};
        done := done + {destination};
      }
      SuffixAfter(old(trace), sent);
      return Ok(());
    }

    /** `__call__(**kwargs)`: route the keyword arguments from the pseudo-origin. */
    method Call(kwargs: Bundle) returns (r: Result<()>)
      modifies this`trace
      ensures old(trace) <= trace
      ensures r.Ok? <==> CanDeliver(EntryPoint, kwargs)
      ensures r.Ok? ==> DeliversOnce(trace[|old(trace)|..], EntryPoint, Subscribers(EntryPoint), kwargs)
      ensures r.Err? ==> RouteError(r.error, Subscribers(EntryPoint), functions)
      ensures r.Err? ==> DeliversPart(trace[|old(trace)|..], EntryPoint, Subscribers(EntryPoint), kwargs)
    {
      r := Route(EntryPoint, kwargs);
    }

    /** Routes each message in turn, stopping at the first failure. */
    method RouteEach(origin: string, messages: seq<Bundle>) returns (r: Result<()>)
      modifies this`trace
      ensures old(trace) <= trace
      ensures r.Ok? <==> AllDeliverable(Subscribers(origin), functions, messages)
      ensures r.Ok? ==> DeliversEach(trace[|old(trace)|..], origin, Subscribers(origin), messages)
      ensures r.Err? ==> RouteError(r.error, Subscribers(origin), functions)
      ensures r.Err? ==> DeliversEachThenPart(trace[|old(trace)|..], origin, Subscribers(origin), messages)
    {
      var i := 0;
      ghost var sent: seq<Delivery> := [];
      ghost var subs := Subscribers(origin);
      ghost var callables := functions;
      while i < |messages|
        invariant 0 <= i <= |messages|
        invariant subs == Subscribers(origin) && callables == functions
        invariant trace == old(trace) + sent
        invariant AllDeliverable(subs, callables, messages[..i])
        invariant DeliversEach(sent, origin, subs, messages[..i])
      {
        ghost var t0 := trace;
        var routed := Route(origin, messages[i]);
        if routed.Err? {
          ghost var block := trace[|t0|..];
          PrefixSplit(t0, trace);
          AppendAssociative(old(trace), sent, block);
          SuffixAfter(old(trace), sent + block);
          assert (sent + block)[..|sent|] == sent && (sent + block)[|sent|..] == block;
          assert DeliversEach(sent, origin, subs, messages[..i]);
          return routed;
        }
        AllDeliverableStep(subs, callables, messages, i);
        ghost var block := trace[|t0|..];
        PrefixSplit(t0, trace);
        DeliversEachStep(sent, block, origin, subs, messages, i);
        AppendAssociative(old(trace), sent, block);
        sent := sent + block;
        i := i + 1;
      }
      assert messages[..i] == messages;
      SuffixAfter(old(trace), sent);
      return Ok(());
    }

    /**
     * The function `wrap_as_node` returns, called with `args` and `kwargs`, for a node
     * whose body, given the message, returns `body(message)`. A generator is drained and
     * its items wrapped before anything is routed; `NoResult` items are dropped; a direct
     * `NoResult` is returned without routing.
     */
    method CallNode(name: string, body: Messages.Message -> Returned, args: seq<Value>, kwargs: Bundle)
      returns (r: Result<Output>)
      modifies this`trace
      ensures old(trace) <= trace
      ensures GetMessageFromCall(args, kwargs).Err? ==>
        r == Err(GetMessageFromCall(args, kwargs).error) && trace == old(trace)
      ensures GetMessageFromCall(args, kwargs).Ok? ==>
        NodeOutcome(name, body(GetMessageFromCall(args, kwargs).value), r, trace[|old(trace)|..])
    {
      var call := GetMessageFromCall(args, kwargs);
      if call.Err? {
        return Err(call.error);
      }
      var returned := body(call.value);
      match returned {
        case Generator(items, failure) =>
          var results := Materialize(fields, name, items, failure);
          if results.Err? {
            return Err(results.error);
          }
          var routed := RouteEach(name, results.value);
          if routed.Err? {
            return Err(routed.error);
          }
          return Ok(Many(results.value));
        case Direct(NoResult) =>
          return Ok(Suppressed);
        case Direct(Emit(v)) =>
          var wrapped := WrapResult(fields, name, v);
          if wrapped.Err? {
            return Err(wrapped.error);
          }
          var routed := RouteEach(name, [wrapped.value]);
          if routed.Err? {
            return Err(routed.error);
          }
          return Ok(Single(wrapped.value));
        case Raised(reason) =>
          return Err(NodeRaised(reason));
      }
    }

    /**
     * What calling the wrapped node did, given what its body returned: when `Plan` fails
     * nothing is routed; otherwise the call succeeds exactly when every routed message can
     * be delivered, and then returns the plan and delivers each routed message, in order;
     * when it fails, the messages before the failing one were delivered in full and the
     * failing one to some of its subscribers only.
     */
    ghost predicate NodeOutcome(name: string, returned: Returned, r: Result<Output>, delivered: seq<Delivery>)
      reads this`routingEnabled, this`routes, this`functions, this`fields
    {
      var plan := Plan(fields, name, returned);
      && (plan.Err? ==> r == plan && delivered == [])
      && (plan.Ok? ==>
            && (r.Ok? <==> AllDeliverable(Subscribers(name), functions, Routed(plan.value)))
            && (r.Ok? ==> r == plan && DeliversEach(delivered, name, Subscribers(name), Routed(plan.value)))
            && (r.Err? ==> RouteError(r.error, Subscribers(name), functions))
            && (r.Err? ==> DeliversEachThenPart(delivered, name, Subscribers(name), Routed(plan.value))))
    }
  }
}
