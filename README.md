# emit: a verified model of the dispatch graph

emit builds a processing graph out of plain functions. Each function is registered as a
*node* with the names of its output fields, the names it subscribes to (regular
expressions), the names it ignores (regular expressions) and whether it is an entry point.
The router keeps a route table from each origin name to the set of destinations whose
subscribe patterns match that name and whose ignore patterns do not. When a node is called,
its wrapped form does three things:

- It turns the call's arguments into a `Message`.
- It runs the function and zips the result with the declared fields.
- It routes every resulting message to each current subscriber.

This project models that core in Dafny:

- **`Values`** (`values.dfy`): the dynamically typed values, keyword bundles, callables and
  the exceptions the core raises, as a `Result`.
- **`Messages`** (`message.dfy`), from `emit/message.py`: the `Message` wrapper. It covers
  attribute access and `dir()`. `StringOrder` (`string_order.dfy`) holds the string
  ordering and the sort that `dir()` needs.
- **`Wrapping`** (`wrapping.dfy`), from `emit/router/core.py`:
  - `get_message_from_call` and `wrap_result`.
  - What the wrapped node does with a direct return, a generator, `NoResult` and an
    exception: `Plan`.
- **`RouteTable`** (`route_table.dfy`): the route table as a function of the registry.
  - `Regenerated` is the closed form of `regenerate_routes`.
  - `Exact` is the invariant that ties the table to the registry.
  - `Expected` is an independent definition of the table the registry calls for.
- **`Deliveries`** (`deliveries.dfy`): what "each subscriber receives the message exactly
  once" means for a record of deliveries.
- **`RouterCore`** (`router_core.dfy`): the `Router` class with the state it updates in
  place: routes, names, patterns, fields, functions and the routing switch. Its methods
  register nodes, regenerate the table, route and dispatch. Each call a dispatch would make
  is recorded in a ghost `trace`.
- **`Graphviz`** (`graphviz.dfy`): `make_digraph`.
- **`Transactions`** (`transactions.dfy`): `BaseTransactionHandler`.
- **`LegacyRouter`** (`legacy_router.dfy`): the older `emit/router.py`.
- **`Scenarios`** (`scenarios.dfy`): the registration tests replayed on the `Router` class.
  It uses a search function that covers literal names and `.+`, and each replay ends in
  exactly the table its test expects.

The regular-expression engine is a parameter (`search(pattern, name)` stands for
`re.compile(pattern).search(name)`). Every property of the route table holds for any
search function.

Behaviours of the code that the model follows closely:

- **Re-registering a name.** `register` overwrites `fields` and `functions`
  (emit/router/core.py:217-218). Subscribe and ignore patterns are stored with
  `setdefault` (emit/router/core.py:262 and 285), so the first patterns a name is given
  stay (`RegisterRoute`, `RegisterIgnore`, `Register`).
- **Exceptions.** The code raises Python's own exceptions, and the model uses exactly
  those:
  - `TypeError` for a badly shaped node call (emit/router/core.py:201) and for a message
    that already carries `_origin` (emit/router/core.py:361).
  - `AttributeError` for a missing message field (emit/message.py:11-13).
  - `ValueError` for a node that is not registered (no `fields` entry) (emit/router/core.py:384).
  - `KeyError` for a destination without a callable (emit/router/core.py:359).
- **`register_ignore(None, d)`.** It raises `TypeError`, because `re.compile(None)` is
  called (emit/router/core.py:282-285); there is no `or []` as in `register_route`
  (emit/router/core.py:258).
- **The pseudo-origin.** `__entry_point` is written directly by `add_entry_point`
  (emit/router/core.py:237) and is not derived from any pattern. The table invariant covers
  every other origin.

## Model

| member | source | states |
|---|---|---|
| Messages.New | emit/message.py:4-5 | the bundle has the keys of the positional mapping and of the keywords; a keyword overrides the mapping's entry, other entries keep the mapping's value |
| Messages.Attribute | emit/message.py:7-13 | a name ordinary lookup finds (`bundle`, `__dict__`, or an attribute of `Message` or `object`) always succeeds: `bundle` is the whole dictionary and `__dict__` holds only `bundle`; any other name succeeds exactly when it is a key of the bundle and gives its value, and otherwise fails with `AttributeError` and the quoted message |
| Messages.ClassAttributeShadowsBundle | emit/message.py:2-13 | a bundle key named like a class attribute is shadowed: reading it gives the same object whatever the bundle holds |
| Messages.AttributeOfKeyword | emit/message.py:4-13 | a message built from keyword arguments gives back, as an attribute, the value of each argument whose name ordinary lookup does not find |
| Messages.Dir | emit/message.py:15-17 | the listing is sorted, is a permutation of the bundle's keys plus `bundle` (so a key named `bundle` appears twice), and is one longer than the key set |
| StringOrder.SortSet | emit/message.py:17 | `sorted` of a set of keys: sorted, the same members, as many entries as the set |
| StringOrder.Insert | emit/message.py:17 | inserting into a sorted list keeps it sorted and adds exactly one occurrence |
| StringOrder.LeTotal | emit/message.py:17 | the order `sorted` uses compares every pair of strings |
| StringOrder.LeTransitive | emit/message.py:17 | the order `sorted` uses is transitive |
| Wrapping.GetMessageFromCall | emit/router/core.py:175-203 | a call succeeds exactly when it is one dictionary argument or keyword arguments only (not none); it gives the message of that dictionary or of the keywords; every other shape is a `TypeError` |
| Wrapping.Zip | emit/router/core.py:380 | `zip` pairs elements by position and is as long as the shorter side |
| Wrapping.DictOfKeys | emit/router/core.py:380 | `dict(pairs)` has exactly the first components as keys |
| Wrapping.DictOfValues | emit/router/core.py:380 | in `dict(pairs)` a key maps to the value of its last pair |
| Wrapping.DictOfZip | emit/router/core.py:380 | `dict(zip(fields, values))` has as keys exactly the fields that have a value, and a field that does not occur again later maps to the value at its position |
| Wrapping.WrapResult | emit/router/core.py:363-384 | fails exactly when the node is not registered (no `fields` entry), with the `ValueError` text; otherwise the message is the fields zipped with the result taken as a tuple |
| Wrapping.WrapResultDistinct | emit/router/core.py:376-380 | with distinct field names, field `i` holds element `i` of the result for every position both sides have |
| Wrapping.WrapScalar | emit/router/core.py:376-377 | a non-tuple result fills exactly the first declared field |
| Wrapping.Emitted | emit/router/core.py:80-84 | the kept items are exactly the non-`NoResult` items, and the dropped ones are exactly the `NoResult` occurrences |
| Wrapping.EmittedConcat | emit/router/core.py:80-84 | dropping `NoResult` acts item by item and keeps produced order |
| Wrapping.Materialize | emit/router/core.py:79-90 | a generator that raises, or yields a value for a node that is not registered (no `fields` entry), fails with that error; otherwise every kept item is wrapped, in order, before anything is routed |
| Wrapping.Plan | emit/router/core.py:66-103 | a direct `NoResult` is returned unrouted; a direct value is wrapped, or fails with the no-fields `ValueError`; a body exception propagates; a generator succeeds exactly when draining it does, gives the tuple of the drained messages, and otherwise fails with the draining error |
| RouteTable.RegeneratedPair | emit/router/core.py:290-317 | after regeneration an edge is present exactly when a subscribe pattern resolves it and no ignore pattern matches, or, for pairs regeneration does not handle, when it was present before |
| RouteTable.HandleOneMore | emit/router/core.py:301-317 | handling one more resolved origin updates only that origin's entry: the destination is removed when ignored and added otherwise |
| RouteTable.HandleDestination | emit/router/core.py:292-317 | handling one more destination in the outer loop extends the closed form to that destination |
| RouteTable.RegenerateOverNothing | emit/router/core.py:292-317 | a loop that has handled no destination has left the table as it was |
| RouteTable.ExtendKeepsSound | emit/router/core.py:255-285 | adding names and patterns to a registry keeps every existing edge one the new registry resolves |
| RouteTable.RegeneratedExact | emit/router/core.py:290-317 | regenerating a sound table gives the exact table: an entry for every resolved origin, an edge exactly when subscribed and not ignored |
| RouteTable.ExactDetermined | emit/router/core.py:290-317 | two exact tables of the same registry agree on every origin but the pseudo-origin: the table is a function of the registry |
| RouteTable.ExactIsExpected | emit/router/core.py:290-317 | an exact table without the pseudo-origin is the independently defined expected table |
| RouteTable.ExactHasNoSelfLoops | emit/router/core.py:296 | no node is routed to itself |
| RouteTable.RegeneratedKeysWithin | emit/router/core.py:301-302 | regeneration only adds entries for known names |
| RouteTable.RegeneratedIdempotent | emit/router/core.py:290-317 | regenerating twice is regenerating once |
| RouteTable.RegeneratedAbsorbs | emit/router/core.py:220-223 | regenerating after subscribe patterns are registered and again after ignore patterns are added is the same as regenerating once with both |
| RouteTable.RegeneratedKeys | emit/router/core.py:220-223 | with the same names and subscribe patterns, regenerating a second time (after ignore patterns change) produces the same entries as regenerating once |
| Deliveries.DeliversOnceIsOncePerDestination | emit/router/core.py:344-348 | a delivery record built one subscriber at a time delivers the message from the origin to every subscriber, to nothing else, and to none twice |
| Deliveries.OncePerDestinationDeliversOnce | emit/router/core.py:344-348 | conversely, any record with those three properties is one built one subscriber at a time |
| Deliveries.DeliversOnceLength | emit/router/core.py:346-348 | one delivery per subscriber: the record is as long as the subscriber set |
| Deliveries.DeliversPartWithin | emit/router/core.py:344-348 | a route stopped by a failing dispatch has made fewer deliveries than there are subscribers, all to subscribers, none twice |
| Deliveries.DeliversOnceOneMore | emit/router/core.py:346-348 | one more dispatch to a new subscriber extends a record that delivers once |
| Deliveries.DeliversEachAppend | emit/router/core.py:89 | routing one more message after the earlier ones extends the record of each message in order |
| Deliveries.DeliversEachNone | emit/router/core.py:341-346 | with no subscribers, routing any number of messages delivers nothing |
| RouterCore.Router.constructor | emit/router/core.py:13-47 | empty registry, empty table, routing enabled, and the table invariant holds |
| RouterCore.Router.AddEntryPoint | emit/router/core.py:230-238 | the destination joins the pseudo-origin's set, earlier entry points stay, the set is returned, and the invariant is kept |
| RouterCore.Router.RegenerateRoutes | emit/router/core.py:290-317 | the new table is the closed form of the loop over the old one, and it is exact whenever the old one was sound |
| RouterCore.Router.UpdateOrigins | emit/router/core.py:300-317 | the inner loop handles exactly the resolved origins of one destination |
| RouterCore.Router.RegisterRoute | emit/router/core.py:240-265 | the name becomes known, its subscribe patterns are stored only if it has none yet, the table is regenerated and stays exact, and the stored patterns are returned |
| RouterCore.Router.RegisterIgnore | emit/router/core.py:267-288 | `None` fails with `TypeError` and changes nothing; otherwise ignore patterns are stored only if the name has none yet, the table is regenerated and stays exact, and the stored patterns are returned |
| RouterCore.Router.Register | emit/router/core.py:205-228 | fields and callable are overwritten, subscribe and ignore patterns are kept first-wins, the table is regenerated once over the combined registry and stays exact, and the entry point is added when asked |
| RouterCore.Router.DisableRouting | emit/router/core.py:319-321 | routing is switched off |
| RouterCore.Router.EnableRouting | emit/router/core.py:323-325 | routing is switched back on |
| RouterCore.Router.Dispatch | emit/router/core.py:350-361 | an unknown destination is a `KeyError`; a message already holding `_origin` is a `TypeError`; otherwise exactly one delivery is recorded |
| RouterCore.Router.Route | emit/router/core.py:327-348 | routing succeeds exactly when every current subscriber has a callable and the message has no `_origin`; on success each subscriber gets the message exactly once and nothing else is delivered; a failure is one of those two errors, and by then the message went once each to a proper subset of the subscribers and to nobody else; disabled routing delivers nothing |
| RouterCore.Router.DispatchAll | emit/router/core.py:344-348 | the loop over a subscriber set succeeds exactly when each can be dispatched to, and then delivers once to each; when it stops at a failing dispatch, it has delivered once each to a proper subset of them and to nothing else |
| RouterCore.Router.Call | emit/router/core.py:49-59 | calling the router succeeds exactly when every entry point can take the keyword arguments, and then routes them from the pseudo-origin to each entry point exactly once; a failure is the duplicate-`_origin` `TypeError` or the `KeyError` of an entry point without a callable, after deliveries to a proper subset of the entry points, once each |
| RouterCore.Router.RouteEach | emit/router/core.py:89 | routing a node's results one after another succeeds exactly when every one can be delivered, and then delivers each message once per subscriber, messages in produced order; a failure is one of the two dispatch errors for a current subscriber, after complete deliveries of the earlier messages and a partial one of the failing message |
| RouterCore.Router.CallNode | emit/router/core.py:61-105 | a badly shaped call fails with nothing routed; otherwise the outcome is the node's plan: nothing routed when wrapping or the body fails, and on success the plan's messages routed in order, each once per subscriber; when routing them fails, the error is one of the two dispatch errors for a subscriber of the node, after complete deliveries of the earlier messages and a partial one of the failing message |
| Graphviz.JoinAppend | emit/graphviz.py:10 | joining one more line puts exactly one newline before it |
| Graphviz.Render | emit/graphviz.py:2-10 | the text starts with the `digraph name {` header and ends with the closing brace |
| Graphviz.RenderEmpty | emit/graphviz.py:2-10 | an empty table renders as the header followed directly by the footer |
| Graphviz.MakeRouterDigraph | emit/graphviz.py:1-2 | without a name the graph is called `router`: the text starts `digraph router {` and lists every edge of the table once |
| Graphviz.MakeDigraph | emit/graphviz.py:1-10 | the text renders a list that holds every edge of the table exactly once and nothing else, after visiting every origin once |
| Graphviz.AppendEdgeLines | emit/graphviz.py:7-8 | the inner loop adds one line per destination of the origin and nothing else |
| Graphviz.EnumerationCount | emit/graphviz.py:5-8 | the digraph has as many edge lines as the table has pairs |
| Transactions.WithTransaction | emit/transactions/base.py:7-11 | the node joins the transaction, keeps its other transactions, and every other node is unchanged |
| Transactions.WithTransactionIdempotent | emit/transactions/base.py:7-11 | adding the same membership twice is adding it once |
| Transactions.WithTransactionCommutes | emit/transactions/base.py:7-11 | the order of additions does not matter |
| Transactions.BaseTransactionHandler.constructor | emit/transactions/base.py:3-5 | no transactions and no rollback functions |
| Transactions.BaseTransactionHandler.AddTransaction | emit/transactions/base.py:7-11 | the membership is added, and the node's whole transaction set is returned |
| Transactions.BaseTransactionHandler.AddRollback | emit/transactions/base.py:13-15 | always `NotImplementedError` |
| Transactions.BaseTransactionHandler.SetTransactionId | emit/transactions/base.py:17-19 | always `NotImplementedError` |
| Transactions.BaseTransactionHandler.StartCall | emit/transactions/base.py:21-23 | always `NotImplementedError` |
| Transactions.BaseTransactionHandler.FinishCall | emit/transactions/base.py:25-27 | always `NotImplementedError` |
| Transactions.BaseTransactionHandler.Rollback | emit/transactions/base.py:29-31 | always `NotImplementedError` |
| LegacyRouter.AsList | emit/router.py:30 | `list(origins)` of a string is its one-character strings; of a list, the list itself |
| LegacyRouter.WithRoutes | emit/router.py:28-32 | every origin given gets an entry containing the destination and keeps its earlier destinations; other entries are unchanged |
| LegacyRouter.WithRoutesStep | emit/router.py:30-32 | one pass of the loop is one table update |
| LegacyRouter.WithRoutesIdempotent | emit/router.py:28-32 | adding the same routes twice is adding them once |
| LegacyRouter.WithRoutesGrows | emit/router.py:28-32 | no edge is ever removed, and the destination is routed from exactly the given origins plus those that had it |
| LegacyRouter.Router.constructor | emit/router.py:6-8 | the initial table when one is given, else empty; no fields |
| LegacyRouter.Router.AddRoutes | emit/router.py:28-32 | the loop leaves the table `WithRoutes` describes |
| LegacyRouter.Router.Node | emit/router.py:10-26 | the schema is recorded under the node name; routes are added only for a truthy `subscribes_to`; the returned function behaves like the original |
| Scenarios.ReplayIgnoredRoutes | tests/router_core_tests.py:274-287 | `test1` routes to `test3`, and `test2` keeps an empty entry after `test3` ignores it |
| Scenarios.IgnoredRoutesTable | tests/router_core_tests.py:274-287 | the expected table of that registry is the one the test asserts |
| Scenarios.IgnoredRoutesFinal | tests/router_core_tests.py:284-287 | any exact table for that registry with only registered names as entries is that table |
| Scenarios.RegexTable | tests/router_core_tests.py:244-272 | when `test2` subscribes to `.+` and `test`'s patterns do not find `test2`, the expected table routes `test` to `test2` only |
| Scenarios.RegexFinal | tests/router_core_tests.py:249-252 | any exact table for such a registry with only registered names as entries routes `test` to `test2` and nothing else |
| Scenarios.ReplayRegexAfter | tests/router_core_tests.py:244-252 | a pattern that matches no name plus `.+` registered after it gives `{test: {test2}}` |
| Scenarios.ReplayRegexBefore | tests/router_core_tests.py:254-262 | `.+` registered first still picks up the name registered later |
| Scenarios.ReplayUnsubscribed | tests/router_core_tests.py:264-272 | a node without subscriptions registered after `.+` still gets its entry |

## Left out

- RouterCore.Router.Dispatch: the destination's function is not called; the delivery is recorded in a ghost trace. A subscriber that routes further, or raises, is therefore not modelled. The depth-first recursion of dispatch is not modelled either.
- RouterCore.Router.Route: `resolve_node_modules` (emit/router/core.py:161-173, importing the configured node modules before the first route) is a foreign import and is not modelled.
- RouterCore.Router.Route: subscribers are visited in the set's iteration order, which Python leaves unspecified. The contract states which deliveries are made, not their order.
- RouterCore.Router.RegenerateRoutes: the invariant `Exact` covers every origin except `__entry_point`, which `add_entry_point` writes directly. `ExactIsExpected` needs `__entry_point` not to be a registered name.
- RouterCore.Router.RegisterRoute: compiling a malformed pattern (`re.error`) and patterns given as tuples or other iterables are not modelled. The argument is `None`, one string or a list.
- RouterCore.Router.RegenerateRoutes: `name is not destination` is an identity test. The model uses string equality, because a name and its pattern-table key are always the same stored object.
- The regular-expression engine: it is a parameter of the router. `Scenarios.LiteralSearch` covers only literal patterns and `.+`.
- Logging: every logger call is left out.
- `Router.node`, `get_name` and the `wrap_node` hook (emit/router/core.py:107-159, 386-399): decorator plumbing and Python introspection. `CallNode` takes the node's name and body directly.
- `message_class`: the router always uses the `Message` of emit/message.py. emit.messages, from which core.py imports `Message` and `NoResult`, is not part of this model; `NoResult` is the `Item.NoResult` constructor.
- Messages.Attribute: the objects ordinary lookup finds on the class (`__class__`, `__doc__`, `__init__`, the other methods of `Message` and `object`) are modelled as opaque `Builtin` values. The names are those of Python 2's `object` and of `Message`; Python 3 adds more.
- Messages.Dir: `['bundle'] + self.bundle.keys()` relies on Python 2, where `keys()` is a list. Under Python 3 it would raise `TypeError`, which is not modelled.
- Messages.New: bundles have string keys only; a positional argument that is a sequence of pairs rather than a mapping is not modelled.
- LegacyRouter.Router.Node: `namedtuple` validation of field names (invalid identifiers raise `ValueError`) is not modelled. The wrapper is modelled as a one-argument function.
- LegacyRouter.Router.constructor: the router keeps a reference to a non-empty `initial_routes` and mutates it in place. That aliasing is not modelled: the model copies the table.
- Graphviz.MakeDigraph: edges come out in dictionary and set iteration order, which is unspecified. The contract states which edges appear, not their order.
- The celery and rq routers, multilang, and the transaction decorator and runtime: outside the modelled core.
