/**
 * The expression-only parts of emit/router/core.py's `Router`: turning a call into a
 * message (`get_message_from_call`), zipping a result with a node's declared fields
 * (`wrap_result`), and deciding what a wrapped node returns and routes (`wrap_as_node`).
 */
module Wrapping {
  import opened Values
  import Messages

  // ---------------------------------------------------------------------------
  // get_message_from_call

  /** The text of the `TypeError` for a call that is neither one dict nor keywords only. */
  const BadCallMessage: string := "Pass either keyword arguments or a dictionary argument"

  /**
   * `get_message_from_call(*args, **kwargs)`: a single dict positional argument is the
   * message (any keyword arguments are then ignored); otherwise no positional arguments
   * and at least one keyword argument give the keywords; anything else is a `TypeError`.
   */
  function GetMessageFromCall(args: seq<Value>, kwargs: Bundle): (r: Result<Messages.Message>)
    ensures r.Ok? <==> (|args| == 1 && args[0].Dict?) || (|args| == 0 && kwargs != map[])
    ensures |args| == 1 && args[0].Dict? ==> r == Ok(Messages.New(Some(args[0].entries), map[]))
    ensures |args| == 0 && kwargs != map[] ==> r == Ok(Messages.New(None, kwargs))
    ensures r.Err? ==> r.error == TypeError(BadCallMessage)
  {
    if |args| == 1 && args[0].Dict? then Ok(Messages.New(Some(args[0].entries), map[]))
    else if |args| == 0 && kwargs != map[] then Ok(Messages.New(None, kwargs))
    else Err(TypeError(BadCallMessage))
  }

  // ---------------------------------------------------------------------------
  // wrap_result

  /** A non-tuple result is treated as a 1-tuple. */
  function AsTuple(result: Value): seq<Value>
  {
    if result.Tuple? then result.items else [result]
  }

  function Min(a: int, b: int): int
  {
    if a <= b then a else b
  }

  /** Python's `zip`: pairs by position, as long as the shorter side. */
  function Zip<A, B>(a: seq<A>, b: seq<B>): (r: seq<(A, B)>)
    ensures |r| == Min(|a|, |b|)
    ensures forall i :: 0 <= i < |r| ==> r[i] == (a[i], b[i])
  {
    if a == [] || b == [] then [] else [(a[0], b[0])] + Zip(a[1..], b[1..])
  }

  /** `pairs[i].0` does not occur again after position `i`. */
  predicate LastOccurrence<V>(pairs: seq<(string, V)>, i: int)
    requires 0 <= i < |pairs|
  {
    forall j :: i < j < |pairs| ==> pairs[j].0 != pairs[i].0
  }

  /** `dict(pairs)`: a later pair for the same key overwrites an earlier one. */
  function DictOf(pairs: seq<(string, Value)>): Bundle
  {
    if pairs == [] then map[]
    else DictOf(pairs[..|pairs| - 1])[pairs[|pairs| - 1].0 := pairs[|pairs| - 1].1]
  }

  /** `dict(pairs)` has exactly the first components as keys. */
  lemma {:induction false} DictOfKeys(pairs: seq<(string, Value)>)
    ensures forall k :: k in DictOf(pairs) <==> exists i :: 0 <= i < |pairs| && pairs[i].0 == k
  {
    if pairs != [] {
      var init := pairs[..|pairs| - 1];
      DictOfKeys(init);
      forall k ensures k in DictOf(pairs) <==> exists i :: 0 <= i < |pairs| && pairs[i].0 == k {
        if k in DictOf(init) {
          var i :| 0 <= i < |init| && init[i].0 == k;
          assert pairs[i].0 == k;
        }
        if exists i :: 0 <= i < |pairs| && pairs[i].0 == k {
          var i :| 0 <= i < |pairs| && pairs[i].0 == k;
          if i < |init| {
            assert init[i].0 == k;
          }
        }
      }
    }
  }

  /** In `dict(pairs)` each key maps to the value of its last pair. */
  lemma {:induction false} DictOfValues(pairs: seq<(string, Value)>, i: int)
    requires 0 <= i < |pairs| && LastOccurrence(pairs, i)
    ensures pairs[i].0 in DictOf(pairs) && DictOf(pairs)[pairs[i].0] == pairs[i].1
  {
    var init := pairs[..|pairs| - 1];
    if i < |init| {
      assert pairs[i].0 != pairs[|pairs| - 1].0;
      assert LastOccurrence(init, i);
      DictOfValues(init, i);
    }
  }

  /**
   * `d` is `dict(zip(keys, vals))`: its keys are the keys that have a value, and a key
   * that occurs once among them maps to the value at its position.
   */
  ghost predicate ZippedWith(d: Bundle, keys: seq<string>, vals: seq<Value>)
  {
    var n := Min(|keys|, |vals|);
    && (forall k :: k in d <==> exists i :: 0 <= i < n && keys[i] == k)
    && forall i :: 0 <= i < n && (forall j :: i < j < n ==> keys[j] != keys[i]) ==> d[keys[i]] == vals[i]
  }

  /** `dict(zip(keys, vals))` is zipped with `keys` and `vals`. */
  lemma DictOfZip(keys: seq<string>, vals: seq<Value>)
    ensures ZippedWith(DictOf(Zip(keys, vals)), keys, vals)
  {
    var pairs := Zip(keys, vals);
    DictOfKeys(pairs);
    forall i | 0 <= i < |pairs| && (forall j :: i < j < |pairs| ==> keys[j] != keys[i])
      ensures DictOf(pairs)[keys[i]] == vals[i]
    {
      assert LastOccurrence(pairs, i);
      DictOfValues(pairs, i);
    }
  }

  /** The text of the `ValueError` for a node with no `fields` entry. */
  function NoFieldsMessage(name: string): string
  {
    "\"" + name + "\" has no associated fields"
  }

  /**
   * `wrap_result(name, result)`: the node's declared fields zipped with the result's
   * values; a `ValueError` when the name has no fields registered.
   */
  function WrapResult(fields: map<string, seq<string>>, name: string, result: Value): (r: Result<Bundle>)
    ensures r.Err? <==> name !in fields
    ensures r.Err? ==> r.error == ValueError(NoFieldsMessage(name))
    ensures r.Ok? ==> ZippedWith(r.value, fields[name], AsTuple(result))
  {
    if name !in fields then Err(ValueError(NoFieldsMessage(name)))
    else
      DictOfZip(fields[name], AsTuple(result));
      Ok(DictOf(Zip(fields[name], AsTuple(result))))
  }

  /** With distinct field names, field `i` holds value `i` for every position both sides have. */
  lemma WrapResultDistinct(fields: map<string, seq<string>>, name: string, result: Value, i: int)
    requires name in fields
    requires forall a, b :: 0 <= a < b < |fields[name]| ==> fields[name][a] != fields[name][b]
    requires 0 <= i < Min(|fields[name]|, |AsTuple(result)|)
    ensures WrapResult(fields, name, result).Ok?
    ensures WrapResult(fields, name, result).value[fields[name][i]] == AsTuple(result)[i]
  {
  }

  /** A scalar result fills exactly the first declared field. */
  lemma WrapScalar(fields: map<string, seq<string>>, name: string, v: Value)
    requires name in fields && |fields[name]| >= 1 && !v.Tuple?
    ensures WrapResult(fields, name, v) == Ok(map[fields[name][0] := v])
  {
    var r := WrapResult(fields, name, v).value;
    var f := fields[name];
    assert AsTuple(v) == [v] && Min(|f|, 1) == 1;
    assert ZippedWith(r, f, [v]);
    forall k ensures k in r <==> k == f[0] {
      if k in r {
        var i :| 0 <= i < 1 && f[i] == k;
      }
      if k == f[0] {
        assert 0 <= 0 < 1 && f[0] == k;
      }
    }
    assert r[f[0]] == v;
    assert r.Keys == {f[0]};
    assert r == map[f[0] := v];
  }

  // ---------------------------------------------------------------------------
  // wrap_as_node: what a node's body returns, and what the wrapped node makes of it

  /** One value produced by a node: `NoResult` suppresses it. */
  datatype Item = NoResult | Emit(value: Value)

  /**
   * What calling a node's body gives: a direct return, a generator (its items, and the
   * exception it raises after them, if any), or an exception raised by the body itself.
   */
  datatype Returned =
    | Direct(item: Item)
    | Generator(items: seq<Item>, failure: Option<string>)
    | Raised(reason: string)

  /** What the wrapped node returns: `NoResult` itself, one message, or a tuple of messages. */
  datatype Output = Suppressed | Single(message: Bundle) | Many(messages: seq<Bundle>)

  /** The items a generator yields that are not `NoResult`, in produced order. */
  function Emitted(items: seq<Item>): (vs: seq<Value>)
    ensures |vs| + multiset(items)[NoResult] == |items|
    ensures forall v :: v in vs <==> Emit(v) in items
  {
    if items == [] then []
    else
      assert items == [items[0]] + items[1..];
      (if items[0].Emit? then [items[0].value] else []) + Emitted(items[1..])
  }

  /** Suppression acts item by item: the emitted values of a concatenation are concatenated. */
  lemma {:induction false} EmittedConcat(a: seq<Item>, b: seq<Item>)
    ensures Emitted(a + b) == Emitted(a) + Emitted(b)
  {
    if a == [] {
      assert a + b == b;
    } else {
      assert (a + b)[0] == a[0] && (a + b)[1..] == a[1..] + b;
      EmittedConcat(a[1..], b);
    }
  }

  /**
   * The list comprehension of `wrap_as_node`: every non-`NoResult` item wrapped. Wrapping
   * fails on the first such item when the node has no `fields` entry; otherwise an exception the
   * generator raises after its items propagates.
   */
  function Materialize(fields: map<string, seq<string>>, name: string, items: seq<Item>, failure: Option<string>)
    : (r: Result<seq<Bundle>>)
    ensures r.Err? <==> failure.Some? || (name !in fields && Emitted(items) != [])
    ensures r.Err? && name !in fields && Emitted(items) != [] ==> r.error == ValueError(NoFieldsMessage(name))
    ensures r.Err? && (name in fields || Emitted(items) == []) ==> r.error == NodeRaised(failure.value)
    ensures r.Ok? ==> |r.value| == |Emitted(items)|
    ensures r.Ok? ==> forall i :: 0 <= i < |r.value| ==>
      WrapResult(fields, name, Emitted(items)[i]) == Ok(r.value[i])
  {
    var vs := Emitted(items);
    if name !in fields && vs != [] then Err(ValueError(NoFieldsMessage(name)))
    else if failure.Some? then Err(NodeRaised(failure.value))
    else Ok(seq(|vs|, i requires 0 <= i < |vs| => WrapResult(fields, name, vs[i]).value))
  }

  /**
   * What the wrapped node returns, before any routing: a direct `NoResult` is returned as
   * it is; a direct value is wrapped; a generator is drained and its non-`NoResult` items
   * wrapped; an exception from the body propagates.
   */
  function Plan(fields: map<string, seq<string>>, name: string, returned: Returned): (r: Result<Output>)
    ensures returned == Direct(NoResult) ==> r == Ok(Suppressed)
    ensures returned.Direct? && returned.item.Emit? ==>
      (r.Ok? <==> name in fields)
      && (r.Ok? ==> r == Ok(Single(WrapResult(fields, name, returned.item.value).value)))
      && (r.Err? ==> r == Err(ValueError(NoFieldsMessage(name))))
    ensures returned.Raised? ==> r == Err(NodeRaised(returned.reason))
    ensures returned.Generator? ==>
      var drained := Materialize(fields, name, returned.items, returned.failure);
      && (r.Ok? <==> drained.Ok?)
      && (r.Ok? ==> r.value == Many(drained.value))
      && (r.Err? ==> r.error == drained.error)
    ensures returned.Generator? && r.Ok? ==>
      r.value.Many? && |r.value.messages| == |Emitted(returned.items)|
    ensures returned.Generator? && returned.failure.None? && Emitted(returned.items) == [] ==>
      r == Ok(Many([]))
  {
    match returned
    case Raised(reason) => Err(NodeRaised(reason))
    case Direct(NoResult) => Ok(Suppressed)
    case Direct(Emit(v)) =>
      (match WrapResult(fields, name, v)
       case Ok(m) => Ok(Single(m))
       case Err(e) => Err(e))
    case Generator(items, failure) =>
      (match Materialize(fields, name, items, failure)
       case Ok(ms) => Ok(Many(ms))
       case Err(e) => Err(e))
  }

  /** The messages the wrapped node routes, in order. */
  function Routed(out: Output): seq<Bundle>
  {
    match out
    case Suppressed => []
    case Single(m) => [m]
    case Many(ms) => ms
  }
}
