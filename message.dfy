/**
 * emit/message.py: `Message`, a wrapper around a dictionary that gives attribute access
 * to its entries. The bundle is set once by the constructor and never changed.
 */
module Messages {
  import opened Values
  import opened StringOrder

  datatype Message = Message(bundle: Bundle)

  /**
   * `Message(*args, **kwargs)`: the bundle is `dict(*args, **kwargs)`, the optional
   * positional mapping overlaid with the keyword arguments.
   */
  function New(arg: Option<Bundle>, kwargs: Bundle): (m: Message)
    ensures m.bundle.Keys == kwargs.Keys + (if arg.Some? then arg.value.Keys else {})
    ensures forall k :: k in kwargs ==> m.bundle[k] == kwargs[k]
    ensures arg.Some? ==> forall k :: k in arg.value && k !in kwargs ==> m.bundle[k] == arg.value[k]
  {
    Message((if arg.Some? then arg.value else map[]) + kwargs)
  }

  /** The text of the `AttributeError` raised for an absent key. */
  function MissingAttribute(attr: string): string
  {
    "\"" + attr + "\" is not included in this message"
  }

  /**
   * The names Python 2's ordinary attribute lookup finds on a `Message` before it falls back
   * to `__getattr__`: those `Message` itself defines, and those every new-style object
   * inherits from `object`.
   */
  const ClassAttributes: set<string> := {
    "__module__", "__doc__", "__init__", "__getattr__", "__dir__", "__dict__", "__weakref__",
    "__class__", "__delattr__", "__format__", "__getattribute__", "__hash__", "__new__",
    "__reduce__", "__reduce_ex__", "__repr__", "__setattr__", "__sizeof__", "__str__",
    "__subclasshook__"}

  /** Ordinary lookup finds `attr`: the instance attribute `bundle`, or a class attribute. */
  predicate FoundByLookup(attr: string)
  {
    attr == "bundle" || attr in ClassAttributes
  }

  /**
   * `message.attr`. Ordinary lookup comes first: the instance dictionary holds only
   * `bundle`, and the class attributes are found on `Message` or `object`. Only a name
   * neither defines reaches `__getattr__`, which looks it up in the bundle.
   */
  function Attribute(m: Message, attr: string): (r: Result<Value>)
    ensures !FoundByLookup(attr) ==> (r.Ok? <==> attr in m.bundle)
    ensures !FoundByLookup(attr) && r.Ok? ==> r.value == m.bundle[attr]
    ensures r.Err? ==> r.error == AttributeError(MissingAttribute(attr)) && attr !in m.bundle
    ensures FoundByLookup(attr) ==> r.Ok?
    ensures attr == "bundle" ==> r == Ok(Dict(m.bundle))
    ensures attr == "__dict__" ==> r == Ok(Dict(map["bundle" := Dict(m.bundle)]))
  {
    if attr == "bundle" then Ok(Dict(m.bundle))
    else if attr == "__dict__" then Ok(Dict(map["bundle" := Dict(m.bundle)]))
    else if attr in ClassAttributes then Ok(Builtin(attr))
    else if attr in m.bundle then Ok(m.bundle[attr])
    else Err(AttributeError(MissingAttribute(attr)))
  }

  /** Constructing from keyword arguments and reading one back gives the value passed. */
  lemma AttributeOfKeyword(kwargs: Bundle, attr: string)
    requires attr in kwargs && !FoundByLookup(attr)
    ensures Attribute(New(None, kwargs), attr) == Ok(kwargs[attr])
  {
  }

  /**
   * A bundle key named like a class attribute is shadowed: reading it gives the same
   * object whatever the bundle holds.
   */
  lemma ClassAttributeShadowsBundle(m1: Message, m2: Message, attr: string)
    requires attr in ClassAttributes && attr != "__dict__"
    ensures Attribute(m1, attr) == Attribute(m2, attr)
  {
  }

  /**
   * `dir(message)`: `'bundle'` and every key of the bundle, sorted. A key named
   * `'bundle'` appears twice, as the list concatenation keeps duplicates.
   */
  function Dir(m: Message): (r: seq<string>)
    ensures Sorted(r)
    ensures multiset(r) == multiset(m.bundle.Keys) + multiset{"bundle"}
    ensures |r| == |m.bundle.Keys| + 1
  {
    var keys := SortSet(m.bundle.Keys);
    assert multiset(keys) == multiset(m.bundle.Keys) by {
      SortedSetMultiset(m.bundle.Keys, keys);
    }
    var r := Insert("bundle", keys);
    assert |multiset(r)| == |multiset(keys)| + 1;
    r
  }

  /** A sequence without repeats that has exactly the members of a set has its multiset. */
  lemma SortedSetMultiset(s: set<string>, r: seq<string>)
    requires |r| == |s| && forall x :: x in r <==> x in s
    ensures multiset(r) == multiset(s)
  {
    var d := multiset(r);
    forall x | x in s ensures d[x] == 1 {
      DistinctCount(r, s, x);
    }
    forall x | x !in s ensures d[x] == 0 {
    }
  }

  /** With |r| == |s| and the same members, every member of `s` occurs once in `r`. */
  lemma {:induction false} DistinctCount(r: seq<string>, s: set<string>, x: string)
    requires |r| == |s| && (forall y :: y in r <==> y in s) && x in s
    ensures multiset(r)[x] == 1
    decreases |r|
  {
    var h := r[0];
    assert r == [h] + r[1..];
    var t := r[1..];
    if h in t {
      // then `t` has every member of `s`, one fewer than |s|, which cannot be
      assert forall y :: y in t <==> y in s;
      CardinalityBound(t, s);
      assert false;
    } else {
      assert forall y :: y in t <==> y in s - {h};
      if x == h {
        assert multiset(t)[x] == 0;
      } else {
        DistinctCount(t, s - {h}, x);
      }
    }
  }

  /** A sequence holding every member of a set is at least as long as the set. */
  lemma {:induction false} CardinalityBound(t: seq<string>, s: set<string>)
    requires forall y :: y in s ==> y in t
    ensures |s| <= |t|
    decreases |t|
  {
    if t == [] {
      assert s == {};
    } else {
      CardinalityBound(t[1..], s - {t[0]});
    }
  }
}
