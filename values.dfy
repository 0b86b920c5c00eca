/** Python values, errors and callables shared by every part of the model. */
module Values {

  /** The values that flow through messages: the few Python shapes the router inspects. */
  datatype Value =
    | Int(i: int)
    | Str(s: string)
    | Tuple(items: seq<Value>)
    | Dict(entries: map<string, Value>)
    | Builtin(name: string)   // an object of Python's own the model does not represent (a class, a method, a docstring)

  /** A Python dict with string keys, as passed between nodes. */
  type Bundle = map<string, Value>

  /** A reference to a user callable; only its identity matters to the router. */
  datatype Callable = Callable(id: nat)

  /** The exceptions the modelled code raises. */
  datatype Error =
    | TypeError(message: string)
    | ValueError(message: string)
    | KeyError(key: string)
    | AttributeError(message: string)
    | NotImplementedError
    | NodeRaised(reason: string)   // an exception propagated from a node's own body

  datatype Option<+T> = None | Some(value: T)

  datatype Result<+T> = Ok(value: T) | Err(error: Error)

  /** `d.get(k, default)` on a Python dict. */
  function Get<K, V>(m: map<K, V>, k: K, default: V): V
  {
    if k in m then m[k] else default
  }
}
