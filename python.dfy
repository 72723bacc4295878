/** The dynamically typed values of the configuration tree (a parsed YAML document),
    the exceptions the modelled code can raise, and the few Python operations on
    those values that the code applies: `v.get(key, default)`, `key in v`, `v[key]`,
    `v[0]` and iteration. */
module Python {
  import opened Wrappers

  datatype Value =
    | Null                              // None
    | Bool(b: bool)
    | Int(i: int)
    | Float(f: real)
    | Str(s: string)
    | List(items: seq<Value>)
    | Dict(entries: map<string, Value>)

  const EmptyDict: Value := Dict(map[])
  const EmptyList: Value := List([])

  datatype PyError =
    | AttributeError                    // a method the value lacks, e.g. `.get` on a list
    | TypeError
    | KeyError
    | IndexError
    | EOFError                          // `input()` after the end of the input stream
    | UnsupportedProvider(provider: Value)  // ValueError(f"Unsupported provider: {provider}")
    | ValueError(message: string)       // any other ValueError, e.g. from `time.sleep`
    | RuntimeError(message: string)
    | ApiError(detail: string)          // raised by a backend SDK call

  /** `v.get(key, default)`: only a dict has `.get`. */
  function Get(v: Value, key: string, default: Value): (r: Result<Value, PyError>)
    ensures r.Ok? <==> v.Dict?
  {
    if v.Dict? then Ok(if key in v.entries then v.entries[key] else default)
    else Err(AttributeError)
  }

  /** `v.get(k1, {}).get(k2, {})...`, each missing key giving an empty dict. */
  function GetChain(v: Value, keys: seq<string>): Result<Value, PyError>
    decreases |keys|
  {
    if keys == [] then Ok(v)
    else match Get(v, keys[0], EmptyDict)
      case Err(e) => Err(e)
      case Ok(w) => GetChain(w, keys[1..])
  }

  predicate IsSubstring(needle: string, hay: string)
  {
    needle <= hay || (|hay| > 0 && IsSubstring(needle, hay[1..]))
  }

  /** `key in container` for a string `key`: keys of a dict, elements of a list,
      substrings of a string; anything else is not a container. */
  function Contains(container: Value, key: string): Result<bool, PyError>
  {
    match container
    case Dict(entries) => Ok(key in entries)
    case List(items) => Ok(Str(key) in items)
    case Str(s) => Ok(IsSubstring(key, s))
    case _ => Err(TypeError)
  }

  /** `container[key]` for a string `key`. */
  function Subscript(container: Value, key: string): Result<Value, PyError>
  {
    match container
    case Dict(entries) => if key in entries then Ok(entries[key]) else Err(KeyError)
    case _ => Err(TypeError)
  }

  /** `container[0]`. */
  function First(container: Value): (r: Result<Value, PyError>)
    ensures container.List? ==> (r.Ok? <==> |container.items| > 0)
    ensures container.List? && r.Ok? ==> r.value == container.items[0]
  {
    match container
    case List(items) => if |items| == 0 then Err(IndexError) else Ok(items[0])
    case Str(s) => if |s| == 0 then Err(IndexError) else Ok(Str([s[0]]))
    case Dict(_) => Err(KeyError)
    case _ => Err(TypeError)
  }

  /** A number as Python's arithmetic and comparisons see it (`bool` is an `int`). */
  function AsNumber(v: Value): Result<real, PyError>
  {
    match v
    case Bool(b) => Ok(if b then 1.0 else 0.0)
    case Int(i) => Ok(i as real)
    case Float(f) => Ok(f)
    case _ => Err(TypeError)
  }

  /** The value `item.get(key, default)` gives for a dict `item`. */
  function GetIn(item: Value, key: string, default: Value): Value
    requires item.Dict?
  {
    if key in item.entries then item.entries[key] else default
  }

  /** `[item.get(key, default) for item in items]` over a list. */
  function GetEachItem(items: seq<Value>, key: string, default: Value): (r: Result<seq<Value>, PyError>)
    ensures r.Ok? <==> forall i :: 0 <= i < |items| ==> items[i].Dict?
    ensures r.Err? ==> r.error == AttributeError
    ensures r.Ok? ==> |r.value| == |items|
    ensures r.Ok? ==> forall i :: 0 <= i < |items| ==> r.value[i] == GetIn(items[i], key, default)
  {
    if items == [] then Ok([])
    else match Get(items[0], key, default)
      case Err(e) => Err(e)
      case Ok(v) =>
        match GetEachItem(items[1..], key, default)
        case Err(e) => Err(e)
        case Ok(vs) => Ok([v] + vs)
  }

  /** `[item.get(key, default) for item in v]`: iterating a dict or a string yields
      strings, which have no `.get`, so only an empty one gives a result. */
  function GetEach(v: Value, key: string, default: Value): Result<seq<Value>, PyError>
  {
    match v
    case List(items) => GetEachItem(items, key, default)
    case Dict(entries) => if |entries| == 0 then Ok([]) else Err(AttributeError)
    case Str(s) => if |s| == 0 then Ok([]) else Err(AttributeError)
    case _ => Err(TypeError)
  }
}
