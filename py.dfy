/**
 * The slice of Python's value and exception vocabulary that the cache
 * clients exchange: JSON-shaped values, `dict` as an insertion-ordered list
 * of entries, the exceptions the clients raise or catch, and the outcome
 * of a call (a value returned or an exception raised).
 */
module Py {

  datatype Option<+T> = None | Some(value: T) {
    function GetOr(default: T): T {
      match this
      case Some(v) => v
      case None => default
    }
  }

  /** A Python value as `json.loads` produces it; `Null` is Python's `None`.
      A `Dict` lists its entries in insertion order, which is the order
      Python iterates over it. */
  datatype Value =
    | Null
    | Bool(b: bool)
    | Int(i: int)
    | Str(s: string)
    | List(items: seq<Value>)
    | Dict(entries: seq<(string, Value)>)

  /** Python truthiness (`if data:`). */
  predicate Truthy(v: Value) {
    match v
    case Null => false
    case Bool(b) => b
    case Int(i) => i != 0
    case Str(s) => s != ""
    case List(items) => items != []
    case Dict(entries) => entries != []
  }

  /** The exceptions the clients raise, catch or let through. */
  datatype Exception =
    | NotFound           // google.cloud.exceptions.NotFound, a GoogleAPIError
    | GoogleApiError     // any other google.api_core.exceptions.GoogleAPIError
    | GaiError           // socket.gaierror (name resolution failed)
    | ConnectionError
    | AttributeError
    | TypeError
    | ValueError         // json.loads on text that is not JSON
    | KeyError
    | UnboundLocalError

  /** `except GoogleAPIError` also catches its subclass NotFound. */
  predicate IsGoogleApiError(e: Exception) {
    e == NotFound || e == GoogleApiError
  }

  /** What a Python call did: returned a value or raised an exception. */
  datatype Outcome<+T> = Returned(value: T) | Raised(error: Exception)

  /** The keys of a Python dict are distinct. */
  predicate DistinctKeys<V>(d: seq<(string, V)>) {
    forall i, j | 0 <= i < j < |d| :: d[i].0 != d[j].0
  }

  /** The index of the first entry of `d` whose key is `k`, or `|d|`. */
  function KeyIndex<V>(d: seq<(string, V)>, k: string): (i: nat)
    ensures i <= |d|
    ensures forall j | 0 <= j < i :: d[j].0 != k
    ensures i < |d| ==> d[i].0 == k
  {
    if d == [] then 0
    else if d[0].0 == k then 0
    else 1 + KeyIndex(d[1..], k)
  }

  /** The value `d[k]`, or `None` where Python raises `KeyError`;
      `d.get(k, default)` is `DictLookup(d, k).GetOr(default)`. */
  function DictLookup<V>(d: seq<(string, V)>, k: string): Option<V> {
    var i := KeyIndex(d, k);
    if i < |d| then Some(d[i].1) else None
  }

  /** `d[k] = v`: an existing key keeps its position and takes the new value,
      a new key is appended at the end. */
  function DictSet<V>(d: seq<(string, V)>, k: string, v: V): (r: seq<(string, V)>)
    requires DistinctKeys(d)
    ensures DistinctKeys(r)
    ensures (forall i | 0 <= i < |d| :: d[i].0 != k) ==> r == d + [(k, v)]
    ensures forall i | 0 <= i < |d| && d[i].0 == k :: r == d[i := (k, v)]
  {
    if d == [] then [(k, v)]
    else if d[0].0 == k then [(k, v)] + d[1..]
    else [d[0]] + DictSet(d[1..], k, v)
  }
}
