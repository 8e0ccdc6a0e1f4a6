/** The values the client keeps in its configuration, its registration record and
    the caller's session: JSON data as Python holds it after `json.loads`, with
    Python's truthiness and the item lookups the client performs on it. */
module Values {

  datatype Option<+T> = None | Some(value: T)

  datatype Result<+T, +E> = Success(value: T) | Failure(error: E)

  /** The outcome of an operation that returns nothing but may raise. */
  datatype Outcome<+E> = Pass | Fail(error: E)

  /** A JSON value. Python's `None` and JSON `null` are the same value, `Null`;
      numbers are integers only. */
  datatype Json =
    | Null
    | Bool(b: bool)
    | Num(n: int)
    | Str(s: string)
    | Arr(items: seq<Json>)
    | Obj(fields: map<string, Json>)

  /** The exceptions the client raises, by kind. */
  datatype Failure =
    | EndpointNotSet(key: string)        // a mandatory endpoint is missing after discovery
    | AlreadyRegistered                  // register() while client_id is configured
    | NotRegistered                      // the authorization-argument helper without client_id
    | DcrCredentialMissing(key: string)  // dcr_client_id or dcr_client_secret missing
    | KeyMissing(key: string)            // KeyError from indexing a dict
    | Malformed                          // TypeError, IndexError or ValueError on a value of the wrong shape
    | TransportFailed                    // the HTTP call raised
    | RemoveFailed                       // deleting the registration file raised

  /** Python's truth value of a JSON value (`if v:`). */
  predicate Truthy(v: Json) {
    match v
    case Null => false
    case Bool(b) => b
    case Num(n) => n != 0
    case Str(s) => s != ""
    case Arr(items) => items != []
    case Obj(fields) => fields != map[]
  }

  /** `v[key]` for a string key: a dict yields the entry or raises KeyError,
      anything else raises TypeError. */
  function Lookup(v: Json, key: string): Result<Json, Failure> {
    match v
    case Obj(fields) => if key in fields then Success(fields[key]) else Failure(KeyMissing(key))
    case _ => Failure(Malformed)
  }

  /** `v[0]`: the first element of a list, the first character of a string;
      IndexError on an empty one, KeyError or TypeError on anything else. */
  function FirstItem(v: Json): Result<Json, Failure> {
    match v
    case Arr(items) => if items != [] then Success(items[0]) else Failure(Malformed)
    case Str(s) => if s != "" then Success(Str(s[..1])) else Failure(Malformed)
    case _ => Failure(Malformed)
  }

  /** The first of `keys` that `m` lacks: the KeyError raised by a dict
      literal, or a sequence of statements, that indexes `m` with `keys` in
      this order. */
  function FirstMissing(m: map<string, Json>, keys: seq<string>): (r: Option<string>)
    ensures r.None? <==> forall i :: 0 <= i < |keys| ==> keys[i] in m
    ensures r.Some? ==>
      exists i :: (0 <= i < |keys| && keys[i] == r.value && r.value !in m
                   && forall j :: 0 <= j < i ==> keys[j] in m)
  {
    if keys == [] then None
    else if keys[0] !in m then Some(keys[0])
    else
      var rest := FirstMissing(m, keys[1..]);
      if rest.Some? then
        ghost var i :| 0 <= i < |keys| - 1 && keys[1..][i] == rest.value && rest.value !in m
          && forall j :: 0 <= j < i ==> keys[1..][j] in m;
        assert keys[i + 1] == rest.value;
        rest
      else
        rest
  }
}
