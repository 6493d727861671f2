/** Small datatypes and sequence helpers shared by the models of the dashboard and its backend. */
module Common {

  /** A value that may be absent: JavaScript's `null`/`undefined`, Python's `None`. */
  datatype Option<+T> = None | Some(value: T)

  /** The outcome of an HTTP handler: a body, or an error status with its detail text. */
  datatype Result<+T> = Ok(value: T) | Err(status: int, detail: string)

  /** JavaScript's `s.slice(0, n)` and Python's `s[:n]` for a non-negative `n`. */
  function Take<T>(s: seq<T>, n: nat): (r: seq<T>)
    ensures |r| == if |s| <= n then |s| else n
    ensures r == s[..|r|]
  {
    if |s| <= n then s else s[..n]
  }

  /** Python's `s[-n:]` for a positive `n`: the last `n` elements, or all of them. */
  function TakeLast<T>(s: seq<T>, n: nat): (r: seq<T>)
    ensures |r| == if |s| <= n then |s| else n
    ensures r == s[|s| - |r|..]
  {
    if |s| <= n then s else s[|s| - n..]
  }

  /**
    A reading as the backend's engines receive it: a Python dict from field names to numbers,
    where a field may be absent or hold `None`.
  */
  type Dict = map<string, Option<real>>

  /** `data.get(key)` followed by `if x is None: x = default`. */
  function GetOr(data: Dict, key: string, default: real): (x: real)
    ensures key !in data || data[key].None? ==> x == default
    ensures key in data && data[key].Some? ==> x == data[key].value
  {
    if key in data && data[key].Some? then data[key].value else default
  }

  /** `data[key]` on a key that must be present and hold a number. */
  predicate HasNumber(data: Dict, key: string) {
    key in data && data[key].Some?
  }

  function Max(a: int, b: int): (m: int)
    ensures m >= a && m >= b && (m == a || m == b)
  {
    if a >= b then a else b
  }

  function Min(a: int, b: int): (m: int)
    ensures m <= a && m <= b && (m == a || m == b)
  {
    if a <= b then a else b
  }
}
