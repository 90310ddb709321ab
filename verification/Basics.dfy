/** Small value types shared by the models of the services. */
module Basics {

  datatype Option<+T> = None | Some(value: T)

  /** How a service call ends: a value, or one of the HTTP exceptions it throws. */
  datatype Outcome<+T> = Ok(value: T) | NotFound | BadRequest | Forbidden | Conflict | NotImplemented

  /** A failed call, passed on by its caller. */
  function Propagate<T, U>(r: Outcome<T>): Outcome<U>
    requires !r.Ok?
  {
    match r
    case NotFound => NotFound
    case BadRequest => BadRequest
    case Forbidden => Forbidden
    case Conflict => Conflict
    case NotImplemented => NotImplemented
  }

  function Min(a: int, b: int): int {
    if a <= b then a else b
  }

  function Max(a: int, b: int): int {
    if a >= b then a else b
  }

  function Last<T>(s: seq<T>): T
    requires s != []
  {
    s[|s| - 1]
  }

  function ButLast<T>(s: seq<T>): seq<T>
    requires s != []
  {
    s[..|s| - 1]
  }

  lemma AppendLast<T>(s: seq<T>, x: T)
    ensures Last(s + [x]) == x && ButLast(s + [x]) == s
  {
  }

  /** The value stored under a key, if there is one. */
  function Get<K, V>(m: map<K, V>, k: K): Option<V> {
    if k in m then Some(m[k]) else None
  }
}
