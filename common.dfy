/** Option and Result, the two failure-carrying wrappers the model uses in
    place of Python's None and raised exceptions. */
module Common {

  datatype Option<T> = None | Some(value: T)

  datatype Result<T, E> = Ok(value: T) | Err(error: E)

  /** Python truthiness of an optional string: present and non-empty. */
  predicate Truthy(o: Option<string>) {
    o.Some? && o.value != ""
  }

  /** Python's `d.get(a) or d.get(b)` for string-valued keys: the first value
      if it is truthy, otherwise whatever the second lookup gives. The result
      is one of the two lookups; it is None only when the first is falsy and
      the second is missing, and it is truthy when either lookup is. */
  function PyOr(first: Option<string>, second: Option<string>): (r: Option<string>)
    ensures r == first || r == second
    ensures r.None? <==> !Truthy(first) && second.None?
    ensures Truthy(r) <==> Truthy(first) || Truthy(second)
    ensures Truthy(first) ==> r == first
  {
    if Truthy(first) then first else second
  }

  /** A key of a JSON object: absent, present with the value null, or
      present with a value. */
  datatype Field<T> = Absent | Null | Value(v: T)

  /** `key in d`: a key holding null is present. */
  predicate Present<T>(f: Field<T>) {
    !f.Absent?
  }

  /** `d.get(key)`: None for an absent key and for null alike. */
  function Get<T>(f: Field<T>): (r: Option<T>)
    ensures r.None? <==> !f.Value?
    ensures f.Value? ==> r == Some(f.v)
  {
    if f.Value? then Some(f.v) else None
  }

  /** `d.get(key, default)`: the default stands in for an absent key only, so
      a key holding null still gives None. */
  function GetDefault<T>(f: Field<T>, default: T): (r: Option<T>)
    ensures r.None? <==> f.Null?
    ensures f.Absent? ==> r == Some(default)
    ensures f.Value? ==> r == Some(f.v)
  {
    match f
    case Absent => Some(default)
    case Null => None
    case Value(v) => Some(v)
  }

  /** Python's `o or default` on an optional value, or `d.get(key, default)`
      on a key that cannot hold null. */
  function GetOr<T>(o: Option<T>, default: T): (r: T)
    ensures o.Some? ==> r == o.value
    ensures o.None? ==> r == default
  {
    match o
    case Some(v) => v
    case None => default
  }
}
