/** Nullable values as the JavaScript source handles them: a field or request
    value that is `null`/`undefined` is `None`, anything else is `Some`. */
module Nullable {

  datatype Option<+T> = None | Some(value: T)

  /** JavaScript truthiness of a nullable string: `null`, `undefined` and the
      empty string are falsy, every other string is truthy. */
  predicate Truthy(s: Option<string>) {
    s.Some? && s.value != ""
  }

  /** The `x || null` idiom: a falsy value is normalised to `null`. */
  function OrNull(s: Option<string>): (r: Option<string>)
    ensures Truthy(r) == Truthy(s)
    ensures r.Some? ==> r == s && s.value != ""
    ensures !Truthy(s) <==> r == None
  {
    if Truthy(s) then s else None
  }
}
