/**
 * The error map of a form page (`errors` in the React state) and the part of
 * `handleChange` that the registration and demo-request pages share: typing in
 * a field clears that field's message if it was showing one.
 */
module Forms {
  import opened Wrappers

  /** `errors[name]` is truthy: the field's message is present and non-empty
      (this is what the page passes to `isInvalid`). */
  predicate Shows<K>(errors: map<K, string>, k: K)
  {
    k in errors && errors[k] != ""
  }

  /** `if (errors[name]) setErrors(prev => ({...prev, [name]: ''}))`: the key
      stays in the map with an empty message; nothing else changes. */
  function ClearError<K>(errors: map<K, string>, k: K): (e: map<K, string>)
    ensures !Shows(e, k)
    ensures e.Keys == errors.Keys
    ensures forall j | j in errors && j != k :: e[j] == errors[j]
    ensures Shows(errors, k) ==> e[k] == ""
    ensures !Shows(errors, k) ==> e == errors
  {
    if Shows(errors, k) then errors[k := ""] else errors
  }

  /** `newErrors.<field> = message` when the field's check yields a message;
      the map is left alone otherwise. */
  function Put<K>(m: map<K, string>, k: K, e: Option<string>): map<K, string>
  {
    if e.Some? then m[k := e.value] else m
  }
}
