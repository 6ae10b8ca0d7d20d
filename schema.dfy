/**
 * The request-schema rules both routes use: a string key that may be required, must not
 * be empty once present, and may have length bounds or a format test. Validation stops at
 * the first broken rule, so each check reports one violation or none.
 */
module Schema {
  import opened Wrappers

  /** The rule a value breaks, tagged with the key it belongs to. */
  datatype Violation<F> =
    | Required(field: F)
    | Empty(field: F)
    | TooShort(field: F, limit: nat)
    | TooLong(field: F, limit: nat)
    | NotAllowed(field: F)
    | Malformed(field: F)
    | TooEarly(field: F)

  /** The string rules hold: present if required, non-empty, and within the bounds. */
  predicate StringOk(v: Option<string>, required: bool, min: nat, max: Option<nat>) {
    && (required ==> v.Some?)
    && (v.Some? ==> v.value != [] && min <= |v.value| && (max.Some? ==> |v.value| <= max.value))
  }

  /**
   * A string key: missing (an error only if required), then empty, then the `min` and
   * `max` length rules in that order.
   */
  function CheckString<F>(field: F, v: Option<string>, required: bool, min: nat, max: Option<nat>)
    : (r: Option<Violation<F>>)
    ensures r.None? <==> StringOk(v, required, min, max)
    ensures r.Some? ==> r.value.field == field
    ensures v.None? && required ==> r == Some(Required(field))
    ensures v == Some([]) ==> r == Some(Empty(field))
  {
    if v.None? then (if required then Some(Required(field)) else None)
    else if v.value == [] then Some(Empty(field))
    else if |v.value| < min then Some(TooShort(field, min))
    else if max.Some? && |v.value| > max.value then Some(TooLong(field, max.value))
    else None
  }

  /** A string key with a format rule (an email or a pattern), checked after emptiness. */
  function CheckFormat<F>(field: F, v: Option<string>, required: bool, wellFormed: string -> bool)
    : (r: Option<Violation<F>>)
    ensures r.None? <==> StringOk(v, required, 0, None) && (v.Some? ==> wellFormed(v.value))
    ensures r.Some? ==> r.value.field == field
    ensures v.Some? && v.value != [] && !wellFormed(v.value) ==> r == Some(Malformed(field))
  {
    var basic := CheckString(field, v, required, 0, None);
    if basic.Some? then basic
    else if v.Some? && !wellFormed(v.value) then Some(Malformed(field))
    else None
  }
}
