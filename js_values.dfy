/** The parts of JavaScript value semantics that the modelled code branches on. */
module JsValues {
  import opened Wrappers

  /** A JSON scalar as a payment provider returns it; absent and null are both `Missing`. */
  datatype Field = Missing | Num(n: int) | Str(s: string)

  /** JavaScript truthiness of a JSON scalar: absent, `0` and `""` are falsy. */
  predicate Truthy(f: Field) {
    match f
    case Missing => false
    case Num(n) => n != 0
    case Str(s) => s != ""
  }

  /** `a || b` on JSON scalars. */
  function Or(a: Field, b: Field): Field {
    if Truthy(a) then a else b
  }

  /** Truthiness of an optional string: present and non-empty. */
  predicate Present(s: Option<string>) {
    s.Some? && s.value != ""
  }

  /** `a || b` on optional strings. */
  function OrElse(a: Option<string>, b: Option<string>): Option<string> {
    if Present(a) then a else b
  }

  /** `s || null`. */
  function OrNull(s: Option<string>): Option<string> {
    OrElse(s, None)
  }

  /** Truthiness of an optional numeric id: present and non-zero. */
  predicate IdPresent(x: Option<int>) {
    x.Some? && x.value != 0
  }
}
