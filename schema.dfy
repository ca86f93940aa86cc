/**
 * Field rules of the declarative form schemas. Each rule looks at one field
 * value and yields the violations it finds (none or one), so a schema is the
 * concatenation of its rules' results and reports every failing field at once.
 */
module Schema {
  import opened Js

  /** One field-scoped validation failure. */
  datatype Violation<F> = Violation(field: F, message: string)

  /** `z.string().min(min, { message })`: the length is counted in characters. */
  function MinLength<F(!new)>(field: F, value: string, min: nat, message: string): (vs: seq<Violation<F>>)
    ensures vs == [] <==> min <= |value|
    ensures forall g, m :: Violation(g, m) in vs <==> g == field && m == message && |value| < min
  {
    if |value| < min then [Violation(field, message)] else []
  }

  /** `z.string().email({ message })`, with the email grammar left as the
      parameter `isEmail`. */
  function EmailFormat<F(!new)>(field: F, value: string, isEmail: string -> bool, message: string): (vs: seq<Violation<F>>)
    ensures vs == [] <==> isEmail(value)
    ensures forall g, m :: Violation(g, m) in vs <==> g == field && m == message && !isEmail(value)
  {
    if isEmail(value) then [] else [Violation(field, message)]
  }

  /** The message a missing value gets from a `z.string()` field. */
  const RequiredMessage := "Required"

  /** `z.string()` on a value that may be `undefined`. */
  function RequiredString<F(!new)>(field: F, value: Option<string>): (vs: seq<Violation<F>>)
    ensures vs == [] <==> value.Some?
    ensures forall g, m :: Violation(g, m) in vs <==> g == field && m == RequiredMessage && value.None?
  {
    if value.Some? then [] else [Violation(field, RequiredMessage)]
  }

  /** `z.boolean().refine((val) => val === true, { message })`. */
  function MustBeTrue<F(!new)>(field: F, value: bool, message: string): (vs: seq<Violation<F>>)
    ensures vs == [] <==> value
    ensures forall g, m :: Violation(g, m) in vs <==> g == field && m == message && !value
  {
    if value then [] else [Violation(field, message)]
  }

}
