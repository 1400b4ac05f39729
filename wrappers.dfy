/** The optional value used for JavaScript's `null`/`undefined` and for absent JSON fields. */
module Wrappers {

  datatype Option<+T> = None | Some(value: T)

  /** JavaScript's `a || b` on two optional numbers: the first one that is present and non-zero. */
  function Or(a: Option<real>, b: Option<real>): Option<real>
  {
    if a.Some? && a.value != 0.0 then a else b
  }
}
