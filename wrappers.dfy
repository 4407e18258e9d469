/** Nullable database columns. */
module Wrappers {

  datatype Option<+T> = None | Some(value: T)

  /** JavaScript's `n || 0` on a nullable number column: null gives 0
      (a stored 0 is falsy too, but it also gives 0). */
  function OrZero(n: Option<real>): (r: real)
    ensures n.None? ==> r == 0.0
    ensures n.Some? ==> r == n.value
  {
    match n
    case None => 0.0
    case Some(v) => v
  }

  /** JavaScript's `s || d` on a nullable text column: null and the empty
      string are both falsy, so both give the default `d`. */
  function OrDefault(s: Option<string>, d: string): (r: string)
    ensures (s.None? || s.value == "") ==> r == d
    ensures (s.Some? && s.value != "") ==> r == s.value
  {
    if s.Some? && s.value != "" then s.value else d
  }
}
