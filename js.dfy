/** JavaScript value semantics that the components rely on: nullable values,
    the `x || default` idiom, and the text a template literal writes for a
    nullable string. */
module Js {

  /** A value that may be null or undefined. */
  datatype Option<+T> = None | Some(value: T)

  /** `s || ''` for a nullable string: null and '' both give ''. */
  function OrEmpty(o: Option<string>): (r: string)
    ensures o.Some? ==> r == o.value
    ensures o.None? ==> r == ""
  {
    match o
    case None => ""
    case Some(s) => s
  }

  /** `s || fallback`: the fallback replaces null and the (falsy) empty string. */
  function OrElse(o: Option<string>, fallback: string): (r: string)
    ensures OrEmpty(o) != "" ==> r == OrEmpty(o)
    ensures OrEmpty(o) == "" ==> r == fallback
  {
    if o.Some? && o.value != "" then o.value else fallback
  }

  /** `s || null`: an empty string becomes null, anything else is kept. */
  function EmptyToNull(s: string): (r: Option<string>)
    ensures r.None? <==> s == ""
    ensures r.Some? ==> r.value == s
  {
    if s == "" then None else Some(s)
  }

  /** What `${x}` writes for a nullable string: null prints as "null". */
  function Interp(o: Option<string>): (r: string)
    ensures o.None? ==> r == "null"
    ensures o.Some? ==> r == o.value
  {
    match o
    case None => "null"
    case Some(s) => s
  }

  /** A count that the store may leave out, defaulted with `|| 0`. */
  function CountOrZero(o: Option<nat>): (r: nat)
    ensures o.Some? ==> r == o.value
    ensures o.None? ==> r == 0
  {
    match o
    case None => 0
    case Some(n) => n
  }

  /** A parsed number whose failure (NaN) is replaced by `|| 0`. */
  function ParsedOrZero<N>(parsed: Option<N>, zero: N): (r: N)
    ensures parsed.Some? ==> r == parsed.value
    ensures parsed.None? ==> r == zero
  {
    match parsed
    case None => zero
    case Some(v) => v
  }

  /** `EmptyToNull` undoes `OrEmpty` on every value that is not the empty string. */
  lemma OrEmptyThenNull(o: Option<string>)
    ensures EmptyToNull(OrEmpty(o)) == (if o == Some("") then None else o)
  {
  }
}
