/** Values shared by every screen of the finance client. */
module Common {

  /** A JavaScript value that may be missing: `undefined`, or `NaN` where a number is parsed. */
  datatype Option<T> = None | Some(value: T)

  /** The HTTP methods the client uses against its REST backend. */
  datatype Verb = Get | Post | Put | Delete

  /** A parsed JSON response body: an array of records, or anything else (an error object, say). */
  datatype Json<T> = JsonArray(items: seq<T>) | JsonOther

  /** The kind of a ledger entry ("movimentação"): money coming in or going out. */
  datatype Tipo = Entrada | Saida

  /** JavaScript's `x || fallback` on an optional string: the fallback replaces a missing or empty string. */
  function OrElse(x: Option<string>, fallback: string): (r: string)
    ensures x.Some? && x.value != "" ==> r == x.value
    ensures (x.None? || x.value == "") ==> r == fallback
  {
    if x.Some? && x.value != "" then x.value else fallback
  }

  /** `Math.abs`. */
  function Abs(x: real): (r: real)
    ensures r >= 0.0 && (r == x || r == -x)
  {
    if x < 0.0 then -x else x
  }

  /** JavaScript truthiness of an optional string. */
  predicate Truthy(x: Option<string>)
  {
    x.Some? && x.value != ""
  }
}
