/** Optional values and the JavaScript operators the pages apply to them:
    truthiness, `a || b`, `a ?? b` and template-literal printing. */
module JsValues {

  /** A field that may be `undefined`. */
  datatype Option<T> = None | Some(value: T)

  /** A string is truthy when it is present and non-empty. */
  predicate Truthy(o: Option<string>)
  {
    o.Some? && o.value != ""
  }

  /** `a || b` on two optional strings. */
  function Or(a: Option<string>, b: Option<string>): (r: Option<string>)
    ensures Truthy(a) ==> r == a
    ensures !Truthy(a) ==> r == b
  {
    if Truthy(a) then a else b
  }

  /** `a || fallback` with a literal fallback: never empty when the fallback is not. */
  function OrElse(a: Option<string>, fallback: string): (r: string)
    ensures Truthy(a) ==> r == a.value
    ensures !Truthy(a) ==> r == fallback
    ensures fallback != "" ==> r != ""
  {
    if Truthy(a) then a.value else fallback
  }

  /** `a ?? fallback`: only `undefined` falls back; an empty string is kept. */
  function Coalesce(a: Option<string>, fallback: string): (r: string)
    ensures a.Some? ==> r == a.value
    ensures a.None? ==> r == fallback
  {
    match a
    case Some(v) => v
    case None => fallback
  }

  /** `${a}` in a template literal: an absent value prints as `undefined`. */
  function Show(a: Option<string>): string
  {
    Coalesce(a, "undefined")
  }

  /** The em-dash placeholder the pages print for an empty cell. */
  const Placeholder: string := "—"

  /** The em dash's three UTF-8 bytes read back one character each as
      Windows-1252: the text some pages carry in place of `Placeholder`. */
  const GarbledPlaceholder: string := "\U{E2}\U{20AC}\U{201D}"

  /** The garbled text is not the placeholder: it is three characters, not one. */
  lemma GarbledIsNotPlaceholder()
    ensures |GarbledPlaceholder| == 3 && |Placeholder| == 1
    ensures GarbledPlaceholder != Placeholder
  {
  }
}
