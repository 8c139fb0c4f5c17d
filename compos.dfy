/** Records exchanged by the post-detection pipeline of main.py.

    A `Compo` is one entry of the `compos` list that the region-proposal step
    writes as JSON; only the keys the pipeline reads are kept. An `Out` is one
    entry of the `components` list that the endpoint returns. Python integers
    are unbounded, so every coordinate and size is a Dafny `int`.
 */
module Compos {

  /** A detected region: its identifier, its top-left corner
      (`column_min`, `row_min`) and its size. */
  datatype Compo = Compo(id: int, columnMin: int, rowMin: int, width: int, height: int)

  /** The four widget types the geometric classifier can produce. */
  datatype ComponentType = Card | Textarea | Label | Input

  /** The string the JSON response carries for each widget type. */
  function TypeName(t: ComponentType): (s: string)
    ensures s in {"card", "textarea", "label", "input"}
  {
    match t
    case Card => "card"
    case Textarea => "textarea"
    case Label => "label"
    case Input => "input"
  }

  /** Distinct widget types are reported under distinct names, so a client
      can recover the type from the string. */
  lemma TypeNameInjective(t: ComponentType, u: ComponentType)
    requires TypeName(t) == TypeName(u)
    ensures t == u
  {
  }

  /** One formatted output record; `componentType` is the JSON key `type`.
      The record holds the widget type itself; `TypeName` gives the string
      the JSON response carries for it. */
  datatype Out = Out(id: int, componentType: ComponentType, text: string,
                     x: int, y: int, width: int, height: int)
}
