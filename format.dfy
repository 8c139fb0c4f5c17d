/** The formatter `format_components` (main.py:49-61): a loop that appends one
    output record per input component to a local list. */
module Formatter {
  import opened Compos
  import opened Classifier

  /** The record the loop body appends for one component (main.py:52-60). */
  function FormatRecord(c: Compo): (o: Out)
    ensures Describes(o, c)
  {
    Out(c.id, GuessComponentType(c), "", c.columnMin, c.rowMin, c.width, c.height)
  }

  /** The formatter as a value: the records of `s`, position by position. */
  function FormatAll(s: seq<Compo>): (r: seq<Out>)
    ensures |r| == |s|
    ensures forall i :: 0 <= i < |s| ==> r[i] == FormatRecord(s[i])
  {
    if s == [] then [] else [FormatRecord(s[0])] + FormatAll(s[1..])
  }

  /** Output `o` is what the formatter reports for component `c`: same id and
      size, `column_min` as `x`, `row_min` as `y`, the geometric type and an
      empty text. */
  predicate Describes(o: Out, c: Compo)
  {
    o.id == c.id && o.width == c.width && o.height == c.height &&
    o.x == c.columnMin && o.y == c.rowMin &&
    o.text == "" && o.componentType == GuessComponentType(c)
  }

  /** A record describes a component exactly when it is that component's
      formatted record: `Describes` fixes every field. */
  lemma DescribesIsFormatRecord(o: Out, c: Compo)
    ensures Describes(o, c) <==> o == FormatRecord(c)
  {
  }

  /** The JSON `type` string of a formatted record, as the chain of
      main.py:40-47 returns it, characterised by the component's size. */
  lemma ReportedTypeName(c: Compo)
    ensures var name := TypeName(FormatRecord(c).componentType);
            (name == "card" <==> c.width > 250 && c.height > 100) &&
            (name == "textarea" <==> c.height > 50 && c.width < 300 && !(c.width > 250 && c.height > 100)) &&
            (name == "label" <==> c.width < 150 && c.height < 50) &&
            (name == "input" <==> !(c.width > 250 && c.height > 100) && !(c.height > 50 && c.width < 300)
                                  && !(c.width < 150 && c.height < 50))
  {
    ClassifierRegions(c);
  }

  /** The loop of main.py:50-61: `formatted` grows by one record per
      component, in input order. */
  method FormatComponents(components: seq<Compo>) returns (formatted: seq<Out>)
    ensures |formatted| == |components|
    ensures forall i :: 0 <= i < |components| ==> Describes(formatted[i], components[i])
    ensures formatted == FormatAll(components)
  {
    formatted := [];
    var n := 0;
    while n < |components|
      invariant 0 <= n <= |components|
      invariant |formatted| == n
      invariant forall i :: 0 <= i < n ==> formatted[i] == FormatRecord(components[i])
    {
      var comp := components[n];
      formatted := formatted + [FormatRecord(comp)];
      n := n + 1;
    }
  }
}
