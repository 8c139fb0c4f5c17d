/** The post-detection steps of the endpoint (main.py:96-98): the detected
    components are filtered with the default minimums, and the survivors are
    formatted. */
module Pipeline {
  import opened Compos
  import opened SizeFilter
  import opened Classifier
  import opened Formatter

  /** `format_components(filter_components(components))`. Output `k` is the
      record of the `k`-th passing input, so every output record comes from
      exactly one passing input and the inputs' relative order is kept. */
  method ProcessCompos(components: seq<Compo>) returns (finalComponents: seq<Out>)
    ensures var idx := KeptIndices(components, MinWidth, MinHeight, MinArea);
            |finalComponents| == |idx| &&
            forall k :: 0 <= k < |idx| ==> Describes(finalComponents[k], components[idx[k]])
    ensures forall o :: o in finalComponents ==>
              o.width >= MinWidth && o.height >= MinHeight && o.width * o.height >= MinArea && o.text == ""
  {
    var filteredComponents := FilterDefault(components);
    finalComponents := FormatComponents(filteredComponents);
    FilterIsSubsequence(components, MinWidth, MinHeight, MinArea);
    forall o | o in finalComponents
      ensures o.width >= MinWidth && o.height >= MinHeight && o.width * o.height >= MinArea && o.text == ""
    {
      var k :| 0 <= k < |finalComponents| && finalComponents[k] == o;
      assert Keeps(filteredComponents[k], MinWidth, MinHeight, MinArea);
    }
  }

  /** Every passing input is reported, under its own id and position. */
  lemma {:induction false} PipelineComplete(components: seq<Compo>, i: int)
    requires 0 <= i < |components|
    requires components[i].width >= 40 && components[i].height >= 20
    ensures FormatRecord(components[i]) in FormatAll(FilterDefault(components))
  {
    DefaultAreaBoundImplied(components[i]);
    FilterComplete(components, MinWidth, MinHeight, MinArea, i);
    var r := FilterDefault(components);
    var k :| 0 <= k < |r| && r[k] == components[i];
    assert FormatAll(r)[k] == FormatRecord(components[i]);
  }

  /** Running the pipeline on the components it already kept reports the
      same records again. */
  lemma PipelineIdempotent(components: seq<Compo>)
    ensures FormatAll(FilterDefault(FilterDefault(components))) == FormatAll(FilterDefault(components))
  {
    FilterIdempotent(components, MinWidth, MinHeight, MinArea);
  }

  /** Among reported records, the `label` ones are exactly those at least
      40 x 20 (the filter's bounds) and below 150 x 50 (the label rule). */
  lemma {:induction false} LabelsAfterFilter(components: seq<Compo>, o: Out)
    requires o in FormatAll(FilterDefault(components))
    ensures o.componentType == Label <==> 40 <= o.width < 150 && 20 <= o.height < 50
  {
    var r := FilterDefault(components);
    var k :| 0 <= k < |r| && FormatAll(r)[k] == o;
    ClassifierRegions(r[k]);
  }

  /** A lone 300 x 120 region at the origin is reported as a card with
      empty text. */
  lemma WideTallRegionIsCard()
    ensures FormatAll(FilterDefault([Compo(1, 0, 0, 300, 120)]))
         == [Out(1, Card, "", 0, 0, 300, 120)]
  {
  }
}
