/** The size filter `filter_components` (main.py:23-29): a list comprehension
    that keeps, in input order, every component whose width, height and area
    reach the given minimums. */
module SizeFilter {
  import opened Compos

  /** Default minimums of `filter_components`, the ones the endpoint uses. */
  const MinWidth: int := 40
  const MinHeight: int := 20
  const MinArea: int := 800

  /** The comprehension's condition; all three bounds are inclusive. With
      positive minimums a region of non-positive width or height never
      passes. */
  predicate Keeps(c: Compo, minWidth: int, minHeight: int, minArea: int)
    ensures Keeps(c, minWidth, minHeight, minArea) && minWidth > 0 && minHeight > 0
            ==> c.width > 0 && c.height > 0
  {
    c.width >= minWidth && c.height >= minHeight && c.width * c.height >= minArea
  }

  /** The kept components, in input order. */
  function FilterComponents(s: seq<Compo>, minWidth: int, minHeight: int, minArea: int): (r: seq<Compo>)
    ensures |r| <= |s|
    ensures forall k :: 0 <= k < |r| ==> Keeps(r[k], minWidth, minHeight, minArea)
    decreases |s|
  {
    if s == [] then []
    else
      var rest := FilterComponents(s[..|s| - 1], minWidth, minHeight, minArea);
      if Keeps(s[|s| - 1], minWidth, minHeight, minArea) then rest + [s[|s| - 1]] else rest
  }

  /** The filter as the endpoint calls it, with the default minimums: a
      component is kept exactly when it is in the input and at least 40 wide
      and 20 high. */
  function FilterDefault(s: seq<Compo>): (r: seq<Compo>)
    ensures forall c :: c in r <==> c in s && c.width >= 40 && c.height >= 20
  {
    DefaultMembership(s);
    FilterComponents(s, MinWidth, MinHeight, MinArea)
  }

  /** Membership in the default filter's output, for every component. */
  lemma DefaultMembership(s: seq<Compo>)
    ensures forall c :: c in FilterComponents(s, MinWidth, MinHeight, MinArea)
                        <==> c in s && c.width >= 40 && c.height >= 20
  {
    forall c
      ensures c in FilterComponents(s, MinWidth, MinHeight, MinArea)
              <==> c in s && c.width >= 40 && c.height >= 20
    {
      FilterMembership(s, MinWidth, MinHeight, MinArea, c);
      DefaultAreaBoundImplied(c);
    }
  }

  /** `idx` lists positions of `b`, strictly increasing, and `a` is `b` read at
      those positions: `a` is a subsequence of `b` (nothing added, nothing
      reordered, nothing taken twice). */
  ghost predicate Embeds(a: seq<Compo>, b: seq<Compo>, idx: seq<int>)
  {
    |idx| == |a| &&
    (forall k :: 0 <= k < |idx| ==> 0 <= idx[k] < |b| && a[k] == b[idx[k]]) &&
    (forall k, l :: 0 <= k < l < |idx| ==> idx[k] < idx[l])
  }

  /** The positions of `s` whose component passes the filter, in increasing
      order; every passing position is listed and no other. */
  function KeptIndices(s: seq<Compo>, minWidth: int, minHeight: int, minArea: int): (idx: seq<int>)
    ensures forall k :: 0 <= k < |idx| ==> 0 <= idx[k] < |s|
    ensures forall k, l :: 0 <= k < l < |idx| ==> idx[k] < idx[l]
    ensures forall i :: 0 <= i < |s| ==> (i in idx <==> Keeps(s[i], minWidth, minHeight, minArea))
    decreases |s|
  {
    if s == [] then []
    else
      var rest := KeptIndices(s[..|s| - 1], minWidth, minHeight, minArea);
      if Keeps(s[|s| - 1], minWidth, minHeight, minArea) then rest + [|s| - 1] else rest
  }

  /** The filter output is the input read at the kept positions: it is a
      subsequence of the input made of exactly the passing components. */
  lemma {:induction false} FilterIsSubsequence(s: seq<Compo>, minWidth: int, minHeight: int, minArea: int)
    ensures Embeds(FilterComponents(s, minWidth, minHeight, minArea), s,
                   KeptIndices(s, minWidth, minHeight, minArea))
    decreases |s|
  {
    if s != [] {
      var init := s[..|s| - 1];
      FilterIsSubsequence(init, minWidth, minHeight, minArea);
      var r := FilterComponents(init, minWidth, minHeight, minArea);
      var idx := KeptIndices(init, minWidth, minHeight, minArea);
      forall k | 0 <= k < |idx| ensures s[idx[k]] == r[k] {
        assert s[idx[k]] == init[idx[k]];
      }
    }
  }

  /** Completeness: every component that meets the three bounds appears in
      the output. */
  lemma FilterComplete(s: seq<Compo>, minWidth: int, minHeight: int, minArea: int, i: int)
    requires 0 <= i < |s| && Keeps(s[i], minWidth, minHeight, minArea)
    ensures s[i] in FilterComponents(s, minWidth, minHeight, minArea)
  {
    var idx := KeptIndices(s, minWidth, minHeight, minArea);
    FilterIsSubsequence(s, minWidth, minHeight, minArea);
    var k :| 0 <= k < |idx| && idx[k] == i;
    assert FilterComponents(s, minWidth, minHeight, minArea)[k] == s[i];
  }

  /** Soundness and membership in one statement: a component is in the
      output exactly when it is in the input and meets the three bounds. */
  lemma FilterMembership(s: seq<Compo>, minWidth: int, minHeight: int, minArea: int, c: Compo)
    ensures c in FilterComponents(s, minWidth, minHeight, minArea)
        <==> c in s && Keeps(c, minWidth, minHeight, minArea)
  {
    var r := FilterComponents(s, minWidth, minHeight, minArea);
    FilterIsSubsequence(s, minWidth, minHeight, minArea);
    if c in r {
      var k :| 0 <= k < |r| && r[k] == c;
    }
    if c in s && Keeps(c, minWidth, minHeight, minArea) {
      var i :| 0 <= i < |s| && s[i] == c;
      FilterComplete(s, minWidth, minHeight, minArea, i);
    }
  }

  /** The positions of `s` that pass the filter, as a set. */
  ghost function PassingPositions(s: seq<Compo>, minWidth: int, minHeight: int, minArea: int): set<int>
  {
    set i | 0 <= i < |s| && Keeps(s[i], minWidth, minHeight, minArea)
  }

  /** The output has one entry per passing input position. */
  lemma {:induction false} FilterLength(s: seq<Compo>, minWidth: int, minHeight: int, minArea: int)
    ensures |FilterComponents(s, minWidth, minHeight, minArea)|
         == |PassingPositions(s, minWidth, minHeight, minArea)|
    decreases |s|
  {
    if s != [] {
      var init := s[..|s| - 1];
      FilterLength(init, minWidth, minHeight, minArea);
      var before := PassingPositions(init, minWidth, minHeight, minArea);
      var after := PassingPositions(s, minWidth, minHeight, minArea);
      var last := |s| - 1;
      assert |s| - 1 !in before;
      if Keeps(s[last], minWidth, minHeight, minArea) {
        assert after == before + {last};
      } else {
        assert after == before;
      }
    }
  }

  /** Filtering an already filtered list changes nothing. */
  lemma {:induction false} FilterIdempotent(s: seq<Compo>, minWidth: int, minHeight: int, minArea: int)
    ensures var r := FilterComponents(s, minWidth, minHeight, minArea);
            FilterComponents(r, minWidth, minHeight, minArea) == r
    decreases |s|
  {
    if s != [] {
      var init := s[..|s| - 1];
      FilterIdempotent(init, minWidth, minHeight, minArea);
      var rest := FilterComponents(init, minWidth, minHeight, minArea);
      if Keeps(s[|s| - 1], minWidth, minHeight, minArea) {
        var r := rest + [s[|s| - 1]];
        assert r[..|r| - 1] == rest;
      }
    }
  }

  /** With the default minimums the area bound follows from the other two
      (40 * 20 = 800): a component passes exactly when it is at least 40 wide
      and 20 high. */
  lemma DefaultAreaBoundImplied(c: Compo)
    ensures Keeps(c, MinWidth, MinHeight, MinArea) <==> c.width >= 40 && c.height >= 20
  {
    if c.width >= 40 && c.height >= 20 {
      calc {
        c.width * c.height;
      >= { MulMonotone(c.width, 40, c.height); }
        40 * c.height;
      >=
        800;
      }
    }
  }

  /** Multiplying by a non-negative factor keeps the order. */
  lemma MulMonotone(a: int, b: int, h: int)
    requires a >= b && h >= 0
    ensures a * h >= b * h
  {
    assert a * h - b * h == (a - b) * h;
  }

  /** The bounds are inclusive: a 40 x 20 component is kept. */
  lemma BoundaryKept()
    ensures FilterDefault([Compo(1, 0, 0, 40, 20)]) == [Compo(1, 0, 0, 40, 20)]
  {
  }

  /** A 39 x 30 component is dropped although its area (1170) is large enough. */
  lemma NarrowDropped()
    ensures FilterDefault([Compo(1, 0, 0, 39, 30)]) == []
  {
  }
}
