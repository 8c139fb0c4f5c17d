/** The geometric classifier `guess_component_type` (main.py:36-47): a chain
    of early returns over the component's width and height, first match wins,
    with `input` as the catch-all. */
module Classifier {
  import opened Compos

  /** The if-chain of main.py:40-47; it agrees with the decision table
      `Rules()` evaluated first match first, with `input` as the fallback. */
  function GuessComponentType(c: Compo): (t: ComponentType)
    ensures t == FirstMatch(Rules(), c.width, c.height, Input)
  {
    FirstMatchOfThree(Rules()[0], Rules()[1], Rules()[2], c.width, c.height, Input);
    if c.width > 250 && c.height > 100 then Card
    else if c.height > 50 && c.width < 300 then Textarea
    else if c.width < 150 && c.height < 50 then Label
    else Input
  }

  /** A one-sided bound on one dimension of a rule. */
  datatype Bound = Above(n: int) | Below(n: int)

  predicate Satisfies(v: int, b: Bound)
  {
    match b
    case Above(n) => v > n
    case Below(n) => v < n
  }

  /** A classification rule: the type it yields when both bounds hold. */
  datatype Rule = Rule(width: Bound, height: Bound, result: ComponentType)

  /** The classifier written as an ordered decision table. */
  function Rules(): seq<Rule>
  {
    [ Rule(Above(250), Above(100), Card),
      Rule(Below(300), Above(50), Textarea),
      Rule(Below(150), Below(50), Label) ]
  }

  /** The type yielded by the first rule of `rules` that matches, or
      `fallback` when none does. */
  function FirstMatch(rules: seq<Rule>, w: int, h: int, fallback: ComponentType): (t: ComponentType)
    ensures t == fallback || exists k :: 0 <= k < |rules| && rules[k].result == t
  {
    if rules == [] then fallback
    else if Matches(rules[0], w, h) then rules[0].result
    else FirstMatch(rules[1..], w, h, fallback)
  }

  /** Whether both bounds of rule `r` hold for a `w` x `h` component. */
  predicate Matches(r: Rule, w: int, h: int)
  {
    Satisfies(w, r.width) && Satisfies(h, r.height)
  }

  /** A three-rule table tries its rules in the order they are listed. */
  lemma FirstMatchOfThree(a: Rule, b: Rule, c: Rule, w: int, h: int, fallback: ComponentType)
    ensures FirstMatch([a, b, c], w, h, fallback)
         == if Matches(a, w, h) then a.result
            else if Matches(b, w, h) then b.result
            else if Matches(c, w, h) then c.result
            else fallback
  {
    assert [a, b, c][1..] == [b, c];
    assert [b, c][1..] == [c];
    assert [c][1..] == [];
    var last := FirstMatch([c], w, h, fallback);
    assert last == if Matches(c, w, h) then c.result else fallback;
    assert FirstMatch([b, c], w, h, fallback) == if Matches(b, w, h) then b.result else last;
  }

  /** Each type described by the region of the (width, height) plane it
      covers, independently of rule order. `card` is decided by its own rule;
      `textarea` loses the strip 250 < width < 300, height > 100 to `card`;
      `label` is never shadowed, because its region lies below the height
      bounds of the two earlier rules; `input` is everything else. */
  lemma ClassifierRegions(c: Compo)
    ensures GuessComponentType(c) == Card <==> c.width > 250 && c.height > 100
    ensures GuessComponentType(c) == Textarea
        <==> c.height > 50 && c.width < 300 && !(c.width > 250 && c.height > 100)
    ensures GuessComponentType(c) == Label <==> c.width < 150 && c.height < 50
    ensures GuessComponentType(c) == Input
        <==> !(c.width > 250 && c.height > 100) && !(c.height > 50 && c.width < 300)
             && !(c.width < 150 && c.height < 50)
  {
  }

  /** The `textarea` and `label` rules never both match, so listing them in
      the other order classifies every component the same way. */
  lemma TextareaLabelOrderIrrelevant(w: int, h: int)
    ensures FirstMatch([Rules()[0], Rules()[2], Rules()[1]], w, h, Input)
         == FirstMatch(Rules(), w, h, Input)
  {
    var rs := Rules();
    FirstMatchOfThree(rs[0], rs[2], rs[1], w, h, Input);
    FirstMatchOfThree(rs[0], rs[1], rs[2], w, h, Input);
  }

  /** The `card` rule must come before the `textarea` rule: a 260 x 120
      component is a card, but would be a textarea with the two swapped. */
  lemma CardPriorityMatters()
    ensures FirstMatch(Rules(), 260, 120, Input) == Card
    ensures FirstMatch([Rules()[1], Rules()[0], Rules()[2]], 260, 120, Input) == Textarea
  {
  }

  /** A 50 x 30 component falls through to the `label` rule. */
  lemma SmallIsLabel()
    ensures GuessComponentType(Compo(2, 0, 0, 50, 30)) == Label
  {
  }
}
