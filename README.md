# Detector-Component: post-detection pipeline

This project models, in Dafny, what the component-detection service does with
the regions a region-proposal step has found in a screenshot. In `main.py` the
endpoint reads the `compos` list and runs two steps on it:

- `filter_components` drops regions that are too small. A region is kept when
  its width is at least 40, its height at least 20 and its area at least 800.
  The input order is kept.
- `format_components` turns every surviving region into an output record. The
  record copies `id`, `width` and `height`, renames `column_min` to `x` and
  `row_min` to `y`, and sets `text` to `""`. Its `type` comes from
  `guess_component_type`, a first-match chain over width and height. The chain
  gives `card` for width > 250 and height > 100, then `textarea` for height > 50
  and width < 300, then `label` for width < 150 and height < 50, and `input`
  otherwise.

Modules, one per step:

- `Compos` (compos.dfy) holds the input record `Compo`, the output record
  `Out`, and the four widget types with their JSON names.
- `SizeFilter` (filter.dfy) holds the filter. It is a pure recursive function,
  together with the ordered list of positions it keeps.
- `Classifier` (classify.dfy) holds the if-chain and an equivalent ordered
  decision table of rules.
- `Formatter` (format.dfy) holds the formatting loop as a method. The method is
  proved equal to a pure function over the sequence.
- `Pipeline` (pipeline.dfy) holds the composition at main.py:96-98.

Python integers are unbounded, so all sizes and coordinates are `int`. The
minimums are parameters of the filter. `MinWidth`, `MinHeight` and `MinArea`
are its defaults, which are the values the endpoint uses.

The code has no OCR step, no text association and no text-driven
classification, so it never fills `text`. It has no text rule either, so no
region is ever a button. The model follows the code. For the same reason, a
lone 300 x 120 region at the origin is reported as a `card` with empty text
(`Pipeline.WideTallRegionIsCard`).

With the default minimums, the area bound is implied by the other two, because
40 * 20 = 800 (`SizeFilter.DefaultAreaBoundImplied`).

## Model

| member | source | states |
|---|---|---|
| `Compos.TypeName` | main.py:40-47 | the type string is always one of "card", "textarea", "label", "input" |
| `Compos.TypeNameInjective` | main.py:40-47 | different widget types are reported under different strings |
| `SizeFilter.Keeps` | main.py:26-28 | the comprehension's condition; with positive minimums, a region with a non-positive width or height never passes |
| `SizeFilter.FilterComponents` | main.py:23-29 | the output is no longer than the input, and every element meets all three inclusive bounds |
| `SizeFilter.FilterDefault` | main.py:23-29 | the filter with the default minimums keeps a component exactly when it is in the input and at least 40 wide and 20 high |
| `SizeFilter.DefaultMembership` | main.py:23-29 | for every component, membership in the default filter's output is membership in the input plus width >= 40 and height >= 20 |
| `SizeFilter.KeptIndices` | main.py:24-29 | the kept positions are strictly increasing and in range; a position is listed exactly when its component meets the bounds |
| `SizeFilter.FilterIsSubsequence` | main.py:24-29 | the output is the input read at the kept positions: a subsequence, with nothing added, reordered or duplicated |
| `SizeFilter.FilterComplete` | main.py:24-29 | every input component that meets the three bounds appears in the output |
| `SizeFilter.FilterMembership` | main.py:24-29 | a component is in the output exactly when it is in the input and meets the bounds |
| `SizeFilter.FilterLength` | main.py:24-29 | the output length equals the number of input positions that meet the bounds |
| `SizeFilter.FilterIdempotent` | main.py:23-29 | filtering the filter's output returns it unchanged |
| `SizeFilter.DefaultAreaBoundImplied` | main.py:23-28 | with the defaults 40, 20 and 800, a component passes exactly when width >= 40 and height >= 20 |
| `SizeFilter.BoundaryKept` | main.py:26-28 | a 40 x 20 component is kept, because the bounds are inclusive |
| `SizeFilter.NarrowDropped` | main.py:26-28 | a 39 x 30 component is dropped even though its area passes |
| `Classifier.GuessComponentType` | main.py:36-47 | the if-chain of early returns equals the ordered rule table card, textarea, label with `input` as fallback, evaluated first match first |
| `Classifier.ClassifierRegions` | main.py:40-47 | each type is characterised in both directions by its region: card iff w > 250 and h > 100; textarea iff h > 50 and w < 300 and not card; label iff w < 150 and h < 50; input iff no rule matches |
| `Classifier.TextareaLabelOrderIrrelevant` | main.py:42-45 | the textarea and label rules are disjoint, so swapping them changes no result |
| `Classifier.CardPriorityMatters` | main.py:40-43 | the card rule wins over textarea: 260 x 120 is a card, but would be a textarea if the rules were swapped |
| `Classifier.SmallIsLabel` | main.py:44-45 | a 50 x 30 component is a label |
| `Formatter.FormatRecord` | main.py:52-60 | the appended record copies id, width and height, takes x from column_min and y from row_min, has empty text and the classifier's type |
| `Formatter.FormatAll` | main.py:49-61 | the formatted sequence has the input's length, and position i holds the record of input i |
| `Formatter.DescribesIsFormatRecord` | main.py:52-60 | the field-by-field description (id, width, height copied; x = column_min; y = row_min; empty text; geometric type) fixes the record uniquely |
| `Formatter.ReportedTypeName` | main.py:40-47 | the JSON `type` string of a formatted record is "card", "textarea", "label" or "input" exactly in the size region the chain gives that string |
| `Formatter.FormatComponents` | main.py:49-61 | the loop returns one record per input, in order, and each record describes its input field by field |
| `Pipeline.ProcessCompos` | main.py:96-98 | output k describes the k-th passing input (kept positions are strictly increasing); every output meets the size bounds and has empty text |
| `Pipeline.PipelineComplete` | main.py:96-98 | every input at least 40 x 20 is reported with its own formatted record |
| `Pipeline.PipelineIdempotent` | main.py:96-98 | running the pipeline on already filtered components gives the same records |
| `Pipeline.LabelsAfterFilter` | main.py:96-98 | a reported record is a label exactly when 40 <= width < 150 and 20 <= height < 50 |
| `Pipeline.WideTallRegionIsCard` | main.py:96-98 | a lone 300 x 120 region at the origin is reported as a card with empty text |

## Left out

- The HTTP endpoint `detect_components` (main.py:64-110) is not modelled. This covers the temporary file, the directory creation, the JSON artifact read, the cleanup in `finally`, and the mapping of every exception to a 500 response. All of it is I/O.
- `ip.compo_detection` (main.py:88-89) is a call into a region-proposal library whose code is not part of this model. Its `compos` list is the model's input.
- `resize_height_by_longest_edge` (main.py:31-34) is not modelled. It reads the image with OpenCV and computes in floating point.
- The CORS middleware set-up (main.py:14-20) is framework configuration.
- The default for a missing key, `data.get('compos', [])` (main.py:96), is JSON glue. A missing `compos` key behaves like an empty input list, and the model's input is that list.
- Records are modelled as well-formed. A missing key, or a non-numeric width or height, would raise in Python and end as a 500 response. The model does not capture that.
- OCR, confidence filtering, text-to-region association and keyword-driven classification (including any `button` type) do not exist in this code, so they are not modelled.
