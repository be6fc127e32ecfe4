# Belly-button biodiversity dashboard: a Dafny model of its data pipeline

The dashboard loads one JSON document with three parallel top-level arrays:
`names`, `metadata` (one demographic record per subject) and `samples` (per
subject, the parallel arrays `otu_ids`, `sample_values` and `otu_labels`).
It then draws four views of one subject: a bar chart of the ten most abundant
OTUs (operational taxonomic units), a bubble chart of all OTUs, a gauge of
the washing frequency `wfreq`, and a seven-line demographic panel. This
project models the pipeline between the fetch and the drawing calls.

- **Subject index** (`SubjectIndex.BuildIndex`): the push loop that zips the
  three top-level arrays by position into records `{name, metadata, samples}`.
- **Ranking** (`Ranking`): for each record, the loop zips the three sample
  arrays into triples and sorts them in place by value, largest first. It then
  writes them back, turning every id into text. The reference definition is a
  stable descending sort, `SortDesc`, written as an insertion sort on
  sequences. Stable means that ties keep their original order, as ECMAScript
  requires of `Array.prototype.sort`. The in-place sort of the `zippedSamples`
  array, `SortByValueDesc`, is an insertion sort on an `array` proved equal to
  it. The model proves that the result is a permutation of the original
  triples, non-increasing, stable, and idempotent.
- **Lookup** (`SubjectIndex.Lookup`): `td.filter(...)[0]`, the first record
  with the requested name, or `None` where the source reads `undefined` and
  throws.
- **Chart inputs** (`ChartAdapters`): the bar trace (first ten entries, with
  categories `"OTU " + id`), the bubble trace (all entries), the gauge trace
  (`wfreq`) and the demographic panel's paragraphs.
- **Page** (`Selection.Dashboard`): a class whose fields are what the four
  render targets show and whether the dropdown's `change` listener is
  attached. `Show` is the body of `init` and `optionChanged`. `Start` is the
  load callback, given the fetched document.

Errors are modelled as the source raises them. A JavaScript `TypeError`
becomes an `ok == false` result that stops the rest of the sequence:
- a subject id that matches no record makes `bar` throw before anything is
  drawn;
- `toString()` on a `null` `age` or `wfreq` leaves that field's paragraph
  empty and ends the panel;
- when `init` throws, the `change` listener is never attached.

Points where the code's behaviour is easy to misread, as the model has them:
- the bar and bubble titles use the sample set's `id`, not the demographic
  `id`;
- an unknown subject is not reported: `bar` throws, and all four targets keep
  their previous content;
- index construction does not check that the three top-level arrays have equal
  lengths;
- the demographic panel is cleared before the lookup, so a direct
  `demographic(id)` call for an unknown id leaves the panel empty.

## Model

| member | source | states |
|---|---|---|
| `Numbers.NatToString` | static/js/app.js:51 | `toString()` of a count (an integer below 2^53) gives a non-empty string of decimal digits whose first digit is `0` exactly when the count is zero |
| `Numbers.NatToStringRoundTrip` | static/js/app.js:51 | reading the printed digits back gives the original number |
| `Numbers.NatToStringInjective` | static/js/app.js:51 | two ids print the same exactly when they are equal, so distinct OTU ids stay distinct as text |
| `Dataset.UnzipThenZip` | static/js/app.js:40-53 | writing triples back into the three arrays and zipping them again gives the same triples, with the ids as text, and the arrays have one length |
| `Dataset.ZipThenUnzip` | static/js/app.js:40-53 | zipping aligned arrays and writing them back leaves values and labels as they were and replaces each id by its text |
| `Ranking.InsertPermutes` | static/js/app.js:47 | one insertion step adds exactly the inserted triple to the multiset of triples |
| `Ranking.SortDescPermutes` | static/js/app.js:47 | the stable descending sort keeps the length and the multiset of triples |
| `Ranking.SortDescSorted` | static/js/app.js:47 | the sorted triples are non-increasing by value, for every pair of positions |
| `Ranking.SortDescStable` | static/js/app.js:47 | for every value, the triples with that value keep their original relative order |
| `Ranking.SortDescFixesSorted` | static/js/app.js:47 | a sequence already in descending order, ties included, is left unchanged |
| `Ranking.SortDescIdempotent` | static/js/app.js:47 | sorting twice gives the same result as sorting once |
| `Ranking.InsertAt` | static/js/app.js:47 | inserting a triple into sorted triples places it after every entry at least as large and before every strictly smaller one, so ties keep their order |
| `Ranking.InsertLast` | static/js/app.js:47 | shifting `a[i]` left past smaller entries turns `a[..i+1]` into the insertion of `a[i]` into `a[..i]`, and leaves the rest of the array unchanged |
| `Ranking.SortByValueDesc` | static/js/app.js:47 | the in-place sort of `zippedSamples` leaves the array equal to the stable descending sort of its old contents |
| `Ranking.RankSamples` | static/js/app.js:37-55 | one pass of the ranking loop gives the ranked sample set: the arrays are aligned, as long as `otu_ids` was, and `sample_values` is non-increasing |
| `Ranking.SortDescStringify` | static/js/app.js:47-51 | turning ids into text before or after the sort gives the same triples, because the sort looks only at values |
| `Ranking.RankedZip` | static/js/app.js:40-53 | the triples read off the ranked arrays are the stable descending sort of the original triples, with the ids as text |
| `Ranking.RankedShape` | static/js/app.js:40-55 | ranking keeps the sample set's `id`, makes all three arrays as long as the original `otu_ids`, and leaves every id as text |
| `Ranking.RankedIsPermutation` | static/js/app.js:40-53 | the ranked triples are a permutation of the original triples, and index `k` of the three ranked arrays is one original (id, value, label) observation |
| `Ranking.RankedNonIncreasing` | static/js/app.js:47-52 | after ranking, `sample_values[k] >= sample_values[k+1]` at every index |
| `Ranking.RankedIsStable` | static/js/app.js:47 | tied values appear in the ranked arrays in their original order |
| `Ranking.RankedIdempotent` | static/js/app.js:35-56 | ranking an already ranked sample set changes nothing |
| `SubjectIndex.BuildIndex` | static/js/app.js:15-23 | the index has `names.length` records, and record `i` holds `names[i]`, `metadata[i]` and `samples[i]` in input order |
| `SubjectIndex.RankAll` | static/js/app.js:35-56 | the ranking loop replaces each record's sample set by its ranked form, keeps each `name` and `metadata` untouched, and keeps the records in order |
| `SubjectIndex.Load` | static/js/app.js:15-56 | after loading, record `i` is `names[i]`, `metadata[i]` and the ranking of `samples[i]` |
| `SubjectIndex.MatchesExact` | static/js/app.js:63 | the filter keeps exactly the records whose `name` equals the requested id |
| `SubjectIndex.LookupFindsFirst` | static/js/app.js:63-64 | the lookup fails exactly when no record has the name, and otherwise returns the first record that has it |
| `ChartAdapters.Take` | static/js/app.js:67-70 | `slice(0, n)` returns the first `min(n, length)` entries |
| `ChartAdapters.BarTopTen` | static/js/app.js:67-70 | the bar trace has `min(10, n)` entries: category `k` is `"OTU " + otu_ids[k]`, count `k` is `sample_values[k]` and hover text `k` is `otu_labels[k]` |
| `ChartAdapters.BarShowsLargest` | static/js/app.js:67-70 | on a ranked set the bar counts are non-increasing and no smaller than any count left out, and each bar is one of the subject's original observations |
| `ChartAdapters.BubbleShowsAll` | static/js/app.js:106-113 | the bubble trace has one point per observation with no truncation, its marker colour and size are the counts, and its points are a permutation of the original observations |
| `ChartAdapters.GaugeInput` | static/js/app.js:132-141 | the gauge shows the subject's `wfreq` (`null` included) on the fixed range 0 to 9 under the fixed title |
| `ChartAdapters.EmitAllPresent` | static/js/app.js:156-162 | when every value is printable, the panel has one `key: value` line per key, in key order |
| `ChartAdapters.EmitStopsAtNull` | static/js/app.js:156-162 | at the first value whose `toString()` throws, the earlier lines stay, one empty paragraph follows, and nothing else is written |
| `ChartAdapters.PanelSevenLines` | static/js/app.js:156-162 | with `age` and `wfreq` known, the panel has exactly seven lines, in the order id, ethnicity, gender, age, location, bbtype, wfreq, each `key: value` |
| `ChartAdapters.PanelOnNull` | static/js/app.js:159-162 | a `null` age stops the panel at an empty fourth paragraph; a `null` `wfreq` leaves the seventh paragraph empty |
| `ChartAdapters.PanelParagraphsSpelledOut` | static/js/app.js:156-162 | the panel's paragraphs written out field by field, for each of the three null cases |
| `ChartAdapters.PanelCompleteIff` | static/js/app.js:156-162 | the panel has seven non-empty lines exactly when `age` and `wfreq` are both known |
| `Selection.Dashboard.DrawBar` | static/js/app.js:61-96 | `bar(id)` fails exactly when no record matches, and then leaves the bar chart as it was; otherwise it shows the bar trace of the first match |
| `Selection.Dashboard.DrawBubble` | static/js/app.js:101-125 | `bubble(id)` shows the bubble trace of the first match, or fails without drawing |
| `Selection.Dashboard.DrawGauge` | static/js/app.js:130-144 | `gauge(id)` shows the first match's `wfreq`, or fails without drawing |
| `Selection.Dashboard.AppendParagraph` | static/js/app.js:156 | appending a panel line adds exactly one paragraph, which stays empty when its value throws |
| `Selection.Dashboard.DrawDemographic` | static/js/app.js:148-163 | the panel is first cleared, so no line from an earlier subject remains; it then holds the subject's paragraphs, and the call succeeds exactly when the subject exists with a known age and `wfreq` |
| `Selection.Dashboard.Show` | static/js/app.js:184-188 | for an unknown subject all four targets keep their content; otherwise bar, bubble and gauge show the subject and the panel holds its paragraphs |
| `Selection.Dashboard.Init` | static/js/app.js:167-174 | when subject `940` exists, all four targets show it and the `change` listener is attached exactly when its age and `wfreq` are known (so the panel did not throw); when it is missing, nothing changes and the listener stays detached |
| `Selection.Dashboard.OptionChanged` | static/js/app.js:178-191 | a selection redraws only while the listener is attached; an unknown selection leaves all four targets unchanged |
| `Selection.Start` | static/js/app.js:2-196 | the load callback builds the ranked index from the document; if subject `940` exists, all four targets show it and the listener is attached exactly when its panel completed; if it is missing, no target is drawn and the listener is never attached |
| `WorkedExample.RankThreeObservations` | static/js/app.js:35-70 | ids 10, 20, 30 with counts 5, 50, 15 rank as `"20"`, `"30"`, `"10"` with counts 50, 15, 5, and the bar categories are `OTU 20`, `OTU 30`, `OTU 10` |

## Left out

- The `d3.json` fetch and its promise: the fetched document is the parameter of `Selection.Start`, and a failed fetch is not modelled.
- `console.log` calls: they only log.
- Filling the dropdown with `option` elements, and reading its value through d3: the selected value is the parameter of `OptionChanged`.
- The `Plotly.newPlot` calls: each drawing is modelled as a value stored in a field of `Dashboard`.
- Plotly styling and layout: axis titles, `tickmode`, `tickvals`, `ticktext`, the colour scale and the trace's `type`, `mode` and `orientation`.
- The Plotly `transforms` sort directive on the bar trace: it runs inside the renderer. The ranking step is the only ordering in the model.
- `SubjectIndex.BuildIndex`: a `metadata` or `samples` array shorter than `names`, which gives `undefined` entries, is excluded by a precondition. Longer arrays are modelled: their extra entries are ignored.
- `Ranking.RankSamples`: `sample_values` or `otu_labels` shorter than `otu_ids` is excluded by a precondition. A short `sample_values` gives `undefined` values, the comparator then returns `NaN` and the order depends on the engine; a short `otu_labels` only gives `undefined` labels, which the model has no value for. Longer arrays are modelled: they are truncated to the length of `otu_ids`.
- `Ranking.SortByValueDesc`: the engine's own sorting algorithm is not modelled, only its result, the stable descending order that ECMAScript requires.
- In-place mutation of the shared JSON objects: `td` is a sequence of values updated element by element. Objects from `JSON.parse` are never shared, so no aliasing is lost.
- Numbers are non-negative integers: OTU ids, the demographic `id`, `age` and `wfreq` are naturals, and sample values are integers, all below 2^53 so that a double holds them exactly. Fractional numbers and JavaScript's exponential printing from 10^21 upward are not modelled, nor is the rounding of JSON parsing above 2^53: it rounds integers there, so distinct numbers in the document can become equal.
- `null` in the text fields `ethnicity`, `gender`, `location` and `bbtype` (which JavaScript would print as `"null"`): these fields are modelled as strings.
- `Selection.Dashboard.DrawDemographic`: `d3.selectAll("p").remove()` removes every `<p>` element on the page, not only those in `#sample-metadata`; the model's `paragraphs` field holds the panel only, and other paragraphs on the page are not modelled.
