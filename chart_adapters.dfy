/** What each chart function hands to the renderer for one subject: the data
    of the bar, bubble and gauge traces and the lines of the demographic
    panel. Layout and styling are not modelled. */
module ChartAdapters {
  import opened Wrappers
  import opened Numbers
  import opened Dataset
  import opened Ranking

  /** How many OTUs the bar chart shows. */
  const TopCount: nat := 10

  /** The gauge's fixed axis range and title. */
  const GaugeLow: int := 0
  const GaugeHigh: int := 9
  const GaugeTitle: string := "Washing Frequency (scrubs/week)"

  /** The panel's keys, in the order the panel lists them. */
  const PanelKeys: seq<string> := ["id", "ethnicity", "gender", "age", "location", "bbtype", "wfreq"]

  /** The horizontal bar trace: `y` the category labels, `x` the counts,
      `text` the hover labels, and the chart title. */
  datatype BarSpec = BarSpec(y: seq<string>, x: seq<int>, text: seq<string>, title: string)

  /** The bubble trace: marker colour and size both carry the counts. */
  datatype BubbleSpec = BubbleSpec(
    x: seq<Id>, y: seq<int>, text: seq<string>,
    markerColor: seq<int>, markerSize: seq<int>, title: string)

  /** The gauge indicator: the value (`null` passes through) and its axis. */
  datatype GaugeSpec = GaugeSpec(value: Option<nat>, rangeLow: int, rangeHigh: int, title: string)

  /** `arr.slice(0, n)`: at most the first `n` entries. */
  function Take<T>(s: seq<T>, n: nat): (r: seq<T>)
    ensures |r| == if |s| < n then |s| else n
    ensures r == s[..|r|]
  {
    if |s| <= n then s else s[..n]
  }

  /** A bar category: `"OTU " + n.toString()`. */
  function OtuCategory(i: Id): (c: string) {
    "OTU " + IdText(i)
  }

  /** The bar trace for a subject's sample set. */
  function BarInput(s: SampleSet): (b: BarSpec) {
    var top := Take(s.otuIds, TopCount);
    BarSpec(seq(|top|, k requires 0 <= k < |top| => OtuCategory(top[k])),
            Take(s.sampleValues, TopCount), Take(s.otuLabels, TopCount),
            "Top 10 OTUs of individual " + s.id)
  }

  /** The bubble trace for a subject's sample set: the whole arrays. */
  function BubbleInput(s: SampleSet): (b: BubbleSpec) {
    BubbleSpec(s.otuIds, s.sampleValues, s.otuLabels, s.sampleValues, s.sampleValues,
               "OTUs present in individual " + s.id)
  }

  /** The gauge trace for a subject's demographics. */
  function GaugeInput(m: Demographic): (g: GaugeSpec)
    ensures g.value == m.wfreq
    ensures g.rangeLow == GaugeLow && g.rangeHigh == GaugeHigh && g.title == GaugeTitle
  {
    GaugeSpec(m.wfreq, GaugeLow, GaugeHigh, GaugeTitle)
  }

  /** `x.toString()` on a number that may be `null`: `None` where the call throws. */
  function NumberText(x: Option<nat>): (t: Option<string>) {
    match x
    case None => None
    case Some(n) => Some(NatToString(n))
  }

  /** The text after `key: ` for each panel key, in order; `None` where the
      source calls `toString()` on `null`. Text fields are concatenated as they are. */
  function FieldTexts(m: Demographic): (t: seq<Option<string>>)
    ensures |t| == |PanelKeys|
  {
    [NumberText(Some(m.id)), Some(m.ethnicity), Some(m.gender), NumberText(m.age),
     Some(m.location), Some(m.bbtype), NumberText(m.wfreq)]
  }

  /** One panel line: `key + ': ' + value`. */
  function Line(key: string, value: string): (l: string) {
    key + ": " + value
  }

  /** The paragraphs the panel holds after one redraw: each field appends a
      paragraph and then sets its text to `key: value`; a field whose text
      throws leaves its paragraph empty and ends the redraw. */
  function Emit(keys: seq<string>, texts: seq<Option<string>>): (ps: seq<string>)
    requires |keys| == |texts|
    decreases |texts|
  {
    if texts == [] then []
    else match texts[0]
      case None => [""]
      case Some(t) => [Line(keys[0], t)] + Emit(keys[1..], texts[1..])
  }

  /** The panel's paragraphs for a subject, once the earlier ones are cleared. */
  function PanelParagraphs(m: Demographic): (ps: seq<string>) {
    Emit(PanelKeys, FieldTexts(m))
  }

  /** With every value printable, each key yields exactly one line `key: value`, in order. */
  lemma {:induction false} EmitAllPresent(keys: seq<string>, texts: seq<Option<string>>)
    requires |keys| == |texts|
    requires forall k :: 0 <= k < |texts| ==> texts[k].Some?
    ensures |Emit(keys, texts)| == |texts|
    ensures forall k :: 0 <= k < |texts| ==> Emit(keys, texts)[k] == Line(keys[k], texts[k].value)
    decreases |texts|
  {
    if texts != [] {
      EmitAllPresent(keys[1..], texts[1..]);
      var rest := Emit(keys[1..], texts[1..]);
      assert Emit(keys, texts) == [Line(keys[0], texts[0].value)] + rest;
      forall k | 1 <= k < |texts|
        ensures Emit(keys, texts)[k] == Line(keys[k], texts[k].value)
      {
        assert rest[k - 1] == Line(keys[1..][k - 1], texts[1..][k - 1].value);
      }
    }
  }

  /** At the first value that cannot be printed, the lines so far are kept,
      one empty paragraph follows, and nothing else is written. */
  lemma {:induction false} EmitStopsAtNull(keys: seq<string>, texts: seq<Option<string>>, f: nat)
    requires |keys| == |texts| && f < |texts| && texts[f].None?
    requires forall k :: 0 <= k < f ==> texts[k].Some?
    ensures |Emit(keys, texts)| == f + 1 && Emit(keys, texts)[f] == ""
    ensures forall k :: 0 <= k < f ==> Emit(keys, texts)[k] == Line(keys[k], texts[k].value)
    decreases f
  {
    if f > 0 {
      EmitStopsAtNull(keys[1..], texts[1..], f - 1);
      var rest := Emit(keys[1..], texts[1..]);
      assert Emit(keys, texts) == [Line(keys[0], texts[0].value)] + rest;
      forall k | 1 <= k < f
        ensures Emit(keys, texts)[k] == Line(keys[k], texts[k].value)
      {
        assert rest[k - 1] == Line(keys[1..][k - 1], texts[1..][k - 1].value);
      }
    }
  }

  /** A subject whose age and washing frequency are known gets exactly seven
      lines, `id`, `ethnicity`, `gender`, `age`, `location`, `bbtype`,
      `wfreq` in that order, each `key: value`. */
  lemma PanelSevenLines(m: Demographic)
    requires m.age.Some? && m.wfreq.Some?
    ensures |PanelParagraphs(m)| == 7
    ensures forall k :: 0 <= k < 7 ==>
              PanelParagraphs(m)[k] == Line(PanelKeys[k], FieldTexts(m)[k].value)
    ensures PanelParagraphs(m)[0] == Line("id", NatToString(m.id))
    ensures PanelParagraphs(m)[6] == Line("wfreq", NatToString(m.wfreq.value))
  {
    EmitAllPresent(PanelKeys, FieldTexts(m));
  }

  /** A `null` age ends the panel after `gender`, with an empty fourth paragraph;
      a `null` washing frequency leaves the seventh paragraph empty. */
  lemma PanelOnNull(m: Demographic)
    ensures m.age.None? ==> |PanelParagraphs(m)| == 4 && PanelParagraphs(m)[3] == ""
    ensures m.age.Some? && m.wfreq.None? ==>
              |PanelParagraphs(m)| == 7 && PanelParagraphs(m)[6] == "" &&
              PanelParagraphs(m)[3] == Line("age", NatToString(m.age.value))
  {
    if m.age.None? {
      EmitStopsAtNull(PanelKeys, FieldTexts(m), 3);
    } else if m.wfreq.None? {
      EmitStopsAtNull(PanelKeys, FieldTexts(m), 6);
    }
  }

  /** The panel's paragraphs written out field by field. */
  lemma PanelParagraphsSpelledOut(m: Demographic)
    ensures var head := [Line("id", NatToString(m.id)), Line("ethnicity", m.ethnicity), Line("gender", m.gender)];
      PanelParagraphs(m) ==
        if m.age.None? then head + [""]
        else
          var mid := head + [Line("age", NatToString(m.age.value)), Line("location", m.location), Line("bbtype", m.bbtype)];
          if m.wfreq.None? then mid + [""] else mid + [Line("wfreq", NatToString(m.wfreq.value))]
  {
    var t := FieldTexts(m);
    var head := [Line("id", NatToString(m.id)), Line("ethnicity", m.ethnicity), Line("gender", m.gender)];
    if m.age.None? {
      EmitStopsAtNull(PanelKeys, t, 3);
      forall k | 0 <= k < 3 ensures PanelParagraphs(m)[k] == head[k] {
        assert PanelParagraphs(m)[k] == Line(PanelKeys[k], t[k].value);
      }
      assert PanelParagraphs(m) == head + [""];
    } else {
      var mid := head + [Line("age", NatToString(m.age.value)), Line("location", m.location), Line("bbtype", m.bbtype)];
      if m.wfreq.None? {
        EmitStopsAtNull(PanelKeys, t, 6);
        forall k | 0 <= k < 6 ensures PanelParagraphs(m)[k] == mid[k] {
          assert PanelParagraphs(m)[k] == Line(PanelKeys[k], t[k].value);
        }
        assert PanelParagraphs(m) == mid + [""];
      } else {
        EmitAllPresent(PanelKeys, t);
        var want := mid + [Line("wfreq", NatToString(m.wfreq.value))];
        forall k | 0 <= k < 7 ensures PanelParagraphs(m)[k] == want[k] {
          assert PanelParagraphs(m)[k] == Line(PanelKeys[k], t[k].value);
        }
        assert PanelParagraphs(m) == want;
      }
    }
  }

  /** The panel is complete (seven non-empty lines) exactly when age and
      washing frequency are both known. */
  lemma PanelCompleteIff(m: Demographic)
    ensures (|PanelParagraphs(m)| == 7 && forall k :: 0 <= k < 7 ==> PanelParagraphs(m)[k] != "")
            <==> m.age.Some? && m.wfreq.Some?
  {
    PanelOnNull(m);
    if m.age.Some? && m.wfreq.Some? {
      PanelSevenLines(m);
      forall k | 0 <= k < 7 ensures PanelParagraphs(m)[k] != "" {
        assert |Line(PanelKeys[k], FieldTexts(m)[k].value)| > 0;
      }
    }
  }

  /** The bar trace holds `min(10, n)` entries: the first entries of the
      ranked arrays in rank order, each category `"OTU " + id`. */
  lemma BarTopTen(s: SampleSet)
    requires Aligned(s)
    ensures var b := BarInput(s);
      var n := if |s.otuIds| < TopCount then |s.otuIds| else TopCount;
      |b.y| == n && |b.x| == n && |b.text| == n &&
      forall k :: 0 <= k < n ==>
        b.y[k] == "OTU " + IdText(s.otuIds[k]) && b.x[k] == s.sampleValues[k] && b.text[k] == s.otuLabels[k]
  {
  }

  /** For a ranked sample set, the bars are the largest counts: in
      non-increasing order, none smaller than any count left out, and each bar
      (category without its `"OTU "` prefix, count, hover text) is one of the
      subject's original observations. */
  lemma BarShowsLargest(s: SampleSet)
    requires ZipDefined(s)
    ensures var r := RankedSet(s);
      var b := BarInput(r);
      (forall k :: 0 <= k < |b.x| - 1 ==> b.x[k] >= b.x[k + 1]) &&
      (forall k, j :: 0 <= k < |b.x| && |b.x| <= j < |r.sampleValues| ==> b.x[k] >= r.sampleValues[j]) &&
      (forall k :: 0 <= k < |b.y| ==>
         b.y[k][..4] == "OTU " &&
         Obs(Str(b.y[k][4..]), b.x[k], b.text[k]) in multiset(StringifyAll(Zip(s))))
  {
    var r := RankedSet(s);
    var b := BarInput(r);
    RankedShape(s);
    RankedZip(s);
    RankedIsPermutation(s);
    SortDescSorted(StringifyAll(Zip(s)));
    assert Sorted(Zip(r));
    forall k, j | 0 <= k < |b.x| && |b.x| <= j < |r.sampleValues|
      ensures b.x[k] >= r.sampleValues[j]
    {
      assert Zip(r)[k].value >= Zip(r)[j].value;
    }
    forall k | 0 <= k < |b.x| - 1
      ensures b.x[k] >= b.x[k + 1]
    {
      assert Zip(r)[k].value >= Zip(r)[k + 1].value;
    }
    forall k | 0 <= k < |b.y|
      ensures b.y[k][..4] == "OTU "
      ensures Obs(Str(b.y[k][4..]), b.x[k], b.text[k]) in multiset(StringifyAll(Zip(s)))
    {
      assert b.y[k] == "OTU " + IdText(r.otuIds[k]);
      assert r.otuIds[k] == Str(IdText(r.otuIds[k]));
      assert Obs(Str(b.y[k][4..]), b.x[k], b.text[k]) == Zip(r)[k];
      assert Zip(r)[k] in multiset(Zip(r));
    }
  }

  /** The bubble trace uses the whole ranked arrays: as many points as
      observations, never truncated, and its points read back as the ranked
      triples, a permutation of the original observations. */
  lemma BubbleShowsAll(s: SampleSet)
    requires ZipDefined(s)
    ensures var r := RankedSet(s);
      var b := BubbleInput(r);
      |b.x| == |b.y| == |b.text| == |b.markerColor| == |b.markerSize| == |s.otuIds| &&
      b.markerColor == b.y && b.markerSize == b.y &&
      multiset(Zip(SampleSet(r.id, b.x, b.y, b.text))) == multiset(StringifyAll(Zip(s)))
  {
    RankedShape(s);
    RankedIsPermutation(s);
  }
}
