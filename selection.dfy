/** The page the load callback draws on: the four render targets, and the
    `change` listener that `init` leaves attached only when it completes.
    Each chart function may throw (a missing subject, a `null` printed with
    `toString()`); a thrown error stops the rest of `init` or `optionChanged`. */
module Selection {
  import opened Wrappers
  import opened Numbers
  import opened Dataset
  import opened SubjectIndex
  import opened ChartAdapters

  /** The subject drawn when the page loads. */
  const DefaultSubject: string := "940"

  class Dashboard {
    /** The ranked index `td` the chart functions close over. */
    const index: seq<Subject>
    /** What was last drawn into `#bar`, `#bubble`, `#gauge`. */
    var bar: Option<BarSpec>
    var bubble: Option<BubbleSpec>
    var gauge: Option<GaugeSpec>
    /** The paragraphs of `#sample-metadata`. */
    var paragraphs: seq<string>
    /** Whether `optionChanged` is attached to the dropdown. */
    var listening: bool

    constructor (index: seq<Subject>)
      ensures this.index == index
      ensures bar.None? && bubble.None? && gauge.None? && paragraphs == [] && !listening
    {
      this.index := index;
      bar, bubble, gauge := None, None, None;
      paragraphs := [];
      listening := false;
    }

    /** `bar(id)`: with no matching record it throws before drawing. */
    method DrawBar(id: string) returns (ok: bool)
      modifies this`bar
      ensures ok <==> Lookup(index, id).Some?
      ensures bar == if ok then Some(BarInput(Lookup(index, id).value.samples)) else old(bar)
    {
      var data := Lookup(index, id);
      if data.None? {
        return false;
      }
      bar := Some(BarInput(data.value.samples));
      return true;
    }

    /** `bubble(id)`. */
    method DrawBubble(id: string) returns (ok: bool)
      modifies this`bubble
      ensures ok <==> Lookup(index, id).Some?
      ensures bubble == if ok then Some(BubbleInput(Lookup(index, id).value.samples)) else old(bubble)
    {
      var data := Lookup(index, id);
      if data.None? {
        return false;
      }
      bubble := Some(BubbleInput(data.value.samples));
      return true;
    }

    /** `gauge(id)`. */
    method DrawGauge(id: string) returns (ok: bool)
      modifies this`gauge
      ensures ok <==> Lookup(index, id).Some?
      ensures gauge == if ok then Some(GaugeInput(Lookup(index, id).value.metadata)) else old(gauge)
    {
      var data := Lookup(index, id);
      if data.None? {
        return false;
      }
      gauge := Some(GaugeInput(data.value.metadata));
      return true;
    }

    /** One `append("p").text(key + ': ' + value)`: the paragraph is appended
        first, so a value that throws leaves it empty. */
    method AppendParagraph(key: string, value: Option<string>) returns (ok: bool)
      modifies this`paragraphs
      ensures ok == value.Some?
      ensures paragraphs == old(paragraphs) + [if ok then Line(key, value.value) else ""]
    {
      paragraphs := paragraphs + [""];
      if value.None? {
        return false;
      }
      paragraphs := paragraphs[..|paragraphs| - 1] + [Line(key, value.value)];
      return true;
    }

    /** `demographic(id)`: clears every paragraph first, then looks the
        subject up and writes its lines. Nothing from an earlier subject
        survives, even when this one is missing or a value throws. */
    method DrawDemographic(id: string) returns (ok: bool)
      modifies this`paragraphs
      ensures paragraphs == match Lookup(index, id)
                            case None => []
                            case Some(s) => PanelParagraphs(s.metadata)
      ensures ok <==> Lookup(index, id).Some? &&
                      Lookup(index, id).value.metadata.age.Some? &&
                      Lookup(index, id).value.metadata.wfreq.Some?
    {
      paragraphs := [];
      var data := Lookup(index, id);
      if data.None? {
        return false;
      }
      var demo := data.value.metadata;
      PanelParagraphsSpelledOut(demo);
      ghost var lines := [];
      ok := AppendParagraph("id", NumberText(Some(demo.id)));
      lines := lines + [Line("id", NatToString(demo.id))];
      assert paragraphs == lines;
      ok := AppendParagraph("ethnicity", Some(demo.ethnicity));
      ok := AppendParagraph("gender", Some(demo.gender));
      lines := lines + [Line("ethnicity", demo.ethnicity), Line("gender", demo.gender)];
      assert paragraphs == lines;
      ok := AppendParagraph("age", NumberText(demo.age));
      if !ok {
        assert paragraphs == lines + [""];
        return;
      }
      lines := lines + [Line("age", NatToString(demo.age.value))];
      assert paragraphs == lines;
      ok := AppendParagraph("location", Some(demo.location));
      ok := AppendParagraph("bbtype", Some(demo.bbtype));
      lines := lines + [Line("location", demo.location), Line("bbtype", demo.bbtype)];
      assert paragraphs == lines;
      ok := AppendParagraph("wfreq", NumberText(demo.wfreq));
      if !ok {
        assert paragraphs == lines + [""];
        return;
      }
      assert paragraphs == lines + [Line("wfreq", NatToString(demo.wfreq.value))];
    }

    /** The body of `init` and `optionChanged`: the four chart functions in
        order. An unknown subject makes `bar` throw, so nothing is redrawn;
        otherwise the three charts show the subject and the panel holds its
        lines, complete unless a `null` age or washing frequency threw. */
    method Show(id: string) returns (ok: bool)
      modifies this`bar, this`bubble, this`gauge, this`paragraphs
      ensures Lookup(index, id).None? ==>
                !ok && bar == old(bar) && bubble == old(bubble) &&
                gauge == old(gauge) && paragraphs == old(paragraphs)
      ensures Lookup(index, id).Some? ==>
                var s := Lookup(index, id).value;
                bar == Some(BarInput(s.samples)) && bubble == Some(BubbleInput(s.samples)) &&
                gauge == Some(GaugeInput(s.metadata)) && paragraphs == PanelParagraphs(s.metadata) &&
                (ok <==> s.metadata.age.Some? && s.metadata.wfreq.Some?)
    {
      ok := DrawBar(id);
      if !ok {
        return;
      }
      var drawn := DrawBubble(id);
      drawn := DrawGauge(id);
      ok := DrawDemographic(id);
    }

    /** `init()` followed by attaching the listener: the listener is attached
        only when drawing the default subject did not throw. */
    method Init() returns (ok: bool)
      modifies this`bar, this`bubble, this`gauge, this`paragraphs, this`listening
      ensures listening == ok
      ensures Lookup(index, DefaultSubject).Some? ==>
                var s := Lookup(index, DefaultSubject).value;
                bar == Some(BarInput(s.samples)) && bubble == Some(BubbleInput(s.samples)) &&
                gauge == Some(GaugeInput(s.metadata)) && paragraphs == PanelParagraphs(s.metadata) &&
                (ok <==> s.metadata.age.Some? && s.metadata.wfreq.Some?)
      ensures Lookup(index, DefaultSubject).None? ==>
                !ok && bar == old(bar) && bubble == old(bubble) &&
                gauge == old(gauge) && paragraphs == old(paragraphs)
    {
      ok := Show(DefaultSubject);
      listening := ok;
    }

    /** A `change` event on the dropdown selecting `sel`: handled only when the
        listener is attached; an error thrown by the handler is dropped. */
    method OptionChanged(sel: string)
      modifies this`bar, this`bubble, this`gauge, this`paragraphs
      ensures !listening ==> bar == old(bar) && bubble == old(bubble) &&
                             gauge == old(gauge) && paragraphs == old(paragraphs)
      ensures listening && Lookup(index, sel).Some? ==>
                var s := Lookup(index, sel).value;
                bar == Some(BarInput(s.samples)) && bubble == Some(BubbleInput(s.samples)) &&
                gauge == Some(GaugeInput(s.metadata)) && paragraphs == PanelParagraphs(s.metadata)
      ensures Lookup(index, sel).None? ==>
                bar == old(bar) && bubble == old(bubble) &&
                gauge == old(gauge) && paragraphs == old(paragraphs)
    {
      if listening {
        var ok := Show(sel);
      }
    }
  }

  /** The load callback, given the fetched document: build and rank the
      index, draw the default subject, attach the listener if that worked. */
  method Start(d: RawDataset) returns (dash: Dashboard)
    requires Covers(d)
    requires forall i :: 0 <= i < |d.names| ==> ZipDefined(d.samples[i])
    ensures fresh(dash)
    ensures |dash.index| == |d.names|
    ensures forall i :: 0 <= i < |d.names| ==>
              dash.index[i] == Subject(d.names[i], d.metadata[i], Ranking.RankedSet(d.samples[i]))
    ensures Lookup(dash.index, DefaultSubject).None? ==>
              !dash.listening && dash.bar.None? && dash.bubble.None? &&
              dash.gauge.None? && dash.paragraphs == []
    ensures Lookup(dash.index, DefaultSubject).Some? ==>
              var s := Lookup(dash.index, DefaultSubject).value;
              dash.bar == Some(BarInput(s.samples)) && dash.bubble == Some(BubbleInput(s.samples)) &&
              dash.gauge == Some(GaugeInput(s.metadata)) && dash.paragraphs == PanelParagraphs(s.metadata) &&
              (dash.listening <==> s.metadata.age.Some? && s.metadata.wfreq.Some?)
  {
    var td := Load(d);
    dash := new Dashboard(td);
    var ok := dash.Init();
  }
}
