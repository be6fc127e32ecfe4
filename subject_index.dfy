/** The loader's index `td`: one record per subject, built by position from
    the three top-level arrays, then ranked in place; and the lookup every
    chart function starts with. */
module SubjectIndex {
  import opened Wrappers
  import opened Dataset
  import opened Ranking

  /** The push loop: record `i` holds `names[i]`, `metadata[i]` and
      `samples[i]`; entries past `names.length` are ignored. */
  method BuildIndex(d: RawDataset) returns (td: seq<Subject>)
    requires Covers(d)
    ensures |td| == |d.names|
    ensures forall i :: 0 <= i < |td| ==>
              td[i] == Subject(d.names[i], d.metadata[i], d.samples[i])
  {
    td := [];
    var i := 0;
    while i < |d.names|
      invariant 0 <= i <= |d.names|
      invariant |td| == i
      invariant forall k :: 0 <= k < i ==> td[k] == Subject(d.names[k], d.metadata[k], d.samples[k])
    {
      td := td + [Subject(d.names[i], d.metadata[i], d.samples[i])];
      i := i + 1;
    }
  }

  /** The ranking loop: each record's sample set is replaced by its ranked
      form; its `name` and `metadata` are untouched and the records keep
      their order. */
  method RankAll(td: seq<Subject>) returns (ranked: seq<Subject>)
    requires forall i :: 0 <= i < |td| ==> ZipDefined(td[i].samples)
    ensures |ranked| == |td|
    ensures forall i :: 0 <= i < |td| ==>
              ranked[i].name == td[i].name && ranked[i].metadata == td[i].metadata &&
              ranked[i].samples == RankedSet(td[i].samples)
  {
    ranked := td;
    var i := 0;
    while i < |ranked|
      invariant 0 <= i <= |ranked| == |td|
      invariant forall k :: 0 <= k < i ==>
                  ranked[k] == td[k].(samples := RankedSet(td[k].samples))
      invariant forall k :: i <= k < |ranked| ==> ranked[k] == td[k]
    {
      var s := ranked[i].samples;
      var r := RankSamples(s);
      ranked := ranked[i := ranked[i].(samples := r)];
      i := i + 1;
    }
  }

  /** Everything the load callback does to the data before drawing: build
      the index, then rank every subject. */
  method Load(d: RawDataset) returns (td: seq<Subject>)
    requires Covers(d)
    requires forall i :: 0 <= i < |d.names| ==> ZipDefined(d.samples[i])
    ensures |td| == |d.names|
    ensures forall i :: 0 <= i < |td| ==>
              td[i] == Subject(d.names[i], d.metadata[i], RankedSet(d.samples[i]))
  {
    var built := BuildIndex(d);
    td := RankAll(built);
  }

  /** `td.filter(td => td.name === id)`: the matching records, in index order. */
  function Matches(td: seq<Subject>, id: string): (data: seq<Subject>)
    decreases |td|
  {
    if td == [] then []
    else (if td[0].name == id then [td[0]] else []) + Matches(td[1..], id)
  }

  /** `data[0]` of the filtered list; `None` where the source reads
      `undefined` and the next property access throws. */
  function Lookup(td: seq<Subject>, id: string): (r: Option<Subject>) {
    var data := Matches(td, id);
    if |data| == 0 then None else Some(data[0])
  }

  /** Every filtered record matches, and every matching record is kept. */
  lemma {:induction false} MatchesExact(td: seq<Subject>, id: string)
    ensures forall x :: x in Matches(td, id) <==> x in td && x.name == id
    decreases |td|
  {
    if td != [] {
      MatchesExact(td[1..], id);
      assert td == [td[0]] + td[1..];
    }
  }

  /** The lookup finds nothing exactly when no record has the name, and
      otherwise finds the first record that has it. */
  lemma {:induction false} LookupFindsFirst(td: seq<Subject>, id: string)
    ensures Lookup(td, id).None? <==> forall j :: 0 <= j < |td| ==> td[j].name != id
    ensures Lookup(td, id).Some? ==>
              exists i :: 0 <= i < |td| && td[i] == Lookup(td, id).value && td[i].name == id &&
                          forall j :: 0 <= j < i ==> td[j].name != id
    decreases |td|
  {
    if td != [] {
      LookupFindsFirst(td[1..], id);
      if td[0].name != id {
        assert Lookup(td, id) == Lookup(td[1..], id);
        if Lookup(td, id).Some? {
          var i :| 0 <= i < |td[1..]| && td[1..][i] == Lookup(td, id).value && td[1..][i].name == id &&
                   forall j :: 0 <= j < i ==> td[1..][j].name != id;
          assert td[i + 1] == td[1..][i];
          assert forall j :: 0 < j < i + 1 ==> td[j] == td[1..][j - 1];
        } else {
          assert forall j :: 0 < j < |td| ==> td[j] == td[1..][j - 1];
        }
      }
    }
  }
}
