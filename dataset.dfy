/** The shapes of the JSON document the dashboard loads (`names`, `metadata`,
    `samples`) and of the per-subject records it builds from it. */
module Dataset {
  import opened Wrappers
  import opened Numbers

  /** An OTU identifier: a number as it arrives in `otu_ids`, or the text the
      ranking step replaces it with. */
  datatype Id = Num(n: nat) | Str(text: string)

  /** `id.toString()`: numbers print in decimal, strings are returned as they are. */
  function IdText(i: Id): (t: string) {
    match i
    case Num(n) => NatToString(n)
    case Str(t) => t
  }

  /** One observation of a subject: the triple at one index of `otu_ids`,
      `sample_values` and `otu_labels`. */
  datatype Obs = Obs(id: Id, value: int, text: string)

  /** One entry of `samples`: the subject's `id` and three parallel arrays. */
  datatype SampleSet = SampleSet(id: string, otuIds: seq<Id>, sampleValues: seq<int>, otuLabels: seq<string>)

  /** One entry of `metadata`. `age` and `wfreq` are `null` for some subjects. */
  datatype Demographic = Demographic(
    id: nat, ethnicity: string, gender: string, age: Option<nat>,
    location: string, bbtype: string, wfreq: Option<nat>)

  /** One element of `td`: the three top-level entries at one position. */
  datatype Subject = Subject(name: string, metadata: Demographic, samples: SampleSet)

  /** The fetched document. */
  datatype RawDataset = RawDataset(names: seq<string>, metadata: seq<Demographic>, samples: seq<SampleSet>)

  /** Every top-level array has an entry for each name. */
  predicate Covers(d: RawDataset) {
    |d.names| <= |d.metadata| && |d.names| <= |d.samples|
  }

  /** `sample_values[index]` and `otu_labels[index]` exist for every index of `otu_ids`. */
  predicate ZipDefined(s: SampleSet) {
    |s.otuIds| <= |s.sampleValues| && |s.otuIds| <= |s.otuLabels|
  }

  /** The three parallel arrays have one length. */
  predicate Aligned(s: SampleSet) {
    |s.otuIds| == |s.sampleValues| == |s.otuLabels|
  }

  /** `otu_ids.map((otu_id, index) => ({id, value, label}))`: one triple per
      entry of `otu_ids`. */
  function Zip(s: SampleSet): (obs: seq<Obs>)
    requires ZipDefined(s)
  {
    seq(|s.otuIds|, k requires 0 <= k < |s.otuIds| => Obs(s.otuIds[k], s.sampleValues[k], s.otuLabels[k]))
  }

  /** An observation whose id has been replaced by its text (`item["id"].toString()`). */
  function Stringify(o: Obs): (r: Obs) {
    o.(id := Str(IdText(o.id)))
  }

  function StringifyAll(obs: seq<Obs>): (r: seq<Obs>)
    ensures |r| == |obs|
  {
    seq(|obs|, k requires 0 <= k < |obs| => Stringify(obs[k]))
  }

  /** The three `map` calls that write the triples back into the sample set,
      the ids as text. */
  function Unzip(id: string, obs: seq<Obs>): (s: SampleSet) {
    SampleSet(id,
      seq(|obs|, k requires 0 <= k < |obs| => Str(IdText(obs[k].id))),
      seq(|obs|, k requires 0 <= k < |obs| => obs[k].value),
      seq(|obs|, k requires 0 <= k < |obs| => obs[k].text))
  }

  /** Writing triples back and zipping them again gives the same triples, ids as text. */
  lemma UnzipThenZip(id: string, obs: seq<Obs>)
    ensures Aligned(Unzip(id, obs)) && Unzip(id, obs).id == id
    ensures Zip(Unzip(id, obs)) == StringifyAll(obs)
  {
  }

  /** Zipping aligned arrays and writing them back changes nothing but the ids'
      type: each id becomes its own text. */
  lemma ZipThenUnzip(s: SampleSet)
    requires Aligned(s)
    ensures var r := Unzip(s.id, Zip(s));
      r.sampleValues == s.sampleValues && r.otuLabels == s.otuLabels &&
      |r.otuIds| == |s.otuIds| &&
      forall k :: 0 <= k < |s.otuIds| ==> r.otuIds[k] == Str(IdText(s.otuIds[k]))
  {
  }

}
