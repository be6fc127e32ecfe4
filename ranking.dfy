/** The ranking step of the loader: each subject's triples are sorted by
    `sample_values`, largest first, by a stable sort (ties keep their
    original order, as `Array.prototype.sort` guarantees), and written back
    with the ids as text. */
module Ranking {
  import opened Dataset

  /** Non-increasing by value: the order `(a, b) => b.value - a.value` sorts into. */
  predicate Sorted(s: seq<Obs>) {
    forall i, j :: 0 <= i < j < |s| ==> s[i].value >= s[j].value
  }

  /** `s` followed by `x`, with `x` moved in front of the trailing entries
      whose value is strictly smaller than its own, and no further. */
  function Insert(s: seq<Obs>, x: Obs): (r: seq<Obs>)
    decreases |s|
  {
    if s == [] || s[|s| - 1].value >= x.value then s + [x]
    else Insert(s[..|s| - 1], x) + [s[|s| - 1]]
  }

  /** The stable descending sort, as a reference definition: insertion sort. */
  function SortDesc(s: seq<Obs>): (r: seq<Obs>)
    decreases |s|
  {
    if s == [] then [] else Insert(SortDesc(s[..|s| - 1]), s[|s| - 1])
  }

  /** The entries of `s` whose value is `v`, in their order in `s`. */
  function WithValue(s: seq<Obs>, v: int): (r: seq<Obs>)
    decreases |s|
  {
    if s == [] then []
    else WithValue(s[..|s| - 1], v) + (if s[|s| - 1].value == v then [s[|s| - 1]] else [])
  }

  lemma {:induction false} InsertPermutes(s: seq<Obs>, x: Obs)
    ensures |Insert(s, x)| == |s| + 1
    ensures multiset(Insert(s, x)) == multiset(s) + multiset{x}
    decreases |s|
  {
    if s != [] && s[|s| - 1].value < x.value {
      assert s == s[..|s| - 1] + [s[|s| - 1]];
      InsertPermutes(s[..|s| - 1], x);
    }
  }

  /** The reference sort is a permutation: same length, same multiset of triples. */
  lemma {:induction false} SortDescPermutes(s: seq<Obs>)
    ensures |SortDesc(s)| == |s|
    ensures multiset(SortDesc(s)) == multiset(s)
    decreases |s|
  {
    if s != [] {
      assert s == s[..|s| - 1] + [s[|s| - 1]];
      SortDescPermutes(s[..|s| - 1]);
      InsertPermutes(SortDesc(s[..|s| - 1]), s[|s| - 1]);
    }
  }

  lemma {:induction false} InsertSorted(s: seq<Obs>, x: Obs)
    requires Sorted(s)
    ensures Sorted(Insert(s, x))
  {
    if s == [] || s[|s| - 1].value >= x.value {
    } else {
      var init, last := s[..|s| - 1], s[|s| - 1];
      InsertSorted(init, x);
      InsertPermutes(init, x);
      var r := Insert(init, x);
      forall i | 0 <= i < |r|
        ensures r[i].value >= last.value
      {
        assert r[i] in multiset(r);
        if r[i] != x {
          assert r[i] in multiset(init);
          var k :| 0 <= k < |init| && init[k] == r[i];
          assert s[k] == init[k];
        }
      }
    }
  }

  /** The reference sort orders by value, largest first. */
  lemma {:induction false} SortDescSorted(s: seq<Obs>)
    ensures Sorted(SortDesc(s))
  {
    if s != [] {
      SortDescSorted(s[..|s| - 1]);
      InsertSorted(SortDesc(s[..|s| - 1]), s[|s| - 1]);
    }
  }

  lemma WithValueSnoc(s: seq<Obs>, e: Obs, v: int)
    ensures WithValue(s + [e], v) == WithValue(s, v) + (if e.value == v then [e] else [])
  {
    assert (s + [e])[..|s|] == s;
  }

  lemma {:induction false} InsertWithValue(s: seq<Obs>, x: Obs, v: int)
    ensures WithValue(Insert(s, x), v) == WithValue(s, v) + (if x.value == v then [x] else [])
    decreases |s|
  {
    if s == [] || s[|s| - 1].value >= x.value {
      WithValueSnoc(s, x, v);
    } else {
      var init, last := s[..|s| - 1], s[|s| - 1];
      assert s == init + [last];
      InsertWithValue(init, x, v);
      WithValueSnoc(Insert(init, x), last, v);
      WithValueSnoc(init, last, v);
    }
  }

  /** Stability: the entries of any one value keep their original relative order. */
  lemma {:induction false} SortDescStable(s: seq<Obs>, v: int)
    ensures WithValue(SortDesc(s), v) == WithValue(s, v)
    decreases |s|
  {
    if s != [] {
      SortDescStable(s[..|s| - 1], v);
      InsertWithValue(SortDesc(s[..|s| - 1]), s[|s| - 1], v);
    }
  }

  /** A sequence that is already in order is left as it is, ties included. */
  lemma {:induction false} SortDescFixesSorted(s: seq<Obs>)
    requires Sorted(s)
    ensures SortDesc(s) == s
    decreases |s|
  {
    if s != [] {
      var init := s[..|s| - 1];
      SortDescFixesSorted(init);
      assert s == init + [s[|s| - 1]];
    }
  }

  /** Sorting is idempotent. */
  lemma SortDescIdempotent(s: seq<Obs>)
    ensures SortDesc(SortDesc(s)) == SortDesc(s)
  {
    SortDescSorted(s);
    SortDescFixesSorted(SortDesc(s));
  }

  /** Inserting `x` into `p` splices it in at the point `j` where the entries
      before are at least as large and the entries after are strictly smaller. */
  lemma {:induction false} InsertAt(p: seq<Obs>, x: Obs, j: nat)
    requires j <= |p| && (j == 0 || p[j - 1].value >= x.value)
    requires forall k :: j <= k < |p| ==> p[k].value < x.value
    ensures Insert(p, x) == p[..j] + [x] + p[j..]
    decreases |p|
  {
    if j < |p| {
      var init := p[..|p| - 1];
      assert init[..j] == p[..j];
      InsertAt(init, x, j);
      assert p[j..] == init[j..] + [p[|p| - 1]];
    } else {
      assert p[..j] == p;
    }
  }

  /** One pass of the insertion: shifts `a[i]` left past the strictly
      smaller entries of the sorted prefix `a[..i]`. */
  method InsertLast(a: array<Obs>, i: nat)
    requires i < a.Length
    modifies a
    ensures a[..i + 1] == Insert(old(a[..i]), old(a[i]))
    ensures a[i + 1..] == old(a[i + 1..])
  {
    ghost var sorted := a[..i];
    var x := a[i];
    var j := i;
    while j > 0 && a[j - 1].value < x.value
      invariant 0 <= j <= i
      invariant forall k :: 0 <= k < j ==> a[k] == sorted[k]
      invariant forall k :: j < k <= i ==> a[k] == sorted[k - 1]
      invariant forall k :: i < k < a.Length ==> a[k] == old(a[k])
      invariant forall k :: j <= k < i ==> sorted[k].value < x.value
    {
      a[j] := a[j - 1];
      j := j - 1;
    }
    a[j] := x;
    InsertAt(sorted, x, j);
    SpliceAt(a[..i + 1], sorted, x, j);
  }

  /** A sequence that agrees with `p` before `j`, holds `x` at `j`, and agrees
      with `p` shifted by one after `j`, is `p` with `x` spliced in at `j`. */
  lemma SpliceAt(t: seq<Obs>, p: seq<Obs>, x: Obs, j: nat)
    requires |t| == |p| + 1 && j <= |p|
    requires forall k :: 0 <= k < j ==> t[k] == p[k]
    requires t[j] == x
    requires forall k :: j < k < |t| ==> t[k] == p[k - 1]
    ensures t == p[..j] + [x] + p[j..]
  {
  }

  /** `zippedSamples.sort((a, b) => b.value - a.value)`: sorts the array in
      place into the stable descending order. The engine's own algorithm is
      not visible; this one is an insertion sort with the same result. */
  method SortByValueDesc(a: array<Obs>)
    modifies a
    ensures a[..] == SortDesc(old(a[..]))
  {
    ghost var orig := a[..];
    var i := 0;
    while i < a.Length
      invariant 0 <= i <= a.Length
      invariant a[..i] == SortDesc(orig[..i])
      invariant a[i..] == orig[i..]
    {
      InsertLast(a, i);
      assert orig[..i + 1][..i] == orig[..i];
      assert orig[i] == orig[i..][0];
      i := i + 1;
    }
    assert a[..] == a[..a.Length] && orig == orig[..a.Length];
  }

  /** The sample set after the loader's ranking step. */
  function RankedSet(s: SampleSet): (r: SampleSet)
    requires ZipDefined(s)
  {
    Unzip(s.id, SortDesc(Zip(s)))
  }

  /** One subject's pass of the ranking loop: zip the three arrays, sort the
      triples in place, write them back with the ids as text. The other
      fields of the sample set (its `id`) are untouched. */
  method RankSamples(s: SampleSet) returns (r: SampleSet)
    requires ZipDefined(s)
    ensures r == RankedSet(s)
    ensures Aligned(r) && |r.otuIds| == |s.otuIds|
    ensures forall k :: 0 <= k < |r.sampleValues| - 1 ==> r.sampleValues[k] >= r.sampleValues[k + 1]
  {
    var obs := Zip(s);
    var zipped := new Obs[|obs|](k requires 0 <= k < |obs| => obs[k]);
    assert zipped[..] == obs;
    SortByValueDesc(zipped);
    var sorted := zipped[..];
    r := s.(otuIds := seq(|sorted|, k requires 0 <= k < |sorted| => Str(IdText(sorted[k].id))),
            sampleValues := seq(|sorted|, k requires 0 <= k < |sorted| => sorted[k].value),
            otuLabels := seq(|sorted|, k requires 0 <= k < |sorted| => sorted[k].text));
    RankedShape(s);
    RankedNonIncreasing(s);
  }

  lemma StringifyAllSnoc(s: seq<Obs>, e: Obs)
    ensures StringifyAll(s + [e]) == StringifyAll(s) + [Stringify(e)]
  {
  }

  lemma {:induction false} InsertStringify(s: seq<Obs>, x: Obs)
    ensures StringifyAll(Insert(s, x)) == Insert(StringifyAll(s), Stringify(x))
    decreases |s|
  {
    var t := StringifyAll(s);
    if s == [] || s[|s| - 1].value >= x.value {
      StringifyAllSnoc(s, x);
    } else {
      var init, last := s[..|s| - 1], s[|s| - 1];
      assert t[..|t| - 1] == StringifyAll(init);
      InsertStringify(init, x);
      StringifyAllSnoc(Insert(init, x), last);
    }
  }

  /** Sorting does not look at ids, so it commutes with turning them into text. */
  lemma {:induction false} SortDescStringify(s: seq<Obs>)
    ensures StringifyAll(SortDesc(s)) == SortDesc(StringifyAll(s))
    decreases |s|
  {
    if s != [] {
      var t := StringifyAll(s);
      assert t[..|t| - 1] == StringifyAll(s[..|s| - 1]);
      SortDescStringify(s[..|s| - 1]);
      InsertStringify(SortDesc(s[..|s| - 1]), s[|s| - 1]);
    }
  }

  /** The triples read off the ranked arrays are the original triples, ids as
      text, in stable descending order. */
  lemma RankedZip(s: SampleSet)
    requires ZipDefined(s)
    ensures Aligned(RankedSet(s))
    ensures Zip(RankedSet(s)) == SortDesc(StringifyAll(Zip(s)))
  {
    UnzipThenZip(s.id, SortDesc(Zip(s)));
    SortDescStringify(Zip(s));
  }

  /** Ranking keeps the subject's `id`, makes the three arrays as long as
      `otu_ids` was, and leaves every id as text. */
  lemma RankedShape(s: SampleSet)
    requires ZipDefined(s)
    ensures var r := RankedSet(s);
      r.id == s.id && Aligned(r) && |r.otuIds| == |s.otuIds| &&
      forall k :: 0 <= k < |r.otuIds| ==> r.otuIds[k].Str?
  {
    SortDescPermutes(Zip(s));
  }

  /** Ranking is a permutation of the triples: the ranked triples and the
      original ones (ids as text) are the same multiset, so index `k` of the
      three ranked arrays is one original observation. */
  lemma RankedIsPermutation(s: SampleSet)
    requires ZipDefined(s)
    ensures multiset(Zip(RankedSet(s))) == multiset(StringifyAll(Zip(s)))
    ensures var r := RankedSet(s);
      forall k :: 0 <= k < |r.otuIds| ==>
        exists j :: 0 <= j < |s.otuIds| &&
          r.otuIds[k] == Str(IdText(s.otuIds[j])) &&
          r.sampleValues[k] == s.sampleValues[j] && r.otuLabels[k] == s.otuLabels[j]
  {
    var r := RankedSet(s);
    var orig := StringifyAll(Zip(s));
    RankedZip(s);
    SortDescPermutes(orig);
    forall k | 0 <= k < |r.otuIds|
      ensures exists j :: 0 <= j < |s.otuIds| &&
                          r.otuIds[k] == Str(IdText(s.otuIds[j])) &&
                          r.sampleValues[k] == s.sampleValues[j] && r.otuLabels[k] == s.otuLabels[j]
    {
      var z := Zip(r);
      assert z[k] in multiset(orig);
      var j :| 0 <= j < |orig| && orig[j] == z[k];
      assert z[k] == Obs(r.otuIds[k], r.sampleValues[k], r.otuLabels[k]);
    }
  }

  /** After ranking, `sample_values` is non-increasing. */
  lemma RankedNonIncreasing(s: SampleSet)
    requires ZipDefined(s)
    ensures var r := RankedSet(s);
      |r.sampleValues| == |s.otuIds| &&
      forall k :: 0 <= k < |r.sampleValues| - 1 ==> r.sampleValues[k] >= r.sampleValues[k + 1]
  {
    var r := RankedSet(s);
    RankedZip(s);
    RankedShape(s);
    SortDescSorted(StringifyAll(Zip(s)));
    forall k | 0 <= k < |r.sampleValues| - 1
      ensures r.sampleValues[k] >= r.sampleValues[k + 1]
    {
      assert Zip(r)[k].value >= Zip(r)[k + 1].value;
    }
  }

  /** Ties keep their original order: for any value, the triples with that
      value appear in the ranked arrays in the order they had before. */
  lemma RankedIsStable(s: SampleSet, v: int)
    requires ZipDefined(s)
    ensures WithValue(Zip(RankedSet(s)), v) == WithValue(StringifyAll(Zip(s)), v)
  {
    RankedZip(s);
    SortDescStable(StringifyAll(Zip(s)), v);
  }

  /** Aligned arrays whose ids are already text survive a zip and unzip unchanged. */
  lemma UnzipZipOfText(s: SampleSet)
    requires Aligned(s)
    requires forall k :: 0 <= k < |s.otuIds| ==> s.otuIds[k].Str?
    ensures Unzip(s.id, Zip(s)) == s
  {
    ZipThenUnzip(s);
    var r := Unzip(s.id, Zip(s));
    assert forall k :: 0 <= k < |s.otuIds| ==> r.otuIds[k] == s.otuIds[k];
    assert r.otuIds == s.otuIds;
  }

  /** Ranking a ranked sample set changes nothing. */
  lemma RankedIdempotent(s: SampleSet)
    requires ZipDefined(s)
    ensures RankedSet(RankedSet(s)) == RankedSet(s)
  {
    var r := RankedSet(s);
    RankedZip(s);
    RankedShape(s);
    SortDescSorted(StringifyAll(Zip(s)));
    SortDescFixesSorted(Zip(r));
    assert RankedSet(r) == Unzip(r.id, Zip(r));
    UnzipZipOfText(r);
  }
}
