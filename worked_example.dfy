/** A worked example: one subject, three observations. */
module WorkedExample {
  import opened Numbers
  import opened Dataset
  import opened Ranking
  import opened ChartAdapters

  /** Ids 10, 20, 30 with counts 5, 50, 15 rank as 20, 30, 10, and the bar
      categories follow that order. */
  lemma RankThreeObservations()
    ensures var s := SampleSet("940", [Num(10), Num(20), Num(30)], [5, 50, 15], ["a", "b", "c"]);
      var r := RankedSet(s);
      r == SampleSet("940", [Str("20"), Str("30"), Str("10")], [50, 15, 5], ["b", "c", "a"]) &&
      BarInput(r).y == ["OTU 20", "OTU 30", "OTU 10"]
  {
    var s := SampleSet("940", [Num(10), Num(20), Num(30)], [5, 50, 15], ["a", "b", "c"]);
    var o1, o2, o3 := Obs(Num(10), 5, "a"), Obs(Num(20), 50, "b"), Obs(Num(30), 15, "c");
    assert Zip(s) == [o1, o2, o3];
    assert [o1, o2, o3][..2] == [o1, o2];
    assert [o1, o2][..1] == [o1];
    assert SortDesc([o1]) == [o1];
    assert SortDesc([o1, o2]) == Insert([o1], o2) == [o2, o1];
    assert [o2, o1][..1] == [o2];
    assert Insert([o2, o1], o3) == Insert([o2], o3) + [o1] == [o2, o3, o1];
    assert NatToString(10) == "10" && NatToString(20) == "20" && NatToString(30) == "30";
    var r := RankedSet(s);
    assert r == SampleSet("940", [Str("20"), Str("30"), Str("10")], [50, 15, 5], ["b", "c", "a"]);
    assert "OTU " + "20" == "OTU 20" && "OTU " + "30" == "OTU 30" && "OTU " + "10" == "OTU 10";
  }
}
