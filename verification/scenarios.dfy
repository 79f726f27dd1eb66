/** Concrete queries showing the documented behaviour on small files. */
module Scenarios {
  import opened Results
  import opened Sequences
  import opened Strings
  import opened Numbers
  import opened Operators
  import opened Pipeline

  const Lines: seq<string> := ["a 1\n", "b 2\n", "a 3\n"]

  /** An engine under which every pattern compiles and matches every line. */
  const Permissive := Engine(pattern => true, (pattern, line) => true)

  /** An engine under which no pattern compiles. */
  const Broken := Engine(pattern => false, (pattern, line) => false)

  lemma TwoFields(first: string, second: string)
    requires ' ' !in first && ' ' !in second
    ensures Split(first + " " + second) == [first, second]
  {
    SplitJoin([first, second]);
  }

  lemma ParseExamples()
    ensures ParseInt("0") == Ok(0)
    ensures ParseInt("1") == Ok(1)
    ensures ParseInt("-1") == Ok(-1)
  {
    ParseIntToString(0);
    ParseIntToString(1);
    ParseIntToString(-1);
    assert IntToString(0) == "0";
    assert IntToString(1) == "1";
    assert IntToString(-1) == "-1";
  }

  lemma ColumnsOfLines()
    ensures Columns(Lines, 0) == Ok(["a", "b", "a"])
  {
    assert "a 1\n" == "a" + " " + "1\n";
    assert "b 2\n" == "b" + " " + "2\n";
    assert "a 3\n" == "a" + " " + "3\n";
    TwoFields("a", "1\n");
    TwoFields("b", "2\n");
    TwoFields("a", "3\n");
    var r := Columns(Lines, 0);
    assert r.Ok?;
    assert r.value == ["a", "b", "a"];
  }

  /** `map=0` keeps the first field of each line. */
  lemma FirstColumn()
    ensures ResultData(Lines, NoCommand.(column := Some("0")), Permissive) == Ok(["a", "b", "a"])
  {
    ParseExamples();
    ColumnsOfLines();
    ResultDataIsComposition(Lines, NoCommand.(column := Some("0")), Permissive);
  }

  /** The list the `map=0` stage produces from `Lines`, whatever follows it. */
  lemma FirstColumnUpstream(cmd: Command)
    requires cmd.filter.None? && cmd.column == Some("0") && cmd.regex.None?
    ensures Upstream(Lines, cmd, Permissive) == Ok(["a", "b", "a"])
  {
    ParseExamples();
    ColumnsOfLines();
  }

  lemma SortedFirstColumn()
    ensures SortData(["a", "b", "a"], "asc") == ["a", "a", "b"]
  {
    var items := ["a", "b", "a"];
    assert multiset(items) == multiset(["a", "a", "b"]);
    assert LessEq("a", "a") && LessEq("a", "b");
    assert Sorting.Sorted(["a", "a", "b"], false);
    Sorting.SortedPermutationIsUnique(SortData(items, "asc"), ["a", "a", "b"], false);
  }

  /** `map=0` then `sort=asc`. */
  lemma FirstColumnSorted()
    ensures ResultData(Lines, NoCommand.(column := Some("0"), sort := Some("asc")), Permissive) == Ok(["a", "a", "b"])
  {
    var cmd := NoCommand.(column := Some("0"), sort := Some("asc"));
    FirstColumnUpstream(cmd);
    ResultDataIsComposition(Lines, cmd, Permissive);
    var items := Upstream(Lines, cmd, Permissive).value;
    SortedFirstColumn();
    assert Composed(Lines, cmd, Permissive) == Ok(SortData(items, "asc"));
  }

  /** `map=0` then `unique`: the two distinct fields, in some order. */
  lemma FirstColumnUnique()
    ensures var r := ResultData(Lines, NoCommand.(column := Some("0"), unique := Some("")), Permissive);
      r.Ok? && |r.value| == 2 && Elements(r.value) == {"a", "b"}
  {
    var cmd := NoCommand.(column := Some("0"), unique := Some(""));
    FirstColumnUpstream(cmd);
    ResultDataIsComposition(Lines, cmd, Permissive);
    UniqueFirstColumn();
    assert Composed(Lines, cmd, Permissive) == Ok(UniqueData(["a", "b", "a"]));
  }

  lemma UniqueFirstColumn()
    ensures var r := UniqueData(["a", "b", "a"]); |r| == 2 && Elements(r) == {"a", "b"}
  {
    var items := ["a", "b", "a"];
    assert Elements(items) == {"a", "b"};
  }

  /** `limit=-1` on five lines keeps the first four. */
  lemma NegativeLimit()
    ensures ResultData(["1", "2", "3", "4", "5"], NoCommand.(limit := Some("-1")), Permissive)
      == Ok(["1", "2", "3", "4"])
  {
    var cmd := NoCommand.(limit := Some("-1"));
    var lines := ["1", "2", "3", "4", "5"];
    ParseExamples();
    ResultDataIsComposition(lines, cmd, Permissive);
    assert Composed(lines, cmd, Permissive) == Ok(SlicePrefix(lines, -1));
    assert lines[..4] == ["1", "2", "3", "4"];
  }

  lemma WhereOneOccurs()
    ensures Contains("a 1\n", "1")
    ensures !Contains("b 2\n", "1") && !Contains("a 3\n", "1")
    ensures !Contains("a", "1") && !Contains("b", "1")
  {
    ContainsCharacter("a 1\n", '1');
    ContainsCharacter("b 2\n", '1');
    ContainsCharacter("a 3\n", '1');
    ContainsCharacter("a", '1');
    ContainsCharacter("b", '1');
  }

  lemma FilterOnOne()
    ensures FilterData(Lines, "1") == ["a 1\n"]
    ensures FilterData(["a", "b", "a"], "1") == []
  {
    WhereOneOccurs();
  }

  lemma FilterThenFirstColumn(cmd: Command)
    requires cmd.filter == Some("1") && cmd.column == Some("0") && cmd.regex.None?
    ensures Upstream(Lines, cmd, Permissive) == Ok(["a"])
  {
    FilterOnOne();
    ParseExamples();
    FirstColumnOfFirstLine();
  }

  lemma FirstColumnOfFirstLine()
    ensures MapData(["a 1\n"], "0") == Ok(["a"])
  {
    ParseExamples();
    assert "a 1\n" == "a" + " " + "1\n";
    TwoFields("a", "1\n");
    assert Column("a 1\n", 0) == Ok("a");
    var r := Columns(["a 1\n"], 0);
    assert r.Ok? && |r.value| == 1 && r.value[0] == "a";
    assert r.value == ["a"];
  }

  /** The substring filter sees the raw lines, before the column is cut out:
      `filter=1` with `map=0` keeps `a`, although no column value contains
      `1` (see `FilterOnOne`). */
  lemma FilterBeforeMap()
    ensures ResultData(Lines, NoCommand.(filter := Some("1"), column := Some("0")), Permissive) == Ok(["a"])
  {
    var cmd := NoCommand.(filter := Some("1"), column := Some("0"));
    FilterThenFirstColumn(cmd);
    ResultDataIsComposition(Lines, cmd, Permissive);
  }

  lemma WhereZAndBOccur()
    ensures !Contains("a 1\n", "z") && !Contains("b 2\n", "z") && !Contains("a 3\n", "z")
    ensures Contains("b 2\n", "b")
  {
    ContainsCharacter("a 1\n", 'z');
    ContainsCharacter("b 2\n", 'z');
    ContainsCharacter("a 3\n", 'z');
    ContainsCharacter("b 2\n", 'b');
  }

  /** Because the filter runs first, a pattern that does not compile raises
      nothing when no line contains the filter value... */
  lemma BrokenPatternAfterEmptyFilter()
    ensures ResultData(Lines, NoCommand.(filter := Some("z"), regex := Some("(")), Broken) == Ok([])
  {
    WhereZAndBOccur();
    assert FilterData(Lines, "z") == [];
    FilterThenRegex(Lines, "z", "(", Broken);
  }

  /** ... and raises when some line contains it. */
  lemma BrokenPatternAfterFilter()
    ensures ResultData(Lines, NoCommand.(filter := Some("b"), regex := Some("(")), Broken).Err?
  {
    WhereZAndBOccur();
    assert "b 2\n" in FilterData(Lines, "b");
    FilterThenRegex(Lines, "b", "(", Broken);
  }

  /** Lines are pulled one at a time through `map` and `regex`, so with a
      pattern that does not compile the first line raises the pattern error
      before the short second line can raise its index error; applying each
      operator to the whole list would raise the index error instead. */
  lemma ErrorKindFollowsLineOrder()
    ensures ResultData(["p q", "r"], NoCommand.(column := Some("1"), regex := Some("(")), Broken) == Err(PatternError)
    ensures Composed(["p q", "r"], NoCommand.(column := Some("1"), regex := Some("(")), Broken) == Err(IndexError)
  {
    var lines := ["p q", "r"];
    ParseExamples();
    assert "p q" == "p" + " " + "q";
    TwoFields("p", "q");
    SplitJoin(["r"]);
    assert Column("p q", 1) == Ok("q");
    assert Column("r", 1) == Err(IndexError);
    assert lines[1..] == ["r"];
  }
}
