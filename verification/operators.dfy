/** The operators of utils.py, each applied to a whole list of lines:
    `filter_data`, `map_data`, `regex`, the two `sorted` calls, `limit_result`
    and `list(set(...))`. How `result_data` chains them lazily is modelled in
    the Pipeline module. */
module Operators {
  import opened Results
  import opened Sequences
  import opened Strings
  import opened Numbers
  import opened Sorting

  /** The regular-expression engine (Python's `re`), which this model does not
      interpret: whether a pattern compiles, and whether
      `re.search(pattern, line)` finds a match anywhere in the line. */
  datatype Engine = Engine(compiles: string -> bool, search: (string, string) -> bool)

  /** The line test of `filter_data`. */
  function HasValue(value: string): string -> bool {
    line => Contains(line, value)
  }

  /** `filter_data`: the lines containing `value`, unmodified and in order. */
  function FilterData(lines: seq<string>, value: string): (r: seq<string>)
    ensures IsSubseq(r, lines)
    ensures forall i | 0 <= i < |r| :: Contains(r[i], value)
    ensures forall line | Contains(line, value) :: multiset(r)[line] == multiset(lines)[line]
    ensures value == "" ==> r == lines
  {
    if value == "" then
      KeepEverything(lines, HasValue(value));
      Keep(lines, HasValue(value))
    else
      Keep(lines, HasValue(value))
  }

  /** The element `line.split(' ')[k]` of `map_data`, with Python's indexing:
      a negative `k` counts from the end. */
  function Column(line: string, k: int): (r: Result<string>)
    ensures r.Ok? <==> -|Split(line)| <= k < |Split(line)|
    ensures r.Err? ==> r.error == IndexError
    ensures r.Ok? ==> ' ' !in r.value
  {
    var fields := Split(line);
    var index := if k < 0 then k + |fields| else k;
    if 0 <= index < |fields| then Ok(fields[index]) else Err(IndexError)
  }

  /** Column `k` of a line made of space-free fields is field `k`, counted
      from the front for `k >= 0` and from the back for `k < 0`. */
  lemma ColumnOfFields(fields: seq<string>, k: int)
    requires |fields| > 0
    requires forall i | 0 <= i < |fields| :: ' ' !in fields[i]
    ensures Column(Join(fields), k).Ok? <==> -|fields| <= k < |fields|
    ensures 0 <= k < |fields| ==> Column(Join(fields), k) == Ok(fields[k])
    ensures -|fields| <= k < 0 ==> Column(Join(fields), k) == Ok(fields[|fields| + k])
  {
    SplitJoin(fields);
  }

  /** `map_data` with the column index already converted by `int()`. */
  function Columns(lines: seq<string>, k: int): (r: Result<seq<string>>)
    ensures r.Ok? <==> forall i | 0 <= i < |lines| :: Column(lines[i], k).Ok?
    ensures r.Err? ==> r.error == IndexError
    ensures r.Ok? ==> |r.value| == |lines|
    ensures r.Ok? ==> forall i | 0 <= i < |lines| :: r.value[i] == Column(lines[i], k).value
  {
    if |lines| == 0 then Ok([])
    else
      var first :- Column(lines[0], k);
      var rest :- Columns(lines[1..], k);
      Ok([first] + rest)
  }

  /** `map_data`: `int(value)` fails before any line is looked at, even for
      no lines; otherwise every line is replaced by its column, and one line
      that is too short fails the whole list. */
  function MapData(lines: seq<string>, value: string): (r: Result<seq<string>>)
    ensures !IsIntLiteral(value) ==> r == Err(ArgumentError)
    ensures IsIntLiteral(value) ==>
      var k := ParseInt(value).value;
      && (r.Ok? <==> forall i | 0 <= i < |lines| :: -|Split(lines[i])| <= k < |Split(lines[i])|)
      && (r.Err? ==> r.error == IndexError)
      && (r.Ok? ==> |r.value| == |lines|)
      && (r.Ok? ==> forall i | 0 <= i < |lines| :: r.value[i] == Column(lines[i], k).value)
  {
    var k :- ParseInt(value);
    Columns(lines, k)
  }

  /** `re.search(pattern, line)`; a pattern that does not compile raises. */
  function Search(engine: Engine, pattern: string, line: string): (r: Result<bool>)
    ensures r.Ok? <==> engine.compiles(pattern)
    ensures r.Err? ==> r.error == PatternError
    ensures r.Ok? ==> (r.value <==> engine.search(pattern, line))
  {
    if engine.compiles(pattern) then Ok(engine.search(pattern, line)) else Err(PatternError)
  }

  function Matches(engine: Engine, pattern: string): string -> bool {
    line => engine.search(pattern, line)
  }

  /** `regex`: the lines in which the pattern is found, unmodified and in
      order. The pattern is compiled on the first search, so a bad pattern
      raises only when there is a line to search. */
  function Regex(lines: seq<string>, engine: Engine, pattern: string): (r: Result<seq<string>>)
    ensures r.Err? <==> |lines| > 0 && !engine.compiles(pattern)
    ensures r.Err? ==> r.error == PatternError
    ensures r.Ok? ==> IsSubseq(r.value, lines)
    ensures r.Ok? ==> forall i | 0 <= i < |r.value| :: engine.search(pattern, r.value[i])
    ensures r.Ok? ==> forall line | engine.search(pattern, line) ::
      multiset(r.value)[line] == multiset(lines)[line]
  {
    if |lines| == 0 then Ok([])
    else if !engine.compiles(pattern) then Err(PatternError)
    else
      var kept := Keep(lines, Matches(engine, pattern));
      assert forall line | engine.search(pattern, line) :: Matches(engine, pattern)(line);
      Ok(kept)
  }

  /** `sorted(lines, reverse=True)` when the argument is exactly `desc`,
      `sorted(lines)` for every other argument. */
  function SortData(lines: seq<string>, order: string): (r: seq<string>)
    ensures multiset(r) == multiset(lines)
    ensures |r| == |lines|
    ensures Sorted(r, order == "desc")
  {
    var r := Sort(lines, order == "desc");
    assert |r| == |multiset(r)| == |multiset(lines)|;
    r
  }

  /** The `desc` result is the ascending result reversed, whatever other
      argument asked for ascending order. */
  lemma SortDescendingReversesAscending(lines: seq<string>, other: string)
    requires other != "desc"
    ensures SortData(lines, "desc") == Reverse(SortData(lines, other))
  {
    DescendingIsReversedAscending(lines);
  }

  /** `limit_result`: `int(value)`, then Python's `list(lines)[:n]`. */
  function LimitResult(lines: seq<string>, value: string): (r: Result<seq<string>>)
    ensures !IsIntLiteral(value) ==> r == Err(ArgumentError)
    ensures IsIntLiteral(value) ==> r.Ok?
    ensures r.Ok? ==> r.value <= lines
    ensures r.Ok? ==>
      var n := ParseInt(value).value;
      && (n >= 0 ==> |r.value| == if n < |lines| then n else |lines|)
      && (n < 0 ==> |r.value| == if |lines| + n > 0 then |lines| + n else 0)
  {
    var n :- ParseInt(value);
    Ok(SlicePrefix(lines, n))
  }

  /** `list(set(lines))`: every distinct line once. Python does not fix the
      order of a set, so neither does this contract. */
  function UniqueData(lines: seq<string>): (r: seq<string>)
    ensures Distinct(r)
    ensures Elements(r) == Elements(lines)
    ensures |r| == |Elements(lines)| <= |lines|
  {
    var r := Dedup(lines);
    DistinctLength(r);
    r
  }

  /** Every list that Python's set iteration could produce, in whatever order,
      has the same elements with the same multiplicities as `UniqueData`. */
  lemma UniqueIsDeterminedUpToOrder(lines: seq<string>, other: seq<string>)
    requires Distinct(other) && Elements(other) == Elements(lines)
    ensures multiset(other) == multiset(UniqueData(lines))
  {
    SameElementsArePermutations(other, UniqueData(lines));
  }
}
