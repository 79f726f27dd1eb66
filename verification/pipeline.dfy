/** `result_data`: the command map, the lazily chained operators and the
    points at which the chain is forced into a list. */
module Pipeline {
  import opened Results
  import opened Sequences
  import opened Strings
  import opened Numbers
  import opened Sorting
  import opened Operators

  /** The recognised keys of the command map, one field each; `column` holds
      the argument of the `map` key. `None` means the key is absent. The
      argument of `unique` is never read. */
  datatype Command = Command(
    filter: Option<string>,
    column: Option<string>,
    regex: Option<string>,
    sort: Option<string>,
    limit: Option<string>,
    unique: Option<string>)

  const NoCommand := Command(None, None, None, None, None, None)

  const RecognisedKeys: set<string> := {"filter", "map", "regex", "sort", "limit", "unique"}

  function Lookup(commands: map<string, string>, key: string): Option<string> {
    if key in commands then Some(commands[key]) else None
  }

  /** The keys `result_data` tests for; any other key is never looked at. */
  function CommandOf(commands: map<string, string>): Command {
    Command(
      Lookup(commands, "filter"),
      Lookup(commands, "map"),
      Lookup(commands, "regex"),
      Lookup(commands, "sort"),
      Lookup(commands, "limit"),
      Lookup(commands, "unique"))
  }

  function Put(commands: map<string, string>, key: string, arg: Option<string>): map<string, string> {
    if arg.Some? then commands[key := arg.value] else commands
  }

  /** The command map holding exactly the present fields of `cmd`. */
  function MapOf(cmd: Command): map<string, string> {
    var m := Put(map[], "filter", cmd.filter);
    var m := Put(m, "map", cmd.column);
    var m := Put(m, "regex", cmd.regex);
    var m := Put(m, "sort", cmd.sort);
    var m := Put(m, "limit", cmd.limit);
    Put(m, "unique", cmd.unique)
  }

  /** A command survives the trip through a command map. */
  lemma CommandOfMapOf(cmd: Command)
    ensures CommandOf(MapOf(cmd)) == cmd
  {
  }

  /** A command map keeps only its recognised entries on the trip through a
      command. */
  lemma MapOfCommandOf(commands: map<string, string>)
    ensures MapOf(CommandOf(commands)) == map key | key in commands && key in RecognisedKeys :: commands[key]
  {
  }

  /** Adding an unrecognised key does not change the command. */
  lemma UnrecognisedKeyIsIgnored(commands: map<string, string>, key: string, arg: string)
    requires key !in RecognisedKeys
    ensures CommandOf(commands[key := arg]) == CommandOf(commands)
  {
  }

  /** The lazy stages between `load_data` and the first list: the `filter`
      substring, the `map` column already converted by `int()`, and the
      `regex` pattern. */
  datatype Stages = Stages(filter: Option<string>, column: Option<int>, regex: Option<string>)

  /** The variable `result` of `result_data`: a lazy iterator over the source
      lines that has not been read yet, or a list. */
  datatype Stream = Pending(lines: seq<string>, stages: Stages) | Forced(items: seq<string>)

  /** The line test of the `filter` stage; with no `filter` key every line passes. */
  function PassesFilter(line: string, filter: Option<string>): bool {
    filter.None? || Contains(line, filter.value)
  }

  /** A line that passed the filter, pulled through the `map` and `regex`
      stages: dropped (`None`), passed on, or the exception a stage raises. */
  function Pass(line: string, stages: Stages, engine: Engine): (r: Result<Option<string>>)
    ensures r.Err? ==>
      || (stages.column.Some? && Column(line, stages.column.value).Err? && r.error == IndexError)
      || (stages.regex.Some? && !engine.compiles(stages.regex.value) && r.error == PatternError)
    ensures stages.column.None? && stages.regex.None? ==> r == Ok(Some(line))
    ensures r.Ok? && r.value.Some? && stages.regex.Some? ==> engine.search(stages.regex.value, r.value.value)
    ensures r.Ok? && r.value.Some? ==> stages.column.None? || ' ' !in r.value.value
  {
    var item :- if stages.column.Some? then Column(line, stages.column.value) else Ok(line);
    if stages.regex.None? then Ok(Some(item))
    else
      var hit :- Search(engine, stages.regex.value, item);
      Ok(if hit then Some(item) else None)
  }

  /** One source line pulled through all the lazy stages. */
  function Pull(line: string, stages: Stages, engine: Engine): (r: Result<Option<string>>)
    ensures !PassesFilter(line, stages.filter) ==> r == Ok(None)
    ensures r.Err? ==> r.error == IndexError || r.error == PatternError
    ensures stages == Stages(None, None, None) ==> r == Ok(Some(line))
  {
    if PassesFilter(line, stages.filter) then Pass(line, stages, engine) else Ok(None)
  }

  /** The outcome of the first pull followed by the outcome of the rest. */
  function Prepend(first: Result<Option<string>>, rest: Result<seq<string>>): (r: Result<seq<string>>)
    ensures r.Ok? <==> first.Ok? && rest.Ok?
    ensures r.Err? ==> r.error == (if first.Err? then first.error else rest.error)
    ensures r.Ok? ==> |r.value| == |rest.value| + (if first.value.Some? then 1 else 0)
  {
    var item :- first;
    var items :- rest;
    Ok((if item.Some? then [item.value] else []) + items)
  }

  /** `list(iterator)`: lines are pulled in order, and the first exception
      ends the iteration. */
  function Drain(lines: seq<string>, stages: Stages, engine: Engine): (r: Result<seq<string>>)
    ensures r.Ok? ==> |r.value| <= |lines|
    ensures r.Err? ==> r.error == IndexError || r.error == PatternError
    ensures stages == Stages(None, None, None) ==> r == Ok(lines)
  {
    if |lines| == 0 then Ok([])
    else
      assert lines == [lines[0]] + lines[1..];
      Prepend(Pull(lines[0], stages, engine), Drain(lines[1..], stages, engine))
  }

  /** `list(result)`: a lazy stream is read to the end, a list is returned as it is. */
  function Force(stream: Stream, engine: Engine): (r: Result<seq<string>>)
    ensures stream.Forced? ==> r == Ok(stream.items)
    ensures stream.Pending? && r.Ok? ==> |r.value| <= |stream.lines|
    ensures r.Err? ==> r.error == IndexError || r.error == PatternError
  {
    match stream
    case Pending(lines, stages) => Drain(lines, stages, engine)
    case Forced(items) => Ok(items)
  }

  /** `map_data` converts its index when it is called, before any line is read. */
  function ParseColumn(arg: Option<string>): (r: Result<Option<int>>)
    ensures r.Ok? <==> arg.None? || IsIntLiteral(arg.value)
    ensures r.Err? ==> r.error == ArgumentError
    ensures r.Ok? ==> (r.value.Some? <==> arg.Some?)
    ensures r.Ok? && arg.Some? ==> ParseInt(arg.value) == Ok(r.value.value)
  {
    if arg.None? then Ok(None)
    else
      var k :- ParseInt(arg.value);
      Ok(Some(k))
  }

  /** The `sort` step: forces the stream and sorts the list. */
  function SortStream(stream: Stream, order: string, engine: Engine): (r: Result<Stream>)
    ensures r.Ok? <==> Force(stream, engine).Ok?
    ensures r.Err? ==> r.error == Force(stream, engine).error
    ensures r.Ok? ==> r.value.Forced?
    ensures r.Ok? ==> multiset(r.value.items) == multiset(Force(stream, engine).value)
    ensures r.Ok? ==> |r.value.items| == |Force(stream, engine).value|
    ensures r.Ok? ==> Sorted(r.value.items, order == "desc")
  {
    var items :- Force(stream, engine);
    Ok(Forced(SortData(items, order)))
  }

  /** `result_data` followed by the `list(...)` of its caller, over the lines
      `load_data` produced. The filter, map and regex stages are lazy; only
      `map` does work (converting its index) when the chain is built. */
  function ResultData(lines: seq<string>, cmd: Command, engine: Engine): (r: Result<seq<string>>)
    ensures cmd.column.Some? && !IsIntLiteral(cmd.column.value) ==> r == Err(ArgumentError)
    ensures var columnOk := cmd.column.None? || IsIntLiteral(cmd.column.value);
      columnOk && cmd.sort.None? && cmd.limit.Some? && !IsIntLiteral(cmd.limit.value) ==> r == Err(ArgumentError)
    ensures r.Ok? ==> |r.value| <= |lines|
  {
    var column :- ParseColumn(cmd.column);
    Finish(Pending(lines, Stages(cmd.filter, column, cmd.regex)), cmd, engine)
  }

  /** The steps that materialise the stream: `sort` forces it; `limit`
      converts its argument before forcing it; `unique`, or else the caller's
      `list(...)`, forces it last. */
  function Finish(pending: Stream, cmd: Command, engine: Engine): (r: Result<seq<string>>)
    ensures cmd.sort.None? && cmd.limit.Some? && !IsIntLiteral(cmd.limit.value) ==> r == Err(ArgumentError)
    ensures Force(pending, engine).Err? ==> r.Err?
    ensures r.Ok? ==> Force(pending, engine).Ok? && |r.value| <= |Force(pending, engine).value|
    ensures r.Ok? && cmd.limit.None? && cmd.unique.Some? ==> Distinct(r.value)
  {
    var result :- if cmd.sort.Some? then SortStream(pending, cmd.sort.value, engine) else Ok(pending);
    if cmd.limit.Some? then
      var n :- ParseInt(cmd.limit.value);
      var items :- Force(result, engine);
      Ok(SlicePrefix(items, n))
    else
      var items :- Force(result, engine);
      Ok(if cmd.unique.Some? then UniqueData(items) else items)
  }

  /** The query as the endpoint receives it: a map from command names to
      arguments. */
  function Query(lines: seq<string>, commands: map<string, string>, engine: Engine): (r: Result<seq<string>>)
    ensures "map" in commands && !IsIntLiteral(commands["map"]) ==> r == Err(ArgumentError)
    ensures r.Ok? ==> |r.value| <= |lines|
  {
    ResultData(lines, CommandOf(commands), engine)
  }

  /** The reference chain, first half: `filter`, `map` and `regex`, each
      applied to the whole list produced by the previous one. */
  function Upstream(lines: seq<string>, cmd: Command, engine: Engine): Result<seq<string>> {
    var filtered := if cmd.filter.Some? then FilterData(lines, cmd.filter.value) else lines;
    var mapped :- if cmd.column.Some? then MapData(filtered, cmd.column.value) else Ok(filtered);
    if cmd.regex.Some? then Regex(mapped, engine, cmd.regex.value) else Ok(mapped)
  }

  /** The reference chain, second half: `sort`, then `limit` or else `unique`. */
  function Downstream(items: seq<string>, cmd: Command): Result<seq<string>> {
    var sorted := if cmd.sort.Some? then SortData(items, cmd.sort.value) else items;
    if cmd.limit.Some? then LimitResult(sorted, cmd.limit.value)
    else Ok(if cmd.unique.Some? then UniqueData(sorted) else sorted)
  }

  /** The reference chain: each present operator applied to the whole list
      produced by the previous one, in the order filter, map, regex, sort,
      then limit or else unique. */
  function Composed(lines: seq<string>, cmd: Command, engine: Engine): Result<seq<string>> {
    var items :- Upstream(lines, cmd, engine);
    Downstream(items, cmd)
  }

  /** Both succeed with the same list, or both raise (possibly different
      exceptions). */
  predicate SameOutcome(a: Result<seq<string>>, b: Result<seq<string>>) {
    (a.Ok? <==> b.Ok?) && (a.Ok? ==> a.value == b.value)
  }

  /** The `map` and `regex` stages applied to a whole list, one after the other. */
  function MapThenMatch(items: seq<string>, stages: Stages, engine: Engine): Result<seq<string>> {
    var mapped :- if stages.column.Some? then Columns(items, stages.column.value) else Ok(items);
    if stages.regex.Some? then Regex(mapped, engine, stages.regex.value) else Ok(mapped)
  }

  function FilterStage(lines: seq<string>, filter: Option<string>): seq<string> {
    if filter.Some? then FilterData(lines, filter.value) else lines
  }

  lemma FilterStageCons(lines: seq<string>, filter: Option<string>)
    requires |lines| > 0
    ensures FilterStage(lines, filter)
      == (if PassesFilter(lines[0], filter) then [lines[0]] else []) + FilterStage(lines[1..], filter)
  {
  }

  /** On a list that starts with `line`, the whole-list `map` and `regex`
      stages have the outcome of pulling `line` and then the rest. */
  lemma MapThenMatchCons(line: string, rest: seq<string>, stages: Stages, engine: Engine)
    ensures SameOutcome(MapThenMatch([line] + rest, stages, engine),
                        Prepend(Pass(line, stages, engine), MapThenMatch(rest, stages, engine)))
  {
    var items := [line] + rest;
    assert items[0] == line && items[1..] == rest;
    var mapped := if stages.column.Some? then Columns(items, stages.column.value) else Ok(items);
    var mappedRest := if stages.column.Some? then Columns(rest, stages.column.value) else Ok(rest);
    var item := if stages.column.Some? then Column(line, stages.column.value) else Ok(line);
    assert mapped.Ok? <==> item.Ok? && mappedRest.Ok?;
    if mapped.Ok? {
      assert mapped.value == [item.value] + mappedRest.value;
      if stages.regex.Some? {
        var kept := Regex(mapped.value, engine, stages.regex.value);
        assert kept.Ok? <==> engine.compiles(stages.regex.value);
        if kept.Ok? {
          var m := mapped.value;
          assert m[0] == item.value && m[1..] == mappedRest.value;
        }
      }
    }
  }

  lemma PrependKeepsOutcome(first: Result<Option<string>>, a: Result<seq<string>>, b: Result<seq<string>>)
    requires SameOutcome(a, b)
    ensures SameOutcome(Prepend(first, a), Prepend(first, b))
  {
  }

  /** Pulling lines one at a time through the stages has the outcome of
      applying each stage to the whole list in turn. */
  lemma {:induction false} DrainIsStagewise(lines: seq<string>, stages: Stages, engine: Engine)
    ensures SameOutcome(Drain(lines, stages, engine),
                        MapThenMatch(FilterStage(lines, stages.filter), stages, engine))
  {
    if |lines| > 0 {
      var head, tail := lines[0], lines[1..];
      var strictTail := MapThenMatch(FilterStage(tail, stages.filter), stages, engine);
      DrainIsStagewise(tail, stages, engine);
      FilterStageCons(lines, stages.filter);
      PrependKeepsOutcome(Pull(head, stages, engine), Drain(tail, stages, engine), strictTail);
      if PassesFilter(head, stages.filter) {
        MapThenMatchCons(head, FilterStage(tail, stages.filter), stages, engine);
      } else {
        assert FilterStage(lines, stages.filter) == FilterStage(tail, stages.filter);
      }
    }
  }

  /** Once `map` has converted its index, the lazy stages have the outcome of
      the first half of the reference chain. */
  lemma UpstreamIsDrain(lines: seq<string>, cmd: Command, engine: Engine)
    requires ParseColumn(cmd.column).Ok?
    ensures SameOutcome(Drain(lines, Stages(cmd.filter, ParseColumn(cmd.column).value, cmd.regex), engine),
                        Upstream(lines, cmd, engine))
  {
    var stages := Stages(cmd.filter, ParseColumn(cmd.column).value, cmd.regex);
    DrainIsStagewise(lines, stages, engine);
    assert MapThenMatch(FilterStage(lines, stages.filter), stages, engine) == Upstream(lines, cmd, engine);
  }

  /** The materialising steps have the outcome of the second half of the
      reference chain applied to the forced stream. */
  lemma FinishIsDownstream(pending: Stream, cmd: Command, engine: Engine, reference: Result<seq<string>>)
    requires SameOutcome(Force(pending, engine), reference)
    ensures SameOutcome(Finish(pending, cmd, engine), if reference.Ok? then Downstream(reference.value, cmd) else reference)
  {
  }

  /** `result_data` has the outcome of the reference chain: the operators
      apply in the fixed order whatever the command, and only the kind of
      exception can depend on the lazy evaluation. */
  lemma ResultDataIsComposition(lines: seq<string>, cmd: Command, engine: Engine)
    ensures SameOutcome(ResultData(lines, cmd, engine), Composed(lines, cmd, engine))
  {
    var column := ParseColumn(cmd.column);
    if column.Ok? {
      var pending := Pending(lines, Stages(cmd.filter, column.value, cmd.regex));
      UpstreamIsDrain(lines, cmd, engine);
      FinishIsDownstream(pending, cmd, engine, Upstream(lines, cmd, engine));
    } else {
      assert Upstream(lines, cmd, engine).Err?;
    }
  }

  /** With no recognised key the source lines come back unchanged and in order. */
  lemma NoCommandGivesSourceLines(lines: seq<string>, engine: Engine)
    ensures ResultData(lines, NoCommand, engine) == Ok(lines)
  {
    ResultDataIsComposition(lines, NoCommand, engine);
  }

  /** An empty command map, or one holding only unrecognised keys, returns
      the source lines. */
  lemma UnrecognisedKeysGiveSourceLines(lines: seq<string>, commands: map<string, string>, engine: Engine)
    requires forall key | key in commands :: key !in RecognisedKeys
    ensures Query(lines, commands, engine) == Ok(lines)
  {
    assert CommandOf(commands) == NoCommand;
    NoCommandGivesSourceLines(lines, engine);
  }

  /** Adding an unrecognised key does not change the answer to a query. */
  lemma QueryIgnoresUnrecognisedKey(lines: seq<string>, commands: map<string, string>, key: string, arg: string, engine: Engine)
    requires key !in RecognisedKeys
    ensures Query(lines, commands[key := arg], engine) == Query(lines, commands, engine)
  {
    UnrecognisedKeyIsIgnored(commands, key, arg);
  }

  /** When `limit` is present, `unique` is never applied. */
  lemma LimitOverridesUnique(lines: seq<string>, cmd: Command, engine: Engine)
    requires cmd.limit.Some?
    ensures ResultData(lines, cmd, engine) == ResultData(lines, cmd.(unique := None), engine)
  {
  }

  /** `filter` and `regex` together keep exactly the lines that contain the
      value and match the pattern. Because the substring filter runs first,
      a pattern that does not compile raises only if some line contains the
      value. */
  lemma FilterThenRegex(lines: seq<string>, value: string, pattern: string, engine: Engine)
    ensures var r := ResultData(lines, NoCommand.(filter := Some(value), regex := Some(pattern)), engine);
      && (r.Ok? <==> engine.compiles(pattern) || |FilterData(lines, value)| == 0)
      && (r.Ok? ==> r.value == Keep(lines, Both(HasValue(value), Matches(engine, pattern))))
  {
    var cmd := NoCommand.(filter := Some(value), regex := Some(pattern));
    ResultDataIsComposition(lines, cmd, engine);
    KeepKeep(lines, HasValue(value), Matches(engine, pattern));
    assert FilterData(lines, value) == Keep(lines, HasValue(value));
  }

  /** With `unique` and no `limit`, a successful result holds each distinct
      line of the reference chain's list exactly once. */
  lemma UniqueResultIsDuplicateFree(lines: seq<string>, cmd: Command, engine: Engine)
    requires cmd.unique.Some? && cmd.limit.None?
    requires ResultData(lines, cmd, engine).Ok?
    ensures Upstream(lines, cmd, engine).Ok?
    ensures Distinct(ResultData(lines, cmd, engine).value)
    ensures Elements(ResultData(lines, cmd, engine).value) == Elements(Upstream(lines, cmd, engine).value)
  {
    ResultDataIsComposition(lines, cmd, engine);
    var items := Upstream(lines, cmd, engine).value;
    if cmd.sort.Some? {
      var sorted := SortData(items, cmd.sort.value);
      forall x
        ensures x in sorted <==> x in items
      {
        assert x in multiset(sorted) <==> x in multiset(items);
      }
    }
  }

  /** With `limit`, a successful result is a prefix of the reference chain's
      list after the optional sort. */
  lemma LimitResultIsPrefix(lines: seq<string>, cmd: Command, engine: Engine)
    requires cmd.limit.Some?
    requires ResultData(lines, cmd, engine).Ok?
    ensures Upstream(lines, cmd, engine).Ok?
    ensures var items := Upstream(lines, cmd, engine).value;
      ResultData(lines, cmd, engine).value <= if cmd.sort.Some? then SortData(items, cmd.sort.value) else items
  {
    ResultDataIsComposition(lines, cmd, engine);
  }
}
