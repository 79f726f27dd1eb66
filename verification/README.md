# Line-query pipeline: a Dafny model

This project models the query pipeline of a small Flask service (`utils.py`). A request names a
text file and gives a command map. The map's keys select operators: `filter`, `map`,
`regex`, `sort`, `limit` and `unique`. `result_data` chains the selected operators in a fixed order
over the file's lines: substring filter, column extraction, regex filter, sort, then `limit` or
else `unique`. The endpoint then turns the chain into a list.

The model is functional. Lines are `seq<string>`. Python exceptions become a `Result` with error
kinds `ArgumentError` (a bad `int()`), `IndexError` (a column that is not in the line) and
`PatternError` (a regular expression that does not compile). The command map becomes a `Command`
record with one optional field per recognised key. The regular-expression engine is a parameter
(`Operators.Engine`): one function says whether a pattern compiles, and another says whether
`re.search` finds it in a line.

Modules:

- `Results`: `Option`, `Result` and the error kinds.
- `Sequences`: selection in order (`Keep`, Python's `filter`), subsequences, de-duplication,
  Python's `xs[:n]` and reversal.
- `Strings`: `needle in haystack`, `s.split(' ')` and `' '.join`, and Python's code-point order
  on strings.
- `Numbers`: `int(text)` for signed decimal literals, and `str(n)` as its inverse.
- `Sorting`: `sorted(xs)` and `sorted(xs, reverse=True)`. Sorted permutations are unique, so
  only the result of Python's sort is modelled.
- `Operators`: `filter_data`, `map_data`, `regex`, the sort branch, `limit_result` and
  `list(set(...))`, each applied to a whole list.
- `Pipeline`: `result_data` with its laziness, plus a reference chain that applies each
  operator to a whole list, and the proof that the two agree.
- `Scenarios`: small concrete queries.

### Laziness and error paths

`filter_data`, `map_data` and `regex` return lazy iterators. The model follows the code on what
this means:

- `map_data` runs `int(value)` when it is called. A bad column argument is therefore an
  `ArgumentError` even when there are no lines.
- `regex` compiles its pattern at the first `re.search`. A pattern that does not compile raises
  only if some line reaches that stage. If the filter drops every line, or the file is empty, the
  result is an empty list, not an error.
- Lines are pulled one at a time through filter → map → regex (`Pipeline.Pull`, `Pipeline.Drain`).
  The first exception wins. Which exception that is can depend on line order: a broken pattern on
  line 1 raises before a too-short line 2 can raise. `sort` forces the stream.
  `limit_result` runs `int()` before it reads the stream, so with no `sort` a bad limit
  argument raises before any line is read.
- `Pipeline.ResultDataIsComposition` proves that this lazy evaluation succeeds exactly when the
  whole-list chain succeeds, with the same list. Only the kind of exception can differ.
- `map` accepts negative column indexes, which count from the end as Python indexing does.
- `load_data` catches a missing file with a `return` inside a generator. The tuple
  `'No such file in directory', 400` it returns (utils.py:18) only ends the generator and never
  reaches the caller, so a missing file behaves as an empty file. The model therefore has
  no not-found error. The source lines are an arbitrary `seq<string>`, and each line keeps its
  trailing newline.

## Model

| member | source | states |
|---|---|---|
| `Pipeline.ResultData` | utils.py:47-71 | `result_data` followed by the caller's `list(...)`. A `map` argument that is not an integer raises `ArgumentError` before any line is read. So does a `limit` argument that is not an integer when there is no `sort` and the column is valid. A successful result is never longer than the source. `ResultDataIsComposition` fixes when it succeeds and with which list, up to the kind of exception. `NoCommandGivesSourceLines`, `LimitOverridesUnique` and `FilterThenRegex` state particular commands. |
| `Pipeline.Finish` | utils.py:61-71 | The steps that read the stream. Without `sort`, a bad `limit` argument raises before the stream is read. An exception in the stream always surfaces. A success is never longer than the forced stream, and with `unique` and no `limit` it has no duplicates. `FinishIsDownstream` pins it to sort, then limit or else unique. |
| `Pipeline.SortStream` | utils.py:61-65 | Sorting forces the stream. It succeeds exactly when reading the stream succeeds, raises that same exception otherwise, and returns a list that is a permutation of the lines read, ordered descending exactly for `desc`. |
| `Pipeline.ParseColumn` | utils.py:55-56 | The `map` argument is converted by `int()` (utils.py:36) when the chain is built. It succeeds exactly when the argument is absent or an integer literal. Otherwise it gives `ArgumentError`. A present argument gives the value `int()` reads. |
| `Pipeline.Drain` | utils.py:51-59 | Reading the lazy chain to the end gives at most one item per source line. It raises only `IndexError` or `PatternError`. With no stages it returns the source lines. `DrainIsStagewise` relates it to the whole-list operators. |
| `Pipeline.Pull` | utils.py:51-59 | A line that fails the substring filter is dropped without reaching `map` or `regex`. A pull raises only `IndexError` or `PatternError`. With no stages the line is passed on unchanged. |
| `Pipeline.Pass` | utils.py:21-37 | A line that passed the filter is cut to its column and then searched. It raises `IndexError` only when the column is missing, and `PatternError` only when the pattern does not compile. A kept item matches the pattern, and a cut column has no space. |
| `Pipeline.Prepend` | utils.py:51-59 | One pulled line followed by the rest succeeds exactly when both do. The first exception is the one raised, and a kept line adds exactly one item. |
| `Pipeline.Force` | app.py:20 | `list(result)`, which `limit_result`, the sort branch and `unique` also apply. It returns a list unchanged. A lazy stream gives at most one item per source line and raises only `IndexError` or `PatternError`. |
| `Pipeline.Query` | app.py:18-20 | The query as a command map. A `map` entry that is not an integer raises `ArgumentError`, and a success is never longer than the source. `QueryIgnoresUnrecognisedKey` and `UnrecognisedKeysGiveSourceLines` show that only the six recognised keys matter. |
| `Strings.Contains` | utils.py:30 | Python's `value in l`: the empty value is in every line, and a value longer than the line is never in it. `ContainsIffOccurs` ties it to an occurrence at some position. |
| `Operators.Search` | utils.py:24 | `re.search` raises `PatternError` exactly when the pattern does not compile. Otherwise it reports whether the engine finds the pattern in the line. |
| `Strings.LessEq` | utils.py:63-65 | Python's `<=` on strings: a prefix comes first, and only the empty string is below the empty string. `LessEqReflexive`, `LessEqAntisymmetric`, `LessEqTransitive` and `LessEqTotal` make it the total order `sorted` uses. |
| `Scenarios.UniqueFirstColumn` | utils.py:70 | `list(set(["a", "b", "a"]))` has two elements, `a` and `b`. |
| `Operators.FilterData` | utils.py:27-30 | The result is a subsequence of the input lines. Every kept line contains the value. Every line containing the value is kept with all its occurrences. An empty value keeps every line. |
| `Sequences.Keep` | utils.py:24-30 | Python's `filter`: an order-preserving subsequence of elements that pass the test, with every occurrence of every passing element. |
| `Sequences.KeepIsUnique` | utils.py:24-30 | The contract of `Keep` determines its result: any subsequence with those three properties is the same list. |
| `Sequences.SubseqMultiset` | utils.py:24-30 | A subsequence never has more occurrences of any element than the whole list, so a filter never adds lines. |
| `Sequences.KeepEverything` | utils.py:27-30 | A test that every line passes keeps the list unchanged. |
| `Strings.ContainsIffOccurs` | utils.py:30 | `value in line` holds exactly when the value occurs at some position of the line. |
| `Strings.ContainsCharacter` | utils.py:30 | A one-character value is in a line exactly when that character occurs in it. |
| `Strings.EmptyNeedleOccurs` | utils.py:30 | The empty value is in every line. |
| `Operators.Regex` | utils.py:21-24 | The result is an error exactly when there is a line and the pattern does not compile, and the error is `PatternError`. Otherwise the result is a subsequence of the input, every kept line matches, and every matching line is kept with all its occurrences. |
| `Operators.MapData` | utils.py:33-37 | A non-integer argument gives `ArgumentError` for any input, empty included. Otherwise the result succeeds exactly when the index is within −len..len−1 of every line's fields. An out-of-range line gives `IndexError`. On success the length is preserved and element i is line i's column. |
| `Operators.Columns` | utils.py:37 | With a converted index, the result succeeds exactly when every line has the column. On success it has the same length, and each element is that line's column. |
| `Operators.Column` | utils.py:37 | `line.split(' ')[k]` succeeds exactly when −len ≤ k < len over the fields, otherwise it gives `IndexError`. The value never contains a space. |
| `Operators.ColumnOfFields` | utils.py:37 | For a line made of space-free fields joined by single spaces, column k is field k counted from the front, or from the back when k is negative. Any other k is out of range. |
| `Strings.Split` | utils.py:37 | `split(' ')` gives one field more than there are spaces, and no field contains a space. |
| `Strings.JoinSplit` | utils.py:37 | Joining the fields with single spaces gives the line back. |
| `Strings.SplitJoin` | utils.py:37 | Splitting space-free fields joined by single spaces gives the fields back. |
| `Strings.SplitAfterWord` | utils.py:37 | A space-free prefix only lengthens the first field. |
| `Numbers.ParseInt` | utils.py:36 | `int()` succeeds exactly on an optional sign followed by one or more digits. Any other text is an `ArgumentError`. |
| `Numbers.DigitsValue` | utils.py:43 | A digit string has a value exactly when every character is a decimal digit. Otherwise it is an `ArgumentError`. |
| `Numbers.ParseIntToString` | utils.py:43 | `int(str(n)) == n` for every integer n. |
| `Numbers.DigitsValueOfNatToString` | utils.py:43 | The digits of `str(n)` read back as n. |
| `Numbers.LeadingZero` | utils.py:36 | A leading zero does not change the value. |
| `Operators.LimitResult` | utils.py:40-44 | A non-integer argument gives `ArgumentError`. Otherwise the result is always a prefix of the input. Its length is min(N, len) for N ≥ 0 and max(0, len + N) for N < 0. |
| `Sequences.SlicePrefix` | utils.py:44 | Python's `[:stop]` is a prefix of length min(stop, len) for stop ≥ 0 and max(0, len + stop) for stop < 0. |
| `Operators.SortData` | utils.py:61-65 | The result is a permutation of the input. It is in descending order when the argument is exactly `desc`, and ascending for every other argument. |
| `Operators.SortDescendingReversesAscending` | utils.py:61-65 | The `desc` result is the reverse of the result for any other argument. |
| `Sorting.Sort` | utils.py:63-65 | `sorted` returns a permutation that is ordered in the requested direction. |
| `Sorting.Insert` | utils.py:65 | Inserting into a sorted list keeps it sorted and adds exactly one occurrence. |
| `Sorting.InsertFront` | utils.py:65 | An element that may precede the head of a sorted list can go in front of it. |
| `Sorting.InsertBehind` | utils.py:65 | An element that may not precede the head goes behind it, and the list stays sorted. |
| `Sorting.SortedPermutationIsUnique` | utils.py:61-65 | Two sorted permutations of the same list in the same direction are equal, so any correct sort gives the modelled result. |
| `Sorting.SortedHeadFirst` | utils.py:65 | The head of a sorted list may precede each of its elements. |
| `Sorting.SameHeadSameTail` | utils.py:65 | Permutations with the same head have permuted tails. |
| `Sorting.ReverseSorted` | utils.py:63 | Reversing an ascending list gives a descending one, and the other way round. |
| `Sorting.DescendingIsReversedAscending` | utils.py:63-65 | `sorted(xs, reverse=True)` is `sorted(xs)` reversed. |
| `Sorting.BeforeTotal` | utils.py:65 | Any two strings are ordered one way or the other. |
| `Sorting.BeforeTransitive` | utils.py:65 | The sort order is transitive in both directions. |
| `Strings.LessEqReflexive` | utils.py:65 | Python's string `<=` is reflexive. |
| `Strings.LessEqAntisymmetric` | utils.py:65 | Python's string `<=` is antisymmetric. |
| `Strings.LessEqTransitive` | utils.py:65 | Python's string `<=` is transitive. |
| `Strings.LessEqTotal` | utils.py:65 | Python's string `<=` is total. |
| `Operators.UniqueData` | utils.py:69-70 | `list(set(xs))` is duplicate-free and has the same elements as the input. Its length is the number of distinct lines, which is at most the input length. |
| `Operators.UniqueIsDeterminedUpToOrder` | utils.py:70 | Every duplicate-free list with the input's elements is a permutation of the modelled result, so only the order is left open. |
| `Sequences.Dedup` | utils.py:70 | Each element once, with the same element set. |
| `Sequences.SameElementsArePermutations` | utils.py:70 | Duplicate-free lists with the same elements are permutations of each other. |
| `Sequences.DistinctLength` | utils.py:70 | A duplicate-free list is as long as its set of elements. |
| `Sequences.DistinctMultiset` | utils.py:70 | In a duplicate-free list every element occurs once. |
| `Sequences.KeepKeep` | utils.py:21-30 | Two selections in a row keep exactly the lines passing both tests. |
| `Sequences.ReverseMultiset` | utils.py:63 | Reversal is a permutation. |
| `Sequences.Reverse` | utils.py:63 | Element i of the reversal is element len−1−i of the input. |
| `Pipeline.ResultDataIsComposition` | utils.py:47-71 | Whatever the command, lazy `result_data` succeeds exactly when the chain filter → map → regex → sort → (limit else unique) succeeds on whole lists, and then gives the same list. |
| `Pipeline.DrainIsStagewise` | utils.py:51-59 | Pulling lines one at a time through filter, map and regex has the outcome of applying the three stages to the whole list in turn. |
| `Pipeline.MapThenMatchCons` | utils.py:55-59 | On a list that starts with a line that passed the filter, the map and regex stages give the outcome of pulling that line, then the rest. |
| `Pipeline.FilterStageCons` | utils.py:52-53 | The filter stage decides each line on its own. |
| `Pipeline.PrependKeepsOutcome` | utils.py:51-59 | Pulling the same first line in front of two equal outcomes gives equal outcomes. |
| `Pipeline.UpstreamIsDrain` | utils.py:51-59 | Once `map` has converted its index, the lazy stages give the outcome of `filter_data`, `map_data` and `regex` applied in that order. |
| `Pipeline.FinishIsDownstream` | utils.py:61-71 | The materialising steps give the outcome of sort, then limit or else unique, applied to the forced list. |
| `Pipeline.NoCommandGivesSourceLines` | utils.py:51-71 | With no recognised key the result is the source lines, unchanged and in order. |
| `Pipeline.UnrecognisedKeysGiveSourceLines` | utils.py:51-71 | A command map with only unrecognised keys (or none) returns the source lines. |
| `Pipeline.QueryIgnoresUnrecognisedKey` | utils.py:52-69 | Adding an unrecognised key to the command map does not change the result. |
| `Pipeline.UnrecognisedKeyIsIgnored` | utils.py:52-69 | An unrecognised key does not change the command. |
| `Pipeline.CommandOfMapOf` | utils.py:52-69 | Converting a command to a map and back gives the same command. |
| `Pipeline.MapOfCommandOf` | utils.py:52-69 | Converting a command map to a command and back keeps exactly the recognised entries. |
| `Pipeline.LimitOverridesUnique` | utils.py:67-70 | When `limit` is present, removing `unique` changes nothing, so `unique` is never applied. |
| `Pipeline.FilterThenRegex` | utils.py:52-59 | `filter` with `regex` keeps exactly the lines that contain the value and match the pattern. A pattern that does not compile raises only if some line contains the value. |
| `Pipeline.UniqueResultIsDuplicateFree` | utils.py:67-70 | With `unique` and no `limit`, a successful result is duplicate-free and has the same elements as the filtered, mapped and matched lines. |
| `Pipeline.LimitResultIsPrefix` | utils.py:61-68 | With `limit`, a successful result is a prefix of the upstream list, sorted first when `sort` is present. |
| `Scenarios.FirstColumn` | utils.py:55-56 | Lines `a 1`, `b 2`, `a 3` with `map=0` give `a`, `b`, `a`. |
| `Scenarios.FirstColumnSorted` | utils.py:61-65 | Adding `sort=asc` gives `a`, `a`, `b`. |
| `Scenarios.FirstColumnUnique` | utils.py:69-70 | Adding `unique` instead gives two lines whose set is {`a`, `b`}. |
| `Scenarios.NegativeLimit` | utils.py:40-44 | `limit=-1` on five lines gives the first four. |
| `Scenarios.FilterOnOne` | utils.py:27-30 | `filter=1` keeps the raw line `a 1`, but keeps none of the extracted columns. |
| `Scenarios.FilterBeforeMap` | utils.py:52-56 | `filter=1` with `map=0` gives `a`, because the filter runs on raw lines before the column is cut. |
| `Scenarios.BrokenPatternAfterEmptyFilter` | utils.py:52-59 | A pattern that does not compile, behind a filter that drops every line, gives an empty list. |
| `Scenarios.BrokenPatternAfterFilter` | utils.py:52-59 | The same pattern behind a filter that keeps a line raises. |
| `Scenarios.ErrorKindFollowsLineOrder` | utils.py:55-59 | With `map=1` and a broken pattern on lines `p q`, `r`, the lazy chain raises `PatternError`. Applying each operator to the whole list would raise `IndexError`. |
| `Scenarios.TwoFields` | utils.py:37 | Two space-free words joined by one space split back into the two words. |
| `Scenarios.ParseExamples` | utils.py:36 | `int("0")`, `int("1")` and `int("-1")` are 0, 1 and −1. |
| `Scenarios.ColumnsOfLines` | utils.py:37 | Column 0 of `a 1`, `b 2`, `a 3` is `a`, `b`, `a`. |
| `Scenarios.FirstColumnUpstream` | utils.py:55-56 | With only `map=0` before the sort step, the upstream list is `a`, `b`, `a`. |
| `Scenarios.SortedFirstColumn` | utils.py:65 | `sorted(["a", "b", "a"])` is `["a", "a", "b"]`. |
| `Scenarios.WhereOneOccurs` | utils.py:30 | `1` is in `a 1` but not in `b 2`, `a 3`, `a` or `b`. |
| `Scenarios.FilterThenFirstColumn` | utils.py:52-56 | `filter=1` then `map=0` on the three lines gives `a`. |
| `Scenarios.FirstColumnOfFirstLine` | utils.py:33-37 | `map_data(["a 1"], "0")` is `["a"]`. |
| `Scenarios.WhereZAndBOccur` | utils.py:30 | `z` is in none of the three lines, and `b` is in `b 2`. |

## Left out

- `load_data` (utils.py:10-18): file I/O is not modelled. The source is an arbitrary finite list
  of lines that keep their trailing newline. A missing file ends the generator, which makes it an
  empty list. Undecodable files are not modelled.
- The regular-expression engine (utils.py:24): `re` is a foreign library. It is the `Engine`
  parameter, which says whether a pattern compiles and whether it is found in a line.
- Numbers.ParseInt: accepts only an optional `+`/`-` followed by ASCII digits. Python's `int()`
  also strips surrounding whitespace, accepts `_` between digits and non-ASCII decimal digits, and
  rejects texts of more than 4300 digits. All of these are left out as argument syntax outside the
  documented queries.
- Operators.UniqueData: Python does not fix the iteration order of a set, which depends on string
  hashes. The model picks one order, and its contract promises only what Python does: no
  duplicates, the same elements and the matching length. `UniqueIsDeterminedUpToOrder` shows
  that every admissible order is a permutation of the model's.
- Python's sort algorithm: only its result is modelled. `SortedPermutationIsUnique` shows that
  the result is fully determined.
- Pipeline.ResultDataIsComposition: relates the lazy pipeline to the whole-list chain only up to
  the kind of exception, because the kind really can differ (`ErrorKindFollowsLineOrder`).
- app.py: Flask routing, reading the request arguments and `jsonify` are plumbing. The
  two-entry dict it builds is the `map<string, string>` given to `Pipeline.Query`. A
  missing request argument that makes a key or value `None` is not modelled: arguments are
  strings, so the `TypeError` of `None in line` does not arise.
- The `unique` argument: it is never read, and the record keeps it only to mirror the map.
