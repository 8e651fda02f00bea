# SPARQL join benchmark: query builders and timing summary

This project models the two pieces of logic in `main.py`, a benchmark of
inner and left joins against the DBpedia SPARQL endpoint.

The first piece is the three query builders:
`prepare_inner_join_query`, `prepare_sequential_left_join_query` and
`prepare_nested_left_join_query`. Each one builds the text of a SPARQL query
for a `limit` and a number of `joins`. It appends strings to a list
`string_parts` and returns `''.join(string_parts)`:

- a header with two PREFIX lines and `SELECT ?name`;
- one `, ?var` per extra output variable that `joins` selects;
- the opening of the WHERE clause with its first pattern;
- the first `joins - 1` entries of a four-entry fragment list `extra_queries`;
- the closing braces;
- a line `LIMIT <limit>`.

The builders differ only in their WHERE opening, their fragments and their
closers. They are modelled as one function, `Query.Build`, over a `Variant`
(`Inner`, `SequentialLeft`, `NestedLeft`). A `joins` above 5 indexes past
the fragment list. Python raises `IndexError` there, and the model returns
`Failure(IndexOutOfRange(4))`.

The second piece is the timing summary. It appears once per builder, at
`main.py:88-91`, `main.py:225-228` and `main.py:256-259`. The measured times
are sorted, and the slice `[r // 10 : (r // 10) * 9]` of `r` measurements is
kept. The mean of that slice is the reported time.

Layout:

- `text.dfy` (`Text`): character counts, `''.join`, and occurrence counts of a pattern in a text.
- `braces.dfy` (`Braces`): brace depth, its peak and trough, and a composable `Profile` of a text.
- `decimal.dfy` (`Decimal`): `str(int)` and reading it back.
- `results.dfy` (`Results`): `Result`.
- `lexicon.dfy` (`Lexicon`): the building blocks of the query text (keywords, triple patterns, variables, braces, line breaks) as tokens, with their spellings.
- `scan.dfy` (`Scan`): how a token sequence's text relates to the tokens. This covers brace profiles, brace counts and keyword occurrences.
- `query.dfy` (`Query`): the builders' `string_parts` lists and `Build`.
- `query_parts.dfy` (`QueryParts`): a query's token sequence cut into header, WHERE body, closers and LIMIT line, with the brace profile each piece should have.
- `query_facts.dfy` (`QueryFacts`): the shape and token tallies of each piece of a query.
- `query_assembly.dfy` (`QueryAssembly`): how the pieces' facts add up to the whole query.
- `query_theorems.dfy` (`QueryTheorems`): what the built text satisfies.
- `trim.dfy` (`Trim`): sorting, the kept window, and the mean.

Fixed texts are written as the concatenation of short token spellings. The
properties of whole texts are composed from facts about the pieces.

## Model

| member | source | states |
|---|---|---|
| Query.Build | main.py:27-201 | Models the three builders (`prepare_inner_join_query` at main.py:27-64, `prepare_sequential_left_join_query` at 120-157, `prepare_nested_left_join_query` at 159-201). A build fails exactly when `joins` exceeds 5, and then with `IndexOutOfRange(4)`: `extra_queries[4]` is past the four fragments (main.py:54-55). |
| Text.Join | main.py:62 | `''.join` of a one-element list is that element. |
| Text.JoinAppend | main.py:62 | `''.join` of two lists one after the other is the join of the first followed by the join of the second, so the parts appear in the text in list order. |
| Decimal.Render | main.py:59 | `str(limit)` is non-empty, starts with `-` exactly for a negative limit, and is otherwise all digits. The digits are never empty and have no leading zero unless they are the single digit `0`. |
| QueryTheorems.BraceNesting | main.py:27-201 | Covers all three builders (main.py:27-64, 120-157, 159-201). For `joins` up to 5, no prefix of the text closes more braces than it opened. Every brace is closed except in the nested builder's text for `joins <= 0`. The deepest nesting is 1 for the inner join, 2 for the sequential left join and `max(joins, 1) + 1` for the nested left join. |
| QueryTheorems.BraceCounts | main.py:27-201 | Covers all three builders (main.py:27-64, 120-157, 159-201). The number of `{` is 1, plus `max(joins, 1)` for the left joins, since the first `OPTIONAL {` is written even for `joins <= 0`. The number of `}` is 1, plus `max(joins, 1)` for the sequential builder, plus `max(joins, 0)` closers for the nested builder. |
| QueryTheorems.SeparatorCount | main.py:27-201 | The inner join's text has `max(joins, 1)` occurrences of ` .` followed by a line break, and the left joins' texts have none. |
| QueryTheorems.OptionalCount | main.py:27-201 | The left joins' texts have `max(joins, 1)` occurrences of `OPTIONAL`, and the inner join's text has none. |
| QueryTheorems.SelectRules | main.py:42-47 | `?name` is always selected. `?sex` is selected iff `joins >= 2`, `?partnername` iff `joins >= 4`, and `?partnersex` iff `joins == 5`. `?partner` and `?person` are never selected. |
| QueryTheorems.HeadOutputs | main.py:36-48 | The output variables written before WHERE are exactly the selected ones. |
| QueryTheorems.CommonHeader | main.py:27-201 | All three builders start their text with the same header for the same `joins`. |
| QueryTheorems.BodyPrefix | main.py:27-201 | Covers all three builders (main.py:27-64, 120-157, 159-201). For every `n` up to `joins - 1`, the query text starts with the header followed by the WHERE clause through the first `n` fragments. Together with `NextJoin`, `extra_queries[0 .. joins - 2]` appear in the text in list order, each right after the ones before it. |
| QueryTheorems.NextJoin | main.py:27-201 | One more join appends the next fragment to the WHERE clause and leaves the WHERE clause before it unchanged. |
| QueryTheorems.LimitSuffix | main.py:59-62 | The text ends with a line break, `LIMIT ` and the limit in decimal, and that decimal reads back as the limit. |
| QueryTheorems.FewJoins | main.py:27-157 | Below one join, the inner and sequential builders return the same text as for one join. |
| QueryAssembly.Spelling | main.py:27-201 | Covers all three builders (main.py:27-64, 120-157, 159-201). The text of every successful build is spelled by a token sequence. That sequence has the brace profile and the brace, separator and `OPTIONAL` tallies above. |
| Decimal.RenderRoundTrip | main.py:59 | `str(limit)` reads back as `limit`. |
| Trim.Sort | main.py:88 | `sorted` returns an ascending arrangement of the same measurements. |
| Trim.SortIsSortedPermutation | main.py:88 | A sequence is ascending and has the same measurements iff it is what `Sort` returns. |
| Trim.SortedUnique | main.py:88 | Two ascending arrangements of the same values are equal. |
| Trim.Window | main.py:90 | The kept slice has `8 * (r // 10)` values. |
| Trim.WindowSize | main.py:90 | The slice is empty iff fewer than ten measurements were taken. Of 100 measurements it keeps positions 10 to 89. |
| Trim.WindowBetween | main.py:88-90 | Over sorted measurements, the slice is sorted. Every kept value is at least every dropped low value and at most every dropped high value. |
| Trim.WindowFromMeasurements | main.py:88-90 | The slice holds only measurements, each at most as often as it was measured. |
| Trim.SumBounds | main.py:91 | Bounds what `sum` (`Trim.Sum`, added left to right) computes: the sum of `n` values between `lo` and `hi` lies between `n * lo` and `n * hi`. |
| Trim.Mean | main.py:91 | `sum(xs) / len(xs)` fails with a division by zero exactly when `xs` is empty. |
| Trim.MeanBounds | main.py:91 | The mean of values between `lo` and `hi` lies between them. |
| Trim.MeanConstant | main.py:91 | The mean of equal values is that value. |
| Trim.TimeTaken | main.py:88-91 | The reported time (sort, keep the window, average) fails exactly when fewer than ten measurements were taken. |
| Trim.TimeTakenBounds | main.py:88-91 | With at least ten measurements, the reported time lies between the `r // 10`-th and the `(r // 10) * 9 - 1`-th smallest measurement. |
| Trim.TimeTakenOrderFree | main.py:88-91 | The reported time depends only on which values were measured, not on the order they were measured in. |

Notes on the source:

- Only the nested builder can leave a brace open. Its WHERE opening `WHERE {` plus `OPTIONAL {` opens two groups. Each fragment opens one more group. `"\n}"` closes one group and `range(joins)` closes the rest. For `joins <= 0` no fragment is added, but only one brace is closed, so one group is left open. The benchmark loops only use `joins` from 1 to 5.
- The comment at `main.py:89` speaks of quartiles, but the slice drops the lowest and highest tenth. The model follows the code.
- The slice bounds use `repetitions`, which equals the number of measurements because the loop appends one time per repetition. The model takes `r` as the length of the measurement list.

## Left out

- Networking: `SPARQLWrapper`, the DBpedia endpoint, query execution and result counting are not modelled. They are calls into a library and a remote service.
- Clocks: `time.time()` is not modelled. Measurements are inputs to `TimeTaken`.
- Printing: the result lines and section headers only produce output.
- The benchmark loops over `limit` and `joins`, and the 100 repetitions: these are driver code around the modelled operations.
- Trim.Mean: uses exact real arithmetic, not IEEE floating point, so rounding in `sum` and `/` is not modelled.
- Trim.Sort: is insertion sort, not Python's algorithm. Only the result is specified, and it is unique by `Trim.SortedUnique`.
- SPARQL semantics: the model states facts about the query text (braces, keywords, variables, order), not about what the query returns.
