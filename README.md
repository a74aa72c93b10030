# Redundancy benchmark for SQL engines: a Dafny model

RedundancyBenchmarkSQL checks whether a database engine executes a
"redundant" query the same way as its "correct" counterpart. A redundant
query is logically equivalent to the correct one but carries unnecessary
constructs, such as a tautological filter. The program:

1. reads test cases from an annotated text file (the corpus);
2. asks the chosen engine (SQL Server, Oracle, MySQL or PostgreSQL) for the
   execution plan of both queries of every test case;
3. stores both plans on the test case;
4. gives the engine one point per test case whose two plans hold the same
   operations, whatever their order.

This project models that in-memory logic and proves properties of it:

- `Corpus`: the line-driven corpus parser. It is a specification function
  `Parse` over the file's lines. Beside it sit the imperative parser loop
  (`Queries.ReadQueriesFromFile`) proved against it, and the list of test
  cases (`Queries`).
- `QueryRecord`: the test case, as a class `Query`. It holds a default
  query pair, per-engine override dictionaries that are empty or hold both
  keys, per-engine plan dictionaries and comparison flags. The
  override-else-default lookup is modelled for a provider name.
- `Plans`: how one plan is obtained.
  - The provider-name dispatch, with its "not supported" fallback.
  - The extraction of `RelOp`/`PhysicalOp` from an already-parsed SQL Server
    XML plan.
  - The MySQL row-to-token rule.
  - The Oracle query cleaning.
  - The databases themselves are a `PlanSource` parameter.
- `Equivalence`: the sort-then-compare test, with an ordinal insertion sort.
  It is proved to decide exactly multiset equality.
- `BenchmarkRun`: the class `Benchmark` with its per-engine counters and
  `RunBenchmark`. The loop is proved to leave the active engine's counter at
  the number of test cases whose plans agree, and every test case's plans
  recorded under that engine only.
- `Engines`, `Text`, `Wrappers`: the engine enumeration with its provider
  names, the .NET string operations the parser uses, and Option/Result.

Where the design description of the system and the code disagree, the model
follows the code:

- A corpus `-- end` with empty default queries still yields a test case.
  There is no "malformed corpus" error.
- There is no `Filter:` directive, and no filter-excluded test cases.
- There are no loose/strict fidelity levels. Each engine's plan rows become
  tokens as the code reads them.
- The redundant query's buffer is selected by the version name `error`, and
  PostgreSQL's by `postgre`.
- `RunBenchmark` plans the default pair of every test case, never a
  per-engine override.
- `RunBenchmark` does not store a verdict on the test case, and nothing sets
  the comparison flags.
- A missing corpus file throws in the code. Here `Queries.ReadQueriesFromFile`
  returns the outcome `Fail(FileNotFound)` with nothing changed, and
  `Benchmark.Create` returns `Error(FileNotFound)` with no benchmark built.

## Model

| member | source | states |
|---|---|---|
| Engines.ParseProvider | RedundancyBenchmarkSQL/Query.cs:80-122 | A provider name selects engine `e` exactly when it is `e`'s provider name; any other name (including an unset one) selects none and falls to the default branch |
| Text.Trim | RedundancyBenchmarkSQL/Queries.cs:126 | The result is a slice of the input, and everything cut off on either side is whitespace; the result neither starts nor ends with whitespace |
| Text.TrimUntrimmed | RedundancyBenchmarkSQL/Queries.cs:126 | Trimming a value with no surrounding whitespace leaves it unchanged |
| Text.ToLower | RedundancyBenchmarkSQL/Queries.cs:142 | Same length; no upper-case letter remains; upper-case letters map to their lower-case form and every other character is kept |
| Text.ToLowerIdempotent | RedundancyBenchmarkSQL/Queries.cs:142 | Lower-casing an already lower-cased version value changes nothing |
| Text.Split | RedundancyBenchmarkSQL/Queries.cs:126 | `Split(c)` yields one more part than there are separators, no part holds the separator, and joining the parts back with it gives the input |
| Text.SecondField | RedundancyBenchmarkSQL/Queries.cs:126 | `Split(':')[1]` is exactly the text strictly between the first colon and the next colon or the end of the line |
| Text.ReplaceNoLonger | RedundancyBenchmarkSQL/Benchmark.cs:274 | Replacing a pattern by text no longer than it never lengthens the string |
| Text.ReplaceRemovesChar | RedundancyBenchmarkSQL/Benchmark.cs:274 | Replacing a character by text that does not hold it removes every occurrence |
| Text.ReplaceChars | RedundancyBenchmarkSQL/Benchmark.cs:274 | Every character of a replacement's result comes from the input or from the replacement text |
| Text.ReplaceAbsent | RedundancyBenchmarkSQL/Benchmark.cs:274 | Where the pattern does not occur, replacing it leaves the string unchanged |
| QueryRecord.OverridesOfFill | RedundancyBenchmarkSQL/Query.cs:45-67 | Filling an empty engine dictionary with both keys adds exactly that engine's override pair and no other |
| QueryRecord.Query.constructor | RedundancyBenchmarkSQL/Query.cs:12-43 | The new test case has the given category, description and default pair; source and reference are ""; every override and plan dictionary is empty; all four comparison flags are false |
| QueryRecord.Query.SetEngineQueries | RedundancyBenchmarkSQL/Query.cs:45-67 | On an empty engine dictionary both keys are added together and that engine gains exactly the given override; on a filled one the duplicate key fails and nothing changes; every dictionary stays empty-or-pair |
| QueryRecord.Query.AddSourceAndReference | RedundancyBenchmarkSQL/Query.cs:69-73 | Both source and reference are overwritten with the given values |
| QueryRecord.Query.PairFor | RedundancyBenchmarkSQL/Query.cs:80-173 | For a known provider: that engine's override pair if it has one, else the default pair; for an unknown provider: the default pair |
| QueryRecord.Query.CorrectQueryFor | RedundancyBenchmarkSQL/Query.cs:80-123 | `GetCorrectQuery(provider)` is the correct query of the pair the provider resolves to (override else default) |
| QueryRecord.Query.RedundantQueryFor | RedundancyBenchmarkSQL/Query.cs:130-173 | `GetRedundantQuery(provider)` is the redundant query of the pair the provider resolves to (override else default) |
| QueryRecord.Query.SetPlan | RedundancyBenchmarkSQL/Query.cs:175-193 | Only the given key of the given engine's plan dictionary is overwritten; other keys and other engines' dictionaries keep their values |
| QueryRecord.Query.SetComparison | RedundancyBenchmarkSQL/Query.cs:31-34 | Only the given engine's comparison flag changes |
| Corpus.BucketOf | RedundancyBenchmarkSQL/Queries.cs:146-178 | A version value selects the buffer whose name it is exactly, and selects none when no buffer has that name |
| Corpus.BucketOfVersionName | RedundancyBenchmarkSQL/Queries.cs:146-178 | Each of the ten buffers has its own version name and that name selects it |
| Corpus.Step | RedundancyBenchmarkSQL/Queries.cs:79-123 | A line starting with `-- end` appends exactly one test case, built from the state before it, and resets the state; any other line appends none |
| Corpus.Absorb | RedundancyBenchmarkSQL/Queries.cs:124-179 | Only a `-- Category:` line changes the category; a blank non-directive line changes nothing |
| Corpus.AbsorbContent | RedundancyBenchmarkSQL/Queries.cs:144-178 | A non-blank, non-directive line is appended with a line break to exactly the one buffer the current version names, nothing else changes, and under a version naming no buffer the line is dropped |
| Corpus.ParseCount | RedundancyBenchmarkSQL/Queries.cs:79-100 | The number of test cases equals the number of lines starting with `-- end` |
| Corpus.ParseSnoc | RedundancyBenchmarkSQL/Queries.cs:79-100 | Reading one more line appends the test case it closes if it is an `-- end` line, and nothing otherwise |
| Corpus.ParsePrefix | RedundancyBenchmarkSQL/Queries.cs:79-123 | Later lines never change or reorder the test cases already closed |
| Corpus.EndLineRecord | RedundancyBenchmarkSQL/Queries.cs:81-100 | The n-th `-- end` line produces the n-th test case, from the state the lines before it left |
| Corpus.RunStep | RedundancyBenchmarkSQL/Queries.cs:79-180 | The parser state after a line is one step from the state before it |
| Corpus.CategoryCarries | RedundancyBenchmarkSQL/Queries.cs:102-126 | `-- end` does not clear the category: the current category is the value of the last `-- Category:` line, or "" |
| Corpus.OverridesFromExact | RedundancyBenchmarkSQL/Queries.cs:88-98 | An engine override is attached if and only if both of that engine's buffers are non-empty, and it holds those two buffers |
| Corpus.FinishWellFormed | RedundancyBenchmarkSQL/Queries.cs:83-98 | A closed test case has source and reference both set or both "", and every override holds two non-empty texts made of whole lines |
| Corpus.ParseWellFormed | RedundancyBenchmarkSQL/Queries.cs:79-180 | Every test case the parser produces is well formed in that sense |
| Corpus.EmptyTestCase | RedundancyBenchmarkSQL/Queries.cs:83 | An `-- end` with nothing before it still yields a test case, with empty queries and no overrides |
| Corpus.DirectiveValueIsField | RedundancyBenchmarkSQL/Queries.cs:124-139 | A directive's value is the trimmed text between its first and second colon |
| Corpus.VersionIsCaseInsensitive | RedundancyBenchmarkSQL/Queries.cs:140-143 | A `-- Version:` line sets the version to the lower-cased trimmed field after its colon |
| Corpus.IsVersionLine | RedundancyBenchmarkSQL/Queries.cs:81-143 | A `-- Version:` line is not taken by any earlier branch of the directive chain |
| Corpus.Queries.constructor | RedundancyBenchmarkSQL/Queries.cs:13-16 | The list starts empty |
| Corpus.Queries.AddQuery | RedundancyBenchmarkSQL/Queries.cs:18-21 | The test case is appended at the end of the list |
| Corpus.Queries.GetQuery | RedundancyBenchmarkSQL/Queries.cs:23-33 | Succeeds exactly for `0 <= index < Count()` with the test case at that index, and fails with ArgumentOutOfRange otherwise |
| Corpus.Queries.Count | RedundancyBenchmarkSQL/Queries.cs:35-38 | The length of the list |
| Corpus.Queries.AddNewQuery | RedundancyBenchmarkSQL/Queries.cs:81-100 | The `-- end` branch appends one new test case whose value is the one the parser specification closes, with no plan stored and every comparison flag false |
| Corpus.Queries.ReadQueriesFromFile | RedundancyBenchmarkSQL/Queries.cs:49-181 | A missing file fails with FileNotFound and changes nothing; otherwise the existing list is kept as a prefix and new test cases are appended whose values are exactly `Parse(lines)`, in file order, each with no plan stored and every comparison flag false |
| Corpus.ReadLine | RedundancyBenchmarkSQL/Queries.cs:124-179 | The branches for a line other than `-- end` update the parser's variables exactly as the specification step does |
| Corpus.NewQuery | RedundancyBenchmarkSQL/Queries.cs:83-98 | The test case built at `-- end` has source and reference only when both are set, and the overrides of exactly the complete engines; it has no plan stored and every comparison flag false |
| Corpus.FilledOverrides | RedundancyBenchmarkSQL/Queries.cs:88-98 | After the four conditional `Set*Queries` calls, every dictionary is empty or holds both keys, and the overrides are exactly those of the complete engines |
| Corpus.EngineDictionaryShape | RedundancyBenchmarkSQL/Queries.cs:88-98 | An engine's dictionary is filled if and only if both of its buffers are non-empty, and then it holds those buffers under "correct" and "redundant" |
| Corpus.AttachOverrides | RedundancyBenchmarkSQL/Queries.cs:88-98 | After the four per-engine checks, each engine's dictionary is filled from its buffers when both are non-empty and is empty otherwise |
| Corpus.AttachOverride | RedundancyBenchmarkSQL/Queries.cs:88-98 | One per-engine check fills that engine's dictionary when both of its buffers are non-empty, and leaves the other engines alone |
| Equivalence.Sort | RedundancyBenchmarkSQL/Benchmark.cs:68 | `OrderBy(x => x)` under ordinal order gives a sorted permutation of the plan |
| Equivalence.SortedUnique | RedundancyBenchmarkSQL/Benchmark.cs:68 | Two sorted sequences with the same elements, counted with multiplicity, are equal |
| Equivalence.SameOperationsIsMultisetEquality | RedundancyBenchmarkSQL/Benchmark.cs:68 | Sorting both plans and comparing element by element holds exactly when the plans are equal as multisets |
| Equivalence.SameOperationsReflexive | RedundancyBenchmarkSQL/Benchmark.cs:68 | A plan is always the same as itself |
| Equivalence.SameOperationsSymmetric | RedundancyBenchmarkSQL/Benchmark.cs:68 | The test does not depend on which plan comes first |
| Equivalence.SameOperationsTransitive | RedundancyBenchmarkSQL/Benchmark.cs:68 | The test is transitive |
| Equivalence.SameOperationsPermutation | RedundancyBenchmarkSQL/Benchmark.cs:68 | Reordering either plan does not change the verdict |
| Equivalence.SameOperationsLength | RedundancyBenchmarkSQL/Benchmark.cs:68 | Plans of different lengths are never the same |
| Equivalence.SameOperationsCountsDuplicates | RedundancyBenchmarkSQL/Benchmark.cs:68 | A plan with one extra, even repeated, operation is not the same |
| Plans.PhysicalOps | RedundancyBenchmarkSQL/Benchmark.cs:148-155 | At most one operation per element |
| Plans.PhysicalOpsAppend | RedundancyBenchmarkSQL/Benchmark.cs:148-155 | Extraction keeps document order: the operations of two element runs are the operations of each, concatenated |
| Plans.PhysicalOpsMembers | RedundancyBenchmarkSQL/Benchmark.cs:148-155 | An operation is extracted if and only if some `RelOp` element carries it as `PhysicalOp`; other elements and `RelOp` without the attribute contribute nothing |
| Plans.ParseXmlPlanToOperations | RedundancyBenchmarkSQL/Benchmark.cs:140-159 | The loop returns the `PhysicalOp` values of the `RelOp` elements in document order, and `[]` for an empty plan text |
| Plans.MySqlToken | RedundancyBenchmarkSQL/Benchmark.cs:219 | A row contributes its `type` column, or "Unknown" when it is NULL |
| Plans.MySqlOperations | RedundancyBenchmarkSQL/Benchmark.cs:204-226 | One token per EXPLAIN row, in row order, each by the `type`/"Unknown" rule |
| Plans.CleanOracleQuery | RedundancyBenchmarkSQL/Benchmark.cs:273-274 | The cleaned query holds no `;` and no line break, and is no longer than the input |
| Plans.CleanOracleQueryIdentity | RedundancyBenchmarkSQL/Benchmark.cs:273-274 | A query with no `;`, no line break and no "as " is sent unchanged |
| Plans.QueryExecutionPlan | RedundancyBenchmarkSQL/Benchmark.cs:117-138 | A known provider gets its engine's plan; any other provider gets the single line "Execution plan not supported for this provider." |
| Plans.GetQueryExecutionPlan | RedundancyBenchmarkSQL/Benchmark.cs:117-138 | The dispatch returns exactly the plan `QueryExecutionPlan` specifies |
| BenchmarkRun.VerdictIsSameOperations | RedundancyBenchmarkSQL/Benchmark.cs:60-69 | A test case scores exactly when its two default queries' plans are equal as multisets |
| BenchmarkRun.Score | RedundancyBenchmarkSQL/Benchmark.cs:58-91 | The count of positive verdicts never exceeds the number of test cases |
| BenchmarkRun.FullScore | RedundancyBenchmarkSQL/Benchmark.cs:58-91 | The count equals the number of verdicts exactly when every verdict is positive |
| BenchmarkRun.ZeroScore | RedundancyBenchmarkSQL/Benchmark.cs:58-91 | The count is zero exactly when every verdict is negative |
| BenchmarkRun.ScoreAppend | RedundancyBenchmarkSQL/Benchmark.cs:58-91 | Counting two runs of verdicts one after the other adds their counts |
| BenchmarkRun.Points | RedundancyBenchmarkSQL/Benchmark.cs:46-87 | A run's points lie between 0 and the number of test cases |
| BenchmarkRun.PointsFull | RedundancyBenchmarkSQL/Benchmark.cs:58-91 | Full points exactly when every test case's plans agree |
| BenchmarkRun.PointsZero | RedundancyBenchmarkSQL/Benchmark.cs:58-91 | No points exactly when no test case's plans agree |
| BenchmarkRun.IdenticalQueriesScore | RedundancyBenchmarkSQL/Benchmark.cs:60-69 | Test cases whose two queries are the same text all score |
| BenchmarkRun.OneScanEachScores | RedundancyBenchmarkSQL/Benchmark.cs:58-69 | One test case whose two plans are both one table scan scores one point |
| BenchmarkRun.DuplicateScanFails | RedundancyBenchmarkSQL/Benchmark.cs:68-69 | A redundant plan with a second table scan makes the test case score nothing |
| BenchmarkRun.UnknownProviderPlans | RedundancyBenchmarkSQL/Benchmark.cs:134-136 | Under an unknown provider both plans of every test case are the single "not supported" line (the run then stores and scores nothing, as `RunBenchmark` states) |
| BenchmarkRun.DefaultPairs | RedundancyBenchmarkSQL/Benchmark.cs:60-61 | The pairs a run plans are the default pairs of the test cases, one per test case in list order |
| BenchmarkRun.DefaultPairsOfSnapshots | RedundancyBenchmarkSQL/Benchmark.cs:60-61 | Those pairs are the default pairs of the test cases' values, never an override |
| BenchmarkRun.RecordedStoresBoth | RedundancyBenchmarkSQL/Benchmark.cs:66-67 | Storing a test case's plans sets "correct" and "redundant" in the active engine's dictionary and leaves every other key and every other engine's dictionary as it was |
| BenchmarkRun.RecordedInTwoSteps | RedundancyBenchmarkSQL/Benchmark.cs:66-67 | The two `Set*Plan` calls, "correct" then "redundant", store exactly that |
| BenchmarkRun.RecordedIdempotent | RedundancyBenchmarkSQL/Benchmark.cs:66-67 | Storing the same plans again changes nothing |
| BenchmarkRun.Benchmark.constructor | RedundancyBenchmarkSQL/Benchmark.cs:21-29 | For an existing corpus file: all four counters start at -1 ("not run"), and the test cases are new objects, exactly those the file defines, with no plan stored and every comparison flag false |
| BenchmarkRun.Benchmark.Create | RedundancyBenchmarkSQL/Benchmark.cs:25-29 | A missing corpus file fails with FileNotFound and builds no benchmark, as the exception out of the constructor does; an existing one builds the benchmark the constructor describes |
| BenchmarkRun.Benchmark.SetDatabaseSystem | RedundancyBenchmarkSQL/Benchmark.cs:31-39 | The provider name of the next run is the given one |
| BenchmarkRun.Benchmark.RunBenchmark | RedundancyBenchmarkSQL/Benchmark.cs:41-92 | For a known provider only that engine's counter changes, to the number of test cases whose default plans agree; every test case gets both plans in that engine's dictionary only; under another provider nothing changes; the list itself is not modified |
| BenchmarkRun.Benchmark.RunTestCases | RedundancyBenchmarkSQL/Benchmark.cs:58-91 | The loop, from a reset counter, ends with the counter at the run's points and every test case's plans recorded |
| BenchmarkRun.Benchmark.RunOne | RedundancyBenchmarkSQL/Benchmark.cs:59-90 | One iteration stores test case `i`'s plans and brings the counter to the score of the first `i + 1` verdicts |
| BenchmarkRun.Benchmark.Tally | RedundancyBenchmarkSQL/Benchmark.cs:68-69 | The counter goes up by one exactly when the test case scored, and no other counter changes |
| BenchmarkRun.RunTestCase | RedundancyBenchmarkSQL/Benchmark.cs:60-88 | One test case's two default queries are planned; under a known engine its plans are stored and the result says whether they agree |
| BenchmarkRun.StorePlans | RedundancyBenchmarkSQL/Benchmark.cs:66-67 | Test case `i` (and any repeat of the same object in the list) gets both plans recorded under the engine; every test case's dictionaries stay within what a run may write, and the recorded prefix grows by one |
| BenchmarkRun.StoreBoth | RedundancyBenchmarkSQL/Benchmark.cs:66-67 | The two `Set*Plan` calls leave the test case's plans as `Recorded` |

## Left out

- Database access is not part of this model. This covers connections, commands, readers, `DbProviderFactories`, the `SET SHOWPLAN_XML` toggling, the Oracle schema switch and the `PLAN_TABLE` query (`Benchmark.cs:161-300`). What the databases answer is the `PlanSource` parameter. Only the rules the program applies to their rows are modelled. The Oracle plan lines are taken as a function of the `EXPLAIN PLAN FOR` text sent.
- A database error or exception during a run is not modelled. `PlanSource` always answers.
- `XDocument.Parse` is a foreign XML library. A plan is modelled as its already-parsed sequence of descendant elements: local name and optional `PhysicalOp`.
- File access (`File.Exists`, `File.ReadAllLines`) is not modelled. The corpus is an `Option<seq<string>>` of lines, where None means the file does not exist.
- Benchmark.constructor: it takes the lines of a corpus file that exists, because a Dafny constructor cannot fail. `new Benchmark(path)` on a missing file, which throws out of the constructor, is `Benchmark.Create`.
- Console output is not modelled: `Query.Print`, `Queries.PrintQueries`, `Benchmark.PrintBenchmark`, `Benchmark.PrintQueries`.
- `Program.cs` is not part of this model. That covers orchestration, provider registration, and text and Excel output.
- `SetDatabaseSystem`: the connection string and the factory are not modelled, only the provider name. A provider name that was never set is "", which selects no engine, as a null name does in the code.
- Text.Trim: only ASCII whitespace counts, not all of Unicode's. `StartsWith` and `OrderBy` use ordinal rather than culture-sensitive comparison. `ToLower` folds ASCII letters only.
- The four per-engine methods (`SetSqlServerQueries`, `SetOraclePlan`, ...) and the four per-engine fields are each modelled as one member or map keyed by the engine: `Query.SetEngineQueries`, `Query.SetPlan`, `Query.plans`, `Benchmark.points`.
- `Query.CorrectQuery` and `Query.RedundantQuery` (the parameterless getters) carry no contract of their own. The constructor's contract states what they return.
- The default query dictionary is a constant of the test case, because nothing writes it after the constructor.
- `Queries.GetQuery` reports an out-of-range index as `Error(ArgumentOutOfRange)` rather than by an exception.
- `Query.SetEngineQueries` reports a second call for the same engine as `Fail(DuplicateKey)` with nothing changed, rather than by an exception.
- The comparison flags are never set by `RunBenchmark` in the code. Only their initial value and their setter are modelled.
- Integer overflow of the point counters is not modelled. A counter is bounded by the number of test cases.
