/**
  A benchmark run: the test cases read from a corpus, the database system
  chosen by its provider name, and one point counter per engine that a run
  fills with the number of test cases whose two queries got plans with the
  same operations.
 */
module BenchmarkRun {
  import opened Wrappers
  import opened Engines
  import opened Equivalence
  import opened Plans
  import opened QueryRecord
  import opened Corpus

  /** The value a point counter holds while its engine has not been run. */
  const NotRun: int := -1

  /**
    The verdict of one run on one test case: the sorted plans of the
    default correct and redundant queries are equal.
   */
  predicate Verdict(source: PlanSource, providerName: string, pair: Pair) {
    SameOperations(QueryExecutionPlan(source, providerName, pair.correct),
                   QueryExecutionPlan(source, providerName, pair.redundant))
  }

  /**
    A positive verdict means the two plans hold the same operations, each
    as often, whatever their order.
   */
  lemma VerdictIsSameOperations(source: PlanSource, providerName: string, pair: Pair)
    ensures Verdict(source, providerName, pair) <==>
      multiset(QueryExecutionPlan(source, providerName, pair.correct))
      == multiset(QueryExecutionPlan(source, providerName, pair.redundant))
  {
    SameOperationsIsMultisetEquality(QueryExecutionPlan(source, providerName, pair.correct),
                                     QueryExecutionPlan(source, providerName, pair.redundant));
  }

  /** The number of positive verdicts. */
  function Score(verdicts: seq<bool>): (n: nat)
    ensures n <= |verdicts|
  {
    if verdicts == [] then 0
    else Score(verdicts[..|verdicts| - 1]) + if verdicts[|verdicts| - 1] then 1 else 0
  }

  /** Every verdict is positive exactly when the score is the number of verdicts. */
  lemma {:induction false} FullScore(verdicts: seq<bool>)
    ensures Score(verdicts) == |verdicts| <==> forall k | 0 <= k < |verdicts| :: verdicts[k]
    decreases |verdicts|
  {
    if verdicts != [] {
      var front := verdicts[..|verdicts| - 1];
      FullScore(front);
      assert forall k | 0 <= k < |front| :: front[k] == verdicts[k];
    }
  }

  /** Every verdict is negative exactly when the score is zero. */
  lemma {:induction false} ZeroScore(verdicts: seq<bool>)
    ensures Score(verdicts) == 0 <==> forall k | 0 <= k < |verdicts| :: !verdicts[k]
    decreases |verdicts|
  {
    if verdicts != [] {
      var front := verdicts[..|verdicts| - 1];
      ZeroScore(front);
      assert forall k | 0 <= k < |front| :: front[k] == verdicts[k];
    }
  }

  /** The scores of two runs of verdicts, one after the other, add up. */
  lemma {:induction false} ScoreAppend(a: seq<bool>, b: seq<bool>)
    ensures Score(a + b) == Score(a) + Score(b)
    decreases |b|
  {
    if b == [] {
      assert a + b == a;
    } else {
      var front := b[..|b| - 1];
      assert (a + b)[..|a + b| - 1] == a + front;
      ScoreAppend(a, front);
    }
  }

  /** The verdicts of a run on each test case, in corpus order. */
  ghost function Verdicts(source: PlanSource, providerName: string, pairs: seq<Pair>): (verdicts: seq<bool>)
    ensures |verdicts| == |pairs|
    ensures forall k | 0 <= k < |pairs| :: verdicts[k] == Verdict(source, providerName, pairs[k])
  {
    seq(|pairs|, k requires 0 <= k < |pairs| => Verdict(source, providerName, pairs[k]))
  }

  /** The plans a run asks for, for the correct query of each test case. */
  ghost function CorrectPlans(source: PlanSource, providerName: string, pairs: seq<Pair>): (plans: seq<seq<string>>)
    ensures |plans| == |pairs|
    ensures forall k | 0 <= k < |pairs| :: plans[k] == QueryExecutionPlan(source, providerName, pairs[k].correct)
  {
    seq(|pairs|, k requires 0 <= k < |pairs| => QueryExecutionPlan(source, providerName, pairs[k].correct))
  }

  /** The plans a run asks for, for the redundant query of each test case. */
  ghost function RedundantPlans(source: PlanSource, providerName: string, pairs: seq<Pair>): (plans: seq<seq<string>>)
    ensures |plans| == |pairs|
    ensures forall k | 0 <= k < |pairs| :: plans[k] == QueryExecutionPlan(source, providerName, pairs[k].redundant)
  {
    seq(|pairs|, k requires 0 <= k < |pairs| => QueryExecutionPlan(source, providerName, pairs[k].redundant))
  }

  /**
    The points a run scores on `pairs`: one per default pair with a positive
    verdict, so never more than there are test cases.
   */
  ghost function Points(source: PlanSource, providerName: string, pairs: seq<Pair>): (n: nat)
    ensures n <= |pairs|
  {
    Score(Verdicts(source, providerName, pairs))
  }

  /** A run scores every test case exactly when every test case's verdict is positive. */
  lemma PointsFull(source: PlanSource, providerName: string, pairs: seq<Pair>)
    ensures Points(source, providerName, pairs) == |pairs|
      <==> forall k | 0 <= k < |pairs| :: Verdict(source, providerName, pairs[k])
  {
    FullScore(Verdicts(source, providerName, pairs));
  }

  /** A run scores nothing exactly when every test case's verdict is negative. */
  lemma PointsZero(source: PlanSource, providerName: string, pairs: seq<Pair>)
    ensures Points(source, providerName, pairs) == 0
      <==> forall k | 0 <= k < |pairs| :: !Verdict(source, providerName, pairs[k])
  {
    ZeroScore(Verdicts(source, providerName, pairs));
  }

  /** A test case whose two default queries are the same text always scores. */
  lemma IdenticalQueriesScore(source: PlanSource, providerName: string, pairs: seq<Pair>)
    requires forall k | 0 <= k < |pairs| :: pairs[k].correct == pairs[k].redundant
    ensures Points(source, providerName, pairs) == |pairs|
  {
    forall k | 0 <= k < |pairs|
      ensures Verdict(source, providerName, pairs[k])
    {
      SameOperationsReflexive(QueryExecutionPlan(source, providerName, pairs[k].correct));
    }
    PointsFull(source, providerName, pairs);
  }

  /**
    A single test case whose plans both reduce to one table scan scores one
    point out of one.
   */
  lemma OneScanEachScores(source: PlanSource, providerName: string, pair: Pair)
    requires QueryExecutionPlan(source, providerName, pair.correct) == ["TableScan"]
    requires QueryExecutionPlan(source, providerName, pair.redundant) == ["TableScan"]
    ensures Points(source, providerName, [pair]) == 1
  {
    assert Verdict(source, providerName, pair);
  }

  /**
    When the redundant query's plan scans the table twice and the correct
    one once, the test case scores nothing: the comparison counts repeated
    operations.
   */
  lemma DuplicateScanFails(source: PlanSource, providerName: string, pair: Pair)
    requires QueryExecutionPlan(source, providerName, pair.correct) == ["TableScan"]
    requires QueryExecutionPlan(source, providerName, pair.redundant) == ["TableScan", "TableScan"]
    ensures Points(source, providerName, [pair]) == 0
  {
    SameOperationsCountsDuplicates(["TableScan"], "TableScan");
    assert ["TableScan"] + ["TableScan"] == ["TableScan", "TableScan"];
  }

  /**
    Under a provider name no engine answers to, every plan a run asks for is
    the single "not supported" line; the run stores none of them and scores
    nothing (see Benchmark.RunBenchmark).
   */
  lemma UnknownProviderPlans(source: PlanSource, providerName: string, pairs: seq<Pair>)
    requires ParseProvider(providerName).None?
    ensures forall k | 0 <= k < |pairs| ::
      && CorrectPlans(source, providerName, pairs)[k] == [NotSupported]
      && RedundantPlans(source, providerName, pairs)[k] == [NotSupported]
  {
  }

  /** `Snapshots` lists the test cases in order, one record per query. */
  lemma {:induction false} SnapshotsAt(qs: seq<Query>, k: int)
    requires AllValid(qs) && 0 <= k < |qs|
    ensures |Snapshots(qs)| == |qs|
    ensures Snapshots(qs)[k] == qs[k].Snapshot()
    decreases |qs|
  {
    var front := qs[..|qs| - 1];
    assert AllValid(front) by {
      forall q | q in front ensures q.Valid() {
        assert q in qs;
      }
    }
    if k < |qs| - 1 {
      SnapshotsAt(front, k);
    } else if front != [] {
      SnapshotsAt(front, 0);
    }
  }

  /** The default pair of each test case, in list order: what a run compares. */
  function DefaultPairs(qs: seq<Query>): (pairs: seq<Pair>)
    ensures |pairs| == |qs|
    ensures forall k | 0 <= k < |qs| :: pairs[k] == Pair(qs[k].CorrectQuery(), qs[k].RedundantQuery())
  {
    seq(|qs|, k requires 0 <= k < |qs| => Pair(qs[k].CorrectQuery(), qs[k].RedundantQuery()))
  }

  /** The pairs a run compares are the default pairs of the corpus records. */
  lemma DefaultPairsOfSnapshots(qs: seq<Query>)
    requires AllValid(qs)
    ensures |DefaultPairs(qs)| == |Snapshots(qs)|
    ensures forall k | 0 <= k < |qs| :: DefaultPairs(qs)[k] == Snapshots(qs)[k].defaults
  {
    forall k | 0 <= k < |qs|
      ensures |Snapshots(qs)| == |qs| && DefaultPairs(qs)[k] == Snapshots(qs)[k].defaults
    {
      SnapshotsAt(qs, k);
    }
    if qs == [] {
      assert |Snapshots(qs)| == 0;
    }
  }

  /**
    The plan dictionaries of a test case after a run under engine `e` stored
    both of its plans (a test case always has a dictionary per engine; a
    missing one would count as empty).
   */
  function Recorded(plans: map<Engine, map<string, seq<string>>>, e: Engine,
                    correctPlan: seq<string>, redundantPlan: seq<string>): map<Engine, map<string, seq<string>>>
  {
    var table := if e in plans then plans[e] else map[];
    plans[e := table[CorrectKey := correctPlan][RedundantKey := redundantPlan]]
  }

  /**
    Storing a test case's plans under `e` sets the "correct" and "redundant"
    entries of that engine's dictionary and leaves every other entry, and
    every other engine's dictionary, as it was.
   */
  lemma RecordedStoresBoth(plans: map<Engine, map<string, seq<string>>>, e: Engine,
                           correctPlan: seq<string>, redundantPlan: seq<string>)
    requires e in plans
    ensures var plans' := Recorded(plans, e, correctPlan, redundantPlan);
      && plans'.Keys == plans.Keys
      && (forall e' | e' in plans && e' != e :: plans'[e'] == plans[e'])
      && plans'[e].Keys == plans[e].Keys + {CorrectKey, RedundantKey}
      && plans'[e][CorrectKey] == correctPlan && plans'[e][RedundantKey] == redundantPlan
      && (forall key | key in plans[e] && key != CorrectKey && key != RedundantKey :: plans'[e][key] == plans[e][key])
  {
  }

  /** Two Set*Plan calls, for "correct" then "redundant", store exactly `Recorded`. */
  lemma RecordedInTwoSteps(plans: map<Engine, map<string, seq<string>>>, e: Engine,
                           correctPlan: seq<string>, redundantPlan: seq<string>)
    requires e in plans
    ensures var halfway := plans[e := plans[e][CorrectKey := correctPlan]];
      halfway[e := halfway[e][RedundantKey := redundantPlan]] == Recorded(plans, e, correctPlan, redundantPlan)
  {
  }

  /** Storing the same plans again changes nothing. */
  lemma RecordedIdempotent(plans: map<Engine, map<string, seq<string>>>, e: Engine,
                           correctPlan: seq<string>, redundantPlan: seq<string>)
    ensures Recorded(Recorded(plans, e, correctPlan, redundantPlan), e, correctPlan, redundantPlan)
         == Recorded(plans, e, correctPlan, redundantPlan)
  {
    var once := Recorded(plans, e, correctPlan, redundantPlan);
    assert once[e][CorrectKey := correctPlan][RedundantKey := redundantPlan] == once[e];
  }

  class Benchmark {
    var queries: Queries
    var providerName: string
    // SqlServerPoints, OraclePoints, MySqlPoints, PostgreSqlPoints
    var points: map<Engine, int>

    ghost predicate Valid()
      reads this, queries, queries.queryList
    {
      queries.Valid() && Total(points)
    }

    /**
      Reads the corpus, whose file exists and holds `lines`; every counter
      starts out as "not run", and every test case has no plan yet.
     */
    constructor (lines: seq<string>)
      ensures Valid()
      ensures fresh(queries)
      ensures forall e | e in AllEngines :: points[e] == NotRun
      ensures providerName == ""
      ensures forall q | q in queries.queryList :: fresh(q) && q.Unplanned()
      ensures Snapshots(queries.queryList) == Parse(lines)
    {
      queries := new Queries();
      providerName := "";
      points := map e | e in AllEngines :: NotRun;
      forall e: Engine ensures e in AllEngines {
        EngineIsKnown(e);
      }
      new;
      var outcome := queries.ReadQueriesFromFile(Some(lines));
      assert queries.queryList[0..] == queries.queryList;
    }

    /**
      `new Benchmark(path)`: a file that does not exist makes the reading
      of the corpus throw, so no benchmark is built.
     */
    static method Create(file: Option<seq<string>>) returns (r: Result<Benchmark>)
      ensures file.None? ==> r == Error(FileNotFound)
      ensures file.Some? ==>
        && r.Success? && fresh(r.value) && r.value.Valid() && fresh(r.value.queries)
        && (forall e | e in AllEngines :: r.value.points[e] == NotRun)
        && r.value.providerName == ""
        && (forall q | q in r.value.queries.queryList :: fresh(q) && q.Unplanned())
        && Snapshots(r.value.queries.queryList) == Parse(file.value)
    {
      if file.None? {
        return Error(FileNotFound);
      }
      var b := new Benchmark(file.value);
      r := Success(b);
    }

    /** Chooses the database system the next run asks for plans. */
    method SetDatabaseSystem(providerName: string)
      modifies this`providerName
      ensures this.providerName == providerName
    {
      this.providerName := providerName;
    }

    /**
      Runs the benchmark against the chosen system. For a known provider the
      engine's counter is reset and ends at the points of the test cases'
      default pairs, and every test case's plans are its old plans with both
      of its plans recorded under that engine; under any other provider name
      nothing changes.
     */
    method RunBenchmark(source: PlanSource)
      requires Valid()
      modifies this`points, queries.queryList`plans
      ensures Valid()
      ensures match ParseProvider(providerName)
        case Some(e) => points == old(points)[e := Points(source, providerName, DefaultPairs(queries.queryList))]
        case None => points == old(points)
      ensures forall k | 0 <= k < |queries.queryList| :: var q := queries.queryList[k];
        match ParseProvider(providerName)
        case Some(e) =>
          q.plans == Recorded(old(q.plans), e, QueryExecutionPlan(source, providerName, q.CorrectQuery()),
                              QueryExecutionPlan(source, providerName, q.RedundantQuery()))
        case None => q.plans == old(q.plans)
    {
      var qs := queries.queryList;
      var engine := ParseProvider(providerName);
      if engine.Some? {
        EngineIsKnown(engine.value);
        points := points[engine.value := 0];
      }
      RunTestCases(qs, engine, source);
      if engine.Some? {
        UpdateTwice(old(points), engine.value, 0, Points(source, providerName, DefaultPairs(qs)));
      }
    }

    /**
      The loop of `RunBenchmark`, after the reset: runs every test case of
      `qs` in order and counts, under a known engine, those whose plans hold
      the same operations.
     */
    method RunTestCases(qs: seq<Query>, engine: Option<Engine>, source: PlanSource)
      requires Total(points) && AllValid(qs)
      requires engine.Some? ==> points[engine.value] == 0
      modifies this`points, qs`plans
      ensures AllValid(qs) && Total(points)
      ensures engine.Some? ==> points == old(points)[engine.value := Points(source, providerName, DefaultPairs(qs))]
      ensures engine.None? ==> points == old(points)
      ensures forall k | 0 <= k < |qs| :: match engine
        case Some(e) =>
          qs[k].plans == Recorded(old(qs[k].plans), e, QueryExecutionPlan(source, providerName, qs[k].CorrectQuery()),
                                  QueryExecutionPlan(source, providerName, qs[k].RedundantQuery()))
        case None => qs[k].plans == old(qs[k].plans)
    {
      ghost var pairs := DefaultPairs(qs);
      ghost var verdicts := Verdicts(source, providerName, pairs);
      ghost var correctPlans := CorrectPlans(source, providerName, pairs);
      ghost var redundantPlans := RedundantPlans(source, providerName, pairs);
      ghost var initial := PlansOf(qs);
      KeptAllReflexive(qs, engine);
      if engine.Some? {
        UpdateSame(points, engine.value);
      }
      for i := 0 to |qs|
        invariant Total(points) && AllValid(qs)
        invariant KeptAll(initial, PlansOf(qs), engine)
        invariant engine.Some? ==> HoldsUpTo(PlansOf(qs), engine.value, correctPlans, redundantPlans, i)
        invariant engine.Some? ==> points == old(points)[engine.value := Score(verdicts[..i])]
        invariant engine.None? ==> points == old(points)
      {
        RunOne(qs[i], qs, i, engine, source, initial, correctPlans, redundantPlans, verdicts, old(points));
      }
      assert verdicts[..|qs|] == verdicts;
      if engine.Some? {
        PlansRecorded(qs, initial, engine.value, source, providerName, correctPlans, redundantPlans);
      }
    }

    /**
      One iteration of `RunBenchmark`'s loop, on test case `q` at index `i`:
      its plans are stored and the engine's counter is brought up to the
      score of the first `i + 1` verdicts.
     */
    method RunOne(q: Query, qs: seq<Query>, i: int, engine: Option<Engine>, source: PlanSource,
                ghost initial: seq<map<Engine, map<string, seq<string>>>>,
                ghost correctPlans: seq<seq<string>>, ghost redundantPlans: seq<seq<string>>,
                ghost verdicts: seq<bool>, ghost start: map<Engine, int>)
      requires 0 <= i < |qs| == |initial| == |correctPlans| == |redundantPlans| == |verdicts| && q == qs[i] && AllValid(qs) && Total(points)
      requires KeptAll(initial, PlansOf(qs), engine)
      requires forall k | 0 <= k < |qs| ::
        && correctPlans[k] == QueryExecutionPlan(source, providerName, qs[k].CorrectQuery())
        && redundantPlans[k] == QueryExecutionPlan(source, providerName, qs[k].RedundantQuery())
      requires forall k | 0 <= k < |qs| :: verdicts[k] == SameOperations(correctPlans[k], redundantPlans[k])
      requires engine.Some? ==> HoldsUpTo(PlansOf(qs), engine.value, correctPlans, redundantPlans, i)
      requires engine.Some? ==> points == start[engine.value := Score(verdicts[..i])]
      requires engine.None? ==> points == start
      modifies this`points, q`plans
      ensures AllValid(qs) && Total(points)
      ensures KeptAll(initial, PlansOf(qs), engine)
      ensures engine.Some? ==> HoldsUpTo(PlansOf(qs), engine.value, correctPlans, redundantPlans, i + 1)
      ensures engine.Some? ==> points == start[engine.value := Score(verdicts[..i + 1])]
      ensures engine.None? ==> points == start
    {
      var scored := RunTestCase(q, qs, i, engine, source, providerName, initial, correctPlans, redundantPlans);
      Tally(engine, scored, verdicts, i, start);
    }

    /**
      The counting step of `RunBenchmark`'s loop: the engine's counter goes
      up by one when test case `i` scored, so that it keeps holding the
      score of the verdicts so far.
     */
    method Tally(engine: Option<Engine>, scored: bool, ghost verdicts: seq<bool>, ghost i: int, ghost start: map<Engine, int>)
      requires 0 <= i < |verdicts| && (scored <==> engine.Some? && verdicts[i]) && Total(points)
      requires engine.Some? ==> points == start[engine.value := Score(verdicts[..i])]
      requires engine.None? ==> points == start
      modifies this`points
      ensures Total(points)
      ensures engine.Some? ==> points == start[engine.value := Score(verdicts[..i + 1])]
      ensures engine.None? ==> points == start
    {
      ScorePrefix(verdicts, i);
      if scored {
        UpdateTwice(start, engine.value, Score(verdicts[..i]), Score(verdicts[..i + 1]));
        points := points[engine.value := points[engine.value] + 1];
      }
    }
  }

  /**
    One iteration of the run, on the test case `q` at index `i`: asks for
    the plans of its default queries and, under a known engine, stores them
    and reports whether they hold the same operations.
   */
  method RunTestCase(q: Query, qs: seq<Query>, i: int, engine: Option<Engine>, source: PlanSource, providerName: string,
                     ghost initial: seq<map<Engine, map<string, seq<string>>>>,
                     ghost correctPlans: seq<seq<string>>, ghost redundantPlans: seq<seq<string>>)
    returns (scored: bool)
    requires 0 <= i < |qs| == |initial| == |correctPlans| == |redundantPlans| && q == qs[i] && AllValid(qs)
    requires KeptAll(initial, PlansOf(qs), engine)
    requires forall k | 0 <= k < |qs| ::
      && correctPlans[k] == QueryExecutionPlan(source, providerName, qs[k].CorrectQuery())
      && redundantPlans[k] == QueryExecutionPlan(source, providerName, qs[k].RedundantQuery())
    requires engine.Some? ==> HoldsUpTo(PlansOf(qs), engine.value, correctPlans, redundantPlans, i)
    modifies q`plans
    ensures AllValid(qs)
    ensures KeptAll(initial, PlansOf(qs), engine)
    ensures engine.Some? ==> HoldsUpTo(PlansOf(qs), engine.value, correctPlans, redundantPlans, i + 1)
    ensures scored <==> engine.Some? && SameOperations(correctPlans[i], redundantPlans[i])
  {
    var correctPlan := GetQueryExecutionPlan(source, providerName, q.CorrectQuery());
    var redundantPlan := GetQueryExecutionPlan(source, providerName, q.RedundantQuery());
    scored := false;
    match engine
    case Some(e) =>
      StorePlans(q, qs, i, e, correctPlan, redundantPlan, initial, correctPlans, redundantPlans);
      scored := SameOperations(correctPlan, redundantPlan);
    case None =>
  }

  /**
    Stores the plans of test case `q`, at index `i`, under engine `e`: two
    Set*Plan calls that leave `q.plans` as `Recorded` describes. Every
    occurrence of `q` in `qs` then holds both plans.
   */
  method StorePlans(q: Query, qs: seq<Query>, i: int, e: Engine, correctPlan: seq<string>, redundantPlan: seq<string>,
                    ghost initial: seq<map<Engine, map<string, seq<string>>>>,
                    ghost correctPlans: seq<seq<string>>, ghost redundantPlans: seq<seq<string>>)
    requires 0 <= i < |qs| == |initial| == |correctPlans| == |redundantPlans| && q == qs[i] && AllValid(qs)
    requires forall k | 0 <= k < |qs| && qs[k] == q :: correctPlans[k] == correctPlan && redundantPlans[k] == redundantPlan
    requires KeptAll(initial, PlansOf(qs), Some(e))
    requires HoldsUpTo(PlansOf(qs), e, correctPlans, redundantPlans, i)
    modifies q`plans
    ensures AllValid(qs)
    ensures q.plans == Recorded(old(q.plans), e, correctPlan, redundantPlan)
    ensures KeptAll(initial, PlansOf(qs), Some(e))
    ensures HoldsUpTo(PlansOf(qs), e, correctPlans, redundantPlans, i + 1)
  {
    ghost var before := PlansOf(qs);
    assert q.Valid();
    StoreBoth(q, e, correctPlan, redundantPlan);
    ghost var after := PlansOf(qs);
    assert forall k | 0 <= k < |qs| ::
      || after[k] == before[k]
      || (before[k] == before[i] && after[k] == after[i] && correctPlans[k] == correctPlans[i] && redundantPlans[k] == redundantPlans[i]);
    StoreStep(initial, before, after, i, e, correctPlans, redundantPlans);
  }

  /** The two Set*Plan calls of one iteration, for "correct" then "redundant". */
  method StoreBoth(q: Query, e: Engine, correctPlan: seq<string>, redundantPlan: seq<string>)
    requires q.Valid()
    modifies q`plans
    ensures q.Valid()
    ensures q.plans == Recorded(old(q.plans), e, correctPlan, redundantPlan)
  {
    ghost var plans0 := q.plans;
    q.SetPlan(e, CorrectKey, correctPlan);
    q.SetPlan(e, RedundantKey, redundantPlan);
    RecordedInTwoSteps(plans0, e, correctPlan, redundantPlan);
  }

  /**
    Storing the plans of the test case at index `i`, and of every other
    occurrence of the same test case, keeps every dictionary within what a
    run may do and extends the stored prefix by one.
   */
  lemma StoreStep(initial: seq<map<Engine, map<string, seq<string>>>>,
                  before: seq<map<Engine, map<string, seq<string>>>>, after: seq<map<Engine, map<string, seq<string>>>>,
                  i: int, e: Engine, correctPlans: seq<seq<string>>, redundantPlans: seq<seq<string>>)
    requires 0 <= i < |before| == |after| == |correctPlans| == |redundantPlans|
    requires KeptAll(initial, before, Some(e)) && HoldsUpTo(before, e, correctPlans, redundantPlans, i)
    requires after[i] == Recorded(before[i], e, correctPlans[i], redundantPlans[i])
    requires forall k | 0 <= k < |after| ::
      || after[k] == before[k]
      || (before[k] == before[i] && after[k] == after[i] && correctPlans[k] == correctPlans[i] && redundantPlans[k] == redundantPlans[i])
    ensures KeptAll(initial, after, Some(e)) && HoldsUpTo(after, e, correctPlans, redundantPlans, i + 1)
  {
    forall k | 0 <= k < |after|
      ensures Kept(initial[k], after[k], e)
      ensures k <= i ==> Holds(after[k], e, correctPlans[k], redundantPlans[k])
    {
      assert Kept(initial[k], before[k], e);
      if k == i || after[k] != before[k] {
        KeptRecorded(initial[k], before[k], e, correctPlans[k], redundantPlans[k]);
      }
    }
  }

  /** Extending the scored prefix by one verdict adds that verdict's point. */
  lemma ScorePrefix(verdicts: seq<bool>, i: int)
    requires 0 <= i < |verdicts|
    ensures Score(verdicts[..i + 1]) == Score(verdicts[..i]) + if verdicts[i] then 1 else 0
  {
    assert verdicts[..i + 1][..i] == verdicts[..i];
  }

  /** A second update of the same key overrides the first. */
  lemma UpdateTwice<K, V>(m: map<K, V>, k: K, first: V, second: V)
    ensures m[k := first][k := second] == m[k := second]
  {
  }

  /** Updating a key to its own value changes nothing. */
  lemma UpdateSame<K, V>(m: map<K, V>, k: K)
    requires k in m
    ensures m[k := m[k]] == m
  {
  }

  /** The plan dictionaries of the test cases, in list order. */
  ghost function PlansOf(qs: seq<Query>): (r: seq<map<Engine, map<string, seq<string>>>>)
    reads qs`plans
    ensures |r| == |qs| && forall k | 0 <= k < |qs| :: r[k] == qs[k].plans
  {
    if qs == [] then [] else PlansOf(qs[..|qs| - 1]) + [qs[|qs| - 1].plans]
  }

  /** Engine `e`'s plan dictionary holds both plans of a test case. */
  predicate Holds(plans: map<Engine, map<string, seq<string>>>, e: Engine, correctPlan: seq<string>, redundantPlan: seq<string>) {
    && e in plans
    && CorrectKey in plans[e] && plans[e][CorrectKey] == correctPlan
    && RedundantKey in plans[e] && plans[e][RedundantKey] == redundantPlan
  }

  /**
    `now` differs from `before` at most in the "correct" and "redundant"
    entries of engine `e`'s dictionary.
   */
  ghost predicate Kept(before: map<Engine, map<string, seq<string>>>, now: map<Engine, map<string, seq<string>>>, e: Engine) {
    && now.Keys == before.Keys && e in before
    && (forall e' | e' in before && e' != e :: now[e'] == before[e'])
    && before[e].Keys <= now[e].Keys <= before[e].Keys + {CorrectKey, RedundantKey}
    && (forall key | key in before[e] && key != CorrectKey && key != RedundantKey :: now[e][key] == before[e][key])
  }

  /** What a run may do to a test case's plans: `Kept` under a known engine, nothing otherwise. */
  ghost predicate KeptUnder(before: map<Engine, map<string, seq<string>>>, now: map<Engine, map<string, seq<string>>>,
                            engine: Option<Engine>) {
    match engine
    case Some(e) => Kept(before, now, e)
    case None => now == before
  }

  /** Every dictionary in `now` is what a run under `engine` may make of the one at the same index in `before`. */
  ghost predicate KeptAll(before: seq<map<Engine, map<string, seq<string>>>>, now: seq<map<Engine, map<string, seq<string>>>>,
                          engine: Option<Engine>) {
    |before| == |now| && forall k | 0 <= k < |now| :: KeptUnder(before[k], now[k], engine)
  }

  /** The first `n` dictionaries in `plans` hold both plans of their test cases under `e`. */
  predicate HoldsUpTo(plans: seq<map<Engine, map<string, seq<string>>>>, e: Engine,
                      correctPlans: seq<seq<string>>, redundantPlans: seq<seq<string>>, n: int) {
    && 0 <= n <= |plans| && n <= |correctPlans| && n <= |redundantPlans|
    && forall k | 0 <= k < n :: Holds(plans[k], e, correctPlans[k], redundantPlans[k])
  }

  /**
    After a run under `e` has stored every test case's plans, and kept
    everything else, each dictionary is exactly its `Recorded` successor.
   */
  lemma RecordedEach(before: seq<map<Engine, map<string, seq<string>>>>, now: seq<map<Engine, map<string, seq<string>>>>,
                     e: Engine, correctPlans: seq<seq<string>>, redundantPlans: seq<seq<string>>)
    requires KeptAll(before, now, Some(e)) && HoldsUpTo(now, e, correctPlans, redundantPlans, |now|)
    ensures forall k | 0 <= k < |now| :: e in before[k] && now[k] == Recorded(before[k], e, correctPlans[k], redundantPlans[k])
  {
    forall k | 0 <= k < |now|
      ensures e in before[k] && now[k] == Recorded(before[k], e, correctPlans[k], redundantPlans[k])
    {
      KeptAndHoldsIsRecorded(before[k], now[k], e, correctPlans[k], redundantPlans[k]);
    }
  }

  /**
    `RecordedEach` for the test cases themselves: once the run has stored
    every test case's plans, each test case's dictionaries are `Recorded`
    from those in `initial`.
   */
  lemma PlansRecorded(qs: seq<Query>, initial: seq<map<Engine, map<string, seq<string>>>>, e: Engine,
                      source: PlanSource, providerName: string,
                      correctPlans: seq<seq<string>>, redundantPlans: seq<seq<string>>)
    requires |initial| == |qs| == |correctPlans| == |redundantPlans|
    requires KeptAll(initial, PlansOf(qs), Some(e)) && HoldsUpTo(PlansOf(qs), e, correctPlans, redundantPlans, |qs|)
    requires forall k | 0 <= k < |qs| ::
      && correctPlans[k] == QueryExecutionPlan(source, providerName, qs[k].CorrectQuery())
      && redundantPlans[k] == QueryExecutionPlan(source, providerName, qs[k].RedundantQuery())
    ensures forall k | 0 <= k < |qs| ::
      qs[k].plans == Recorded(initial[k], e, QueryExecutionPlan(source, providerName, qs[k].CorrectQuery()),
                              QueryExecutionPlan(source, providerName, qs[k].RedundantQuery()))
  {
    RecordedEach(initial, PlansOf(qs), e, correctPlans, redundantPlans);
  }

  /** Before a run, every test case's dictionaries keep themselves. */
  lemma KeptAllReflexive(qs: seq<Query>, engine: Option<Engine>)
    requires AllValid(qs)
    ensures KeptAll(PlansOf(qs), PlansOf(qs), engine)
  {
    var plans := PlansOf(qs);
    forall k | 0 <= k < |qs|
      ensures KeptUnder(plans[k], plans[k], engine)
    {
      assert qs[k] in qs;
      if engine.Some? {
        KeptReflexive(plans[k], engine.value);
      }
    }
  }

  /** A dictionary keeps itself. */
  lemma KeptReflexive(plans: map<Engine, map<string, seq<string>>>, e: Engine)
    requires e in plans
    ensures Kept(plans, plans, e)
  {
  }

  /** Storing both plans of a test case keeps everything else. */
  lemma KeptRecorded(before: map<Engine, map<string, seq<string>>>, now: map<Engine, map<string, seq<string>>>, e: Engine,
                     correctPlan: seq<string>, redundantPlan: seq<string>)
    requires Kept(before, now, e)
    ensures Kept(before, Recorded(now, e, correctPlan, redundantPlan), e)
    ensures Holds(Recorded(now, e, correctPlan, redundantPlan), e, correctPlan, redundantPlan)
  {
  }

  /**
    A dictionary that kept everything else and holds both plans is exactly
    the one `Recorded` describes.
   */
  lemma KeptAndHoldsIsRecorded(before: map<Engine, map<string, seq<string>>>, now: map<Engine, map<string, seq<string>>>,
                               e: Engine, correctPlan: seq<string>, redundantPlan: seq<string>)
    requires Kept(before, now, e) && Holds(now, e, correctPlan, redundantPlan)
    ensures now == Recorded(before, e, correctPlan, redundantPlan)
  {
    var r := Recorded(before, e, correctPlan, redundantPlan);
    assert now[e] == r[e];
    assert forall e' | e' in now :: now[e'] == r[e'];
  }
}
