/**
  One benchmark test case: a default pair of queries (the correct one and
  the one with redundancy), optional per-engine override pairs, the plans
  a run stored for each engine and the per-engine comparison flags.
 */
module QueryRecord {
  import opened Wrappers
  import opened Engines

  const CorrectKey: string := "correct"
  const RedundantKey: string := "redundant"

  /** A correct query and its redundant counterpart. */
  datatype Pair = Pair(correct: string, redundant: string)

  /** The value of a test case as the corpus defines it (no plans, no flags). */
  datatype Record = Record(
    category: string,
    description: string,
    source: string,
    reference: string,
    defaults: Pair,
    overrides: map<Engine, Pair>)

  /**
    The default query dictionary: the constructor writes it with both keys
    and nothing writes it again.
   */
  type DefaultQueries = d: map<string, string> | CorrectKey in d && RedundantKey in d
    witness map[CorrectKey := "", RedundantKey := ""]

  /** A per-engine map with an entry for every engine. */
  predicate Total<V>(m: map<Engine, V>) {
    forall e: Engine :: e in m
  }

  /** A query dictionary that is empty or holds exactly the two keys. */
  ghost predicate EmptyOrPair(d: map<string, string>) {
    d == map[] || (CorrectKey in d && RedundantKey in d)
  }

  /** The override pairs held by the non-empty engine dictionaries. */
  ghost function OverridesOf(d: map<Engine, map<string, string>>): map<Engine, Pair>
    requires forall e | e in d :: EmptyOrPair(d[e])
  {
    map e | e in d && d[e] != map[] ::
      assert EmptyOrPair(d[e]) && CorrectKey in d[e].Keys && RedundantKey in d[e].Keys;
      Pair(d[e][CorrectKey], d[e][RedundantKey])
  }

  /** Filling an empty engine dictionary adds exactly that engine's override. */
  lemma OverridesOfFill(d: map<Engine, map<string, string>>, e: Engine, correctQuery: string, redundantQuery: string)
    requires forall e | e in d :: EmptyOrPair(d[e])
    requires e in d && d[e] == map[]
    ensures var d' := d[e := map[CorrectKey := correctQuery, RedundantKey := redundantQuery]];
      OverridesOf(d') == OverridesOf(d)[e := Pair(correctQuery, redundantQuery)]
  {
  }

  class Query {
    var category: string
    var description: string
    var source: string
    var reference: string
    const defaultQueries: DefaultQueries
    // one query dictionary per engine (SqlServerQueries, OracleQueries, ...)
    var engineQueries: map<Engine, map<string, string>>
    // one plan dictionary per engine (SqlServerPlan, OraclePlan, ...)
    var plans: map<Engine, map<string, seq<string>>>
    // SqlServerComparison, OracleComparison, MySqlComparison, PostgreSqlComparison
    var comparison: map<Engine, bool>

    /** The query dictionaries hold what the getters look up. */
    ghost predicate QueriesValid()
      reads this`engineQueries
    {
      && Total(engineQueries)
      && forall e | e in engineQueries :: EmptyOrPair(engineQueries[e])
    }

    ghost predicate Valid()
      reads this`engineQueries, this`plans, this`comparison
    {
      QueriesValid() && Total(plans) && Total(comparison)
    }

    /** No engine has stored a plan yet and every comparison flag is false. */
    ghost predicate Unplanned()
      reads this`plans, this`comparison
    {
      forall e: Engine :: e in plans && plans[e] == map[] && e in comparison && !comparison[e]
    }

    /** The test case as a value: the overrides are the non-empty engine dictionaries. */
    ghost function Snapshot(): Record
      reads this`category, this`description, this`source, this`reference, this`engineQueries
      requires QueriesValid()
    {
      Record(category, description, source, reference,
        Pair(CorrectQuery(), RedundantQuery()),
        OverridesOf(engineQueries))
    }

    constructor (category: string, description: string, correctQuery: string, redundantQuery: string)
      ensures Valid()
      ensures Snapshot() == Record(category, description, "", "", Pair(correctQuery, redundantQuery), map[])
      ensures forall e | e in AllEngines :: engineQueries[e] == map[] && plans[e] == map[]
      ensures forall e | e in AllEngines :: !comparison[e]
      ensures Unplanned()
    {
      this.category := category;
      this.description := description;
      source := "";
      reference := "";
      defaultQueries := map[CorrectKey := correctQuery, RedundantKey := redundantQuery];
      engineQueries := map e | e in AllEngines :: map[];
      plans := map e | e in AllEngines :: map[];
      comparison := map e | e in AllEngines :: false;
      forall e: Engine ensures e in AllEngines {
        EngineIsKnown(e);
      }
    }

    /**
      Set*Queries: adds both keys to the engine's dictionary; when the
      dictionary already holds them, the first `Add` throws and nothing
      changes.
     */
    method SetEngineQueries(e: Engine, correctQuery: string, redundantQuery: string)
      returns (outcome: Outcome)
      requires Valid()
      modifies this`engineQueries
      ensures Valid()
      ensures old(engineQueries[e]) == map[] ==>
        outcome == Pass
        && engineQueries == old(engineQueries)[e := map[CorrectKey := correctQuery, RedundantKey := redundantQuery]]
        && OverridesOf(engineQueries) == OverridesOf(old(engineQueries))[e := Pair(correctQuery, redundantQuery)]
      ensures old(engineQueries[e]) != map[] ==>
        outcome == Fail(DuplicateKey) && engineQueries == old(engineQueries)
    {
      EngineIsKnown(e);
      if CorrectKey in engineQueries[e] {
        return Fail(DuplicateKey);
      }
      OverridesOfFill(engineQueries, e, correctQuery, redundantQuery);
      engineQueries := engineQueries[e := map[CorrectKey := correctQuery, RedundantKey := redundantQuery]];
      outcome := Pass;
    }

    method AddSourceAndReference(source: string, reference: string)
      requires Valid()
      modifies this`source, this`reference
      ensures Valid()
      ensures this.source == source && this.reference == reference
    {
      this.source := source;
      this.reference := reference;
    }

    /** GetCorrectQuery(): the default correct query. */
    function CorrectQuery(): string {
      defaultQueries[CorrectKey]
    }

    /** GetRedundantQuery(): the default redundant query. */
    function RedundantQuery(): string {
      defaultQueries[RedundantKey]
    }

    /** The pair a provider name resolves to: its engine's override, else the default. */
    ghost function PairFor(providerName: string): (p: Pair)
      reads this`category, this`description, this`source, this`reference, this`engineQueries
      requires QueriesValid()
      ensures ParseProvider(providerName).None? ==> p == Snapshot().defaults
      ensures forall e | ProviderName(e) == providerName ::
        p == if e in Snapshot().overrides then Snapshot().overrides[e] else Snapshot().defaults
    {
      var r := Snapshot();
      match ParseProvider(providerName)
      case Some(e) => if e in r.overrides then r.overrides[e] else r.defaults
      case None => r.defaults
    }

    /** GetCorrectQuery(providerName). */
    function CorrectQueryFor(providerName: string): (q: string)
      reads this`category, this`description, this`source, this`reference, this`engineQueries
      requires QueriesValid()
      ensures q == PairFor(providerName).correct
    {
      match ParseProvider(providerName)
      case Some(e) =>
        if engineQueries[e] == map[] then defaultQueries[CorrectKey] else engineQueries[e][CorrectKey]
      case None => defaultQueries[CorrectKey]
    }

    /** GetRedundantQuery(providerName). */
    function RedundantQueryFor(providerName: string): (q: string)
      reads this`category, this`description, this`source, this`reference, this`engineQueries
      requires QueriesValid()
      ensures q == PairFor(providerName).redundant
    {
      match ParseProvider(providerName)
      case Some(e) =>
        if engineQueries[e] == map[] then defaultQueries[RedundantKey] else engineQueries[e][RedundantKey]
      case None => defaultQueries[RedundantKey]
    }

    /** Set*Plan: overwrites one key of one engine's plan dictionary. */
    method SetPlan(e: Engine, key: string, plan: seq<string>)
      requires Valid()
      modifies this`plans
      ensures Valid()
      ensures plans == old(plans)[e := old(plans[e])[key := plan]]
    {
      EngineIsKnown(e);
      plans := plans[e := plans[e][key := plan]];
    }

    /** The setter of an engine's comparison flag. */
    method SetComparison(e: Engine, same: bool)
      requires Valid()
      modifies this`comparison
      ensures Valid()
      ensures comparison == old(comparison)[e := same]
    {
      EngineIsKnown(e);
      comparison := comparison[e := same];
    }
  }
}
