/**
  How one execution plan is obtained for a query text: per-engine retrieval
  from the database (an external boundary given as `PlanSource`), the
  reduction of a SQL Server XML plan to its physical operators, the MySQL
  row-to-token rule, the Oracle query cleaning, and the fallback for a
  provider the program does not support.
 */
module Plans {
  import opened Wrappers
  import opened Engines
  import opened Text

  /**
    One element of a parsed XML plan: its local name and the value of its
    `PhysicalOp` attribute, if it has one.
   */
  datatype Element = Element(localName: string, physicalOp: Option<string>)

  /**
    What the databases answer. The connections, commands and readers behind
    these functions are outside the model; each function is the value the
    program reads back for the command text it sends.
   */
  datatype PlanSource = PlanSource(
    // SQL Server: first column of the first row returned for the query under SET SHOWPLAN_XML ON, or "" when there is no row
    showPlanXml: string -> string,
    // the descendants of the parsed XML document, in document order
    xmlDescendants: string -> seq<Element>,
    // MySQL: the `type` column of each row returned for the command, None where it is NULL
    mySqlTypeColumn: string -> seq<Option<string>>,
    // PostgreSQL: the first column of each row returned for the command
    postgreRows: string -> seq<string>,
    // Oracle: the PLAN_TABLE_OUTPUT lines read back after executing the command
    oracleRows: string -> seq<string>
  )

  const NotSupported: string := "Execution plan not supported for this provider."

  predicate IsRelOp(e: Element) {
    e.localName == "RelOp"
  }

  /** The `PhysicalOp` values of the `RelOp` elements, in document order. */
  function PhysicalOps(elements: seq<Element>): (ops: seq<string>)
    ensures |ops| <= |elements|
  {
    if elements == [] then []
    else
      var last := elements[|elements| - 1];
      PhysicalOps(elements[..|elements| - 1])
        + (if IsRelOp(last) && last.physicalOp.Some? then [last.physicalOp.value] else [])
  }

  /** Extraction distributes over concatenation: document order is kept. */
  lemma {:induction false} PhysicalOpsAppend(xs: seq<Element>, ys: seq<Element>)
    ensures PhysicalOps(xs + ys) == PhysicalOps(xs) + PhysicalOps(ys)
    decreases |ys|
  {
    if ys != [] {
      var zs := xs + ys;
      assert zs[..|zs| - 1] == xs + ys[..|ys| - 1];
      PhysicalOpsAppend(xs, ys[..|ys| - 1]);
    } else {
      assert xs + ys == xs;
    }
  }

  /**
    An operator name is extracted exactly when some `RelOp` element carries
    it as its `PhysicalOp`; elements of other names, and `RelOp` elements
    without the attribute, contribute nothing.
   */
  lemma {:induction false} PhysicalOpsMembers(elements: seq<Element>, op: string)
    ensures op in PhysicalOps(elements) <==> Element("RelOp", Some(op)) in elements
    decreases |elements|
  {
    if elements != [] {
      var init := elements[..|elements| - 1];
      PhysicalOpsMembers(init, op);
      assert elements == init + [elements[|elements| - 1]];
    }
  }

  /** The operations of an XML plan: none for an empty plan text. */
  function XmlPlanOperations(xml: string, descendants: string -> seq<Element>): seq<string> {
    if xml == "" then [] else PhysicalOps(descendants(xml))
  }

  /** The list-appending loop of the program, proved against `XmlPlanOperations`. */
  method ParseXmlPlanToOperations(xml: string, descendants: string -> seq<Element>)
    returns (operations: seq<string>)
    ensures operations == XmlPlanOperations(xml, descendants)
    ensures xml == "" ==> operations == []
  {
    operations := [];
    if xml != "" {
      var elements := descendants(xml);
      for i := 0 to |elements|
        invariant operations == PhysicalOps(elements[..i])
      {
        var relOp := elements[i];
        assert elements[..i + 1][..i] == elements[..i];
        if IsRelOp(relOp) {
          match relOp.physicalOp
          case Some(name) => operations := operations + [name];
          case None =>
        }
      }
      assert elements[..|elements|] == elements;
    }
  }

  /** The token one MySQL EXPLAIN row contributes: its `type`, or "Unknown" when NULL. */
  function MySqlToken(typeColumn: Option<string>): (token: string)
    ensures typeColumn.None? ==> token == "Unknown"
    ensures typeColumn.Some? ==> token == typeColumn.value
  {
    match typeColumn
    case Some(t) => t
    case None => "Unknown"
  }

  /** One token per MySQL EXPLAIN row, in row order. */
  function MySqlOperations(rows: seq<Option<string>>): (ops: seq<string>)
    ensures |ops| == |rows|
    ensures forall k | 0 <= k < |rows| :: ops[k] == MySqlToken(rows[k])
  {
    if rows == [] then [] else [MySqlToken(rows[0])] + MySqlOperations(rows[1..])
  }

  /**
    The text Oracle is asked to explain: the part before the first `;`, with
    each line break turned into a space and each "as " removed.
   */
  function CleanOracleQuery(query: string): (cleaned: string)
    ensures ';' !in cleaned && '\n' !in cleaned
    ensures |cleaned| <= |query|
  {
    var parts := Split(query, ';');
    var joined := Replace(parts[0], "\n", " ");
    var cleaned := Replace(joined, "as ", "");
    assert ';' !in joined by {
      if ';' in joined { ReplaceChars(parts[0], "\n", " ", ';'); }
    }
    assert '\n' !in joined by { ReplaceRemovesChar(parts[0], '\n', " "); }
    assert ';' !in cleaned by {
      if ';' in cleaned { ReplaceChars(joined, "as ", "", ';'); }
    }
    assert '\n' !in cleaned by {
      if '\n' in cleaned { ReplaceChars(joined, "as ", "", '\n'); }
    }
    assert |parts[0]| <= |query| by {
      if |parts| > 1 { SecondField(query, ';'); }
      else { assert Join(parts, ';') == parts[0]; }
    }
    ReplaceSameLength(parts[0], "\n", " ");
    ReplaceNoLonger(joined, "as ", "");
    cleaned
  }

  /** A single-statement query with no line break and no "as " is sent unchanged. */
  lemma CleanOracleQueryIdentity(query: string)
    requires ';' !in query && '\n' !in query && !Occurs(query, "as ")
    ensures CleanOracleQuery(query) == query
  {
    var parts := Split(query, ';');
    assert |parts| == 1 && Join(parts, ';') == parts[0];
    assert !Occurs(query, "\n") by {
      if Occurs(query, "\n") {
        var i :| OccursAt(query, "\n", i);
        OccurrenceHoldsChar(query, '\n', i);
      }
    }
    ReplaceAbsent(query, "\n", " ");
    ReplaceAbsent(query, "as ", "");
  }

  /** The operations an engine reports for a query text. */
  function EnginePlan(source: PlanSource, e: Engine, query: string): seq<string> {
    match e
    case SqlServer => XmlPlanOperations(source.showPlanXml(query), source.xmlDescendants)
    case MySql => MySqlOperations(source.mySqlTypeColumn("EXPLAIN " + query))
    case PostgreSql => source.postgreRows("EXPLAIN " + query)
    case Oracle => source.oracleRows("EXPLAIN PLAN FOR " + CleanOracleQuery(query))
  }

  /**
    The plan for a query under a provider name: the engine's plan for a
    known provider, the single "not supported" line otherwise.
   */
  function QueryExecutionPlan(source: PlanSource, providerName: string, query: string): (plan: seq<string>)
    ensures ParseProvider(providerName).None? ==> plan == [NotSupported]
    ensures forall e: Engine :: providerName == ProviderName(e) ==> plan == EnginePlan(source, e, query)
  {
    match ParseProvider(providerName)
    case Some(e) => EnginePlan(source, e, query)
    case None => [NotSupported]
  }

  /** The dispatch of the program, proved against `QueryExecutionPlan`. */
  method GetQueryExecutionPlan(source: PlanSource, providerName: string, query: string)
    returns (executionPlan: seq<string>)
    ensures executionPlan == QueryExecutionPlan(source, providerName, query)
  {
    match ParseProvider(providerName)
    case Some(SqlServer) =>
      executionPlan := ParseXmlPlanToOperations(source.showPlanXml(query), source.xmlDescendants);
    case Some(Oracle) =>
      executionPlan := source.oracleRows("EXPLAIN PLAN FOR " + CleanOracleQuery(query));
    case Some(MySql) =>
      executionPlan := MySqlOperations(source.mySqlTypeColumn("EXPLAIN " + query));
    case Some(PostgreSql) =>
      executionPlan := source.postgreRows("EXPLAIN " + query);
    case None =>
      executionPlan := [NotSupported];
  }
}
