/**
  The test corpus: the line-driven parser of the annotated query file and
  the list of test cases it fills.

  A line starting with `-- end` closes the test case under construction;
  `-- Category:`, `-- Source:`, `-- Reference:`, `-- Description:` and
  `-- Version:` lines set a field; any other line that is not blank is
  appended, with a line break, to the query buffer the current version
  names, and dropped when the version names none.
 */
module Corpus {
  import opened Wrappers
  import opened Engines
  import opened Text
  import opened QueryRecord

  // ---------------------------------------------------------------------
  // Query buffers and the `Version:` names that select them
  // ---------------------------------------------------------------------

  datatype Kind = Correct | Redundant
  datatype Target = Default | Override(engine: Engine)

  /** One of the ten query buffers: the default or an engine's, correct or redundant. */
  datatype Bucket = Bucket(target: Target, kind: Kind)

  /**
    The (lower-case) `Version:` value that selects a buffer. The corpus
    calls the redundant query "error" and PostgreSQL "postgre".
   */
  function VersionName(b: Bucket): string {
    match b
    case Bucket(Default, Redundant) => "error"
    case Bucket(Default, Correct) => "correct"
    case Bucket(Override(SqlServer), Redundant) => "sqlserver error"
    case Bucket(Override(SqlServer), Correct) => "sqlserver correct"
    case Bucket(Override(Oracle), Redundant) => "oracle error"
    case Bucket(Override(Oracle), Correct) => "oracle correct"
    case Bucket(Override(PostgreSql), Redundant) => "postgre error"
    case Bucket(Override(PostgreSql), Correct) => "postgre correct"
    case Bucket(Override(MySql), Redundant) => "mysql error"
    case Bucket(Override(MySql), Correct) => "mysql correct"
  }

  /**
    The buffer the `switch (version)` appends to: the one whose name is
    exactly `version`, or None when no case matches.
   */
  function BucketOf(version: string): (r: Option<Bucket>)
    ensures r.Some? ==> VersionName(r.value) == version
    ensures r.None? ==> forall b: Bucket :: VersionName(b) != version
  {
    if version == "error" then Some(Bucket(Default, Redundant))
    else if version == "correct" then Some(Bucket(Default, Correct))
    else if version == "sqlserver error" then Some(Bucket(Override(SqlServer), Redundant))
    else if version == "sqlserver correct" then Some(Bucket(Override(SqlServer), Correct))
    else if version == "oracle error" then Some(Bucket(Override(Oracle), Redundant))
    else if version == "oracle correct" then Some(Bucket(Override(Oracle), Correct))
    else if version == "postgre error" then Some(Bucket(Override(PostgreSql), Redundant))
    else if version == "postgre correct" then Some(Bucket(Override(PostgreSql), Correct))
    else if version == "mysql error" then Some(Bucket(Override(MySql), Redundant))
    else if version == "mysql correct" then Some(Bucket(Override(MySql), Correct))
    else None
  }

  /** Each buffer has its own name, and the name selects it. */
  lemma BucketOfVersionName(b: Bucket)
    ensures BucketOf(VersionName(b)) == Some(b)
  {
  }

  /** The text of a buffer; a buffer never written to is "". */
  function Buffer(buffers: map<Bucket, string>, b: Bucket): string {
    if b in buffers then buffers[b] else ""
  }

  // ---------------------------------------------------------------------
  // The parser as a function of the lines read so far
  // ---------------------------------------------------------------------

  const EndPrefix: string := "-- end"
  const CategoryPrefix: string := "-- Category:"
  const SourcePrefix: string := "-- Source:"
  const ReferencePrefix: string := "-- Reference:"
  const DescriptionPrefix: string := "-- Description:"
  const VersionPrefix: string := "-- Version:"

  /** The parser's local variables between two lines. */
  datatype Accumulator = Accumulator(
    category: string,
    source: string,
    reference: string,
    description: string,
    version: string,
    buffers: map<Bucket, string>)

  const Initial: Accumulator := Accumulator("", "", "", "", "", map[])

  /** The state after an `-- end` line: everything cleared except the category. */
  function Reset(acc: Accumulator): Accumulator {
    Initial.(category := acc.category)
  }

  /** What the parser has built: the variables and the test cases closed so far. */
  datatype ParseState = ParseState(acc: Accumulator, records: seq<Record>)

  predicate IsDirective(line: string) {
    || StartsWith(line, EndPrefix)
    || StartsWith(line, CategoryPrefix)
    || StartsWith(line, SourcePrefix)
    || StartsWith(line, ReferencePrefix)
    || StartsWith(line, DescriptionPrefix)
    || StartsWith(line, VersionPrefix)
  }

  /** A line that goes to a query buffer. */
  predicate IsContent(line: string) {
    !IsDirective(line) && !IsNullOrWhiteSpace(line)
  }

  /** `line.Split(':')[1].Trim()` for a line that starts with a directive prefix. */
  function DirectiveValue(line: string, prefix: string): string
    requires StartsWith(line, prefix) && ':' in prefix
  {
    assert ':' in line by {
      var k :| 0 <= k < |prefix| && prefix[k] == ':';
      assert line[k] == line[..|prefix|][k];
    }
    Trim(Split(line, ':')[1])
  }

  /** Both of an engine's buffers hold text. */
  predicate Complete(buffers: map<Bucket, string>, e: Engine) {
    Buffer(buffers, Bucket(Override(e), Redundant)) != "" && Buffer(buffers, Bucket(Override(e), Correct)) != ""
  }

  /** The overrides of a closed test case: one per engine whose two buffers hold text. */
  function OverridesFrom(buffers: map<Bucket, string>): map<Engine, Pair> {
    map e | e in AllEngines && Complete(buffers, e) ::
      Pair(Buffer(buffers, Bucket(Override(e), Correct)), Buffer(buffers, Bucket(Override(e), Redundant)))
  }

  /** The test case an `-- end` line closes. */
  function Finish(acc: Accumulator): Record {
    var attached := acc.source != "" && acc.reference != "";
    Record(
      acc.category,
      acc.description,
      if attached then acc.source else "",
      if attached then acc.reference else "",
      Pair(Buffer(acc.buffers, Bucket(Default, Correct)), Buffer(acc.buffers, Bucket(Default, Redundant))),
      OverridesFrom(acc.buffers))
  }

  /** One iteration of the parser's loop. */
  function Step(st: ParseState, line: string): (st': ParseState)
    // exactly an `-- end` line closes a test case, and nothing else adds one
    ensures st'.records == st.records + (if StartsWith(line, EndPrefix) then [Finish(st.acc)] else [])
    ensures StartsWith(line, EndPrefix) ==> st'.acc == Reset(st.acc)
  {
    if StartsWith(line, EndPrefix) then ParseState(Reset(st.acc), st.records + [Finish(st.acc)])
    else ParseState(Absorb(st.acc, line), st.records)
  }

  /** What a line other than `-- end` does to the parser's variables. */
  function Absorb(acc: Accumulator, line: string): (acc': Accumulator)
    requires !StartsWith(line, EndPrefix)
    // only a `-- Category:` line changes the category
    ensures !StartsWith(line, CategoryPrefix) ==> acc'.category == acc.category
    // blank lines are ignored
    ensures !IsDirective(line) && IsNullOrWhiteSpace(line) ==> acc' == acc
  {
    if StartsWith(line, CategoryPrefix) then
      acc.(category := DirectiveValue(line, CategoryPrefix))
    else if StartsWith(line, SourcePrefix) then
      acc.(source := DirectiveValue(line, SourcePrefix))
    else if StartsWith(line, ReferencePrefix) then
      acc.(reference := DirectiveValue(line, ReferencePrefix))
    else if StartsWith(line, DescriptionPrefix) then
      acc.(description := DirectiveValue(line, DescriptionPrefix))
    else if StartsWith(line, VersionPrefix) then
      acc.(version := ToLower(DirectiveValue(line, VersionPrefix)))
    else if !IsNullOrWhiteSpace(line) then
      match BucketOf(acc.version)
      case Some(b) => acc.(buffers := acc.buffers[b := Buffer(acc.buffers, b) + line + "\n"])
      case None => acc
    else
      acc
  }

  /**
    A content line is appended, with a line break, to the one buffer the
    current version names, and changes nothing else; under a version that
    names no buffer it is dropped.
   */
  lemma AbsorbContent(acc: Accumulator, line: string)
    requires IsContent(line)
    ensures var acc' := Absorb(acc, line);
      && acc'.(buffers := acc.buffers) == acc
      && (forall b: Bucket :: Buffer(acc'.buffers, b) ==
            Buffer(acc.buffers, b) + (if BucketOf(acc.version) == Some(b) then line + "\n" else ""))
      && (BucketOf(acc.version).None? ==> acc' == acc)
  {
  }

  /** The parser's state after the given lines. */
  function Run(lines: seq<string>): ParseState {
    if lines == [] then ParseState(Initial, [])
    else Step(Run(lines[..|lines| - 1]), lines[|lines| - 1])
  }

  /** The test cases a file's lines define, in file order. */
  function Parse(lines: seq<string>): seq<Record> {
    Run(lines).records
  }

  // ---------------------------------------------------------------------
  // Properties of the parser
  // ---------------------------------------------------------------------

  /** The number of lines that start with `-- end`. */
  function EndCount(lines: seq<string>): nat {
    if lines == [] then 0
    else EndCount(lines[..|lines| - 1]) + (if StartsWith(lines[|lines| - 1], EndPrefix) then 1 else 0)
  }

  /** One test case per `-- end` line. */
  lemma {:induction false} ParseCount(lines: seq<string>)
    ensures |Parse(lines)| == EndCount(lines)
  {
    if lines != [] {
      ParseCount(lines[..|lines| - 1]);
    }
  }

  /** Reading one more line appends at most the test case it closes. */
  lemma ParseSnoc(lines: seq<string>, line: string)
    ensures Parse(lines + [line]) ==
      Parse(lines) + (if StartsWith(line, EndPrefix) then [Finish(Run(lines).acc)] else [])
  {
    var all := lines + [line];
    assert all[..|all| - 1] == lines && all[|all| - 1] == line;
  }

  lemma PrefixExtends(a: seq<Record>, x: seq<Record>, p: seq<Record>)
    requires |p| <= |a| && a[..|p|] == p
    ensures (a + x)[..|p|] == p
  {
    assert (a + x)[..|p|] == a[..|p|];
  }

  /** Later lines never change the test cases already closed. */
  lemma {:induction false} ParsePrefix(lines: seq<string>, more: seq<string>)
    ensures |Parse(lines)| <= |Parse(lines + more)|
    ensures Parse(lines + more)[..|Parse(lines)|] == Parse(lines)
    decreases |more|
  {
    if more == [] {
      assert lines + more == lines;
      assert Parse(lines)[..|Parse(lines)|] == Parse(lines);
    } else {
      var shorter := lines + more[..|more| - 1];
      assert lines + more == shorter + [more[|more| - 1]];
      ParsePrefix(lines, more[..|more| - 1]);
      ParseSnoc(shorter, more[|more| - 1]);
      PrefixExtends(Parse(shorter),
        if StartsWith(more[|more| - 1], EndPrefix) then [Finish(Run(shorter).acc)] else [], Parse(lines));
    }
  }

  /**
    The `-- end` line at index `i` closes test case number
    `EndCount(lines[..i])`, built from the state the lines before it left.
   */
  lemma EndLineRecord(lines: seq<string>, i: int)
    requires 0 <= i < |lines| && StartsWith(lines[i], EndPrefix)
    ensures EndCount(lines[..i]) < |Parse(lines)|
    ensures Parse(lines)[EndCount(lines[..i])] == Finish(Run(lines[..i]).acc)
  {
    var before, upto := lines[..i], lines[..i + 1];
    assert upto == before + [lines[i]];
    ParseSnoc(before, lines[i]);
    ParseCount(before);
    ParsePrefix(upto, lines[i + 1..]);
    assert upto + lines[i + 1..] == lines;
    PrefixIndex(Parse(lines), Parse(upto), EndCount(before));
  }

  lemma PrefixIndex(a: seq<Record>, p: seq<Record>, k: int)
    requires |p| <= |a| && a[..|p|] == p && 0 <= k < |p|
    ensures a[k] == p[k]
  {
    assert a[..|p|][k] == a[k];
  }

  /** The state after line `i` is one `Step` from the state before it. */
  lemma RunStep(lines: seq<string>, i: int)
    requires 0 <= i < |lines|
    ensures var before, after := Run(lines[..i]), Run(lines[..i + 1]);
      if StartsWith(lines[i], EndPrefix)
      then after == ParseState(Reset(before.acc), before.records + [Finish(before.acc)])
      else after == ParseState(Absorb(before.acc, lines[i]), before.records)
  {
    assert lines[..i + 1][..i] == lines[..i];
  }

  /** The value of the last `-- Category:` line, or "" when there is none. */
  function LastCategory(lines: seq<string>): string {
    if lines == [] then ""
    else
      var line := lines[|lines| - 1];
      if StartsWith(line, CategoryPrefix) && !StartsWith(line, EndPrefix)
      then DirectiveValue(line, CategoryPrefix)
      else LastCategory(lines[..|lines| - 1])
  }

  /** `-- end` does not clear the category: it carries over to the next test cases. */
  lemma {:induction false} CategoryCarries(lines: seq<string>)
    ensures Run(lines).acc.category == LastCategory(lines)
  {
    if lines != [] {
      CategoryCarries(lines[..|lines| - 1]);
    }
  }

  /** Every buffer is empty or made of whole lines, each ending in a line break. */
  ghost predicate LinesText(s: string) {
    s == [] || s[|s| - 1] == '\n'
  }

  /** The shape every parsed test case has. */
  ghost predicate WellFormed(r: Record) {
    && (r.source == "" <==> r.reference == "")
    && LinesText(r.defaults.correct) && LinesText(r.defaults.redundant)
    && forall e | e in r.overrides ::
         && r.overrides[e].correct != "" && LinesText(r.overrides[e].correct)
         && r.overrides[e].redundant != "" && LinesText(r.overrides[e].redundant)
  }

  ghost predicate BuffersWellFormed(buffers: map<Bucket, string>) {
    forall b | b in buffers :: LinesText(buffers[b])
  }

  /** An engine has an override exactly when both of its buffers hold text. */
  lemma OverridesFromExact(buffers: map<Bucket, string>, e: Engine)
    ensures var correct := Buffer(buffers, Bucket(Override(e), Correct));
      var redundant := Buffer(buffers, Bucket(Override(e), Redundant));
      && (e in OverridesFrom(buffers) <==> correct != "" && redundant != "")
      && (e in OverridesFrom(buffers) ==> OverridesFrom(buffers)[e] == Pair(correct, redundant))
  {
    EngineIsKnown(e);
  }

  lemma FinishWellFormed(acc: Accumulator)
    requires BuffersWellFormed(acc.buffers)
    ensures WellFormed(Finish(acc))
  {
    var r := Finish(acc);
    forall e | e in r.overrides
      ensures r.overrides[e].correct != "" && LinesText(r.overrides[e].correct)
      ensures r.overrides[e].redundant != "" && LinesText(r.overrides[e].redundant)
    {
      OverridesFromExact(acc.buffers, e);
    }
  }

  /**
    Every parsed test case is well formed: source and reference are both
    set or both "", each override has two non-empty queries, and query
    texts are whole lines.
   */
  lemma {:induction false} ParseWellFormed(lines: seq<string>)
    ensures BuffersWellFormed(Run(lines).acc.buffers)
    ensures forall r | r in Parse(lines) :: WellFormed(r)
  {
    if lines != [] {
      var init := lines[..|lines| - 1];
      ParseWellFormed(init);
      FinishWellFormed(Run(init).acc);
    }
  }

  /** No validation: an `-- end` with nothing before it still yields a test case, with empty queries. */
  lemma EmptyTestCase()
    ensures Parse(["-- end"]) == [Record("", "", "", "", Pair("", ""), map[])]
  {
    assert ["-- end"][..0] == [];
    assert StartsWith("-- end", EndPrefix);
  }

  /** `Split(':')[1]` of `a + ":" + rest`, where `a` has no colon, is the first field of `rest`. */
  lemma {:induction false} SplitAfterFirst(a: string, rest: string)
    requires ':' !in a
    ensures Split(a + [':'] + rest, ':') == [a] + Split(rest, ':')
    decreases |a|
  {
    if a == [] {
      assert a + [':'] + rest == [':'] + rest;
      assert ([':'] + rest)[1..] == rest;
    } else {
      var s := a + [':'] + rest;
      assert s[1..] == a[1..] + [':'] + rest;
      SplitAfterFirst(a[1..], rest);
      assert a == [a[0]] + a[1..];
    }
  }

  /**
    The value of a directive is the trimmed text between its colon and the
    next colon (or the end of the line).
   */
  lemma DirectiveValueIsField(name: string, rest: string)
    requires ':' !in name
    ensures var prefix := name + [':'];
      StartsWith(prefix + rest, prefix) && DirectiveValue(prefix + rest, prefix) == Trim(Split(rest, ':')[0])
  {
    var prefix := name + [':'];
    assert (prefix + rest)[..|prefix|] == prefix;
    SplitAfterFirst(name, rest);
    assert name + [':'] + rest == prefix + rest;
  }

  /** A line that differs from a prefix at some position does not start with it. */
  lemma DiffersAt(line: string, prefix: string, k: nat)
    requires k < |prefix| && k < |line| && line[k] != prefix[k]
    ensures !StartsWith(line, prefix)
  {
    if |prefix| <= |line| {
      assert line[..|prefix|][k] == line[k];
    }
  }

  /** The `-- Version:` value is lower-cased before it selects a buffer. */
  lemma VersionIsCaseInsensitive(st: ParseState, rest: string)
    ensures var line := VersionPrefix + rest;
      Step(st, line).acc.version == ToLower(Trim(Split(rest, ':')[0]))
  {
    var line := VersionPrefix + rest;
    IsVersionLine(rest);
    assert Step(st, line).acc.version == ToLower(DirectiveValue(line, VersionPrefix));
  }

  /** A `-- Version:` line matches no earlier prefix of the parser's chain. */
  lemma IsVersionLine(rest: string)
    ensures var line := VersionPrefix + rest;
      && !StartsWith(line, EndPrefix) && !StartsWith(line, CategoryPrefix) && !StartsWith(line, SourcePrefix)
      && !StartsWith(line, ReferencePrefix) && !StartsWith(line, DescriptionPrefix)
      && StartsWith(line, VersionPrefix)
      && DirectiveValue(line, VersionPrefix) == Trim(Split(rest, ':')[0])
  {
    var line := VersionPrefix + rest;
    assert "-- Version" + [':'] == VersionPrefix;
    DirectiveValueIsField("-- Version", rest);
    VersionLineLetter(rest);
  }

  /** The fourth character tells a `-- Version:` line from the other directives. */
  lemma VersionLineLetter(rest: string)
    ensures var line := VersionPrefix + rest;
      && !StartsWith(line, EndPrefix) && !StartsWith(line, CategoryPrefix) && !StartsWith(line, SourcePrefix)
      && !StartsWith(line, ReferencePrefix) && !StartsWith(line, DescriptionPrefix)
  {
    var line := VersionPrefix + rest;
    assert line[3] == 'V';
    DiffersAt(line, EndPrefix, 3);
    DiffersAt(line, CategoryPrefix, 3);
    DiffersAt(line, SourcePrefix, 3);
    DiffersAt(line, ReferencePrefix, 3);
    DiffersAt(line, DescriptionPrefix, 3);
  }

  // ---------------------------------------------------------------------
  // The list of test cases
  // ---------------------------------------------------------------------

  /** The values of a list of test cases. */
  ghost function Snapshots(qs: seq<Query>): seq<Record>
    reads qs`category, qs`description, qs`source, qs`reference
    reads qs`engineQueries, qs`plans, qs`comparison
    requires AllValid(qs)
  {
    if qs == [] then []
    else Snapshots(qs[..|qs| - 1]) + [qs[|qs| - 1].Snapshot()]
  }

  ghost predicate AllValid(qs: seq<Query>)
    reads qs`engineQueries, qs`plans, qs`comparison
  {
    forall q | q in qs :: q.QueriesValid() && q.Valid()
  }

  lemma AppendMembers(qs: seq<Query>, q: Query)
    ensures forall p | p in qs + [q] :: p in qs || p == q
  {
  }

  lemma AppendAssociates(front: seq<Query>, qs: seq<Query>, q: Query)
    ensures front + qs + [q] == front + (qs + [q])
  {
  }

  lemma AllValidAppend(qs: seq<Query>, q: Query)
    requires AllValid(qs) && q.Valid()
    ensures AllValid(qs + [q])
  {
  }

  lemma SnapshotsAppend(qs: seq<Query>, q: Query)
    requires AllValid(qs)
    requires q.Valid()
    ensures Snapshots(qs + [q]) == Snapshots(qs) + [q.Snapshot()]
  {
    assert (qs + [q])[..|qs|] == qs;
  }

  class Queries {
    var queryList: seq<Query>

    ghost predicate Valid()
      reads this, queryList
    {
      AllValid(queryList)
    }

    constructor ()
      ensures Valid() && queryList == []
    {
      queryList := [];
    }

    method AddQuery(query: Query)
      requires Valid() && query.Valid()
      modifies this`queryList
      ensures Valid()
      ensures queryList == old(queryList) + [query]
    {
      queryList := queryList + [query];
    }

    /** The test case at `index`, or ArgumentOutOfRange outside `0 .. Count() - 1`. */
    function GetQuery(index: int): (r: Result<Query>)
      reads this
      ensures r.Success? <==> 0 <= index < |queryList|
      ensures r.Success? ==> r.value == queryList[index]
      ensures r.Error? ==> r.error == ArgumentOutOfRange
    {
      if 0 <= index < |queryList| then Success(queryList[index]) else Error(ArgumentOutOfRange)
    }

    function Count(): (n: nat)
      reads this
      ensures n == |queryList|
    {
      |queryList|
    }

    /**
      Builds the test case an `-- end` line closes and appends it to the
      list; `added` are the test cases this file has added so far.
     */
    method AddNewQuery(category: string, source: string, reference: string, description: string,
                       buffers: map<Bucket, string>, ghost added: seq<Query>) returns (ghost currentQuery: Query)
      requires Valid() && AllValid(added)
      modifies this`queryList
      ensures Valid() && fresh(currentQuery) && currentQuery.Unplanned()
      ensures queryList == old(queryList) + [currentQuery]
      ensures AllValid(added + [currentQuery])
      ensures Snapshots(added + [currentQuery]) ==
        old(Snapshots(added)) + [Finish(Accumulator(category, source, reference, description, "", buffers))]
    {
      var q := NewQuery(category, source, reference, description, buffers);
      AddQuery(q);
      currentQuery := q;
      AllValidAppend(added, currentQuery);
      SnapshotsAppend(added, currentQuery);
    }

    /**
      Reads the test cases of a file (None: the file does not exist) and
      appends them, as new objects and in file order, to the list.
     */
    method ReadQueriesFromFile(file: Option<seq<string>>) returns (outcome: Outcome)
      requires Valid()
      modifies this`queryList
      ensures Valid()
      ensures file.None? ==> outcome == Fail(FileNotFound) && queryList == old(queryList)
      ensures file.Some? ==>
        && outcome == Pass
        && |old(queryList)| <= |queryList|
        && queryList[..|old(queryList)|] == old(queryList)
        && (forall q | q in queryList[|old(queryList)|..] :: fresh(q) && q.Unplanned())
        && Snapshots(queryList[|old(queryList)|..]) == Parse(file.value)
    {
      if file.None? {
        return Fail(FileNotFound);
      }
      var lines := file.value;
      ghost var added: seq<Query> := [];

      var category, source, reference, description, version := "", "", "", "", "";
      var buffers: map<Bucket, string> := map[];

      for i := 0 to |lines|
        invariant Valid()
        invariant queryList == old(queryList) + added
        invariant forall q | q in added :: fresh(q) && q.Unplanned()
        invariant AllValid(added)
        invariant Snapshots(added) == Run(lines[..i]).records
        invariant Accumulator(category, source, reference, description, version, buffers) == Run(lines[..i]).acc
      {
        var line := lines[i];
        RunStep(lines, i);
        if StartsWith(line, EndPrefix) {
          ghost var currentQuery := AddNewQuery(category, source, reference, description, buffers, added);
          AppendMembers(added, currentQuery);
          AppendAssociates(old(queryList), added, currentQuery);
          added := added + [currentQuery];
          source, reference := "", "";
          description, version := "", "";
          buffers := map[];
        } else {
          category, source, reference, description, version, buffers :=
            ReadLine(category, source, reference, description, version, buffers, line);
        }
      }
      assert lines[..|lines|] == lines;
      ghost var n0 := |old(queryList)|;
      assert |queryList| == n0 + |added|;
      assert queryList[..n0] == old(queryList);
      assert queryList[n0..] == added;
      outcome := Pass;
    }
  }

  /** The branches of the parser's loop for a line other than `-- end`. */
  method ReadLine(category: string, source: string, reference: string, description: string, version: string,
                  buffers: map<Bucket, string>, line: string)
    returns (category': string, source': string, reference': string, description': string, version': string,
             buffers': map<Bucket, string>)
    requires !StartsWith(line, EndPrefix)
    ensures Accumulator(category', source', reference', description', version', buffers') ==
      Absorb(Accumulator(category, source, reference, description, version, buffers), line)
  {
    category', source', reference', description', version', buffers' :=
      category, source, reference, description, version, buffers;
    if StartsWith(line, CategoryPrefix) {
      category' := DirectiveValue(line, CategoryPrefix);
    } else if StartsWith(line, SourcePrefix) {
      source' := DirectiveValue(line, SourcePrefix);
    } else if StartsWith(line, ReferencePrefix) {
      reference' := DirectiveValue(line, ReferencePrefix);
    } else if StartsWith(line, DescriptionPrefix) {
      description' := DirectiveValue(line, DescriptionPrefix);
    } else if StartsWith(line, VersionPrefix) {
      version' := ToLower(DirectiveValue(line, VersionPrefix));
    } else if !IsNullOrWhiteSpace(line) {
      match BucketOf(version)
      case Some(b) => buffers' := buffers[b := Buffer(buffers, b) + line + "\n"];
      case None =>
    }
  }

  /** The test case an `-- end` line builds from the parser's variables. */
  method NewQuery(category: string, source: string, reference: string, description: string,
                  buffers: map<Bucket, string>) returns (q: Query)
    ensures fresh(q) && q.Valid() && q.Unplanned()
    ensures q.Snapshot() == Finish(Accumulator(category, source, reference, description, "", buffers))
  {
    q := new Query(category, description,
      Buffer(buffers, Bucket(Default, Correct)), Buffer(buffers, Bucket(Default, Redundant)));
    if source != "" && reference != "" {
      q.AddSourceAndReference(source, reference);
    }
    AttachOverrides(q, buffers);
    FilledOverrides(q.engineQueries, buffers);
  }

  /** The dictionary `Set<Engine>Queries` leaves for an engine: filled when both buffers hold text. */
  function EngineDictionary(buffers: map<Bucket, string>, e: Engine): map<string, string> {
    if Complete(buffers, e) then
      map[CorrectKey := Buffer(buffers, Bucket(Override(e), Correct)),
          RedundantKey := Buffer(buffers, Bucket(Override(e), Redundant))]
    else map[]
  }

  /** Dictionaries filled from the buffers hold exactly the overrides of `OverridesFrom`. */
  lemma FilledOverrides(d: map<Engine, map<string, string>>, buffers: map<Bucket, string>)
    requires AttachedFor(d, buffers, AllEngines)
    ensures forall e | e in d :: EmptyOrPair(d[e])
    ensures OverridesOf(d) == OverridesFrom(buffers)
  {
    forall e | e in d
      ensures EmptyOrPair(d[e])
    {
      AttachedEverywhere(d, buffers, AllEngines, e);
      EngineDictionaryShape(buffers, e);
    }
    var got, want := OverridesOf(d), OverridesFrom(buffers);
    forall e: Engine
      ensures e in got <==> e in want
      ensures e in got ==> got[e] == want[e]
    {
      EngineIsKnown(e);
      AttachedEverywhere(d, buffers, AllEngines, e);
      EngineDictionaryShape(buffers, e);
    }
    assert got.Keys == want.Keys;
  }

  /** `AttachedFor` speaks of every engine. */
  lemma AttachedEverywhere(d: map<Engine, map<string, string>>, buffers: map<Bucket, string>, done: set<Engine>,
                           e: Engine)
    requires AttachedFor(d, buffers, done)
    ensures AttachedAt(d, buffers, done, e)
  {
    match e
    case SqlServer =>
    case Oracle =>
    case MySql =>
    case PostgreSql =>
  }

  /** An engine dictionary is empty or holds both keys, and it is filled exactly when the engine is complete. */
  lemma EngineDictionaryShape(buffers: map<Bucket, string>, e: Engine)
    ensures EmptyOrPair(EngineDictionary(buffers, e))
    ensures EngineDictionary(buffers, e) != map[] <==> Complete(buffers, e)
    ensures Complete(buffers, e) ==>
      && EngineDictionary(buffers, e)[CorrectKey] == Buffer(buffers, Bucket(Override(e), Correct))
      && EngineDictionary(buffers, e)[RedundantKey] == Buffer(buffers, Bucket(Override(e), Redundant))
  {
    if Complete(buffers, e) {
      assert CorrectKey in EngineDictionary(buffers, e);
    }
  }

  /** The engine dictionaries once the engines in `done` have been attached from the buffers. */
  ghost predicate AttachedFor(d: map<Engine, map<string, string>>, buffers: map<Bucket, string>, done: set<Engine>) {
    AttachedAt(d, buffers, done, SqlServer) && AttachedAt(d, buffers, done, Oracle)
    && AttachedAt(d, buffers, done, MySql) && AttachedAt(d, buffers, done, PostgreSql)
  }

  /** The dictionary of engine `e`: filled from the buffers once attached, empty before. */
  ghost predicate AttachedAt(d: map<Engine, map<string, string>>, buffers: map<Bucket, string>, done: set<Engine>,
                             e: Engine) {
    e in d && d[e] == if e in done then EngineDictionary(buffers, e) else map[]
  }

  /** The four per-engine `if` statements, in the order the parser runs them. */
  method AttachOverrides(q: Query, buffers: map<Bucket, string>)
    requires q.Valid() && AttachedFor(q.engineQueries, buffers, {})
    modifies q`engineQueries
    ensures q.Valid() && AttachedFor(q.engineQueries, buffers, AllEngines)
  {
    ghost var done: set<Engine> := {};
    AttachOverride(q, SqlServer, buffers, done);
    done := done + {SqlServer};
    AttachOverride(q, Oracle, buffers, done);
    done := done + {Oracle};
    AttachOverride(q, PostgreSql, buffers, done);
    done := done + {PostgreSql};
    AttachOverride(q, MySql, buffers, done);
    done := done + {MySql};
    assert done == AllEngines;
  }

  /** `if (<engine>RedundancyQuery != "" && <engine>CorrectQuery != "") Set<Engine>Queries(...)` */
  method AttachOverride(q: Query, e: Engine, buffers: map<Bucket, string>, ghost done: set<Engine>)
    requires q.Valid() && e !in done && AttachedFor(q.engineQueries, buffers, done)
    modifies q`engineQueries
    ensures q.Valid() && AttachedFor(q.engineQueries, buffers, done + {e})
  {
    var correct := Buffer(buffers, Bucket(Override(e), Correct));
    var redundant := Buffer(buffers, Bucket(Override(e), Redundant));
    if redundant != "" && correct != "" {
      var _ := q.SetEngineQueries(e, correct, redundant);
    }
  }
}
