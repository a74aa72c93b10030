/**
  The four database engines the benchmark knows, and the ADO.NET provider
  names by which the program selects them.
 */
module Engines {
  import opened Wrappers

  datatype Engine = SqlServer | Oracle | MySql | PostgreSql

  const AllEngines: set<Engine> := {SqlServer, Oracle, MySql, PostgreSql}

  /** The provider name each `switch (providerName)` of the program uses for an engine. */
  function ProviderName(e: Engine): string {
    match e
    case SqlServer => "Microsoft.Data.SqlClient"
    case Oracle => "Oracle.ManagedDataAccess.Client"
    case MySql => "MySql"
    case PostgreSql => "Npgsql"
  }

  /**
    The case a `switch (providerName)` takes: the engine whose provider name
    is exactly `name`, or None when the switch has no case for it (including
    a provider that was never set).
   */
  function ParseProvider(name: string): (r: Option<Engine>)
    ensures forall e: Engine :: r == Some(e) <==> ProviderName(e) == name
  {
    if name == "Microsoft.Data.SqlClient" then Some(SqlServer)
    else if name == "Oracle.ManagedDataAccess.Client" then Some(Oracle)
    else if name == "MySql" then Some(MySql)
    else if name == "Npgsql" then Some(PostgreSql)
    else None
  }

  lemma EngineIsKnown(e: Engine)
    ensures e in AllEngines
  {
  }
}
