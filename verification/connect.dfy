/** The argument checks of `Connect`: which of the four gorm dialects a driver name
    selects, and the two configuration errors it reports before opening anything. */
module Connect {
  import opened Wrappers

  /** The `DBType` constants: the driver names the generator understands. */
  const DbMySQL: string := "mysql"
  const DbPostgres: string := "postgres"
  const DbSQLite: string := "sqlite"
  const DbSQLServer: string := "sqlserver"

  const SupportedNames: set<string> := {DbMySQL, DbPostgres, DbSQLite, DbSQLServer}

  /** The gorm driver package a connection is opened with. */
  datatype Dialect = MySQL | Postgres | SQLite | SQLServer {

    /** The `DBType` constant that selects this dialect. */
    function Name(): (n: string)
      ensures n in SupportedNames
    {
      match this
      case MySQL => DbMySQL
      case Postgres => DbPostgres
      case SQLite => DbSQLite
      case SQLServer => DbSQLServer
    }
  }

  /** The errors `Connect` returns itself, before any driver is involved. */
  datatype ConnectError =
    | EmptyDsn               // "dsn cannot be empty"
    | UnknownDb(name: string) // "unknow db %q (support mysql || postgres || sqlite || sqlserver for now)"

  /** The `switch t` of `Connect`: the dialect whose constant equals `t`, if any. */
  function ParseDialect(t: string): (d: Option<Dialect>)
    ensures d.Some? <==> t in SupportedNames
    ensures d.Some? ==> d.value.Name() == t
  {
    if t == DbMySQL then Some(MySQL)
    else if t == DbPostgres then Some(Postgres)
    else if t == DbSQLite then Some(SQLite)
    else if t == DbSQLServer then Some(SQLServer)
    else None
  }

  /** Every dialect is selected by its own name and by no other. */
  lemma NameRoundTrip(d: Dialect, t: string)
    ensures ParseDialect(d.Name()) == Some(d)
    ensures ParseDialect(t) == Some(d) <==> t == d.Name()
  {
  }

  /** `Connect(t, dsn)` up to the `gorm.Open` call: an empty DSN is refused whatever the
      driver name, then a name outside the four constants is refused, and otherwise the
      dialect named by `t` is the one opened. */
  function Validate(t: string, dsn: string): (r: Result<Dialect, ConnectError>)
    ensures dsn == "" ==> r == Failure(EmptyDsn)
    ensures dsn != "" ==> (r.Failure? <==> t !in SupportedNames)
    ensures dsn != "" && r.Failure? ==> r.error == UnknownDb(t)
    ensures r.Success? <==> dsn != "" && t in SupportedNames
    ensures r.Success? ==> r.value.Name() == t
  {
    if dsn == "" then Failure(EmptyDsn)
    else match ParseDialect(t)
      case Some(d) => Success(d)
      case None => Failure(UnknownDb(t))
  }
}
