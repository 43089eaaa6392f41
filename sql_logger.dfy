/** The statement-logging wrapper around the SQLite driver (server/internal/db/sqlitelogger.go):
    every Exec and Query logs its operation, SQL text and arguments at debug level before it
    is handed to the wrapped statement. Go strings are byte strings here; the wrapped driver is
    represented by what it answers and which optional interfaces it implements. */
module SqlLogger {
  import opened Wrappers
  import opened GoText
  import opened LittleEndian

  type Text = seq<byte>

  predicate IsAscii(s: string) {
    forall i :: 0 <= i < |s| ==> s[i] < '\U{0080}'
  }

  /** The UTF-8 bytes of an ASCII string. */
  function Ascii(s: string): (b: Text)
    requires IsAscii(s)
    ensures |b| == |s|
  {
    seq(|s|, i requires 0 <= i < |s| => s[i] as int)
  }

  /** The characters of ASCII bytes. */
  function Chars(b: Text): string {
    seq(|b|, i requires 0 <= i < |b| => b[i] as char)
  }

  lemma CharsAscii(s: string)
    requires IsAscii(s)
    ensures Chars(Ascii(s)) == s
  {
  }

  lemma ItoaIsAscii(n: int)
    ensures IsAscii(Itoa(n))
  {
    if n < 0 {
      var d := Digits(-n);
      forall i | 0 <= i < |Itoa(n)| ensures Itoa(n)[i] < '\U{0080}' {
        if i > 0 {
          assert Itoa(n)[i] == d[i - 1];
        }
      }
    }
  }

  /** A driver.Value. */
  datatype Value =
    | Null
    | Bytes(bytes: Text)
    | Str(text: Text)
    | Int64(integer: int)
    | Float64(float: real)
    | Bool(flag: bool)
    | Time(instant: int)

  /** formatArg. `sprint` is fmt.Sprint for the floating-point and time values. */
  function FormatArg(v: Value, sprint: Value -> Text): (t: Text)
    ensures v.Null? ==> t == Ascii("NULL")
    ensures v.Bytes? ==> t == v.bytes
    ensures v.Str? ==> t == v.text
    ensures v.Bool? ==> t == Ascii(if v.flag then "true" else "false")
  {
    match v
    case Null => Ascii("NULL")
    case Bytes(b) => b
    case Str(s) => s
    case Int64(i) => ItoaIsAscii(i); Ascii(Itoa(i))
    case Bool(b) => Ascii(if b then "true" else "false")
    case _ => sprint(v)
  }

  /** An int64 argument is logged in decimal and reads back to the same number. */
  lemma FormatArgInt(i: int, sprint: Value -> Text)
    requires MinInt64 <= i <= MaxInt64
    ensures Atoi(Chars(FormatArg(Int64(i), sprint))) == Some(i)
  {
    ItoaIsAscii(i);
    CharsAscii(Itoa(i));
    AtoiItoa(i);
  }

  /** A driver.NamedValue. */
  datatype NamedValue = NamedValue(name: Text, ordinal: int, value: Value)

  const Equals: byte := '=' as int

  /** One logged argument: "name=value" for a named argument, the value alone otherwise. */
  function ArgText(a: NamedValue, sprint: Value -> Text): Text {
    if a.name != [] then a.name + [Equals] + FormatArg(a.value, sprint) else FormatArg(a.value, sprint)
  }

  /** A named argument's text splits back at its first "=" into the name and the formatted
      value, when the name itself has no "=". */
  lemma ArgTextSplits(a: NamedValue, sprint: Value -> Text)
    requires a.name != [] && Equals !in a.name
    ensures var t := ArgText(a, sprint);
      && |t| > |a.name|
      && t[..|a.name|] == a.name
      && t[|a.name|] == Equals
      && (forall k :: 0 <= k < |a.name| ==> t[k] != Equals)
      && t[|a.name| + 1..] == FormatArg(a.value, sprint)
  {
    var t := ArgText(a, sprint);
    assert t == a.name + [Equals] + FormatArg(a.value, sprint);
    forall k | 0 <= k < |a.name| ensures t[k] != Equals {
      assert t[k] == a.name[k];
    }
  }

  /** namedValuesToSlice: one text per argument, in order. */
  method NamedValuesToSlice(args: seq<NamedValue>, sprint: Value -> Text) returns (out: array<Text>)
    ensures fresh(out) && out.Length == |args|
    ensures forall i :: 0 <= i < |args| ==> out[i] == ArgText(args[i], sprint)
  {
    out := new Text[|args|];
    var i := 0;
    while i < |args|
      invariant 0 <= i <= |args|
      invariant forall j :: 0 <= j < i ==> out[j] == ArgText(args[j], sprint)
    {
      var a := args[i];
      if a.name != [] {
        out[i] := a.name + [Equals] + FormatArg(a.value, sprint);
      } else {
        out[i] := FormatArg(a.value, sprint);
      }
      i := i + 1;
    }
  }

  /** The plain values of named arguments, in order. */
  function ValuesOf(args: seq<NamedValue>): (vs: seq<Value>)
    ensures |vs| == |args|
    ensures forall i :: 0 <= i < |args| ==> vs[i] == args[i].value
  {
    if args == [] then [] else [args[0].value] + ValuesOf(args[1..])
  }

  /** namedValuesToValues */
  method NamedValuesToValues(args: seq<NamedValue>) returns (out: array<Value>)
    ensures fresh(out) && out[..] == ValuesOf(args)
  {
    out := new Value[|args|](_ => Null);
    var i := 0;
    while i < |args|
      invariant 0 <= i <= |args|
      invariant forall j :: 0 <= j < i ==> out[j] == args[j].value
    {
      out[i] := args[i].value;
      i := i + 1;
    }
  }

  /** The arguments as logged: the driver values of Exec/Query, or the texts of the context
      variants. */
  datatype LoggedArgs = Plain(values: seq<Value>) | Formatted(texts: seq<Text>)

  /** A debug record "sql" with its op, sql and args attributes. */
  datatype Record = Record(op: string, sql: string, args: LoggedArgs)

  const ExecOp := "exec"
  const QueryOp := "query"

  class Logger {
    var records: seq<Record>

    constructor()
      ensures records == []
    {
      records := [];
    }

    method Debug(r: Record)
      modifies this
      ensures records == old(records) + [r]
    {
      records := records + [r];
    }
  }

  /** Which optional interfaces the wrapped statement implements. */
  datatype StmtCaps = StmtCaps(execContext: bool, queryContext: bool, numInput: Option<int>)

  /** The call handed to the wrapped statement. */
  datatype Delegated =
    | StmtExec(values: seq<Value>)
    | StmtExecContext(named: seq<NamedValue>)
    | StmtQuery(values: seq<Value>)
    | StmtQueryContext(named: seq<NamedValue>)

  /** The context variants' log arguments. */
  function LogArgs(args: seq<NamedValue>, sprint: Value -> Text): (texts: seq<Text>)
    ensures |texts| == |args|
    ensures forall i :: 0 <= i < |args| ==> texts[i] == ArgText(args[i], sprint)
  {
    if args == [] then [] else [ArgText(args[0], sprint)] + LogArgs(args[1..], sprint)
  }

  /** loggingStmt */
  class LoggingStmt {
    const query: string
    const logger: Logger
    const caps: StmtCaps

    constructor(query: string, logger: Logger, caps: StmtCaps)
      ensures this.query == query && this.logger == logger && this.caps == caps
    {
      this.query := query;
      this.logger := logger;
      this.caps := caps;
    }

    /** NumInput: the wrapped statement's count, or -1 for unknown. */
    function NumInput(): (n: int)
      ensures caps.numInput.None? ==> n == -1
      ensures caps.numInput.Some? ==> n == caps.numInput.value
    {
      if caps.numInput.Some? then caps.numInput.value else -1
    }

    method Exec(args: seq<Value>) returns (call: Delegated)
      modifies logger
      ensures logger.records == old(logger.records) + [Record(ExecOp, query, Plain(args))]
      ensures call == StmtExec(args)
    {
      logger.Debug(Record(ExecOp, query, Plain(args)));
      call := StmtExec(args);
    }

    method ExecContext(args: seq<NamedValue>, sprint: Value -> Text) returns (call: Delegated)
      modifies logger
      ensures logger.records == old(logger.records) + [Record(ExecOp, query, Formatted(LogArgs(args, sprint)))]
      ensures call == if caps.execContext then StmtExecContext(args) else StmtExec(ValuesOf(args))
    {
      var texts := NamedValuesToSlice(args, sprint);
      assert texts[..] == LogArgs(args, sprint);
      logger.Debug(Record(ExecOp, query, Formatted(texts[..])));
      if !caps.execContext {
        var vals := NamedValuesToValues(args);
        return StmtExec(vals[..]);
      }
      return StmtExecContext(args);
    }

    method Query(args: seq<Value>) returns (call: Delegated)
      modifies logger
      ensures logger.records == old(logger.records) + [Record(QueryOp, query, Plain(args))]
      ensures call == StmtQuery(args)
    {
      logger.Debug(Record(QueryOp, query, Plain(args)));
      call := StmtQuery(args);
    }

    method QueryContext(args: seq<NamedValue>, sprint: Value -> Text) returns (call: Delegated)
      modifies logger
      ensures logger.records == old(logger.records) + [Record(QueryOp, query, Formatted(LogArgs(args, sprint)))]
      ensures call == if caps.queryContext then StmtQueryContext(args) else StmtQuery(ValuesOf(args))
    {
      var texts := NamedValuesToSlice(args, sprint);
      assert texts[..] == LogArgs(args, sprint);
      logger.Debug(Record(QueryOp, query, Formatted(texts[..])));
      if !caps.queryContext {
        var vals := NamedValuesToValues(args);
        return StmtQuery(vals[..]);
      }
      return StmtQueryContext(args);
    }
  }

  /** loggingConn: prepared statements are wrapped with the connection's logger. */
  class LoggingConn {
    const logger: Logger

    constructor(logger: Logger)
      ensures this.logger == logger
    {
      this.logger := logger;
    }

    /** Prepare and PrepareContext. */
    method Prepare(query: string, prepareErr: Option<string>, caps: StmtCaps) returns (stmt: LoggingStmt?, err: Option<string>)
      ensures stmt == null <==> err.Some?
      ensures err == prepareErr
      ensures stmt != null ==> fresh(stmt) && stmt.query == query && stmt.logger == logger && stmt.caps == caps
    {
      if prepareErr.Some? {
        return null, prepareErr;
      }
      stmt := new LoggingStmt(query, logger, caps);
      err := None;
    }
  }

  /** loggingConnector */
  class Connector {
    const dsn: string
    const logger: Logger

    constructor(dsn: string, logger: Logger)
      ensures this.dsn == dsn && this.logger == logger
    {
      this.dsn := dsn;
      this.logger := logger;
    }

    /** Connect: open the SQLite driver on the DSN and wrap the connection. */
    method Connect(openErr: Option<string>) returns (conn: LoggingConn?, err: Option<string>)
      ensures conn == null <==> err.Some?
      ensures err == openErr
      ensures conn != null ==> fresh(conn) && conn.logger == logger
    {
      if openErr.Some? {
        return null, openErr;
      }
      conn := new LoggingConn(logger);
      err := None;
    }
  }

  /** NewLoggingConnector: never fails, and a nil logger is replaced by the default one. */
  method NewLoggingConnector(dsn: string, logger: Logger?, defaultLogger: Logger) returns (c: Connector, err: Option<string>)
    ensures fresh(c) && err.None?
    ensures c.dsn == dsn && c.logger == (if logger == null then defaultLogger else logger)
  {
    var l := if logger == null then defaultLogger else logger;
    c := new Connector(dsn, l);
    err := None;
  }

  const OpenUnsupported := "sqlite3-log: use sql.OpenDB(NewLoggingConnector(...)) instead of sql.Open"

  /** loggingDriver.Open: opening by name is refused, whatever the name. */
  function DriverOpen(name: string): (r: Option<string>)
    ensures r.Some?
  {
    Some(OpenUnsupported)
  }
}
