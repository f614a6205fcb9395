/**
 * The PostgreSQL server as the sandbox provider sees it through an administrative connection:
 * a catalog of databases (pg_database: name, content, datistemplate) and the sessions other
 * clients hold open on them (pg_stat_activity). Each SQL statement the provider issues is one
 * atomic step on this state that either applies or fails and changes nothing.
 */
module Catalog {
  import opened Wrappers

  /** What a database holds (schema and rows). It is only ever copied and compared. */
  type Content(==)

  /** One row of pg_database. */
  datatype Db = Db(content: Content, isTemplate: bool)

  /** A backend of some other client, connected to database `datname`. */
  datatype Session = Session(pid: nat, datname: string)

  datatype Engine = Engine(databases: map<string, Db>, sessions: set<Session>)

  /** ASCII upper-case letters, the only ones PostgreSQL folds in an identifier of these names. */
  predicate IsUpper(c: char) {
    'A' <= c <= 'Z'
  }

  function ToLower(c: char): char {
    if IsUpper(c) then (c as int + 32) as char else c
  }

  /** Holds no upper-case ASCII letter. */
  predicate IsFolded(name: string) {
    forall i :: 0 <= i < |name| ==> !IsUpper(name[i])
  }

  /**
   * The name an unquoted identifier denotes: PostgreSQL's parser folds its ASCII upper-case
   * letters to lower case. The result has no upper-case letter, differs from the input only in
   * those letters, and equals the input exactly when the input had none.
   */
  function FoldCase(name: string): (r: string)
    ensures |r| == |name| && IsFolded(r)
    ensures forall i :: 0 <= i < |name| ==> r[i] == name[i] || (IsUpper(name[i]) && r[i] as int == name[i] as int + 32)
    ensures r == name <==> IsFolded(name)
  {
    var r := seq(|name|, i requires 0 <= i < |name| => ToLower(name[i]));
    assert r == name <==> IsFolded(name) by {
      if !IsFolded(name) {
        var i :| 0 <= i < |name| && IsUpper(name[i]);
        assert r[i] != name[i];
      }
    }
    r
  }

  /** A database name as it is written into the text of a DDL statement. */
  datatype Identifier = Bare(text: string) | Quoted(text: string)

  /** The database a DDL identifier names: bare identifiers are case-folded, quoted ones are not. */
  function Resolve(id: Identifier): string {
    match id
    case Bare(text) => FoldCase(text)
    case Quoted(text) => text
  }

  /**
   * The statements the provider sends. The first two compare `datname` with a string value,
   * which is exact; the DDL statements name databases by identifier.
   */
  datatype Stmt =
    | TerminateBackends(db: string)                         // SELECT pg_terminate_backend(pid) FROM pg_stat_activity WHERE datname = 'db' AND pid <> pg_backend_pid()
    | SelectIsTemplate(db: string)                          // SELECT 1 FROM pg_database WHERE datname = ? AND datistemplate
    | AlterIsTemplate(name: Identifier, flag: bool)         // ALTER DATABASE name IS_TEMPLATE flag
    | CreateFromTemplate(name: Identifier, source: Identifier) // CREATE DATABASE name TEMPLATE source
    | DropIfExists(name: Identifier)                        // DROP DATABASE IF EXISTS name

  /** The databases a statement names, identifiers resolved. */
  function Targets(st: Stmt): set<string> {
    match st
    case TerminateBackends(db) => {db}
    case SelectIsTemplate(db) => {db}
    case AlterIsTemplate(name, _) => {Resolve(name)}
    case CreateFromTemplate(name, source) => {Resolve(name), Resolve(source)}
    case DropIfExists(name) => {Resolve(name)}
  }

  /** Why the server rejected a connection or a statement (an SQLException). */
  datatype SqlError =
    | ConnectionFailed                // host unreachable, bad credentials
    | UndefinedDatabase(db: string)   // the named database does not exist
    | DuplicateDatabase(db: string)   // CREATE DATABASE of a name already taken
    | ObjectInUse(db: string)         // other sessions, or our own, are connected to db
    | CannotDropTemplate(db: string)  // DROP DATABASE of a database still marked IS_TEMPLATE
    | SyntaxError(stmt: Stmt)         // the parser rejected the statement's text
    | StatementFailed(stmt: Stmt)     // any other server-side failure

  /**
   * What the model does not track about the server: whether a connection can be opened at
   * all; which statements it rejects for other reasons (privileges, disk, lost link); and
   * the key words its grammar refuses as a database name (`order`, `user`, `select`, ...,
   * lower case; the list depends on the server's version).
   */
  datatype Env = Env(reachable: bool, failing: set<Stmt>, keywords: set<string>)

  /**
   * An identifier the parser reads as a key word: the lexer folds a bare identifier before
   * looking it up, and a quoted identifier is never a key word.
   */
  predicate IsKeyword(env: Env, id: Identifier) {
    id.Bare? && FoldCase(id.text) in env.keywords
  }

  /** The statement's text parses: no identifier in it is read as a key word. */
  predicate Parses(env: Env, st: Stmt) {
    match st
    case AlterIsTemplate(name, _) => !IsKeyword(env, name)
    case CreateFromTemplate(name, source) => !IsKeyword(env, name) && !IsKeyword(env, source)
    case DropIfExists(name) => !IsKeyword(env, name)
    case _ => true
  }

  /** The server neither fails to parse a statement nor refuses it otherwise. */
  predicate Accepted(env: Env, st: Stmt) {
    Parses(env, st) && st !in env.failing
  }

  /** The result of running statements: the new state, and the error that stopped the run. */
  datatype Outcome = Outcome(engine: Engine, error: Option<SqlError>)

  function SessionsOn(e: Engine, db: string): set<Session> {
    set s | s in e.sessions && s.datname == db
  }

  /** A database that exists and is marked as a template. */
  predicate IsTemplateDb(e: Engine, db: string) {
    db in e.databases && e.databases[db].isTemplate
  }

  /** DriverManager.getConnection to the maintenance database `db`. */
  function Connect(env: Env, e: Engine, db: string): (r: Option<SqlError>)
    ensures r.None? <==> env.reachable && db in e.databases
    ensures r == Some(ConnectionFailed) <==> !env.reachable
  {
    if !env.reachable then Some(ConnectionFailed)
    else if db !in e.databases then Some(UndefinedDatabase(db))
    else None
  }

  /**
   * One statement, executed on an administrative connection to database `conn`. A statement
   * that does not parse fails first. The other checks follow PostgreSQL's order: for CREATE DATABASE the source must exist, the name must be
   * free and nobody else may be connected to the source; for DROP DATABASE a template cannot
   * be dropped, nor the database the connection is on, nor one with other sessions.
   */
  function Exec(env: Env, e: Engine, conn: string, st: Stmt): (r: Outcome)
    ensures r.error.Some? ==> r.engine == e
    ensures (r.error.Some? && r.error.value.SyntaxError?) <==> !Parses(env, st)
    ensures r.error.Some? && r.error.value.SyntaxError? ==> r.error.value.stmt == st
  {
    if !Parses(env, st) then Outcome(e, Some(SyntaxError(st)))
    else if st in env.failing then Outcome(e, Some(StatementFailed(st)))
    else
      match st
      case TerminateBackends(db) =>
        Outcome(e.(sessions := e.sessions - SessionsOn(e, db)), None)
      case SelectIsTemplate(_) =>
        Outcome(e, None)
      case AlterIsTemplate(name, flag) =>
        var db := Resolve(name);
        if db !in e.databases then Outcome(e, Some(UndefinedDatabase(db)))
        else Outcome(e.(databases := e.databases[db := e.databases[db].(isTemplate := flag)]), None)
      case CreateFromTemplate(name, sourceName) =>
        var db, source := Resolve(name), Resolve(sourceName);
        if source !in e.databases then Outcome(e, Some(UndefinedDatabase(source)))
        else if db in e.databases then Outcome(e, Some(DuplicateDatabase(db)))
        else if SessionsOn(e, source) != {} then Outcome(e, Some(ObjectInUse(source)))
        else Outcome(e.(databases := e.databases[db := Db(e.databases[source].content, false)]), None)
      case DropIfExists(name) =>
        var db := Resolve(name);
        if db !in e.databases then Outcome(e, None)
        else if e.databases[db].isTemplate then Outcome(e, Some(CannotDropTemplate(db)))
        else if db == conn || SessionsOn(e, db) != {} then Outcome(e, Some(ObjectInUse(db)))
        else Outcome(e.(databases := e.databases - {db}), None)
  }

  /** A statement changes no database, and no session, other than those it names. */
  lemma ExecFrame(env: Env, e: Engine, conn: string, st: Stmt, d: string)
    requires d !in Targets(st)
    ensures var r := Exec(env, e, conn, st).engine;
            && (d in r.databases <==> d in e.databases)
            && (d in e.databases ==> r.databases[d] == e.databases[d])
            && SessionsOn(r, d) == SessionsOn(e, d)
  {
  }

  /** Sessions only ever name databases that exist. */
  predicate Consistent(e: Engine) {
    forall x :: x in e.sessions ==> x.datname in e.databases
  }

  /** Every statement keeps sessions pointing at existing databases. */
  lemma ExecKeepsConsistent(env: Env, e: Engine, conn: string, st: Stmt)
    requires Consistent(e)
    ensures Consistent(Exec(env, e, conn, st).engine)
  {
    var r := Exec(env, e, conn, st).engine;
    forall x | x in r.sessions
      ensures x.datname in r.databases
    {
      if st.DropIfExists? && x.datname == Resolve(st.name) {
        // DROP DATABASE only succeeds when nobody is connected to the dropped database.
        assert x in SessionsOn(e, x.datname);
      }
    }
  }

  /**
   * Statements executed one after another on one connection, as a try block does: the first
   * failure stops the run, and what the earlier statements did stays done.
   */
  function Run(env: Env, e: Engine, conn: string, stmts: seq<Stmt>): (r: Outcome)
    ensures r.error != Some(ConnectionFailed)
    ensures r.error.Some? && r.error.value.StatementFailed? ==>
              r.error.value.stmt in stmts && r.error.value.stmt in env.failing
    ensures r.error.Some? && r.error.value.SyntaxError? ==>
              r.error.value.stmt in stmts && !Parses(env, r.error.value.stmt)
    decreases |stmts|
  {
    if stmts == [] then Outcome(e, None)
    else
      var o := Exec(env, e, conn, stmts[0]);
      if o.error.Some? then o else Run(env, o.engine, conn, stmts[1..])
  }

  /** Open the administrative connection, then run the statements on it. */
  function AdminSession(env: Env, e: Engine, conn: string, stmts: seq<Stmt>): (r: Outcome)
    ensures r.error == Some(ConnectionFailed) <==> !env.reachable
    ensures Connect(env, e, conn).Some? ==> r == Outcome(e, Connect(env, e, conn))
    ensures r.error.None? ==> conn in e.databases
  {
    match Connect(env, e, conn)
    case Some(err) => Outcome(e, Some(err))
    case None => Run(env, e, conn, stmts)
  }

  /** How many statements of a run complete before the first failure. */
  function Completed(env: Env, e: Engine, conn: string, stmts: seq<Stmt>): (n: nat)
    ensures n <= |stmts|
    decreases |stmts|
  {
    if stmts == [] then 0
    else
      var o := Exec(env, e, conn, stmts[0]);
      if o.error.Some? then 0 else 1 + Completed(env, o.engine, conn, stmts[1..])
  }

  /**
   * No rollback: when a run fails at statement n, the state it leaves is exactly the state
   * after the first n statements, and the error is the one statement n raised from there.
   */
  lemma {:induction false} RunKeepsCompletedSteps(env: Env, e: Engine, conn: string, stmts: seq<Stmt>)
    ensures var n := Completed(env, e, conn, stmts);
            var done := Run(env, e, conn, stmts[..n]);
            && done == Outcome(Run(env, e, conn, stmts).engine, None)
            && (Run(env, e, conn, stmts).error.Some? <==> n < |stmts|)
            && (n < |stmts| ==> Exec(env, done.engine, conn, stmts[n]) == Run(env, e, conn, stmts))
    decreases |stmts|
  {
    if stmts != [] {
      var o := Exec(env, e, conn, stmts[0]);
      if o.error.None? {
        var rest := stmts[1..];
        RunKeepsCompletedSteps(env, o.engine, conn, rest);
        var m := Completed(env, o.engine, conn, rest);
        assert stmts[..m + 1][0] == stmts[0] && stmts[..m + 1][1..] == rest[..m];
        if m < |rest| {
          assert stmts[m + 1] == rest[m];
        }
      } else {
        assert stmts[..0] == [];
      }
    }
  }
}
