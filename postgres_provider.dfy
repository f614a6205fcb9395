/**
 * PostgresSandboxDatabaseProvider: validated connection settings, the SQL each lifecycle
 * operation sends, the effect of each operation on the server (as functions), the provider
 * object that performs them step by step, and the properties the lifecycle guarantees.
 */
module PostgresProvider {
  import opened Wrappers
  import opened JavaLang
  import opened Catalog
  import opened Failures

  const MIN_PORT: int := 1
  const MAX_PORT: int := 65535

  // ---------------------------------------------------------------------------
  // Identifier validation (SAFE_DB_NAME = ^[a-zA-Z_][a-zA-Z0-9_]*$, ASCII only)

  predicate IsIdentifierStart(c: char) {
    'a' <= c <= 'z' || 'A' <= c <= 'Z' || c == '_'
  }

  predicate IsIdentifierPart(c: char) {
    IsIdentifierStart(c) || '0' <= c <= '9'
  }

  /** The whole name matches SAFE_DB_NAME. */
  predicate IsSafeName(name: string) {
    |name| > 0 && IsIdentifierStart(name[0]) &&
    forall i :: 1 <= i < |name| ==> IsIdentifierPart(name[i])
  }

  predicate IsSafe(name: Option<string>) {
    name.Some? && IsSafeName(name.value)
  }

  /**
   * validateDatabaseName: a null name throws NullPointerException, a name outside the
   * allow-list throws IllegalArgumentException; an accepted name is returned as it was.
   */
  function ValidateDatabaseName(name: Option<string>, paramName: string): (r: Result<string, Failure>)
    ensures r.Success? <==> name.Some? && |name.value| > 0 && IsIdentifierStart(name.value[0]) &&
                            forall i :: 1 <= i < |name.value| ==> IsIdentifierPart(name.value[i])
    ensures r.Success? ==> r.value == name.value
    ensures name.None? ==> r == Failure(NullPointer(paramName))
    ensures name.Some? && r.Failure? ==> r == Failure(IllegalArgument(paramName))
  {
    match name
    case None => Failure(NullPointer(paramName))
    case Some(n) => if IsSafeName(n) then Success(n) else Failure(IllegalArgument(paramName))
  }

  /** A name that passes validation cannot close a quoted string, end a statement or split a URL. */
  lemma SafeNameIsInert(name: string)
    requires IsSafeName(name)
    ensures forall c :: c in name ==> c !in "'\";-/ :?\\\n"
  {
  }

  // ---------------------------------------------------------------------------
  // Construction

  /** The provider's final fields. */
  datatype Settings = Settings(
    host: string,
    port: Int32,
    adminDatabase: string,
    adminUser: string,
    adminPassword: string,
    primaryDatabaseName: string,
    templateName: string)
  {
    /** What construction guarantees about the fields. */
    predicate Valid() {
      MIN_PORT <= port <= MAX_PORT &&
      IsSafeName(adminDatabase) && IsSafeName(primaryDatabaseName) && IsSafeName(templateName)
    }
  }

  /**
   * The constructor's checks, in the constructor's order. Construction succeeds exactly when
   * the port is in range, host and credentials are non-null and the three database names are
   * safe; the fields then hold the arguments unchanged.
   */
  function Configure(
    host: Option<string>,
    port: Int32,
    adminDatabaseName: Option<string>,
    adminUser: Option<string>,
    adminPassword: Option<string>,
    primaryDatabaseName: Option<string>,
    templateDatabaseName: Option<string>): (r: Result<Settings, Failure>)
    ensures r.Success? <==>
              && host.Some? && MIN_PORT <= port <= MAX_PORT
              && IsSafe(adminDatabaseName) && adminUser.Some? && adminPassword.Some?
              && IsSafe(primaryDatabaseName) && IsSafe(templateDatabaseName)
    ensures r.Success? ==>
              && r.value == Settings(host.value, port, adminDatabaseName.value, adminUser.value,
                                     adminPassword.value, primaryDatabaseName.value, templateDatabaseName.value)
              && r.value.Valid()
    ensures host.None? ==> r == Failure(NullPointer("host"))
    ensures host.Some? && !(MIN_PORT <= port <= MAX_PORT) ==> r == Failure(IllegalArgument("port"))
  {
    if host.None? then Failure(NullPointer("host"))
    else if port < MIN_PORT || port > MAX_PORT then Failure(IllegalArgument("port"))
    else
      match ValidateDatabaseName(adminDatabaseName, "adminDatabaseName")
      case Failure(f) => Failure(f)
      case Success(adminDatabase) =>
        if adminUser.None? then Failure(NullPointer("adminUser"))
        else if adminPassword.None? then Failure(NullPointer("adminPassword"))
        else
          match ValidateDatabaseName(primaryDatabaseName, "primaryDatabaseName")
          case Failure(f) => Failure(f)
          case Success(primary) =>
            match ValidateDatabaseName(templateDatabaseName, "templateDatabaseName")
            case Failure(f) => Failure(f)
            case Success(template) =>
              Success(Settings(host.value, port, adminDatabase, adminUser.value, adminPassword.value,
                               primary, template))
  }

  /**
   * adminUrl(): the JDBC URL of the maintenance database. The URL names the PostgreSQL JDBC
   * scheme and ends with the maintenance database's path; AdminUrlRoundTrip, in the
   * extension's module, reads host, port and database back out of it.
   */
  function AdminUrl(s: Settings): (url: string)
    ensures |url| > 18 && url[..18] == "jdbc:postgresql://"
    ensures |url| > |s.adminDatabase| && url[|url| - |s.adminDatabase| - 1..] == "/" + s.adminDatabase
  {
    "jdbc:postgresql://" + s.host + ":" + IntToString(s.port) + "/" + s.adminDatabase
  }

  // ---------------------------------------------------------------------------
  // The SQL of each operation, and what it does to the server

  /**
   * rebuildSandbox: terminate other sessions on the primary, drop it, clone the template.
   * The names are pasted into the SQL text: the session filter compares the primary's name as
   * a string, the DDL names both databases by unquoted identifier. So the statements touch the
   * primary as written and the case-folded primary and template, nothing else.
   */
  function RebuildStatements(s: Settings): (r: seq<Stmt>)
    ensures forall st :: st in r ==>
              Targets(st) <= {s.primaryDatabaseName, FoldCase(s.primaryDatabaseName), FoldCase(s.templateName)}
  {
    [ TerminateBackends(s.primaryDatabaseName),
      DropIfExists(Bare(s.primaryDatabaseName)),
      CreateFromTemplate(Bare(s.primaryDatabaseName), Bare(s.templateName)) ]
  }

  /**
   * createTemplate: terminate other sessions on the primary, mark it as a template, clone it
   * under the template's name, unmark the primary and mark the clone. As in rebuildSandbox,
   * only the session filter names the primary exactly; the DDL uses unquoted identifiers.
   */
  function CreateTemplateStatements(s: Settings): (r: seq<Stmt>)
    ensures forall st :: st in r ==>
              Targets(st) <= {s.primaryDatabaseName, FoldCase(s.primaryDatabaseName), FoldCase(s.templateName)}
  {
    [ TerminateBackends(s.primaryDatabaseName),
      AlterIsTemplate(Bare(s.primaryDatabaseName), true),
      CreateFromTemplate(Bare(s.templateName), Bare(s.primaryDatabaseName)),
      AlterIsTemplate(Bare(s.primaryDatabaseName), false),
      AlterIsTemplate(Bare(s.templateName), true) ]
  }

  /** The server state after an operation, and the exception it threw, if any. */
  datatype Effect = Effect(engine: Engine, error: Option<Failure>)

  /** As Effect, with the TEMPLATE_READY flag after the operation. */
  datatype PrepareEffect = PrepareEffect(engine: Engine, ready: bool, error: Option<Failure>)

  /** rebuildSandbox on the server: any SQLException surfaces as SandboxException. */
  function RebuildSpec(s: Settings, env: Env, e: Engine): (r: Effect)
    ensures r.error.Some? ==> r.error.value.Sandbox?
  {
    var o := AdminSession(env, e, s.adminDatabase, RebuildStatements(s));
    Effect(o.engine, if o.error.Some? then Some(Sandbox(o.error.value)) else None)
  }

  /**
   * templateExists on the server: the query binds the template's name as a parameter, so it
   * looks for exactly that name. Any SQLException surfaces as SandboxException.
   */
  function TemplateExistsSpec(s: Settings, env: Env, e: Engine): (r: Result<bool, Failure>)
    ensures r.Success? ==> (r.value <==> IsTemplateDb(e, s.templateName))
    ensures r.Failure? ==> r.error.Sandbox?
  {
    match Connect(env, e, s.adminDatabase)
    case Some(err) => Failure(Sandbox(err))
    case None =>
      var o := Exec(env, e, s.adminDatabase, SelectIsTemplate(s.templateName));
      if o.error.Some? then Failure(Sandbox(o.error.value)) else Success(IsTemplateDb(e, s.templateName))
  }

  /** createTemplate on the server: any SQLException surfaces as IllegalStateException. */
  function CreateTemplateSpec(s: Settings, env: Env, e: Engine): (r: Effect)
    ensures r.error.Some? ==> r.error.value.IllegalState?
  {
    var o := AdminSession(env, e, s.adminDatabase, CreateTemplateStatements(s));
    Effect(o.engine, if o.error.Some? then Some(IllegalState(o.error.value)) else None)
  }

  /**
   * prepareSandbox, run by one thread: nothing happens once TEMPLATE_READY is set; otherwise
   * the template is created unless a template-flagged database of that name exists, and the
   * flag is set only when both steps succeeded.
   */
  function PrepareSpec(s: Settings, env: Env, e: Engine, ready: bool): (r: PrepareEffect)
    ensures r.ready <==> r.error.None?
    ensures ready ==> r == PrepareEffect(e, true, None)
    ensures r.error.Some? ==> r.error.value.Sandbox? || r.error.value.IllegalState?
  {
    if ready then PrepareEffect(e, true, None)
    else
      match TemplateExistsSpec(s, env, e)
      case Failure(f) => PrepareEffect(e, false, Some(f))
      case Success(found) =>
        if found then PrepareEffect(e, true, None)
        else
          var c := CreateTemplateSpec(s, env, e);
          PrepareEffect(c.engine, c.error.None?, c.error)
  }

  // ---------------------------------------------------------------------------
  // The objects

  /**
   * What a provider acts on: the PostgreSQL server behind its admin connections, and the
   * JVM-wide TEMPLATE_READY flag shared by every provider instance.
   */
  class Runtime {
    const env: Env
    var engine: Engine
    var templateReady: bool

    /** A fresh JVM: TEMPLATE_READY starts false. */
    constructor (env: Env, engine: Engine)
      ensures this.env == env && this.engine == engine && !templateReady
    {
      this.env := env;
      this.engine := engine;
      templateReady := false;
    }

    /**
     * DriverManager.getConnection(adminUrl(), ...): it succeeds exactly when the server is
     * reachable and the database in the URL exists, and changes nothing.
     */
    method Open(conn: string) returns (err: Option<SqlError>)
      ensures err == Connect(env, engine, conn)
      ensures err.None? <==> env.reachable && conn in engine.databases
    {
      err := Connect(env, engine, conn);
    }

    /** Statement.execute on a connection to `conn`. */
    method Execute(conn: string, st: Stmt) returns (err: Option<SqlError>)
      modifies this`engine
      ensures Outcome(engine, err) == Exec(env, old(engine), conn, st)
    {
      var o := Exec(env, engine, conn, st);
      engine, err := o.engine, o.error;
    }

    /** The pg_database query of templateExists: does a template-flagged `db` exist? */
    method QueryIsTemplate(conn: string, db: string) returns (r: Result<bool, SqlError>)
      ensures Exec(env, engine, conn, SelectIsTemplate(db)).error.Some? ==>
                r == Failure(Exec(env, engine, conn, SelectIsTemplate(db)).error.value)
      ensures Exec(env, engine, conn, SelectIsTemplate(db)).error.None? ==>
                r == Success(IsTemplateDb(engine, db))
    {
      var o := Exec(env, engine, conn, SelectIsTemplate(db));
      r := if o.error.Some? then Failure(o.error.value) else Success(IsTemplateDb(engine, db));
    }
  }

  class PostgresSandboxDatabaseProvider {
    const settings: Settings
    const runtime: Runtime

    /** Built from settings that passed Configure's checks. */
    constructor (settings: Settings, runtime: Runtime)
      requires settings.Valid()
      ensures this.settings == settings && this.runtime == runtime
    {
      this.settings := settings;
      this.runtime := runtime;
    }

    method PrepareSandbox() returns (err: Option<Failure>)
      modifies runtime
      ensures var r := PrepareSpec(settings, runtime.env, old(runtime.engine), old(runtime.templateReady));
              runtime.engine == r.engine && runtime.templateReady == r.ready && err == r.error
      ensures old(runtime.templateReady) ==> runtime.engine == old(runtime.engine) && runtime.templateReady && err.None?
      ensures err.None? ==> runtime.templateReady
      ensures err.None? && !old(runtime.templateReady) && !IsTemplateDb(old(runtime.engine), settings.templateName) ==>
                IsTemplateDb(runtime.engine, FoldCase(settings.templateName))
      ensures err.Some? ==> !runtime.templateReady
    {
      if runtime.templateReady {
        return None;
      }
      // The synchronized block re-reads the flag; run by one thread it reads what was just read.
      var found := TemplateExists();
      if found.Failure? {
        return Some(found.error);
      }
      if !found.value {
        err := CreateTemplate();
        if err.Some? {
          return;
        }
      }
      runtime.templateReady := true;
      err := None;
      PrepareEstablishesTemplate(settings, runtime.env, old(runtime.engine), false);
    }

    method RebuildSandbox() returns (err: Option<Failure>)
      modifies runtime`engine
      ensures Effect(runtime.engine, err) == RebuildSpec(settings, runtime.env, old(runtime.engine))
      ensures err.None? ==>
                var primary, template := FoldCase(settings.primaryDatabaseName), FoldCase(settings.templateName);
                && primary in runtime.engine.databases
                && template in runtime.engine.databases
                && runtime.engine.databases[primary].content == runtime.engine.databases[template].content
      ensures runtime.templateReady == old(runtime.templateReady)
    {
      var admin, p, t := settings.adminDatabase, settings.primaryDatabaseName, settings.templateName;
      ghost var e := runtime.engine;
      var sqlErr := runtime.Open(admin);
      if sqlErr.None? {
        sqlErr := runtime.Execute(admin, TerminateBackends(p));
      }
      if sqlErr.None? {
        sqlErr := runtime.Execute(admin, DropIfExists(Bare(p)));
      }
      if sqlErr.None? {
        sqlErr := runtime.Execute(admin, CreateFromTemplate(Bare(p), Bare(t)));
      }
      err := if sqlErr.Some? then Some(Sandbox(sqlErr.value)) else None;
      RebuildUnfold(settings, runtime.env, e);
      if err.None? {
        RebuildRestoresPrimary(settings, runtime.env, e);
      }
    }

    method TemplateExists() returns (r: Result<bool, Failure>)
      ensures r == TemplateExistsSpec(settings, runtime.env, runtime.engine)
      ensures r.Success? ==> (r.value <==> IsTemplateDb(runtime.engine, settings.templateName))
    {
      var sqlErr := runtime.Open(settings.adminDatabase);
      if sqlErr.Some? {
        return Failure(Sandbox(sqlErr.value));
      }
      var q := runtime.QueryIsTemplate(settings.adminDatabase, settings.templateName);
      r := if q.Failure? then Failure(Sandbox(q.error)) else Success(q.value);
    }

    method CreateTemplate() returns (err: Option<Failure>)
      modifies runtime`engine
      ensures Effect(runtime.engine, err) == CreateTemplateSpec(settings, runtime.env, old(runtime.engine))
    {
      var admin, p, t := settings.adminDatabase, settings.primaryDatabaseName, settings.templateName;
      ghost var e := runtime.engine;
      var sqlErr := runtime.Open(admin);
      if sqlErr.None? {
        sqlErr := runtime.Execute(admin, TerminateBackends(p));
      }
      if sqlErr.None? {
        sqlErr := runtime.Execute(admin, AlterIsTemplate(Bare(p), true));
      }
      if sqlErr.None? {
        sqlErr := runtime.Execute(admin, CreateFromTemplate(Bare(t), Bare(p)));
      }
      if sqlErr.None? {
        sqlErr := runtime.Execute(admin, AlterIsTemplate(Bare(p), false));
      }
      if sqlErr.None? {
        sqlErr := runtime.Execute(admin, AlterIsTemplate(Bare(t), true));
      }
      err := if sqlErr.Some? then Some(IllegalState(sqlErr.value)) else None;
      CreateTemplateUnfold(settings, runtime.env, e);
    }
  }

  // ---------------------------------------------------------------------------
  // Unfolding the statement lists

  /** One more statement after an outcome, unless the outcome is already a failure. */
  function Then(env: Env, o: Outcome, conn: string, st: Stmt): Outcome {
    if o.error.Some? then o else Exec(env, o.engine, conn, st)
  }

  function Opened(env: Env, e: Engine, conn: string): Outcome {
    Outcome(e, Connect(env, e, conn))
  }

  /** The rest of a run, continuing from an outcome unless it is already a failure. */
  function After(env: Env, o: Outcome, conn: string, stmts: seq<Stmt>): Outcome {
    if o.error.Some? then o else Run(env, o.engine, conn, stmts)
  }

  lemma AfterStep(env: Env, o: Outcome, conn: string, stmts: seq<Stmt>)
    requires stmts != []
    ensures After(env, o, conn, stmts) == After(env, Then(env, o, conn, stmts[0]), conn, stmts[1..])
  {
  }

  lemma AdminSessionIsAfter(env: Env, e: Engine, conn: string, stmts: seq<Stmt>)
    ensures AdminSession(env, e, conn, stmts) == After(env, Opened(env, e, conn), conn, stmts)
  {
  }

  /** A session of three statements, step by step. */
  lemma AdminSession3(env: Env, e: Engine, conn: string, stmts: seq<Stmt>)
    requires |stmts| == 3
    ensures AdminSession(env, e, conn, stmts) ==
            Then(env, Then(env, Then(env, Opened(env, e, conn), conn, stmts[0]), conn, stmts[1]), conn, stmts[2])
  {
    assert stmts[1..][1..][1..] == [];
    AdminSessionIsAfter(env, e, conn, stmts);
    AfterStep(env, Opened(env, e, conn), conn, stmts);
    var o0 := Then(env, Opened(env, e, conn), conn, stmts[0]);
    AfterStep(env, o0, conn, stmts[1..]);
    var o1 := Then(env, o0, conn, stmts[1]);
    AfterStep(env, o1, conn, stmts[1..][1..]);
  }

  /** A session of five statements, step by step. */
  lemma AdminSession5(env: Env, e: Engine, conn: string, stmts: seq<Stmt>)
    requires |stmts| == 5
    ensures var o0 := Then(env, Opened(env, e, conn), conn, stmts[0]);
            var o1 := Then(env, o0, conn, stmts[1]);
            var o2 := Then(env, o1, conn, stmts[2]);
            var o3 := Then(env, o2, conn, stmts[3]);
            AdminSession(env, e, conn, stmts) == Then(env, o3, conn, stmts[4])
  {
    assert stmts[1..][1..][1..][1..][1..] == [];
    AdminSessionIsAfter(env, e, conn, stmts);
    AfterStep(env, Opened(env, e, conn), conn, stmts);
    var o0 := Then(env, Opened(env, e, conn), conn, stmts[0]);
    AfterStep(env, o0, conn, stmts[1..]);
    var o1 := Then(env, o0, conn, stmts[1]);
    AfterStep(env, o1, conn, stmts[1..][1..]);
    var o2 := Then(env, o1, conn, stmts[2]);
    AfterStep(env, o2, conn, stmts[1..][1..][1..]);
    var o3 := Then(env, o2, conn, stmts[3]);
    AfterStep(env, o3, conn, stmts[1..][1..][1..][1..]);
  }

  lemma RebuildUnfold(s: Settings, env: Env, e: Engine)
    ensures var admin, p, t := s.adminDatabase, s.primaryDatabaseName, s.templateName;
            var o := Then(env, Then(env, Then(env, Opened(env, e, admin), admin, TerminateBackends(p)),
                                    admin, DropIfExists(Bare(p))),
                          admin, CreateFromTemplate(Bare(p), Bare(t)));
            RebuildSpec(s, env, e) == Effect(o.engine, if o.error.Some? then Some(Sandbox(o.error.value)) else None)
  {
    AdminSession3(env, e, s.adminDatabase, RebuildStatements(s));
  }

  lemma CreateTemplateUnfold(s: Settings, env: Env, e: Engine)
    ensures var admin, p, t := s.adminDatabase, s.primaryDatabaseName, s.templateName;
            var o0 := Then(env, Opened(env, e, admin), admin, TerminateBackends(p));
            var o1 := Then(env, o0, admin, AlterIsTemplate(Bare(p), true));
            var o2 := Then(env, o1, admin, CreateFromTemplate(Bare(t), Bare(p)));
            var o3 := Then(env, o2, admin, AlterIsTemplate(Bare(p), false));
            var o := Then(env, o3, admin, AlterIsTemplate(Bare(t), true));
            CreateTemplateSpec(s, env, e) == Effect(o.engine, if o.error.Some? then Some(IllegalState(o.error.value)) else None)
  {
    AdminSession5(env, e, s.adminDatabase, CreateTemplateStatements(s));
  }

  // ---------------------------------------------------------------------------
  // Properties of rebuildSandbox
  //
  // The DDL acts on the case-folded names (`primary`, `template` below); the session filter
  // and the pg_database query use the names as written. For names without upper-case letters,
  // which includes every default and every name in the tests, the two coincide.

  /** No statement of the list is refused outright, by the parser or otherwise. */
  predicate NoneRefused(env: Env, stmts: seq<Stmt>) {
    forall i :: 0 <= i < |stmts| ==> Accepted(env, stmts[i])
  }

  /** A folded name is its own folding. */
  lemma FoldCaseIdempotent(name: string)
    ensures FoldCase(FoldCase(name)) == FoldCase(name)
  {
  }

  /** The server state in which rebuildSandbox can complete. */
  predicate CanRebuild(s: Settings, env: Env, e: Engine) {
    var admin, p := s.adminDatabase, s.primaryDatabaseName;
    var primary, template := FoldCase(p), FoldCase(s.templateName);
    && env.reachable && admin in e.databases
    && NoneRefused(env, RebuildStatements(s))
    && (primary in e.databases ==>
          && !e.databases[primary].isTemplate && primary != admin
          && (primary != p ==> SessionsOn(e, primary) == {}))
    && template in e.databases && template != primary
    && SessionsOn(e, template) == {}
  }

  lemma SessionsAfterTerminate(e: Engine, p: string, d: string)
    ensures SessionsOn(e.(sessions := e.sessions - SessionsOn(e, p)), d) == if d == p then {} else SessionsOn(e, d)
  {
  }

  /**
   * rebuildSandbox succeeds exactly in the states CanRebuild describes: the server is
   * reachable, the admin database and the template exist, the template is not the database
   * being dropped and nobody is connected to it, the dropped database is absent or droppable
   * (not a template, not the admin database, no session that the exact-name terminate missed),
   * and no statement is refused.
   */
  lemma RebuildSucceedsIff(s: Settings, env: Env, e: Engine)
    ensures RebuildSpec(s, env, e).error.None? <==> CanRebuild(s, env, e)
  {
    RebuildUnfold(s, env, e);
    var p, t := s.primaryDatabaseName, s.templateName;
    FoldCaseIdempotent(t);
    SessionsAfterTerminate(e, p, FoldCase(t));
    SessionsAfterTerminate(e, p, FoldCase(p));
    var stmts := RebuildStatements(s);
    assert NoneRefused(env, stmts) <==> Accepted(env, stmts[0]) && Accepted(env, stmts[1]) && Accepted(env, stmts[2]);
  }

  /**
   * After a successful rebuild the (case-folded) primary is a fresh, non-template clone of the
   * template's content, the sessions on the primary's name are gone, and no other database or
   * session changed.
   */
  lemma RebuildRestoresPrimary(s: Settings, env: Env, e: Engine)
    requires RebuildSpec(s, env, e).error.None?
    ensures var p := s.primaryDatabaseName;
            var primary, template := FoldCase(p), FoldCase(s.templateName);
            var after := RebuildSpec(s, env, e).engine;
            && template in e.databases && primary in after.databases && template in after.databases
            && after.databases == e.databases[primary := Db(e.databases[template].content, false)]
            && after.sessions == e.sessions - SessionsOn(e, p)
            && SessionsOn(after, p) == {}
            && (primary in e.databases ==> SessionsOn(after, primary) == {})
            && after.databases[primary].content == after.databases[template].content
  {
    RebuildUnfold(s, env, e);
    RebuildSucceedsIff(s, env, e);
    var p := s.primaryDatabaseName;
    var primary, template := FoldCase(p), FoldCase(s.templateName);
    FoldCaseIdempotent(s.templateName);
    SessionsAfterTerminate(e, p, template);
    SessionsAfterTerminate(e, p, primary);
    SessionsAfterTerminate(e, p, p);
    var e0 := e.(sessions := e.sessions - SessionsOn(e, p));
    var e1 := if primary in e.databases then e0.(databases := e0.databases - {primary}) else e0;
    assert e1.databases[primary := Db(e.databases[template].content, false)] ==
           e.databases[primary := Db(e.databases[template].content, false)];
  }

  /** Rebuilding twice ends where rebuilding once does. */
  lemma RebuildIdempotent(s: Settings, env: Env, e: Engine)
    requires Consistent(e)
    requires RebuildSpec(s, env, e).error.None?
    ensures RebuildSpec(s, env, RebuildSpec(s, env, e).engine) == RebuildSpec(s, env, e)
  {
    var e1 := RebuildSpec(s, env, e).engine;
    var p := s.primaryDatabaseName;
    var primary, template := FoldCase(p), FoldCase(s.templateName);
    RebuildRestoresPrimary(s, env, e);
    RebuildSucceedsIff(s, env, e);
    SessionsAfterTerminate(e, p, template);
    SessionsAfterTerminate(e, p, primary);
    assert SessionsOn(e1, template) == {};
    assert SessionsOn(e1, primary) == {} by {
      assert primary !in e.databases ==> SessionsOn(e, primary) == {};
    }
    RebuildSucceedsIff(s, env, e1);
    RebuildRestoresPrimary(s, env, e1);
    assert e1.databases[primary := Db(e1.databases[template].content, false)] == e1.databases;
    assert e1.sessions - SessionsOn(e1, p) == e1.sessions;
  }

  /**
   * Whatever a test did to the database the rebuild drops (its content, and connections it
   * left open under the primary's name), the next rebuild ends in the same state: cycles never
   * accumulate state.
   */
  lemma RebuildDiscardsTestWrites(s: Settings, env: Env, e: Engine, content: Content, leaked: set<Session>)
    requires Consistent(e)
    requires RebuildSpec(s, env, e).error.None?
    requires forall x :: x in leaked ==> x.datname == s.primaryDatabaseName
    ensures var primary := FoldCase(s.primaryDatabaseName);
            var used := Engine(e.databases[primary := Db(content, false)], e.sessions + leaked);
            RebuildSpec(s, env, used) == RebuildSpec(s, env, e)
  {
    var p := s.primaryDatabaseName;
    var primary, template := FoldCase(p), FoldCase(s.templateName);
    var used := Engine(e.databases[primary := Db(content, false)], e.sessions + leaked);
    RebuildSucceedsIff(s, env, e);
    FoldCaseIdempotent(s.templateName);
    assert SessionsOn(used, template) == SessionsOn(e, template);
    assert primary != p ==> SessionsOn(used, primary) == {} by {
      assert primary !in e.databases ==> SessionsOn(e, primary) == {};
    }
    RebuildSucceedsIff(s, env, used);
    RebuildRestoresPrimary(s, env, e);
    RebuildRestoresPrimary(s, env, used);
    assert used.sessions - SessionsOn(used, p) == e.sessions - SessionsOn(e, p);
  }

  /** An unreachable server: nothing changes, and the failure surfaces as SandboxException. */
  lemma RebuildUnreachable(s: Settings, env: Env, e: Engine)
    requires !env.reachable
    ensures RebuildSpec(s, env, e) == Effect(e, Some(Sandbox(ConnectionFailed)))
  {
  }

  /**
   * Without a template the clone fails, and the primary, already dropped by then, stays
   * dropped: the failure surfaces as SandboxException.
   */
  lemma RebuildWithoutTemplate(s: Settings, env: Env, e: Engine)
    requires env.reachable && s.adminDatabase in e.databases
    requires NoneRefused(env, RebuildStatements(s))
    requires var p := s.primaryDatabaseName;
             var primary := FoldCase(p);
             primary in e.databases ==>
               !e.databases[primary].isTemplate && primary != s.adminDatabase &&
               (primary != p ==> SessionsOn(e, primary) == {})
    requires FoldCase(s.templateName) !in e.databases
    ensures RebuildSpec(s, env, e).error == Some(Sandbox(UndefinedDatabase(FoldCase(s.templateName))))
    ensures FoldCase(s.primaryDatabaseName) !in RebuildSpec(s, env, e).engine.databases
  {
    RebuildUnfold(s, env, e);
    var p := s.primaryDatabaseName;
    SessionsAfterTerminate(e, p, FoldCase(p));
    var stmts := RebuildStatements(s);
    assert Accepted(env, stmts[0]) && Accepted(env, stmts[1]) && Accepted(env, stmts[2]);
  }

  // ---------------------------------------------------------------------------
  // Properties of createTemplate and prepareSandbox

  /** The server state in which createTemplate can complete. */
  predicate CanCreateTemplate(s: Settings, env: Env, e: Engine) {
    var p := s.primaryDatabaseName;
    var primary, template := FoldCase(p), FoldCase(s.templateName);
    && env.reachable && s.adminDatabase in e.databases
    && NoneRefused(env, CreateTemplateStatements(s))
    && primary in e.databases
    && template !in e.databases
    && (primary != p ==> SessionsOn(e, primary) == {})
  }

  /** createTemplate succeeds exactly in the states CanCreateTemplate describes. */
  lemma CreateTemplateSucceedsIff(s: Settings, env: Env, e: Engine)
    ensures CreateTemplateSpec(s, env, e).error.None? <==> CanCreateTemplate(s, env, e)
  {
    CreateTemplateUnfold(s, env, e);
    var p := s.primaryDatabaseName;
    SessionsAfterTerminate(e, p, FoldCase(p));
    var stmts := CreateTemplateStatements(s);
    assert NoneRefused(env, stmts) <==>
           Accepted(env, stmts[0]) && Accepted(env, stmts[1]) && Accepted(env, stmts[2]) &&
           Accepted(env, stmts[3]) && Accepted(env, stmts[4]);
  }

  /**
   * A successful createTemplate freezes the primary's content under the (case-folded)
   * template name, marked as a template; the primary keeps its content and ends unmarked,
   * nobody else is connected to it, and no other database changed.
   */
  lemma CreateTemplateClonesPrimary(s: Settings, env: Env, e: Engine)
    requires CreateTemplateSpec(s, env, e).error.None?
    ensures var p := s.primaryDatabaseName;
            var primary, template := FoldCase(p), FoldCase(s.templateName);
            var after := CreateTemplateSpec(s, env, e).engine;
            && primary in e.databases && primary != template
            && after.databases == e.databases[template := Db(e.databases[primary].content, true)]
                                             [primary := Db(e.databases[primary].content, false)]
            && after.sessions == e.sessions - SessionsOn(e, p)
            && SessionsOn(after, primary) == {}
  {
    CreateTemplateUnfold(s, env, e);
    CreateTemplateSucceedsIff(s, env, e);
    var p := s.primaryDatabaseName;
    SessionsAfterTerminate(e, p, FoldCase(p));
  }

  /**
   * When the last ALTER of createTemplate fails, nothing is rolled back: the clone stays,
   * holding the primary's content but not marked as a template.
   */
  lemma InterruptedCreateTemplate(s: Settings, env: Env, e: Engine)
    requires env.reachable && s.adminDatabase in e.databases
    requires var p := s.primaryDatabaseName;
             var primary := FoldCase(p);
             primary in e.databases && FoldCase(s.templateName) !in e.databases &&
             (primary != p ==> SessionsOn(e, primary) == {})
    requires var stmts := CreateTemplateStatements(s);
             NoneRefused(env, stmts[..4]) && stmts[4] in env.failing
    ensures var primary, template := FoldCase(s.primaryDatabaseName), FoldCase(s.templateName);
            var r := CreateTemplateSpec(s, env, e);
            && r.error == Some(IllegalState(StatementFailed(AlterIsTemplate(Bare(s.templateName), true))))
            && r.engine.databases == e.databases[template := Db(e.databases[primary].content, false)]
                                                [primary := Db(e.databases[primary].content, false)]
  {
    CreateTemplateUnfold(s, env, e);
    var p := s.primaryDatabaseName;
    SessionsAfterTerminate(e, p, FoldCase(p));
    var stmts := CreateTemplateStatements(s);
    assert stmts[..4][0] == stmts[0] && stmts[..4][1] == stmts[1] && stmts[..4][2] == stmts[2] && stmts[..4][3] == stmts[3];
  }

  /**
   * A createTemplate that fails part-way leaves exactly what its completed statements did:
   * the statements before the failing one stay applied, and the failing one changed nothing.
   */
  lemma CreateTemplateNoRollback(s: Settings, env: Env, e: Engine)
    requires Connect(env, e, s.adminDatabase).None?
    ensures var stmts := CreateTemplateStatements(s);
            var n := Completed(env, e, s.adminDatabase, stmts);
            var r := CreateTemplateSpec(s, env, e);
            && r.engine == Run(env, e, s.adminDatabase, stmts[..n]).engine
            && (r.error.Some? <==> n < |stmts|)
            && (n < |stmts| ==>
                  Exec(env, r.engine, s.adminDatabase, stmts[n]).error.Some? &&
                  r.error == Some(IllegalState(Exec(env, r.engine, s.adminDatabase, stmts[n]).error.value)))
  {
    var stmts := CreateTemplateStatements(s);
    RunKeepsCompletedSteps(env, e, s.adminDatabase, stmts);
  }

  /**
   * prepareSandbox on a server where the (case-folded) template name is taken while no
   * template-flagged database carries the template's name as written, as after an interrupted
   * createTemplate: it fails on CREATE DATABASE after it has already marked the primary as a
   * template, and from then on rebuildSandbox cannot drop the primary.
   */
  lemma RetryAfterInterruptedCreate(s: Settings, env: Env, e: Engine)
    requires env.reachable && s.adminDatabase in e.databases
    requires SelectIsTemplate(s.templateName) !in env.failing
    requires NoneRefused(env, CreateTemplateStatements(s)) && NoneRefused(env, RebuildStatements(s))
    requires FoldCase(s.primaryDatabaseName) in e.databases && FoldCase(s.templateName) in e.databases
    requires !IsTemplateDb(e, s.templateName)
    ensures var primary, template := FoldCase(s.primaryDatabaseName), FoldCase(s.templateName);
            var r := PrepareSpec(s, env, e, false);
            && r.error == Some(IllegalState(DuplicateDatabase(template)))
            && !r.ready
            && IsTemplateDb(r.engine, primary)
            && RebuildSpec(s, env, r.engine).error == Some(Sandbox(CannotDropTemplate(primary)))
  {
    var cs := CreateTemplateStatements(s);
    assert Accepted(env, cs[0]) && Accepted(env, cs[1]) && Accepted(env, cs[2]);
    CreateTemplateUnfold(s, env, e);
    var r := PrepareSpec(s, env, e, false);
    var rs := RebuildStatements(s);
    assert Accepted(env, rs[0]) && Accepted(env, rs[1]);
    RebuildUnfold(s, env, r.engine);
  }

  /**
   * A successful prepareSandbox leaves the flag set. When a template-flagged database of the
   * template's name already existed nothing changed; otherwise a template-flagged database
   * of the case-folded name now exists.
   */
  lemma PrepareEstablishesTemplate(s: Settings, env: Env, e: Engine, ready: bool)
    requires ready ==> IsTemplateDb(e, s.templateName)
    requires PrepareSpec(s, env, e, ready).error.None?
    ensures PrepareSpec(s, env, e, ready).ready
    ensures IsTemplateDb(e, s.templateName) ==> PrepareSpec(s, env, e, ready).engine == e
    ensures !IsTemplateDb(e, s.templateName) ==> IsTemplateDb(PrepareSpec(s, env, e, ready).engine, FoldCase(s.templateName))
  {
    if !ready && TemplateExistsSpec(s, env, e) == Success(false) {
      CreateTemplateSucceedsIff(s, env, e);
      CreateTemplateClonesPrimary(s, env, e);
    }
  }

  /** When the template already exists (another JVM made it), prepareSandbox runs no DDL. */
  lemma PrepareKeepsExistingTemplate(s: Settings, env: Env, e: Engine)
    requires env.reachable && s.adminDatabase in e.databases
    requires SelectIsTemplate(s.templateName) !in env.failing
    requires IsTemplateDb(e, s.templateName)
    ensures PrepareSpec(s, env, e, false) == PrepareEffect(e, true, None)
  {
  }

  /** Once prepareSandbox succeeded, calling it again changes nothing. */
  lemma PrepareIdempotent(s: Settings, env: Env, e: Engine, ready: bool)
    requires PrepareSpec(s, env, e, ready).error.None?
    ensures var r := PrepareSpec(s, env, e, ready);
            PrepareSpec(s, env, r.engine, r.ready) == r
  {
  }

  /**
   * The template is frozen: after a successful prepareSandbox, tests may change the primary
   * at will; a later prepareSandbox in a fresh JVM, whose flag is clear, either fails or
   * changes nothing at all; and even when it fails, the template's content and flag are
   * left exactly as they were.
   */
  lemma TemplateFrozen(s: Settings, env: Env, e: Engine, ready: bool, content: Content, flag: bool)
    requires ready ==> IsTemplateDb(e, s.templateName)
    requires s.primaryDatabaseName != s.templateName
    requires PrepareSpec(s, env, e, ready).error.None?
    ensures var r := PrepareSpec(s, env, e, ready);
            var used := r.engine.(databases := r.engine.databases[s.primaryDatabaseName := Db(content, flag)]);
            var again := PrepareSpec(s, env, used, false);
            && (again.error.None? ==> again.engine == used)
            && (var template := FoldCase(s.templateName);
                FoldCase(s.primaryDatabaseName) != template && template in used.databases ==>
                  template in again.engine.databases && again.engine.databases[template] == used.databases[template])
  {
    PrepareEstablishesTemplate(s, env, e, ready);
    var r := PrepareSpec(s, env, e, ready);
    var used := r.engine.(databases := r.engine.databases[s.primaryDatabaseName := Db(content, flag)]);
    if !IsTemplateDb(used, s.templateName) {
      assert FoldCase(s.templateName) in used.databases;
      CreateTemplateSucceedsIff(s, env, used);
      CreateTemplateUnfold(s, env, used);
    }
  }

  /**
   * The whole cycle: prepare on a server where the template does not exist yet, let a test
   * rewrite the database the DDL names and leave connections open on the primary's name,
   * rebuild; that database is back to the content it had when the template was made.
   */
  lemma PrepareThenRebuild(s: Settings, env: Env, e: Engine, content: Content, leaked: set<Session>)
    requires Consistent(e) && env.reachable && env.failing == {}
    requires FoldCase(s.primaryDatabaseName) !in env.keywords && FoldCase(s.templateName) !in env.keywords
    requires var p := s.primaryDatabaseName;
             var primary := FoldCase(p);
             && s.adminDatabase in e.databases
             && primary in e.databases && primary != s.adminDatabase
             && (primary != p ==> SessionsOn(e, primary) == {})
    requires FoldCase(s.templateName) !in e.databases && !IsTemplateDb(e, s.templateName)
    requires forall x :: x in leaked ==> x.datname == s.primaryDatabaseName
    ensures var prepared := PrepareSpec(s, env, e, false);
            var primary := FoldCase(s.primaryDatabaseName);
            var used := Engine(prepared.engine.databases[primary := Db(content, false)], prepared.engine.sessions + leaked);
            && prepared.error.None?
            && RebuildSpec(s, env, used).error.None?
            && primary in RebuildSpec(s, env, used).engine.databases
            && RebuildSpec(s, env, used).engine.databases[primary] == Db(e.databases[primary].content, false)
  {
    var p, t := s.primaryDatabaseName, s.templateName;
    var primary, template := FoldCase(p), FoldCase(t);
    assert CanCreateTemplate(s, env, e);
    CreateTemplateSucceedsIff(s, env, e);
    CreateTemplateClonesPrimary(s, env, e);
    FoldCaseIdempotent(t);
    var prepared := PrepareSpec(s, env, e, false);
    var used := Engine(prepared.engine.databases[primary := Db(content, false)], prepared.engine.sessions + leaked);
    assert SessionsOn(e, template) == {};
    assert SessionsOn(used, template) == {};
    RebuildSucceedsIff(s, env, used);
    RebuildRestoresPrimary(s, env, used);
  }

  // ---------------------------------------------------------------------------
  // Names with upper-case letters
  //
  // The allow-list accepts upper-case letters, but only the session filter and the
  // pg_database query see such a name as written; the DDL sees it folded to lower case.

  /**
   * A primary whose name holds an upper-case letter is never rebuilt: the DDL drops and
   * re-clones its lower-case namesake, the rebuild reports success, and the database under
   * the name as written, the one the tests use, keeps whatever they wrote to it.
   */
  lemma MixedCasePrimaryNotRestored(s: Settings, env: Env, e: Engine)
    requires !IsFolded(s.primaryDatabaseName)
    requires s.primaryDatabaseName in e.databases
    requires CanRebuild(s, env, e)
    ensures var after := RebuildSpec(s, env, e);
            && after.error.None?
            && s.primaryDatabaseName in after.engine.databases
            && after.engine.databases[s.primaryDatabaseName] == e.databases[s.primaryDatabaseName]
            && FoldCase(s.primaryDatabaseName) in after.engine.databases
  {
    RebuildSucceedsIff(s, env, e);
    RebuildRestoresPrimary(s, env, e);
  }

  /**
   * A template name holding an upper-case letter breaks the next JVM. The first
   * prepareSandbox creates the template under the lower-case name, which the exact-name
   * query never finds; so the next JVM's prepareSandbox creates it again, fails on the taken
   * name after marking the primary as a template, and rebuildSandbox can then no longer drop
   * the primary.
   */
  lemma MixedCaseTemplateBreaksNextJvm(s: Settings, env: Env, e: Engine)
    requires !IsFolded(s.templateName)
    requires !IsTemplateDb(e, s.templateName)
    requires SelectIsTemplate(s.templateName) !in env.failing && NoneRefused(env, RebuildStatements(s))
    requires PrepareSpec(s, env, e, false).error.None?
    ensures var first := PrepareSpec(s, env, e, false).engine;
            var next := PrepareSpec(s, env, first, false);
            && next.error == Some(IllegalState(DuplicateDatabase(FoldCase(s.templateName))))
            && RebuildSpec(s, env, next.engine).error == Some(Sandbox(CannotDropTemplate(FoldCase(s.primaryDatabaseName))))
  {
    CreateTemplateSucceedsIff(s, env, e);
    CreateTemplateClonesPrimary(s, env, e);
    var first := PrepareSpec(s, env, e, false).engine;
    assert !IsTemplateDb(first, s.templateName);
    RetryAfterInterruptedCreate(s, env, first);
  }

  // Names that are SQL key words
  //
  // The allow-list also accepts words such as `order`, `user` or `select`, which the
  // server's grammar refuses as an unquoted database name.

  /** The allow-list admits names the DDL cannot use unquoted. */
  lemma AllowListAdmitsKeywords()
    ensures forall w :: w in ["order", "user", "select", "table", "group"] ==>
              ValidateDatabaseName(Some(w), "primaryDatabaseName") == Success(w)
  {
  }

  /**
   * A primary whose name is a key word is never rebuilt: once the sessions on it are
   * terminated, the DROP does not parse, and no database changes.
   */
  lemma KeywordPrimaryNeverRebuilds(s: Settings, env: Env, e: Engine)
    requires FoldCase(s.primaryDatabaseName) in env.keywords
    requires env.reachable && s.adminDatabase in e.databases
    requires TerminateBackends(s.primaryDatabaseName) !in env.failing
    ensures var r := RebuildSpec(s, env, e);
            && r.error == Some(Sandbox(SyntaxError(DropIfExists(Bare(s.primaryDatabaseName)))))
            && r.engine.databases == e.databases
            && r.engine.sessions == e.sessions - SessionsOn(e, s.primaryDatabaseName)
  {
    RebuildUnfold(s, env, e);
  }

  /**
   * A template whose name is a key word leaves the primary marked as a template: the first
   * ALTER succeeds, the CREATE does not parse, and nothing is rolled back, so the next
   * rebuildSandbox cannot drop the primary.
   */
  lemma KeywordTemplateLeavesPrimaryMarked(s: Settings, env: Env, e: Engine)
    requires FoldCase(s.templateName) in env.keywords
    requires env.reachable && s.adminDatabase in e.databases
    requires var p := s.primaryDatabaseName;
             var primary := FoldCase(p);
             && primary in e.databases && primary != s.adminDatabase
             && (primary != p ==> SessionsOn(e, primary) == {})
    requires var stmts := CreateTemplateStatements(s);
             Accepted(env, stmts[0]) && Accepted(env, stmts[1])
    requires DropIfExists(Bare(s.primaryDatabaseName)) !in env.failing
    ensures var p, t := s.primaryDatabaseName, s.templateName;
            var primary := FoldCase(p);
            var r := CreateTemplateSpec(s, env, e);
            && r.error == Some(IllegalState(SyntaxError(CreateFromTemplate(Bare(t), Bare(p)))))
            && r.engine.databases == e.databases[primary := Db(e.databases[primary].content, true)]
            && RebuildSpec(s, env, r.engine).error == Some(Sandbox(CannotDropTemplate(primary)))
  {
    CreateTemplateUnfold(s, env, e);
    var p := s.primaryDatabaseName;
    SessionsAfterTerminate(e, p, FoldCase(p));
    var r := CreateTemplateSpec(s, env, e);
    RebuildUnfold(s, env, r.engine);
    SessionsAfterTerminate(r.engine, p, FoldCase(p));
  }

  /** rebuildSandbox with quoted identifiers: the DDL names the databases exactly as written. */
  function QuotedRebuildStatements(s: Settings): (r: seq<Stmt>)
    ensures forall st :: st in r ==> Targets(st) <= {s.primaryDatabaseName, s.templateName}
  {
    [ TerminateBackends(s.primaryDatabaseName),
      DropIfExists(Quoted(s.primaryDatabaseName)),
      CreateFromTemplate(Quoted(s.primaryDatabaseName), Quoted(s.templateName)) ]
  }

  function QuotedRebuildSpec(s: Settings, env: Env, e: Engine): (r: Effect)
    ensures r.error.Some? ==> r.error.value.Sandbox?
  {
    var o := AdminSession(env, e, s.adminDatabase, QuotedRebuildStatements(s));
    Effect(o.engine, if o.error.Some? then Some(Sandbox(o.error.value)) else None)
  }

  /**
   * With quoted identifiers a successful rebuild restores the primary under its name as
   * written, whatever its letters' case, and nobody is left connected to it.
   */
  lemma QuotedRebuildRestoresPrimary(s: Settings, env: Env, e: Engine)
    requires QuotedRebuildSpec(s, env, e).error.None?
    ensures var p, t := s.primaryDatabaseName, s.templateName;
            var after := QuotedRebuildSpec(s, env, e).engine;
            && t in e.databases && p != t
            && after.databases == e.databases[p := Db(e.databases[t].content, false)]
            && after.sessions == e.sessions - SessionsOn(e, p)
            && SessionsOn(after, p) == {}
  {
    var p, t := s.primaryDatabaseName, s.templateName;
    AdminSession3(env, e, s.adminDatabase, QuotedRebuildStatements(s));
    SessionsAfterTerminate(e, p, t);
    SessionsAfterTerminate(e, p, p);
    var e0 := e.(sessions := e.sessions - SessionsOn(e, p));
    var e1 := if p in e.databases then e0.(databases := e0.databases - {p}) else e0;
    assert e1.databases[p := Db(e.databases[t].content, false)] == e.databases[p := Db(e.databases[t].content, false)];
  }

  /** For names without upper-case letters, quoting changes nothing. */
  lemma QuotedRebuildAgreesWhenFolded(s: Settings, env: Env, e: Engine)
    requires IsFolded(s.primaryDatabaseName) && IsFolded(s.templateName)
    requires NoneRefused(env, RebuildStatements(s)) && NoneRefused(env, QuotedRebuildStatements(s))
    ensures QuotedRebuildSpec(s, env, e) == RebuildSpec(s, env, e)
  {
    var bare, quoted := RebuildStatements(s), QuotedRebuildStatements(s);
    AdminSession3(env, e, s.adminDatabase, bare);
    AdminSession3(env, e, s.adminDatabase, quoted);
    assert Accepted(env, bare[0]) && Accepted(env, bare[1]) && Accepted(env, bare[2]);
    assert Accepted(env, quoted[0]) && Accepted(env, quoted[1]) && Accepted(env, quoted[2]);
  }

  /** createTemplate with quoted identifiers. */
  function QuotedCreateTemplateStatements(s: Settings): (r: seq<Stmt>)
    ensures forall st :: st in r ==> Targets(st) <= {s.primaryDatabaseName, s.templateName}
  {
    [ TerminateBackends(s.primaryDatabaseName),
      AlterIsTemplate(Quoted(s.primaryDatabaseName), true),
      CreateFromTemplate(Quoted(s.templateName), Quoted(s.primaryDatabaseName)),
      AlterIsTemplate(Quoted(s.primaryDatabaseName), false),
      AlterIsTemplate(Quoted(s.templateName), true) ]
  }

  function QuotedCreateTemplateSpec(s: Settings, env: Env, e: Engine): (r: Effect)
    ensures r.error.Some? ==> r.error.value.IllegalState?
  {
    var o := AdminSession(env, e, s.adminDatabase, QuotedCreateTemplateStatements(s));
    Effect(o.engine, if o.error.Some? then Some(IllegalState(o.error.value)) else None)
  }

  /** prepareSandbox creating the template with quoted identifiers. */
  function QuotedPrepareSpec(s: Settings, env: Env, e: Engine, ready: bool): (r: PrepareEffect)
    ensures r.ready <==> r.error.None?
    ensures ready ==> r == PrepareEffect(e, true, None)
  {
    if ready then PrepareEffect(e, true, None)
    else
      match TemplateExistsSpec(s, env, e)
      case Failure(f) => PrepareEffect(e, false, Some(f))
      case Success(found) =>
        if found then PrepareEffect(e, true, None)
        else
          var c := QuotedCreateTemplateSpec(s, env, e);
          PrepareEffect(c.engine, c.error.None?, c.error)
  }

  /** For names without upper-case letters, quoting changes nothing in createTemplate either. */
  lemma QuotedCreateTemplateAgreesWhenFolded(s: Settings, env: Env, e: Engine)
    requires IsFolded(s.primaryDatabaseName) && IsFolded(s.templateName)
    requires NoneRefused(env, CreateTemplateStatements(s)) && NoneRefused(env, QuotedCreateTemplateStatements(s))
    ensures QuotedCreateTemplateSpec(s, env, e) == CreateTemplateSpec(s, env, e)
  {
    var bare, quoted := CreateTemplateStatements(s), QuotedCreateTemplateStatements(s);
    AdminSession5(env, e, s.adminDatabase, bare);
    AdminSession5(env, e, s.adminDatabase, quoted);
    assert Accepted(env, bare[0]) && Accepted(env, bare[1]) && Accepted(env, bare[2]);
    assert Accepted(env, bare[3]) && Accepted(env, bare[4]);
    assert Accepted(env, quoted[0]) && Accepted(env, quoted[1]) && Accepted(env, quoted[2]);
    assert Accepted(env, quoted[3]) && Accepted(env, quoted[4]);
  }

  /** Hence the quoted prepareSandbox agrees with the one as written on such names. */
  lemma QuotedPrepareAgreesWhenFolded(s: Settings, env: Env, e: Engine, ready: bool)
    requires IsFolded(s.primaryDatabaseName) && IsFolded(s.templateName)
    requires NoneRefused(env, CreateTemplateStatements(s)) && NoneRefused(env, QuotedCreateTemplateStatements(s))
    ensures QuotedPrepareSpec(s, env, e, ready) == PrepareSpec(s, env, e, ready)
  {
    QuotedCreateTemplateAgreesWhenFolded(s, env, e);
  }

  /**
   * With quoted identifiers the template a successful prepareSandbox leaves is the one the
   * query looks for, so the next JVM's prepareSandbox finds it and changes nothing.
   */
  lemma QuotedPrepareSurvivesNextJvm(s: Settings, env: Env, e: Engine)
    requires SelectIsTemplate(s.templateName) !in env.failing
    requires QuotedPrepareSpec(s, env, e, false).error.None?
    ensures var first := QuotedPrepareSpec(s, env, e, false).engine;
            && IsTemplateDb(first, s.templateName)
            && QuotedPrepareSpec(s, env, first, false) == PrepareEffect(first, true, None)
  {
    if !IsTemplateDb(e, s.templateName) {
      AdminSession5(env, e, s.adminDatabase, QuotedCreateTemplateStatements(s));
    }
  }

  /**
   * Quoted identifiers are never key words: the quoted rebuild does the same whatever words
   * the server reserves.
   */
  lemma QuotedRebuildIgnoresKeywords(s: Settings, env: Env, e: Engine)
    ensures QuotedRebuildSpec(s, env, e) == QuotedRebuildSpec(s, env.(keywords := {}), e)
  {
    AdminSession3(env, e, s.adminDatabase, QuotedRebuildStatements(s));
    AdminSession3(env.(keywords := {}), e, s.adminDatabase, QuotedRebuildStatements(s));
  }

  /** Likewise for the quoted createTemplate. */
  lemma QuotedCreateTemplateIgnoresKeywords(s: Settings, env: Env, e: Engine)
    ensures QuotedCreateTemplateSpec(s, env, e) == QuotedCreateTemplateSpec(s, env.(keywords := {}), e)
  {
    AdminSession5(env, e, s.adminDatabase, QuotedCreateTemplateStatements(s));
    AdminSession5(env.(keywords := {}), e, s.adminDatabase, QuotedCreateTemplateStatements(s));
  }
}
