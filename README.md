# dbsandboxer, modelled in Dafny

dbsandboxer gives every integration test a fresh copy of a PostgreSQL database. The first
time a test class starts, `PostgresSandboxDatabaseProvider.prepareSandbox` freezes the
primary database's content. It does so by cloning the primary into a template database
(`CREATE DATABASE t TEMPLATE p`) and marking the clone `IS_TEMPLATE`. A JVM-wide flag,
`TEMPLATE_READY`, makes this happen once. Before each test, `rebuildSandbox` ends every other
session on the primary, drops it and clones it back from the template. The JUnit extension
`DbSandboxSpringExtension` supplies the provider. It uses the context's provider bean or
builds one from the DataSource's JDBC URL and the `@EnableDbSandboxer` attributes. It prepares
the sandbox in `beforeAll` and rebuilds it in `beforeEach`.

The model has these modules:

- `Wrappers` (wrappers.dfy): `Option` stands for a nullable reference, and `Result` for a call
  that returns or throws.
- `JavaLang` (java_lang.dfy): the parts of `java.lang` the code depends on.
  - `Integer.parseInt`, following the JDK's branches. It accumulates the negated value and
    checks `multmin` and `limit`.
  - The decimal rendering of an `int` that string concatenation produces.
  - `String.indexOf`.
- `Catalog` (catalog.dfy): the PostgreSQL server as seen over an admin connection.
  - A map from database name to (content, is-template), plus the sessions other clients hold
    open on each database.
  - Each statement the provider sends is one atomic step that either applies or fails and
    changes nothing. The steps are: terminate backends, the `pg_database` query,
    `ALTER … IS_TEMPLATE`, `CREATE DATABASE … TEMPLATE` and `DROP DATABASE IF EXISTS`.
  - The session filter and the `pg_database` query compare `datname` with a string value, so
    they match the name exactly. The DDL names databases by identifier. An unquoted
    identifier is folded to lower case by PostgreSQL's parser, a quoted one is not
    (`Identifier`, `Resolve`, `FoldCase`). The provider pastes names unquoted.
  - Statements run in sequence, the first failure ends the run, and nothing is rolled back.
  - Database content is an opaque value that is only copied and compared.
  - `Env` stands for what the model does not track: whether the server can be reached,
    which statements it refuses for other reasons (privileges, disk, a lost link), and which
    words its grammar refuses as an unquoted database name (`order`, `user`, `select`, …).
    A DDL statement naming a database by such a bare word fails with a syntax error
    (`IsKeyword`, `Parses`); a quoted identifier is never a key word.
- `Failures` (failures.dfy): the exceptions thrown, as values.
- `PostgresProvider` (postgres_provider.dfy) covers the provider.
  - The constructor's checks and the safe-name allow-list.
  - `adminUrl`, and the statements each operation sends.
  - One specification function per operation, giving its effect on the server and on
    `TEMPLATE_READY`.
  - The classes `Runtime` (the server plus the JVM-wide flag) and
    `PostgresSandboxDatabaseProvider`. The provider's methods perform the operations
    statement by statement and are proved against the specification functions.
  - The lifecycle lemmas.
- `SpringExtension` (spring_extension.dfy) covers the extension.
  - `inspectUrl`, with lemmas on how it splits URLs and a round trip with `adminUrl`.
  - How `beforeAll` builds the fallback provider from the URL and the annotation.
  - The extension class with `beforeAll` and `beforeEach`.

## Model

| member | source | states |
|---|---|---|
| JavaLang.ParseInt | dbsandboxer-spring-boot-starter-test/src/main/java/io/misir/dbsandboxer/starter/DbSandboxSpringExtension.java:74-77 | Integer.parseInt returns a value exactly when the text is an optionally signed, non-empty decimal numeral whose value fits in an int; the value returned is the numeral's value; otherwise NumberFormatException |
| JavaLang.Accumulate | dbsandboxer-spring-boot-starter-test/src/main/java/io/misir/dbsandboxer/starter/DbSandboxSpringExtension.java:75 | parseInt's digit loop succeeds only on a string of digits, and the negated value it accumulates never passes the limit, so no int overflows |
| JavaLang.AccumulateMeansValue | dbsandboxer-spring-boot-starter-test/src/main/java/io/misir/dbsandboxer/starter/DbSandboxSpringExtension.java:75 | parseInt's digit loop, with its multmin/limit overflow checks, yields minus the numeral's value when the rest is all digits and stays within the limit, and fails otherwise |
| JavaLang.NatToString | dbsandboxer-core/src/main/java/io/misir/dbsandboxer/core/providers/postgres/PostgresSandboxDatabaseProvider.java:160 | the decimal rendering of a port is a non-empty string of digits whose value is the port |
| JavaLang.IntToString | dbsandboxer-core/src/main/java/io/misir/dbsandboxer/core/providers/postgres/PostgresSandboxDatabaseProvider.java:160 | the rendering of an int is a decimal numeral whose value is that int, with a leading minus exactly when it is negative and never a plus |
| JavaLang.ParseIntToString | dbsandboxer-core/src/main/java/io/misir/dbsandboxer/core/providers/postgres/PostgresSandboxDatabaseProvider.java:160 | parseInt reads back every int that string concatenation writes |
| JavaLang.IndexOf | dbsandboxer-spring-boot-starter-test/src/main/java/io/misir/dbsandboxer/starter/DbSandboxSpringExtension.java:60 | indexOf returns the first position where the pattern occurs, or -1 when it occurs nowhere |
| JavaLang.IndexOfCharFirst | dbsandboxer-spring-boot-starter-test/src/main/java/io/misir/dbsandboxer/starter/DbSandboxSpringExtension.java:64-70 | the text before indexOf(c) does not hold c, and when indexOf(c) is -1 the string does not hold c |
| JavaLang.IndexOfCharIs | dbsandboxer-spring-boot-starter-test/src/main/java/io/misir/dbsandboxer/starter/DbSandboxSpringExtension.java:64 | the first position holding c is what indexOf(c) returns |
| Catalog.FoldCase | dbsandboxer-core/src/main/java/io/misir/dbsandboxer/core/providers/postgres/PostgresSandboxDatabaseProvider.java:119-120 | a database name pasted unquoted into DDL denotes its lower-cased form: same length, no upper-case letter, each character kept or lowered from an upper-case letter, and unchanged exactly when it held no upper-case letter |
| Catalog.Connect | dbsandboxer-core/src/main/java/io/misir/dbsandboxer/core/providers/postgres/PostgresSandboxDatabaseProvider.java:115 | getConnection succeeds exactly when the server is reachable and the database in the URL exists; it reports a connection failure exactly when the server is unreachable |
| Catalog.Exec | dbsandboxer-core/src/main/java/io/misir/dbsandboxer/core/providers/postgres/PostgresSandboxDatabaseProvider.java:145-150 | a failing statement leaves the server unchanged; a statement fails with a syntax error exactly when it names a database by a bare key word |
| Catalog.ExecFrame | dbsandboxer-core/src/main/java/io/misir/dbsandboxer/core/providers/postgres/PostgresSandboxDatabaseProvider.java:114-156 | a statement changes no database and no session other than the ones it names |
| Catalog.ExecKeepsConsistent | dbsandboxer-core/src/main/java/io/misir/dbsandboxer/core/providers/postgres/PostgresSandboxDatabaseProvider.java:119 | every statement keeps each session on an existing database; in particular DROP DATABASE only removes a database nobody is connected to |
| Catalog.Run | dbsandboxer-core/src/main/java/io/misir/dbsandboxer/core/providers/postgres/PostgresSandboxDatabaseProvider.java:117-120 | the statements of one try block run in order; a run never reports a connection failure, and a refused statement, or one that did not parse, that it reports is one of its own statements |
| Catalog.AdminSession | dbsandboxer-core/src/main/java/io/misir/dbsandboxer/core/providers/postgres/PostgresSandboxDatabaseProvider.java:115-124 | a connection failure is reported exactly when the server is unreachable; when the connection fails nothing runs and nothing changes; a session that succeeds was on an existing admin database |
| Catalog.RunKeepsCompletedSteps | dbsandboxer-core/src/main/java/io/misir/dbsandboxer/core/providers/postgres/PostgresSandboxDatabaseProvider.java:142-154 | a statement run that fails at statement n leaves exactly the state after the first n statements, and the error is what statement n raised there: nothing is rolled back |
| PostgresProvider.ValidateDatabaseName | dbsandboxer-core/src/main/java/io/misir/dbsandboxer/core/providers/postgres/PostgresSandboxDatabaseProvider.java:79-89 | a name is accepted exactly when it is non-empty, starts with an ASCII letter or '_' and continues with ASCII letters, digits or '_'; it is returned unchanged; null gives NullPointerException and a rejected name IllegalArgumentException |
| PostgresProvider.SafeNameIsInert | dbsandboxer-core/src/main/java/io/misir/dbsandboxer/core/providers/postgres/PostgresSandboxDatabaseProvider.java:30 | an accepted name holds no quote, semicolon, dash, slash, space, colon, '?' or backslash, so it cannot break out of the DDL it is pasted into or split a URL |
| PostgresProvider.Configure | dbsandboxer-core/src/main/java/io/misir/dbsandboxer/core/providers/postgres/PostgresSandboxDatabaseProvider.java:56-77 | construction succeeds exactly when host, admin user and password are non-null, 1 <= port <= 65535 and the three database names are safe; the fields then hold the arguments unchanged; a null host is reported first, then a bad port |
| PostgresProvider.AdminUrl | dbsandboxer-core/src/main/java/io/misir/dbsandboxer/core/providers/postgres/PostgresSandboxDatabaseProvider.java:159-161 | the admin URL has the jdbc:postgresql:// scheme and ends with "/" and the admin database; AdminUrlRoundTrip reads host, port and database back out of it |
| PostgresProvider.RebuildStatements | dbsandboxer-core/src/main/java/io/misir/dbsandboxer/core/providers/postgres/PostgresSandboxDatabaseProvider.java:117-120 | rebuildSandbox names no database but the primary as written (session filter) and the case-folded primary and template (DDL) |
| PostgresProvider.CreateTemplateStatements | dbsandboxer-core/src/main/java/io/misir/dbsandboxer/core/providers/postgres/PostgresSandboxDatabaseProvider.java:145-150 | createTemplate names no database but the primary as written (session filter) and the case-folded primary and template (DDL) |
| PostgresProvider.RebuildSpec | dbsandboxer-core/src/main/java/io/misir/dbsandboxer/core/providers/postgres/PostgresSandboxDatabaseProvider.java:114-125 | every failure of rebuildSandbox surfaces as SandboxException wrapping the SQL error; the effect is that of its three statements, whose DDL acts on the case-folded names (RebuildUnfold, RebuildRestoresPrimary) |
| PostgresProvider.TemplateExistsSpec | dbsandboxer-core/src/main/java/io/misir/dbsandboxer/core/providers/postgres/PostgresSandboxDatabaseProvider.java:127-138 | templateExists answers whether a database of exactly the template's name (a bound parameter, not folded) exists and is marked as a template; failures surface as SandboxException |
| PostgresProvider.CreateTemplateSpec | dbsandboxer-core/src/main/java/io/misir/dbsandboxer/core/providers/postgres/PostgresSandboxDatabaseProvider.java:140-156 | every failure of createTemplate surfaces as IllegalStateException wrapping the SQL error; the effect is that of its five statements, whose DDL acts on the case-folded names (CreateTemplateUnfold, CreateTemplateClonesPrimary) |
| PostgresProvider.PrepareSpec | dbsandboxer-core/src/main/java/io/misir/dbsandboxer/core/providers/postgres/PostgresSandboxDatabaseProvider.java:92-105 | with TEMPLATE_READY set nothing changes; the flag ends set exactly when no exception was thrown; the exception is SandboxException or IllegalStateException |
| PostgresProvider.Runtime.constructor | dbsandboxer-core/src/main/java/io/misir/dbsandboxer/core/providers/postgres/PostgresSandboxDatabaseProvider.java:29 | TEMPLATE_READY starts false in a new JVM |
| PostgresProvider.Runtime.Open | dbsandboxer-core/src/main/java/io/misir/dbsandboxer/core/providers/postgres/PostgresSandboxDatabaseProvider.java:115 | opening the admin connection changes nothing and succeeds exactly when the server is reachable and the database exists |
| PostgresProvider.Runtime.Execute | dbsandboxer-core/src/main/java/io/misir/dbsandboxer/core/providers/postgres/PostgresSandboxDatabaseProvider.java:117-175 | executing one statement (each `s.execute` of lines 117-120, 145-150 and 167-175) changes the server as that statement's step does, and reports its error |
| PostgresProvider.Runtime.QueryIsTemplate | dbsandboxer-core/src/main/java/io/misir/dbsandboxer/core/providers/postgres/PostgresSandboxDatabaseProvider.java:128-133 | the pg_database query finds a row exactly when the named database exists and is marked as a template, unless the server rejects it |
| PostgresProvider.PostgresSandboxDatabaseProvider.constructor | dbsandboxer-core/src/main/java/io/misir/dbsandboxer/core/providers/postgres/PostgresSandboxDatabaseProvider.java:56-77 | a provider holds settings that passed the constructor's checks |
| PostgresProvider.PostgresSandboxDatabaseProvider.PrepareSandbox | dbsandboxer-core/src/main/java/io/misir/dbsandboxer/core/providers/postgres/PostgresSandboxDatabaseProvider.java:92-105 | prepareSandbox does what PrepareSpec says; with the flag already set it changes nothing; on success the flag is set and, when it was not set before and no template of the exact name existed, a template-marked database of the case-folded template name exists; on failure the flag stays clear |
| PostgresProvider.PostgresSandboxDatabaseProvider.RebuildSandbox | dbsandboxer-core/src/main/java/io/misir/dbsandboxer/core/providers/postgres/PostgresSandboxDatabaseProvider.java:114-125 | rebuildSandbox does what RebuildSpec says; on success the case-folded primary and template exist with the same content; it never touches TEMPLATE_READY |
| PostgresProvider.PostgresSandboxDatabaseProvider.TemplateExists | dbsandboxer-core/src/main/java/io/misir/dbsandboxer/core/providers/postgres/PostgresSandboxDatabaseProvider.java:127-138 | templateExists changes nothing and answers whether a template-marked database of the template's name exists |
| PostgresProvider.PostgresSandboxDatabaseProvider.CreateTemplate | dbsandboxer-core/src/main/java/io/misir/dbsandboxer/core/providers/postgres/PostgresSandboxDatabaseProvider.java:140-156 | createTemplate sends its five statements in order, the DDL on case-folded names, stopping at the first failure, as CreateTemplateSpec says |
| PostgresProvider.RebuildUnfold | dbsandboxer-core/src/main/java/io/misir/dbsandboxer/core/providers/postgres/PostgresSandboxDatabaseProvider.java:115-120 | rebuildSandbox opens the admin connection, then terminates sessions on the primary's exact name, drops the case-folded primary and clones the case-folded template, each step only if the previous one succeeded |
| PostgresProvider.CreateTemplateUnfold | dbsandboxer-core/src/main/java/io/misir/dbsandboxer/core/providers/postgres/PostgresSandboxDatabaseProvider.java:142-150 | createTemplate opens the admin connection, then runs its five statements, each only if the previous one succeeded |
| PostgresProvider.RebuildSucceedsIff | dbsandboxer-core/src/main/java/io/misir/dbsandboxer/core/providers/postgres/PostgresSandboxDatabaseProvider.java:114-124 | rebuildSandbox succeeds exactly when the server is reachable, the admin database and the case-folded template exist, that template is not the case-folded primary and has no sessions, the case-folded primary is absent or droppable (not a template, not the admin database, no session the exact-name terminate missed), and no statement is refused, by the parser (a name that is a key word) or otherwise |
| PostgresProvider.RebuildRestoresPrimary | dbsandboxer-core/src/test/java/io/misir/dbsandboxer/core/providers/postgres/PostgresSandboxDatabaseProviderTest.java:171-224 | after a successful rebuild the case-folded primary is an unmarked copy of the template's content, the sessions on the primary's name are gone, no session remains on an existing primary, and every other database and session is as before |
| PostgresProvider.RebuildIdempotent | dbsandboxer-core/src/test/java/io/misir/dbsandboxer/core/providers/postgres/PostgresSandboxDatabaseProviderTest.java:249-263 | on a server whose sessions are all on existing databases, rebuilding again after a successful rebuild changes nothing |
| PostgresProvider.RebuildDiscardsTestWrites | dbsandboxer-core/src/test/java/io/misir/dbsandboxer/core/providers/postgres/PostgresSandboxDatabaseProviderTest.java:293-306 | whatever a test wrote to the database the rebuild drops and whatever connections it left open on the primary's name, the next rebuild ends in the same state |
| PostgresProvider.RebuildUnreachable | dbsandboxer-core/src/test/java/io/misir/dbsandboxer/core/providers/postgres/PostgresSandboxDatabaseProviderTest.java:226-242 | against an unreachable server rebuildSandbox changes nothing and throws SandboxException caused by the connection error |
| PostgresProvider.RebuildWithoutTemplate | dbsandboxer-core/src/main/java/io/misir/dbsandboxer/core/providers/postgres/PostgresSandboxDatabaseProvider.java:118-124 | when the case-folded template is missing the clone fails with SandboxException naming it, and the primary, already dropped, stays dropped |
| PostgresProvider.CreateTemplateSucceedsIff | dbsandboxer-core/src/main/java/io/misir/dbsandboxer/core/providers/postgres/PostgresSandboxDatabaseProvider.java:140-154 | createTemplate succeeds exactly when the server is reachable, the admin database and the case-folded primary exist, the case-folded template name is free, no session the exact-name terminate missed is on the primary, and no statement is refused, by the parser (a name that is a key word) or otherwise |
| PostgresProvider.CreateTemplateClonesPrimary | dbsandboxer-core/src/main/java/io/misir/dbsandboxer/core/providers/postgres/PostgresSandboxDatabaseProvider.java:145-150 | after a successful createTemplate the case-folded template holds the primary's content and is marked; the primary keeps its content and is unmarked; no session is on the primary; every other database is unchanged |
| PostgresProvider.InterruptedCreateTemplate | dbsandboxer-core/src/main/java/io/misir/dbsandboxer/core/providers/postgres/PostgresSandboxDatabaseProvider.java:148-154 | when the last ALTER fails, IllegalStateException is thrown and the clone stays, holding the primary's content but not marked as a template |
| PostgresProvider.CreateTemplateNoRollback | dbsandboxer-core/src/main/java/io/misir/dbsandboxer/core/providers/postgres/PostgresSandboxDatabaseProvider.java:142-154 | a createTemplate that fails part-way leaves the state its completed statements produced, and throws IllegalStateException with the error of the statement that failed |
| PostgresProvider.RetryAfterInterruptedCreate | dbsandboxer-core/src/main/java/io/misir/dbsandboxer/core/providers/postgres/PostgresSandboxDatabaseProvider.java:100-103 | when the case-folded template name is taken but no template of the exact name exists, as after such an interruption, prepareSandbox fails with a duplicate-database error, leaves the flag clear and the primary marked as a template, and rebuildSandbox then cannot drop the primary |
| PostgresProvider.PrepareEstablishesTemplate | dbsandboxer-core/src/main/java/io/misir/dbsandboxer/core/providers/postgres/PostgresSandboxDatabaseProvider.java:100-103 | a successful prepareSandbox leaves the flag set; it changed nothing when a template of the exact name existed, and otherwise leaves a template-marked database of the case-folded name |
| PostgresProvider.PrepareKeepsExistingTemplate | dbsandboxer-core/src/test/java/io/misir/dbsandboxer/core/providers/postgres/PostgresSandboxDatabaseProviderTest.java:265-291 | when a template-marked database already exists (a previous JVM made it), prepareSandbox runs no DDL, leaves the server unchanged and sets the flag |
| PostgresProvider.PrepareIdempotent | dbsandboxer-core/src/test/java/io/misir/dbsandboxer/core/providers/postgres/PostgresSandboxDatabaseProviderTest.java:103-111 | calling prepareSandbox again after it succeeded changes nothing |
| PostgresProvider.TemplateFrozen | dbsandboxer-core/src/test/java/io/misir/dbsandboxer/core/providers/postgres/PostgresSandboxDatabaseProviderTest.java:113-123 | after a successful prepareSandbox, whatever happens to the primary, a later prepareSandbox with the flag clear either fails or changes nothing at all; even when it fails, the case-folded template keeps its content and flag, unless it is also the case-folded primary |
| PostgresProvider.PrepareThenRebuild | dbsandboxer-core/src/test/java/io/misir/dbsandboxer/core/providers/postgres/PostgresSandboxDatabaseProviderTest.java:249-263 | on a healthy server without a template, whose key words include neither case-folded name, prepareSandbox succeeds, and after a test rewrites the database the DDL names and leaves connections open on the primary's name, rebuildSandbox restores that database's content from before preparation |
| PostgresProvider.MixedCasePrimaryNotRestored | dbsandboxer-core/src/main/java/io/misir/dbsandboxer/core/providers/postgres/PostgresSandboxDatabaseProvider.java:117-120 | a primary name with an upper-case letter: the rebuild succeeds yet leaves the database of that exact name, the one the tests use, as it was |
| PostgresProvider.MixedCaseTemplateBreaksNextJvm | dbsandboxer-core/src/main/java/io/misir/dbsandboxer/core/providers/postgres/PostgresSandboxDatabaseProvider.java:128-150 | a template name with an upper-case letter: after a successful first prepareSandbox, the next JVM's prepareSandbox fails on the taken lower-case name, and rebuildSandbox then cannot drop the primary |
| PostgresProvider.QuotedRebuildRestoresPrimary | dbsandboxer-core/src/main/java/io/misir/dbsandboxer/core/providers/postgres/PostgresSandboxDatabaseProvider.java:117-120 | with quoted identifiers, a successful rebuild restores the primary under its exact name from the template of its exact name |
| PostgresProvider.QuotedRebuildAgreesWhenFolded | dbsandboxer-core/src/main/java/io/misir/dbsandboxer/core/providers/postgres/PostgresSandboxDatabaseProvider.java:117-120 | for names without upper-case letters whose unquoted statements all parse and are accepted (so neither name is a key word), quoting the identifiers does not change what rebuildSandbox does |
| PostgresProvider.QuotedCreateTemplateAgreesWhenFolded | dbsandboxer-core/src/main/java/io/misir/dbsandboxer/core/providers/postgres/PostgresSandboxDatabaseProvider.java:145-150 | for names without upper-case letters whose unquoted and quoted statements are all accepted, quoting the identifiers does not change what createTemplate does |
| PostgresProvider.QuotedPrepareAgreesWhenFolded | dbsandboxer-core/src/main/java/io/misir/dbsandboxer/core/providers/postgres/PostgresSandboxDatabaseProvider.java:92-105 | under the same conditions, quoting the identifiers does not change what prepareSandbox does, whatever the flag |
| PostgresProvider.AllowListAdmitsKeywords | dbsandboxer-core/src/main/java/io/misir/dbsandboxer/core/providers/postgres/PostgresSandboxDatabaseProvider.java:30 | the allow-list accepts the SQL key words order, user, select, table and group as database names |
| PostgresProvider.KeywordPrimaryNeverRebuilds | dbsandboxer-core/src/main/java/io/misir/dbsandboxer/core/providers/postgres/PostgresSandboxDatabaseProvider.java:117-119 | when the primary's name is a key word, rebuildSandbox ends the sessions on it, then fails with a syntax error on the DROP, and no database changes |
| PostgresProvider.KeywordTemplateLeavesPrimaryMarked | dbsandboxer-core/src/main/java/io/misir/dbsandboxer/core/providers/postgres/PostgresSandboxDatabaseProvider.java:145-147 | when the template's name is a key word, createTemplate marks the primary as a template, fails with a syntax error on the CREATE and keeps the mark, so the next rebuildSandbox cannot drop the primary |
| PostgresProvider.QuotedRebuildIgnoresKeywords | dbsandboxer-core/src/main/java/io/misir/dbsandboxer/core/providers/postgres/PostgresSandboxDatabaseProvider.java:117-120 | with quoted identifiers, rebuildSandbox does the same whatever words the server reserves |
| PostgresProvider.QuotedCreateTemplateIgnoresKeywords | dbsandboxer-core/src/main/java/io/misir/dbsandboxer/core/providers/postgres/PostgresSandboxDatabaseProvider.java:145-150 | with quoted identifiers, createTemplate does the same whatever words the server reserves |
| PostgresProvider.QuotedPrepareSurvivesNextJvm | dbsandboxer-core/src/main/java/io/misir/dbsandboxer/core/providers/postgres/PostgresSandboxDatabaseProvider.java:128-150 | with quoted identifiers, the template a successful prepareSandbox leaves is the one templateExists finds, so the next JVM's prepareSandbox changes nothing |
| SpringExtension.InspectUrl | dbsandboxer-spring-boot-starter-test/src/main/java/io/misir/dbsandboxer/starter/DbSandboxSpringExtension.java:54-81 | a null URL raises SQLException and any other URL yields parts; the database name never contains '?'; a port other than 5432 comes with a non-empty host without ':' |
| SpringExtension.CutQuery | dbsandboxer-spring-boot-starter-test/src/main/java/io/misir/dbsandboxer/starter/DbSandboxSpringExtension.java:67-68 | the database name is the path up to its first '?': it holds no '?', and it is the whole path or the prefix that ends just before a '?' |
| SpringExtension.SplitHostPort | dbsandboxer-spring-boot-starter-test/src/main/java/io/misir/dbsandboxer/starter/DbSandboxSpringExtension.java:69-78 | a port other than 5432 only comes from a colon past the first character, so the host is then non-empty and holds no ':'; with no ':' or a ':' in first place the whole text is the host and the port is 5432; otherwise the host is the text before the first ':' |
| SpringExtension.StripScheme | dbsandboxer-spring-boot-starter-test/src/main/java/io/misir/dbsandboxer/starter/DbSandboxSpringExtension.java:59-61 | the rest is a suffix of the URL; it is the whole URL exactly when "://" occurs nowhere, and otherwise starts right after the first "://" |
| SpringExtension.SplitPath | dbsandboxer-spring-boot-starter-test/src/main/java/io/misir/dbsandboxer/starter/DbSandboxSpringExtension.java:63-66 | when the text holds a '/' that is not its first character, it is host:port, that slash and the path, with host:port non-empty and slash-free; otherwise host:port is the whole text and the path is empty |
| SpringExtension.StripSchemeOf | dbsandboxer-spring-boot-starter-test/src/main/java/io/misir/dbsandboxer/starter/DbSandboxSpringExtension.java:59-61 | after a scheme without '/', everything up to and including "://" is removed and the rest kept |
| SpringExtension.SplitPathAt | dbsandboxer-spring-boot-starter-test/src/main/java/io/misir/dbsandboxer/starter/DbSandboxSpringExtension.java:63-66 | host:port ends at the first '/' when that slash is not the first character, and the path is everything after it |
| SpringExtension.CutQueryOf | dbsandboxer-spring-boot-starter-test/src/main/java/io/misir/dbsandboxer/starter/DbSandboxSpringExtension.java:67-68 | a database name followed by nothing or by a '?' query is cut back to the name |
| SpringExtension.SplitHostPortAt | dbsandboxer-spring-boot-starter-test/src/main/java/io/misir/dbsandboxer/starter/DbSandboxSpringExtension.java:69-78 | host:text is split at its first ':' into the host and parseInt(text), or 5432 when parseInt fails |
| SpringExtension.SchemeEndsAtSeparator | dbsandboxer-spring-boot-starter-test/src/main/java/io/misir/dbsandboxer/starter/DbSandboxSpringExtension.java:60-61 | the first "://" after a scheme without '/' is the one that ends the scheme |
| SpringExtension.InspectUrlReadsParts | dbsandboxer-spring-boot-starter-test/src/main/java/io/misir/dbsandboxer/starter/DbSandboxSpringExtension.java:59-79 | scheme://host:port/db[?params] is read as host, parseInt(port) (5432 when that fails) and db |
| SpringExtension.InspectUrlDefaultPort | dbsandboxer-spring-boot-starter-test/src/main/java/io/misir/dbsandboxer/starter/DbSandboxSpringExtension.java:69-72 | scheme://host/db[?params] is read with port 5432 |
| SpringExtension.InspectUrlBareHost | dbsandboxer-spring-boot-starter-test/src/main/java/io/misir/dbsandboxer/starter/DbSandboxSpringExtension.java:59-66 | a URL without "://", '/' or ':' is taken whole as the host, with port 5432 and an empty database name |
| SpringExtension.InspectUrlLeadingSlash | dbsandboxer-spring-boot-starter-test/src/main/java/io/misir/dbsandboxer/starter/DbSandboxSpringExtension.java:64-66 | a '/' right after "://" does not end the host: the remainder, slash included, is the host and the database name is empty |
| SpringExtension.AdminUrlRoundTrip | dbsandboxer-core/src/main/java/io/misir/dbsandboxer/core/providers/postgres/PostgresSandboxDatabaseProvider.java:159-161 | parsing the provider's admin URL, with or without a query string, gives back its host, port and admin database |
| SpringExtension.FallbackSettings | dbsandboxer-spring-boot-starter-test/src/main/java/io/misir/dbsandboxer/starter/DbSandboxSpringExtension.java:29-40 | the fallback provider is built exactly when the URL is non-null, the annotation is present, the URL's port is in range and the URL's database, the maintenance database and the template name are safe; its fields are the URL's parts and the annotation's attributes; URL errors come before the missing annotation |
| SpringExtension.DefaultFallback | dbsandboxer-spring-boot-starter-test/src/main/java/io/misir/dbsandboxer/starter/EnableDbSandboxer.java:36-67 | with the annotation's defaults, the fallback provider targets the URL's server and database as user postgres, via the maintenance database postgres and the template template_database |
| SpringExtension.DbSandboxSpringExtension.BeforeAll | dbsandboxer-spring-boot-starter-test/src/main/java/io/misir/dbsandboxer/starter/DbSandboxSpringExtension.java:20-44 | beforeAll uses the provider bean, or a new provider built from the fallback settings; it stores the provider and then prepares it once; if no provider can be built, the error is thrown, the field keeps its old value and the server is untouched |
| SpringExtension.DbSandboxSpringExtension.BeforeEach | dbsandboxer-spring-boot-starter-test/src/main/java/io/misir/dbsandboxer/starter/DbSandboxSpringExtension.java:47-52 | with no provider stored, beforeEach throws SandboxException "No PostgreSQL database provider available"; otherwise it rebuilds the sandbox once and leaves TEMPLATE_READY alone |

## Left out

- Concurrency: `synchronized (TEMPLATE_READY)` and the `AtomicBoolean` double check. The model
  runs one thread, so the second flag test reads what the first one read and is not repeated.
- JDBC itself (drivers, connections, result sets), `pg_terminate_backend` beyond "the other
  sessions on that database end", and logging. The admin user and password are stored but
  play no part in the model: credentials that the server refuses count as an unreachable
  server (`Env.reachable`).
- Spring's bean lookup, `DataSource.getConnection` and `getMetaData`, and reading the
  annotation by reflection. The provider bean, the URL string and the annotation's
  attributes are inputs to `BeforeAll`. A provider bean of another `SandboxDatabaseProvider`
  implementation is not modelled; the bean is a `PostgresSandboxDatabaseProvider`, and it
  acts on the same server and flag as the extension (`BeforeAll` requires
  `bean.runtime == runtime`).
- Exception messages: only the parameter name or the cause is kept. The two messages the
  extension builds itself are kept whole.
- Other clients reconnecting between two statements of one operation: foreign sessions
  change only through the provider's own statements.
- `Integer.parseInt` accepts the non-ASCII digits that `Character.digit` knows. The model
  accepts ASCII digits only, so a port written in, say, Arabic-Indic digits falls back to
  5432 in the model but not in Java.
- `SandboxDatabaseProvider.java`, `SandboxException.java` and the `package-info.java` files
  hold only declarations. The `examples/` tree is application wiring.
- PostgreSQL truncates identifiers longer than 63 bytes. The allow-list has no length limit,
  and the model does not truncate.
- The key words are a parameter (`Env.keywords`), since the list depends on the server's
  version. The model applies the database-name rule to every DDL position. In PostgreSQL's
  grammar the name after `TEMPLATE` is more lenient: it also takes the type and function
  name key words, and it reads `DEFAULT` as the default template. The model does not draw
  that distinction.
- IPv6 literal hosts (`[::1]:5432`) are split at their first ':' by the source, as by the
  model. No lemma covers them.

## Findings

The provider class and the lifecycle lemmas model the code as written. The `Quoted…`
definitions state what the code evidently intends. For names without upper-case letters
that are not SQL key words, which covers the annotation's defaults, the two agree for
rebuildSandbox, createTemplate and prepareSandbox (`QuotedRebuildAgreesWhenFolded`,
`QuotedCreateTemplateAgreesWhenFolded`, `QuotedPrepareAgreesWhenFolded`). The provider's
own test builds a provider whose primary is named `primary`
(dbsandboxer-core/src/test/java/io/misir/dbsandboxer/core/providers/postgres/PostgresSandboxDatabaseProviderTest.java:236), a reserved key word; that test expects a failure, which
the unreachable host already produces before any DDL is sent.

| source | as written | input that shows it | evidently intended | confidence | as-written member | corrected member |
|---|---|---|---|---|---|---|
| dbsandboxer-core/src/main/java/io/misir/dbsandboxer/core/providers/postgres/PostgresSandboxDatabaseProvider.java:117-120 | `terminateConnections` matches the primary's name exactly, but `DROP DATABASE` and `CREATE DATABASE` paste it unquoted, so PostgreSQL acts on its lower-cased form | `primaryDatabaseName` = `AppDb` (the allow-list accepts it), the tests' database `AppDb` exists and `appdb` does not | `rebuildSandbox` drops and re-clones `AppDb` itself, for instance through quoted identifiers | high; not executed | PostgresProvider.MixedCasePrimaryNotRestored | PostgresProvider.QuotedRebuildRestoresPrimary |
| dbsandboxer-core/src/main/java/io/misir/dbsandboxer/core/providers/postgres/PostgresSandboxDatabaseProvider.java:128-150 | `templateExists` looks the template up under its exact name, but `createTemplate` creates it under the lower-cased name | `templateDatabaseName` = `AppTemplate`; a first JVM's `prepareSandbox` succeeds, then a second JVM starts | the template that `createTemplate` leaves is the one `templateExists` finds, so later JVMs reuse it | high; not executed | PostgresProvider.MixedCaseTemplateBreaksNextJvm | PostgresProvider.QuotedPrepareSurvivesNextJvm |
| dbsandboxer-core/src/main/java/io/misir/dbsandboxer/core/providers/postgres/PostgresSandboxDatabaseProvider.java:30 | the allow-list accepts SQL key words, which `DROP DATABASE`, `CREATE DATABASE` and `ALTER DATABASE` cannot take as an unquoted name | `primaryDatabaseName` = `order` (or `user`, `select`, `table`, `group`), or `primary` as in the provider's test at line 236 of its test class | every name the constructor accepts can be dropped and re-cloned, for instance through quoted identifiers | high; not executed | PostgresProvider.KeywordPrimaryNeverRebuilds | PostgresProvider.QuotedRebuildIgnoresKeywords |

## Notes

- The interface's Javadoc (`dbsandboxer-core/src/main/java/io/misir/dbsandboxer/core/api/SandboxDatabaseProvider.java`, lines 17-19) asks for an idempotent
  `prepareSandbox` that does not recreate an existing template. That holds once preparation
  has succeeded (`PrepareIdempotent`, `PrepareKeepsExistingTemplate`). It does not hold after
  a `createTemplate` that failed part-way, because the code does not roll back what that
  call already did. Suppose the last `ALTER` fails. A clone of the primary then sits under
  the template's name, unmarked. The retry fails with a duplicate-database error, and only
  after it has marked the primary as a template. From then on `rebuildSandbox` cannot drop
  the primary. The lemmas `InterruptedCreateTemplate` and `RetryAfterInterruptedCreate`
  state this.
- In `beforeAll`, the `cfg` attributes are read after the URL has been parsed. A URL error
  is therefore reported before a missing annotation.
