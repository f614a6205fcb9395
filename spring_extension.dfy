/**
 * DbSandboxSpringExtension: the JUnit callbacks that pick or build a provider once per test
 * class (beforeAll) and rebuild the sandbox before every test (beforeEach), and the parser
 * that reads host, port and database name out of the DataSource's JDBC URL.
 */
module SpringExtension {
  import opened Wrappers
  import opened JavaLang
  import opened Catalog
  import opened Failures
  import opened PostgresProvider

  /** The port assumed when the URL names none, or one Integer.parseInt rejects. */
  const DEFAULT_PORT: Int32 := 5432

  datatype DbUrlParts = DbUrlParts(host: string, port: Int32, primaryDatabaseName: string)

  /** Drop everything up to and including the first "://"; without one, keep the whole URL. */
  function StripScheme(u: string): (rest: string)
    ensures |rest| <= |u| && rest == u[|u| - |rest|..]
    ensures rest == u <==> forall i :: 0 <= i <= |u| ==> !OccursAt(u, "://", i)
    ensures rest != u ==>
              && OccursAt(u, "://", |u| - |rest| - 3)
              && forall i :: 0 <= i < |u| - |rest| - 3 ==> !OccursAt(u, "://", i)
  {
    var idx := IndexOf(u, "://");
    if idx >= 0 then u[idx + 3..] else u
  }

  /**
   * Split host:port from the path at the first '/', unless that slash is the first character;
   * without such a slash the whole text is host:port and the path is empty.
   */
  function SplitPath(noPrefix: string): (r: (string, string))
    ensures '/' in noPrefix && noPrefix[0] != '/' ==>
              |r.0| > 0 && '/' !in r.0 && noPrefix == r.0 + "/" + r.1
    ensures '/' !in noPrefix || noPrefix[0] == '/' ==> r == (noPrefix, "")
  {
    var slash := IndexOf(noPrefix, "/");
    IndexOfCharFirst(noPrefix, '/');
    if slash > 0 then (noPrefix[..slash], noPrefix[slash + 1..]) else (noPrefix, "")
  }

  /** The database name: the path up to its first '?'. */
  function CutQuery(path: string): (name: string)
    ensures '?' !in name
    ensures name == path || (|name| < |path| && path[|name|] == '?' && path[..|name|] == name)
  {
    var q := IndexOf(path, "?");
    IndexOfCharFirst(path, '?');
    if q >= 0 then path[..q] else path
  }

  /**
   * Split the host from the port at the first ':', unless that colon is the first character;
   * the port is parseInt of the rest, and 5432 when there is no such colon or parseInt fails.
   */
  function SplitHostPort(hostPort: string): (r: (string, Int32))
    ensures r.1 != DEFAULT_PORT ==> |r.0| > 0 && ':' !in r.0
    ensures ':' !in hostPort || hostPort[0] == ':' ==> r == (hostPort, DEFAULT_PORT)
    ensures ':' in hostPort && hostPort[0] != ':' ==>
              && 0 < |r.0| < |hostPort| && r.0 == hostPort[..|r.0|]
              && hostPort[|r.0|] == ':' && ':' !in r.0
  {
    var colon := IndexOf(hostPort, ":");
    IndexOfCharFirst(hostPort, ':');
    if colon > 0 then (hostPort[..colon], ParseInt(hostPort[colon + 1..]).GetOr(DEFAULT_PORT))
    else (hostPort, DEFAULT_PORT)
  }

  /**
   * inspectUrl, on the URL the DataSource's connection reports: a null URL is an SQLException;
   * otherwise the steps above, in the source's order.
   */
  function InspectUrl(url: Option<string>): (r: Result<DbUrlParts, Failure>)
    ensures url.None? <==> r.Failure?
    ensures url.None? ==> r == Failure(SqlException("DataSource URL is null"))
    ensures r.Success? ==> '?' !in r.value.primaryDatabaseName
    ensures r.Success? && r.value.port != DEFAULT_PORT ==> ':' !in r.value.host && |r.value.host| > 0
  {
    match url
    case None => Failure(SqlException("DataSource URL is null"))
    case Some(u) =>
      var (hostPort, path) := SplitPath(StripScheme(u));
      var (host, port) := SplitHostPort(hostPort);
      Success(DbUrlParts(host, port, CutQuery(path)))
  }

  /** No "://" starts inside a scheme free of '/' or at its last character. */
  lemma SchemeEndsAtSeparator(scheme: string, after: string)
    requires '/' !in scheme
    ensures IndexOf(scheme + "://" + after, "://") == |scheme|
  {
    var u := scheme + "://" + after;
    assert u[|scheme|..|scheme| + 3] == "://";
    forall i | 0 <= i < |scheme|
      ensures !OccursAt(u, "://", i)
    {
      assert u[i + 1] != '/' by {
        if i + 1 < |scheme| {
          assert u[i + 1] == scheme[i + 1];
        } else {
          assert u[i + 1] == ':';
        }
      }
      if i + 3 <= |u| {
        assert u[i..i + 3][1] == u[i + 1];
      }
    }
    IndexOfIs(u, "://", |scheme|);
  }

  lemma StripSchemeOf(scheme: string, rest: string)
    requires '/' !in scheme
    ensures StripScheme(scheme + "://" + rest) == rest
  {
    SchemeEndsAtSeparator(scheme, rest);
    assert (scheme + "://" + rest)[|scheme| + 3..] == rest;
  }

  lemma SplitPathAt(hostPort: string, path: string)
    requires |hostPort| > 0 && '/' !in hostPort
    ensures SplitPath(hostPort + "/" + path) == (hostPort, path)
  {
    var s := hostPort + "/" + path;
    assert s[..|hostPort|] == hostPort;
    IndexOfCharIs(s, '/', |hostPort|);
    assert s[|hostPort| + 1..] == path;
  }

  lemma CutQueryOf(db: string, query: string)
    requires '?' !in db
    requires query == [] || query[0] == '?'
    ensures CutQuery(db + query) == db
  {
    if query == [] {
      assert db + query == db;
      IndexOfCharAbsent(db, '?');
    } else {
      assert (db + query)[..|db|] == db;
      IndexOfCharIs(db + query, '?', |db|);
    }
  }

  lemma SplitHostPortAt(host: string, portText: string)
    requires |host| > 0 && ':' !in host
    ensures SplitHostPort(host + ":" + portText) == (host, ParseInt(portText).GetOr(DEFAULT_PORT))
  {
    var s := host + ":" + portText;
    assert s[..|host|] == host;
    IndexOfCharIs(s, ':', |host|);
    assert s[|host| + 1..] == portText;
  }

  /**
   * A URL of the documented shape scheme://host:port/db[?params] is read back as its parts;
   * a port that is not an int becomes 5432.
   */
  lemma InspectUrlReadsParts(scheme: string, host: string, portText: string, db: string, query: string)
    requires '/' !in scheme
    requires |host| > 0 && ':' !in host && '/' !in host
    requires '/' !in portText
    requires '?' !in db
    requires query == [] || query[0] == '?'
    ensures InspectUrl(Some(scheme + "://" + host + ":" + portText + "/" + db + query)) ==
            Success(DbUrlParts(host, ParseInt(portText).GetOr(DEFAULT_PORT), db))
  {
    var hostPort := host + ":" + portText;
    var rest := hostPort + "/" + (db + query);
    assert scheme + "://" + host + ":" + portText + "/" + db + query == scheme + "://" + rest;
    StripSchemeOf(scheme, rest);
    assert '/' !in hostPort;
    SplitPathAt(hostPort, db + query);
    CutQueryOf(db, query);
    SplitHostPortAt(host, portText);
  }

  /** A URL without a port, scheme://host/db[?params], gets port 5432. */
  lemma InspectUrlDefaultPort(scheme: string, host: string, db: string, query: string)
    requires '/' !in scheme
    requires |host| > 0 && ':' !in host && '/' !in host
    requires '?' !in db
    requires query == [] || query[0] == '?'
    ensures InspectUrl(Some(scheme + "://" + host + "/" + db + query)) ==
            Success(DbUrlParts(host, DEFAULT_PORT, db))
  {
    var rest := host + "/" + (db + query);
    assert scheme + "://" + host + "/" + db + query == scheme + "://" + rest;
    StripSchemeOf(scheme, rest);
    SplitPathAt(host, db + query);
    CutQueryOf(db, query);
    IndexOfCharAbsent(host, ':');
  }

  /**
   * Without "://", '/' or ':', the whole string is the host, the port is 5432 and the
   * database name is empty.
   */
  lemma InspectUrlBareHost(u: string)
    requires '/' !in u && ':' !in u
    ensures InspectUrl(Some(u)) == Success(DbUrlParts(u, DEFAULT_PORT, ""))
  {
    forall i | 0 <= i <= |u|
      ensures !OccursAt(u, "://", i)
    {
      if i + 3 <= |u| {
        assert u[i..i + 3][0] == u[i];
      }
    }
    IndexOfAbsent(u, "://");
    IndexOfCharAbsent(u, '/');
    CutQueryOf("", "");
    IndexOfCharAbsent(u, ':');
  }

  /**
   * A '/' right after "://" is not taken as the end of the host: the remainder, slash
   * included, becomes the host and the database name is empty.
   */
  lemma InspectUrlLeadingSlash(scheme: string, rest: string)
    requires '/' !in scheme && ':' !in rest
    ensures InspectUrl(Some(scheme + "://" + "/" + rest)) == Success(DbUrlParts("/" + rest, DEFAULT_PORT, ""))
  {
    var noPrefix := "/" + rest;
    assert scheme + "://" + "/" + rest == scheme + "://" + noPrefix;
    StripSchemeOf(scheme, noPrefix);
    IndexOfCharIs(noPrefix, '/', 0);
    CutQueryOf("", "");
    IndexOfCharAbsent(noPrefix, ':');
  }

  /**
   * The provider's own admin URL, with any query string appended, is read back as its host,
   * its port and its admin database.
   */
  lemma AdminUrlRoundTrip(s: Settings, query: string)
    requires s.Valid()
    requires |s.host| > 0 && ':' !in s.host && '/' !in s.host
    requires query == [] || query[0] == '?'
    ensures InspectUrl(Some(AdminUrl(s) + query)) == Success(DbUrlParts(s.host, s.port, s.adminDatabase))
  {
    var portText := IntToString(s.port);
    assert '/' !in portText by {
      var t := NatToString(s.port);
      assert portText == t;
      assert forall j :: 0 <= j < |t| ==> t[j] != '/';
    }
    SafeNameIsInert(s.adminDatabase);
    assert AdminUrl(s) + query == "jdbc:postgresql" + "://" + s.host + ":" + portText + "/" + s.adminDatabase + query;
    InspectUrlReadsParts("jdbc:postgresql", s.host, portText, s.adminDatabase, query);
    ParseIntToString(s.port);
  }

  // ---------------------------------------------------------------------------
  // The annotation and the callbacks

  /** @EnableDbSandboxer's attributes (annotation values are never null). */
  datatype EnableDbSandboxer = EnableDbSandboxer(
    adminUser: string,
    adminPassword: string,
    maintenanceDb: string,
    templateDatabaseName: string)

  /** The attribute defaults. */
  const DEFAULT_CONFIG := EnableDbSandboxer("postgres", "postgres", "postgres", "template_database")

  /**
   * The provider beforeAll builds when the context holds no provider bean: the URL's parts,
   * the annotation's attributes, and the constructor's checks. A failure to read the URL comes
   * first; a test class without the annotation then fails with NullPointerException.
   */
  function FallbackSettings(url: Option<string>, cfg: Option<EnableDbSandboxer>): (r: Result<Settings, Failure>)
    ensures url.None? ==> r == Failure(SqlException("DataSource URL is null"))
    ensures url.Some? && cfg.None? ==> r == Failure(NullPointer("cfg"))
    ensures r.Success? <==>
              && url.Some? && cfg.Some?
              && MIN_PORT <= InspectUrl(url).value.port <= MAX_PORT
              && IsSafeName(cfg.value.maintenanceDb)
              && IsSafeName(InspectUrl(url).value.primaryDatabaseName)
              && IsSafeName(cfg.value.templateDatabaseName)
    ensures r.Success? ==>
              && r.value.host == InspectUrl(url).value.host
              && r.value.port == InspectUrl(url).value.port
              && r.value.primaryDatabaseName == InspectUrl(url).value.primaryDatabaseName
              && r.value.adminDatabase == cfg.value.maintenanceDb
              && r.value.adminUser == cfg.value.adminUser
              && r.value.adminPassword == cfg.value.adminPassword
              && r.value.templateName == cfg.value.templateDatabaseName
              && r.value.Valid()
  {
    match InspectUrl(url)
    case Failure(f) => Failure(f)
    case Success(parts) =>
      match cfg
      case None => Failure(NullPointer("cfg"))
      case Some(c) =>
        Configure(Some(parts.host), parts.port, Some(c.maintenanceDb), Some(c.adminUser),
                  Some(c.adminPassword), Some(parts.primaryDatabaseName), Some(c.templateDatabaseName))
  }

  lemma DefaultNamesAreSafe()
    ensures IsSafeName(DEFAULT_CONFIG.maintenanceDb) && IsSafeName(DEFAULT_CONFIG.templateDatabaseName)
  {
    var m, t := DEFAULT_CONFIG.maintenanceDb, DEFAULT_CONFIG.templateDatabaseName;
    assert forall i :: 1 <= i < |m| ==> IsIdentifierPart(m[i]);
    assert forall i :: 1 <= i < |t| ==> IsIdentifierPart(t[i]);
  }

  /**
   * With the default annotation and a URL of the documented shape, the fallback provider
   * targets the URL's database on the URL's server, cloning it from "template_database".
   */
  lemma DefaultFallback(scheme: string, host: string, portText: string, db: string, query: string)
    requires '/' !in scheme
    requires |host| > 0 && ':' !in host && '/' !in host
    requires '/' !in portText
    requires '?' !in db && IsSafeName(db)
    requires query == [] || query[0] == '?'
    requires ParseInt(portText).Some? && MIN_PORT <= ParseInt(portText).value <= MAX_PORT
    ensures FallbackSettings(Some(scheme + "://" + host + ":" + portText + "/" + db + query), Some(DEFAULT_CONFIG)) ==
            Success(Settings(host, ParseInt(portText).value, "postgres", "postgres", "postgres", db, "template_database"))
  {
    var url := Some(scheme + "://" + host + ":" + portText + "/" + db + query);
    InspectUrlReadsParts(scheme, host, portText, db, query);
    var parts := DbUrlParts(host, ParseInt(portText).value, db);
    assert InspectUrl(url) == Success(parts);
    var c := DEFAULT_CONFIG;
    DefaultNamesAreSafe();
    assert FallbackSettings(url, Some(c)) ==
           Configure(Some(host), parts.port, Some(c.maintenanceDb), Some(c.adminUser),
                     Some(c.adminPassword), Some(db), Some(c.templateDatabaseName));
  }

  class DbSandboxSpringExtension {
    var provider: PostgresSandboxDatabaseProvider?

    constructor ()
      ensures provider == null
    {
      provider := null;
    }

    /**
     * beforeAll: take the context's provider bean, or build one from the DataSource URL and
     * the annotation; store it, then prepare the sandbox. A provider that could not be built
     * leaves the field as it was; one that was built is stored even if preparing fails.
     */
    method BeforeAll(bean: PostgresSandboxDatabaseProvider?, url: Option<string>,
                     cfg: Option<EnableDbSandboxer>, runtime: Runtime)
      returns (err: Option<Failure>)
      requires bean != null ==> bean.runtime == runtime
      modifies this, runtime
      ensures bean != null ==> provider == bean
      ensures bean == null && FallbackSettings(url, cfg).Failure? ==>
                && err == Some(FallbackSettings(url, cfg).error)
                && provider == old(provider)
                && runtime.engine == old(runtime.engine)
                && runtime.templateReady == old(runtime.templateReady)
      ensures bean == null && FallbackSettings(url, cfg).Success? ==>
                && provider != null && fresh(provider)
                && provider.settings == FallbackSettings(url, cfg).value
                && provider.runtime == runtime
      ensures bean != null || FallbackSettings(url, cfg).Success? ==>
                var r := PrepareSpec(provider.settings, runtime.env, old(runtime.engine), old(runtime.templateReady));
                && runtime.engine == r.engine && runtime.templateReady == r.ready && err == r.error
    {
      var p: PostgresSandboxDatabaseProvider;
      if bean != null {
        p := bean;
      } else {
        var settings := FallbackSettings(url, cfg);
        if settings.Failure? {
          return Some(settings.error);
        }
        p := new PostgresSandboxDatabaseProvider(settings.value, runtime);
      }
      provider := p;
      err := p.PrepareSandbox();
    }

    /**
     * beforeEach: without a provider, SandboxException; otherwise rebuild the sandbox, leaving
     * the TEMPLATE_READY flag alone.
     */
    method BeforeEach() returns (err: Option<Failure>)
      modifies if provider == null then {} else {provider.runtime}
      ensures provider == null ==> err == Some(SandboxMessage("No PostgreSQL database provider available"))
      ensures provider != null ==>
                && Effect(provider.runtime.engine, err) ==
                   RebuildSpec(provider.settings, provider.runtime.env, old(provider.runtime.engine))
                && provider.runtime.templateReady == old(provider.runtime.templateReady)
    {
      if provider == null {
        return Some(SandboxMessage("No PostgreSQL database provider available"));
      }
      err := provider.RebuildSandbox();
    }
  }
}
