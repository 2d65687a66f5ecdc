/**
 * The plugin as it was written for the ingestion pipeline: `get_app`, the
 * defaults and nested-block merge of `init_app`, and the `Database` object
 * whose engine, model base and session maker are created on first use.
 */
module IngestionDatabase {
  import opened Wrappers
  import opened Ascii
  import opened Settings
  import opened SettingsProperties
  import opened ConnectionUrlProperties
  import opened ConnectionUrlExample
  import opened Framework
  import opened Plugin
  import SA = Sqlalchemy

  /**
   * `get_app`: the application given, else the registry's current
   * application, else a `RuntimeError`.
   */
  function GetApp(app: Application?, current: Application?): (r: Result<Application, DbError>)
    ensures r.Ok? <==> app != null || current != null
    ensures r.Ok? ==> r.value == (if app != null then app else current)
    ensures r.Err? ==> r.error == NoApplication
  {
    if app != null then Ok(app)
    else if current != null then Ok(current)
    else Err(NoApplication)
  }

  /** `setdefault` of a key the overlay lacks: the key joins the overlay. */
  lemma SetDefaultOverlay(m: map<string, Value>, s: map<string, Value>, k: string, v: Value)
    requires k !in m
    ensures SetDefault(m + s, k, v) == m[k := v] + s
  {
  }

  /** The four `setdefault` calls of `init_app`, in order. */
  function WithDefaults(s: map<string, Value>): (r: map<string, Value>)
    ensures r == Defaults + s
  {
    var host := SetDefault(s, HostKey, Str("localhost"));
    var port := SetDefault(host, PortKey, Int(1433));
    var kind := SetDefault(port, TypeKey, Str("mssql"));
    DefaultKeysDistinct();
    var m1 := map[HostKey := Str("localhost")];
    var m2 := m1[PortKey := Int(1433)];
    var m3 := m2[TypeKey := Str("mssql")];
    assert map[] + s == s;
    SetDefaultOverlay(map[], s, HostKey, Str("localhost"));
    SetDefaultOverlay(m1, s, PortKey, Int(1433));
    SetDefaultOverlay(m2, s, TypeKey, Str("mssql"));
    SetDefaultOverlay(m3, s, DriverKey, Str("pymssql"));
    SetDefault(kind, DriverKey, Str("pymssql"))
  }

  /** The defaults leave the `DATABASE` block where it is. */
  lemma DefaultsSpareBlock(s: map<string, Value>)
    ensures NestedKey !in Defaults
    ensures NestedKey in WithDefaults(s) <==> NestedKey in s
    ensures NestedKey in s ==> WithDefaults(s)[NestedKey] == s[NestedKey]
    ensures forall k :: FromBlock(WithDefaults(s), k) <==> FromBlock(s, k)
  {
    DefaultKeysDistinct();
  }

  /** The settings after `init_app`, or the error it raises once the defaults are in. */
  function InitSettings(s: map<string, Value>): (r: Result<map<string, Value>, ExpandError>)
    requires NestedBlockTranslatable(s)
    ensures r.Err? <==> NestedKey in s && !s[NestedKey].Nested?
    ensures r.Err? ==> r.error == NotAMapping(s[NestedKey])
    // Every entry of the nested block wins, over the settings and the defaults alike.
    ensures r.Ok? && NestedKey in s ==> forall n :: n in s[NestedKey].entries ==>
      SettingKey(n) in r.value && r.value[SettingKey(n)] == s[NestedKey].entries[n]
    // A default fills in only a key that is absent and that the block does not name.
    ensures r.Ok? ==> forall k :: k in Defaults && k !in s && !FromBlock(s, k) ==> k in r.value && r.value[k] == Defaults[k]
    // Every other setting, the `DATABASE` block included, keeps its value.
    ensures r.Ok? ==> forall k :: k in s && !FromBlock(s, k) ==> k in r.value && r.value[k] == s[k]
    // Nothing else appears.
    ensures r.Ok? ==> forall k :: k in r.value ==> k in s || k in Defaults || FromBlock(s, k)
  {
    DefaultsSpareBlock(s);
    ExpandNested(WithDefaults(s))
  }

  /** The `DATABASE` block stays in the settings, and `from_settings` passes over it: it lacks the trailing underscore. */
  lemma LeftoverBlockIgnored(s: map<string, Value>)
    requires Unambiguous(s)
    ensures !IsDatabaseKey(NestedKey)
    ensures Unambiguous(s - {NestedKey}) && FromSettings(s) == FromSettings(s - {NestedKey})
  {
    assert !IsDatabaseKey(NestedKey) by {
      assert |NestedKey| < |Prefix|;
    }
    FromSettingsIgnoresOtherKeys(s, s - {NestedKey});
  }

  /**
   * After `init_app`, each lower-case entry of the nested block is the
   * connection parameter of the same name, whatever the flat settings and
   * the defaults said.
   */
  lemma BlockReachesParams(s: map<string, Value>)
    requires NestedBlockTranslatable(s) && InitSettings(s).Ok? && Unambiguous(InitSettings(s).value)
    requires NestedKey in s
    ensures forall n :: n in s[NestedKey].entries && NoUpper(n) ==>
      n in FromSettings(InitSettings(s).value) && FromSettings(InitSettings(s).value)[n] == s[NestedKey].entries[n]
  {
    var r := InitSettings(s).value;
    forall n | n in s[NestedKey].entries && NoUpper(n)
      ensures n in FromSettings(r) && FromSettings(r)[n] == s[NestedKey].entries[n]
    {
      ParamNameOfSettingKey(n);
      Entry(r, SettingKey(n), n);
    }
  }

  /** Without a `DATABASE` block, `init_app` only fills in the defaults. */
  lemma InitWithoutBlock(s: map<string, Value>)
    requires NestedKey !in s
    ensures NestedBlockTranslatable(s) && InitSettings(s) == Ok(Defaults + s)
  {
    DefaultsSpareBlock(s);
    assert ExpandNested(WithDefaults(s)) == Ok(WithDefaults(s));
  }

  /**
   * The four `setdefault` calls of `init_app`, written out, give the settings
   * the nested-block merge of `InitSettings` starts from.
   */
  lemma DefaultsInOrder(s: map<string, Value>)
    requires NestedBlockTranslatable(s)
    ensures var w := SetDefault(SetDefault(SetDefault(SetDefault(s, HostKey, Str("localhost")),
                       PortKey, Int(1433)), TypeKey, Str("mssql")), DriverKey, Str("pymssql"));
      && w == WithDefaults(s) && NestedBlockTranslatable(w)
      && InitSettings(s) == if NestedKey !in w then Ok(w)
                            else match w[NestedKey]
                              case Nested(block) => Ok(w + ToSettings(block))
                              case _ => Err(NotAMapping(w[NestedKey]))
  {
    DefaultsSpareBlock(s);
  }

  /** Settings that name only the account and the database, as a deployment would. */
  predicate AccountOnly(s: map<string, Value>, user: string, password: string, database: string)
  {
    s == map["DATABASE_USERNAME" := Str(user), "DATABASE_PASSWORD" := Str(password), "DATABASE_DATABASE" := Str(database)]
  }

  /** Every key of the defaults is `DATABASE_` followed by upper-case letters. */
  lemma DefaultsConventional()
    ensures forall k :: k in Defaults ==> IsConventionalKey(k)
  {
    DefaultKeysDistinct();
    KeyHost();
    KeyPort();
    KeyType();
    KeyDriver();
  }

  lemma AccountConventional(s: map<string, Value>, user: string, password: string, database: string)
    requires AccountOnly(s, user, password, database)
    ensures forall k :: k in s ==> IsConventionalKey(k)
  {
    KeyUsername();
    KeyPassword();
    KeyDatabase();
  }

  lemma OverlayConventional(a: map<string, Value>, b: map<string, Value>)
    requires forall k :: k in a ==> IsConventionalKey(k)
    requires forall k :: k in b ==> IsConventionalKey(k)
    ensures forall k :: k in a + b ==> IsConventionalKey(k)
  {
  }

  lemma AccountOnlyKeys(s: map<string, Value>, user: string, password: string, database: string)
    requires AccountOnly(s, user, password, database)
    ensures NestedBlockTranslatable(s) && InitSettings(s) == Ok(Defaults + s)
    ensures Unambiguous(Defaults + s)
  {
    assert NestedKey !in s;
    InitWithoutBlock(s);
    DefaultsConventional();
    AccountConventional(s, user, password, database);
    OverlayConventional(Defaults, s);
    FromSettingsUnambiguous(Defaults + s);
  }

  /** The connection parameters of the account-only settings once the defaults are in. */
  predicate DefaultParams(p: map<string, Value>, user: string, password: string, database: string)
  {
    && "type" in p && p["type"] == Str("mssql") && "driver" in p && p["driver"] == Str("pymssql")
    && "username" in p && p["username"] == Str(user) && "password" in p && p["password"] == Str(password)
    && "host" in p && p["host"] == Str("localhost") && "port" in p && p["port"] == Int(1433)
    && "database" in p && p["database"] == Str(database)
  }

  /** The flat entries of the account-only settings once the defaults are in. */
  predicate DefaultEntries(r: map<string, Value>, user: string, password: string, database: string)
  {
    && "DATABASE_TYPE" in r && r["DATABASE_TYPE"] == Str("mssql")
    && "DATABASE_DRIVER" in r && r["DATABASE_DRIVER"] == Str("pymssql")
    && "DATABASE_USERNAME" in r && r["DATABASE_USERNAME"] == Str(user)
    && "DATABASE_PASSWORD" in r && r["DATABASE_PASSWORD"] == Str(password)
    && "DATABASE_HOST" in r && r["DATABASE_HOST"] == Str("localhost")
    && "DATABASE_PORT" in r && r["DATABASE_PORT"] == Int(1433)
    && "DATABASE_DATABASE" in r && r["DATABASE_DATABASE"] == Str(database)
  }

  lemma AccountOnlyEntries(s: map<string, Value>, user: string, password: string, database: string)
    requires AccountOnly(s, user, password, database)
    ensures DefaultEntries(Defaults + s, user, password, database)
  {
  }

  lemma DefaultEntriesParams(r: map<string, Value>, user: string, password: string, database: string)
    requires Unambiguous(r) && DefaultEntries(r, user, password, database)
    ensures DefaultParams(FromSettings(r), user, password, database)
  {
    KeyType(); Entry(r, "DATABASE_TYPE", "type");
    KeyDriver(); Entry(r, "DATABASE_DRIVER", "driver");
    KeyUsername(); Entry(r, "DATABASE_USERNAME", "username");
    KeyPassword(); Entry(r, "DATABASE_PASSWORD", "password");
    KeyHost(); Entry(r, "DATABASE_HOST", "host");
    KeyPort(); Entry(r, "DATABASE_PORT", "port");
    KeyDatabase(); Entry(r, "DATABASE_DATABASE", "database");
  }

  lemma GlueDefaultUrl(user: string, password: string, database: string)
    ensures "mssql" + ("+" + ("pymssql" + ("://" + (user + (":" + (password + ("@" + ("localhost" + (":" + ("1433" + ("/" + database)))))))))))
      == "mssql+pymssql://" + (user + (":" + (password + ("@localhost:1433/" + database))))
  {
  }

  lemma DefaultParamsUrl(p: map<string, Value>, user: string, password: string, database: string)
    requires DefaultParams(p, user, password, database)
    ensures HasUrlFields(p) && ScalarUrlFields(p)
    ensures UrlOf(p) == "mssql+pymssql://" + (user + (":" + (password + ("@localhost:1433/" + database))))
  {
    assert Render(p["port"]) == "1433" by {
      assert IntToDecimal(1433) == "1433";
    }
    assert UrlOf(p) == "mssql" + ("+" + ("pymssql" + ("://" + (user + (":" + (password + ("@" + ("localhost" + (":" + ("1433" + ("/" + database)))))))))));
    GlueDefaultUrl(user, password, database);
  }

  lemma DefaultEntriesUrl(r: map<string, Value>, user: string, password: string, database: string)
    requires Unambiguous(r) && DefaultEntries(r, user, password, database)
    ensures Translatable(r)
    ensures ConnectionUrl(r) == Ok("mssql+pymssql://" + (user + (":" + (password + ("@localhost:1433/" + database)))))
  {
    DefaultEntriesParams(r, user, password, database);
    var p := FromSettings(r);
    DefaultParamsUrl(p, user, password, database);
    RenderableIffScalar(p);
    ConnectionUrlSpec(r);
  }

  /**
   * With only the account and the database named, `init_app`'s defaults
   * complete the URL: `mssql+pymssql://<user>:<password>@localhost:1433/<database>`.
   */
  lemma DefaultsCompleteUrl(s: map<string, Value>, user: string, password: string, database: string)
    requires AccountOnly(s, user, password, database)
    ensures NestedBlockTranslatable(s) && InitSettings(s).Ok?
    ensures Translatable(InitSettings(s).value)
    ensures ConnectionUrl(InitSettings(s).value) == Ok("mssql+pymssql://" + (user + (":" + (password + ("@localhost:1433/" + database)))))
  {
    AccountOnlyKeys(s, user, password, database);
    AccountOnlyEntries(s, user, password, database);
    DefaultEntriesUrl(Defaults + s, user, password, database);
  }

  /** The settings of the repository's test application: a URI and nothing else. */
  predicate UriOnly(s: map<string, Value>)
  {
    s == map["DATABASE_URI" := Str("sqlite://")]
  }

  lemma KeyUri()
    ensures IsConventionalKey("DATABASE_URI") && ParamName("DATABASE_URI") == "uri"
  {
    ConventionalKey("URI");
    assert Lower("URI") == "uri";
  }

  /** The keys of the URI-only settings once the defaults are in. */
  predicate UriEntries(r: map<string, Value>)
  {
    && (forall k :: k in r ==> k in {"DATABASE_HOST", "DATABASE_PORT", "DATABASE_TYPE", "DATABASE_DRIVER", "DATABASE_URI"})
    && (forall k :: k in r ==> !r[k].Nested?)
    && "DATABASE_TYPE" in r && r["DATABASE_TYPE"] == Str("mssql")
    && "DATABASE_DRIVER" in r && r["DATABASE_DRIVER"] == Str("pymssql")
  }

  lemma UriOnlyInit(s: map<string, Value>)
    requires UriOnly(s)
    ensures NestedBlockTranslatable(s) && InitSettings(s) == Ok(Defaults + s)
  {
    assert NestedKey !in s;
    InitWithoutBlock(s);
  }

  lemma UriOnlyEntries(s: map<string, Value>)
    requires UriOnly(s)
    ensures UriEntries(Defaults + s)
  {
  }

  lemma UriEntriesParams(r: map<string, Value>)
    requires UriEntries(r)
    ensures Unambiguous(r)
    ensures var p := FromSettings(r); "type" in p && "driver" in p && "username" !in p
  {
    forall k | k in r ensures IsConventionalKey(k) && ParamName(k) != "username" {
      if k == "DATABASE_HOST" { KeyHost(); }
      else if k == "DATABASE_PORT" { KeyPort(); }
      else if k == "DATABASE_TYPE" { KeyType(); }
      else if k == "DATABASE_DRIVER" { KeyDriver(); }
      else { KeyUri(); }
    }
    FromSettingsUnambiguous(r);
    KeyType();
    Entry(r, "DATABASE_TYPE", "type");
    KeyDriver();
    Entry(r, "DATABASE_DRIVER", "driver");
  }

  /**
   * The test application names only `DATABASE_URI`, which the URL template
   * does not use: even with the defaults in, `connection_url` raises
   * `KeyError('username')`.
   */
  lemma UriOnlyMissesUsername(s: map<string, Value>)
    requires UriOnly(s)
    ensures NestedBlockTranslatable(s) && InitSettings(s).Ok?
    ensures Translatable(InitSettings(s).value)
    ensures ConnectionUrl(InitSettings(s).value) == Err("username")
  {
    UriOnlyInit(s);
    UriOnlyEntries(s);
    UriEntriesUrl(Defaults + s);
  }

  lemma UriEntriesUrl(r: map<string, Value>)
    requires UriEntries(r)
    ensures Translatable(r) && ConnectionUrl(r) == Err("username")
  {
    UriEntriesParams(r);
    var p := FromSettings(r);
    assert ScalarUrlFields(p);
    RenderableIffScalar(p);
    ConnectionUrlSpec(r);
  }

  /** The application `engine` would use has settings that `connection_url` can translate. */
  predicate AppReady(app: Application?, current: Application?)
    reads app, current
  {
    var a := GetApp(app, current);
    a.Ok? ==> Translatable(a.value.settings)
  }

  /**
   * The URL `engine` hands to `create_engine`, or what it raises first;
   * `UrlFor` states what it is.
   */
  function AppUrl(app: Application?, current: Application?): (r: Result<string, DbError>)
    reads app, current
    requires AppReady(app, current)
    ensures GetApp(app, current).Err? ==> r == Err(NoApplication)
    ensures GetApp(app, current).Ok? ==> r == EngineUrl(GetApp(app, current).value.settings)
  {
    match GetApp(app, current)
    case Err(e) => Err(e)
    case Ok(a) => EngineUrl(a.settings)
  }

  /**
   * What `engine` computes: `RuntimeError` when there is no application,
   * otherwise the URL of the settings of the application `get_app` chooses,
   * or the `KeyError` for the first template field those settings lack.
   */
  function UrlFor(app: Application?, current: Application?): (r: Result<string, DbError>)
    reads app, current
    requires AppReady(app, current)
    ensures GetApp(app, current).Err? ==> r == Err(NoApplication)
    ensures GetApp(app, current).Ok? ==>
      var p := FromSettings(GetApp(app, current).value.settings);
      && ScalarUrlFields(p)
      && r == if HasUrlFields(p) then Ok(UrlOf(p)) else Err(MissingSetting(FirstMissing(p)))
  {
    if GetApp(app, current).Ok? then
      EngineUrlSpec(GetApp(app, current).value.settings);
      AppUrl(app, current)
    else
      AppUrl(app, current)
  }

  /** An interface to a relational database, creating its SQLAlchemy objects on first use. */
  class Database {
    var app: Application?
    var engine: Option<SA.Engine>
    var modelBase: Option<SA.ModelBase>
    var sessionMaker: Option<SA.SessionMaker>

    /** The session maker, once made, is bound to the engine this object holds. */
    predicate Valid()
      reads this
    {
      sessionMaker.Some? ==> engine.Some? && sessionMaker.value.bind == engine.value
    }

    /** `Database(app)`: nothing created yet; `init_app` runs when an application is given. */
    constructor (app: Application?)
      requires app != null ==> NestedBlockTranslatable(app.settings) && InitSettings(app.settings).Ok?
      modifies app
      ensures Valid()
      ensures this.app == app && engine == None && modelBase == None && sessionMaker == None
      ensures app != null ==> app.settings == InitSettings(old(app.settings)).value
    {
      engine := None;
      modelBase := None;
      sessionMaker := None;
      this.app := app;
      new;
      if app != null {
        var _ := InitApp(app);
      }
    }

    /**
     * `init_app`: fill in the four defaults, then spread a nested `DATABASE`
     * block over the flat keys. A block that is not a mapping raises after
     * the defaults are in.
     */
    method InitApp(app: Application) returns (r: Outcome<ExpandError>)
      requires NestedBlockTranslatable(app.settings)
      modifies app
      ensures match InitSettings(old(app.settings))
        case Ok(m) => r == Pass && app.settings == m
        case Err(e) => r == Fail(e) && app.settings == WithDefaults(old(app.settings))
    {
      DefaultsInOrder(app.settings);
      app.settings := SetDefault(app.settings, HostKey, Str("localhost"));
      app.settings := SetDefault(app.settings, PortKey, Int(1433));
      app.settings := SetDefault(app.settings, TypeKey, Str("mssql"));
      app.settings := SetDefault(app.settings, DriverKey, Str("pymssql"));
      if NestedKey in app.settings {
        match app.settings[NestedKey]
        case Nested(block) =>
          app.settings := app.settings + ToSettings(block);
        case _ =>
          return Fail(NotAMapping(app.settings[NestedKey]));
      }
      return Pass;
    }

    /** The `engine` property: created from the application's URL on first use, the same handle afterwards. */
    method Engine(lib: SA.Library, current: Application?) returns (r: Result<SA.Engine, DbError>)
      requires lib.Valid() && Valid()
      requires engine.None? ==> AppReady(app, current)
      modifies this, lib
      ensures lib.Valid() && Valid()
      ensures app == old(app) && modelBase == old(modelBase) && sessionMaker == old(sessionMaker)
      ensures old(engine).Some? ==> r == Ok(old(engine).value) && engine == old(engine) && lib.log == old(lib.log) && lib.issued == old(lib.issued)
      ensures old(engine).None? ==> match old(AppUrl(app, current))
        case Err(e) => r == Err(e) && engine == None && lib.log == old(lib.log) && lib.issued == old(lib.issued)
        case Ok(url) =>
          && r == Ok(SA.Engine(old(lib.issued), url)) && engine == Some(r.value)
          && lib.issued == old(lib.issued) + 1 && lib.log == old(lib.log) + [SA.EngineCreated(r.value)]
      ensures r.Ok? ==> engine == Some(r.value)
      ensures SA.OpenSessions(lib.log) == SA.OpenSessions(old(lib.log))
    {
      if engine.Some? {
        return Ok(engine.value);
      }
      var url := AppUrl(app, current);
      if url.Err? {
        return Err(url.error);
      }
      var e := lib.CreateEngine(url.value);
      engine := Some(e);
      return Ok(e);
    }

    /** The `Model` property: one declarative base per object. */
    method Model(lib: SA.Library) returns (b: SA.ModelBase)
      requires lib.Valid() && Valid()
      modifies this, lib
      ensures lib.Valid() && Valid()
      ensures app == old(app) && engine == old(engine) && sessionMaker == old(sessionMaker)
      ensures modelBase == Some(b)
      ensures old(modelBase).Some? ==> b == old(modelBase).value && lib.log == old(lib.log) && lib.issued == old(lib.issued)
      ensures old(modelBase).None? ==>
        && b == SA.ModelBase(old(lib.issued))
        && lib.issued == old(lib.issued) + 1 && lib.log == old(lib.log) + [SA.BaseDeclared(b)]
      ensures SA.OpenSessions(lib.log) == SA.OpenSessions(old(lib.log))
    {
      if modelBase.None? {
        var base := lib.DeclarativeBase();
        modelBase := Some(base);
      }
      b := modelBase.value;
    }

    /** The `sessionmaker` property: bound to the engine, which it creates first when needed. */
    method SessionMaker(lib: SA.Library, current: Application?) returns (r: Result<SA.SessionMaker, DbError>)
      requires lib.Valid() && Valid()
      requires engine.None? ==> AppReady(app, current)
      modifies this, lib
      ensures lib.Valid() && Valid()
      ensures app == old(app) && modelBase == old(modelBase)
      ensures old(sessionMaker).Some? ==>
        r == Ok(old(sessionMaker).value) && engine == old(engine) && sessionMaker == old(sessionMaker)
        && lib.log == old(lib.log) && lib.issued == old(lib.issued)
      ensures old(sessionMaker).None? && old(engine).Some? ==>
        && r == Ok(SA.SessionMaker(old(lib.issued), old(engine).value)) && engine == old(engine)
        && lib.issued == old(lib.issued) + 1 && lib.log == old(lib.log) + [SA.MakerCreated(r.value)]
      ensures old(sessionMaker).None? && old(engine).None? ==> match old(AppUrl(app, current))
        case Err(e) =>
          r == Err(e) && engine == None && sessionMaker == None && lib.log == old(lib.log) && lib.issued == old(lib.issued)
        case Ok(url) =>
          var e := SA.Engine(old(lib.issued), url);
          && r == Ok(SA.SessionMaker(old(lib.issued) + 1, e)) && engine == Some(e)
          && lib.issued == old(lib.issued) + 2 && lib.log == old(lib.log) + [SA.EngineCreated(e), SA.MakerCreated(r.value)]
      ensures r.Ok? ==> sessionMaker == Some(r.value) && engine == Some(r.value.bind)
      ensures SA.OpenSessions(lib.log) == SA.OpenSessions(old(lib.log))
    {
      if sessionMaker.Some? {
        return Ok(sessionMaker.value);
      }
      ghost var log0 := lib.log;
      var e := Engine(lib, current);
      if e.Err? {
        return Err(e.error);
      }
      var m := lib.MakeSessionMaker(e.value);
      SA.LogTwo(log0, SA.EngineCreated(e.value), SA.MakerCreated(m));
      sessionMaker := Some(m);
      return Ok(m);
    }

    /**
     * The `session` context manager: open a session from the session maker,
     * run the body on it, and close it whatever the body did. Whatever the
     * body raised is raised again once the session is closed.
     */
    method Session(lib: SA.Library, current: Application?, body: Outcome<string>)
      returns (session: Option<SA.Session>, r: Outcome<DbError>)
      requires lib.Valid() && Valid()
      requires engine.None? ==> AppReady(app, current)
      modifies this, lib
      ensures lib.Valid() && Valid()
      ensures app == old(app) && modelBase == old(modelBase)
      ensures old(sessionMaker).Some? ==>
        && session == Some(SA.Session(old(lib.issued), old(sessionMaker).value.id))
        && engine == old(engine) && sessionMaker == old(sessionMaker) && lib.issued == old(lib.issued) + 1
        && lib.log == old(lib.log) + [SA.SessionOpened(session.value), SA.SessionClosed(session.value.id)]
      ensures old(sessionMaker).None? && old(engine).Some? ==>
        var m := SA.SessionMaker(old(lib.issued), old(engine).value);
        && session == Some(SA.Session(old(lib.issued) + 1, m.id))
        && engine == old(engine) && sessionMaker == Some(m) && lib.issued == old(lib.issued) + 2
        && lib.log == old(lib.log) + [SA.MakerCreated(m)] + [SA.SessionOpened(session.value), SA.SessionClosed(session.value.id)]
      ensures old(sessionMaker).None? && old(engine).None? ==> match old(AppUrl(app, current))
        case Err(e) =>
          && session == None && r == Fail(e)
          && engine == None && sessionMaker == None && lib.log == old(lib.log) && lib.issued == old(lib.issued)
        case Ok(url) =>
          var e := SA.Engine(old(lib.issued), url);
          var m := SA.SessionMaker(old(lib.issued) + 1, e);
          && session == Some(SA.Session(old(lib.issued) + 2, m.id))
          && engine == Some(e) && sessionMaker == Some(m) && lib.issued == old(lib.issued) + 3
          && lib.log == old(lib.log) + [SA.EngineCreated(e), SA.MakerCreated(m)] + [SA.SessionOpened(session.value), SA.SessionClosed(session.value.id)]
      ensures session.Some? ==> r == (if body.Pass? then Pass else Fail(BodyRaised(body.error)))
      ensures SA.OpenSessions(lib.log) == SA.OpenSessions(old(lib.log))
    {
      var m := SessionMaker(lib, current);
      if m.Err? {
        return None, Fail(m.error);
      }
      var s;
      s, r := RunSession(lib, m.value, body);
      session := Some(s);
    }
  }

  /**
   * Reading `engine` and then `sessionmaker` on one object: both reads agree
   * on the engine, and at most one engine is created for the object.
   */
  method EngineThenSessionMaker(db: Database, lib: SA.Library, current: Application?)
    returns (e: Result<SA.Engine, DbError>, m: Result<SA.SessionMaker, DbError>)
    requires lib.Valid() && db.Valid()
    requires db.engine.None? ==> AppReady(db.app, current)
    modifies db, lib
    ensures e.Ok? ==> m.Ok? && m.value.bind == e.value && db.engine == Some(e.value)
    ensures e.Err? ==> m == Err(e.error)
    ensures SA.EnginesCreated(lib.log) <= SA.EnginesCreated(old(lib.log)) + 1
    ensures old(db.engine).Some? ==> SA.EnginesCreated(lib.log) == SA.EnginesCreated(old(lib.log))
  {
    ghost var log0 := lib.log;
    e := db.Engine(lib, current);
    if e.Ok? && lib.log != log0 {
      SA.QuietCall(log0, SA.EngineCreated(e.value));
    }
    ghost var log1 := lib.log;
    m := db.SessionMaker(lib, current);
    if lib.log != log1 {
      SA.QuietCall(log1, SA.MakerCreated(m.value));
    }
  }

  /** Reading `Model` twice gives one declarative base, made at most once. */
  method ModelTwice(db: Database, lib: SA.Library) returns (first: SA.ModelBase, second: SA.ModelBase)
    requires lib.Valid() && db.Valid()
    modifies db, lib
    ensures first == second && db.modelBase == Some(first)
    ensures |lib.log| <= |old(lib.log)| + 1
  {
    first := db.Model(lib);
    second := db.Model(lib);
  }
}
