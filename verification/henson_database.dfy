/**
 * The plugin as a Henson extension: `init_app` spreads a nested `DATABASE`
 * block over the flat keys, and the `Database` object creates its engine,
 * model base and session maker on first use and exposes the model's
 * metadata.
 */
module HensonDatabase {
  import opened Wrappers
  import opened Settings
  import opened ConnectionUrlProperties
  import opened Framework
  import opened Plugin
  import SA = Sqlalchemy

  /** The URL `engine` computes from the settings of the application. */
  function AppUrl(app: Application?): Result<string, DbError>
    reads app
    requires app != null && Translatable(app.settings)
  {
    EngineUrl(app.settings)
  }

  /** An interface to a relational database, creating its SQLAlchemy objects on first use. */
  class Database {
    var app: Application?
    var engine: Option<SA.Engine>
    var modelBase: Option<SA.ModelBase>
    var sessionMaker: Option<SA.SessionMaker>

    /** The session maker, once made, is bound to the engine this object holds. */
    predicate Valid()
      reads this
    {
      sessionMaker.Some? ==> engine.Some? && sessionMaker.value.bind == engine.value
    }

    /** `Database(app)`: nothing created yet, and the application recorded. */
    constructor (app: Application?)
      ensures Valid()
      ensures this.app == app && engine == None && modelBase == None && sessionMaker == None
    {
      engine := None;
      modelBase := None;
      sessionMaker := None;
      this.app := app;
    }

    /**
     * `init_app`: record the application, then spread a nested `DATABASE`
     * block over the flat keys; a block that is not a mapping raises.
     */
    method InitApp(app: Application) returns (r: Outcome<ExpandError>)
      requires NestedBlockTranslatable(app.settings)
      modifies this, app
      ensures this.app == app && engine == old(engine) && modelBase == old(modelBase) && sessionMaker == old(sessionMaker)
      ensures match ExpandNested(old(app.settings))
        case Ok(m) => r == Pass && app.settings == m
        case Err(e) => r == Fail(e) && app.settings == old(app.settings)
    {
      this.app := app;
      if NestedKey in app.settings {
        match app.settings[NestedKey]
        case Nested(block) =>
          app.settings := app.settings + ToSettings(block);
        case _ =>
          return Fail(NotAMapping(app.settings[NestedKey]));
      }
      return Pass;
    }

    /** The `engine` property: created from the application's URL on first use, the same handle afterwards. */
    method Engine(lib: SA.Library) returns (r: Result<SA.Engine, DbError>)
      requires lib.Valid() && Valid()
      requires engine.None? ==> app != null && Translatable(app.settings)
      modifies this, lib
      ensures lib.Valid() && Valid()
      ensures app == old(app) && modelBase == old(modelBase) && sessionMaker == old(sessionMaker)
      ensures old(engine).Some? ==> r == Ok(old(engine).value) && engine == old(engine) && lib.log == old(lib.log) && lib.issued == old(lib.issued)
      ensures old(engine).None? ==> match old(AppUrl(app))
        case Err(e) => r == Err(e) && engine == None && lib.log == old(lib.log) && lib.issued == old(lib.issued)
        case Ok(url) =>
          && r == Ok(SA.Engine(old(lib.issued), url)) && engine == Some(r.value)
          && lib.issued == old(lib.issued) + 1 && lib.log == old(lib.log) + [SA.EngineCreated(r.value)]
      ensures r.Ok? ==> engine == Some(r.value)
      ensures SA.OpenSessions(lib.log) == SA.OpenSessions(old(lib.log))
    {
      if engine.Some? {
        return Ok(engine.value);
      }
      var url := AppUrl(app);
      if url.Err? {
        return Err(url.error);
      }
      var e := lib.CreateEngine(url.value);
      engine := Some(e);
      return Ok(e);
    }

    /** The `Model` property: one declarative base per object. */
    method Model(lib: SA.Library) returns (b: SA.ModelBase)
      requires lib.Valid() && Valid()
      modifies this, lib
      ensures lib.Valid() && Valid()
      ensures app == old(app) && engine == old(engine) && sessionMaker == old(sessionMaker)
      ensures modelBase == Some(b)
      ensures old(modelBase).Some? ==> b == old(modelBase).value && lib.log == old(lib.log) && lib.issued == old(lib.issued)
      ensures old(modelBase).None? ==>
        && b == SA.ModelBase(old(lib.issued))
        && lib.issued == old(lib.issued) + 1 && lib.log == old(lib.log) + [SA.BaseDeclared(b)]
      ensures SA.OpenSessions(lib.log) == SA.OpenSessions(old(lib.log))
    {
      if modelBase.None? {
        var base := lib.DeclarativeBase();
        modelBase := Some(base);
      }
      b := modelBase.value;
    }

    /** The `metadata` property: the metadata of the cached `Model`. */
    method Metadata(lib: SA.Library) returns (m: SA.MetaData)
      requires lib.Valid() && Valid()
      modifies this, lib
      ensures lib.Valid() && Valid()
      ensures app == old(app) && engine == old(engine) && sessionMaker == old(sessionMaker)
      ensures modelBase.Some? && m == modelBase.value.Metadata()
      ensures old(modelBase).Some? ==> modelBase == old(modelBase) && lib.log == old(lib.log) && lib.issued == old(lib.issued)
      ensures old(modelBase).None? ==>
        && modelBase == Some(SA.ModelBase(old(lib.issued)))
        && lib.issued == old(lib.issued) + 1 && lib.log == old(lib.log) + [SA.BaseDeclared(modelBase.value)]
      ensures SA.OpenSessions(lib.log) == SA.OpenSessions(old(lib.log))
    {
      var b := Model(lib);
      m := b.Metadata();
    }

    /** The `sessionmaker` property: bound to the engine, which it creates first when needed. */
    method SessionMaker(lib: SA.Library) returns (r: Result<SA.SessionMaker, DbError>)
      requires lib.Valid() && Valid()
      requires engine.None? ==> app != null && Translatable(app.settings)
      modifies this, lib
      ensures lib.Valid() && Valid()
      ensures app == old(app) && modelBase == old(modelBase)
      ensures old(sessionMaker).Some? ==>
        r == Ok(old(sessionMaker).value) && engine == old(engine) && sessionMaker == old(sessionMaker)
        && lib.log == old(lib.log) && lib.issued == old(lib.issued)
      ensures old(sessionMaker).None? && old(engine).Some? ==>
        && r == Ok(SA.SessionMaker(old(lib.issued), old(engine).value)) && engine == old(engine)
        && lib.issued == old(lib.issued) + 1 && lib.log == old(lib.log) + [SA.MakerCreated(r.value)]
      ensures old(sessionMaker).None? && old(engine).None? ==> match old(AppUrl(app))
        case Err(e) =>
          r == Err(e) && engine == None && sessionMaker == None && lib.log == old(lib.log) && lib.issued == old(lib.issued)
        case Ok(url) =>
          var e := SA.Engine(old(lib.issued), url);
          && r == Ok(SA.SessionMaker(old(lib.issued) + 1, e)) && engine == Some(e)
          && lib.issued == old(lib.issued) + 2 && lib.log == old(lib.log) + [SA.EngineCreated(e), SA.MakerCreated(r.value)]
      ensures r.Ok? ==> sessionMaker == Some(r.value) && engine == Some(r.value.bind)
      ensures SA.OpenSessions(lib.log) == SA.OpenSessions(old(lib.log))
    {
      if sessionMaker.Some? {
        return Ok(sessionMaker.value);
      }
      ghost var log0 := lib.log;
      var e := Engine(lib);
      if e.Err? {
        return Err(e.error);
      }
      var m := lib.MakeSessionMaker(e.value);
      SA.LogTwo(log0, SA.EngineCreated(e.value), SA.MakerCreated(m));
      sessionMaker := Some(m);
      return Ok(m);
    }

    /**
     * The `session` context manager: open a session from the session maker,
     * run the body on it, and close it whatever the body did.
     */
    method Session(lib: SA.Library, body: Outcome<string>) returns (session: Option<SA.Session>, r: Outcome<DbError>)
      requires lib.Valid() && Valid()
      requires engine.None? ==> app != null && Translatable(app.settings)
      modifies this, lib
      ensures lib.Valid() && Valid()
      ensures app == old(app) && modelBase == old(modelBase)
      ensures old(sessionMaker).Some? ==>
        && session == Some(SA.Session(old(lib.issued), old(sessionMaker).value.id))
        && engine == old(engine) && sessionMaker == old(sessionMaker) && lib.issued == old(lib.issued) + 1
        && lib.log == old(lib.log) + [SA.SessionOpened(session.value), SA.SessionClosed(session.value.id)]
      ensures old(sessionMaker).None? && old(engine).Some? ==>
        var m := SA.SessionMaker(old(lib.issued), old(engine).value);
        && session == Some(SA.Session(old(lib.issued) + 1, m.id))
        && engine == old(engine) && sessionMaker == Some(m) && lib.issued == old(lib.issued) + 2
        && lib.log == old(lib.log) + [SA.MakerCreated(m)] + [SA.SessionOpened(session.value), SA.SessionClosed(session.value.id)]
      ensures old(sessionMaker).None? && old(engine).None? ==> match old(AppUrl(app))
        case Err(e) =>
          && session == None && r == Fail(e)
          && engine == None && sessionMaker == None && lib.log == old(lib.log) && lib.issued == old(lib.issued)
        case Ok(url) =>
          var e := SA.Engine(old(lib.issued), url);
          var m := SA.SessionMaker(old(lib.issued) + 1, e);
          && session == Some(SA.Session(old(lib.issued) + 2, m.id))
          && engine == Some(e) && sessionMaker == Some(m) && lib.issued == old(lib.issued) + 3
          && lib.log == old(lib.log) + [SA.EngineCreated(e), SA.MakerCreated(m)] + [SA.SessionOpened(session.value), SA.SessionClosed(session.value.id)]
      ensures session.Some? ==>
        && sessionMaker.Some? && session.value.maker == sessionMaker.value.id
        && r == (if body.Pass? then Pass else Fail(BodyRaised(body.error)))
      ensures SA.OpenSessions(lib.log) == SA.OpenSessions(old(lib.log))
    {
      var m := SessionMaker(lib);
      if m.Err? {
        return None, Fail(m.error);
      }
      var s;
      s, r := RunSession(lib, m.value, body);
      session := Some(s);
    }
  }

  /** Reading `metadata` twice gives the metadata of one model base. */
  method MetadataTwice(db: Database, lib: SA.Library) returns (first: SA.MetaData, second: SA.MetaData)
    requires lib.Valid() && db.Valid()
    modifies db, lib
    ensures first == second && db.modelBase.Some? && first == db.modelBase.value.Metadata()
    ensures |lib.log| <= |old(lib.log)| + 1
  {
    first := db.Metadata(lib);
    second := db.Metadata(lib);
  }
}
