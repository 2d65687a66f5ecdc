/**
 * What both versions of the plugin share beyond the settings translator:
 * the errors they raise and the `try`/`finally` at the heart of `session`.
 */
module Plugin {
  import opened Wrappers
  import opened Settings
  import opened ConnectionUrlProperties
  import SA = Sqlalchemy

  /** What the plugin raises: no application, a `KeyError` for a template field, or whatever the session body raised. */
  datatype DbError = NoApplication | MissingSetting(name: string) | BodyRaised(reason: string)

  /** `connection_url(app.settings)` as `engine` calls it, with the `KeyError` turned into a plugin error. */
  function EngineUrl(s: map<string, Value>): (r: Result<string, DbError>)
    requires Translatable(s)
    ensures r.Err? ==> r.error.MissingSetting? && r.error.name !in FromSettings(s)
  {
    match ConnectionUrl(s)
    case Ok(url) => Ok(url)
    case Err(field) => Err(MissingSetting(field))
  }

  /**
   * The URL `engine` uses is the filled template when the settings supply
   * every template field, and otherwise the `KeyError` of the first field
   * missing from the template.
   */
  lemma EngineUrlSpec(s: map<string, Value>)
    requires Translatable(s)
    ensures var p := FromSettings(s);
      && ScalarUrlFields(p)
      && EngineUrl(s) == if HasUrlFields(p) then Ok(UrlOf(p)) else Err(MissingSetting(FirstMissing(p)))
  {
    ConnectionUrlSpec(s);
  }

  /**
   * `session = maker()`, then `yield session` inside `try`, and
   * `session.close()` in `finally`: the session is closed whether the body
   * passed or raised, and what the body raised is raised again afterwards.
   */
  method RunSession(lib: SA.Library, maker: SA.SessionMaker, body: Outcome<string>)
    returns (s: SA.Session, r: Outcome<DbError>)
    requires lib.Valid()
    modifies lib
    ensures lib.Valid()
    ensures s == SA.Session(old(lib.issued), maker.id) && lib.issued == old(lib.issued) + 1
    ensures lib.log == old(lib.log) + [SA.SessionOpened(s), SA.SessionClosed(s.id)]
    ensures r == (if body.Pass? then Pass else Fail(BodyRaised(body.error)))
    ensures SA.OpenSessions(lib.log) == SA.OpenSessions(old(lib.log))
  {
    s := lib.OpenSession(maker);
    // The body runs here; its outcome is given.
    lib.CloseSession(s);
    SA.OpenThenClose(old(lib.log), s);
    r := if body.Pass? then Pass else Fail(BodyRaised(body.error));
  }
}
