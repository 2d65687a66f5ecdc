/**
 * The three SQLAlchemy entry points the plugin calls (`create_engine`,
 * `declarative_base`, `sessionmaker`) and the sessions a session maker
 * opens, as opaque handles. Every call that creates a handle hands out a
 * fresh number; closing a session creates nothing. Every call is recorded
 * in a call log, so a model can count creations and check that every
 * session opened is closed again.
 */
module Sqlalchemy {
  /** What `create_engine(url)` returns. */
  datatype Engine = Engine(id: nat, url: string)

  /** The `MetaData` attached to a declarative base. */
  datatype MetaData = MetaData(base: nat)

  /** What `declarative_base()` returns: the base class of the models. */
  datatype ModelBase = ModelBase(id: nat)
  {
    /** `Model.metadata`: one per base. */
    function Metadata(): (m: MetaData)
      ensures m.base == id
    {
      MetaData(id)
    }
  }

  /** What `sessionmaker(bind=engine)` returns. */
  datatype SessionMaker = SessionMaker(id: nat, bind: Engine)

  /** What calling a session maker returns. */
  datatype Session = Session(id: nat, maker: nat)

  /** One call into the library. */
  datatype Call =
    | EngineCreated(engine: Engine)
    | BaseDeclared(base: ModelBase)
    | MakerCreated(maker: SessionMaker)
    | SessionOpened(session: Session)
    | SessionClosed(closed: nat)

  /** The sessions opened and not yet closed after the calls of `log`. */
  function OpenSessions(log: seq<Call>): set<nat>
  {
    if log == [] then {}
    else
      var before := OpenSessions(log[..|log| - 1]);
      match log[|log| - 1]
      case SessionOpened(s) => before + {s.id}
      case SessionClosed(id) => before - {id}
      case _ => before
  }

  /** The number of engines created by the calls of `log`. */
  function EnginesCreated(log: seq<Call>): nat
  {
    if log == [] then 0
    else EnginesCreated(log[..|log| - 1]) + (if log[|log| - 1].EngineCreated? then 1 else 0)
  }

  /** Every session opened in `log` has a number below `n`. */
  predicate SessionsBelow(log: seq<Call>, n: nat)
  {
    forall i :: 0 <= i < |log| && log[i].SessionOpened? ==> log[i].session.id < n
  }

  /** A session that is open has been opened, so its number is below every bound on opened numbers. */
  lemma {:induction false} OpenSessionsBelow(log: seq<Call>, n: nat)
    requires SessionsBelow(log, n)
    ensures forall id :: id in OpenSessions(log) ==> id < n
  {
    if log != [] {
      var prefix := log[..|log| - 1];
      assert SessionsBelow(prefix, n) by {
        forall i | 0 <= i < |prefix| && prefix[i].SessionOpened? ensures prefix[i].session.id < n {
          assert prefix[i] == log[i];
        }
      }
      OpenSessionsBelow(prefix, n);
    }
  }

  /** A call that neither opens nor closes a session leaves the open sessions alone. */
  lemma QuietCall(log: seq<Call>, c: Call)
    requires !c.SessionOpened? && !c.SessionClosed?
    ensures OpenSessions(log + [c]) == OpenSessions(log)
    ensures EnginesCreated(log + [c]) == EnginesCreated(log) + (if c.EngineCreated? then 1 else 0)
  {
    assert (log + [c])[..|log|] == log;
  }

  /** Opening a fresh session and closing it again leaves the open sessions as they were. */
  lemma {:induction false} OpenThenClose(log: seq<Call>, s: Session)
    requires s.id !in OpenSessions(log)
    ensures OpenSessions(log + [SessionOpened(s), SessionClosed(s.id)]) == OpenSessions(log)
    ensures EnginesCreated(log + [SessionOpened(s), SessionClosed(s.id)]) == EnginesCreated(log)
  {
    var afterOpen := log + [SessionOpened(s)];
    var afterClose := log + [SessionOpened(s), SessionClosed(s.id)];
    assert afterOpen[..|log|] == log;
    assert afterClose[..|afterOpen|] == afterOpen;
    assert OpenSessions(afterOpen) == OpenSessions(log) + {s.id};
    assert OpenSessions(afterClose) == OpenSessions(afterOpen) - {s.id};
  }

  /** Two calls logged one after the other. */
  lemma LogTwo(log: seq<Call>, first: Call, second: Call)
    ensures log + [first] + [second] == log + [first, second]
  {
  }

  /** The library: a counter of handles issued and the log of calls made. */
  class Library {
    var issued: nat
    var log: seq<Call>

    /** Every session in the log was numbered by this library. */
    predicate Valid()
      reads this
    {
      SessionsBelow(log, issued)
    }

    constructor ()
      ensures Valid() && issued == 0 && log == []
    {
      issued := 0;
      log := [];
    }

    /** `create_engine(url)`. */
    method CreateEngine(url: string) returns (e: Engine)
      requires Valid()
      modifies this
      ensures Valid()
      ensures e == Engine(old(issued), url)
      ensures issued == old(issued) + 1 && log == old(log) + [EngineCreated(e)]
      ensures OpenSessions(log) == OpenSessions(old(log))
      ensures EnginesCreated(log) == EnginesCreated(old(log)) + 1
    {
      e := Engine(issued, url);
      QuietCall(log, EngineCreated(e));
      log := log + [EngineCreated(e)];
      issued := issued + 1;
    }

    /** `declarative_base()`. */
    method DeclarativeBase() returns (b: ModelBase)
      requires Valid()
      modifies this
      ensures Valid()
      ensures b == ModelBase(old(issued))
      ensures issued == old(issued) + 1 && log == old(log) + [BaseDeclared(b)]
      ensures OpenSessions(log) == OpenSessions(old(log))
      ensures EnginesCreated(log) == EnginesCreated(old(log))
    {
      b := ModelBase(issued);
      QuietCall(log, BaseDeclared(b));
      log := log + [BaseDeclared(b)];
      issued := issued + 1;
    }

    /** `sessionmaker(bind=engine)`. */
    method MakeSessionMaker(engine: Engine) returns (m: SessionMaker)
      requires Valid()
      modifies this
      ensures Valid()
      ensures m == SessionMaker(old(issued), engine)
      ensures issued == old(issued) + 1 && log == old(log) + [MakerCreated(m)]
      ensures OpenSessions(log) == OpenSessions(old(log))
      ensures EnginesCreated(log) == EnginesCreated(old(log))
    {
      m := SessionMaker(issued, engine);
      QuietCall(log, MakerCreated(m));
      log := log + [MakerCreated(m)];
      issued := issued + 1;
    }

    /** Calling the session maker `m`: a new session. */
    method OpenSession(m: SessionMaker) returns (s: Session)
      requires Valid()
      modifies this
      ensures Valid()
      ensures s == Session(old(issued), m.id) && s.id !in OpenSessions(old(log))
      ensures issued == old(issued) + 1 && log == old(log) + [SessionOpened(s)]
    {
      s := Session(issued, m.id);
      OpenSessionsBelow(log, issued);
      log := log + [SessionOpened(s)];
      issued := issued + 1;
    }

    /** `session.close()`. */
    method CloseSession(s: Session)
      requires Valid()
      modifies this
      ensures Valid()
      ensures issued == old(issued) && log == old(log) + [SessionClosed(s.id)]
    {
      log := log + [SessionClosed(s.id)];
    }
  }
}
