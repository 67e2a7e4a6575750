/** Session: built from one data source (strict builder) or from an ordered
    list of data sources (failover), and torn down in a fixed order. */
module Sessions {
  import opened Errors
  import opened TlsPolicy
  import opened Endpoints
  import opened BuilderSpec
  import opened Builder

  /** What a Session takes over from the builder. */
  datatype Parts = Parts(sess: XSession, conn: Connection, database: Option<string>)

  const NoSourceOne := "Could not connect to the given data source"
  const NoSourceAny := "Could not connect ot any of the given data sources"

  /** The Multi_source constructor's decision once the visit over the list
      returned normally: take what the builder built, or raise. */
  function MultiSourceResult(st: BuilderState): (r: Outcome<Parts>)
    requires Coherent(st)
    ensures r.Return? <==> st.sess.Some?
    ensures r.Return? ==> r.value.sess == st.sess.value && r.value.conn == st.conn.value
                          && r.value.database == st.database && r.value.sess.connection == r.value.conn
  {
    if st.sess.None? then
      if st.attempts == 1 && st.lastError.Some? then Throw(st.lastError.value)
      else Throw(Error(GenericError, if st.attempts == 1 then NoSourceOne else NoSourceAny))
    else
      Return(Parts(st.sess.value, st.conn.value, st.database))
  }

  /** Session(Multi_source&) as a function of the list. */
  function MultiSource(cands: seq<Candidate>): Outcome<Parts>
  {
    var s := Failover(Fresh(false), cands);
    match s.result
    case Throw(e) => Throw(e)
    case Return(_) =>
      FailoverOutcome(Fresh(false), cands);
      MultiSourceResult(s.state)
  }

  /** Session(TCPIP&, ...) and Session(Unix_socket&, ...) as a function of
      the one data source: a strict builder; the database is not copied. */
  function SingleSource(c: Candidate): Outcome<Parts>
    requires !c.source.TcpipOld?
  {
    var s := Visit(Fresh(true), c);
    match s.result
    case Throw(e) => Throw(e)
    case Return(_) =>
      StrictVisitNeverSkips(Fresh(true), c);
      Return(Parts(s.state.sess.value, s.state.conn.value, None))
  }

  // ---------------------------------------------------------------------
  // failover results

  /** An empty list makes no attempt and raises the generic error. */
  lemma MultiSourceEmpty()
    ensures MultiSource([]) == Throw(Error(GenericError, NoSourceAny))
  {
  }

  /** One source that fails recoverably: its own error is raised unchanged. */
  lemma MultiSourceOneRecoverable(c: Candidate)
    requires FailsRecoverably(c)
    ensures MultiSource([c]) == Throw(c.server.connect.error)
  {
    FailoverAllRecoverable(Fresh(false), [c]);
  }

  /** Two or more sources that all fail recoverably: the generic error, never
      one of theirs. */
  lemma MultiSourceAllRecoverable(cands: seq<Candidate>)
    requires |cands| >= 2
    requires forall i :: 0 <= i < |cands| ==> FailsRecoverably(cands[i])
    ensures MultiSource(cands) == Throw(Error(GenericError, NoSourceAny))
  {
    FailoverAllRecoverable(Fresh(false), cands);
  }

  /** The "given data source" message is never produced: after exactly one
      attempt that did not build a session, an error was always retained and
      that error is raised. */
  lemma MultiSourceOneAttemptRethrows(cands: seq<Candidate>)
    requires Failover(Fresh(false), cands).result == Return(false)
    requires Failover(Fresh(false), cands).state.attempts == 1
    ensures Failover(Fresh(false), cands).state.lastError.Some?
    ensures MultiSource(cands) == Throw(Failover(Fresh(false), cands).state.lastError.value)
  {
    FailoverKeepsAnError(Fresh(false), cands);
    FailoverOutcome(Fresh(false), cands);
  }

  /** A source that raises after recoverable failures before it ends the
      whole construction with its error; later sources are never visited. */
  lemma MultiSourceRaisesAt(cands: seq<Candidate>, i: nat)
    requires i < |cands|
    requires forall j :: 0 <= j < i ==> FailsRecoverably(cands[j])
    requires Visit(Failover(Fresh(false), cands[..i]).state, cands[i]).result.Throw?
    ensures MultiSource(cands) == Throw(Visit(Failover(Fresh(false), cands[..i]).state, cands[i]).result.error)
  {
    FailoverRaisesAt(Fresh(false), cands, i);
  }

  /** A connect failure with a bail-out code ends the construction with that
      error after exactly i + 1 attempts. */
  lemma MultiSourceFatalConnect(cands: seq<Candidate>, i: nat)
    requires i < |cands|
    requires forall j :: 0 <= j < i ==> FailsRecoverably(cands[j])
    requires !cands[i].source.TcpipOld?
    requires cands[i].server.connect.Failed? && IsFatal(cands[i].server.connect.error.code)
    ensures MultiSource(cands) == Throw(cands[i].server.connect.error)
    ensures Failover(Fresh(false), cands).state.attempts == i + 1
  {
    var p, c, q := cands[..i], cands[i], cands[i + 1..];
    assert forall j :: 0 <= j < |p| ==> FailsRecoverably(p[j]);
    FailoverAllRecoverable(Fresh(false), p);
    var st := Failover(Fresh(false), p).state;
    FatalConnectRaises(st, c);
    assert Failover(Fresh(false), cands) == Visit(st, c) by {
      PrefixThenVisit(Fresh(false), p, c);
      FailoverIgnoresRest(Fresh(false), p + [c], q);
      SplitAround(cands, i);
    }
  }

  /** A legacy endpoint anywhere after recoverable failures raises "Not
      supported"; it is never skipped. */
  lemma MultiSourceLegacyRaises(cands: seq<Candidate>, i: nat)
    requires i < |cands|
    requires forall j :: 0 <= j < i ==> FailsRecoverably(cands[j])
    requires cands[i].source.TcpipOld?
    ensures MultiSource(cands) == Throw(Error(GenericError, NotSupported))
  {
    FailoverRaisesAt(Fresh(false), cands, i);
  }

  /** An invalid TLS option pair on a reachable first host escapes the
      failover although the builder is not strict. */
  lemma MultiSourceInvalidTlsRaises(cands: seq<Candidate>)
    requires cands != [] && cands[0].source.Tcpip?
    requires cands[0].server.connect.Done?
    requires CheckOptions(cands[0].source.tcpOptions.tls).Some?
    ensures MultiSource(cands) == Throw(CheckOptions(cands[0].source.tcpOptions.tls).value)
  {
    FailoverIgnoresRest(Fresh(false), [cands[0]], cands[1..]);
    assert [cands[0]] + cands[1..] == cands;
  }

  /** A failed TLS handshake on the first host is raised; the next hosts
      are not tried. */
  lemma MultiSourceHandshakeFailureRaises(cands: seq<Candidate>, e: Error)
    requires cands != [] && cands[0].source.Tcpip?
    requires cands[0].server.connect.Done?
    requires CheckOptions(cands[0].source.tcpOptions.tls).None?
    requires cands[0].source.tcpOptions.tls.mode != Disabled
    requires cands[0].server.reply == Ack && cands[0].server.handshake == Failed(e)
    ensures MultiSource(cands) == Throw(e)
  {
    FailoverIgnoresRest(Fresh(false), [cands[0]], cands[1..]);
    assert [cands[0]] + cands[1..] == cands;
  }

  // ---------------------------------------------------------------------
  // single data source

  /** With a strict builder any connect failure is raised unchanged,
      whatever its code. */
  lemma SingleSourceConnectFailure(c: Candidate)
    requires !c.source.TcpipOld? && c.server.connect.Failed?
    ensures SingleSource(c) == Throw(c.server.connect.error)
  {
  }

  /** The decline signature under PREFERRED gives a session over the plain
      TCP connection. */
  lemma SingleSourceDeclinedTls(host: string, port: nat, db: Option<string>, msg: string, h: IoResult)
    ensures var t := TcpTransport(host, port);
      SingleSource(Candidate(Tcpip(host, port, TcpipOptions(db, TlsOptions(Preferred, ""))),
                             Server(Done, ReplyError(5001, 2, "HY000", msg), h, Done)))
      == Return(Parts(XSession(Plain(t)), Plain(t), None))
  {
  }

  /** The same reply under REQUIRED is raised with its code and message. */
  lemma SingleSourceRequiredRefusesDecline(host: string, port: nat, db: Option<string>, msg: string, h: IoResult, l: IoResult)
    ensures SingleSource(Candidate(Tcpip(host, port, TcpipOptions(db, TlsOptions(Required, ""))),
                                   Server(Done, ReplyError(5001, 2, "HY000", msg), h, l)))
            == Throw(Error(ServerError(5001), msg))
  {
  }

  /** An acknowledged request and a good handshake: the session runs over
      the TLS connection. */
  lemma SingleSourceTls(host: string, port: nat, opts: TcpipOptions, l: IoResult)
    requires CheckOptions(opts.tls).None? && opts.tls.mode != Disabled
    ensures var c := Tls(TcpTransport(host, port));
      SingleSource(Candidate(Tcpip(host, port, opts), Server(Done, Ack, Done, Done)))
      == Return(Parts(XSession(c), c, None))
  {
  }

  // ---------------------------------------------------------------------
  // the Session object

  /** Calls made on the owned objects while a Session is destroyed. */
  datatype TeardownCall = Rollback(s: XSession) | DeleteSession(s: XSession) | DeleteConnection(c: Connection)

  /** Rollback only with an open transaction and then first; the session is
      deleted before the connection it runs over. */
  function TeardownCalls(trans: bool, s: XSession, c: Connection): (r: seq<TeardownCall>)
    ensures |r| == if trans then 3 else 2
    ensures Rollback(s) in r <==> trans
    ensures trans ==> r[0] == Rollback(s)
    ensures r[|r| - 2] == DeleteSession(s) && r[|r| - 1] == DeleteConnection(c)
  {
    (if trans then [Rollback(s)] else []) + [DeleteSession(s), DeleteConnection(c)]
  }

  /** Rollback is called at most once, and exactly once with an open
      transaction. */
  lemma {:induction false} TeardownRollsBackOnce(trans: bool, s: XSession, c: Connection)
    ensures CountRollbacks(TeardownCalls(trans, s, c)) == if trans then 1 else 0
  {
    var r := TeardownCalls(trans, s, c);
    if trans {
      assert r == [Rollback(s)] + r[1..];
      CountRollbacksAppend([Rollback(s)], r[1..]);
      assert r[1..] == [DeleteSession(s)] + [DeleteConnection(c)];
      CountRollbacksAppend([DeleteSession(s)], [DeleteConnection(c)]);
    } else {
      assert r == [DeleteSession(s)] + [DeleteConnection(c)];
      CountRollbacksAppend([DeleteSession(s)], [DeleteConnection(c)]);
    }
  }

  function CountRollbacks(calls: seq<TeardownCall>): nat
  {
    if calls == [] then 0 else (if calls[0].Rollback? then 1 else 0) + CountRollbacks(calls[1..])
  }

  lemma {:induction false} CountRollbacksAppend(a: seq<TeardownCall>, b: seq<TeardownCall>)
    ensures CountRollbacks(a + b) == CountRollbacks(a) + CountRollbacks(b)
    decreases |a|
  {
    if a == [] {
      assert a + b == b;
    } else {
      assert (a + b)[1..] == a[1..] + b;
      CountRollbacksAppend(a[1..], b);
    }
  }

  class Session {
    var session: XSession
    var connection: Connection
    var database: Option<string>
    /** Whether a transaction is open; set by the transaction methods of the
        session, which are not part of this model. */
    var trans: bool
    /** Calls made on the owned session and connection. */
    var calls: seq<TeardownCall>

    function Owned(): Parts
      reads this
    {
      Parts(session, connection, database)
    }

    constructor (p: Parts)
      ensures Owned() == p && !trans && calls == []
    {
      session, connection, database := p.sess, p.conn, p.database;
      trans := false;
      calls := [];
    }

    /** ~Session */
    method Destroy()
      modifies this`calls
      ensures calls == old(calls) + TeardownCalls(trans, session, connection)
    {
      if trans {
        calls := calls + [Rollback(session)];
      }
      calls := calls + [DeleteSession(session)];
      calls := calls + [DeleteConnection(connection)];
    }
  }

  /** Session(TCPIP&, options): a strict builder over one TCP/IP host. */
  method OpenTcpip(host: string, port: nat, opts: TcpipOptions, server: Server) returns (r: Outcome<Session>)
    ensures var spec := SingleSource(Candidate(Tcpip(host, port, opts), server));
      match spec
      case Throw(e) => r == Throw(e)
      case Return(p) => r.Return? && fresh(r.value) && r.value.Owned() == p
                        && !r.value.trans && r.value.calls == []
  {
    var sb := new SessionBuilder(true);
    var v := sb.VisitTcpip(host, port, opts, server);
    if v.Throw? {
      return Throw(v.error);
    }
    StrictVisitNeverSkips(Fresh(true), Candidate(Tcpip(host, port, opts), server));
    var s := new Session(Parts(sb.sess.value, sb.conn.value, None));
    r := Return(s);
  }

  /** Session(Unix_socket&, options): a strict builder over one socket. */
  method OpenUnixSocket(path: string, opts: SocketOptions, server: Server) returns (r: Outcome<Session>)
    ensures var spec := SingleSource(Candidate(UnixSocket(path, opts), server));
      match spec
      case Throw(e) => r == Throw(e)
      case Return(p) => r.Return? && fresh(r.value) && r.value.Owned() == p
                        && !r.value.trans && r.value.calls == []
  {
    var sb := new SessionBuilder(true);
    var v := sb.VisitUnixSocket(path, opts, server);
    if v.Throw? {
      return Throw(v.error);
    }
    StrictVisitNeverSkips(Fresh(true), Candidate(UnixSocket(path, opts), server));
    var s := new Session(Parts(sb.sess.value, sb.conn.value, None));
    r := Return(s);
  }

  /** Session(Multi_source&): a non-strict builder visits the list. */
  method OpenMultiSource(cands: seq<Candidate>) returns (r: Outcome<Session>)
    ensures match MultiSource(cands)
      case Throw(e) => r == Throw(e)
      case Return(p) => r.Return? && fresh(r.value) && r.value.Owned() == p
                        && !r.value.trans && r.value.calls == []
  {
    var sb := new SessionBuilder(false);
    var v := VisitEach(sb, cands);
    if v.Throw? {
      return Throw(v.error);
    }
    FailoverOutcome(Fresh(false), cands);
    match MultiSourceResult(sb.State()) {
      case Throw(e) =>
        r := Throw(e);
      case Return(p) =>
        var s := new Session(p);
        r := Return(s);
    }
  }
}
