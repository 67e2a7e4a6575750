/** Session_builder: the visitor that tries one data source at a time and
    keeps what it built, the attempt count and the last recoverable error. */
module Builder {
  import opened Errors
  import opened TlsPolicy
  import opened Endpoints
  import opened BuilderSpec

  class SessionBuilder {
    var conn: Option<Connection>
    var sess: Option<XSession>
    var database: Option<string>
    const throwErrors: bool
    var error: Option<Error>
    var attempts: nat
    /** Calls made into the transport and protocol layers so far. */
    var io: seq<IoEvent>

    function State(): BuilderState
      reads this
    {
      BuilderState(throwErrors, attempts, error, conn, sess, database, io)
    }

    constructor (throwErrors: bool)
      ensures State() == Fresh(throwErrors)
    {
      this.throwErrors := throwErrors;
      conn, sess, database := None, None, None;
      error, attempts, io := None, 0, [];
    }

    /** Session_builder::connect: t's connect() does what outcome says. */
    method Connect(t: Transport, outcome: IoResult) returns (r: Outcome<Option<Transport>>)
      modifies this
      ensures Step(State(), r) == ConnectStep(old(State()), t, outcome)
    {
      attempts := attempts + 1;
      io := io + [ConnectCall(t)];
      match outcome {
        case Done =>
          r := Return(Some(t));
        case Failed(e) =>
          io := io + [Discard(t)];
          if throwErrors || e.code == AuthFailure || e.code == ProtobufError || e.code == TlsError {
            r := Throw(e);
            return;
          }
          error := Some(e);
          r := Return(None);
      }
    }

    /** Session_builder::tls_connect over the connected plain transport t.
        The reply processor's two flags are the locals tls and fallback. */
    method TlsConnect(t: Transport, o: TlsOptions, reply: Reply, handshake: IoResult)
      returns (r: Outcome<Option<Connection>>)
      modifies this
      ensures Step(State(), r) == TlsNegotiation(old(State()), t, o, reply, handshake)
    {
      if o.ca != "" && Level(o.mode) < Level(VerifyCa) {
        return Throw(Error(GenericError, CaWithoutVerify));
      }
      if Level(o.mode) >= Level(VerifyCa) && o.ca == "" {
        return Throw(Error(GenericError, MissingCa));
      }
      if o.mode == Disabled {
        return Return(None);
      }
      io := io + [SendTlsCapability];
      var tls := true;
      var fallback := o.mode == Preferred;
      io := io + [ReceiveReply];
      match reply {
        case Ack =>
        case ReplyError(code, severity, state, msg) =>
          if code == 5001 && severity == 2 && state == "HY000" && fallback {
            tls := false;
          } else {
            return Throw(Error(ServerError(code), msg));
          }
      }
      if !tls {
        return Return(None);
      }
      io := io + [Handshake(t)];
      if handshake.Failed? {
        return Throw(handshake.error);
      }
      r := Return(Some(Tls(t)));
    }

    /** new mysqlx::Session over c; login is what its construction does. */
    method OpenSession(c: Connection, db: Option<string>, login: IoResult) returns (r: Outcome<bool>)
      modifies this
      ensures Step(State(), r) == NewSessionStep(old(State()), c, db, login)
    {
      conn := Some(c);
      io := io + [NewSession(c)];
      if login.Failed? {
        return Throw(login.error);
      }
      sess := Some(XSession(c));
      database := db;
      r := Return(true);
    }

    /** The TCPIP visitor. */
    method VisitTcpip(host: string, port: nat, opts: TcpipOptions, server: Server) returns (r: Outcome<bool>)
      modifies this
      ensures Step(State(), r) == TcpipVisit(old(State()), host, port, opts, server)
    {
      var t := TcpTransport(host, port);
      var c := Connect(t, server.connect);
      if c.Throw? {
        return Throw(c.error);
      }
      if c.value.None? {
        return Return(false);
      }
      var tls := TlsConnect(t, opts.tls, server.reply, server.handshake);
      if tls.Throw? {
        return Throw(tls.error);
      }
      if tls.value.Some? {
        r := OpenSession(tls.value.value, opts.database, server.login);
      } else {
        r := OpenSession(Plain(t), opts.database, server.login);
      }
    }

    /** The Unix-socket visitor: no TLS negotiation. */
    method VisitUnixSocket(path: string, opts: SocketOptions, server: Server) returns (r: Outcome<bool>)
      modifies this
      ensures Step(State(), r) == UnixSocketVisit(old(State()), path, opts, server)
    {
      var t := UnixTransport(path);
      var c := Connect(t, server.connect);
      if c.Throw? {
        return Throw(c.error);
      }
      if c.value.None? {
        return Return(false);
      }
      r := OpenSession(Plain(t), opts.database, server.login);
    }

    /** The TCPIP_old visitor: always raises, never counts an attempt. */
    method VisitTcpipOld() returns (r: Outcome<bool>)
      ensures Step(State(), r) == TcpipOldVisit(State())
    {
      r := Throw(Error(GenericError, NotSupported));
    }
  }

  /** The contract of the data-source list's visit: the builder is applied to
      each source in order until it returns true or raises. */
  method VisitEach(sb: SessionBuilder, cands: seq<Candidate>) returns (r: Outcome<bool>)
    modifies sb
    ensures Step(sb.State(), r) == Failover(old(sb.State()), cands)
  {
    var i := 0;
    while i < |cands|
      invariant 0 <= i <= |cands|
      invariant Failover(old(sb.State()), cands) == Failover(sb.State(), cands[i..])
    {
      var c := cands[i];
      ghost var before := sb.State();
      match c.source {
        case Tcpip(host, port, opts) =>
          r := sb.VisitTcpip(host, port, opts, c.server);
        case UnixSocket(path, opts) =>
          r := sb.VisitUnixSocket(path, opts, c.server);
        case TcpipOld(_, _) =>
          r := sb.VisitTcpipOld();
      }
      assert Step(sb.State(), r) == Visit(before, c);
      assert cands[i..][0] == c && cands[i..][1..] == cands[i + 1..];
      if Stops(r) {
        return;
      }
      i := i + 1;
    }
    r := Return(false);
  }
}
