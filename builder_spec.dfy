/** The session builder as a function of its state: one step per call of
    connect, tls_connect and the three visitors, and the failover over an
    ordered list of data sources. The class in module Builder is proved to
    take exactly these steps. */
module BuilderSpec {
  import opened Errors
  import opened TlsPolicy
  import opened Endpoints

  /** The builder's fields: m_throw_errors, m_attempts, m_error, m_conn,
      m_sess, m_database, and the log of calls made into the layers below. */
  datatype BuilderState = BuilderState(
    strict: bool,
    attempts: nat,
    lastError: Option<Error>,
    conn: Option<Connection>,
    sess: Option<XSession>,
    database: Option<string>,
    io: seq<IoEvent>)

  function Fresh(strict: bool): BuilderState
  {
    BuilderState(strict, 0, None, None, None, None, [])
  }

  /** A new builder state and what the call returned or raised. */
  datatype Step<+T> = Step(state: BuilderState, result: Outcome<T>)

  predicate Stops(r: Outcome<bool>)
  {
    r != Return(false)
  }

  /** A session, when there is one, runs over the connection the builder holds. */
  predicate Coherent(st: BuilderState)
  {
    st.sess.Some? ==> st.conn.Some? && st.sess.value.connection == st.conn.value
  }

  const NotSupported := "Not supported"

  // ---------------------------------------------------------------------
  // connect

  /** Connects the transport t; outcome is what its connect() does. */
  function ConnectStep(st: BuilderState, t: Transport, outcome: IoResult): (s: Step<Option<Transport>>)
    ensures s.state.attempts == st.attempts + 1
    ensures s.state.(attempts := st.attempts, lastError := st.lastError, io := st.io) == st
    ensures s.result.Return? && s.result.value.Some? ==> s.result.value == Some(t)
  {
    var st1 := st.(attempts := st.attempts + 1, io := st.io + [ConnectCall(t)]);
    match outcome
    case Done => Step(st1, Return(Some(t)))
    case Failed(e) =>
      var st2 := st1.(io := st1.io + [Discard(t)]);
      if st.strict || IsFatal(e.code) then Step(st2, Throw(e))
      else Step(st2.(lastError := Some(e)), Return(None))
  }

  /** The per-attempt classification: a failure is raised exactly when the
      builder is strict or the code is a bail-out code; otherwise it becomes
      the one retained error and the caller moves on. */
  lemma ConnectClassifies(st: BuilderState, t: Transport, outcome: IoResult)
    ensures var s := ConnectStep(st, t, outcome);
      && (s.result == Return(Some(t)) <==> outcome.Done?)
      && (s.result.Throw? <==> outcome.Failed? && (st.strict || IsFatal(outcome.error.code)))
      && (s.result.Throw? ==> s.result.error == outcome.error)
      && (s.result == Return(None) <==> outcome.Failed? && !st.strict && !IsFatal(outcome.error.code))
      && s.state.lastError == (if s.result == Return(None) then Some(outcome.error) else st.lastError)
  {
  }

  // ---------------------------------------------------------------------
  // tls_connect

  /** Negotiates TLS over the connected plain transport t. Returns the TLS
      connection, or None to keep the plain one. */
  function TlsNegotiation(st: BuilderState, t: Transport, o: TlsOptions, reply: Reply, handshake: IoResult)
    : (s: Step<Option<Connection>>)
    ensures s.state == st.(io := s.state.io)
    ensures s.result.Return? && s.result.value.Some? ==> s.result.value == Some(Tls(t))
    // the plain connection is kept only under DISABLED or after a decline under PREFERRED
    ensures s.result == Return(None) <==>
              CheckOptions(o).None?
              && (o.mode == Disabled
                  || (o.mode == Preferred && reply.ReplyError?
                      && IsDeclineSignature(reply.code, reply.severity, reply.state)))
    ensures s.result == Return(Some(Tls(t))) <==>
              CheckOptions(o).None? && o.mode != Disabled && reply.Ack? && handshake.Done?
    // any other error reply is raised with its own code and message
    ensures CheckOptions(o).None? && o.mode != Disabled && reply.ReplyError?
            && !(o.mode == Preferred && IsDeclineSignature(reply.code, reply.severity, reply.state))
            ==> s.result == Throw(Error(ServerError(reply.code), reply.msg))
  {
    match CheckOptions(o)
    case Some(e) => Step(st, Throw(e))
    case None =>
      if o.mode == Disabled then Step(st, Return(None))
      else
        var st1 := st.(io := st.io + [SendTlsCapability, ReceiveReply]);
        match ProcessReply(reply, o.mode)
        case Throw(e) => Step(st1, Throw(e))
        case Return(useTls) =>
          if !useTls then Step(st1, Return(None))
          else
            var st2 := st1.(io := st1.io + [Handshake(t)]);
            match handshake
            case Failed(e) => Step(st2, Throw(e))
            case Done => Step(st2, Return(Some(Tls(t))))
  }

  /** An invalid (mode, ca) pair raises before anything is sent. */
  lemma InvalidOptionsRaiseFirst(st: BuilderState, t: Transport, o: TlsOptions, reply: Reply, handshake: IoResult)
    requires CheckOptions(o).Some?
    ensures TlsNegotiation(st, t, o, reply, handshake) == Step(st, Throw(CheckOptions(o).value))
  {
  }

  /** DISABLED with no CA: no exchange at all, the plain connection stays. */
  lemma DisabledSkipsNegotiation(st: BuilderState, t: Transport, reply: Reply, handshake: IoResult)
    ensures TlsNegotiation(st, t, TlsOptions(Disabled, ""), reply, handshake) == Step(st, Return(None))
  {
  }

  /** A mode that verifies the CA but no CA: raises "Missing ssl-ca", with
      no exchange. */
  lemma VerifyWithoutCaRaises(st: BuilderState, t: Transport, mode: SslMode, reply: Reply, handshake: IoResult)
    requires VerifiesCa(mode)
    ensures TlsNegotiation(st, t, TlsOptions(mode, ""), reply, handshake)
            == Step(st, Throw(Error(GenericError, MissingCa)))
  {
  }

  /** Once the request was sent and acknowledged, a handshake failure is
      raised unchanged. */
  lemma HandshakeFailurePropagates(st: BuilderState, t: Transport, o: TlsOptions, e: Error)
    requires CheckOptions(o).None? && o.mode != Disabled
    ensures TlsNegotiation(st, t, o, Ack, Failed(e)).result == Throw(e)
  {
  }

  // ---------------------------------------------------------------------
  // the three visitors

  /** Builds the protocol session over conn and records the database. */
  function NewSessionStep(st: BuilderState, conn: Connection, database: Option<string>, login: IoResult)
    : (s: Step<bool>)
    ensures s.result != Return(false)
    ensures s.state.conn == Some(conn)
    ensures s.result == Return(true) <==> login.Done?
    ensures s.result == Return(true) ==> s.state.sess == Some(XSession(conn)) && s.state.database == database
    ensures s.result.Throw? ==> s.state.sess == st.sess && s.state.database == st.database
  {
    var st1 := st.(conn := Some(conn), io := st.io + [NewSession(conn)]);
    match login
    case Failed(e) => Step(st1, Throw(e))
    case Done => Step(st1.(sess := Some(XSession(conn)), database := database), Return(true))
  }

  function TcpipVisit(st: BuilderState, host: string, port: nat, opts: TcpipOptions, server: Server)
    : (s: Step<bool>)
  {
    var t := TcpTransport(host, port);
    var c := ConnectStep(st, t, server.connect);
    match c.result
    case Throw(e) => Step(c.state, Throw(e))
    case Return(connected) =>
      if connected.None? then Step(c.state, Return(false))
      else
        var n := TlsNegotiation(c.state, t, opts.tls, server.reply, server.handshake);
        match n.result
        case Throw(e) => Step(n.state, Throw(e))
        case Return(tls) =>
          NewSessionStep(n.state, if tls.Some? then tls.value else Plain(t), opts.database, server.login)
  }

  function UnixSocketVisit(st: BuilderState, path: string, opts: SocketOptions, server: Server)
    : (s: Step<bool>)
  {
    var t := UnixTransport(path);
    var c := ConnectStep(st, t, server.connect);
    match c.result
    case Throw(e) => Step(c.state, Throw(e))
    case Return(connected) =>
      if connected.None? then Step(c.state, Return(false))
      else NewSessionStep(c.state, Plain(t), opts.database, server.login)
  }

  /** A TCPIP visit that built a session records the source's database and
      holds a connection to that host: TLS exactly when the mode is not
      DISABLED and the server acknowledged the request, plain otherwise
      (DISABLED, or a decline under PREFERRED). */
  lemma TcpipVisitSuccess(st: BuilderState, host: string, port: nat, opts: TcpipOptions, server: Server)
    requires TcpipVisit(st, host, port, opts, server).result == Return(true)
    ensures var s := TcpipVisit(st, host, port, opts, server).state;
      && s.sess.Some? && s.conn.Some? && s.sess.value.connection == s.conn.value
      && s.database == opts.database
      && s.conn.value.transport == TcpTransport(host, port)
      && (s.conn.value.Tls? <==> opts.tls.mode != Disabled && server.reply.Ack?)
      && (s.conn.value.Plain? ==>
            opts.tls.mode == Disabled
            || (opts.tls.mode == Preferred && server.reply.ReplyError?
                && IsDeclineSignature(server.reply.code, server.reply.severity, server.reply.state)))
  {
  }

  /** A Unix-socket visit that built a session holds the plain socket
      connection and records the source's database. */
  lemma UnixSocketVisitSuccess(st: BuilderState, path: string, opts: SocketOptions, server: Server)
    requires UnixSocketVisit(st, path, opts, server).result == Return(true)
    ensures var s := UnixSocketVisit(st, path, opts, server).state;
      && s.conn == Some(Plain(UnixTransport(path)))
      && s.sess == Some(XSession(Plain(UnixTransport(path))))
      && s.database == opts.database
  {
  }

  /** A legacy endpoint raises at once and touches nothing. */
  function TcpipOldVisit(st: BuilderState): (s: Step<bool>)
    ensures s.state == st && s.result.Throw?
    ensures s.result.error == Error(GenericError, NotSupported)
  {
    Step(st, Throw(Error(GenericError, NotSupported)))
  }

  /** The visitor overload chosen by the kind of data source. */
  function Visit(st: BuilderState, c: Candidate): Step<bool>
  {
    match c.source
    case Tcpip(host, port, opts) => TcpipVisit(st, host, port, opts, c.server)
    case UnixSocket(path, opts) => UnixSocketVisit(st, path, opts, c.server)
    case TcpipOld(_, _) => TcpipOldVisit(st)
  }

  /** Each visit makes one connect attempt, except a legacy one which makes
      none; strictness never changes. */
  lemma VisitCountsAttempt(st: BuilderState, c: Candidate)
    ensures Visit(st, c).state.attempts == st.attempts + (if c.source.TcpipOld? then 0 else 1)
    ensures Visit(st, c).state.strict == st.strict
  {
  }

  /** What a visit returns and the builder's state agree: true exactly when a
      session was built, and that session runs over the connection held;
      false leaves conn, sess and database as they were. */
  lemma VisitOutcome(st: BuilderState, c: Candidate)
    requires Coherent(st) && st.sess.None?
    ensures var s := Visit(st, c);
      && Coherent(s.state)
      && (s.result == Return(true) <==> s.state.sess.Some?)
      && (s.result == Return(false) <==> !st.strict && FailsRecoverably(c))
      && (s.result == Return(false) ==> s.state.(attempts := st.attempts, lastError := st.lastError, io := st.io) == st)
  {
  }

  /** A visit asks for the next source exactly on a connect failure with a
      code that is not a bail-out code, in a non-strict builder. A refused
      TLS option pair or reply, a failed handshake and a failed session
      construction are all raised. */
  lemma VisitSkipsExactly(st: BuilderState, c: Candidate)
    ensures Visit(st, c).result == Return(false) <==> !st.strict && FailsRecoverably(c)
  {
  }

  /** A strict builder never asks to go on to another endpoint: a supported
      visit either builds a session or raises. */
  lemma StrictVisitNeverSkips(st: BuilderState, c: Candidate)
    requires st.strict && Coherent(st) && st.sess.None?
    ensures Visit(st, c).result != Return(false)
    ensures Visit(st, c).result.Return? ==> Visit(st, c).state.sess.Some? && Coherent(Visit(st, c).state)
  {
  }

  /** A connect failure that is not a bail-out code, in a non-strict
      builder: the visit asks for the next endpoint and keeps that error. */
  predicate FailsRecoverably(c: Candidate)
  {
    && !c.source.TcpipOld?
    && c.server.connect.Failed?
    && !IsFatal(c.server.connect.error.code)
  }

  /** A connect failure with a bail-out code is raised by the visit, strict
      or not, after one attempt. */
  lemma FatalConnectRaises(st: BuilderState, c: Candidate)
    requires !c.source.TcpipOld?
    requires c.server.connect.Failed? && IsFatal(c.server.connect.error.code)
    ensures Visit(st, c).result == Throw(c.server.connect.error)
    ensures Visit(st, c).state.attempts == st.attempts + 1
  {
  }

  // ---------------------------------------------------------------------
  // failover over an ordered list (the Multi_source visit contract)

  /** Visits cands in order, stopping at the first visit that returns true
      or raises. */
  function Failover(st: BuilderState, cands: seq<Candidate>): (s: Step<bool>)
    decreases |cands|
  {
    if cands == [] then Step(st, Return(false))
    else
      var v := Visit(st, cands[0]);
      if Stops(v.result) then v else Failover(v.state, cands[1..])
  }

  /** The attempt counter never exceeds the number of sources visited. */
  lemma {:induction false} FailoverAttemptsBound(st: BuilderState, cands: seq<Candidate>)
    ensures st.attempts <= Failover(st, cands).state.attempts <= st.attempts + |cands|
    ensures Failover(st, cands).state.strict == st.strict
    decreases |cands|
  {
    if cands != [] {
      VisitCountsAttempt(st, cands[0]);
      var v := Visit(st, cands[0]);
      if !Stops(v.result) {
        FailoverAttemptsBound(v.state, cands[1..]);
      }
    }
  }

  /** Nothing after the endpoint that stopped the iteration is visited:
      appending more sources changes neither the result nor the state. */
  lemma {:induction false} FailoverIgnoresRest(st: BuilderState, p: seq<Candidate>, q: seq<Candidate>)
    requires Stops(Failover(st, p).result)
    ensures Failover(st, p + q) == Failover(st, p)
    decreases |p|
  {
    assert p != [];
    assert (p + q)[0] == p[0];
    var v := Visit(st, p[0]);
    if !Stops(v.result) {
      assert (p + q)[1..] == p[1..] + q;
      FailoverIgnoresRest(v.state, p[1..], q);
    }
  }

  /** When every source fails recoverably, all of them are tried, the
      result asks for more, and the error kept is the last one. */
  lemma {:induction false} FailoverAllRecoverable(st: BuilderState, cands: seq<Candidate>)
    requires !st.strict
    requires forall i :: 0 <= i < |cands| ==> FailsRecoverably(cands[i])
    ensures var s := Failover(st, cands);
      && s.result == Return(false)
      && s.state.attempts == st.attempts + |cands|
      && (cands == [] ==> s.state.lastError == st.lastError)
      && (cands != [] ==> FailsRecoverably(cands[|cands| - 1])
                          && s.state.lastError == Some(cands[|cands| - 1].server.connect.error))
      && s.state.(attempts := st.attempts, lastError := st.lastError, io := st.io) == st
    decreases |cands|
  {
    if cands != [] {
      var v := Visit(st, cands[0]);
      assert FailsRecoverably(cands[0]);
      assert v.result == Return(false);
      assert v.state.lastError == Some(cands[0].server.connect.error);
      FailoverAllRecoverable(v.state, cands[1..]);
    }
  }

  lemma SplitAround<T>(s: seq<T>, i: nat)
    requires i < |s|
    ensures s[..i] + [s[i]] + s[i + 1..] == s
  {
  }

  /** The converse of FailoverAllRecoverable: an iteration that ended
      without a session and without a raise saw only recoverable connect
      failures. */
  lemma {:induction false} FailoverSkipsOnlyRecoverable(st: BuilderState, cands: seq<Candidate>)
    requires !st.strict && Coherent(st) && st.sess.None?
    requires Failover(st, cands).result == Return(false)
    ensures forall i :: 0 <= i < |cands| ==> FailsRecoverably(cands[i])
    decreases |cands|
  {
    if cands != [] {
      VisitSkipsExactly(st, cands[0]);
      VisitOutcome(st, cands[0]);
      var v := Visit(st, cands[0]);
      assert v.result == Return(false);
      FailoverSkipsOnlyRecoverable(v.state, cands[1..]);
      forall i | 0 <= i < |cands|
        ensures FailsRecoverably(cands[i])
      {
        if i > 0 {
          assert cands[i] == cands[1..][i - 1];
        }
      }
    }
  }

  /** A raised error ends the iteration unchanged, whatever follows. */
  lemma FailoverRaisesAt(st: BuilderState, cands: seq<Candidate>, i: nat)
    requires !st.strict && i < |cands|
    requires forall j :: 0 <= j < i ==> FailsRecoverably(cands[j])
    requires Visit(Failover(st, cands[..i]).state, cands[i]).result.Throw?
    ensures Failover(st, cands).result == Visit(Failover(st, cands[..i]).state, cands[i]).result
  {
    var p, c, q := cands[..i], cands[i], cands[i + 1..];
    assert forall j :: 0 <= j < |p| ==> FailsRecoverably(p[j]);
    FailoverAllRecoverable(st, p);
    PrefixThenVisit(st, p, c);
    FailoverIgnoresRest(st, p + [c], q);
    SplitAround(cands, i);
  }

  /** A list that runs through p without stopping continues with c. */
  lemma {:induction false} PrefixThenVisit(st: BuilderState, p: seq<Candidate>, c: Candidate)
    requires !Stops(Failover(st, p).result)
    ensures Failover(st, p + [c]) == Visit(Failover(st, p).state, c)
    decreases |p|
  {
    if p == [] {
      assert [] + [c] == [c];
      assert [c][1..] == [];
    } else {
      assert (p + [c])[0] == p[0];
      assert (p + [c])[1..] == p[1..] + [c];
      PrefixThenVisit(Visit(st, p[0]).state, p[1..], c);
    }
  }

  /** Failover from a builder without a session: true exactly when a session
      was built, over the connection held. */
  lemma {:induction false} FailoverOutcome(st: BuilderState, cands: seq<Candidate>)
    requires Coherent(st) && st.sess.None?
    ensures var s := Failover(st, cands);
      && Coherent(s.state)
      && (s.result == Return(true) <==> s.state.sess.Some?)
    decreases |cands|
  {
    if cands != [] {
      VisitOutcome(st, cands[0]);
      var v := Visit(st, cands[0]);
      if !Stops(v.result) {
        FailoverOutcome(v.state, cands[1..]);
      }
    }
  }

  /** In a non-strict builder, every attempt that did not end the iteration
      left an error behind: after an iteration that asked for more, an
      attempt count above zero comes with a retained error. */
  lemma {:induction false} FailoverKeepsAnError(st: BuilderState, cands: seq<Candidate>)
    requires !st.strict
    requires st.attempts > 0 ==> st.lastError.Some?
    requires Failover(st, cands).result == Return(false)
    ensures Failover(st, cands).state.attempts > 0 ==> Failover(st, cands).state.lastError.Some?
    decreases |cands|
  {
    if cands != [] {
      var v := Visit(st, cands[0]);
      assert !Stops(v.result);
      assert v.state.attempts > 0 ==> v.state.lastError.Some?;
      FailoverKeepsAnError(v.state, cands[1..]);
    }
  }
}
