# Session establishment with failover and TLS negotiation

This project models the core of the connector's session layer in
`cdk/core/session.cc`. A `Session_builder` is applied as a visitor to one
data source, or to each entry of an ordered data-source list in turn. For
each source it:

- connects a transport;
- raises every connect failure when it builds a session from a single data
  source. When it walks a list, it raises a connect failure with a bail-out
  code, and remembers any other failure before moving on to the next source;
- for TCP/IP sources, validates the (ssl-mode, ssl-ca) pair and negotiates
  TLS through one capability request and its reply;
- builds the protocol session over the resulting connection.

A `Session` takes over what the builder built. It raises the right error when
nothing was built, and tears down in a fixed order.

Modules, leaves first:

- `Errors`: error codes and values. `Outcome<T>` stands for "returns a `T` or
  throws". `IsFatal` is the set of bail-out codes (`auth_failure`,
  `protobuf_error`, `tls_error`).
- `TlsPolicy`: the ssl-mode order, the option check, the decline signature
  (5001 / 2 / `"HY000"`) and the reply processor.
- `Endpoints`: data sources (TCPIP, Unix socket, TCPIP_old) with their options,
  plain transports, and the plain or TLS connection. `Server` describes what
  the network and server behind one source do: the connect outcome, the
  capability reply, the handshake outcome and the session-construction
  outcome. `IoEvent` is the log of calls made into the layers below.
- `BuilderSpec`: the builder's fields as a value (`BuilderState`). It gives
  one step function per operation (`ConnectStep`, `TlsNegotiation`, the three
  visits) and `Failover`, which visits a list in order and stops at the first
  `true` or raised error. The lemmas about the failover live here.
- `Builder`: the class `SessionBuilder`. Each method changes the fields as
  the source does and is proved to take exactly the step of its
  specification function. `VisitEach` is the list visit, a loop proved equal
  to `Failover`.
- `Sessions`: the `Session` class, its three constructors (as methods
  returning an `Outcome<Session>`), the choice of the final error, and
  teardown (`Destroy`, with the calls it makes recorded in order).

Three behaviours of the code are easy to miss. The model follows the code
in each:

- The TCPIP_old visitor raises without counting an attempt. Not every
  visit counts one.
- With no session built, exactly one attempt and no retained error, the code
  raises "Could not connect to the given data source". With zero or several
  attempts it raises "Could not connect ot any of the given data sources"
  (spelling as in the code). `MultiSourceOneAttemptRethrows` proves the first
  message is never reached from the list constructor.
- DISABLED with no CA skips negotiation. The session is then built over the
  plain connection, but building that session can still raise.

## Model

| member | source | states |
|---|---|---|
| `TlsPolicy.CheckOptions` | cdk/core/session.cc:198-206 | The options pass exactly when a CA is given if and only if the mode is VERIFY_CA or above; each of the two refusals is a generic error with its own message |
| `TlsPolicy.ProcessReply` | cdk/core/session.cc:227-256 | TLS goes ahead exactly on an acknowledgement; fallback to plain happens exactly on the 5001/2/"HY000" reply under PREFERRED; any other error reply is raised with the reply's code and message |
| `TlsPolicy.DeclineOnlyUnderPreferred` | cdk/core/session.cc:237-251 | The decline signature means "fall back" under PREFERRED and is raised as server error 5001 under every other mode |
| `BuilderSpec.ConnectStep` | cdk/core/session.cc:85-121 | A connect attempt adds exactly one to the attempt count whatever happens, leaves session, connection and database alone, and returns only the transport it was given |
| `BuilderSpec.ConnectClassifies` | cdk/core/session.cc:107-118 | A failure is raised (unchanged) exactly when the builder is strict or the code is a bail-out code; otherwise the result is "no connection" and that error replaces the retained one; success keeps the retained error |
| `BuilderSpec.TlsNegotiation` | cdk/core/session.cc:195-266 | Negotiation changes only the I/O log. Plain is kept exactly when the options are valid and the mode is DISABLED or a decline came under PREFERRED. A TLS connection over the given transport results exactly when the options are valid, the mode is not DISABLED, the reply is an acknowledgement and the handshake succeeds. Any other error reply is raised with its code and message |
| `BuilderSpec.InvalidOptionsRaiseFirst` | cdk/core/session.cc:198-209 | An invalid (mode, ca) pair raises its check's error with the state untouched: nothing is sent, whatever the server would answer |
| `BuilderSpec.DisabledSkipsNegotiation` | cdk/core/session.cc:208-209 | DISABLED with no CA returns "no TLS" with no exchange at all |
| `BuilderSpec.VerifyWithoutCaRaises` | cdk/core/session.cc:203-206 | VERIFY_CA or VERIFY_IDENTITY without a CA raises "Missing ssl-ca option to verify CA" before any exchange |
| `BuilderSpec.HandshakeFailurePropagates` | cdk/core/session.cc:258-265 | After an acknowledged request, a failed TLS handshake is raised unchanged |
| `BuilderSpec.NewSessionStep` | cdk/core/session.cc:142-153 | The connection is recorded first. It returns true exactly when building the session succeeds, and then the session over that connection and the given database are recorded. On a raise, session and database stay as they were. It never returns "try the next source" |
| `BuilderSpec.TcpipVisitSuccess` | cdk/core/session.cc:139-153 | A TCPIP visit that returns true holds a session over a connection to that host and records the source's database. The connection is TLS exactly when the mode is not DISABLED and the server acknowledged; plain only under DISABLED or after a decline under PREFERRED |
| `BuilderSpec.UnixSocketVisitSuccess` | cdk/core/session.cc:166-176 | A Unix-socket visit that returns true holds the plain socket connection, the session over it and the source's database |
| `BuilderSpec.TcpipOldVisit` | cdk/core/session.cc:182-190 | The legacy visitor raises generic_error "Not supported" and changes nothing, the attempt count included |
| `BuilderSpec.VisitCountsAttempt` | cdk/core/session.cc:88 | Every TCPIP or Unix-socket visit adds exactly one attempt; a TCPIP_old visit adds none |
| `BuilderSpec.VisitOutcome` | cdk/core/session.cc:55-67 | A visit returns true exactly when a session was built, and that session runs over the connection held. It returns false exactly on a connect failure with a code that is not a bail-out code in a non-strict builder, and then changes only the count, the retained error and the log |
| `BuilderSpec.VisitSkipsExactly` | cdk/core/session.cc:109-118 | "Try the next source" comes back exactly on a connect failure with a code that is not a bail-out code in a non-strict builder; every other failure is raised |
| `BuilderSpec.StrictVisitNeverSkips` | cdk/core/session.cc:276-282 | With a strict builder a visit never returns false, so the constructor's assertion that a session exists holds after a normal return |
| `BuilderSpec.FatalConnectRaises` | cdk/core/session.cc:109-113 | A bail-out code from connect is raised after one attempt, strict or not |
| `BuilderSpec.FailoverAttemptsBound` | cdk/core/session.cc:88 | Over a list, the attempt count grows by at most the number of sources |
| `BuilderSpec.FailoverIgnoresRest` | cdk/core/session.cc:35-36 | Once a source returns true or raises, sources after it are not visited: appending sources changes neither result nor state |
| `BuilderSpec.FailoverAllRecoverable` | cdk/core/session.cc:107-118 | When every source fails recoverably, all are tried, the iteration asks for more, the count grows by the list's length and only the last error is kept |
| `BuilderSpec.FailoverSkipsOnlyRecoverable` | cdk/core/session.cc:62-67 | A non-strict list visit that ends without a session and without a raise saw only connect failures with codes that are not bail-out codes, at every position |
| `BuilderSpec.FailoverRaisesAt` | cdk/core/session.cc:62-67 | A source that raises after recoverable failures ends the iteration with its error |
| `BuilderSpec.FailoverOutcome` | cdk/core/session.cc:56-60 | After the list visit, true comes back exactly when a session was built, over the connection the builder holds |
| `BuilderSpec.FailoverKeepsAnError` | cdk/core/session.cc:115-118 | In a non-strict builder, an iteration that ended asking for more with attempts made always retains an error |
| `Builder.SessionBuilder.constructor` | cdk/core/session.cc:44-53 | A new builder has no connection, session, database or error, and zero attempts |
| `Builder.SessionBuilder.Connect` | cdk/core/session.cc:85-121 | Changes the builder exactly as ConnectStep says |
| `Builder.SessionBuilder.TlsConnect` | cdk/core/session.cc:195-266 | The option checks, the DISABLED shortcut, the reply processor's tls and fallback flags and the handshake, proved equal to TlsNegotiation |
| `Builder.SessionBuilder.OpenSession` | cdk/core/session.cc:142-153 | Sets the connection, then the session and database only if building the session succeeded |
| `Builder.SessionBuilder.VisitTcpip` | cdk/core/session.cc:124-154 | The TCPIP visitor, proved equal to TcpipVisit, whose success state TcpipVisitSuccess gives |
| `Builder.SessionBuilder.VisitUnixSocket` | cdk/core/session.cc:157-177 | The Unix-socket visitor, proved equal to UnixSocketVisit, whose success state UnixSocketVisitSuccess gives |
| `Builder.SessionBuilder.VisitTcpipOld` | cdk/core/session.cc:182-190 | Always raises "Not supported" and changes nothing |
| `Builder.VisitEach` | cdk/core/session.cc:287-302 | The list visit applies the visitor in order until true or a raise, proved equal to Failover |
| `Sessions.MultiSourceResult` | cdk/core/session.cc:304-318 | The constructor returns exactly when a session was built, taking session, connection and database from the builder, and the session runs over that connection |
| `Sessions.MultiSourceEmpty` | cdk/core/session.cc:309-313 | An empty list raises "Could not connect ot any of the given data sources" |
| `Sessions.MultiSourceOneRecoverable` | cdk/core/session.cc:306-307 | One source failing recoverably: its own error is raised unchanged |
| `Sessions.MultiSourceAllRecoverable` | cdk/core/session.cc:308-313 | Two or more sources all failing recoverably: the generic error, never a per-source one |
| `Sessions.MultiSourceOneAttemptRethrows` | cdk/core/session.cc:306-312 | After exactly one attempt with no session an error is always retained and raised, so the "given data source" message is never produced |
| `Sessions.MultiSourceRaisesAt` | cdk/core/session.cc:302 | A raise from the visit of a source after recoverable failures is the constructor's error |
| `Sessions.MultiSourceFatalConnect` | cdk/core/session.cc:109-113 | A bail-out code at source i is raised after exactly i + 1 attempts |
| `Sessions.MultiSourceLegacyRaises` | cdk/core/session.cc:188 | A TCPIP_old source reached in a list raises "Not supported" and is never skipped |
| `Sessions.MultiSourceInvalidTlsRaises` | cdk/core/session.cc:139 | An invalid TLS option pair on a reachable first host escapes the non-strict failover |
| `Sessions.MultiSourceHandshakeFailureRaises` | cdk/core/session.cc:262-263 | A failed TLS handshake on the first host is raised and later hosts are not tried |
| `Sessions.SingleSourceConnectFailure` | cdk/core/session.cc:276-278 | The single-source constructors raise any connect failure unchanged, whatever its code |
| `Sessions.SingleSourceDeclinedTls` | cdk/core/session.cc:145-150 | The decline signature under PREFERRED gives a session over the plain TCP connection |
| `Sessions.SingleSourceRequiredRefusesDecline` | cdk/core/session.cc:244-246 | The same reply under REQUIRED raises server error 5001 with the reply's message |
| `Sessions.SingleSourceTls` | cdk/core/session.cc:139-144 | An acknowledged request and a good handshake give a session over the TLS connection |
| `Sessions.TeardownCalls` | cdk/core/session.cc:340-346 | Teardown rolls back only with an open transaction, and then first; the session is deleted next and the connection last |
| `Sessions.TeardownRollsBackOnce` | cdk/core/session.cc:342-343 | Rollback is called exactly once with an open transaction and never without |
| `Sessions.Session.constructor` | cdk/core/session.cc:271-274 | A new session owns the given parts, with no open transaction |
| `Sessions.Session.Destroy` | cdk/core/session.cc:340-346 | The destructor makes exactly the calls of TeardownCalls, in that order |
| `Sessions.OpenTcpip` | cdk/core/session.cc:271-284 | Strict builder over one TCP/IP source: raises what the visit raises, otherwise owns its session and connection, without the database |
| `Sessions.OpenUnixSocket` | cdk/core/session.cc:322-336 | Strict builder over one Unix socket, same contract |
| `Sessions.OpenMultiSource` | cdk/core/session.cc:295-319 | Non-strict builder over the list: the result MultiSource describes |

## Left out

- Transports, sockets and the TLS layer are not modelled. Their outcomes are
  inputs: `Server.connect`, `Server.handshake`.
- The wire encoding is not modelled: the `Protocol` object, the `{ "tls": true }`
  capability document and the reply parsing. Sending and receiving appear only
  as log events, and both are taken to succeed. Only the reply's code,
  severity, state and message are modelled.
- `mysqlx::Session` construction is the input `Server.login`. Its failure
  propagates. How it authenticates, and `rollback()` itself, are external;
  a rollback is a recorded call.
- `rethrow_error()` and `Error::clone` are not modelled. Errors are plain
  values, and any exception is taken to arrive as a connector error.
- `throw_error(msg)` is not part of this model. It is taken to raise a
  generic_error carrying `msg`.
- Ownership by `new`/`delete` is not tracked. The log records only the
  deletion of a transport whose connect failed. When `tls_connect` or the
  session construction raises, the source does not delete the connection
  it allocated. The model raises on these paths and, like the source,
  records no deletion there.
- The storage and visit mechanics of `ds::Multi_source` are not modelled. The
  list is a sequence of candidates, visited by its stop-on-true,
  propagate-on-raise contract.
- Only the non-Windows, `WITH_SSL` configuration is modelled.
- Opening and closing transactions (what sets `m_trans`) is outside this
  core. `Session.trans` is a plain field.
- The single-source constructors never assign `m_database`; the model
  gives `None` there.
- Port numbers are unbounded naturals, not 16-bit values.
- A C++ constructor that throws is modelled as a method that returns
  `Throw`. No half-built object is ever returned.
