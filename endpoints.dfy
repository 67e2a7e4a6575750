/** Data sources, their options, the transports and connections built over
    them, and the abstract behaviour of the server behind each endpoint. */
module Endpoints {
  import opened Errors
  import opened TlsPolicy

  datatype TcpipOptions = TcpipOptions(database: Option<string>, tls: TlsOptions)
  datatype SocketOptions = SocketOptions(database: Option<string>)

  /** One entry of a data-source list: a TCP/IP host, a Unix socket, or a
      legacy TCP/IP endpoint that this core does not support. */
  datatype DataSource =
    | Tcpip(host: string, port: nat, tcpOptions: TcpipOptions)
    | UnixSocket(path: string, socketOptions: SocketOptions)
    | TcpipOld(host: string, port: nat)

  /** A plain transport object, before or after connect(). */
  datatype Transport = TcpTransport(host: string, port: nat) | UnixTransport(path: string)

  /** The connection a session runs over: the plain transport, or a TLS layer
      wrapped around it. */
  datatype Connection = Plain(transport: Transport) | Tls(transport: Transport)

  /** The protocol session object bound to a connection. */
  datatype XSession = XSession(connection: Connection)

  /** Result of one blocking call into a collaborator that is not modelled. */
  datatype IoResult = Done | Failed(error: Error)

  /** How the server and the network behind one endpoint answer: the socket
      connect, the reply to the TLS capability request, the TLS handshake and
      the construction of the protocol session over the final connection. */
  datatype Server = Server(connect: IoResult, reply: Reply, handshake: IoResult, login: IoResult)

  /** A data source together with the behaviour of what is behind it. */
  datatype Candidate = Candidate(source: DataSource, server: Server)

  /** Calls into the transport and protocol layers, in the order made. */
  datatype IoEvent =
    | ConnectCall(t: Transport)
    | Discard(t: Transport)
    | SendTlsCapability
    | ReceiveReply
    | Handshake(t: Transport)
    | NewSession(c: Connection)
}
