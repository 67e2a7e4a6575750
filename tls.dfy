/** The TLS negotiation policy: validation of the (ssl-mode, ssl-ca) pair and
    the handling of the server's single reply to the capability request. */
module TlsPolicy {
  import opened Errors

  /** ssl-mode, in its declared order. */
  datatype SslMode = Disabled | Preferred | Required | VerifyCa | VerifyIdentity

  function Level(m: SslMode): nat
  {
    match m
    case Disabled => 0
    case Preferred => 1
    case Required => 2
    case VerifyCa => 3
    case VerifyIdentity => 4
  }

  /** Modes at or above VERIFY_CA: they need a CA to verify against. */
  predicate VerifiesCa(m: SslMode)
  {
    Level(m) >= Level(VerifyCa)
  }

  /** TLS options of a TCP/IP data source; an empty ca means "no ssl-ca". */
  datatype TlsOptions = TlsOptions(mode: SslMode, ca: string)

  const CaWithoutVerify := "ssl-ca set and ssl-mode different than VERIFY_CA or VERIFY_IDENTITY"
  const MissingCa := "Missing ssl-ca option to verify CA"

  /** The two option checks made before anything is sent to the server.
      The pair is valid exactly when a CA is given if and only if the mode
      verifies it. */
  function CheckOptions(o: TlsOptions): (r: Option<Error>)
    ensures r.None? <==> (o.ca != "" <==> VerifiesCa(o.mode))
    ensures r.Some? ==> r.value.code == GenericError
    ensures r.Some? && o.ca != "" ==> r.value.msg == CaWithoutVerify
    ensures r.Some? && o.ca == "" ==> r.value.msg == MissingCa
  {
    if o.ca != "" && Level(o.mode) < Level(VerifyCa) then
      Some(Error(GenericError, CaWithoutVerify))
    else if Level(o.mode) >= Level(VerifyCa) && o.ca == "" then
      Some(Error(GenericError, MissingCa))
    else
      None
  }

  /** The server's reply to CapabilitiesSet{ "tls": true }. */
  datatype Reply =
    | Ack
    | ReplyError(code: nat, severity: int, state: string, msg: string)

  const DeclineCode := 5001
  const DeclineSeverity := 2
  const DeclineState := "HY000"

  /** The one error reply by which a server says it does not offer TLS. */
  predicate IsDeclineSignature(code: nat, severity: int, state: string)
  {
    code == DeclineCode && severity == DeclineSeverity && state == DeclineState
  }

  /** The reply processor: returns whether the connection goes on to TLS
      (false means fall back to the plain connection), or raises the reply's
      error. The decline is honoured under PREFERRED only. */
  function ProcessReply(reply: Reply, mode: SslMode): (r: Outcome<bool>)
    ensures r == Return(true) <==> reply.Ack?
    ensures r == Return(false) <==>
              reply.ReplyError? && IsDeclineSignature(reply.code, reply.severity, reply.state)
              && mode == Preferred
    ensures r.Throw? ==> reply.ReplyError? && r.error == Error(ServerError(reply.code), reply.msg)
  {
    match reply
    case Ack => Return(true)
    case ReplyError(code, severity, state, msg) =>
      if IsDeclineSignature(code, severity, state) && mode == Preferred then Return(false)
      else Throw(Error(ServerError(code), msg))
  }

  /** The decline signature is refused under every mode but PREFERRED, with
      the reply's own code and message. */
  lemma DeclineOnlyUnderPreferred(mode: SslMode, msg: string)
    ensures ProcessReply(ReplyError(DeclineCode, DeclineSeverity, DeclineState, msg), mode)
            == if mode == Preferred then Return(false)
               else Throw(Error(ServerError(DeclineCode), msg))
  {
  }
}
