/**
 * The server side of the TLS layer: after the accept handshake, the peer's identity is
 * read from its leaf certificate and the negotiated protocol from the session. Certificate
 * parsing and the handshake itself are inputs: a certificate is given as what the parser
 * makes of it, and the acceptor as a function.
 */
module TlsServer {
  import opened Wrappers
  import TlsProtocol

  type Byte = TlsProtocol.Byte

  /** A subject-alternative-name entry of DNS type (`webpki::GeneralDNSNameRef`). */
  datatype GeneralDnsName = DnsName(name: string) | Wildcard(pattern: string)

  datatype CertError = BadDer | UnsupportedExtension

  /** A leaf certificate as parsed: its DNS names, or the error listing them produced. */
  datatype EndEntityCert = EndEntityCert(dnsNames: Result<seq<GeneralDnsName>, CertError>)

  /** A DER certificate of the chain, and what `EndEntityCert::from` makes of it. */
  datatype Certificate = Certificate(der: seq<Byte>, parsed: Result<EndEntityCert, CertError>)

  /** The rustls server session state the identity and ALPN are read from. */
  datatype Session = Session(peerCertificates: Option<seq<Certificate>>, alpnProtocol: Option<seq<Byte>>)

  /** `tokio_rustls::server::TlsStream<I>`: the wrapped stream and its session. */
  datatype TlsStream<I> = TlsStream(io: I, session: Session)

  /** The client identity: a DNS name. */
  datatype ClientId = ClientId(name: string)

  /** `ServerTls::Established`: the result of terminating TLS. */
  datatype ServerTls = Established(clientId: Option<ClientId>, negotiatedProtocol: Option<TlsProtocol.NegotiatedProtocol>)

  /** The first subject-alternative DNS name of the first peer certificate, if everything on the way exists. */
  function FirstDnsName(session: Session): (r: Option<GeneralDnsName>)
    ensures r.Some? <==>
      && session.peerCertificates.Some?
      && |session.peerCertificates.value| > 0
      && session.peerCertificates.value[0].parsed.Success?
      && session.peerCertificates.value[0].parsed.value.dnsNames.Success?
      && |session.peerCertificates.value[0].parsed.value.dnsNames.value| > 0
    ensures r.Some? ==> r.value == session.peerCertificates.value[0].parsed.value.dnsNames.value[0]
  {
    var certs :- session.peerCertificates;
    if |certs| == 0 then None
    else match certs[0].parsed
      case Failure(_) => None
      case Success(endCert) =>
        match endCert.dnsNames
        case Failure(_) => None
        case Success(names) => if |names| == 0 then None else Some(names[0])
  }

  /**
   * `client_identity`: the peer identity is the first DNS name of the leaf certificate; a
   * wildcard there, or anything missing on the way, gives no identity rather than an error.
   */
  function ClientIdentity(session: Session): (r: Option<ClientId>)
    ensures r.Some? <==> FirstDnsName(session).Some? && FirstDnsName(session).value.DnsName?
    ensures r.Some? ==> r.value == ClientId(FirstDnsName(session).value.name)
  {
    match FirstDnsName(session)
    case None => None
    case Some(DnsName(n)) => Some(ClientId(n))
    case Some(Wildcard(_)) => None
  }

  /** Only the first certificate of the chain can supply the identity. */
  lemma IdentityIgnoresLaterCertificates(c: Certificate, rest1: seq<Certificate>, rest2: seq<Certificate>, alpn1: Option<seq<Byte>>, alpn2: Option<seq<Byte>>)
    ensures ClientIdentity(Session(Some([c] + rest1), alpn1)) == ClientIdentity(Session(Some([c] + rest2), alpn2))
  {
  }

  /** Only the first DNS name counts: a leading wildcard gives no identity, whatever names follow. */
  lemma WildcardFirstGivesNoIdentity(session: Session, pattern: string, names: seq<GeneralDnsName>)
    requires session.peerCertificates.Some? && |session.peerCertificates.value| > 0
    requires session.peerCertificates.value[0].parsed.Success?
    requires session.peerCertificates.value[0].parsed.value.dnsNames == Success([Wildcard(pattern)] + names)
    ensures ClientIdentity(session) == None
  {
  }

  /** A leading DNS name is the identity, whatever follows it. */
  lemma DnsNameFirstIsIdentity(session: Session, name: string, names: seq<GeneralDnsName>)
    requires session.peerCertificates.Some? && |session.peerCertificates.value| > 0
    requires session.peerCertificates.value[0].parsed.Success?
    requires session.peerCertificates.value[0].parsed.value.dnsNames == Success([DnsName(name)] + names)
    ensures ClientIdentity(session) == Some(ClientId(name))
  {
  }

  /**
   * `handshake`: accepts TLS on `io` with the acceptor; on success the result is always
   * `Established`, carrying the identity and a copy of the session's ALPN bytes.
   */
  function Handshake<C, I, E>(config: C, io: I, accept: (C, I) -> Result<TlsStream<I>, E>): (r: Result<(ServerTls, TlsStream<I>), E>)
    ensures r.Failure? <==> accept(config, io).Failure?
    ensures r.Failure? ==> r.error == accept(config, io).error
    ensures r.Success? ==>
      var stream := accept(config, io).value;
      && r.value.1 == stream
      && r.value.0.clientId == ClientIdentity(stream.session)
      && (r.value.0.negotiatedProtocol.Some? <==> stream.session.alpnProtocol.Some?)
      && (r.value.0.negotiatedProtocol.Some? ==> r.value.0.negotiatedProtocol.value.bytes == stream.session.alpnProtocol.value)
  {
    match accept(config, io)
    case Failure(e) => Failure(e)
    case Success(stream) =>
      var clientId := ClientIdentity(stream.session);
      var negotiated :=
        match stream.session.alpnProtocol
        case None => None
        case Some(b) => Some(TlsProtocol.NegotiatedProtocol(b));
      Success((Established(clientId, negotiated), stream))
  }

  /** `TerminateTls`: a service holding the shared server configuration. */
  datatype TerminateTls<C> = TerminateTls(config: C)

  /** `TerminateTls::poll_ready`: always ready. */
  function PollReady<C, E>(t: TerminateTls<C>): (r: Poll<Result<(), E>>)
    ensures r.Ready? && r.value.Success?
  {
    Ready(Success(()))
  }

  /** `TerminateTls::call`: runs the handshake with the service's configuration. */
  function Call<C, I, E>(t: TerminateTls<C>, io: I, accept: (C, I) -> Result<TlsStream<I>, E>): (r: Result<(ServerTls, TlsStream<I>), E>)
    ensures r == Handshake(t.config, io, accept)
  {
    Handshake(t.config, io, accept)
  }
}
