/**
 * The client side of the TLS layer: whether a connection to a target is upgraded to
 * TLS or left in plaintext, the reasons TLS is not used, and target server identities.
 */
module TlsClient {
  import W = Wrappers
  import TlsProtocol

  type Byte = TlsProtocol.Byte

  /**
   * A DNS name (`linkerd_dns_name::Name`). Its validation and normalisation live outside
   * this model; it is shown by `Display` as its text.
   */
  datatype Name = Name(text: string)

  datatype InvalidName = InvalidName

  /** `ServerId(pub Name)`: the identity of the target server. */
  datatype ServerId = ServerId(name: Name)

  /** `AlpnProtocols(pub Vec<Vec<u8>>)`: the protocols offered in the handshake. */
  datatype AlpnProtocols = AlpnProtocols(protocols: seq<seq<Byte>>)

  /** `ClientTls`: how to establish TLS with one target. */
  datatype ClientTls = ClientTls(serverId: ServerId, alpn: W.Option<AlpnProtocols>)

  /** Why a connection is not upgraded to TLS. */
  datatype NoClientTls =
    | Disabled                       // identity is administratively disabled
    | Loopback                       // loopback connections do not use TLS
    | NotProvidedByServiceDiscovery  // discovery gave no identity for the endpoint
    | IngressWithoutOverride         // no discovery was attempted

  /** `Conditional<C, R>`: a value, or the reason there is none. */
  datatype Conditional<C, R> = Some(value: C) | None(reason: R)

  type ConditionalClientTls = Conditional<ClientTls, NoClientTls>

  /** `io::EitherIo`: the plaintext stream or the TLS stream. */
  datatype EitherIo<L, R> = Left(plain: L) | Right(tls: R)

  // === ServerId ===

  /** `Display for Name`: its text. */
  function NameDisplay(n: Name): string
  {
    n.text
  }

  /** `From<Name> for ServerId`. */
  function ServerIdFromName(n: Name): (id: ServerId)
    ensures id.name == n
  {
    ServerId(n)
  }

  /** `From<ServerId> for Name`. */
  function NameFromServerId(id: ServerId): (n: Name)
    ensures ServerIdFromName(n) == id
  {
    id.name
  }

  /** `AsRef<Name> for ServerId`. */
  function ServerIdAsRef(id: ServerId): (n: Name)
    ensures n == NameFromServerId(id)
  {
    id.name
  }

  /** The two `From` conversions are inverse to each other. */
  lemma ServerIdNameRoundTrip(n: Name, id: ServerId)
    ensures NameFromServerId(ServerIdFromName(n)) == n
    ensures ServerIdFromName(NameFromServerId(id)) == id
  {
  }

  /**
   * `FromStr for ServerId`: parses the text as a `Name` (the name parser is a parameter,
   * since it is not part of this model) and wraps it.
   */
  function ServerIdFromStr(parseName: string -> W.Result<Name, InvalidName>, s: string): (r: W.Result<ServerId, InvalidName>)
    ensures r.Success? <==> parseName(s).Success?
    ensures r.Success? ==> r.value == ServerIdFromName(parseName(s).value)
    ensures r.Failure? ==> r.error == parseName(s).error
  {
    match parseName(s)
    case Success(n) => W.Success(ServerId(n))
    case Failure(e) => W.Failure(e)
  }

  /** `Display for ServerId`: shows the name it wraps. */
  function ServerIdDisplay(id: ServerId): (s: string)
    ensures s == NameDisplay(NameFromServerId(id))
  {
    NameDisplay(id.name)
  }

  /**
   * Whenever names read back from their own text, so do server ids: displaying an id and
   * parsing the text gives the same id.
   */
  lemma ServerIdDisplayFromStr(parseName: string -> W.Result<Name, InvalidName>, id: ServerId)
    requires parseName(NameDisplay(id.name)) == W.Success(id.name)
    ensures ServerIdFromStr(parseName, ServerIdDisplay(id)) == W.Success(id)
  {
  }

  // === NoClientTls ===

  /** `Display for NoClientTls`: the reason code used in logs and metrics. */
  function NoClientTlsDisplay(reason: NoClientTls): (s: string)
    ensures |s| > 0
  {
    match reason
    case Disabled => "disabled"
    case Loopback => "loopback"
    case NotProvidedByServiceDiscovery => "not_provided_by_service_discovery"
    case IngressWithoutOverride => "ingress_without_override"
  }

  /** Distinct reasons are displayed differently, so the code identifies the reason. */
  lemma NoClientTlsDisplayInjective(a: NoClientTls, b: NoClientTls)
    ensures NoClientTlsDisplay(a) == NoClientTlsDisplay(b) ==> a == b
  {
  }

  // === AlpnProtocols ===

  /** `Debug for AlpnProtocols`: one tuple field per protocol, each shown as `Debug` shows bytes. */
  method AlpnDebugFields(alpn: AlpnProtocols) returns (fields: seq<TlsProtocol.DebugView>)
    ensures |fields| == |alpn.protocols|
    ensures forall i :: 0 <= i < |fields| ==> fields[i] == TlsProtocol.DebugBytes(alpn.protocols[i])
  {
    fields := [];
    for i := 0 to |alpn.protocols|
      invariant |fields| == i
      invariant forall j :: 0 <= j < i ==> fields[j] == TlsProtocol.DebugBytes(alpn.protocols[j])
    {
      fields := fields + [TlsProtocol.DebugBytes(alpn.protocols[i])];
    }
  }

  // === Client ===

  /** `Client<L, C>`: the local TLS connector, if local identity is enabled, and the inner connector. */
  datatype Client<L, C> = Client(tls: W.Option<L>, inner: C)

  /**
   * The future `Client::call` returns: either the inner connect alone (`Either::Left`), or
   * the inner connect followed by a handshake with the given connector and parameters
   * (`Either::Right`). Both carry the one target the inner connector was called with.
   */
  datatype ConnectFuture<T, L> =
    | Plain(connect: T)
    | Handshake(connect: T, tls: L, clientTls: ClientTls)

  /** `Client::poll_ready`: the inner connector's readiness. */
  function PollReady<E>(innerReady: W.Poll<W.Result<(), E>>): (r: W.Poll<W.Result<(), E>>)
    ensures r == innerReady
  {
    innerReady
  }

  /** `Client::call`: calls the inner connector with the target, then decides whether to add TLS. */
  function Call<T, L, C>(client: Client<L, C>, target: T, clientTlsOf: T -> ConditionalClientTls): (f: ConnectFuture<T, L>)
    ensures f.connect == target
    ensures f.Handshake? <==> clientTlsOf(target).Some? && client.tls.Some?
    ensures f.Handshake? ==> f.tls == client.tls.value && f.clientTls == clientTlsOf(target).value
  {
    match clientTlsOf(target)
    case None(_) => Plain(target)
    case Some(clientTls) =>
      match client.tls
      case None => Plain(target)
      case Some(tls) => Handshake(target, tls, clientTls)
  }

  /**
   * Runs a connect future to completion, given what the inner connect and the handshake
   * produce. Errors of either step are returned unchanged.
   */
  function Await<T, L, I, J, E>(
    f: ConnectFuture<T, L>,
    connect: T -> W.Result<I, E>,
    handshake: (L, ClientTls, I) -> W.Result<(W.Option<TlsProtocol.NegotiatedProtocol>, J), E>
  ): (r: W.Result<(W.Option<TlsProtocol.NegotiatedProtocol>, EitherIo<I, J>), E>)
    ensures connect(f.connect).Failure? ==> r == W.Failure(connect(f.connect).error)
    ensures connect(f.connect).Success? && f.Plain? ==> r == W.Success((W.None, Left(connect(f.connect).value)))
    ensures connect(f.connect).Success? && f.Handshake? ==>
      var h := handshake(f.tls, f.clientTls, connect(f.connect).value);
      (h.Failure? ==> r == W.Failure(h.error)) && (h.Success? ==> r == W.Success((h.value.0, Right(h.value.1))))
  {
    match connect(f.connect)
    case Failure(e) => W.Failure(e)
    case Success(io) =>
      match f
      case Plain(_) => W.Success((W.None, Left(io)))
      case Handshake(_, tls, clientTls) =>
        match handshake(tls, clientTls, io)
        case Failure(e) => W.Failure(e)
        case Success((alpn, tlsIo)) => W.Success((alpn, Right(tlsIo)))
  }

  /**
   * End to end: once connected, the stream is the plaintext one, with no negotiated protocol,
   * exactly when the target asks for no TLS or local identity is disabled; otherwise it is
   * the handshake's stream with the handshake's protocol.
   */
  lemma CallPlaintextIff<T, L, C, I, J, E>(
    client: Client<L, C>, target: T, clientTlsOf: T -> ConditionalClientTls,
    connect: T -> W.Result<I, E>,
    handshake: (L, ClientTls, I) -> W.Result<(W.Option<TlsProtocol.NegotiatedProtocol>, J), E>
  )
    requires connect(target).Success?
    ensures var r := Await(Call(client, target, clientTlsOf), connect, handshake);
      (r.Success? && r.value.1.Left?) <==> (clientTlsOf(target).None? || client.tls.None?)
    ensures var r := Await(Call(client, target, clientTlsOf), connect, handshake);
      r.Success? && r.value.1.Left? ==> r.value == (W.None, Left(connect(target).value))
    ensures clientTlsOf(target).Some? && client.tls.Some? ==>
      var h := handshake(client.tls.value, clientTlsOf(target).value, connect(target).value);
      var r := Await(Call(client, target, clientTlsOf), connect, handshake);
      (h.Failure? ==> r == W.Failure(h.error)) && (h.Success? ==> r == W.Success((h.value.0, Right(h.value.1))))
  {
  }

  /** A failed connect fails the call with the same error, whatever the TLS decision. */
  lemma CallConnectError<T, L, C, I, J, E>(
    client: Client<L, C>, target: T, clientTlsOf: T -> ConditionalClientTls,
    connect: T -> W.Result<I, E>,
    handshake: (L, ClientTls, I) -> W.Result<(W.Option<TlsProtocol.NegotiatedProtocol>, J), E>
  )
    requires connect(target).Failure?
    ensures Await(Call(client, target, clientTlsOf), connect, handshake) == W.Failure(connect(target).error)
  {
  }
}
