# linkerd2-proxy decision logic, modelled in Dafny

This project models the decision rules of the linkerd2-proxy. These are the rules that
choose what happens to an accepted connection, to a TLS session, to a service-profile lookup
and to an HTTP connection. It also models the pure helpers of the Kubernetes end-to-end test
suite. Each Rust source file of the core is one Dafny module:

- `AcceptPorts`: inbound port policy dispatch. The original destination port selects
  `Detect`, `Opaque` or `Reject` from a table with a default, and that selects the opaque
  stack or a service that fails with "connection rejected by policy".
- `Discover`: profile-discovery injection. A target with a lookup address waits for the
  lookup (`MakeFuture`, a one-shot object that gives up its target once); a target without
  one is built at once with no profile.
- `ProfileClient`: the profile lookup client.
  - A lookup never fails: it yields `Some(Receiver)` holding the cache handle, or `None`.
  - The `GetDestination` request is built from the address text and the context token.
  - Response streams are converted with the lookup's port.
- `TlsClient`: the client side of TLS.
  - Plaintext or handshake: a handshake runs only when the target asks for TLS and local
    identity is enabled. Errors propagate unchanged.
  - The `NoClientTls` reason codes and their display strings.
  - The `ServerId` conversions.
- `TlsServer`: the server side of TLS. The peer identity comes from the first DNS name of
  the first certificate, and a wildcard yields no identity. The negotiated protocol is copied
  from the session.
- `TlsProtocol`: the owned and borrowed negotiated protocol, and how `Debug` shows it. It
  relies on `Utf8`, a model of `std::str::from_utf8` (RFC 3629), proved to be a two-way
  inverse of its encoder.
- `HttpServer`: the hyper server builder.
  - The builder is a class with in-place setters, configured with a 16 KiB buffer, the
    HTTP/2 window sizes, and a keep-alive interval of a quarter of the timeout.
  - The per-target service copies the configuration.
  - Each connection fails early if it has no peer address, and is otherwise served HTTP/1
    with upgrades or HTTP/2 only, on a copy of the configuration.
  - The shutdown outcome: the connection's own result is returned, or a graceful shutdown
    follows when the process drains or the stack closes.
- `Deploy`: image references, the injection annotations (`to_annotations`, a loop over the
  configuration proved equal to a specification map), and the names, labels, ports and
  probes of the test suite's Kubernetes objects.
- `CrdWatch`: the acceptance test on a custom resource definition, the scan of a watch
  stream for the first accepted definition (a loop proved equal to a recursive
  specification), and the not-accepted errors.
- `TestServer`: the admin and test HTTP handlers of the test suite, including the header
  filter of the request summary.

Helper modules: `Wrappers` (`Option`, `Result`, `Poll`), `Text` (decimal text and the
split at the last occurrence of a character) and `Utf8`.

Collaborators the code calls but does not define are parameters:
- the name parser;
- connectors, the TLS acceptor and the handshake;
- the profile cache, the gRPC call and the profile conversion;
- the inner stacks;
- the Kubernetes API (patch, create, watch).

A future being polled is modelled by the outcome it is given (`Pending`, or `Ready` with a
result). `Duration` is a natural number of nanoseconds, so `timeout / 4` is floor division.

Both files of `linkerd/tls/rustls` do not compile as written. `TerminateTls` uses an unbound
`T`, `call` has the wrong return type, and `ServerTls`, `ClientId`, `NegotiatedProtocol`, `id`
and `dns` are not imported. The model follows the evident intent: `poll_ready` is always
ready, `call` runs `handshake` with the stored configuration, and `handshake` and
`client_identity` behave as written.

## Model

| member | source | states |
|---|---|---|
| AcceptPorts.ConnErrorDisplay | linkerd/app/inbound/src/accept_ports.rs:23-25 | the rejection error displays as "connection rejected by policy" |
| AcceptPorts.CollectPortsLastWins | linkerd/app/inbound/src/accept_ports.rs:34 | the collected table maps exactly the ports that occur, each to the policy of its last occurrence |
| AcceptPorts.New | linkerd/app/inbound/src/accept_ports.rs:28-42 | the table is the collected pairs; default and both stacks are kept as given |
| AcceptPorts.PolicyFor | linkerd/app/inbound/src/accept_ports.rs:55 | a mapped port gets its table policy, an unmapped one the default |
| AcceptPorts.PolicyOfCollected | linkerd/app/inbound/src/accept_ports.rs:34-55 | a port's policy is that of its last pair, or the default when it occurs in no pair |
| AcceptPorts.NewService | linkerd/app/inbound/src/accept_ports.rs:52-65 | Opaque delegates to the opaque stack with the same target, Reject gives the rejecting service, Detect panics with the `todo!` message |
| AcceptPorts.Serve | linkerd/app/inbound/src/accept_ports.rs:59-63 | the rejecting service fails with `Rejected` without using the connection; a delegated service succeeds or fails as the inner one does |
| AcceptPorts.OnlyPortDecides | linkerd/app/inbound/src/accept_ports.rs:53-55 | targets whose original destinations share a port get the same kind of service, whatever their IPs |
| AcceptPorts.DetectStackUnused | linkerd/app/inbound/src/accept_ports.rs:56-59 | replacing the detect stack changes nothing `new_service` returns |
| AcceptPorts.RejectedConnectionsFail | linkerd/app/inbound/src/accept_ports.rs:60-63 | under Reject every connection fails with `Rejected`, displayed as the policy message |
| AcceptPorts.OpaqueAndRejectExample | linkerd/app/inbound/src/accept_ports.rs:52-65 | with 8080 opaque and default Reject, port 8080 reaches the opaque stack and 9999 is rejected |
| Discover.MakeFuture.constructor | linkerd/service-profiles/src/discover.rs:47-51 | the future holds the lookup, `Some(target)` and the inner stack |
| Discover.MakeFuture.Poll | linkerd/service-profiles/src/discover.rs:74-80 | pending waits and keeps the target; an error is returned and no service is built; success takes the target (`Some` to `None`) and builds the inner service from the result and the target |
| Discover.NewService | linkerd/service-profiles/src/discover.rs:43-55 | the deferred service exactly when a lookup address is extracted, started with that address; otherwise the inner service for `(None, target)` |
| Discover.Discover | linkerd/service-profiles/src/discover.rs:43-80 | end to end: `(None, target)` without an address, `(result, target)` after a successful lookup, the lookup's error otherwise |
| Discover.DiscoverWithClient | linkerd/service-profiles/src/discover.rs:43-80 | over the profile client: the inner service gets the receiver with the cache handle, or no profile when the watch failed; it never fails |
| ProfileClient.ParseAddrDisplay | linkerd/service-profiles/src/client.rs:235 | the address text `host:port` reads back to the address |
| ProfileClient.NewClient | linkerd/service-profiles/src/client.rs:70-81 | the client keeps the idle timeout, the buffer capacity and the context token |
| ProfileClient.NewWatchService | linkerd/service-profiles/src/client.rs:158-169 | the watch service is for the target address and buffers the configured capacity |
| ProfileClient.ClientPollReady | linkerd/service-profiles/src/client.rs:99-102 | the client is always ready |
| ProfileClient.Call | linkerd/service-profiles/src/client.rs:105-112 | the future wraps the cached service and holds `Some(handle)` |
| ProfileClient.ResponseFuture.constructor | linkerd/service-profiles/src/client.rs:108-111 | a new future holds its service and the handle |
| ProfileClient.ResponseFuture.Poll | linkerd/service-profiles/src/client.rs:120-132 | success gives `Some(Receiver(rx, handle))` and takes the handle; an error status gives `None` and keeps the handle; pending changes nothing |
| ProfileClient.LookupOnce | linkerd/service-profiles/src/client.rs:95-132 | a lookup never fails: `Some` exactly when the watch succeeded, holding that watch and the cache's handle |
| ProfileClient.CloneReceiverPollReady | linkerd/service-profiles/src/client.rs:179-182 | always ready |
| ProfileClient.CloneReceiverCall | linkerd/service-profiles/src/client.rs:184-187 | every call succeeds with a receiver on the same watch channel |
| ProfileClient.InnerPollReady | linkerd/service-profiles/src/client.rs:227-231 | always ready |
| ProfileClient.Request | linkerd/service-profiles/src/client.rs:234-238 | the request carries the context token and default scheme, and its path reads back to the lookup address |
| ProfileClient.RequestDeterministic | linkerd/service-profiles/src/client.rs:234-238 | two requests with the same token are equal exactly when they are for the same address |
| ProfileClient.ConvertStream | linkerd/service-profiles/src/client.rs:243-245 | item by item: each profile is converted with the lookup's port, each error passes through |
| ProfileClient.InnerCall | linkerd/service-profiles/src/client.rs:233-247 | fails exactly when the RPC fails, with its status; otherwise returns the converted stream |
| TlsClient.ServerIdFromName | linkerd/tls/src/client.rs:138-142 | the id wraps the name |
| TlsClient.NameFromServerId | linkerd/tls/src/client.rs:144-148 | converting back gives the id it came from |
| TlsClient.ServerIdAsRef | linkerd/tls/src/client.rs:150-154 | the borrowed name is the name the id converts to |
| TlsClient.ServerIdNameRoundTrip | linkerd/tls/src/client.rs:138-148 | the two `From` conversions are mutually inverse |
| TlsClient.ServerIdFromStr | linkerd/tls/src/client.rs:156-162 | succeeds exactly when the name parses, with that name; otherwise the parser's error |
| TlsClient.ServerIdDisplay | linkerd/tls/src/client.rs:164-168 | displays as the name it wraps |
| TlsClient.ServerIdDisplayFromStr | linkerd/tls/src/client.rs:156-168 | when names read back from their text, so do server ids |
| TlsClient.NoClientTlsDisplay | linkerd/tls/src/client.rs:172-185 | every reason has a non-empty code |
| TlsClient.NoClientTlsDisplayInjective | linkerd/tls/src/client.rs:172-185 | distinct reasons have distinct codes |
| TlsClient.AlpnDebugFields | linkerd/tls/src/client.rs:189-200 | one field per protocol, in order, each shown as text when it is UTF-8 and as bytes otherwise |
| TlsClient.PollReady | linkerd/tls/src/client.rs:98-101 | readiness is the inner connector's |
| TlsClient.Call | linkerd/tls/src/client.rs:103-133 | the inner connect is started with the target; a handshake exactly when the target asks for TLS and local identity is enabled, with those parameters |
| TlsClient.Await | linkerd/tls/src/client.rs:103-133 | a connect error or a handshake error is returned unchanged; plaintext gives `(None, Left(io))`, TLS gives `(alpn, Right(tls))` |
| TlsClient.CallPlaintextIff | linkerd/tls/src/client.rs:107-132 | once connected, the stream is plaintext with no protocol exactly when the target gives a reason or local identity is off; otherwise it is the handshake's result |
| TlsClient.CallConnectError | linkerd/tls/src/client.rs:124-126 | a failed connect fails the call with its error in every branch |
| TlsProtocol.AsRef | linkerd/tls/src/lib.rs:21-25 | the ref views the same bytes |
| TlsProtocol.ToOwned | linkerd/tls/src/lib.rs:33-37 | the owned copy has the same bytes |
| TlsProtocol.FromRef | linkerd/tls/src/lib.rs:39-43 | `From` equals `to_owned` |
| TlsProtocol.AsRefToOwned | linkerd/tls/src/lib.rs:21-43 | `as_ref` then `to_owned` (or `From`) gives the protocol back, and the converse |
| TlsProtocol.DebugBytes | linkerd/tls/src/lib.rs:48-55 | text exactly when the bytes are UTF-8, and the text encodes back to the bytes; otherwise the byte list itself |
| TlsProtocol.DebugRef | linkerd/tls/src/lib.rs:48-55 | the ref is shown by that selection on its bytes |
| TlsProtocol.Debug | linkerd/tls/src/lib.rs:27-31 | the owned protocol is shown as its ref is |
| TlsProtocol.DebugAgrees | linkerd/tls/src/lib.rs:27-55 | owned and borrowed forms agree under `Debug`, and `Debug` shows exactly the bytes |
| TlsProtocol.DebugOfAscii | linkerd/tls/src/lib.rs:48-55 | an ASCII protocol id is shown as text, one character per byte |
| TlsProtocol.DebugOfInvalid | linkerd/tls/src/lib.rs:48-55 | bytes starting with a continuation byte are shown as a byte list |
| Utf8.DecodeEncode | linkerd/tls/src/lib.rs:50 | decoding the encoding of any string gives the string |
| Utf8.EncodeDecode | linkerd/tls/src/lib.rs:50 | bytes that decode are the encoding of what they decode to |
| Utf8.DecodeAscii | linkerd/tls/src/lib.rs:50 | ASCII bytes decode to the same code points |
| TlsServer.FirstDnsName | linkerd/tls/rustls/src/server.rs:66-72 | present exactly when there are peer certificates, the first parses, and it has a DNS name; it is the first name of the first certificate |
| TlsServer.ClientIdentity | linkerd/tls/rustls/src/server.rs:63-81 | an identity exactly when that first name is a DNS name, and it is that name; missing parts give none, not an error |
| TlsServer.IdentityIgnoresLaterCertificates | linkerd/tls/rustls/src/server.rs:68 | certificates after the first do not affect the identity |
| TlsServer.WildcardFirstGivesNoIdentity | linkerd/tls/rustls/src/server.rs:72-79 | a leading wildcard gives no identity whatever names follow |
| TlsServer.DnsNameFirstIsIdentity | linkerd/tls/rustls/src/server.rs:72-75 | a leading DNS name is the identity whatever follows |
| TlsServer.Handshake | linkerd/tls/rustls/src/server.rs:38-61 | fails exactly when the accept fails, with its error; otherwise `Established` with the session's identity and a copy of its ALPN bytes, and the stream |
| TlsServer.PollReady | linkerd/tls/rustls/src/server.rs:26-29 | always ready |
| TlsServer.Call | linkerd/tls/rustls/src/server.rs:31-35 | runs the handshake with the stored configuration |
| HttpServer.Http.constructor | linkerd/proxy/http/src/server.rs:45 | a new builder has every setting at its default |
| HttpServer.Http.Clone | linkerd/proxy/http/src/server.rs:83 | a separate builder with the same settings |
| HttpServer.Http.SetMaxBufSize | linkerd/proxy/http/src/server.rs:47 | sets the buffer limit, nothing else |
| HttpServer.Http.SetH2StreamWindow | linkerd/proxy/http/src/server.rs:48 | a given size replaces the stream window, `None` keeps it; nothing else changes |
| HttpServer.Http.SetH2ConnectionWindow | linkerd/proxy/http/src/server.rs:49 | a given size replaces the connection window, `None` keeps it; nothing else changes |
| HttpServer.Http.SetKeepAliveTimeout | linkerd/proxy/http/src/server.rs:57 | sets the keep-alive timeout, nothing else |
| HttpServer.Http.SetKeepAliveInterval | linkerd/proxy/http/src/server.rs:58 | sets the keep-alive interval, nothing else |
| HttpServer.Http.SetHttp1Only | linkerd/proxy/http/src/server.rs:109 | restricts the mode to HTTP/1, nothing else |
| HttpServer.Http.SetHttp2Only | linkerd/proxy/http/src/server.rs:144 | restricts the mode to HTTP/2, nothing else |
| HttpServer.KeepAliveInterval | linkerd/proxy/http/src/server.rs:55 | the interval is the timeout divided by four, rounded down |
| HttpServer.KeepAliveIntervalBounds | linkerd/proxy/http/src/server.rs:52-58 | the interval never exceeds the timeout, is below it for a non-zero timeout, and is zero only for timeouts under 4 ns |
| HttpServer.New | linkerd/proxy/http/src/server.rs:44-66 | 16 KiB buffer and the settings' windows; with a timeout, that timeout and a quarter of it as interval; without one, neither; mode unrestricted |
| HttpServer.NewService | linkerd/proxy/http/src/server.rs:76-86 | the target's version, the inner service for the target, the drain, and a separate copy of the configuration |
| HttpServer.PollReady | linkerd/proxy/http/src/server.rs:179-181 | always ready |
| HttpServer.ServeHttp1 | linkerd/proxy/http/src/server.rs:97-111 | the server copy is restricted to HTTP/1 and the connection serves with upgrades |
| HttpServer.ServeH2 | linkerd/proxy/http/src/server.rs:133-145 | the server copy is restricted to HTTP/2 and the connection serves without upgrades |
| HttpServer.Call | linkerd/proxy/http/src/server.rs:183-201 | no peer address fails at once; otherwise HTTP/1 with upgrades or HTTP/2, per the version, for the client's address, on a copy (the service's own configuration is unchanged) |
| HttpServer.Connection.constructor | linkerd/proxy/http/src/server.rs:108-111 | a connection starts with its configuration and no shutdown requested |
| HttpServer.Connection.GracefulShutdown | linkerd/proxy/http/src/server.rs:120 | a graceful shutdown is requested |
| HttpServer.ServeConnection | linkerd/proxy/http/src/server.rs:113-130 | the connection finishing first returns its result with no shutdown; a drain or a close first requests a graceful shutdown and returns the connection's eventual result |
| HttpServer.ServeOne | linkerd/proxy/http/src/server.rs:183-201 | end to end: an address error fails without shutdown; otherwise graceful shutdown exactly when the connection did not finish first, and the result is the connection's |
| Deploy.ImageDisplay | k8s-tests/src/deploy.rs:43-52 | `repo:tag`, or `repo:latest` without a tag |
| Deploy.ImageDisplaySplits | k8s-tests/src/deploy.rs:43-52 | splitting the text at its last colon gives back the repository and the tag (or `latest`) |
| Deploy.DefaultLinkerdConfig | k8s-tests/src/deploy.rs:186-192 | the default is `Enabled` with no configuration |
| Deploy.InjectValue | k8s-tests/src/deploy.rs:198-207 | "enabled" for `Enabled`, "ingress" for `Ingress` |
| Deploy.ToAnnotations | k8s-tests/src/deploy.rs:195-219 | the map the loop builds, in any order of the configuration, is the specification map |
| Deploy.ConfigEntriesLookup | k8s-tests/src/deploy.rs:209-211 | every configuration entry `(k, v)` is under `config.linkerd.io/k` with value `v`, and no other prefixed key is there |
| Deploy.ConfigEntriesStep | k8s-tests/src/deploy.rs:209-211 | inserting one more entry adds exactly its prefixed key |
| Deploy.PrefixInjective | k8s-tests/src/deploy.rs:210 | distinct configuration keys give distinct annotation keys |
| Deploy.InjectKeyNotPrefixed | k8s-tests/src/deploy.rs:200-210 | no configuration entry can replace the inject annotation |
| Deploy.AnnotationKeys | k8s-tests/src/deploy.rs:195-219 | every key is `linkerd.io/inject` or starts with `config.linkerd.io/` |
| Deploy.AnnotationValues | k8s-tests/src/deploy.rs:195-219 | inject as configured; proxy image = repo, overriding config; proxy version = tag, else only from config; other entries kept |
| Deploy.AnnotationKeySet | k8s-tests/src/deploy.rs:195-219 | the keys are exactly inject, proxy image, proxy version when tagged, and the prefixed configuration keys |
| Deploy.PodAnnotations | k8s-tests/src/deploy.rs:78-80 | no annotations without a configuration, `to_annotations` with one |
| Deploy.TestNamespace | k8s-tests/src/deploy.rs:63-71 | the namespace is named `linkerd-k8s-test-<id>`, nothing else set |
| Deploy.Runner | k8s-tests/src/deploy.rs:73-110 | job `runner-<name>` in the test namespace, labelled `runner=<name>` on job and pod, pod annotations as configured, one `main` container of the test image with argument `runner` |
| Deploy.Server | k8s-tests/src/deploy.rs:112-181 | deployment `server-<name>`, labelled and selected by `server=<name>`, one `main` container with argument `server`, ports admin-http 9080 and test-http 8080, probes `/live` and `/ready` on admin-http |
| Deploy.ObjectsConsistent | k8s-tests/src/deploy.rs:112-181 | the objects are in the test namespace, the selector selects the pods, and both probes name a declared port (9080) |
| Deploy.NamesDetermineInputs | k8s-tests/src/deploy.rs:66-124 | stripping the fixed prefixes from the names gives back the id and the name |
| CrdWatch.AnyNamesAccepted | k8s-tests/src/lib.rs:150-152 | true exactly when some condition is `NamesAccepted` with status `True` |
| CrdWatch.IsAccepted | k8s-tests/src/lib.rs:146-155 | false without a status; otherwise true exactly when some condition accepts the names |
| CrdWatch.ScanSkipsPrefix | k8s-tests/src/lib.rs:131-141 | events that are not accepted additions or modifications are skipped |
| CrdWatch.ScanNoneIff | k8s-tests/src/lib.rs:131-143 | the scan gives `None` exactly when every item is a skipped event |
| CrdWatch.ScanResultOrigin | k8s-tests/src/lib.rs:131-141 | a returned definition is accepted and comes from the first accepting event; a returned error is the first stream error, after skipped events only |
| CrdWatch.WatchParamsFor | k8s-tests/src/lib.rs:125-127 | the watch selects the definition by name, with the given timeout |
| CrdWatch.CrdAccepted | k8s-tests/src/lib.rs:116-144 | a failed watch returns its error; otherwise the loop's result is the scan of the stream |
| CrdWatch.AwaitAccepted | k8s-tests/src/lib.rs:87-95 | scan errors become API errors, `None` becomes the given message, a found definition is returned |
| CrdWatch.ApplyCrd | k8s-tests/src/lib.rs:74-96 | the patch error, a watch error, the apply message, or the accepted definition; any definition returned is accepted |
| CrdWatch.CreateCrd | k8s-tests/src/lib.rs:98-114 | the create error, a watch error, the create message under the created name, or the accepted definition; any definition returned is accepted |
| CrdWatch.NotAcceptedMessages | k8s-tests/src/lib.rs:89-113 | the two messages differ and each begins with the definition's name |
| TestServer.HandleAdmin | k8s-tests/src/server.rs:38-52 | 200 exactly for GET or HEAD of `/live` or `/ready`, otherwise 404; the body is always empty |
| TestServer.AdminRejectsPost | k8s-tests/src/server.rs:47-50 | `POST /live` is not found |
| TestServer.HeaderValueToStr | k8s-tests/src/server.rs:82 | text exactly when every byte is visible ASCII or a tab, with one character per byte |
| TestServer.FilterHeaders | k8s-tests/src/server.rs:79-83 | never more headers than the request has |
| TestServer.FilterHeadersAppend | k8s-tests/src/server.rs:79-83 | the filter works header by header, preserving order |
| TestServer.FilterHeadersSingle | k8s-tests/src/server.rs:82 | one header is kept, as `(name, text)`, exactly when its value is text |
| TestServer.FilterHeadersAllText | k8s-tests/src/server.rs:79-83 | when every value is text, all headers are kept in order under their names |
| TestServer.FilterHeadersFromRequest | k8s-tests/src/server.rs:79-83 | every kept header is a request header with its value read as text |
| TestServer.HandleHttp | k8s-tests/src/server.rs:72-96 | 200 exactly for `/request-summary`, with the version, method, uri and filtered headers of the request; 404 with an empty body otherwise |
| TestServer.SummaryOfOriginForm | k8s-tests/src/server.rs:76-78 | for an origin-form request the summary's uri is the path and query, and a GET is reported as "GET" |
| TestServer.MethodStringInjective | k8s-tests/src/server.rs:77 | standard methods have distinct tokens |

## Left out

- Detect policy: `new_service` panics with `todo!`. The model returns an explicit `Panic`
  outcome carrying Rust's message and builds no service.
- The profile cache (`linkerd_cache::Cache`), the request buffer (`tower::buffer::Buffer`),
  `StreamWatch` and the recovery and backoff policy are not part of this model. They hold the
  one-stream-per-key sharing and the idle eviction. The cache is an input that hands back a
  `(service, handle)` pair.
- `proto::convert_profile` is not part of this model; it is a parameter.
- ProfileClient.Request: `linkerd_addr::Addr`'s `Display` is modelled as `host:port` with
  the host text as given. IPv6 bracketing and name normalisation are not modelled.
- TlsClient.NameDisplay: DNS name validation and normalisation (`linkerd_dns_name`) are not
  modelled. A name is its text, and the parser is a parameter.
- TLS cryptography, `tokio_rustls` accept and connect, and `webpki` certificate parsing are
  foreign code. Certificates are given as what the parser makes of them.
- linkerd/tls/rustls/src/client.rs is not part of this model. It is a thin wrapper over the
  connector, and its ALPN mapping is the one modelled in `TlsProtocol`.
- The `CertificateAuthority` and `Credentials` traits (linkerd/tls/src/lib.rs:57-75) are
  interfaces without behaviour.
- TlsProtocol.DebugBytes: the formatter's text (quoting, escapes, list brackets) is not
  modelled, only the choice between a string and a byte list and its content.
- HttpServer.ServeConnection: `tokio::select!` racing is not modelled. The event that wins is
  an input. The drain's `release_after`, hyper's protocol machinery and `graceful_shutdown`
  internals are not modelled either. The connection's eventual result is an input, and the
  shutdown is a flag.
- HttpServer.Http.SetH2StreamWindow and HttpServer.Http.SetH2ConnectionWindow: hyper also
  turns off adaptive windows when a size is set. That setting is not modelled.
- HttpServer.Call: `SetClientHandle`'s close signal is represented only as the `StackClosed`
  event.
- Builder settings are recorded as values. What hyper does with them on the wire is not
  modelled.
- The tracing `debug!` and `info!` output is not modelled.
- Kubernetes API calls, `hyper::Server::bind`, `serde_json` serialisation of the summary and
  the Kubernetes struct fields beyond the ones listed are I/O and foreign types. The
  handlers' `Result` is always `Ok`, and they are modelled as returning the response.
- TestServer.HandleHttp: the header map's iteration order is taken as the order of the
  request's header list.
- `Args` and `run` in the test suite, CLI dispatch, k8s-tests/src/main.rs and
  k8s-tests/src/runner.rs (`todo!`) handle process start-up and are not part of this model.
- linkerd/app/inbound/src/http/mod.rs is test and fuzz scaffolding and is not part of this
  model.
