/**
 * The service-profile discovery client: a lookup for a destination address yields a watch
 * over the destination's profile, or nothing. The cache that shares one watch per address,
 * the request buffer and the stream recovery are inputs here: the cache is whatever hands
 * back a `(service, handle)` pair for an address, and the outcome of the buffered watch
 * service is what `ResponseFuture::poll` is given.
 */
module ProfileClient {
  import opened Wrappers
  import Text

  type Port = p: int | 0 <= p < 0x1_0000

  /** `std::time::Duration`, in nanoseconds. */
  type Duration = nat

  /** A destination address: host text (a name or an IP literal) and port. */
  datatype Addr = Addr(host: string, port: Port)

  /** `LookupAddr`: the key of a profile lookup. */
  datatype LookupAddr = LookupAddr(addr: Addr)

  /** `tokio::sync::watch::Receiver<Profile>`: identifies one watch channel; clones share it. */
  datatype WatchRx = WatchRx(channel: nat)

  /** `linkerd_cache::Handle`: keeps a cache entry alive while it is held. */
  datatype Handle = Handle(entry: nat)

  /** `Receiver`: a profile watch together with the cache handle that keeps its entry alive. */
  datatype Receiver = Receiver(rx: WatchRx, handle: Handle)

  /** `tonic::Status`: a gRPC status. */
  datatype Status = Status(code: nat, message: string)

  // === Addresses ===

  /** `Display` of an address: `host:port`. */
  function AddrDisplay(a: Addr): string
  {
    a.host + ":" + Text.Decimal(a.port)
  }

  /** Reads `host:port` back, splitting at the last colon (a host may itself hold colons). */
  function ParseAddr(s: string): Option<Addr>
  {
    match Text.SplitLast(s, ':')
    case None => None
    case Some((host, digits)) =>
      match Text.ParseNat(digits)
      case None => None
      case Some(n) => if n < 0x1_0000 then Some(Addr(host, n)) else None
  }

  /** The text of an address determines the address. */
  lemma ParseAddrDisplay(a: Addr)
    ensures ParseAddr(AddrDisplay(a)) == Some(a)
  {
    var digits := Text.Decimal(a.port);
    assert ':' !in digits by {
      forall i | 0 <= i < |digits| ensures digits[i] != ':' {
        assert Text.IsDigit(digits[i]);
      }
    }
    Text.SplitLastOfJoin(a.host, ':', digits);
    Text.ParseNatOfDecimal(a.port);
  }

  // === Client ===

  /** `NewWatch`: makes the buffered watch service of one cache entry. */
  datatype NewWatch = NewWatch(capacity: nat)

  /**
   * `WatchService`: a buffer in front of the watch spawned for one address; requests queue
   * behind the buffer until the watch is established.
   */
  datatype WatchService = WatchService(lookup: LookupAddr, capacity: nat)

  /** `Inner`: the destination API client, configured with the context token. */
  datatype Inner = Inner(contextToken: string)

  /** `Client`: a cache of watch services with an idle timeout. */
  datatype Client = Client(idle: Duration, newWatch: NewWatch, inner: Inner)

  /** `Client::new`: the cache idles entries out after `idle`; watch buffers hold `capacity` requests. */
  function NewClient(contextToken: string, idle: Duration, capacity: nat): (c: Client)
    ensures c.idle == idle && c.newWatch.capacity == capacity && c.inner.contextToken == contextToken
  {
    Client(idle, NewWatch(capacity), Inner(contextToken))
  }

  /** `NewWatch::new_service`: spawns the watch for the address behind a buffer of the configured capacity. */
  function NewWatchService(w: NewWatch, target: LookupAddr): (s: WatchService)
    ensures s.lookup == target && s.capacity == w.capacity
  {
    WatchService(target, w.capacity)
  }

  /** `Client::poll_ready`: the client never waits and never fails. */
  function ClientPollReady(c: Client): (r: Poll<()>)
    ensures r == Ready(())
  {
    Ready(())
  }

  /**
   * `ResponseFuture`: waits for the entry's watch service and then hands out a `Receiver`
   * holding the cache handle. The `Infallible` error type of the lookup is reflected in the
   * result type, which has no error case.
   */
  class ResponseFuture {
    const inner: WatchService
    var handle: Option<Handle>

    constructor (inner: WatchService, handle: Handle)
      ensures this.inner == inner && this.handle == Some(handle)
    {
      this.inner := inner;
      this.handle := Some(handle);
    }

    /**
     * `ResponseFuture::poll`, given what polling the watch service gave. A watch makes the
     * lookup `Some(Receiver)` and moves the handle out; an error status (retries are done
     * below this layer) makes it `None` and the handle is not handed out. Polling to
     * success a second time would unwrap a taken handle, which panics; callers do not.
     */
    method Poll(innerPoll: Poll<Result<WatchRx, Status>>) returns (r: Poll<Option<Receiver>>)
      requires innerPoll.Ready? && innerPoll.value.Success? ==> handle.Some?
      modifies this
      ensures innerPoll.Pending? ==> r.Pending? && handle == old(handle)
      ensures innerPoll.Ready? && innerPoll.value.Success? ==>
        r == Ready(Some(Receiver(innerPoll.value.value, old(handle).value))) && handle.None?
      ensures innerPoll.Ready? && innerPoll.value.Failure? ==> r == Ready(None) && handle == old(handle)
    {
      match innerPoll
      case Pending =>
        r := Pending;
      case Ready(Success(rx)) =>
        var h := handle.value;
        handle := None;
        r := Ready(Some(Receiver(rx, h)));
      case Ready(Failure(_)) =>
        r := Ready(None);
    }
  }

  /**
   * `Client::call`: takes the cached `(service, handle)` pair for the address (the cache is
   * not part of this model) and returns a future that will call the service once.
   */
  method Call(c: Client, addr: LookupAddr, cached: (WatchService, Handle)) returns (f: ResponseFuture)
    ensures fresh(f)
    ensures f.inner == cached.0 && f.handle == Some(cached.1)
  {
    f := new ResponseFuture(cached.0, cached.1);
  }

  /**
   * A lookup never fails: whatever the watch service yields, the future completes with
   * `Some` receiver carrying the very handle the cache gave, or with `None`.
   */
  method LookupOnce(c: Client, addr: LookupAddr, cached: (WatchService, Handle), outcome: Result<WatchRx, Status>)
    returns (r: Option<Receiver>)
    ensures outcome.Success? <==> r.Some?
    ensures r.Some? ==> r.value == Receiver(outcome.value, cached.1)
  {
    var f := Call(c, addr, cached);
    var p := f.Poll(Ready(outcome));
    r := p.value;
  }

  // === CloneReceiver ===

  /** `CloneReceiver`: the established watch, answered to every buffered request. */
  datatype CloneReceiver = CloneReceiver(rx: WatchRx)

  /** `CloneReceiver::poll_ready`: always ready. */
  function CloneReceiverPollReady(c: CloneReceiver): (r: Poll<Result<(), Status>>)
    ensures r == Ready(Success(()))
  {
    Ready(Success(()))
  }

  /** `CloneReceiver::call`: every call succeeds with a clone of the same watch receiver. */
  function CloneReceiverCall(c: CloneReceiver): (r: Result<WatchRx, Status>)
    ensures r.Success? && r.value.channel == c.rx.channel
  {
    Success(c.rx)
  }

  // === Inner ===

  /** `api::GetDestination`: the request; fields not set are at their defaults. */
  datatype GetDestination = GetDestination(scheme: string, path: string, contextToken: string)

  /** `Inner::poll_ready`: tonic clients do not expose readiness, so always ready. */
  function InnerPollReady(inner: Inner): (r: Poll<Result<(), Status>>)
    ensures r == Ready(Success(()))
  {
    Ready(Success(()))
  }

  /** The request `Inner::call` sends for an address. */
  function Request(inner: Inner, addr: LookupAddr): (req: GetDestination)
    ensures req.contextToken == inner.contextToken && req.scheme == ""
    ensures ParseAddr(req.path) == Some(addr.addr)
  {
    ParseAddrDisplay(addr.addr);
    GetDestination("", AddrDisplay(addr.addr), inner.contextToken)
  }

  /** Converts every profile of a response stream with the lookup's port; error items pass through. */
  function ConvertStream<P, Q>(items: seq<Result<P, Status>>, port: Port, convert: (P, Port) -> Q): (r: seq<Result<Q, Status>>)
    ensures |r| == |items|
    ensures forall i :: 0 <= i < |items| ==>
      (items[i].Success? ==> r[i] == Success(convert(items[i].value, port))) &&
      (items[i].Failure? ==> r[i] == Failure(items[i].error))
  {
    if |items| == 0 then []
    else
      var head := match items[0]
        case Success(p) => Success(convert(p, port))
        case Failure(s) => Failure(s);
      [head] + ConvertStream(items[1..], port, convert)
  }

  /**
   * `Inner::call`: sends the request built from the address and the token; a failed call
   * returns its status, and a response stream is converted with the address's port.
   */
  function InnerCall<P, Q>(inner: Inner, addr: LookupAddr, rpc: GetDestination -> Result<seq<Result<P, Status>>, Status>,
                           convert: (P, Port) -> Q): (r: Result<seq<Result<Q, Status>>, Status>)
    ensures r.Failure? <==> rpc(Request(inner, addr)).Failure?
    ensures r.Failure? ==> r.error == rpc(Request(inner, addr)).error
    ensures r.Success? ==> r.value == ConvertStream(rpc(Request(inner, addr)).value, addr.addr.port, convert)
  {
    var stream :- rpc(Request(inner, addr));
    Success(ConvertStream(stream, addr.addr.port, convert))
  }

  /** The request is the same for every call with the same address and token, and different addresses give different paths. */
  lemma RequestDeterministic(inner: Inner, a: LookupAddr, b: LookupAddr)
    ensures Request(inner, a) == Request(inner, b) <==> a == b
  {
    var ra, rb := Request(inner, a), Request(inner, b);
    if ra == rb {
      assert ParseAddr(ra.path) == Some(a.addr);
      assert ParseAddr(rb.path) == Some(b.addr);
    }
  }
}
