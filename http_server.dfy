/**
 * Serving HTTP on an accepted connection: the shared hyper server configuration built once
 * from the HTTP/2 settings, the per-target service that copies it, and the serving of one
 * connection as HTTP/1 (with upgrades) or HTTP/2 until it ends, the process drains, or the
 * stack closes it. hyper's protocol machinery is not part of this model: a connection is
 * the configuration it was started with, and its course is given as the event that ends
 * the wait and the result the connection then completes with.
 */
module HttpServer {
  import opened Wrappers

  /** `std::time::Duration`, in nanoseconds. */
  type Duration = nat

  /** hyper's smallest permitted read-buffer limit; `max_buf_size` panics below it. */
  const MinMaxBufSize: nat := 8192

  /** The read-buffer limit of every server built here. */
  const MaxBufSize: nat := 16 * 1024

  /** Which protocols a hyper connection accepts. */
  datatype Mode = Fallback | Http1Only | Http2Only

  /**
   * The settings of a hyper server builder that this core touches. `None` stands for
   * hyper's own default.
   */
  datatype HttpConfig = HttpConfig(
    maxBufSize: Option<nat>,
    h2StreamWindow: Option<nat>,
    h2ConnectionWindow: Option<nat>,
    keepAliveTimeout: Option<Duration>,
    keepAliveInterval: Option<Duration>,
    mode: Mode)

  /** The configuration of a fresh builder: every setting at hyper's default. */
  const DefaultConfig := HttpConfig(None, None, None, None, None, Fallback)

  /** `hyper::server::conn::Http`: a builder whose setters change it in place. */
  class Http {
    var maxBufSize: Option<nat>
    var h2StreamWindow: Option<nat>
    var h2ConnectionWindow: Option<nat>
    var keepAliveTimeout: Option<Duration>
    var keepAliveInterval: Option<Duration>
    var mode: Mode

    function Config(): HttpConfig
      reads this
    {
      HttpConfig(maxBufSize, h2StreamWindow, h2ConnectionWindow, keepAliveTimeout, keepAliveInterval, mode)
    }

    /** `Http::new`. */
    constructor ()
      ensures Config() == DefaultConfig
    {
      maxBufSize := None;
      h2StreamWindow := None;
      h2ConnectionWindow := None;
      keepAliveTimeout := None;
      keepAliveInterval := None;
      mode := Fallback;
    }

    /** `Clone`: a separate builder with the same settings. */
    method Clone() returns (c: Http)
      ensures fresh(c) && c.Config() == Config()
    {
      c := new Http();
      c.maxBufSize := maxBufSize;
      c.h2StreamWindow := h2StreamWindow;
      c.h2ConnectionWindow := h2ConnectionWindow;
      c.keepAliveTimeout := keepAliveTimeout;
      c.keepAliveInterval := keepAliveInterval;
      c.mode := mode;
    }

    /** `max_buf_size`: hyper refuses (panics on) a limit below its minimum. */
    method SetMaxBufSize(max: nat)
      requires max >= MinMaxBufSize
      modifies this
      ensures Config() == old(Config()).(maxBufSize := Some(max))
    {
      maxBufSize := Some(max);
    }

    /** `http2_initial_stream_window_size`: a given size replaces the setting; `None` keeps it. */
    method SetH2StreamWindow(size: Option<nat>)
      modifies this
      ensures size.Some? ==> Config() == old(Config()).(h2StreamWindow := size)
      ensures size.None? ==> Config() == old(Config())
    {
      if size.Some? {
        h2StreamWindow := size;
      }
    }

    /** `http2_initial_connection_window_size`: as for the stream window. */
    method SetH2ConnectionWindow(size: Option<nat>)
      modifies this
      ensures size.Some? ==> Config() == old(Config()).(h2ConnectionWindow := size)
      ensures size.None? ==> Config() == old(Config())
    {
      if size.Some? {
        h2ConnectionWindow := size;
      }
    }

    /** `http2_keep_alive_timeout`. */
    method SetKeepAliveTimeout(timeout: Duration)
      modifies this
      ensures Config() == old(Config()).(keepAliveTimeout := Some(timeout))
    {
      keepAliveTimeout := Some(timeout);
    }

    /** `http2_keep_alive_interval`. */
    method SetKeepAliveInterval(interval: Duration)
      modifies this
      ensures Config() == old(Config()).(keepAliveInterval := Some(interval))
    {
      keepAliveInterval := Some(interval);
    }

    /** `http1_only`: `true` restricts the connection to HTTP/1, `false` restores the fallback. */
    method SetHttp1Only(only: bool)
      modifies this
      ensures Config() == old(Config()).(mode := if only then Http1Only else Fallback)
    {
      mode := if only then Http1Only else Fallback;
    }

    /** `http2_only`: `true` restricts the connection to HTTP/2, `false` restores the fallback. */
    method SetHttp2Only(only: bool)
      modifies this
      ensures Config() == old(Config()).(mode := if only then Http2Only else Fallback)
    {
      mode := if only then Http2Only else Fallback;
    }
  }

  /** `h2::Settings`: the HTTP/2 settings the server is configured from. */
  datatype H2Settings = H2Settings(
    initialStreamWindowSize: Option<nat>,
    initialConnectionWindowSize: Option<nat>,
    keepaliveTimeout: Option<Duration>)

  /** The interval between HTTP/2 PINGs for a keep-alive timeout: a quarter of it, rounded down. */
  function KeepAliveInterval(timeout: Duration): (interval: Duration)
    ensures 4 * interval <= timeout < 4 * interval + 4
  {
    timeout / 4
  }

  /**
   * A PING is sent at least once within every timeout, and timeouts shorter than four
   * nanoseconds give an interval of zero.
   */
  lemma KeepAliveIntervalBounds(timeout: Duration)
    ensures KeepAliveInterval(timeout) <= timeout
    ensures KeepAliveInterval(timeout) == 0 <==> timeout < 4
    ensures timeout > 0 ==> KeepAliveInterval(timeout) < timeout
  {
  }

  /** `drain::Watch`: the process-wide shutdown signal; clones observe the same signal. */
  datatype DrainWatch = DrainWatch(signal: nat)

  /** `NewServeHttp`: the inner stack, the shared server configuration and the drain signal. */
  datatype NewServeHttp<N> = NewServeHttp(inner: N, server: Http, drain: DrainWatch)

  /**
   * `NewServeHttp::new`: a fresh builder with a 16 KiB read buffer and the settings' window
   * sizes; when a keep-alive timeout is set, PINGs are configured with that timeout and a
   * quarter of it as the interval, and otherwise neither is set.
   */
  method New<N>(h2: H2Settings, inner: N, drain: DrainWatch) returns (n: NewServeHttp<N>)
    ensures fresh(n.server) && n.inner == inner && n.drain == drain
    ensures n.server.maxBufSize == Some(MaxBufSize)
    ensures n.server.h2StreamWindow == h2.initialStreamWindowSize
    ensures n.server.h2ConnectionWindow == h2.initialConnectionWindowSize
    ensures n.server.keepAliveTimeout == h2.keepaliveTimeout
    ensures n.server.keepAliveInterval.Some? <==> h2.keepaliveTimeout.Some?
    ensures n.server.keepAliveInterval.Some? ==>
      4 * n.server.keepAliveInterval.value <= h2.keepaliveTimeout.value < 4 * n.server.keepAliveInterval.value + 4
    ensures n.server.mode == Fallback
  {
    var server := new Http();
    server.SetMaxBufSize(MaxBufSize);
    server.SetH2StreamWindow(h2.initialStreamWindowSize);
    server.SetH2ConnectionWindow(h2.initialConnectionWindowSize);
    if h2.keepaliveTimeout.Some? {
      var timeout := h2.keepaliveTimeout.value;
      var interval := KeepAliveInterval(timeout);
      server.SetKeepAliveTimeout(timeout);
      server.SetKeepAliveInterval(interval);
    }
    n := NewServeHttp(inner, server, drain);
  }

  /** The HTTP version a target is served with. */
  datatype Version = Http1 | H2

  /** `ServeHttp`: the per-target service with its own copy of the server configuration. */
  datatype ServeHttp<S> = ServeHttp(version: Version, server: Http, inner: S, drain: DrainWatch)

  /**
   * `NewServeHttp::new_service`: reads the target's version, builds the inner service for
   * the target, and gives the service its own copy of the configuration.
   */
  method NewService<T, S>(n: NewServeHttp<T -> S>, target: T, versionOf: T -> Version) returns (s: ServeHttp<S>)
    ensures s.version == versionOf(target) && s.inner == n.inner(target) && s.drain == n.drain
    ensures fresh(s.server) && s.server.Config() == n.server.Config()
  {
    var server := n.server.Clone();
    s := ServeHttp(versionOf(target), server, n.inner(target), n.drain);
  }

  /** `ServeHttp::poll_ready`: always ready. */
  function PollReady<S, E>(s: ServeHttp<S>): (r: Poll<Result<(), E>>)
    ensures r == Ready(Success(()))
  {
    Ready(Success(()))
  }

  /** The client's address, as `PeerAddr` reports it. */
  datatype SocketAddr = SocketAddr(ip: seq<nat>, port: nat)

  /** `SetClientHandle`: the inner service, told the address of the client it serves. */
  datatype SetClientHandle<S> = SetClientHandle(peer: SocketAddr, inner: S)

  /**
   * A connection being served: the configuration hyper was started with (hyper copies it),
   * whether HTTP upgrades are enabled, the service and the drain signal, and whether a
   * graceful shutdown has been asked for.
   */
  class Connection<S> {
    const config: HttpConfig
    const upgrades: bool
    const svc: SetClientHandle<S>
    const drain: DrainWatch
    var shuttingDown: bool

    constructor (config: HttpConfig, upgrades: bool, svc: SetClientHandle<S>, drain: DrainWatch)
      ensures this.config == config && this.upgrades == upgrades && this.svc == svc && this.drain == drain
      ensures !shuttingDown
    {
      this.config := config;
      this.upgrades := upgrades;
      this.svc := svc;
      this.drain := drain;
      shuttingDown := false;
    }

    /** `graceful_shutdown`: stop accepting new requests and finish the ones in flight. */
    method GracefulShutdown()
      modifies this
      ensures shuttingDown
    {
      shuttingDown := true;
    }
  }

  /** The future `ServeHttp::call` returns: an immediate error, or a connection being served. */
  datatype ServeFuture<S, E> = Failed(error: E) | Serving(conn: Connection<S>)

  /** `serve_http1`: restricts the server copy to HTTP/1 and serves with upgrades (CONNECT, websockets). */
  method ServeHttp1<S>(server: Http, svc: SetClientHandle<S>, drain: DrainWatch) returns (conn: Connection<S>)
    modifies server
    ensures server.Config() == old(server.Config()).(mode := Http1Only)
    ensures fresh(conn) && conn.config == server.Config() && conn.upgrades
    ensures conn.svc == svc && conn.drain == drain && !conn.shuttingDown
  {
    server.SetHttp1Only(true);
    conn := new Connection(server.Config(), true, svc, drain);
  }

  /** `serve_h2`: restricts the server copy to HTTP/2 and serves without upgrades. */
  method ServeH2<S>(server: Http, svc: SetClientHandle<S>, drain: DrainWatch) returns (conn: Connection<S>)
    modifies server
    ensures server.Config() == old(server.Config()).(mode := Http2Only)
    ensures fresh(conn) && conn.config == server.Config() && !conn.upgrades
    ensures conn.svc == svc && conn.drain == drain && !conn.shuttingDown
  {
    server.SetHttp2Only(true);
    conn := new Connection(server.Config(), false, svc, drain);
  }

  /**
   * `ServeHttp::call`: an address error fails the connection at once. Otherwise the
   * connection is served with the service's configuration restricted to the target's
   * version, HTTP/1 with upgrades and HTTP/2 without. The restriction is made on a copy:
   * the service's own configuration is left as it was, for the next connection.
   */
  method Call<S, E>(s: ServeHttp<S>, peerAddr: Result<SocketAddr, E>) returns (f: ServeFuture<S, E>)
    ensures peerAddr.Failure? ==> f == Failed(peerAddr.error)
    ensures peerAddr.Success? ==> f.Serving? && fresh(f.conn)
    ensures peerAddr.Success? ==>
      && f.conn.config == s.server.Config().(mode := if s.version == Http1 then Http1Only else Http2Only)
      && f.conn.upgrades == (s.version == Http1)
      && f.conn.svc == SetClientHandle(peerAddr.value, s.inner)
      && f.conn.drain == s.drain
      && !f.conn.shuttingDown
  {
    var server := s.server.Clone();
    match peerAddr
    case Failure(e) =>
      f := Failed(e);
    case Success(pa) =>
      var svc := SetClientHandle(pa, s.inner);
      var conn;
      if s.version == Http1 {
        conn := ServeHttp1(server, svc, s.drain);
      } else {
        conn := ServeH2(server, svc, s.drain);
      }
      f := Serving(conn);
  }

  /** The first of the three things `select!` waits for. */
  datatype Event<E> =
    | Finished(result: Result<(), E>)  // the client ended the connection
    | DrainSignaled                    // the process is shutting down
    | StackClosed                      // the stack is tearing the connection down

  /**
   * The body of `serve_http1` and `serve_h2` after the connection starts: when the client
   * ends the connection first, its result is returned as is. When the process drains or the
   * stack closes first, a graceful shutdown is asked for and the connection's eventual
   * result (`completion`) is returned.
   */
  method ServeConnection<S, E>(conn: Connection<S>, first: Event<E>, completion: Result<(), E>) returns (r: Result<(), E>)
    modifies conn
    ensures first.Finished? ==> r == first.result && conn.shuttingDown == old(conn.shuttingDown)
    ensures !first.Finished? ==> r == completion && conn.shuttingDown
  {
    match first
    case Finished(res) =>
      r := res;
    case DrainSignaled =>
      conn.GracefulShutdown();
      r := completion;
    case StackClosed =>
      conn.GracefulShutdown();
      r := completion;
  }

  /**
   * One connection from start to end: a served connection keeps the configuration it was
   * started with whatever happens, fails exactly when the address lookup fails or the
   * connection's own result is an error, and is shut down gracefully exactly when the
   * process drains or the stack closes it first.
   */
  method ServeOne<S, E>(s: ServeHttp<S>, peerAddr: Result<SocketAddr, E>, first: Event<E>, completion: Result<(), E>)
    returns (r: Result<(), E>, gracefulShutdown: bool)
    ensures peerAddr.Failure? ==> r == Failure(peerAddr.error) && !gracefulShutdown
    ensures peerAddr.Success? ==> gracefulShutdown == !first.Finished?
    ensures peerAddr.Success? && first.Finished? ==> r == first.result
    ensures peerAddr.Success? && !first.Finished? ==> r == completion
  {
    var f := Call(s, peerAddr);
    match f
    case Failed(e) =>
      r, gracefulShutdown := Failure(e), false;
    case Serving(conn) =>
      r := ServeConnection(conn, first, completion);
      gracefulShutdown := conn.shuttingDown;
  }
}
