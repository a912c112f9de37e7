/**
 * Inbound port policy dispatch: the original destination port of a connection selects,
 * through a configured table with a default, whether the connection is protocol-detected,
 * passed through opaquely, or rejected.
 */
module AcceptPorts {
  import opened Wrappers

  type Port = p: int | 0 <= p < 0x1_0000

  /** `std::time::Duration`, in nanoseconds. */
  type Duration = nat

  datatype PortPolicy = Detect(timeout: Duration) | Opaque | Reject

  /** An IP address, as its octets (4 for IPv4, 16 for IPv6). */
  datatype SocketAddr = SocketAddr(ip: seq<nat>, port: Port)

  /** `OrigDstAddr`: the address the client originally connected to. */
  datatype OrigDstAddr = OrigDstAddr(addr: SocketAddr)

  /** The errors a connection handler built here can fail with. */
  datatype ConnError<E> = Rejected | Inner(error: E)

  /** `Display` of the error; for `Rejected`, the message from its `#[error]` attribute. */
  function ConnErrorDisplay<E>(e: ConnError<E>, innerDisplay: E -> string): (s: string)
    ensures e.Rejected? ==> s == "connection rejected by policy"
  {
    match e
    case Rejected => "connection rejected by policy"
    case Inner(err) => innerDisplay(err)
  }

  /** `NewAcceptPorts`: the port table, the default policy, and the detect and opaque stacks. */
  datatype NewAcceptPorts<N> = NewAcceptPorts(ports: map<Port, PortPolicy>, default: PortPolicy, detectStack: N, opaqueStack: N)

  /** Collecting `(port, policy)` pairs into a map: each pair is inserted in order. */
  function CollectPorts(entries: seq<(Port, PortPolicy)>): map<Port, PortPolicy>
  {
    if |entries| == 0 then map[]
    else CollectPorts(entries[..|entries| - 1])[entries[|entries| - 1].0 := entries[|entries| - 1].1]
  }

  /** A port is in the collected table exactly when some pair names it. */
  lemma {:induction false} CollectPortsDomain(entries: seq<(Port, PortPolicy)>, p: Port)
    ensures p in CollectPorts(entries) <==> exists i :: 0 <= i < |entries| && entries[i].0 == p
  {
    if |entries| > 0 {
      var n := |entries| - 1;
      var prefix := entries[..n];
      CollectPortsDomain(prefix, p);
      if entries[n].0 != p {
        if exists i :: 0 <= i < |entries| && entries[i].0 == p {
          var i :| 0 <= i < |entries| && entries[i].0 == p;
          assert prefix[i] == entries[i];
        }
        if exists i :: 0 <= i < |prefix| && prefix[i].0 == p {
          var i :| 0 <= i < |prefix| && prefix[i].0 == p;
          assert entries[i] == prefix[i];
        }
      }
    }
  }

  /** A pair that no later pair overrides gives the port its policy. */
  lemma {:induction false} CollectPortsLast(entries: seq<(Port, PortPolicy)>, p: Port, i: nat)
    requires i < |entries| && entries[i].0 == p
    requires forall j :: i < j < |entries| ==> entries[j].0 != p
    ensures p in CollectPorts(entries) && CollectPorts(entries)[p] == entries[i].1
  {
    var n := |entries| - 1;
    if i < n {
      var prefix := entries[..n];
      assert prefix[i] == entries[i];
      assert entries[n].0 != p;
      forall j | i < j < |prefix|
        ensures prefix[j].0 != p
      {
        assert prefix[j] == entries[j];
      }
      CollectPortsLast(prefix, p, i);
    }
  }

  /**
   * The collected table maps exactly the ports that occur in the pairs, each to the policy
   * of its LAST occurrence: a later duplicate overrides an earlier one.
   */
  lemma CollectPortsLastWins(entries: seq<(Port, PortPolicy)>, p: Port)
    ensures p in CollectPorts(entries) <==> exists i :: 0 <= i < |entries| && entries[i].0 == p
    ensures forall i :: 0 <= i < |entries| && entries[i].0 == p && (forall j :: i < j < |entries| ==> entries[j].0 != p) ==>
      p in CollectPorts(entries) && CollectPorts(entries)[p] == entries[i].1
  {
    CollectPortsDomain(entries, p);
    forall i | 0 <= i < |entries| && entries[i].0 == p && (forall j :: i < j < |entries| ==> entries[j].0 != p)
      ensures p in CollectPorts(entries) && CollectPorts(entries)[p] == entries[i].1
    {
      CollectPortsLast(entries, p, i);
    }
  }

  /** `NewAcceptPorts::new`: collects the table once and keeps the rest as given. */
  function New<N>(entries: seq<(Port, PortPolicy)>, default: PortPolicy, detectStack: N, opaqueStack: N): (r: NewAcceptPorts<N>)
    ensures r.ports == CollectPorts(entries)
    ensures r.default == default && r.detectStack == detectStack && r.opaqueStack == opaqueStack
  {
    NewAcceptPorts(CollectPorts(entries), default, detectStack, opaqueStack)
  }

  /** `ports.get(&port).unwrap_or(&default)`: the policy of a port. */
  function PolicyFor<N>(n: NewAcceptPorts<N>, port: Port): (r: PortPolicy)
    ensures port in n.ports ==> r == n.ports[port]
    ensures port !in n.ports ==> r == n.default
  {
    if port in n.ports then n.ports[port] else n.default
  }

  /** The policy a configuration built from pairs gives a port: that of its last pair, else the default. */
  lemma PolicyOfCollected<N>(entries: seq<(Port, PortPolicy)>, default: PortPolicy, detectStack: N, opaqueStack: N, p: Port)
    ensures (forall i :: 0 <= i < |entries| ==> entries[i].0 != p) ==> PolicyFor(New(entries, default, detectStack, opaqueStack), p) == default
    ensures forall i :: 0 <= i < |entries| && entries[i].0 == p && (forall j :: i < j < |entries| ==> entries[j].0 != p) ==>
      PolicyFor(New(entries, default, detectStack, opaqueStack), p) == entries[i].1
  {
    CollectPortsLastWins(entries, p);
  }

  /** The connection service a policy yields: the opaque stack's service, or one that rejects. */
  datatype BoxService<S> = Delegate(svc: S) | RejectAll

  /** What `new_service` does: return a service, or panic (the unimplemented detect branch). */
  datatype NewServiceOutcome<S> = Service(svc: BoxService<S>) | Panic(message: string)

  /**
   * `NewAcceptPorts::new_service`: reads the target's original destination port and dispatches
   * on its policy. The detect branch is `todo!()` in the source, which panics.
   */
  function NewService<T, S>(n: NewAcceptPorts<T -> S>, target: T, origDst: T -> OrigDstAddr): (r: NewServiceOutcome<S>)
    ensures PolicyFor(n, origDst(target).addr.port) == Opaque ==> r == Service(Delegate(n.opaqueStack(target)))
    ensures PolicyFor(n, origDst(target).addr.port) == Reject ==> r == Service(RejectAll)
    ensures PolicyFor(n, origDst(target).addr.port).Detect? ==> r == Panic("not yet implemented: Detect TLS and HTTP")
  {
    var OrigDstAddr(a) := origDst(target);
    match PolicyFor(n, a.port)
    case Detect(_) => Panic("not yet implemented: Detect TLS and HTTP")
    case Opaque => Service(Delegate(n.opaqueStack(target)))
    case Reject => Service(RejectAll)
  }

  /**
   * Driving a connection service on a connection. The rejecting service fails with
   * `Rejected` without looking at the connection; a delegated one runs the inner service.
   */
  function Serve<S, I, E>(svc: BoxService<S>, io: I, serveInner: (S, I) -> Result<(), E>): (r: Result<(), ConnError<E>>)
    ensures svc.RejectAll? ==> r == Failure(Rejected)
    ensures svc.Delegate? ==> (r.Success? <==> serveInner(svc.svc, io).Success?)
    ensures svc.Delegate? && r.Failure? ==> r.error == Inner(serveInner(svc.svc, io).error)
  {
    match svc
    case RejectAll => Failure(Rejected)
    case Delegate(s) =>
      match serveInner(s, io)
      case Success(_) => Success(())
      case Failure(e) => Failure(Inner(e))
  }

  /** Only the destination port decides: targets whose original destinations share a port get the same policy and the same kind of service. */
  lemma OnlyPortDecides<T, S>(n: NewAcceptPorts<T -> S>, t1: T, t2: T, origDst: T -> OrigDstAddr)
    requires origDst(t1).addr.port == origDst(t2).addr.port
    ensures NewService(n, t1, origDst).Panic? == NewService(n, t2, origDst).Panic?
    ensures NewService(n, t1, origDst) == Service(RejectAll) <==> NewService(n, t2, origDst) == Service(RejectAll)
    ensures NewService(n, t1, origDst).Service? && NewService(n, t1, origDst).svc.Delegate? <==>
            NewService(n, t2, origDst).Service? && NewService(n, t2, origDst).svc.Delegate?
  {
  }

  /** The detect stack is never consulted: replacing it changes nothing that `new_service` returns. */
  lemma DetectStackUnused<T, S>(n: NewAcceptPorts<T -> S>, other: T -> S, target: T, origDst: T -> OrigDstAddr)
    ensures NewService(n, target, origDst) == NewService(n.(detectStack := other), target, origDst)
  {
  }

  /** A rejected port never runs the opaque stack: every connection fails with the rejection message. */
  lemma RejectedConnectionsFail<T, S, I, E>(n: NewAcceptPorts<T -> S>, target: T, origDst: T -> OrigDstAddr,
                                            io: I, serveInner: (S, I) -> Result<(), E>, innerDisplay: E -> string)
    requires PolicyFor(n, origDst(target).addr.port) == Reject
    ensures NewService(n, target, origDst) == Service(RejectAll)
    ensures Serve(NewService(n, target, origDst).svc, io, serveInner) == Failure(Rejected)
    ensures ConnErrorDisplay(Serve(NewService(n, target, origDst).svc, io, serveInner).error, innerDisplay) == "connection rejected by policy"
  {
  }

  /**
   * The end-to-end example: port 8080 mapped to `Opaque` with default `Reject`; a connection
   * to 8080 goes to the opaque stack and one to 9999 is rejected.
   */
  lemma OpaqueAndRejectExample<T, S>(detectStack: T -> S, opaqueStack: T -> S, t1: T, t2: T, origDst: T -> OrigDstAddr)
    requires origDst(t1).addr.port == 8080 && origDst(t2).addr.port == 9999
    ensures NewService(New([(8080, Opaque)], Reject, detectStack, opaqueStack), t1, origDst) == Service(Delegate(opaqueStack(t1)))
    ensures NewService(New([(8080, Opaque)], Reject, detectStack, opaqueStack), t2, origDst) == Service(RejectAll)
  {
    PolicyOfCollected([(8080, Opaque)], Reject, detectStack, opaqueStack, 8080);
    PolicyOfCollected([(8080, Opaque)], Reject, detectStack, opaqueStack, 9999);
  }
}
