/**
 * Profile discovery in front of a stack: a target that names a lookup address gets its
 * inner service only once the profile lookup has resolved, and is built with the receiver
 * it yields; a target without one gets its inner service at once, with no profile.
 */
module Discover {
  import opened Wrappers
  import ProfileClient

  type LookupAddr = ProfileClient.LookupAddr
  type Receiver = ProfileClient.Receiver

  /**
   * `NewDiscover`: extracts the optional lookup address of a target, and holds the inner
   * stack that builds a service from `(profile, target)`. The profile client it calls is
   * represented by the future it starts, which is identified by its address.
   */
  datatype NewDiscover<-T, S> = NewDiscover(extractParam: T -> Option<LookupAddr>, inner: (Option<Receiver>, T) -> S)

  /**
   * `MakeFuture`: the pending profile lookup, the target (taken when the service is built)
   * and the inner stack.
   */
  class MakeFuture<T, S> {
    const lookup: LookupAddr
    var target: Option<T>
    const newService: (Option<Receiver>, T) -> S

    constructor (lookup: LookupAddr, target: T, newService: (Option<Receiver>, T) -> S)
      ensures this.lookup == lookup && this.target == Some(target) && this.newService == newService
    {
      this.lookup := lookup;
      this.target := Some(target);
      this.newService := newService;
    }

    /**
     * `MakeFuture::poll`, given what polling the lookup gave. It waits while the lookup is
     * pending and returns its error; once the lookup resolves, the target is moved out and
     * the inner service is built from the lookup's result and the target. Resolving twice
     * would unwrap a taken target, which panics; a future is not polled after completion.
     */
    method Poll<E>(lookupPoll: Poll<Result<Option<Receiver>, E>>) returns (r: Poll<Result<S, E>>)
      requires lookupPoll.Ready? && lookupPoll.value.Success? ==> target.Some?
      modifies this
      ensures lookupPoll.Pending? ==> r.Pending? && target == old(target)
      ensures lookupPoll.Ready? && lookupPoll.value.Failure? ==>
        r == Ready(Failure(lookupPoll.value.error)) && target == old(target)
      ensures lookupPoll.Ready? && lookupPoll.value.Success? ==>
        r == Ready(Success(newService(lookupPoll.value.value, old(target).value))) && target.None?
    {
      match lookupPoll
      case Pending =>
        r := Pending;
      case Ready(Failure(e)) =>
        r := Ready(Failure(e));
      case Ready(Success(rx)) =>
        var t := target.value;
        target := None;
        r := Ready(Success(newService(rx, t)));
    }
  }

  /** The service `new_service` returns: one that waits for the lookup (`Either::A`), or the inner service (`Either::B`). */
  datatype DiscoverService<T, S> = Lazy(future: MakeFuture<T, S>) | Eager(svc: S)

  /**
   * `NewDiscover::new_service`: with a lookup address, starts the lookup and defers the
   * inner stack to it; without one, builds the inner service for `(None, target)` now.
   */
  method NewService<T, S>(n: NewDiscover<T, S>, target: T) returns (svc: DiscoverService<T, S>)
    ensures svc.Lazy? <==> n.extractParam(target).Some?
    ensures svc.Lazy? ==>
      && fresh(svc.future)
      && svc.future.lookup == n.extractParam(target).value
      && svc.future.target == Some(target)
      && svc.future.newService == n.inner
    ensures svc.Eager? ==> svc.svc == n.inner(None, target)
  {
    match n.extractParam(target)
    case Some(l) =>
      var f := new MakeFuture(l, target, n.inner);
      svc := Lazy(f);
    case None =>
      svc := Eager(n.inner(None, target));
  }

  /**
   * What the stack ends up with for one target, given the outcome of its lookup: the inner
   * service for `(None, target)` when the target names no address, otherwise the inner
   * service built from the lookup's result and the very same target, or the lookup's error.
   */
  method Discover<T, S, E>(n: NewDiscover<T, S>, target: T, outcome: Result<Option<Receiver>, E>) returns (r: Result<S, E>)
    ensures n.extractParam(target).None? ==> r == Success(n.inner(None, target))
    ensures n.extractParam(target).Some? && outcome.Success? ==> r == Success(n.inner(outcome.value, target))
    ensures n.extractParam(target).Some? && outcome.Failure? ==> r == Failure(outcome.error)
  {
    var svc := NewService(n, target);
    match svc
    case Eager(s) =>
      r := Success(s);
    case Lazy(f) =>
      var p := f.Poll(Ready(outcome));
      r := p.value;
  }

  /**
   * Discovery over the profile client: a lookup that succeeded builds the inner service with
   * the receiver carrying the cache handle, one that failed builds it with no profile. The
   * client's error type is uninhabited, so the lookup itself never fails.
   */
  method DiscoverWithClient<T, S>(n: NewDiscover<T, S>, target: T, c: ProfileClient.Client,
                                  cached: (ProfileClient.WatchService, ProfileClient.Handle),
                                  watch: Result<ProfileClient.WatchRx, ProfileClient.Status>)
    returns (svc: S)
    ensures n.extractParam(target).None? ==> svc == n.inner(None, target)
    ensures n.extractParam(target).Some? && watch.Success? ==>
      svc == n.inner(Some(ProfileClient.Receiver(watch.value, cached.1)), target)
    ensures n.extractParam(target).Some? && watch.Failure? ==> svc == n.inner(None, target)
  {
    match n.extractParam(target)
    case None =>
      var r := Discover<T, S, ()>(n, target, Success(None));
      svc := r.value;
    case Some(l) =>
      var rx := ProfileClient.LookupOnce(c, l, cached, watch);
      var r := Discover<T, S, ()>(n, target, Success(rx));
      svc := r.value;
  }
}
