/**
 * Waiting for a custom resource definition to be accepted by the Kubernetes API server:
 * the acceptance test on a definition's status, the scan of a watch stream for the first
 * accepted definition, and the errors reported when none arrives before the watch ends.
 * The API server is an input: a watch is given as the events it delivers.
 */
module CrdWatch {
  import opened Wrappers
  import Text

  /** A status condition of a definition. */
  datatype Condition = Condition(conditionType: string, status: string)

  datatype CrdStatus = CrdStatus(conditions: seq<Condition>)

  /** A custom resource definition, by name and optional status. */
  datatype Crd = Crd(name: string, status: Option<CrdStatus>)

  /** Whether a condition says the definition's names were accepted. */
  predicate NamesAccepted(c: Condition)
  {
    c.conditionType == "NamesAccepted" && c.status == "True"
  }

  /** `conditions.iter().any(..)` over the names-accepted test. */
  function AnyNamesAccepted(conditions: seq<Condition>): (b: bool)
    ensures b <==> exists i :: 0 <= i < |conditions| && NamesAccepted(conditions[i])
  {
    if |conditions| == 0 then false
    else if NamesAccepted(conditions[0]) then true
    else
      var rest := AnyNamesAccepted(conditions[1..]);
      assert forall i :: 1 <= i < |conditions| ==> conditions[i] == conditions[1..][i - 1];
      rest
  }

  /** `is_accepted`: some condition says the names were accepted; a definition without status is not accepted. */
  function IsAccepted(crd: Crd): (b: bool)
    ensures crd.status.None? ==> !b
    ensures b <==> crd.status.Some? && exists i :: 0 <= i < |crd.status.value.conditions| && NamesAccepted(crd.status.value.conditions[i])
  {
    match crd.status
    case None => false
    case Some(s) => AnyNamesAccepted(s.conditions)
  }

  /** A watch event on definitions. */
  datatype WatchEvent =
    | Added(crd: Crd)
    | Modified(crd: Crd)
    | Deleted(crd: Crd)
    | Bookmark
    | ErrorEvent(message: string)

  /** The events the scan stops at: an added or modified definition that is accepted. */
  predicate Accepting(ev: WatchEvent)
  {
    (ev.Added? || ev.Modified?) && IsAccepted(ev.crd)
  }

  /**
   * The scan of a watch stream: a stream error ends it with that error, the first accepting
   * event ends it with its definition, every other event is skipped, and a stream that ends
   * gives `None`.
   */
  function Scan<E>(items: seq<Result<WatchEvent, E>>): Result<Option<Crd>, E>
  {
    if |items| == 0 then Success(None)
    else match items[0]
      case Failure(e) => Failure(e)
      case Success(ev) => if Accepting(ev) then Success(Some(ev.crd)) else Scan(items[1..])
  }

  /** Whether an item lets the scan go on: a successfully delivered event that is not accepting. */
  predicate Skipped<E>(item: Result<WatchEvent, E>)
  {
    item.Success? && !Accepting(item.value)
  }

  /** Skipped items before the rest make no difference. */
  lemma {:induction false} ScanSkipsPrefix<E>(skipped: seq<Result<WatchEvent, E>>, rest: seq<Result<WatchEvent, E>>)
    requires forall i :: 0 <= i < |skipped| ==> Skipped(skipped[i])
    ensures Scan(skipped + rest) == Scan(rest)
  {
    if |skipped| == 0 {
      assert skipped + rest == rest;
    } else {
      assert (skipped + rest)[0] == skipped[0];
      assert (skipped + rest)[1..] == skipped[1..] + rest;
      ScanSkipsPrefix(skipped[1..], rest);
    }
  }

  /** The scan gives `None` exactly when every item is a skipped event. */
  lemma {:induction false} ScanNoneIff<E>(items: seq<Result<WatchEvent, E>>)
    ensures Scan(items) == Success(None) <==> forall i :: 0 <= i < |items| ==> Skipped(items[i])
  {
    if |items| > 0 {
      ScanNoneIff(items[1..]);
      assert forall i :: 1 <= i < |items| ==> items[i] == items[1..][i - 1];
    }
  }

  /**
   * A definition the scan returns comes from an accepting event after only skipped ones; an
   * error the scan returns is that of a stream item after only skipped ones.
   */
  lemma {:induction false} ScanResultOrigin<E>(items: seq<Result<WatchEvent, E>>)
    ensures Scan(items).Success? && Scan(items).value.Some? ==>
      exists i :: 0 <= i < |items| && items[i].Success? && Accepting(items[i].value) && items[i].value.crd == Scan(items).value.value
        && forall j :: 0 <= j < i ==> Skipped(items[j])
    ensures Scan(items).Success? && Scan(items).value.Some? ==> IsAccepted(Scan(items).value.value)
    ensures Scan(items).Failure? ==>
      exists i :: 0 <= i < |items| && items[i] == Failure(Scan(items).error) && forall j :: 0 <= j < i ==> Skipped(items[j])
  {
    if |items| > 0 && Skipped(items[0]) {
      var rest := items[1..];
      ScanResultOrigin(rest);
      assert Scan(items) == Scan(rest);
      if Scan(rest).Success? && Scan(rest).value.Some? {
        var i :| 0 <= i < |rest| && rest[i].Success? && Accepting(rest[i].value) && rest[i].value.crd == Scan(rest).value.value
          && forall j :: 0 <= j < i ==> Skipped(rest[j]);
        assert items[i + 1] == rest[i];
        assert forall j :: 0 <= j < i + 1 ==> Skipped(items[j]) by {
          forall j | 0 <= j < i + 1 ensures Skipped(items[j]) {
            if j > 0 { assert items[j] == rest[j - 1]; }
          }
        }
      }
      if Scan(rest).Failure? {
        var i :| 0 <= i < |rest| && rest[i] == Failure(Scan(rest).error) && forall j :: 0 <= j < i ==> Skipped(rest[j]);
        assert items[i + 1] == rest[i];
        assert forall j :: 0 <= j < i + 1 ==> Skipped(items[j]) by {
          forall j | 0 <= j < i + 1 ensures Skipped(items[j]) {
            if j > 0 { assert items[j] == rest[j - 1]; }
          }
        }
      }
    }
  }

  /** The parameters of the watch: a field selector on the name, and the server-side timeout. */
  datatype WatchParams = WatchParams(fieldSelector: string, timeoutSecs: nat)

  type U32 = n: int | 0 <= n < 0x1_0000_0000

  function WatchParamsFor(name: string, timeoutSecs: U32): (p: WatchParams)
    ensures p.timeoutSecs == timeoutSecs
    ensures |p.fieldSelector| >= |"metadata.name="| && p.fieldSelector[|"metadata.name="|..] == name
  {
    WatchParams("metadata.name=" + name, timeoutSecs)
  }

  /**
   * `crd_accepted`: opens a watch on the named definition and scans its events. A failure
   * to open the watch is returned as is.
   */
  method CrdAccepted<E>(name: string, timeoutSecs: U32, watch: WatchParams -> Result<seq<Result<WatchEvent, E>>, E>)
    returns (r: Result<Option<Crd>, E>)
    ensures watch(WatchParamsFor(name, timeoutSecs)).Failure? ==> r == Failure(watch(WatchParamsFor(name, timeoutSecs)).error)
    ensures watch(WatchParamsFor(name, timeoutSecs)).Success? ==> r == Scan(watch(WatchParamsFor(name, timeoutSecs)).value)
  {
    var stream := watch(WatchParamsFor(name, timeoutSecs));
    if stream.Failure? {
      return Failure(stream.error);
    }
    var items := stream.value;
    var i := 0;
    while i < |items|
      invariant 0 <= i <= |items|
      invariant Scan(items) == Scan(items[i..])
    {
      assert items[i..][1..] == items[i + 1..];
      match items[i]
      case Failure(e) =>
        return Failure(e);
      case Success(ev) =>
        if (ev.Added? || ev.Modified?) && IsAccepted(ev.crd) {
          return Success(Some(ev.crd));
        }
      i := i + 1;
    }
    r := Success(None);
  }

  /** The errors of `apply_crd` and `create_crd`: an API error, or a message. */
  datatype Error<E> = Api(error: E) | Message(text: string)

  /** The message `apply_crd` reports (its wording includes a stray "in"). */
  function ApplyNotAcceptedMessage(name: string, timeoutSecs: U32): string
  {
    name + " was not accepted in within " + Text.Decimal(timeoutSecs) + " seconds"
  }

  /** The message `create_crd` reports. */
  function CreateNotAcceptedMessage(name: string, timeoutSecs: U32): string
  {
    name + " was not accepted within " + Text.Decimal(timeoutSecs) + " seconds"
  }

  /** Waits for acceptance, turning a scan that found nothing into the given message. */
  method AwaitAccepted<E>(name: string, timeoutSecs: U32, watch: WatchParams -> Result<seq<Result<WatchEvent, E>>, E>, message: string)
    returns (r: Result<Crd, Error<E>>)
    ensures var w := watch(WatchParamsFor(name, timeoutSecs));
      && (w.Failure? ==> r == Failure(Api(w.error)))
      && (w.Success? && Scan(w.value).Failure? ==> r == Failure(Api(Scan(w.value).error)))
      && (w.Success? && Scan(w.value) == Success(None) ==> r == Failure(Message(message)))
      && (w.Success? && Scan(w.value).Success? && Scan(w.value).value.Some? ==> r == Success(Scan(w.value).value.value))
  {
    var found := CrdAccepted(name, timeoutSecs, watch);
    match found
    case Failure(e) => r := Failure(Api(e));
    case Success(None) => r := Failure(Message(message));
    case Success(Some(crd)) => r := Success(crd);
  }

  /**
   * `apply_crd`: applies the definition under its own name, then waits for it; the apply
   * error, a watch error, or the not-accepted message is returned, or the accepted definition.
   */
  method ApplyCrd<E>(crd: Crd, timeoutSecs: U32, patch: Crd -> Result<(), E>, watch: WatchParams -> Result<seq<Result<WatchEvent, E>>, E>)
    returns (r: Result<Crd, Error<E>>)
    ensures patch(crd).Failure? ==> r == Failure(Api(patch(crd).error))
    ensures patch(crd).Success? ==>
      var w := watch(WatchParamsFor(crd.name, timeoutSecs));
      && (w.Failure? ==> r == Failure(Api(w.error)))
      && (w.Success? && Scan(w.value).Failure? ==> r == Failure(Api(Scan(w.value).error)))
      && (w.Success? && Scan(w.value) == Success(None) ==> r == Failure(Message(ApplyNotAcceptedMessage(crd.name, timeoutSecs))))
      && (w.Success? && Scan(w.value).Success? && Scan(w.value).value.Some? ==> r == Success(Scan(w.value).value.value))
    ensures r.Success? ==> IsAccepted(r.value)
  {
    var applied := patch(crd);
    if applied.Failure? {
      return Failure(Api(applied.error));
    }
    ghost var w := watch(WatchParamsFor(crd.name, timeoutSecs));
    if w.Success? {
      ScanResultOrigin(w.value);
    }
    r := AwaitAccepted(crd.name, timeoutSecs, watch, ApplyNotAcceptedMessage(crd.name, timeoutSecs));
  }

  /**
   * `create_crd`: creates the definition and waits for the one the server created, under
   * the name the server reports back.
   */
  method CreateCrd<E>(crd: Crd, timeoutSecs: U32, create: Crd -> Result<Crd, E>, watch: WatchParams -> Result<seq<Result<WatchEvent, E>>, E>)
    returns (r: Result<Crd, Error<E>>)
    ensures create(crd).Failure? ==> r == Failure(Api(create(crd).error))
    ensures create(crd).Success? ==>
      var name := create(crd).value.name;
      var w := watch(WatchParamsFor(name, timeoutSecs));
      && (w.Failure? ==> r == Failure(Api(w.error)))
      && (w.Success? && Scan(w.value).Failure? ==> r == Failure(Api(Scan(w.value).error)))
      && (w.Success? && Scan(w.value) == Success(None) ==> r == Failure(Message(CreateNotAcceptedMessage(name, timeoutSecs))))
      && (w.Success? && Scan(w.value).Success? && Scan(w.value).value.Some? ==> r == Success(Scan(w.value).value.value))
    ensures r.Success? ==> IsAccepted(r.value)
  {
    var created := create(crd);
    if created.Failure? {
      return Failure(Api(created.error));
    }
    var name := created.value.name;
    ghost var w := watch(WatchParamsFor(name, timeoutSecs));
    if w.Success? {
      ScanResultOrigin(w.value);
    }
    r := AwaitAccepted(name, timeoutSecs, watch, CreateNotAcceptedMessage(name, timeoutSecs));
  }

  /** The two not-accepted messages differ, and each names the definition and the timeout. */
  lemma NotAcceptedMessages(name: string, timeoutSecs: U32)
    ensures ApplyNotAcceptedMessage(name, timeoutSecs) != CreateNotAcceptedMessage(name, timeoutSecs)
    ensures ApplyNotAcceptedMessage(name, timeoutSecs)[..|name|] == name
    ensures CreateNotAcceptedMessage(name, timeoutSecs)[..|name|] == name
  {
    var a := ApplyNotAcceptedMessage(name, timeoutSecs);
    var c := CreateNotAcceptedMessage(name, timeoutSecs);
    assert a[|name| + 18] == 'i' && c[|name| + 18] == 'w';
  }
}
