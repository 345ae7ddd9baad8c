/** Every run of the bridge. */
module BridgeCalls {
  import opened Wrappers
  import opened Bridge

  datatype Event =
    | Notify(notification: OuterNotification)
    | Start(throws: bool)
    | Fail(terminate: bool)
    | Restart(handle: string)
    | Enqueue(call: Call)
    | Reply(id: RequestId)
    | Send(rpcMethod: string, params: Params)
    | LookedUp(thread: string, owner: Owner)
    | Choose(model: Option<string>)
    | ChooseAccount(account: Option<string>)
    | Discard

  /** What every event does: nothing seen or done is taken back. */
  twostate predicate Onward(b: PolicyBridge)
    reads b
  {
    old(b.trace) <= b.trace && old(b.sightings) <= b.sightings && old(b.used) <= b.used
  }

  /** Restarts happen under handles that have not been used. */
  ghost predicate FreshHandles(events: seq<Event>, used: set<string>) {
    forall i :: 0 <= i < |events| && events[i].Restart? ==>
      && events[i].handle !in used
      && forall j :: 0 <= j < i && events[j].Restart? ==> events[j].handle != events[i].handle
  }

  method Perform(b: PolicyBridge, e: Event)
    requires b.Valid() && (e.Restart? ==> e.handle !in b.used)
    modifies b
    ensures b.Valid() && Onward(b) && (forall h :: h in b.used ==> h in old(b.used) || e == Restart(h))
  {
    hide PolicyBridge.Valid, Failures, FramesOf, ForExternalAccount, Known, SetCall, FILENAME_CHARACTERS;
    match e {
      case Notify(notification) => var consumed := b.HandleOuterNotification(notification);
      case Start(throws) => b.StartBridge(throws);
      case Fail(terminate) => b.FailBridge(terminate);
      case Restart(handle) => b.ResetFailedBridge(handle);
      case Enqueue(call) => b.EnqueueBridgeRequest(call);
      case Reply(id) => b.DispatchAppServerResponse(id);
      case Send(rpcMethod, params) => var transport, routed := b.RoutedSend(rpcMethod, params);
      case LookedUp(thread, owner) => b.Learn(thread, owner);
      case Choose(model) => var r := b.Select(model);
      case ChooseAccount(account) => var r := b.SelectAccount(account);
      case Discard => b.Dispose();
    }
  }

  method PerformAll(b: PolicyBridge, events: seq<Event>)
    requires b.Valid() && FreshHandles(events, b.used)
    modifies b
    ensures b.Valid() && Onward(b)
  {
    hide PolicyBridge.Valid;
    for k := 0 to |events|
      invariant b.Valid() && Onward(b)
      invariant forall h :: h in b.used ==> h in old(b.used) || exists i :: 0 <= i < k && events[i] == Restart(h)
    {
      Perform(b, events[k]);
    }
  }

  /** Over any run that teaches nothing contrary about a thread known as one owner's, every request on the
      thread, a turn or a review of it goes on travelling as that owner's. */
  method RouteHolds(b: PolicyBridge, events: seq<Event>, k: nat, rpcMethod: string, params: Params)
    requires b.Valid() && FreshHandles(events, b.used) && b.remote
    requires "thread/" <= rpcMethod || "turn/" <= rpcMethod || "review/" <= rpcMethod
    requires rpcMethod != "thread/list" && rpcMethod != "thread/start"
    requires k < |b.sightings| && b.sightings[k].Seen? && ThreadOf(params) == Some(b.sightings[k].thread)
    modifies b
    ensures b.Valid() && Onward(b)
    ensures Undisturbed(b.sightings, b.sightings[k].thread, k + 1, b.sightings[k].owner) ==>
              b.Route(rpcMethod, params) == if old(b.sightings)[k].owner.External? then Bridged else Direct
  {
    hide PolicyBridge.Valid, Undisturbed;
    PerformAll(b, events);
    if Undisturbed(b.sightings, b.sightings[k].thread, k + 1, b.sightings[k].owner) {
      RoutedByLastSighting(b, rpcMethod, params, k);
    }
  }
}
