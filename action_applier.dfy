/**
 * The client hook that applies the server dispatcher's results to the
 * location store: one action at a time, counting how many were applied and
 * how many were rejected.
 */
module ActionApplier {
  import opened Wrappers
  import opened Types
  import opened ToastStore
  import opened StoreApi
  import opened ToolCatalog
  import opened ToolExecutor
  import opened ChatActions
  import opened ServerExecutor

  /**
   * The shape the hook assumes of a successful result's data: a full record
   * for `add_marker`, an id for `remove_marker`, a target for `center_map`.
   */
  predicate ServerShaped(toolName: string, result: ToolResult)
  {
    result.success ==>
      (toolName == AddMarkerTool ==> result.data.Some? && result.data.value.NewMarker?)
      && (toolName == RemoveMarkerTool ==> result.data.Some? && result.data.value.RemovedId?)
      && (toolName == CenterMapTool ==> result.data.Some? && result.data.value.CenterTarget?)
  }

  predicate AllShaped(actions: seq<ToolUse>)
  {
    forall i :: 0 <= i < |actions| ==> ServerShaped(actions[i].name, actions[i].result)
  }

  /** Whether the hook reports the action as applied: a success of one of the five routed tools. */
  predicate Applied(toolName: string, result: ToolResult)
  {
    result.success && Dispatched(toolName)
  }

  /** The text a template literal shows for an absent name. */
  function NameText(name: Option<string>): (t: string)
    ensures name.Some? ==> t == name.value
    ensures name.None? ==> t == "undefined"
  {
    if name.Some? then name.value else "undefined"
  }

  /** The error text, or the fallback when there is none. */
  function FailureMessage(error: Option<ToolError>): (m: string)
    ensures error.Some? ==> m == ErrorText(error.value)
    ensures error.None? ==> m == "Error al ejecutar acción"
    ensures m != ""
  {
    if error.Some? then (TextsNonEmpty(error.value, MarkerRemoved, NumberFormat(x => "", x => "")); ErrorText(error.value))
    else "Error al ejecutar acción"
  }

  /** The store calls one action makes. */
  function ActionCalls(toolName: string, result: ToolResult): (calls: seq<StoreCall>)
    requires ServerShaped(toolName, result)
    ensures calls != [] ==> Applied(toolName, result)
    ensures |calls| <= 2
    ensures result.success && toolName == AddMarkerTool ==> calls == [AddCall(result.data.value.entry)]
    ensures result.success && toolName == RemoveMarkerTool ==> calls == [RemoveCall(result.data.value.id)]
    ensures result.success && toolName == CenterMapTool ==>
      calls == CenterCalls(result.data.value.latitude, result.data.value.longitude, result.data.value.zoom)
    ensures toolName != AddMarkerTool && toolName != RemoveMarkerTool && toolName != CenterMapTool ==> calls == []
  {
    if !result.success then []
    else if toolName == AddMarkerTool then [AddCall(result.data.value.entry)]
    else if toolName == RemoveMarkerTool then [RemoveCall(result.data.value.id)]
    else if toolName == CenterMapTool then
      CenterCalls(result.data.value.latitude, result.data.value.longitude, result.data.value.zoom)
    else []
  }

  /** The toasts one action raises: an error toast for every failure, one per state change otherwise. */
  function ActionToasts(toolName: string, result: ToolResult): (toasts: seq<ToastInput>)
    requires ServerShaped(toolName, result)
    ensures !result.success ==> toasts == [ToastInput(Error, FailureMessage(result.error), Some(5000), None)]
    ensures result.success ==> (toasts != [] <==> toolName == AddMarkerTool || toolName == RemoveMarkerTool || toolName == CenterMapTool)
    ensures |toasts| <= 1
  {
    if !result.success then [ToastInput(Error, FailureMessage(result.error), Some(5000), None)]
    else if toolName == AddMarkerTool then
      [ToastInput(Success, Robot + " IA agregó: " + NameText(result.data.value.entry.name), Some(3000), None)]
    else if toolName == RemoveMarkerTool then [ToastInput(Info, Robot + " IA eliminó marcador", Some(3000), None)]
    else if toolName == CenterMapTool then [CenteredToast]
    else []
  }

  /** `processAction`. */
  method ProcessAction(store: StoreClient, toolName: string, result: ToolResult) returns (ok: bool)
    requires ServerShaped(toolName, result)
    modifies store
    ensures ok == Applied(toolName, result)
    ensures store.calls == old(store.calls) + ActionCalls(toolName, result)
    ensures store.toasts == old(store.toasts) + ActionToasts(toolName, result)
  {
    if !result.success {
      store.Toast(ToastInput(Error, FailureMessage(result.error), Some(5000), None));
      return false;
    }
    if toolName == AddMarkerTool {
      var entry := result.data.value.entry;
      store.Call(AddCall(entry));
      store.Toast(ToastInput(Success, Robot + " IA agregó: " + NameText(entry.name), Some(3000), None));
      ok := true;
    } else if toolName == RemoveMarkerTool {
      store.Call(RemoveCall(result.data.value.id));
      store.Toast(ToastInput(Info, Robot + " IA eliminó marcador", Some(3000), None));
      ok := true;
    } else if toolName == CenterMapTool {
      var target := result.data.value;
      store.Call(SetCenterCall(target.latitude, target.longitude));
      if target.zoom.Some? {
        store.Call(SetZoomCall(target.zoom.value));
      }
      store.Toast(CenteredToast);
      ok := true;
    } else if toolName == ListMarkersTool || toolName == SearchLocationTool {
      ok := true;
    } else {
      ok := false;
    }
  }

  /** All store calls of a batch, in order. */
  function AllCalls(actions: seq<ToolUse>): (calls: seq<StoreCall>)
    requires AllShaped(actions)
    ensures |calls| <= 2 * |actions|
  {
    if actions == [] then []
    else
      var last := actions[|actions| - 1];
      AllCalls(actions[..|actions| - 1]) + ActionCalls(last.name, last.result)
  }

  function AllToasts(actions: seq<ToolUse>): (toasts: seq<ToastInput>)
    requires AllShaped(actions)
    ensures |toasts| <= |actions|
  {
    if actions == [] then []
    else
      var last := actions[|actions| - 1];
      AllToasts(actions[..|actions| - 1]) + ActionToasts(last.name, last.result)
  }

  /** How many actions of a batch are applied. */
  function CountApplied(actions: seq<ToolUse>): (n: nat)
    ensures n <= |actions|
  {
    if actions == [] then 0
    else
      var last := actions[|actions| - 1];
      CountApplied(actions[..|actions| - 1]) + (if Applied(last.name, last.result) then 1 else 0)
  }

  /** One more action extends each of the batch summaries by that action's part. */
  lemma PrefixStep(actions: seq<ToolUse>, i: nat)
    requires AllShaped(actions) && i < |actions|
    ensures AllShaped(actions[..i]) && AllShaped(actions[..i + 1])
    ensures AllCalls(actions[..i + 1]) == AllCalls(actions[..i]) + ActionCalls(actions[i].name, actions[i].result)
    ensures AllToasts(actions[..i + 1]) == AllToasts(actions[..i]) + ActionToasts(actions[i].name, actions[i].result)
    ensures CountApplied(actions[..i + 1]) == CountApplied(actions[..i]) + (if Applied(actions[i].name, actions[i].result) then 1 else 0)
  {
    assert actions[..i + 1][..i] == actions[..i];
  }

  /** The loop's bookkeeping: a log holding a prefix's entries, extended by one step, holds the longer prefix's. */
  lemma AppendLog<T>(log0: seq<T>, log: seq<T>, prefix: seq<T>, step: seq<T>, longer: seq<T>)
    requires log == log0 + prefix && longer == prefix + step
    ensures log + step == log0 + longer
  {
  }

  /** `processServerActions`: every action is processed, in order; the batch succeeds iff none failed. */
  method ProcessServerActions(store: StoreClient, actions: seq<ToolUse>) returns (success: bool, processed: nat, failed: nat)
    requires AllShaped(actions)
    modifies store
    ensures processed == CountApplied(actions) && processed + failed == |actions|
    ensures success <==> failed == 0
    ensures store.calls == old(store.calls) + AllCalls(actions)
    ensures store.toasts == old(store.toasts) + AllToasts(actions)
  {
    processed, failed := 0, 0;
    var i := 0;
    while i < |actions|
      invariant 0 <= i <= |actions|
      invariant AllShaped(actions[..i])
      invariant processed == CountApplied(actions[..i]) && processed + failed == i
      invariant store.calls == old(store.calls) + AllCalls(actions[..i])
      invariant store.toasts == old(store.toasts) + AllToasts(actions[..i])
    {
      PrefixStep(actions, i);
      AppendLog(old(store.calls), store.calls, AllCalls(actions[..i]),
                ActionCalls(actions[i].name, actions[i].result), AllCalls(actions[..i + 1]));
      AppendLog(old(store.toasts), store.toasts, AllToasts(actions[..i]),
                ActionToasts(actions[i].name, actions[i].result), AllToasts(actions[..i + 1]));
      var ok := ProcessAction(store, actions[i].name, actions[i].result);
      if ok {
        processed := processed + 1;
      } else {
        failed := failed + 1;
      }
      i := i + 1;
    }
    assert actions[..i] == actions;
    success := failed == 0;
  }

  /** A failed result changes nothing in the store and raises exactly one error toast. */
  lemma FailureOnlyToasts(toolName: string, result: ToolResult)
    requires !result.success
    ensures ServerShaped(toolName, result)
    ensures !Applied(toolName, result) && ActionCalls(toolName, result) == []
    ensures |ActionToasts(toolName, result)| == 1 && ActionToasts(toolName, result)[0].kind == Error
  {
  }

  /** Results of the data-only tools are applied without touching the store. */
  lemma DataOnlyTools(toolName: string, result: ToolResult)
    requires toolName == ListMarkersTool || toolName == SearchLocationTool
    requires result.success
    ensures ServerShaped(toolName, result)
    ensures Applied(toolName, result) && ActionCalls(toolName, result) == [] && ActionToasts(toolName, result) == []
  {
  }

  /** A successful result under a name outside the routing table is rejected silently. */
  lemma UnroutedRejected(toolName: string, result: ToolResult)
    requires !Dispatched(toolName)
    requires result.success
    ensures ServerShaped(toolName, result)
    ensures !Applied(toolName, result) && ActionCalls(toolName, result) == [] && ActionToasts(toolName, result) == []
  {
  }

  /** The batch's effect is the effects of its parts, in order. */
  lemma {:induction false} AllCallsConcat(a: seq<ToolUse>, b: seq<ToolUse>)
    requires AllShaped(a) && AllShaped(b)
    ensures AllShaped(a + b)
    ensures AllCalls(a + b) == AllCalls(a) + AllCalls(b)
    decreases |b|
  {
    if b == [] {
      assert a + b == a;
    } else {
      var b' := b[..|b| - 1];
      assert (a + b)[..|a + b| - 1] == a + b';
      assert (a + b)[|a + b| - 1] == b[|b| - 1];
      AllCallsConcat(a, b');
    }
  }

  /** Applying the same batch twice adds every created marker twice. */
  lemma ReplayDuplicatesAdds(actions: seq<ToolUse>)
    requires AllShaped(actions)
    ensures AllShaped(actions + actions)
    ensures CountAdds(AllCalls(actions + actions)) == 2 * CountAdds(AllCalls(actions))
  {
    AllCallsConcat(actions, actions);
    CountAddsConcat(AllCalls(actions), AllCalls(actions));
  }

  /** Every result of the server dispatcher has the shape the hook assumes. */
  lemma ServerResultsShaped(toolName: string, args: Args, ms: seq<Location>, id: MarkerId, g: Option<seq<Place>>)
    ensures ServerShaped(toolName, ExecuteServerAction(toolName, args, ms, id, g))
  {
  }

  /** A created marker reaches the store exactly as the server built it, under the fresh id. */
  lemma AppliedAddUsesServerId(args: Args, ms: seq<Location>, id: MarkerId, g: Option<seq<Place>>)
    requires !LatitudeOutOfRange(args.latitude) && !LongitudeOutOfRange(args.longitude)
    ensures var r := ExecuteServerAction(AddMarkerTool, args, ms, id, g);
      ServerShaped(AddMarkerTool, r)
      && ActionCalls(AddMarkerTool, r) == [AddCall(ServerEntry(id, args))]
      && ActionToasts(AddMarkerTool, r)[0].message == Robot + " IA agregó: " + args.name
  {
  }

  /**
   * A zero zoom sent through the server only recentres the map, while the
   * client-side `center_map` also sets the zoom to zero.
   */
  lemma ServerDropsZeroZoom(args: Args, ms: seq<Location>, id: MarkerId, g: Option<seq<Place>>)
    requires args.zoom == Some(0.0)
    ensures var r := ExecuteServerAction(CenterMapTool, args, ms, id, g);
      ServerShaped(CenterMapTool, r)
      && ActionCalls(CenterMapTool, r) == [SetCenterCall(args.latitude, args.longitude)]
    ensures CenterCalls(args.latitude, args.longitude, args.zoom)
      == [SetCenterCall(args.latitude, args.longitude), SetZoomCall(0.0)]
  {
  }
}
