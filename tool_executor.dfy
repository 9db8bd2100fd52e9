/**
 * The client-side dispatcher: runs one tool call against the map actions and
 * wraps the outcome in a result envelope. Coordinates are validated before any
 * action runs; names outside the dispatch table, including two that the
 * catalog itself declares, are reported as unknown.
 */
module ToolExecutor {
  import opened Wrappers
  import opened Types
  import opened StoreApi
  import opened ToastStore
  import opened ToolCatalog
  import opened ChatActions

  /** The names the dispatchers handle. */
  predicate Dispatched(toolName: string)
  {
    toolName in {AddMarkerTool, RemoveMarkerTool, ListMarkersTool, CenterMapTool, SearchLocationTool}
  }

  /** Of the seven catalog tools, exactly `search_web` and `modify_location` are not dispatched. */
  lemma UndispatchedCatalogTools()
    ensures forall i :: 0 <= i < |AvailableTools| ==>
      (!Dispatched(AvailableTools[i].name) <==> AvailableTools[i].name in {SearchWebTool, ModifyLocationTool})
  {
    CatalogNames();
    assert forall i :: 0 <= i < |AvailableTools| ==> AvailableTools[i].name == ToolNames(AvailableTools)[i];
  }

  /** The outcome of a geocoding lookup: a failure on a missing or empty reply, else its first hit. */
  function SearchOutcome(query: string, reply: Option<seq<Place>>): (r: ToolResult)
    ensures r.success <==> reply.Some? && |reply.value| > 0
    ensures !r.success ==> r == Failure(NoResults(query))
    ensures r.success ==> r.data == Some(FoundPlace(reply.value[0]))
    ensures r.success ==> r.message == Some(LocationFound(reply.value[0].displayName))
  {
    if reply.None? || |reply.value| == 0 then Failure(NoResults(query))
    else ToolResult(true, Some(FoundPlace(reply.value[0])), None, Some(LocationFound(reply.value[0].displayName)))
  }

  /** What `executeTool` answers, given the captured markers and the id the store hands out. */
  function ClientResult(toolName: string, args: Args, markers: seq<Location>, storeId: MarkerId,
                        geocode: Option<seq<Place>>): (r: ToolResult)
    ensures r.success <==> r.error.None?
    ensures toolName == AddMarkerTool ==>
      (r.success <==> -90.0 <= args.latitude <= 90.0 && -180.0 <= args.longitude <= 180.0)
    ensures toolName == AddMarkerTool && LatitudeOutOfRange(args.latitude) ==> r.error == Some(InvalidLatitude)
    ensures toolName == AddMarkerTool && !LatitudeOutOfRange(args.latitude) && LongitudeOutOfRange(args.longitude) ==>
      r.error == Some(InvalidLongitude)
    ensures toolName == AddMarkerTool && r.success ==>
      r.data.Some? && r.data.value.AddedMarker? && r.data.value.markerId == storeId
    ensures toolName == RemoveMarkerTool ==> (r.success <==> HasId(markers, args.markerId))
    ensures toolName == RemoveMarkerTool && !HasId(markers, args.markerId) ==> r.error == Some(MarkerNotFound)
    ensures toolName in {ListMarkersTool, CenterMapTool} ==> r.success
    ensures toolName == ListMarkersTool ==> r.data == Some(MarkerList(markers))
    ensures !Dispatched(toolName) ==> r == Failure(UnknownTool(toolName))
  {
    if toolName == AddMarkerTool then
      if LatitudeOutOfRange(args.latitude) then Failure(InvalidLatitude)
      else if LongitudeOutOfRange(args.longitude) then Failure(InvalidLongitude)
      else ToolResult(true,
             Some(AddedMarker(storeId, args.name, args.latitude, args.longitude, args.address, args.description, args.cp)),
             None, Some(MarkerAdded(args.name, args.latitude, args.longitude)))
    else if toolName == RemoveMarkerTool then
      if HasId(markers, args.markerId) then ToolResult(true, None, None, Some(MarkerRemoved))
      else Failure(MarkerNotFound)
    else if toolName == ListMarkersTool then
      ToolResult(true, Some(MarkerList(markers)), None, Some(MarkersFound(|markers|)))
    else if toolName == CenterMapTool then
      ToolResult(true, None, None, Some(MapCentered(args.latitude, args.longitude)))
    else if toolName == SearchLocationTool then
      SearchOutcome(args.query, geocode)
    else
      Failure(UnknownTool(toolName))
  }

  /** The store calls `executeTool` makes through the actions. */
  function ClientCalls(toolName: string, args: Args, markers: seq<Location>): (calls: seq<StoreCall>)
  {
    if toolName == AddMarkerTool && !LatitudeOutOfRange(args.latitude) && !LongitudeOutOfRange(args.longitude) then
      [AddCall(NewEntry(args.name, args.latitude, args.longitude, args.address, args.description))]
    else if toolName == RemoveMarkerTool && HasId(markers, args.markerId) then [RemoveCall(args.markerId)]
    else if toolName == CenterMapTool then CenterCalls(args.latitude, args.longitude, args.zoom)
    else []
  }

  /** The toasts `executeTool` raises through the actions. */
  function ClientToasts(toolName: string, args: Args, markers: seq<Location>): (toasts: seq<ToastInput>)
  {
    if toolName == AddMarkerTool && !LatitudeOutOfRange(args.latitude) && !LongitudeOutOfRange(args.longitude) then
      [AddedToast(args.name)]
    else if toolName == RemoveMarkerTool && HasId(markers, args.markerId) then
      [RemovedToast(FindById(markers, args.markerId).value.name)]
    else if toolName == CenterMapTool then [CenteredToast]
    else []
  }

  /**
   * A failed call leaves the store alone; a successful one makes at most one
   * change and at most one toast, except a centring, which may also zoom.
   */
  lemma ClientEffectsOnSuccessOnly(toolName: string, args: Args, markers: seq<Location>, storeId: MarkerId,
                                   geocode: Option<seq<Place>>)
    ensures !ClientResult(toolName, args, markers, storeId, geocode).success ==>
      ClientCalls(toolName, args, markers) == [] && ClientToasts(toolName, args, markers) == []
    ensures |ClientToasts(toolName, args, markers)| <= 1
    ensures |ClientCalls(toolName, args, markers)| <= if toolName == CenterMapTool then 2 else 1
    ensures CountAdds(ClientCalls(toolName, args, markers)) == 1 <==>
      toolName == AddMarkerTool && ClientResult(toolName, args, markers, storeId, geocode).success
  {
    var calls := ClientCalls(toolName, args, markers);
    if toolName == CenterMapTool {
      assert CountAdds(calls) == CountAdds(calls[1..]);
    }
  }

  /**
   * `executeTool`. `storeId` is the id the store hands out if a marker is
   * added; `geocode` is the reply of the place search if one is made.
   */
  method ExecuteTool(toolName: string, args: Args, context: ChatActionsContext, storeId: MarkerId,
                     geocode: Option<seq<Place>>)
    returns (r: ToolResult)
    modifies context.store
    ensures r == ClientResult(toolName, args, context.markers, storeId, geocode)
    ensures context.store.calls == old(context.store.calls) + ClientCalls(toolName, args, context.markers)
    ensures context.store.toasts == old(context.store.toasts) + ClientToasts(toolName, args, context.markers)
  {
    if toolName == AddMarkerTool {
      if LatitudeOutOfRange(args.latitude) {
        return Failure(InvalidLatitude);
      }
      if LongitudeOutOfRange(args.longitude) {
        return Failure(InvalidLongitude);
      }
      var markerId := context.AddMarker(args.name, args.latitude, args.longitude, args.address,
                                        args.description, args.cp, storeId);
      r := ToolResult(true,
             Some(AddedMarker(markerId, args.name, args.latitude, args.longitude, args.address, args.description, args.cp)),
             None, Some(MarkerAdded(args.name, args.latitude, args.longitude)));
    } else if toolName == RemoveMarkerTool {
      var found := context.RemoveMarker(args.markerId);
      if !found {
        return Failure(MarkerNotFound);
      }
      r := ToolResult(true, None, None, Some(MarkerRemoved));
    } else if toolName == ListMarkersTool {
      var markers := context.ListMarkers();
      r := ToolResult(true, Some(MarkerList(markers)), None, Some(MarkersFound(|markers|)));
    } else if toolName == CenterMapTool {
      context.CenterMap(args.latitude, args.longitude, args.zoom);
      r := ToolResult(true, None, None, Some(MapCentered(args.latitude, args.longitude)));
    } else if toolName == SearchLocationTool {
      r := SearchOutcome(args.query, geocode);
    } else {
      r := Failure(UnknownTool(toolName));
    }
  }
}
