/**
 * The server-side dispatcher: the same tool names as the client dispatcher,
 * but it only reads the marker list it is given and returns the data the
 * client should apply.
 */
module ServerExecutor {
  import opened Wrappers
  import opened Text
  import opened Types
  import opened ToolCatalog
  import opened ToolExecutor

  /** The record a successful `add_marker` returns: fresh id, defaults for text, `CP` always empty. */
  function ServerEntry(id: MarkerId, args: Args): (e: PartialLocation)
    ensures e.id == Some(id) && e.name == Some(args.name)
    ensures e.coordinates == Some(Coordinates(args.latitude, args.longitude))
    ensures e.address == Some(OrDefault(args.address, "")) && e.description == Some(OrDefault(args.description, ""))
    ensures e.cp == Some("") && e.group.None? && e.tags.None?
  {
    PartialLocation(Some(id), Some(args.name), Some(OrDefault(args.description, "")),
                    Some(OrDefault(args.address, "")), Some(""),
                    Some(Coordinates(args.latitude, args.longitude)), None, None)
  }

  /** `zoom || undefined`: a zero zoom is dropped. */
  function TruthyZoom(zoom: Option<real>): (z: Option<real>)
    ensures z.Some? <==> zoom.Some? && zoom.value != 0.0
    ensures z.Some? ==> z == zoom
  {
    if zoom.Some? && zoom.value != 0.0 then zoom else None
  }

  /**
   * `executeServerAction`. `freshId` is the id generated for an added marker;
   * `geocode` is the reply of the place search.
   */
  function ExecuteServerAction(toolName: string, args: Args, currentMarkers: seq<Location>,
                               freshId: MarkerId, geocode: Option<seq<Place>>): (r: ToolResult)
    ensures r.success <==> r.error.None?
    ensures !r.success ==> r.data.None? && r.message.None?
    ensures r.success ==> r.message.Some?
  {
    if toolName == AddMarkerTool then
      if LatitudeOutOfRange(args.latitude) then Failure(InvalidLatitude)
      else if LongitudeOutOfRange(args.longitude) then Failure(InvalidLongitude)
      else ToolResult(true, Some(NewMarker(ServerEntry(freshId, args))), None,
                      Some(MarkerCreated(args.name, args.latitude, args.longitude)))
    else if toolName == RemoveMarkerTool then
      if !HasId(currentMarkers, args.markerId) then Failure(MarkerNotFound)
      else ToolResult(true, Some(RemovedId(args.markerId)), None, Some(MarkerRemoved))
    else if toolName == ListMarkersTool then
      ToolResult(true, Some(MarkerList(currentMarkers)), None, Some(MarkersFound(|currentMarkers|)))
    else if toolName == CenterMapTool then
      ToolResult(true, Some(CenterTarget(args.latitude, args.longitude, TruthyZoom(args.zoom))), None,
                 Some(MapCentered(args.latitude, args.longitude)))
    else if toolName == SearchLocationTool then
      SearchOutcome(args.query, geocode)
    else
      Failure(UnknownTool(toolName))
  }

  /** The coordinate checks: latitude first, then longitude, each a failure of its own. */
  lemma AddMarkerRangeChecks(args: Args, ms: seq<Location>, id: MarkerId, g: Option<seq<Place>>)
    ensures LatitudeOutOfRange(args.latitude) ==>
      ExecuteServerAction(AddMarkerTool, args, ms, id, g) == Failure(InvalidLatitude)
    ensures !LatitudeOutOfRange(args.latitude) && LongitudeOutOfRange(args.longitude) ==>
      ExecuteServerAction(AddMarkerTool, args, ms, id, g) == Failure(InvalidLongitude)
    ensures ExecuteServerAction(AddMarkerTool, args, ms, id, g).success <==>
      -90.0 <= args.latitude <= 90.0 && -180.0 <= args.longitude <= 180.0
  {
  }

  /** A created marker carries the fresh id and the coordinates; a postal code argument never reaches it. */
  lemma AddMarkerDropsPostalCode(args: Args, ms: seq<Location>, id: MarkerId, g: Option<seq<Place>>)
    requires !LatitudeOutOfRange(args.latitude) && !LongitudeOutOfRange(args.longitude)
    ensures var r := ExecuteServerAction(AddMarkerTool, args, ms, id, g);
      r.success && r.data.Some? && r.data.value.NewMarker?
      && r.data.value.entry.id == Some(id)
      && r.data.value.entry.coordinates == Some(Coordinates(args.latitude, args.longitude))
      && r.data.value.entry.cp == Some("")
      && r.data.value.entry == ServerEntry(id, args.(cp := None))
  {
  }

  /** `remove_marker` succeeds iff a given marker has the id, and then echoes the id. */
  lemma RemoveMarkerIffPresent(args: Args, ms: seq<Location>, id: MarkerId, g: Option<seq<Place>>)
    ensures var r := ExecuteServerAction(RemoveMarkerTool, args, ms, id, g);
      (r.success <==> exists i :: 0 <= i < |ms| && ms[i].id == args.markerId)
      && (r.success ==> r.data == Some(RemovedId(args.markerId)))
      && (!r.success ==> r == Failure(MarkerNotFound))
  {
  }

  /** `list_markers` always succeeds with the markers it was given. */
  lemma ListMarkersEchoes(args: Args, ms: seq<Location>, id: MarkerId, g: Option<seq<Place>>)
    ensures var r := ExecuteServerAction(ListMarkersTool, args, ms, id, g);
      r.success && r.data == Some(MarkerList(ms)) && r.message == Some(MarkersFound(|ms|))
  {
  }

  /** `center_map` accepts any coordinates and turns a zero zoom into no zoom. */
  lemma CenterMapEchoes(args: Args, ms: seq<Location>, id: MarkerId, g: Option<seq<Place>>)
    ensures var r := ExecuteServerAction(CenterMapTool, args, ms, id, g);
      r.success && r.data.Some? && r.data.value.CenterTarget?
      && r.data.value.latitude == args.latitude && r.data.value.longitude == args.longitude
      && (args.zoom == Some(0.0) ==> r.data.value.zoom.None?)
      && (args.zoom.Some? && args.zoom.value != 0.0 ==> r.data.value.zoom == args.zoom)
  {
  }

  /** Names outside the dispatch table fail as unknown, whatever else is given. */
  lemma UnknownToolsFail(toolName: string, args: Args, ms: seq<Location>, id: MarkerId, g: Option<seq<Place>>)
    requires !Dispatched(toolName)
    ensures ExecuteServerAction(toolName, args, ms, id, g) == Failure(UnknownTool(toolName))
  {
  }

  /** The catalog's `search_web` and `modify_location` are rejected as unknown. */
  lemma DeclaredButUnknown(args: Args, ms: seq<Location>, id: MarkerId, g: Option<seq<Place>>)
    ensures ExecuteServerAction(SearchWebTool, args, ms, id, g) == Failure(UnknownTool(SearchWebTool))
    ensures ExecuteServerAction(ModifyLocationTool, args, ms, id, g) == Failure(UnknownTool(ModifyLocationTool))
  {
    assert !Dispatched(SearchWebTool) && !Dispatched(ModifyLocationTool) by {
      assert SearchWebTool[2] != AddMarkerTool[2] && SearchWebTool[2] != CenterMapTool[2];
      assert |ModifyLocationTool| == 15 && ModifyLocationTool[0] != SearchLocationTool[0];
    }
  }

  /**
   * The marker list is only read: an id added earlier in the same turn is not
   * in it, so removing that id right after adding it fails.
   */
  lemma RemoveAfterAddInSameTurnFails(add: Args, remove: Args, ms: seq<Location>, id: MarkerId, g: Option<seq<Place>>)
    requires !LatitudeOutOfRange(add.latitude) && !LongitudeOutOfRange(add.longitude)
    requires !HasId(ms, id) && remove.markerId == id
    ensures ExecuteServerAction(AddMarkerTool, add, ms, id, g).success
    ensures ExecuteServerAction(RemoveMarkerTool, remove, ms, id, g) == Failure(MarkerNotFound)
  {
  }

  /**
   * The server and the client dispatcher accept and reject the same calls
   * with the same errors; they differ only in the data and message of a success.
   */
  lemma ClientServerAgree(toolName: string, args: Args, ms: seq<Location>, storeId: MarkerId, serverId: MarkerId,
                          g: Option<seq<Place>>)
    ensures ClientResult(toolName, args, ms, storeId, g).success == ExecuteServerAction(toolName, args, ms, serverId, g).success
    ensures ClientResult(toolName, args, ms, storeId, g).error == ExecuteServerAction(toolName, args, ms, serverId, g).error
  {
  }
}
