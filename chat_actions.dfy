/**
 * The map actions handed to the client-side tool executor. Each wrapper calls
 * the store and raises a toast; `removeMarker` and `updateMarker` first look the
 * id up in the marker list captured when the callbacks were created.
 */
module ChatActions {
  import opened Wrappers
  import opened Text
  import opened Types
  import opened ToastStore
  import opened StoreApi

  const Robot: string := "\U{1F916}"

  /** The record `addMarker` hands to the store: no id, no group, `CP` always empty. */
  function NewEntry(name: string, lat: real, lng: real, address: Option<string>, description: Option<string>): (e: PartialLocation)
    ensures e.id.None? && e.group.None? && e.tags.None?
    ensures e.name == Some(name) && e.coordinates == Some(Coordinates(lat, lng))
    ensures e.cp == Some("")
    ensures e.address == Some(OrDefault(address, "")) && e.description == Some(OrDefault(description, ""))
  {
    PartialLocation(None, Some(name), Some(OrDefault(description, "")), Some(OrDefault(address, "")),
                    Some(""), Some(Coordinates(lat, lng)), None, None)
  }

  function AddedToast(name: string): ToastInput
  {
    ToastInput(Success, Robot + " IA agregó: " + name, Some(3000), None)
  }

  function RemovedToast(name: string): ToastInput
  {
    ToastInput(Info, Robot + " IA eliminó: " + name, Some(3000), None)
  }

  function UpdatedToast(name: string): ToastInput
  {
    ToastInput(Success, Robot + " IA actualizó: " + name, Some(3000), None)
  }

  const CenteredToast: ToastInput := ToastInput(Info, Robot + " IA centró el mapa", Some(2000), None)

  /** The store calls `centerMap` makes: the centre always, the zoom iff it is given. */
  function CenterCalls(lat: real, lng: real, zoom: Option<real>): (calls: seq<StoreCall>)
    ensures |calls| >= 1 && calls[0] == SetCenterCall(lat, lng)
    ensures zoom.Some? <==> |calls| == 2
    ensures zoom.Some? ==> calls[1] == SetZoomCall(zoom.value)
  {
    [SetCenterCall(lat, lng)] + (if zoom.Some? then [SetZoomCall(zoom.value)] else [])
  }

  class ChatActionsContext {
    /** The store's markers at the time the callbacks were created; the callbacks never refresh it. */
    const markers: seq<Location>
    const store: StoreClient

    constructor(markers: seq<Location>, store: StoreClient)
      ensures this.markers == markers && this.store == store
    {
      this.markers := markers;
      this.store := store;
    }

    /**
     * Adds a marker through the store and returns the id the store gave it
     * (`storeId`). A postal code argument is accepted and ignored.
     */
    method AddMarker(name: string, lat: real, lng: real, address: Option<string>, description: Option<string>,
                     cp: Option<string>, storeId: MarkerId)
      returns (id: MarkerId)
      modifies store
      ensures id == storeId
      ensures store.calls == old(store.calls) + [AddCall(NewEntry(name, lat, lng, address, description))]
      ensures store.toasts == old(store.toasts) + [AddedToast(name)]
    {
      store.Call(AddCall(NewEntry(name, lat, lng, address, description)));
      store.Toast(AddedToast(name));
      id := storeId;
    }

    /** False, with no call, when no captured marker has the id; otherwise one removal and true. */
    method RemoveMarker(id: MarkerId) returns (found: bool)
      modifies store
      ensures found <==> HasId(markers, id)
      ensures !found ==> store.calls == old(store.calls) && store.toasts == old(store.toasts)
      ensures found ==> store.calls == old(store.calls) + [RemoveCall(id)]
      ensures found ==> store.toasts == old(store.toasts) + [RemovedToast(FindById(markers, id).value.name)]
    {
      var marker := FindById(markers, id);
      if marker.None? {
        return false;
      }
      store.Call(RemoveCall(id));
      store.Toast(RemovedToast(marker.value.name));
      found := true;
    }

    /** False, with no call, when no captured marker has the id; otherwise one update and true. */
    method UpdateMarker(id: MarkerId, updates: PartialLocation) returns (found: bool)
      modifies store
      ensures found <==> HasId(markers, id)
      ensures !found ==> store.calls == old(store.calls) && store.toasts == old(store.toasts)
      ensures found ==> store.calls == old(store.calls) + [UpdateCall(id, updates)]
      ensures found ==> store.toasts == old(store.toasts) + [UpdatedToast(FindById(markers, id).value.name)]
    {
      var marker := FindById(markers, id);
      if marker.None? {
        return false;
      }
      store.Call(UpdateCall(id, updates));
      store.Toast(UpdatedToast(marker.value.name));
      found := true;
    }

    /** The captured marker list, as it is. */
    function ListMarkers(): (ms: seq<Location>)
      ensures |ms| == |markers| && forall i :: 0 <= i < |ms| ==> ms[i] == markers[i]
    {
      markers
    }

    /** Sets the centre, sets the zoom iff one is given (0 included), then raises a toast. */
    method CenterMap(lat: real, lng: real, zoom: Option<real>)
      modifies store
      ensures store.calls == old(store.calls) + CenterCalls(lat, lng, zoom)
      ensures store.toasts == old(store.toasts) + [CenteredToast]
    {
      store.Call(SetCenterCall(lat, lng));
      if zoom.Some? {
        store.Call(SetZoomCall(zoom.value));
      }
      store.Toast(CenteredToast);
    }
  }
}
