/**
 * The map store: the marker list, the selected marker and the view (centre
 * and zoom). Each action replaces the fields it names and nothing else.
 */
module MapStore {
  import opened Wrappers
  import opened Sequences
  import opened Types

  /** A pin on the map as this store holds it. */
  datatype MapMarker = MapMarker(id: MarkerId, lat: real, lng: real, title: Option<string>)

  function MarkerKey(m: MapMarker): string
  {
    m.id
  }

  /** Every marker with the id retitled; the others unchanged, in order. */
  function Retitled(ms: seq<MapMarker>, id: MarkerId, title: string): (r: seq<MapMarker>)
    ensures |r| == |ms|
    ensures forall i :: 0 <= i < |r| ==>
      r[i].id == ms[i].id && r[i].lat == ms[i].lat && r[i].lng == ms[i].lng
      && r[i].title == (if ms[i].id == id then Some(title) else ms[i].title)
  {
    if ms == [] then []
    else [if ms[0].id == id then ms[0].(title := Some(title)) else ms[0]] + Retitled(ms[1..], id, title)
  }

  /** Renaming an id no marker carries changes nothing. */
  lemma {:induction false} RetitledAbsent(ms: seq<MapMarker>, id: MarkerId, title: string)
    requires forall i :: 0 <= i < |ms| ==> ms[i].id != id
    ensures Retitled(ms, id, title) == ms
  {
    if ms != [] {
      RetitledAbsent(ms[1..], id, title);
    }
  }

  /** Removing an id leaves every other marker, in order, and drops each one with that id. */
  lemma RemoveMarkerKeepsOthers(ms: seq<MapMarker>, id: MarkerId, m: MapMarker)
    ensures m in RemoveKey(ms, MarkerKey, id) <==> m in ms && m.id != id
  {
    if m in ms && m.id != id {
      var i :| 0 <= i < |ms| && ms[i] == m;
    }
  }

  class MapState {
    var markers: seq<MapMarker>
    var selectedId: Option<MarkerId>
    var center: Option<Coordinates>
    var zoom: Option<real>

    /** The initial state: no markers, no selection, no view. */
    constructor()
      ensures markers == [] && selectedId == None && center == None && zoom == None
    {
      markers := [];
      selectedId := None;
      center := None;
      zoom := None;
    }

    /**
     * Appends one marker and returns its id: the supplied one when present
     * (even an empty string), otherwise `freshId`. No duplicate check.
     */
    method AddMarker(lat: real, lng: real, title: Option<string>, id: Option<MarkerId>, freshId: MarkerId)
      returns (r: MarkerId)
      modifies this
      ensures r == id.GetOr(freshId)
      ensures id.Some? ==> r == id.value
      ensures markers == old(markers) + [MapMarker(r, lat, lng, title)]
      ensures selectedId == old(selectedId) && center == old(center) && zoom == old(zoom)
    {
      r := id.GetOr(freshId);
      markers := markers + [MapMarker(r, lat, lng, title)];
    }

    /** Drops every marker with the id and clears the selection exactly when it pointed at that id. */
    method RemoveMarker(id: MarkerId)
      modifies this
      ensures markers == RemoveKey(old(markers), MarkerKey, id)
      ensures selectedId == (if old(selectedId) == Some(id) then None else old(selectedId))
      ensures center == old(center) && zoom == old(zoom)
    {
      markers := RemoveKey(markers, MarkerKey, id);
      if selectedId == Some(id) {
        selectedId := None;
      }
    }

    /** Sets the title of the markers with the id. */
    method RenameMarker(id: MarkerId, title: string)
      modifies this
      ensures markers == Retitled(old(markers), id, title)
      ensures selectedId == old(selectedId) && center == old(center) && zoom == old(zoom)
    {
      markers := Retitled(markers, id, title);
    }

    method SetCenter(lat: real, lng: real)
      modifies this
      ensures center == Some(Coordinates(lat, lng))
      ensures markers == old(markers) && selectedId == old(selectedId) && zoom == old(zoom)
    {
      center := Some(Coordinates(lat, lng));
    }

    method SetZoom(z: real)
      modifies this
      ensures zoom == Some(z)
      ensures markers == old(markers) && selectedId == old(selectedId) && center == old(center)
    {
      zoom := Some(z);
    }

    /** Selects any id, or none; whether a marker carries it is not checked. */
    method SelectMarker(id: Option<MarkerId>)
      modifies this
      ensures selectedId == id
      ensures markers == old(markers) && center == old(center) && zoom == old(zoom)
    {
      selectedId := id;
    }

    /** Empties the markers and the selection; the view stays. */
    method Clear()
      modifies this
      ensures markers == [] && selectedId == None
      ensures center == old(center) && zoom == old(zoom)
    {
      markers := [];
      selectedId := None;
    }
  }
}
