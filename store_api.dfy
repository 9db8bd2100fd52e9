/**
 * The location store as the chat hooks call it: `addMarker` with a location
 * record, `removeMarker`, `updateMarker`, `setCenter`, `setZoom`, plus the
 * toast queue's `enqueue`. That interface differs from the store in
 * `hooks/useMapStore.ts` (which takes `{lat, lng, title}` and has no
 * `updateMarker`), so its effect is not interpreted here: every call is
 * recorded, in order, and the properties are stated over that record.
 */
module StoreApi {
  import opened Types
  import opened ToastStore

  datatype StoreCall =
    | AddCall(entry: PartialLocation)
    | RemoveCall(id: MarkerId)
    | UpdateCall(id: MarkerId, updates: PartialLocation)
    | SetCenterCall(lat: real, lng: real)
    | SetZoomCall(zoom: real)

  /** How many of the calls add a marker. */
  function CountAdds(calls: seq<StoreCall>): (n: nat)
    ensures n <= |calls|
  {
    if calls == [] then 0 else (if calls[0].AddCall? then 1 else 0) + CountAdds(calls[1..])
  }

  lemma {:induction false} CountAddsConcat(a: seq<StoreCall>, b: seq<StoreCall>)
    ensures CountAdds(a + b) == CountAdds(a) + CountAdds(b)
  {
    if a == [] {
      assert a + b == b;
    } else {
      assert (a + b)[1..] == a[1..] + b;
      CountAddsConcat(a[1..], b);
    }
  }

  /** The store and toast calls made so far, oldest first. */
  class StoreClient {
    var calls: seq<StoreCall>
    var toasts: seq<ToastInput>

    constructor()
      ensures calls == [] && toasts == []
    {
      calls := [];
      toasts := [];
    }

    method Call(c: StoreCall)
      modifies this
      ensures calls == old(calls) + [c] && toasts == old(toasts)
    {
      calls := calls + [c];
    }

    method Toast(t: ToastInput)
      modifies this
      ensures toasts == old(toasts) + [t] && calls == old(calls)
    {
      toasts := toasts + [t];
    }
  }
}
