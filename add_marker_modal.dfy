/**
 * The quick "add marker" form shown after a click on the map: four text
 * fields, a required name, trimmed values on confirm, and the fields
 * cleared after a confirm or a cancel.
 */
module AddMarkerModal {
  import opened Text
  import opened Types

  const NameRequired: string := "El nombre es obligatorio"

  /** What `onConfirm` receives. */
  datatype NewMarker = NewMarker(name: string, address: string, description: string, cp: string,
                                 coordinates: Coordinates)

  /** The callbacks of the code that shows the form, beyond the submission. */
  datatype FormCall = CancelCall

  /** A submit either raises an alert and keeps the form, or hands over the new marker. */
  datatype Submission = Alert(message: string) | Confirm(data: NewMarker)

  /** A blank name raises the alert; anything else hands over the trimmed fields and the coordinates as given. */
  function SubmissionOf(name: string, address: string, description: string, cp: string,
                        coordinates: Coordinates): (r: Submission)
    ensures r.Alert? <==> IsBlank(name)
    ensures r.Alert? ==> r.message == NameRequired
    ensures !IsBlank(name) ==>
      r == Confirm(NewMarker(Trim(name), Trim(address), Trim(description), Trim(cp), coordinates))
  {
    if IsBlank(name) then Alert(NameRequired)
    else Confirm(NewMarker(Trim(name), Trim(address), Trim(description), Trim(cp), coordinates))
  }

  /**
   * What is handed over is each field with its surrounding white space
   * removed: the name is then non-empty, and a field already trimmed is
   * handed over as typed.
   */
  lemma ConfirmedFieldsTrimmed(name: string, address: string, description: string, cp: string, coordinates: Coordinates)
    ensures var r := SubmissionOf(name, address, description, cp, coordinates);
      r.Confirm? ==> r.data.name != "" && IsTrimmed(r.data.name) && |r.data.name| <= |name|
                     && IsTrimmed(r.data.address) && IsTrimmed(r.data.description) && IsTrimmed(r.data.cp)
                     && (IsTrimmed(address) ==> r.data.address == address)
                     && (IsTrimmed(description) ==> r.data.description == description)
                     && (IsTrimmed(cp) ==> r.data.cp == cp)
  {
  }

  class AddMarkerForm {
    var name: string
    var address: string
    var description: string
    var cp: string

    /** All four fields are empty, as on first render and after a confirm or a cancel. */
    predicate Cleared()
      reads this
    {
      name == "" && address == "" && description == "" && cp == ""
    }

    constructor()
      ensures Cleared()
    {
      name, address, description, cp := "", "", "", "";
    }

    /** Submitting: the form is cleared only when the marker is handed over. */
    method HandleSubmit(coordinates: Coordinates) returns (r: Submission)
      modifies this
      ensures r == SubmissionOf(old(name), old(address), old(description), old(cp), coordinates)
      ensures r.Alert? ==> name == old(name) && address == old(address) && description == old(description) && cp == old(cp)
      ensures r.Confirm? ==> Cleared()
    {
      r := SubmissionOf(name, address, description, cp, coordinates);
      if r.Confirm? {
        Clear();
      }
    }

    /** Empties the four fields. */
    method Clear()
      modifies this
      ensures Cleared()
    {
      name, address, description, cp := "", "", "", "";
    }

    /** Cancelling clears the four fields, then calls `onCancel`. */
    method HandleCancel() returns (calls: seq<FormCall>)
      modifies this
      ensures Cleared()
      ensures calls == [CancelCall]
    {
      Clear();
      calls := [CancelCall];
    }
  }

  /** Submitting again right after a confirm only raises the alert: the cleared name is blank. */
  lemma SecondSubmitAlerts(coordinates: Coordinates)
    ensures SubmissionOf("", "", "", "", coordinates) == Alert(NameRequired)
  {
  }

  /** The name handed over is the typed one without its surrounding white space. */
  lemma TrimmedNameKept(name: string, address: string, description: string, cp: string, coordinates: Coordinates)
    requires IsTrimmed(name) && name != ""
    ensures SubmissionOf(name, address, description, cp, coordinates).Confirm?
    ensures SubmissionOf(name, address, description, cp, coordinates).data.name == name
  {
  }
}
