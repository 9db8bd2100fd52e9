/**
 * The location form: filling it from a record (edit) or blank (create),
 * validating the name and the postal code, and the record it saves, with
 * trimmed fields, the default group and the tags parsed from one line of
 * comma-separated text.
 */
module LocationModal {
  import opened Wrappers
  import opened Text
  import opened Types

  const NameRequired: string := "El nombre es obligatorio"
  const CpInvalid: string := "El CP debe comenzar con 5 dígitos"
  const TagSeparator: string := ", "

  predicate IsAsciiDigit(c: char)
  {
    '0' <= c <= '9'
  }

  /**
   * The postal-code pattern, anchored at both ends: five ASCII digits,
   * optionally followed by one white-space character or dash and at least one
   * more character that is not a line terminator.
   */
  predicate MatchesCp(s: string)
  {
    |s| >= 5 && (forall i :: 0 <= i < 5 ==> IsAsciiDigit(s[i]))
    && (|s| == 5
        || (|s| >= 7 && (IsSpace(s[5]) || s[5] == '-')
            && forall i :: 6 <= i < |s| ==> !IsLineTerminator(s[i])))
  }

  lemma CpSamples()
    ensures MatchesCp("28001") && MatchesCp("28001 Madrid") && MatchesCp("28001-A")
    ensures !MatchesCp("2800") && !MatchesCp("28001-") && !MatchesCp("28001x") && !MatchesCp("2800A")
  {
    assert !IsAsciiDigit("2800A"[4]);
  }

  /** The messages under the name and postal-code fields; none set means the form is valid. */
  datatype FormErrors = FormErrors(name: Option<string>, cp: Option<string>)
  {
    predicate IsEmpty()
    {
      name.None? && cp.None?
    }
  }

  /** The name must have something besides white space; a postal code, when given, must match the pattern. */
  function Validate(name: string, cp: string): (e: FormErrors)
    ensures e.name == (if IsBlank(name) then Some(NameRequired) else None)
    ensures e.cp == (if !IsBlank(cp) && !MatchesCp(Trim(cp)) then Some(CpInvalid) else None)
  {
    var nameError := if IsBlank(name) then Some(NameRequired) else None;
    var cpError := if !IsBlank(cp) && !MatchesCp(Trim(cp)) then Some(CpInvalid) else None;
    FormErrors(nameError, cpError)
  }

  /** The form is valid iff the name is not blank and the postal code is blank or matches. */
  lemma ValidIff(name: string, cp: string)
    ensures Validate(name, cp).IsEmpty() <==> !IsBlank(name) && (IsBlank(cp) || MatchesCp(Trim(cp)))
  {
  }

  /** A tag as the form keeps it: no white space at either end, not empty, no comma. */
  predicate CleanTag(t: string)
  {
    IsTrimmed(t) && t != "" && ',' !in t
  }

  /** Each piece trimmed, the empty ones dropped, order kept. */
  function CleanPieces(pieces: seq<string>): (tags: seq<string>)
    ensures |tags| <= |pieces|
    ensures forall i :: 0 <= i < |tags| ==> tags[i] != ""
  {
    if pieces == [] then []
    else
      var t := Trim(pieces[0]);
      (if t == "" then [] else [t]) + CleanPieces(pieces[1..])
  }

  /** Trimming only removes characters. */
  lemma TrimKeepsOut(s: string, c: char)
    requires c !in s
    ensures c !in Trim(s)
  {
    var t := TrimStart(s);
    var r := TrimEnd(t);
    assert r == Trim(s);
    assert c !in t by {
      assert t == s[|s| - |t|..];
    }
    assert r == t[..|r|];
  }

  /** Pieces without commas clean to clean tags. */
  lemma {:induction false} CleanPiecesClean(pieces: seq<string>)
    requires forall i :: 0 <= i < |pieces| ==> ',' !in pieces[i]
    ensures forall i :: 0 <= i < |CleanPieces(pieces)| ==> CleanTag(CleanPieces(pieces)[i])
  {
    if pieces != [] {
      CleanPiecesClean(pieces[1..]);
      TrimKeepsOut(pieces[0], ',');
    }
  }

  /** The tags typed as one line: split on commas, trimmed, empties dropped. */
  function ParseTags(input: string): (tags: seq<string>)
    ensures forall i :: 0 <= i < |tags| ==> CleanTag(tags[i])
  {
    CleanPiecesClean(Split(input, ','));
    CleanPieces(Split(input, ','))
  }

  /** An empty line holds no tags. */
  lemma NoTags()
    ensures ParseTags("") == []
  {
    var pieces := Split("", ',');
    assert pieces == [""];
    assert |Trim(pieces[0])| <= 0;
    assert pieces[1..] == [];
  }

  /** A leading space makes no difference once trimmed. */
  lemma TrimAfterSpace(p: string)
    ensures Trim(" " + p) == Trim(p)
  {
    var q := " " + p;
    assert q[0] == ' ' && q[1..] == p;
    StartDecidesTrim(q, p);
  }

  /** `Trim` depends on its input only through what `TrimStart` leaves. */
  lemma StartDecidesTrim(a: string, b: string)
    requires a != [] && IsSpace(a[0]) && a[1..] == b
    ensures Trim(a) == Trim(b)
  {
    var t := TrimStart(a);
    assert t == TrimStart(b);
  }

  lemma CleanPiecesCons(p: string, ps: seq<string>)
    ensures CleanPieces([p] + ps) == (if Trim(p) == "" then [] else [Trim(p)]) + CleanPieces(ps)
  {
    assert ([p] + ps)[1..] == ps;
  }

  /** A space before the first piece is trimmed away. */
  lemma CleanPiecesSpaceFirst(ps: seq<string>)
    requires ps != []
    ensures CleanPieces([" " + ps[0]] + ps[1..]) == CleanPieces(ps)
  {
    var p, rest := ps[0], ps[1..];
    assert [p] + rest == ps;
    TrimAfterSpace(p);
    var t := Trim(p);
    CleanPiecesCons(" " + p, rest);
    CleanPiecesCons(p, rest);
  }

  /** The first piece of a string that starts with a space is that space followed by the first piece of the rest. */
  lemma SplitAfterSpace(s: string)
    ensures Split(" " + s, ',') == [" " + Split(s, ',')[0]] + Split(s, ',')[1..]
  {
    assert (" " + s)[1..] == s;
  }

  /**
   * Editing shows the tags joined with a comma and a space; parsing that
   * line gives back the same tags whenever each is clean.
   */
  lemma {:induction false} TagsRoundTrip(tags: seq<string>)
    requires forall i :: 0 <= i < |tags| ==> CleanTag(tags[i])
    ensures ParseTags(Join(tags, TagSeparator)) == tags
  {
    if tags == [] {
      assert Split("", ',') == [""];
    } else if |tags| == 1 {
      OneTagRoundTrip(tags[0]);
    } else {
      var rest := tags[1..];
      var j := Join(rest, TagSeparator);
      assert Join(tags, TagSeparator) == tags[0] + TagSeparator + j;
      TagsRoundTrip(rest);
      JoinedTagsSplit(tags[0], j);
      assert ParseTags(Join(tags, TagSeparator)) == [tags[0]] + rest;
      assert [tags[0]] + rest == tags;
    }
  }

  lemma OneTagRoundTrip(t: string)
    requires CleanTag(t)
    ensures ParseTags(t) == [t]
  {
    SplitNoSeparator(t, ',');
    CleanPiecesCons(t, []);
    assert Trim(t) == t;
  }

  /** One clean tag, the separator, then the rest: the tag comes out first, followed by the rest's tags. */
  lemma JoinedTagsSplit(t: string, j: string)
    requires CleanTag(t)
    ensures ParseTags(t + TagSeparator + j) == [t] + ParseTags(j)
  {
    assert t + TagSeparator + j == t + [','] + (" " + j);
    SplitAtSeparator(t, " " + j, ',');
    var pieces := Split(" " + j, ',');
    CleanPiecesCons(t, pieces);
    assert Trim(t) == t;
    SplitAfterSpace(j);
    CleanPiecesSpaceFirst(Split(j, ','));
  }

  /** What the form asks of the code that shows it: save a record, or close. */
  datatype FormCall = SaveCall(record: Saved) | CloseCall

  /** What `onSave` receives. */
  datatype Saved = Saved(name: string, description: string, address: string, cp: string, group: string,
                         tags: seq<string>, coordinates: Coordinates)

  /** The saved record: every text trimmed, a blank group replaced by the default, tags parsed. */
  function SavedOf(name: string, description: string, address: string, cp: string, group: string,
                   tagsInput: string, coordinates: Coordinates): (r: Saved)
    ensures r.name == Trim(name) && r.description == Trim(description)
    ensures r.address == Trim(address) && r.cp == Trim(cp)
    ensures r.group != ""
    ensures IsBlank(group) ==> r.group == DefaultGroup
    ensures !IsBlank(group) ==> r.group == Trim(group)
    ensures forall i :: 0 <= i < |r.tags| ==> CleanTag(r.tags[i])
    ensures r.coordinates == coordinates
  {
    var g := Trim(group);
    Saved(Trim(name), Trim(description), Trim(address), Trim(cp), if g == "" then DefaultGroup else g,
          ParseTags(tagsInput), coordinates)
  }

  /** The form's own state. */
  class LocationForm {
    var name: string
    var description: string
    var address: string
    var cp: string
    var group: string
    var tagsInput: string
    var coordinates: Coordinates
    var errors: FormErrors

    constructor()
      ensures name == "" && description == "" && address == "" && cp == "" && tagsInput == ""
      ensures group == DefaultGroup && errors.IsEmpty()
    {
      name, description, address, cp := "", "", "", "";
      group, tagsInput := DefaultGroup, "";
      coordinates := Coordinates(0.0, 0.0);
      errors := FormErrors(None, None);
    }

    /** The form as it opens: filled from the record being edited, or blank at the given coordinates. */
    method Open(initialData: Option<Location>, defaultCoordinates: Option<Coordinates>)
      modifies this
      ensures errors.IsEmpty()
      ensures initialData.Some? ==>
        var l := initialData.value;
        name == l.name && description == l.description && address == l.address && cp == l.cp
        && group == (if l.group == "" then DefaultGroup else l.group)
        && tagsInput == Join(l.tags.GetOr([]), TagSeparator) && coordinates == l.coordinates
      ensures initialData.None? ==>
        name == "" && description == "" && address == "" && cp == "" && group == DefaultGroup && tagsInput == ""
        && coordinates == defaultCoordinates.GetOr(Coordinates(0.0, 0.0))
    {
      if initialData.Some? {
        var l := initialData.value;
        name, description, address, cp := l.name, l.description, l.address, l.cp;
        group := if l.group == "" then DefaultGroup else l.group;
        tagsInput := Join(l.tags.GetOr([]), TagSeparator);
        coordinates := l.coordinates;
      } else {
        name, description, address, cp := "", "", "", "";
        group, tagsInput := DefaultGroup, "";
        coordinates := defaultCoordinates.GetOr(Coordinates(0.0, 0.0));
      }
      errors := FormErrors(None, None);
    }

    /** Sets the messages from the current fields and reports whether there are none. */
    method Check() returns (ok: bool)
      modifies this`errors
      ensures errors == Validate(name, cp)
      ensures ok <==> errors.IsEmpty()
    {
      var nameError: Option<string> := None;
      var cpError: Option<string> := None;
      if IsBlank(name) {
        nameError := Some(NameRequired);
      }
      var trimmedCp := Trim(cp);
      if trimmedCp != "" {
        if !MatchesCp(trimmedCp) {
          cpError := Some(CpInvalid);
        }
      }
      errors := FormErrors(nameError, cpError);
      ok := errors.IsEmpty();
    }

    /**
     * Submitting: an invalid form asks for nothing; a valid one has the
     * cleaned record saved and then the dialog closed.
     */
    method HandleSubmit() returns (calls: seq<FormCall>)
      modifies this`errors
      ensures errors == Validate(name, cp)
      ensures !errors.IsEmpty() ==> calls == []
      ensures errors.IsEmpty() ==>
        calls == [SaveCall(SavedOf(name, description, address, cp, group, tagsInput, coordinates)), CloseCall]
    {
      var ok := Check();
      if !ok {
        return [];
      }
      calls := [SaveCall(SavedOf(name, description, address, cp, group, tagsInput, coordinates)), CloseCall];
    }
  }

  /**
   * Opening a record for editing and saving it untouched gives back its
   * texts trimmed, its coordinates, its tags when they are clean, and its
   * group when it has one that is trimmed.
   */
  lemma EditKeepsRecord(l: Location)
    requires l.tags.Some? ==> forall i :: 0 <= i < |l.tags.value| ==> CleanTag(l.tags.value[i])
    ensures var g := if l.group == "" then DefaultGroup else l.group;
      var r := SavedOf(l.name, l.description, l.address, l.cp, g, Join(l.tags.GetOr([]), TagSeparator), l.coordinates);
      r.name == Trim(l.name) && r.description == Trim(l.description) && r.address == Trim(l.address)
      && r.cp == Trim(l.cp) && r.coordinates == l.coordinates
      && r.tags == l.tags.GetOr([]) && (IsTrimmed(l.group) && !IsBlank(l.group) ==> r.group == l.group)
  {
    TagsRoundTrip(l.tags.GetOr([]));
  }
}
