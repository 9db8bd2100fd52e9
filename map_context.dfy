/**
 * The map summary put in front of every conversation with the model: a
 * header, the current centre if there is one, then either a fixed line for
 * an empty map or a count followed by one numbered line per marker. The
 * route handler and the client-side service build it the same way.
 */
module MapContext {
  import opened Wrappers
  import opened Text
  import opened Types
  import opened ToolCatalog

  const HeaderLine: string := "Contexto del mapa:"
  const CenterPrefix: string := "- Ubicación actual del mapa: "
  const NoMarkersLine: string := "- No hay marcadores guardados actualmente."

  /** The opening both prompts put before the map context. */
  const PromptOpening: string :=
    "Eres un asistente virtual especializado en ayudar con mapas interactivos y ubicaciones.\n\n"

  function CenterLine(c: Coordinates, fmt: NumberFormat): (line: string)
  {
    CenterPrefix + fmt.fixed4(c.lat) + ", " + fmt.fixed4(c.lng)
  }

  function CountLine(n: nat): (line: string)
  {
    "- Marcadores guardados (" + NatText(n) + "):"
  }

  /** Where a marker is: its address when it has one, else its coordinates. */
  function Whereabouts(m: Location, fmt: NumberFormat): (w: string)
    ensures m.address != "" ==> w == m.address
    ensures m.address == "" ==> w == fmt.plain(m.coordinates.lat) + ", " + fmt.plain(m.coordinates.lng)
  {
    if m.address != "" then m.address else fmt.plain(m.coordinates.lat) + ", " + fmt.plain(m.coordinates.lng)
  }

  /** The line of the marker at `index`, numbered from one; the description is appended only when non-empty. */
  function MarkerLine(index: nat, m: Location, fmt: NumberFormat): (line: string)
  {
    var head := "  " + NatText(index + 1) + ". \"" + m.name + "\" en " + Whereabouts(m, fmt);
    if m.description != "" then head + " - " + m.description else head
  }

  function MarkerLines(ms: seq<Location>, fmt: NumberFormat): (lines: seq<string>)
    ensures |lines| == |ms|
    ensures forall i :: 0 <= i < |ms| ==> lines[i] == MarkerLine(i, ms[i], fmt)
  {
    seq(|ms|, i requires 0 <= i < |ms| => MarkerLine(i, ms[i], fmt))
  }

  /** The lines before the marker list: the header, then the centre if there is one. */
  function HeadLines(center: Option<Coordinates>, fmt: NumberFormat): (lines: seq<string>)
    ensures |lines| == 1 + (if center.Some? then 1 else 0) && lines[0] == HeaderLine
  {
    [HeaderLine] + (if center.Some? then [CenterLine(center.value, fmt)] else [])
  }

  /** The marker part: the empty-map line, or the count and one line per marker. */
  function BodyLines(ms: seq<Location>, fmt: NumberFormat): (lines: seq<string>)
    ensures |lines| == 1 + |ms|
  {
    if |ms| == 0 then [NoMarkersLine] else [CountLine(|ms|)] + MarkerLines(ms, fmt)
  }

  /** The summary, line by line. */
  function ContextLines(ms: seq<Location>, center: Option<Coordinates>, fmt: NumberFormat): (lines: seq<string>)
    ensures |lines| == 2 + (if center.Some? then 1 else 0) + |ms|
    ensures lines[0] == HeaderLine
  {
    HeadLines(center, fmt) + BodyLines(ms, fmt)
  }

  /** Each line followed by a line feed. */
  function Lines(ls: seq<string>): (s: string)
  {
    if ls == [] then "" else Lines(ls[..|ls| - 1]) + ls[|ls| - 1] + "\n"
  }

  function ContextText(ms: seq<Location>, center: Option<Coordinates>, fmt: NumberFormat): string
  {
    Lines(ContextLines(ms, center, fmt))
  }

  lemma {:induction false} LinesConcat(a: seq<string>, b: seq<string>)
    ensures Lines(a + b) == Lines(a) + Lines(b)
    decreases |b|
  {
    if b == [] {
      assert a + b == a;
    } else {
      var b' := b[..|b| - 1];
      assert (a + b)[..|a + b| - 1] == a + b';
      assert (a + b)[|a + b| - 1] == b[|b| - 1];
      LinesConcat(a, b');
    }
  }

  /** Lines without line feeds come back out of `split("\n")`, followed by the empty piece after the last one. */
  lemma {:induction false} SplitLines(ls: seq<string>)
    requires AllSingleLine(ls)
    ensures Split(Lines(ls), '\n') == ls + [""]
  {
    if ls != [] {
      LinesConcat([ls[0]], ls[1..]);
      assert [ls[0]] + ls[1..] == ls;
      assert Lines([ls[0]]) == ls[0] + "\n" by {
        assert [ls[0]][..0] == [];
      }
      assert Lines(ls) == ls[0] + ['\n'] + Lines(ls[1..]);
      SplitAtSeparator(ls[0], Lines(ls[1..]), '\n');
      SplitLines(ls[1..]);
    }
  }

  /** `buildMapContext`. */
  method BuildMapContext(markers: seq<Location>, center: Option<Coordinates>, fmt: NumberFormat)
    returns (context: string)
    ensures context == ContextText(markers, center, fmt)
  {
    context := StartContext(center, fmt);
    context := AppendMarkerSection(context, markers, fmt);
    LinesConcat(HeadLines(center, fmt), BodyLines(markers, fmt));
  }

  /** The header, then the centre line when a centre is given. */
  method StartContext(center: Option<Coordinates>, fmt: NumberFormat) returns (context: string)
    ensures context == Lines(HeadLines(center, fmt))
  {
    context := HeaderLine + "\n";
    LinesSnoc([], HeaderLine);
    assert [] + [HeaderLine] == [HeaderLine];
    if center.Some? {
      var line := CenterPrefix + fmt.fixed4(center.value.lat) + ", " + fmt.fixed4(center.value.lng);
      LinesSnoc([HeaderLine], line);
      context := context + line + "\n";
    }
  }

  /** The empty-map line, or the count line followed by the marker lines. */
  method AppendMarkerSection(context0: string, markers: seq<Location>, fmt: NumberFormat) returns (context: string)
    ensures context == context0 + Lines(BodyLines(markers, fmt))
  {
    if |markers| == 0 {
      context := context0 + NoMarkersLine + "\n";
      LinesSnoc([], NoMarkersLine);
      assert [] + [NoMarkersLine] == [NoMarkersLine];
    } else {
      var line := "- Marcadores guardados (" + NatText(|markers|) + "):";
      LinesSnoc([], line);
      assert [] + [line] == [line];
      context := context0 + line + "\n";
      assert context == context0 + Lines([line]);
      context := AppendMarkerLines(context, markers, fmt);
      LinesConcat([line], MarkerLines(markers, fmt));
      Associative(context0, Lines([line]), Lines(MarkerLines(markers, fmt)));
      assert BodyLines(markers, fmt) == [line] + MarkerLines(markers, fmt);
    }
  }

  lemma Associative(a: string, b: string, c: string)
    ensures a + b + c == a + (b + c)
  {
  }

  lemma LinesSnoc(ls: seq<string>, x: string)
    ensures Lines(ls + [x]) == Lines(ls) + x + "\n"
  {
    assert (ls + [x])[..|ls|] == ls;
  }

  /** Appending the next line after a prefix of lines gives the longer prefix. */
  lemma AppendLine(context0: string, lines: seq<string>, i: nat)
    requires i < |lines|
    ensures context0 + Lines(lines[..i]) + lines[i] + "\n" == context0 + Lines(lines[..i + 1])
  {
    assert lines[..i + 1][..i] == lines[..i];
  }

  /** The `forEach` over the markers: one numbered line each, in order. */
  method AppendMarkerLines(context0: string, markers: seq<Location>, fmt: NumberFormat) returns (context: string)
    ensures context == context0 + Lines(MarkerLines(markers, fmt))
  {
    context := context0;
    ghost var lines := MarkerLines(markers, fmt);
    for i := 0 to |markers|
      invariant context == context0 + Lines(lines[..i])
    {
      var marker := markers[i];
      var line := "  " + NatText(i + 1) + ". \"" + marker.name + "\" en "
                  + (if marker.address != "" then marker.address
                     else fmt.plain(marker.coordinates.lat) + ", " + fmt.plain(marker.coordinates.lng));
      if marker.description != "" {
        line := line + " - " + marker.description;
      }
      assert line == lines[i];
      AppendLine(context0, lines, i);
      context := context + line + "\n";
    }
    assert lines[..|markers|] == lines;
  }

  predicate SingleLine(s: string)
  {
    '\n' !in s
  }

  predicate AllSingleLine(ls: seq<string>)
  {
    forall k :: 0 <= k < |ls| ==> SingleLine(ls[k])
  }

  /** Every field that reaches the summary is free of line feeds. */
  predicate SingleLineFields(ms: seq<Location>, center: Option<Coordinates>, fmt: NumberFormat)
  {
    (center.Some? ==> SingleLine(fmt.fixed4(center.value.lat)) && SingleLine(fmt.fixed4(center.value.lng)))
    && forall i :: 0 <= i < |ms| ==>
         SingleLine(ms[i].name) && SingleLine(ms[i].description) && SingleLine(Whereabouts(ms[i], fmt))
  }

  lemma NatTextSingleLine(n: nat)
    ensures SingleLine(NatText(n))
  {
    assert forall k :: 0 <= k < |NatText(n)| ==> NatText(n)[k] != '\n';
  }

  lemma MarkerLineSingle(i: nat, m: Location, fmt: NumberFormat)
    requires SingleLine(m.name) && SingleLine(m.description) && SingleLine(Whereabouts(m, fmt))
    ensures SingleLine(MarkerLine(i, m, fmt))
  {
    NatTextSingleLine(i + 1);
  }

  lemma HeadSingle(center: Option<Coordinates>, fmt: NumberFormat)
    requires center.Some? ==> SingleLine(fmt.fixed4(center.value.lat)) && SingleLine(fmt.fixed4(center.value.lng))
    ensures AllSingleLine(HeadLines(center, fmt))
  {
  }

  lemma BodySingle(ms: seq<Location>, fmt: NumberFormat)
    requires SingleLineFields(ms, None, fmt)
    ensures AllSingleLine(BodyLines(ms, fmt))
  {
    if |ms| > 0 {
      var lines := MarkerLines(ms, fmt);
      forall i | 0 <= i < |ms|
        ensures SingleLine(lines[i])
      {
        MarkerLineSingle(i, ms[i], fmt);
      }
      NatTextSingleLine(|ms|);
      assert SingleLine(CountLine(|ms|));
    }
  }

  lemma ContextLinesSingle(ms: seq<Location>, center: Option<Coordinates>, fmt: NumberFormat)
    requires SingleLineFields(ms, center, fmt)
    ensures AllSingleLine(ContextLines(ms, center, fmt))
  {
    HeadSingle(center, fmt);
    BodySingle(ms, fmt);
    AllSingleLineConcat(HeadLines(center, fmt), BodyLines(ms, fmt));
  }

  lemma AllSingleLineConcat(a: seq<string>, b: seq<string>)
    requires AllSingleLine(a) && AllSingleLine(b)
    ensures AllSingleLine(a + b)
  {
    forall k | 0 <= k < |a + b|
      ensures SingleLine((a + b)[k])
    {
      if k >= |a| {
        assert (a + b)[k] == b[k - |a|];
      }
    }
  }

  /** The second line is the centre line iff a centre is given. */
  lemma CenterLineIffCenter(ms: seq<Location>, center: Option<Coordinates>, fmt: NumberFormat)
    ensures var cl := ContextLines(ms, center, fmt);
      (center.Some? <==> CenterPrefix <= cl[1])
      && (center.Some? ==> cl[1] == CenterLine(center.value, fmt))
  {
    var body := BodyLines(ms, fmt);
    if center.None? {
      assert ContextLines(ms, center, fmt)[1] == body[0];
      assert body[0][2] != CenterPrefix[2];
    }
  }

  /** The last line is the empty-map line iff there are no markers. */
  lemma EmptyMapLine(ms: seq<Location>, center: Option<Coordinates>, fmt: NumberFormat)
    ensures var cl := ContextLines(ms, center, fmt);
      |ms| == 0 <==> cl[|cl| - 1] == NoMarkersLine
  {
    var body := BodyLines(ms, fmt);
    assert ContextLines(ms, center, fmt)[|ContextLines(ms, center, fmt)| - 1] == body[|body| - 1];
    if |ms| > 0 {
      assert body[|body| - 1] == MarkerLine(|ms| - 1, ms[|ms| - 1], fmt);
      assert body[|body| - 1][0] != NoMarkersLine[0];
    }
  }

  /** With markers, the count line comes first, then the markers' lines in input order, numbered from one. */
  lemma MarkerSection(ms: seq<Location>, center: Option<Coordinates>, fmt: NumberFormat)
    requires |ms| > 0
    ensures var cl := ContextLines(ms, center, fmt);
      cl[|cl| - 1 - |ms|] == CountLine(|ms|)
      && forall i :: 0 <= i < |ms| ==> cl[|cl| - |ms| + i] == MarkerLine(i, ms[i], fmt)
  {
    var cl, head, body := ContextLines(ms, center, fmt), HeadLines(center, fmt), BodyLines(ms, fmt);
    var lines := MarkerLines(ms, fmt);
    assert body == [CountLine(|ms|)] + lines;
    assert cl[|cl| - 1 - |ms|] == body[0];
    forall i | 0 <= i < |ms|
      ensures cl[|cl| - |ms| + i] == MarkerLine(i, ms[i], fmt)
    {
      assert cl[|cl| - |ms| + i] == body[1 + i] == lines[i];
    }
  }

  /**
   * Read back with `split("\n")`, the summary gives back exactly its lines
   * followed by the empty piece after the final line feed.
   */
  lemma ContextLineStructure(ms: seq<Location>, center: Option<Coordinates>, fmt: NumberFormat)
    requires SingleLineFields(ms, center, fmt)
    ensures Split(ContextText(ms, center, fmt), '\n') == ContextLines(ms, center, fmt) + [""]
  {
    ContextLinesSingle(ms, center, fmt);
    SplitLines(ContextLines(ms, center, fmt));
  }
}
