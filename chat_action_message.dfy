/**
 * The chat card of one executed tool call: its icon, its label, a short
 * description of the arguments and the result line.
 */
module ChatActionMessage {
  import opened Wrappers
  import opened Types
  import opened ToolCatalog
  import ServerExecutor

  const DefaultIcon: string := "\U{1F916}"
  const SuccessFallback: string := "Acción completada exitosamente"
  const FailureFallback: string := "Error al ejecutar la acción"

  /** The five tools the card knows by name. */
  predicate Labelled(tool: string)
  {
    tool == AddMarkerTool || tool == RemoveMarkerTool || tool == ListMarkersTool
    || tool == CenterMapTool || tool == SearchLocationTool
  }

  /** A pin, a wastebasket, a clipboard, a target and a magnifier; a robot for anything else. */
  function ToolIcon(tool: string): (icon: string)
    ensures !Labelled(tool) <==> icon == DefaultIcon
    ensures icon != ""
  {
    if tool == AddMarkerTool then "\U{1F4CD}"
    else if tool == RemoveMarkerTool then "\U{1F5D1}\U{FE0F}"
    else if tool == ListMarkersTool then "\U{1F4CB}"
    else if tool == CenterMapTool then "\U{1F3AF}"
    else if tool == SearchLocationTool then "\U{1F50D}"
    else DefaultIcon
  }

  /** A Spanish label for the five known tools; any other name is shown as it is. */
  function ToolLabel(tool: string): (name: string)
    ensures !Labelled(tool) ==> name == tool
  {
    if tool == AddMarkerTool then "Agregar Marcador"
    else if tool == RemoveMarkerTool then "Eliminar Marcador"
    else if tool == ListMarkersTool then "Listar Marcadores"
    else if tool == CenterMapTool then "Centrar Mapa"
    else if tool == SearchLocationTool then "Buscar Ubicación"
    else tool
  }

  /** Different known tools get different icons and different labels. */
  lemma KnownToolsDistinct(a: string, b: string)
    requires Labelled(a) && Labelled(b) && a != b
    ensures ToolIcon(a) != ToolIcon(b) && ToolLabel(a) != ToolLabel(b)
  {
    assert ToolIcon(AddMarkerTool)[0] == '\U{1F4CD}';
    assert ToolIcon(RemoveMarkerTool)[0] == '\U{1F5D1}';
    assert ToolIcon(ListMarkersTool)[0] == '\U{1F4CB}';
    assert ToolIcon(CenterMapTool)[0] == '\U{1F3AF}';
    assert ToolIcon(SearchLocationTool)[0] == '\U{1F50D}';
    assert ToolLabel(AddMarkerTool)[0] == 'A';
    assert ToolLabel(RemoveMarkerTool)[0] == 'E';
    assert ToolLabel(ListMarkersTool)[0] == 'L';
    assert ToolLabel(CenterMapTool)[0] == 'C';
    assert ToolLabel(SearchLocationTool)[0] == 'B';
  }

  /** The two declared tools no dispatcher runs get the robot and their raw name. */
  lemma UndispatchedToolsShowDefaults()
    ensures ToolIcon(SearchWebTool) == DefaultIcon && ToolLabel(SearchWebTool) == SearchWebTool
    ensures ToolIcon(ModifyLocationTool) == DefaultIcon && ToolLabel(ModifyLocationTool) == ModifyLocationTool
  {
    assert SearchWebTool[2] == 'a' && ModifyLocationTool[0] == 'm';
  }

  /**
   * The argument summary: the quoted name and the position for `add_marker`,
   * the position for `center_map`, the quoted query for `search_location`,
   * the JSON text of the arguments otherwise.
   */
  function ParametersDescription(toolName: string, parameters: Args, fmt: NumberFormat, json: Args -> string): (d: string)
    ensures toolName == SearchLocationTool ==>
      |d| == |parameters.query| + 2 && d[0] == '"' && d[|d| - 1] == '"' && d[1..|d| - 1] == parameters.query
    ensures toolName == CenterMapTool ==> d == Position(parameters.latitude, parameters.longitude, fmt)
    ensures toolName == AddMarkerTool ==>
      var p := Position(parameters.latitude, parameters.longitude, fmt);
      |d| == |parameters.name| + 6 + |p| && d[0] == '"' && d[1..|parameters.name| + 1] == parameters.name
      && d[|d| - |p|..] == p
    ensures !Labelled(toolName) || toolName == RemoveMarkerTool || toolName == ListMarkersTool ==> d == json(parameters)
  {
    if toolName == AddMarkerTool then
      var p := Position(parameters.latitude, parameters.longitude, fmt);
      var d := "\"" + parameters.name + "\" en " + p;
      assert d == "\"" + (parameters.name + ("\" en " + p));
      assert d[1..] == parameters.name + ("\" en " + p);
      assert d[1..][..|parameters.name|] == parameters.name;
      d
    else if toolName == CenterMapTool then Position(parameters.latitude, parameters.longitude, fmt)
    else if toolName == SearchLocationTool then "\"" + parameters.query + "\""
    else json(parameters)
  }

  /** The result line: a tick and the confirmation, or a cross and the error, each with its fallback. */
  function ResultText(result: ToolResult, fmt: NumberFormat): (t: string)
    ensures result.success && result.message.None? ==> t == "✓ " + SuccessFallback
    ensures result.success && result.message.Some? ==> t == "✓ " + NoticeText(result.message.value, fmt)
    ensures !result.success && result.error.None? ==> t == "✗ " + FailureFallback
    ensures !result.success && result.error.Some? ==> t == "✗ " + ErrorText(result.error.value)
  {
    TextsNonEmpty(InvalidLatitude, MarkerRemoved, fmt);
    if result.success then
      "✓ " + (if result.message.Some? then NoticeText(result.message.value, fmt) else SuccessFallback)
    else
      "✗ " + (if result.error.Some? then ErrorText(result.error.value) else FailureFallback)
  }

  /** A result from the server's dispatcher always carries its own text, so the card never shows a fallback. */
  lemma ServerResultsNeedNoFallback(toolName: string, args: Args, ms: seq<Location>, id: MarkerId,
                                    g: Option<seq<Place>>, fmt: NumberFormat)
    ensures var r := ServerExecutor.ExecuteServerAction(toolName, args, ms, id, g);
      ResultText(r, fmt) != "✓ " + SuccessFallback && ResultText(r, fmt) != "✗ " + FailureFallback
  {
    var r := ServerExecutor.ExecuteServerAction(toolName, args, ms, id, g);
    var t := ResultText(r, fmt);
    if r.success {
      assert t[0] == '✓' && ("✗ " + FailureFallback)[0] == '✗';
      assert t[2..] == NoticeText(r.message.value, fmt);
      assert ("✓ " + SuccessFallback)[2..] == SuccessFallback;
      FallbackNotANotice(r.message.value, fmt);
    } else {
      assert t[0] == '✗' && ("✓ " + SuccessFallback)[0] == '✓';
      assert t[2..] == ErrorText(r.error.value);
      assert ("✗ " + FailureFallback)[2..] == FailureFallback;
      FallbackNotAnError(r.error.value);
    }
  }

  lemma FallbackNotANotice(n: Notice, fmt: NumberFormat)
    ensures NoticeText(n, fmt) != SuccessFallback
  {
    assert SuccessFallback[0] == 'A' && SuccessFallback[1] == 'c';
    match n {
      case MarkerAdded(_, _, _) =>
      case MarkerCreated(_, _, _) =>
      case MarkerRemoved =>
      case MarkersFound(_) =>
      case MapCentered(_, _) =>
      case LocationFound(_) =>
    }
  }

  lemma FallbackNotAnError(e: ToolError)
    ensures ErrorText(e) != FailureFallback
  {
    assert FailureFallback[0] == 'E' && FailureFallback[1] == 'r' && FailureFallback[2] == 'r';
  }
}
