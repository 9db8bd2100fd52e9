/**
 * The tools the assistant may call: their declarations, the arguments a call
 * carries and the uniform result envelope `{success, data?, error?, message?}`.
 */
module ToolCatalog {
  import opened Wrappers
  import opened Text
  import opened Sequences
  import opened Types

  /** One entry of a tool's `properties`: its key, JSON type, description and item type. */
  datatype Property = Property(key: string, typ: string, description: string, items: Option<string>)

  /** A tool declaration; `properties` keeps the declaration order. */
  datatype ToolDefinition = ToolDefinition(
    name: string,
    description: string,
    paramsType: string,
    properties: seq<Property>,
    required: seq<string>)

  const AddMarkerTool := "add_marker"
  const RemoveMarkerTool := "remove_marker"
  const ListMarkersTool := "list_markers"
  const CenterMapTool := "center_map"
  const SearchLocationTool := "search_location"
  const SearchWebTool := "search_web"
  const ModifyLocationTool := "modify_location"

  const AddMarkerDefinition: ToolDefinition := ToolDefinition(
    AddMarkerTool,
    "Agrega un nuevo marcador al mapa. Usa esta herramienta cuando el usuario pida agregar, guardar o marcar una ubicación.",
    "object",
    [ Property("name", "string", "Nombre descriptivo del marcador (ej: 'Cafetería Central', 'Calle Fernando Guanarteme, 70')", None),
      Property("latitude", "number", "Latitud de la ubicación (entre -90 y 90)", None),
      Property("longitude", "number", "Longitud de la ubicación (entre -180 y 180)", None),
      Property("address", "string", "Dirección de la calle con número (opcional, ej: 'Calle Fernando Guanarteme, 70')", None),
      Property("description", "string", "Información adicional: barrio, ciudad, provincia, país (opcional, ej: 'Guanarteme, Las Palmas de Gran Canaria, Canarias, España')", None),
      Property("CP", "string", "Código postal de la ubicación (opcional, ej: '35907')", None) ],
    ["name", "latitude", "longitude"])

  const RemoveMarkerDefinition: ToolDefinition := ToolDefinition(
    RemoveMarkerTool,
    "Elimina un marcador del mapa. Usa esta herramienta cuando el usuario pida eliminar, borrar o quitar un marcador.",
    "object",
    [ Property("marker_id", "string", "ID del marcador a eliminar. Debes obtenerlo primero con list_markers.", None) ],
    ["marker_id"])

  const ListMarkersDefinition: ToolDefinition := ToolDefinition(
    ListMarkersTool,
    "Lista todos los marcadores guardados en el mapa. Usa esta herramienta cuando el usuario pregunte qué marcadores tiene, cuántos son, o quiera ver la lista completa.",
    "object",
    [],
    [])

  const CenterMapDefinition: ToolDefinition := ToolDefinition(
    CenterMapTool,
    "Centra el mapa en unas coordenadas específicas. Usa esta herramienta cuando el usuario pida ir a una ubicación o centrar el mapa.",
    "object",
    [ Property("latitude", "number", "Latitud donde centrar el mapa", None),
      Property("longitude", "number", "Longitud donde centrar el mapa", None),
      Property("zoom", "number", "Nivel de zoom (opcional, entre 1 y 18)", None) ],
    ["latitude", "longitude"])

  const SearchLocationDefinition: ToolDefinition := ToolDefinition(
    SearchLocationTool,
    "Busca una ubicación por nombre o dirección usando geocoding. Usa esta herramienta cuando el usuario mencione un lugar pero no tengas las coordenadas.",
    "object",
    [ Property("query", "string", "Nombre del lugar o dirección a buscar (ej: 'Torre Eiffel', 'Calle Mayor 5, Madrid')", None) ],
    ["query"])

  const SearchWebDefinition: ToolDefinition := ToolDefinition(
    SearchWebTool,
    "Busca información en tiempo real en internet (Google). Usa esta herramienta para encontrar lugares, direcciones, horarios, eventos o cualquier información actual que no tengas en tu conocimiento base.",
    "object",
    [ Property("query", "string", "La consulta de búsqueda para Google (ej: 'mejores cafeterías en Madrid', 'farmacias de guardia cerca de mí')", None) ],
    ["query"])

  const ModifyLocationDefinition: ToolDefinition := ToolDefinition(
    ModifyLocationTool,
    "Modifica el grupo, etiquetas o descripción de una ubicación existente. Usa esta herramienta cuando el usuario quiera organizar sus marcadores (ej: 'Mueve el Mercadona a Favoritos', 'Añade etiqueta wifi a la biblioteca').",
    "object",
    [ Property("targetName", "string", "Nombre de la ubicación a editar (se buscará por coincidencia aproximada)", None),
      Property("newGroup", "string", "Nuevo nombre del grupo/carpeta (opcional)", None),
      Property("newTags", "array", "Lista de nuevas etiquetas a añadir (opcional)", Some("string")),
      Property("description", "string", "Nueva descripción para la ubicación (opcional)", None) ],
    ["targetName"])

  /** The catalog, in declaration order. */
  const AvailableTools: seq<ToolDefinition> := [
    AddMarkerDefinition, RemoveMarkerDefinition, ListMarkersDefinition, CenterMapDefinition,
    SearchLocationDefinition, SearchWebDefinition, ModifyLocationDefinition
  ]

  function PropertyKeys(ps: seq<Property>): (keys: seq<string>)
    ensures |keys| == |ps|
    ensures forall i :: 0 <= i < |ps| ==> keys[i] == ps[i].key
  {
    seq(|ps|, i requires 0 <= i < |ps| => ps[i].key)
  }

  function ToolNames(ts: seq<ToolDefinition>): (names: seq<string>)
    ensures |names| == |ts|
    ensures forall i :: 0 <= i < |ts| ==> names[i] == ts[i].name
  {
    seq(|ts|, i requires 0 <= i < |ts| => ts[i].name)
  }

  /** Distinct keys, and every required name is one of them. */
  predicate WellFormedTool(t: ToolDefinition)
  {
    NoDuplicates(PropertyKeys(t.properties))
    && forall r :: r in t.required ==> r in PropertyKeys(t.properties)
  }

  /** The names in declaration order. */
  lemma CatalogNames()
    ensures ToolNames(AvailableTools) ==
      [AddMarkerTool, RemoveMarkerTool, ListMarkersTool, CenterMapTool,
       SearchLocationTool, SearchWebTool, ModifyLocationTool]
  {
  }

  lemma NamesDistinct()
    ensures NoDuplicates([AddMarkerTool, RemoveMarkerTool, ListMarkersTool, CenterMapTool,
                          SearchLocationTool, SearchWebTool, ModifyLocationTool])
  {
    var names := [AddMarkerTool, RemoveMarkerTool, ListMarkersTool, CenterMapTool,
                  SearchLocationTool, SearchWebTool, ModifyLocationTool];
    assert forall i :: 0 <= i < |names| ==> names[i][0] == "arlcssm"[i];
    assert forall i :: 0 <= i < |names| ==> |names[i]| == [10, 13, 12, 10, 15, 10, 15][i];
  }

  lemma AddMarkerWellFormed()
    ensures WellFormedTool(AddMarkerDefinition)
  {
    AddMarkerKeys();
    AddMarkerKeysDistinct();
  }

  lemma AddMarkerKeys()
    ensures PropertyKeys(AddMarkerDefinition.properties) == ["name", "latitude", "longitude", "address", "description", "CP"]
  {
  }

  lemma AddMarkerKeysDistinct()
    ensures NoDuplicates(["name", "latitude", "longitude", "address", "description", "CP"])
  {
    var keys := ["name", "latitude", "longitude", "address", "description", "CP"];
    assert forall j :: 0 <= j < |keys| ==> |keys[j]| == [4, 8, 9, 7, 11, 2][j];
    assert keys[1][0] == 'l' && keys[2][0] == 'l';
  }

  lemma CenterMapWellFormed()
    ensures WellFormedTool(CenterMapDefinition)
  {
    var keys := PropertyKeys(CenterMapDefinition.properties);
    assert keys == ["latitude", "longitude", "zoom"];
    assert forall j :: 0 <= j < |keys| ==> |keys[j]| == [8, 9, 4][j];
  }

  lemma ModifyLocationWellFormed()
    ensures WellFormedTool(ModifyLocationDefinition)
  {
    var keys := PropertyKeys(ModifyLocationDefinition.properties);
    assert keys == ["targetName", "newGroup", "newTags", "description"];
    assert forall j :: 0 <= j < |keys| ==> |keys[j]| == [10, 8, 7, 11][j];
  }

  lemma OneKeyToolsWellFormed()
    ensures WellFormedTool(RemoveMarkerDefinition) && WellFormedTool(ListMarkersDefinition)
    ensures WellFormedTool(SearchLocationDefinition) && WellFormedTool(SearchWebDefinition)
  {
    assert PropertyKeys(RemoveMarkerDefinition.properties) == ["marker_id"];
    assert PropertyKeys(SearchLocationDefinition.properties) == ["query"];
    assert PropertyKeys(SearchWebDefinition.properties) == ["query"];
  }

  /** Seven tools with pairwise distinct names. */
  lemma CatalogNamesDistinct()
    ensures |AvailableTools| == 7
    ensures NoDuplicates(ToolNames(AvailableTools))
  {
    CatalogNames();
    NamesDistinct();
  }

  /** Every tool's keys are distinct and its required names are among them. */
  lemma CatalogWellFormed()
    ensures forall i :: 0 <= i < |AvailableTools| ==> WellFormedTool(AvailableTools[i])
  {
    AddMarkerWellFormed();
    CenterMapWellFormed();
    ModifyLocationWellFormed();
    OneKeyToolsWellFormed();
  }

  // ---------------------------------------------------------------------------
  // Calls and results

  /**
   * The arguments of one call, for every parameter a dispatcher reads. The
   * catalog's required parameters are present; the optional ones may be absent.
   */
  datatype Args = Args(
    name: string,
    latitude: real,
    longitude: real,
    address: Option<string>,
    description: Option<string>,
    cp: Option<string>,
    markerId: MarkerId,
    zoom: Option<real>,
    query: string)

  /** A geocoding hit; only its display name is read. */
  datatype Place = Place(displayName: string, lat: string, lon: string)

  /** The `data` a successful result may carry. */
  datatype Data =
    | AddedMarker(markerId: MarkerId, name: string, latitude: real, longitude: real,
                  address: Option<string>, description: Option<string>, cp: Option<string>)
    | MarkerList(markers: seq<Location>)
    | NewMarker(entry: PartialLocation)
    | RemovedId(id: MarkerId)
    | CenterTarget(latitude: real, longitude: real, zoom: Option<real>)
    | FoundPlace(place: Place)

  /** The failures a dispatcher reports. */
  datatype ToolError =
    | InvalidLatitude
    | InvalidLongitude
    | MarkerNotFound
    | NoResults(query: string)
    | UnknownTool(toolName: string)

  /** The confirmations a dispatcher reports. */
  datatype Notice =
    | MarkerAdded(name: string, latitude: real, longitude: real)
    | MarkerCreated(name: string, latitude: real, longitude: real)
    | MarkerRemoved
    | MarkersFound(count: nat)
    | MapCentered(latitude: real, longitude: real)
    | LocationFound(displayName: string)

  datatype ToolResult = ToolResult(success: bool, data: Option<Data>, error: Option<ToolError>, message: Option<Notice>)

  function Failure(e: ToolError): ToolResult
  {
    ToolResult(false, None, Some(e), None)
  }

  /** One entry of the audit list: the call and what it returned. */
  datatype ToolUse = ToolUse(name: string, parameters: Args, result: ToolResult)

  /** Number rendering, which this model does not interpret: `toFixed(4)` and `String(n)`. */
  datatype NumberFormat = NumberFormat(fixed4: real -> string, plain: real -> string)

  /** `latitude < -90 || latitude > 90`. */
  predicate LatitudeOutOfRange(latitude: real)
  {
    latitude < -90.0 || latitude > 90.0
  }

  /** `longitude < -180 || longitude > 180`. */
  predicate LongitudeOutOfRange(longitude: real)
  {
    longitude < -180.0 || longitude > 180.0
  }

  /** The `error` string of each failure. */
  function ErrorText(e: ToolError): string
  {
    match e
    case InvalidLatitude => "Latitud inválida (debe estar entre -90 y 90)"
    case InvalidLongitude => "Longitud inválida (debe estar entre -180 y 180)"
    case MarkerNotFound => "No se encontró el marcador con ese ID"
    case NoResults(query) => "No se encontraron resultados para \"" + query + "\""
    case UnknownTool(toolName) => "Herramienta desconocida: " + toolName
  }

  function Position(latitude: real, longitude: real, fmt: NumberFormat): string
  {
    "[" + fmt.fixed4(latitude) + ", " + fmt.fixed4(longitude) + "]"
  }

  /** The `message` string of each confirmation. */
  function NoticeText(n: Notice, fmt: NumberFormat): string
  {
    match n
    case MarkerAdded(name, lat, lng) => "Marcador \"" + name + "\" agregado exitosamente en " + Position(lat, lng, fmt)
    case MarkerCreated(name, lat, lng) => "Marcador \"" + name + "\" creado exitosamente en " + Position(lat, lng, fmt)
    case MarkerRemoved => "Marcador eliminado exitosamente"
    case MarkersFound(count) => "Se encontraron " + NatText(count) + " marcadores"
    case MapCentered(lat, lng) => "Mapa centrado en " + Position(lat, lng, fmt)
    case LocationFound(displayName) => "Ubicación encontrada: " + displayName
  }

  /** Every failure and every confirmation has a non-empty text, so `||` fallbacks never fire on them. */
  lemma TextsNonEmpty(e: ToolError, n: Notice, fmt: NumberFormat)
    ensures ErrorText(e) != "" && NoticeText(n, fmt) != ""
  {
  }
}
