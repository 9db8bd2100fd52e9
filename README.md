# mapa-interactivo, modelled in Dafny

mapa-interactivo is a Next.js/React application. It shows saved places
("locations", shown as markers) on a map, with a chat assistant backed by
Google's Gemini model. The assistant is given a catalogue of tools
(`add_marker`, `remove_marker`, `list_markers`, `center_map`,
`search_location`, `search_web`, `modify_location`). The tools run in one
of two places:

- in the browser, through `executeTool` against the client-side stores;
- on the server, in the `/api/chat` route through `executeServerAction`.

When the tools run on the server, their results are replayed on the
client by `processServerActions`.

Around the chat sit these parts, all of which this project models:

- the zustand stores for markers, toasts, chat messages and modals;
- a promise-based modal layer: `useModal` with `ModalProvider`,
  `ConfirmDialog` and `PromptDialog`;
- the location and add-marker forms;
- the group helpers: normalisation, unique sorted groups, statistics,
  buckets and deterministic group colours;
- the text the chat shows for each tool action.

## How the model is laid out

There is one module per core source file. A few shared modules support
them:

- `Wrappers` has `Option`.
- `Text` has the JavaScript string operations used: `trim`,
  `split`, `join`, decimal text of a natural number, ASCII upper-casing
  and `includes`.
- `Sequences` has the `filter(x => x.id !== id)` idiom.
- `GenAi` holds the SDK's requests, replies and declarations as data.
- `StoreApi` holds the store interface the chat hooks call, as a log of
  calls and toasts.

Stores whose fields the source updates in place are classes:

- `MapStore.MapState`, `ToastStore.ToastState`, `ChatStore.ChatState`;
- `ModalStore.ModalStack` and `ModalHook.Promises`;
- `PromptDialog.PromptState`, `LocationModal.LocationForm` and
  `AddMarkerModal.AddMarkerForm`;
- `StoreApi.StoreClient` and `ChatActions.ChatActionsContext`.

Each method is proved against a specification function, and the
properties are lemmas about those functions. Loops in the source stay
loops. Each of these is a method with invariants, proved equal to a
recursive function:

- `hashString`;
- `getUniqueGroups`, `getGroupStats`, `groupLocations` and `getUsedColors`;
- `buildMapContext`;
- `processServerActions`;
- the route's tool loop and the client's tool loop.

Things outside the program are parameters:

- the model's replies (`replies: nat -> SdkReply`);
- geocoder answers;
- fresh ids and clocks;
- the number formatting of `toFixed` and `Number#toString` (`NumberFormat`);
- `JSON.stringify`.

A promise is a one-shot cell (`map<nat, Outcome>`). The first
settlement wins, as with JavaScript's `resolve`.

## Model

| member | source | states |
|---|---|---|
| Wrappers.Option.GetOr | hooks/useToastStore.ts:27-28 | the `??` fallback: the present value, or the default when absent |
| Text.TrimStart | components/LocationModal.tsx:111 | the result is the suffix left after dropping only whitespace, and starts with non-whitespace |
| Text.TrimEnd | components/LocationModal.tsx:111 | the result is the prefix left after dropping only whitespace, and ends with non-whitespace |
| Text.Trim | components/LocationModal.tsx:89 | `trim()`: result is trimmed, no longer than the input, empty exactly for blank input, and unchanged on trimmed input |
| Text.TrimRemovesEnds | components/AddMarkerModal.tsx:39-42 | `trim()` removes white space at the two ends only: the result is a contiguous piece of the input with only white space before and after it |
| Text.TrimLeadingSpace | components/LocationModal.tsx:106-109 | trimming a space in front of a trimmed non-empty text gives the text back |
| Text.OrDefault | types/index.ts:58-62 | the `a \|\| d` idiom: the value when it is a non-empty string, else the default |
| Text.Split | components/LocationModal.tsx:107 | `split(sep)` yields at least one piece and no piece contains the separator |
| Text.SplitNoSeparator | components/LocationModal.tsx:107 | a text without the separator splits into itself alone |
| Text.SplitAtSeparator | components/LocationModal.tsx:107 | splitting `a + sep + b` gives `a` followed by the pieces of `b` |
| Text.Join | components/LocationModal.tsx:59 | `join`: empty list gives "", a single element gives itself |
| Text.Digit | app/api/chat/route.ts:53-55 | a decimal digit character whose value is the given digit |
| Text.NatText | app/api/chat/route.ts:53-55 | the decimal text of a count or index: non-empty, digits only, and its decimal value is the number |
| Text.NatTextInjective | app/api/chat/route.ts:53-55 | different numbers give different texts |
| Text.ToUpperAscii | app/api/chat/route.ts:21-29 | `toUpperCase()` on ASCII: same length, no lower-case letter left, others unchanged, letters shifted by 32 |
| Sequences.RemoveKey | hooks/useMapStore.ts:54-57 | `filter(x => key(x) !== id)`: keeps exactly the elements with another key, in order; unchanged when none match |
| Sequences.RemoveKeyConcat | hooks/useToastStore.ts:37 | filtering distributes over concatenation |
| Sequences.RemoveKeyIdempotent | hooks/useModalStore.ts:102-106 | removing the same id twice is the same as once |
| Types.NormalizeLocation | types/index.ts:57-66 | every field falls back as the source says (falsy id, name, description, address, CP and group; missing coordinates and tags); the result always has a name, a group and tags |
| Types.NormalizeKeepsComplete | types/index.ts:57-66 | a complete location normalises to itself |
| Types.NormalizeIdempotent | types/index.ts:57-66 | normalising twice is normalising once |
| Types.FindById | hooks/useChatActions.ts:51 | `find(m => m.id === id)`: found exactly when some marker has the id, and the found one is in the list with that id |
| Types.FindByIdFirst | hooks/useChatActions.ts:51 | `find` returns the first match: the found record sits at some index before which no record has the id |
| Types.LexLessIrreflexive | types/index.ts:74-79 | the string order used for groups is irreflexive |
| Types.LexLessTotal | types/index.ts:74-79 | any two different strings are ordered one way |
| Types.LexLessAsymmetric | types/index.ts:74-79 | the order is asymmetric |
| Types.LexLessTransitive | types/index.ts:74-79 | the order is transitive |
| Types.BeforeTotal | types/index.ts:74-79 | the group comparator puts exactly one of two different groups first |
| Types.BeforeTransitive | types/index.ts:74-79 | the group comparator is transitive |
| Types.DefaultGroupFirst | types/index.ts:75-76 | "Inbox" sorts before every other group |
| Types.InsertGroupSorted | types/index.ts:74-79 | inserting a new group into a sorted duplicate-free list keeps it sorted and duplicate-free and adds exactly that group |
| Types.SortGroups | types/index.ts:74-79 | the sort yields a sorted permutation of its input |
| Types.GroupsOfSnoc | types/index.ts:73 | one more location adds exactly its group to the set of groups |
| Types.UniqueGroups | types/index.ts:71-80 | `getUniqueGroups`: each group of the input exactly once, sorted, with "Inbox" first when present |
| Types.CountGroupPositive | types/index.ts:86-91 | a group has a positive count exactly when some location is in it |
| Types.GroupStats | types/index.ts:86-91 | `getGroupStats`: one entry per group present, holding the number of its locations |
| Types.InGroup | types/index.ts:97-102 | a group's bucket holds only input locations of that group, as many as the group's count |
| Types.InGroupContains | types/index.ts:97-102 | every location is in the bucket of its own group |
| Types.GroupLocations | types/index.ts:97-102 | `groupLocations`: one bucket per group present, holding that group's locations in input order |
| Types.OccurrencesOfDistinct | types/index.ts:71-80 | a group occurs once in the unique-groups list |
| Types.OccurrencesAbsent | types/index.ts:71-80 | a group not in the list occurs zero times |
| Types.SumCountsSnoc | types/index.ts:86-91 | adding a location adds its group's occurrences to the sum of counts |
| Types.CountsSumToLength | types/index.ts:86-91 | summing the counts over a duplicate-free cover of the groups gives the number of locations |
| Types.SumCountsEmpty | types/index.ts:86-91 | no locations give a zero sum |
| Types.StatsCoverInput | types/index.ts:86-91 | the statistics over the unique groups add up to the number of locations |
| Types.BucketsPartition | types/index.ts:97-102 | a location is in a group's bucket exactly when that is its group, so buckets partition the input |
| MapStore.Retitled | hooks/useMapStore.ts:59-61 | `renameMarker`: same length, the markers with the id get the new title, the others are unchanged |
| MapStore.RetitledAbsent | hooks/useMapStore.ts:59-61 | renaming an id no marker has changes nothing |
| MapStore.RemoveMarkerKeepsOthers | hooks/useMapStore.ts:54-57 | after removal a marker remains exactly when it was there with another id |
| MapStore.MapState.constructor | hooks/useMapStore.ts:41-45 | the store starts with no markers, no selection, no centre and no zoom |
| MapStore.MapState.AddMarker | hooks/useMapStore.ts:47-52 | appends one marker, with the given id if any, else a fresh one, and returns that id; nothing else changes |
| MapStore.MapState.RemoveMarker | hooks/useMapStore.ts:54-57 | drops the markers with the id and clears the selection if it was that id |
| MapStore.MapState.RenameMarker | hooks/useMapStore.ts:59-61 | retitles the markers with the id and changes nothing else |
| MapStore.MapState.SetCenter | hooks/useMapStore.ts:63 | sets the centre only |
| MapStore.MapState.SetZoom | hooks/useMapStore.ts:64 | sets the zoom only |
| MapStore.MapState.SelectMarker | hooks/useMapStore.ts:65 | sets the selection only |
| MapStore.MapState.Clear | hooks/useMapStore.ts:66 | empties markers and selection, keeping centre and zoom |
| ToastStore.EffectiveTimeout | hooks/useToastStore.ts:28 | `timeout ?? 3000`: the default only when absent, so an explicit 0 stays 0 |
| ToastStore.ZeroTimeoutIsKept | hooks/useToastStore.ts:28-34 | a zero timeout schedules no dismissal; a missing one does |
| ToastStore.ToastState.constructor | hooks/useToastStore.ts:25 | no toasts at first |
| ToastStore.ToastState.Enqueue | hooks/useToastStore.ts:26-36 | appends the toast under its own id or a fresh one, with its effective timeout, returns the id, and schedules dismissal exactly when the timeout is positive |
| ToastStore.ToastState.Dismiss | hooks/useToastStore.ts:37 | removes the toasts with that id |
| ToastStore.ToastState.Clear | hooks/useToastStore.ts:38 | removes all toasts |
| ChatStore.EntryOf | hooks/useChatStore.ts:101-110 | a system message gives no history entry; any other gives one with its content, as "user" for the user and "model" for assistant and action messages |
| ChatStore.HistoryOf | hooks/useChatStore.ts:101-110 | `getHistory`: no longer than the messages, and every role is "model" or "user" |
| ChatStore.CountNonSystem | hooks/useChatStore.ts:103 | the number of non-system messages is at most the number of messages |
| ChatStore.HistoryOfConcat | hooks/useChatStore.ts:101-110 | the history of concatenated messages is the concatenation of histories |
| ChatStore.HistoryLength | hooks/useChatStore.ts:101-110 | the history has one entry per non-system message |
| ChatStore.HistoryHasNoAssistantRole | hooks/useChatStore.ts:106 | no history entry carries the role "assistant" |
| ChatStore.AddMessageHistory | hooks/useChatStore.ts:77-93 | adding a message extends the history by exactly that message's entry |
| ChatStore.ChatState.constructor | hooks/useChatStore.ts:73-75 | no messages, not loading, no error |
| ChatStore.ChatState.AddMessage | hooks/useChatStore.ts:77-93 | appends the message with a fresh id and timestamp, returns the id, clears the error and keeps the loading flag |
| ChatStore.ChatState.SetLoading | hooks/useChatStore.ts:95 | sets only the loading flag |
| ChatStore.ChatState.SetError | hooks/useChatStore.ts:97 | sets only the error |
| ChatStore.ChatState.ClearChat | hooks/useChatStore.ts:99 | empties messages, error and loading |
| ChatStore.ChatState.GetHistory | hooks/useChatStore.ts:101-110 | the history of the stored messages, with roles "model" and "user" only |
| ChatStore.ChatState.Persisted | hooks/useChatStore.ts:112-119 | persistence keeps exactly the messages, in order, and the history can be rebuilt from them |
| ChatStore.ChatState.Rehydrate | hooks/useChatStore.ts:112-119 | reloading a persisted slice restores the messages and their history; the loading flag and the error, which are not persisted, start afresh |
| StoreApi.CountAdds | hooks/useChatActions.ts:27-33 | the number of add calls in a log is at most its length |
| StoreApi.CountAddsConcat | hooks/useServerActions.ts:107-132 | add calls of concatenated logs add up |
| StoreApi.StoreClient.constructor | hooks/useChatActions.ts:13-20 | empty call and toast logs |
| StoreApi.StoreClient.Call | hooks/useChatActions.ts:27-33 | records one store call and no toast |
| StoreApi.StoreClient.Toast | hooks/useChatActions.ts:35-39 | records one toast and no store call |
| ChatActions.NewEntry | hooks/useChatActions.ts:27-33 | the entry `addMarker` stores: the given name and coordinates, address and description defaulting to "", empty CP, no id, group or tags |
| ChatActions.CenterCalls | hooks/useChatActions.ts:119-133 | `centerMap` always sets the centre first, and sets the zoom second exactly when a zoom is given |
| ChatActions.ChatActionsContext.constructor | hooks/useChatActions.ts:13-20 | the context holds the current markers and the store |
| ChatActions.ChatActionsContext.AddMarker | hooks/useChatActions.ts:25-44 | one add call with that entry and one success toast, returning the store's id |
| ChatActions.ChatActionsContext.RemoveMarker | hooks/useChatActions.ts:49-65 | succeeds exactly when a marker has the id; then one remove call and a toast naming it, else nothing at all |
| ChatActions.ChatActionsContext.UpdateMarker | hooks/useChatActions.ts:70-86 | succeeds exactly when a marker has the id; then one update call and a toast naming it, else nothing at all |
| ChatActions.ChatActionsContext.ListMarkers | hooks/useChatActions.ts:91-93 | returns exactly the current markers |
| ChatActions.ChatActionsContext.CenterMap | hooks/useChatActions.ts:119-133 | the centre calls, then one toast |
| Colors.HashString | lib/colors.ts:30-36 | the loop computes the sum of the UTF-16 code units |
| Colors.HashEmpty | lib/colors.ts:30-36 | the empty name hashes to 0 |
| Colors.HashConcat | lib/colors.ts:30-36 | the hash of a concatenation is the sum of the hashes |
| Colors.HashRemoveAt | lib/colors.ts:30-36 | removing one character subtracts its code units from the hash |
| Colors.MultisetRemoveAt | lib/colors.ts:30-36 | removing one character removes it from the multiset of characters |
| Colors.HashAnagram | lib/colors.ts:30-36 | names with the same characters in any order hash alike |
| Colors.GroupColor | lib/colors.ts:49-59 | "Inbox" is grey; any other group gets the palette entry at hash modulo palette size; always a palette colour or grey |
| Colors.InboxColorExclusive | lib/colors.ts:49-59 | a group is grey exactly when it is "Inbox" |
| Colors.AnagramsShareColor | lib/colors.ts:49-59 | anagram group names other than "Inbox" get the same colour |
| Colors.HashFarmacia | lib/colors.ts:30-36 | "Farmacia" hashes to 788 |
| Colors.HashTrabajo | lib/colors.ts:30-36 | "Trabajo" hashes to 707 |
| Colors.SampleColors | lib/colors.ts:8-19 | "Farmacia" is pink `#ec4899` and "Trabajo" fuchsia `#d946ef` |
| Colors.UsedColors | lib/colors.ts:84-90 | `getUsedColors`: one entry per distinct name given, holding its group colour |
| ToolCatalog.PropertyKeys | lib/chat-tools.ts:7-20 | the keys of the declared parameters, in order |
| ToolCatalog.ToolNames | lib/chat-tools.ts:47-184 | the names of the tools, in order |
| ToolCatalog.CatalogNames | lib/chat-tools.ts:47-184 | the catalogue lists the seven tools in source order |
| ToolCatalog.NamesDistinct | lib/chat-tools.ts:47-184 | the seven tool names are pairwise different |
| ToolCatalog.AddMarkerWellFormed | lib/chat-tools.ts:49-81 | every required parameter of `add_marker` is declared, and keys are distinct |
| ToolCatalog.CenterMapWellFormed | lib/chat-tools.ts:106-126 | the same for `center_map` |
| ToolCatalog.ModifyLocationWellFormed | lib/chat-tools.ts:156-183 | the same for `modify_location` |
| ToolCatalog.OneKeyToolsWellFormed | lib/chat-tools.ts:83-154 | the same for `remove_marker`, `list_markers`, `search_location` and `search_web` |
| ToolCatalog.CatalogNamesDistinct | lib/chat-tools.ts:47-184 | seven tools with distinct names |
| ToolCatalog.CatalogWellFormed | lib/chat-tools.ts:47-184 | every tool of the catalogue is well formed |
| ToolCatalog.TextsNonEmpty | lib/chat-tools.ts:196-286 | every error and notice text of a tool result is non-empty |
| ToolExecutor.UndispatchedCatalogTools | lib/chat-tools.ts:274-278 | `search_web` and `modify_location` are the catalogue tools `executeTool` does not handle |
| ToolExecutor.SearchOutcome | lib/chat-tools.ts:256-272 | search succeeds exactly when the geocoder returns a place; then the first place is returned, else the no-results error for the query |
| ToolExecutor.ClientResult | lib/chat-tools.ts:189-287 | success exactly when there is no error. Add succeeds exactly when the coordinates are in range, checks the latitude first, and answers with the store's id. Remove succeeds exactly when the marker exists, else the not-found error. List always succeeds and answers with the markers; center always succeeds. Unknown tools fail as unknown |
| ToolExecutor.ClientEffectsOnSuccessOnly | lib/chat-tools.ts:189-287 | a failed tool touches no store and shows no toast; at most one toast and at most two store calls; an add call is made exactly when `add_marker` succeeds |
| ToolExecutor.ExecuteTool | lib/chat-tools.ts:189-287 | `executeTool` returns the tool's result and appends its store calls and toasts |
| ServerExecutor.ServerEntry | app/api/chat/actions.ts:66-78 | the entry the server reports: the generated id, name, coordinates, address and description defaulting to "", empty CP |
| ServerExecutor.TruthyZoom | app/api/chat/actions.ts:110-123 | the zoom is passed on only when present and non-zero |
| ServerExecutor.ExecuteServerAction | app/api/chat/actions.ts:38-159 | success exactly when there is no error; failures carry no data and no message; successes carry a message |
| ServerExecutor.AddMarkerRangeChecks | app/api/chat/actions.ts:45-78 | latitude is checked before longitude; an add succeeds exactly when both are in range |
| ServerExecutor.AddMarkerDropsPostalCode | app/api/chat/actions.ts:66-78 | a successful add reports an entry with an empty CP, even when a postal code was given |
| ServerExecutor.RemoveMarkerIffPresent | app/api/chat/actions.ts:80-99 | removal succeeds exactly when the request's markers hold the id |
| ServerExecutor.ListMarkersEchoes | app/api/chat/actions.ts:101-108 | listing returns the request's markers |
| ServerExecutor.CenterMapEchoes | app/api/chat/actions.ts:110-123 | centring always succeeds and echoes the coordinates |
| ServerExecutor.UnknownToolsFail | app/api/chat/actions.ts:146-150 | any other tool name fails as unknown |
| ServerExecutor.DeclaredButUnknown | app/api/chat/actions.ts:146-150 | `search_web` and `modify_location` are declared to the model yet fail as unknown |
| ServerExecutor.RemoveAfterAddInSameTurnFails | app/api/chat/actions.ts:80-99 | removing a marker added earlier in the same request fails, because the server sees only the request's markers |
| ServerExecutor.ClientServerAgree | app/api/chat/actions.ts:38-159 | client and server executors agree on success and on the error for every tool and argument |
| GenAi.ResponsesOf | app/api/chat/route.ts:198-220 | one function response per tool run, with its name and result |
| ActionApplier.NameText | hooks/useServerActions.ts:49 | a missing name prints as "undefined" |
| ActionApplier.FailureMessage | hooks/useServerActions.ts:30-38 | the error text of a failed action, or the generic fallback; never empty |
| ActionApplier.ActionCalls | hooks/useServerActions.ts:42-94 | store calls only for applied add, remove and center actions: add with the server's entry, remove with the server's id, centre then zoom when truthy |
| ActionApplier.ActionToasts | hooks/useServerActions.ts:25-100 | a failure gives one error toast of 5 s; a success gives one toast exactly for add, remove and center |
| ActionApplier.ProcessAction | hooks/useServerActions.ts:25-100 | `processAction` applies the calls and toasts above and reports whether the action was applied |
| ActionApplier.AllCalls | hooks/useServerActions.ts:107-132 | replaying actions makes at most two store calls per action |
| ActionApplier.AllToasts | hooks/useServerActions.ts:107-132 | at most one toast per action |
| ActionApplier.CountApplied | hooks/useServerActions.ts:107-132 | at most one applied per action |
| ActionApplier.PrefixStep | hooks/useServerActions.ts:115-126 | one more action extends calls, toasts and count by that action's share |
| ActionApplier.ProcessServerActions | hooks/useServerActions.ts:107-132 | `processServerActions`: processed counts applied actions, processed + failed is the total, success exactly when none failed, and the stores get all calls and toasts in order |
| ActionApplier.FailureOnlyToasts | hooks/useServerActions.ts:30-38 | a failed action makes no store call and exactly one error toast |
| ActionApplier.DataOnlyTools | hooks/useServerActions.ts:89-94 | list and search results are applied with no store call and no toast |
| ActionApplier.UnroutedRejected | hooks/useServerActions.ts:96-98 | an unknown tool's success is not applied and has no effect |
| ActionApplier.AllCallsConcat | hooks/useServerActions.ts:107-132 | replay distributes over concatenation |
| ActionApplier.ReplayDuplicatesAdds | hooks/useServerActions.ts:107-132 | replaying the same actions twice doubles the markers added |
| ActionApplier.ServerResultsShaped | app/api/chat/actions.ts:38-159 | every server result has the shape the replay expects |
| ActionApplier.AppliedAddUsesServerId | hooks/useServerActions.ts:42-53 | a replayed add stores the entry with the id the server generated |
| ActionApplier.ServerDropsZeroZoom | hooks/useServerActions.ts:68-87 | a zoom of 0 is dropped: centring makes one call only |
| MapContext.Whereabouts | app/api/chat/route.ts:55 | a marker is placed by its address, or by "lat, lng" when the address is empty |
| MapContext.MarkerLines | app/api/chat/route.ts:54-60 | one line per marker, in order, numbered from 1 |
| MapContext.HeadLines | app/api/chat/route.ts:44-48 | the header, then the centre line exactly when a centre is given |
| MapContext.BodyLines | app/api/chat/route.ts:50-61 | one summary line plus one line per marker |
| MapContext.ContextLines | app/api/chat/route.ts:40-61 | header first; 2 lines plus one per marker plus one for a centre |
| MapContext.LinesConcat | app/api/chat/route.ts:40-61 | joining lines distributes over concatenation |
| MapContext.SplitLines | app/api/chat/route.ts:40-61 | single-line entries joined with newlines split back into the same lines |
| MapContext.BuildMapContext | app/api/chat/route.ts:40-61 | `buildMapContext` builds the text of the context lines |
| MapContext.StartContext | app/api/chat/route.ts:44-48 | the first phase yields the header and centre lines |
| MapContext.AppendMarkerSection | app/api/chat/route.ts:50-61 | the second phase appends the marker section |
| MapContext.AppendMarkerLines | app/api/chat/route.ts:54-60 | the `forEach` appends one line per marker |
| MapContext.CenterLineIffCenter | lib/ai-service.ts:37-39 | the context has a centre line exactly when a centre is given |
| MapContext.EmptyMapLine | lib/ai-service.ts:41-42 | the empty-map line appears exactly when there are no markers |
| MapContext.MarkerSection | lib/ai-service.ts:43-51 | with markers, the last lines are the marker lines in order |
| MapContext.ContextLineStructure | lib/ai-service.ts:31-55 | when names, descriptions and places have no newline, the text splits on newlines into exactly the context lines |
| ChatRoute.ConvertProperty | app/api/chat/route.ts:17-27 | a parameter keeps key and description; its type, and its items' type, are upper-cased |
| ChatRoute.ConvertTool | app/api/chat/route.ts:12-33 | a declaration keeps name, description, required list and parameters in order, as an OBJECT |
| ChatRoute.ConvertTools | app/api/chat/route.ts:11-35 | one declaration per tool, in order |
| ChatRoute.DeclKeys | app/api/chat/route.ts:17-27 | the keys of declared parameters, in order |
| ChatRoute.ConvertKeepsShape | app/api/chat/route.ts:11-35 | conversion keeps the keys, required names stay declared, and types contain no lower-case letter |
| ChatRoute.ConvertToolsKeepShape | app/api/chat/route.ts:11-35 | every converted tool keeps its name and declares its required parameters |
| ChatRoute.ValidMessage | app/api/chat/route.ts:82-87 | a missing field, a non-string and the empty string are refused; every non-empty string is accepted |
| ChatRoute.Status | app/api/chat/route.ts:82-256 | 200, 400 and 500 correspond to answer, rejected request and server error |
| ChatRoute.ErrorMessage | app/api/chat/route.ts:244-256 | a thrown Error reports its message; anything else the fallback |
| ChatRoute.SystemInstruction | app/api/chat/route.ts:110-134 | the instruction starts with the opening and then the map context |
| ChatRoute.RouteRole | app/api/chat/route.ts:156-159 | "assistant" becomes "model"; every other role becomes "user" |
| ChatRoute.RouteHistory | app/api/chat/route.ts:156-159 | one turn per history entry, same text, role mapped |
| ChatRoute.StoreHistoryArrivesAsUser | app/api/chat/route.ts:156-159 | the store's history never says "assistant", so the route sends every past turn as "user" |
| ChatRoute.SessionSetup | app/api/chat/route.ts:104-164 | the session is set up with the mapped history |
| ChatRoute.RunCalls | app/api/chat/route.ts:198-220 | one tool use recorded per call |
| ChatRoute.RouteLoop | app/api/chat/route.ts:184-233 | the loop never passes the maximum depth; it sends one message per round; it only appends to the tools used; it stops with pending calls only at the cap |
| ChatRoute.PostSpec | app/api/chat/route.ts:70-256 | a request reaches the model exactly when the message is a non-empty string and the key is set; an answer sends at most 1 + cap messages; `toolsUsed` is absent rather than empty |
| ChatRoute.PostRunsLoop | app/api/chat/route.ts:168-243 | a valid request answers with the loop's last text and tools, or with the thrown error |
| ChatRoute.PostRejects | app/api/chat/route.ts:82-101 | a bad message is a 400 before the key is checked; a missing key is a 500; neither sends anything |
| ChatRoute.LoopEndsOnLastReply | app/api/chat/route.ts:184-233 | unless something was thrown, the loop ends on the last reply: its text and its unrun calls |
| ChatRoute.LoopCappedAtMaxDepth | app/api/chat/route.ts:184-233 | a model that always asks for calls is cut off after the cap of rounds, calls still pending |
| ChatRoute.FirstRoundRecorded | app/api/chat/route.ts:198-220 | the first round's tool uses come first in `toolsUsed` |
| ChatRoute.SameReplyAddThenRemoveFails | app/api/chat/route.ts:198-220 | adding and then removing the new marker in one reply reports the removal as failed |
| ChatRoute.PostAnswersWithLastReply | app/api/chat/route.ts:236-243 | the answer's text is the text of the last reply received |
| ChatRoute.RunRound | app/api/chat/route.ts:198-220 | the inner loop records the round's tool uses and builds their responses |
| ChatRoute.RunLoop | app/api/chat/route.ts:184-233 | the outer loop computes the route loop |
| ChatRoute.Post | app/api/chat/route.ts:70-256 | `POST` computes the exchange, and sets up a session exactly when it sends something |
| AiService.ClientDeclaration | lib/ai-service.ts:60-76 | one declared parameter per tool parameter |
| AiService.ClientDeclarations | lib/ai-service.ts:60-76 | one declaration per tool |
| AiService.ClientDeclarationsDropItems | lib/ai-service.ts:60-76 | the client declaration keeps names and keys but drops the array item type |
| AiService.Preamble | lib/ai-service.ts:127-150 | the preamble starts with the opening and then the map context |
| AiService.ClientRole | lib/ai-service.ts:153-160 | "model" stays "model"; every other role becomes "user" |
| AiService.PriorTurns | lib/ai-service.ts:153-160 | one turn per history entry, same text, role mapped |
| AiService.StoreHistoryKeepsRoles | lib/ai-service.ts:153-160 | the store's history keeps its roles, so model turns arrive as "model" |
| AiService.SetupOf | lib/ai-service.ts:107-160 | tools are declared exactly when an actions context is given; the history is preamble, fixed model reply, then the prior turns |
| AiService.RewriteError | lib/ai-service.ts:218-227 | errors mentioning "API" or "key" become the configuration error; other errors get the prefix; non-errors the unknown error |
| AiService.ContainsSuffix | lib/ai-service.ts:219 | a text containing the needle at some position contains it |
| AiService.MissingKeyBecomesConfigError | lib/ai-service.ts:16-26 | the missing-key error is reported as the configuration error |
| AiService.AnyKeySubstringIsConfigError | lib/ai-service.ts:218-222 | any message containing "key", even inside a word, becomes the configuration error |
| AiService.OtherErrorsKeepMessage | lib/ai-service.ts:224 | another error keeps its message behind the prefix |
| AiService.NotContainsWithoutFirst | lib/ai-service.ts:219 | a text without the needle's first character does not contain it |
| AiService.ClientLoop | lib/ai-service.ts:182-207 | every call of the first reply runs once, one message per call, until something is thrown |
| AiService.ClientLoopRunsFirstReply | lib/ai-service.ts:182-207 | the tools used are exactly the first reply's calls, in order, each with its result |
| AiService.ClientLoopEndsOnLastReply | lib/ai-service.ts:182-211 | unless something was thrown, the text is the last reply's; calls in later replies are ignored |
| AiService.RoundOutcome | lib/ai-service.ts:209-227 | the exchange fails exactly when something was thrown |
| AiService.SendSpec | lib/ai-service.ts:94-229 | nothing is sent exactly when the key is missing; no context means no tools run; `toolsUsed` is absent rather than empty |
| AiService.NoKeyFailsAsConfigError | lib/ai-service.ts:16-26 | without a key the call fails with the configuration error and sends nothing |
| AiService.SendAnswersWithLastReply | lib/ai-service.ts:209-214 | the answer's text is the last reply's |
| AiService.EffectsStep | lib/ai-service.ts:182-207 | one more tool use adds its store calls and toasts |
| AiService.RunClientCalls | lib/ai-service.ts:182-207 | the client loop computes the client loop function and applies every tool's effects in order |
| AiService.Converse | lib/ai-service.ts:164-214 | the conversation computes the client exchange and its effects |
| AiService.SendMessage | lib/ai-service.ts:94-229 | `sendMessage` computes the exchange, and sets up a session exactly when it sends something |
| ModalStore.WithId | hooks/useModalStore.ts:97 | `{ ...config, id }`: the same configuration with the new id, every other field kept |
| ModalStore.Without | hooks/useModalStore.ts:102-106 | no modal with the id remains |
| ModalStore.WithoutEffect | hooks/useModalStore.ts:102-106 | removing an absent id changes nothing; removing a present one shrinks the stack |
| ModalStore.WithoutDropsOne | hooks/useModalStore.ts:102-106 | a modal with the id at some position shrinks the stack when removed |
| ModalStore.WithoutIdempotent | hooks/useModalStore.ts:102-106 | removing twice is removing once |
| ModalStore.WithoutAppend | hooks/useModalStore.ts:95-106 | removal distributes over an added modal |
| ModalStore.ModalStack.constructor | hooks/useModalStore.ts:93 | no modals at first |
| ModalStore.ModalStack.AddModal | hooks/useModalStore.ts:95-100 | appends the modal under a fresh id and returns it |
| ModalStore.ModalStack.RemoveModal | hooks/useModalStore.ts:102-106 | removes the modals with the id |
| ModalStore.ModalStack.ClearAll | hooks/useModalStore.ts:108-110 | empties the stack |
| ModalHook.Settle | hooks/useModal.ts:72-92 | a promise settles once: a settled cell keeps its outcome, a pending one takes the new outcome, other cells untouched |
| ModalHook.FirstSettlementWins | hooks/useModal.ts:72-92 | settling twice keeps the first outcome |
| ModalHook.Promises.constructor | hooks/useModal.ts:63 | no promises at first |
| ModalHook.Promises.Resolve | hooks/useModal.ts:81-86 | settles one cell |
| ModalHook.ConfirmConfig | hooks/useModal.ts:74-87 | a confirm modal with the caller's texts and variant and a cancel handler |
| ModalHook.PromptConfig | hooks/useModal.ts:100-117 | a prompt modal with the caller's texts, default, placeholder and validator and a cancel handler |
| ModalHook.ConfirmOutcome | hooks/useModal.ts:81-83 | confirming a confirm answers true; confirming a prompt enters the value |
| ModalHook.CancelOutcome | hooks/useModal.ts:84-86 | cancelling a confirm answers false; cancelling a prompt enters null |
| ModalHook.OutcomesDecideOnce | hooks/useModal.ts:71-123 | whichever of confirm or cancel comes first decides the promise |
| ModalHook.ShowConfirm | hooks/useModal.ts:71-93 | opens one confirm modal on the stack |
| ModalHook.ShowPrompt | hooks/useModal.ts:99-123 | opens one prompt modal on the stack |
| ModalHook.OnConfirm | hooks/useModal.ts:81-83 | the confirm callback settles the modal's promise |
| ModalHook.OnCancel | hooks/useModal.ts:84-86 | the cancel callback settles the modal's promise |
| ConfirmDialog.VariantStyle | components/ConfirmDialog.tsx:70-86 | each variant's icon |
| ConfirmDialog.VariantsLookDistinct | components/ConfirmDialog.tsx:70-86 | different variants have different icons and icon backgrounds |
| ConfirmDialog.Render | components/ConfirmDialog.tsx:60-62 | texts shown as given, defaulting to "Confirmar"/"Cancelar", and the info style when no variant is given |
| ConfirmDialog.ConfirmClick | components/ConfirmDialog.tsx:64-67 | confirming calls `onConfirm` and then `onClose` |
| ConfirmDialog.CancelClick | components/ConfirmDialog.tsx:109-115 | cancelling calls only `onClose` |
| PromptDialog.SubmitCalls | components/PromptDialog.tsx:77-91 | a submit calls nothing exactly when the validator refuses; otherwise `onConfirm(value)` and then `onClose` |
| PromptDialog.NoValidatorConfirms | components/PromptDialog.tsx:80-91 | without a validator every value is confirmed |
| PromptDialog.EmptyMessageConfirms | components/PromptDialog.tsx:81-87 | a validator returning "" does not block |
| PromptDialog.PromptState.constructor | components/PromptDialog.tsx:66-67 | the field starts at the default value, with no error |
| PromptDialog.PromptState.Open | components/PromptDialog.tsx:70-75 | opening resets the value to the default and clears the error |
| PromptDialog.PromptState.HandleSubmit | components/PromptDialog.tsx:77-91 | the submit calls above; the validator's message is shown exactly when it refuses; the value is kept |
| PromptDialog.PromptState.HandleChange | components/PromptDialog.tsx:93-97 | typing sets the value and clears a shown error |
| ModalProvider.Close | components/ModalProvider.tsx:34-41 | closing removes the modal and, when it has a cancel handler, settles its promise as cancelled |
| ModalProvider.CloseSteps | components/ModalProvider.tsx:34-41 | the cancel callback, if any, then the removal |
| ModalProvider.Confirm | components/ModalProvider.tsx:50-53 | confirming removes the modal and settles its promise as confirmed |
| ModalProvider.ConfirmSteps | components/ModalProvider.tsx:50-53 | the confirm callback, then the removal |
| ModalProvider.OthersUntouched | components/ModalProvider.tsx:33-85 | the dialog's calls affect only its own modal and promise |
| ModalProvider.ConfirmClickAnswersTrue | components/ModalProvider.tsx:44-60 | a confirm click removes the modal and answers true, even though the cancel callback also runs afterwards |
| ModalProvider.CancelClickAnswersCancel | components/ModalProvider.tsx:34-41 | a cancel click removes the modal and answers false or null |
| ModalProvider.PromptSubmitEntersValue | components/ModalProvider.tsx:64-82 | a refused submit changes nothing; an accepted one removes the modal and enters the value |
| ModalProvider.HandleClose | components/ModalProvider.tsx:34-41 | the close handler performs the close on the store and the promises |
| ModalProvider.HandleConfirm | components/ModalProvider.tsx:50-53 | the confirm handler performs the confirmation |
| ModalProvider.Serve | components/ModalProvider.tsx:33-85 | hosting a dialog performs each of its calls in order |
| ModalProvider.Render | components/ModalProvider.tsx:44-82 | each modal renders the dialog of its kind, keyed by its id, with the prompt defaults |
| ModalProvider.Rendered | components/ModalProvider.tsx:33 | one dialog per modal, in stack order |
| LocationModal.CpSamples | components/LocationModal.tsx:92-97 | sample postal codes the pattern accepts and refuses |
| LocationModal.Validate | components/LocationModal.tsx:87-100 | a blank name is required; a non-blank CP must start with 5 digits |
| LocationModal.ValidIff | components/LocationModal.tsx:87-100 | the form is valid exactly when the name is not blank and the CP is blank or matches |
| LocationModal.CleanPieces | components/LocationModal.tsx:106-109 | the trimmed non-empty pieces |
| LocationModal.TrimKeepsOut | components/LocationModal.tsx:106-109 | trimming introduces no character |
| LocationModal.CleanPiecesClean | components/LocationModal.tsx:106-109 | every kept piece is a clean tag |
| LocationModal.ParseTags | components/LocationModal.tsx:106-109 | every parsed tag is clean: non-empty, trimmed, without a comma |
| LocationModal.NoTags | components/LocationModal.tsx:106-109 | an empty input gives no tags |
| LocationModal.TrimAfterSpace | components/LocationModal.tsx:106-109 | a leading space does not change the trimmed text |
| LocationModal.CleanPiecesCons | components/LocationModal.tsx:106-109 | the first piece contributes its trimmed text when non-empty |
| LocationModal.CleanPiecesSpaceFirst | components/LocationModal.tsx:106-109 | a space before the first piece changes nothing |
| LocationModal.SplitAfterSpace | components/LocationModal.tsx:107 | a leading space stays in the first piece |
| LocationModal.TagsRoundTrip | components/LocationModal.tsx:59 | clean tags joined with ", " on opening parse back to the same tags on saving |
| LocationModal.OneTagRoundTrip | components/LocationModal.tsx:106-109 | a single clean tag parses to itself |
| LocationModal.JoinedTagsSplit | components/LocationModal.tsx:106-109 | a clean tag before ", " is parsed off the front |
| LocationModal.SavedOf | components/LocationModal.tsx:102-124 | name, description, address and postal code trimmed; always a group, "Inbox" for a blank one, else the trimmed group; clean tags; the given coordinates |
| LocationModal.LocationForm.constructor | components/LocationModal.tsx:33-43 | empty fields, group "Inbox", no errors |
| LocationModal.LocationForm.Open | components/LocationModal.tsx:50-80 | editing loads the record, group falling back to "Inbox" and tags joined; creating resets to defaults |
| LocationModal.LocationForm.Check | components/LocationModal.tsx:87-100 | shows the validation errors and reports whether there are none |
| LocationModal.LocationForm.HandleSubmit | components/LocationModal.tsx:102-124 | the errors are those of the fields; an invalid form asks for nothing; a valid one has the record built from the fields saved, then the dialog closed |
| LocationModal.EditKeepsRecord | components/LocationModal.tsx:50-124 | opening a record and saving it unchanged gives back its texts trimmed, its coordinates, its clean tags, and its group when that is trimmed and not blank |
| AddMarkerModal.SubmissionOf | components/AddMarkerModal.tsx:32-50 | a blank name alerts and nothing else does; otherwise the confirmed marker is the four fields trimmed, with the coordinates |
| AddMarkerModal.ConfirmedFieldsTrimmed | components/AddMarkerModal.tsx:38-44 | a confirmed marker has a non-empty trimmed name no longer than the typed one; address, description and postal code are trimmed, and handed over as typed when they were already trimmed |
| AddMarkerModal.AddMarkerForm.constructor | components/AddMarkerModal.tsx:25-28 | empty fields |
| AddMarkerModal.AddMarkerForm.HandleSubmit | components/AddMarkerModal.tsx:32-50 | the submission; the fields are cleared only after a confirmation |
| AddMarkerModal.AddMarkerForm.HandleCancel | components/AddMarkerModal.tsx:52-59 | clears the four fields, then calls `onCancel` once |
| AddMarkerModal.SecondSubmitAlerts | components/AddMarkerModal.tsx:34-49 | submitting again after a confirmation alerts, as the fields are empty |
| AddMarkerModal.TrimmedNameKept | components/AddMarkerModal.tsx:38-44 | a trimmed non-empty name is confirmed as it is |
| ChatActionMessage.ToolIcon | components/ChatActionMessage.tsx:25-40 | the default robot icon exactly for unlabelled tools |
| ChatActionMessage.ToolLabel | components/ChatActionMessage.tsx:43-58 | unlabelled tools show their own name |
| ChatActionMessage.KnownToolsDistinct | components/ChatActionMessage.tsx:25-58 | labelled tools have distinct icons and labels |
| ChatActionMessage.UndispatchedToolsShowDefaults | components/ChatActionMessage.tsx:25-58 | `search_web` and `modify_location` show the default icon and their raw names |
| ChatActionMessage.ParametersDescription | components/ChatActionMessage.tsx:61-72 | search shows the quoted query, centre the position, add the name and position, others the JSON of the parameters |
| ChatActionMessage.ResultText | components/ChatActionMessage.tsx:113-121 | "✓ " plus the message or fallback on success, "✗ " plus the error or fallback on failure |
| ChatActionMessage.ServerResultsNeedNoFallback | components/ChatActionMessage.tsx:113-121 | server results always carry a message or an error, so the fallbacks never show for them |
| ChatActionMessage.FallbackNotANotice | components/ChatActionMessage.tsx:113-121 | the success fallback is not any real notice |
| ChatActionMessage.FallbackNotAnError | components/ChatActionMessage.tsx:113-121 | the failure fallback is not any real error text |

## Where the source's comments and the code differ

The model follows the code in each case.

- The type comments speak of migrating legacy data to groups. No
  migration code exists. `normalizeLocation` is modelled as written.
- `add_marker` documents the latitude and longitude ranges in its
  parameter descriptions, and both executors check them. `center_map`
  documents no coordinate range, only one for the zoom ("entre 1 y
  18"), and neither executor checks its coordinates or its zoom.
- The example in the comment above `getGroupColor` says "Farmacia" is
  lime and "Trabajo" violet. The code makes them pink (`#ec4899`) and
  fuchsia (`#d946ef`), as `Colors.SampleColors` shows.
- `hooks/useMapStore.ts` holds markers `{id, lat, lng, title}` with no
  update operation. The chat hooks call an `addMarker`/`removeMarker`/
  `updateMarker` store over full locations instead. Both are modelled:
  the first as `MapStore.MapState`, the second as a call log
  (`StoreApi.StoreClient`).
- The route's system prompt advertises `search_web`. The server rejects
  it as an unknown tool (`ServerExecutor.DeclaredButUnknown`).
- The client rewrites every error whose message contains "API" or "key"
  into the configuration error. This includes unrelated ones
  (`AiService.AnyKeySubstringIsConfigError`).
- The client runs only the calls of the model's first reply. Calls in
  later replies are ignored (`AiService.ClientLoopRunsFirstReply`,
  `AiService.SendAnswersWithLastReply`).
- The route maps the role "assistant" to "model". The chat store's
  history uses "model" already, so every past turn reaches the route as
  "user" (`ChatRoute.StoreHistoryArrivesAsUser`).
- A prompt validator that returns "" does not block submission, since
  "" is falsy (`PromptDialog.EmptyMessageConfirms`).
- A confirm click runs the cancel callback after the confirm callback.
  Because a promise settles once, the answer is still true
  (`ModalProvider.ConfirmClickAnswersTrue`).

## Left out

- Network, SDK and I/O: `fetch` to the geocoder, the Gemini SDK, the
  timers of the toast store and `localStorage` persistence. Their
  results are parameters.
- Rendering: React rendering, JSX markup, animations, the map widgets
  and the components outside the modal and form layer. Only what the
  components decide is modelled: which calls a click makes, which texts
  and defaults are shown.
- Numbers: floating point is modelled by `real`. NaN, infinities and
  `parseFloat` are not modelled. Coordinates typed in the location form
  are taken as already parsed.
- Number formatting: `toFixed` and `Number#toString` are a parameter
  (`NumberFormat`), and `JSON.stringify` is a parameter of
  `ChatActionMessage.ParametersDescription`.
- Types.SortGroups: uses code-point order for `localeCompare`, because
  locale collation cannot be stated here.
- Text.ToUpperAscii: upper-cases ASCII letters only, not all of Unicode.
  The tool schemas contain only ASCII.
- The `catch` branches of `executeTool` and `executeServerAction`: tool
  arguments are typed records whose required fields are always present,
  so nothing in them throws.
- ChatRoute.PostSpec, AiService.SendSpec: the SDK's `text()` is taken not
  to throw, in the route and in the client service alike.
- Types.GroupStats, Types.GroupLocations: the source counts and buckets
  into a plain object `{}`. A group named after an inherited
  `Object.prototype` key behaves differently there:
  - "constructor", "toString" and the like start from the inherited
    function, so `getGroupStats` yields a string such as
    "function Object() { [native code] }1" and `groupLocations` throws a
    TypeError on `push`;
  - with "__proto__", `getGroupStats` creates no key and
    `groupLocations` throws.
  The model treats every group name as an own key, so its exact counts
  and buckets hold only for names that are not such keys.
- Colors.UsedColors: `getUsedColors` returns a JavaScript `Map`, which
  keeps the order in which names were first seen. The model returns a
  `map`, which has no order.
- ActionApplier.ProcessAction: requires results shaped as the server
  produces them (`ServerShaped`), because a success without its data
  would throw in the source. `ActionApplier.ServerResultsShaped` shows
  every server result meets this.
- `getDarkerShade` in `lib/colors.ts`: hex colour arithmetic used only
  for styling.
- `sendMessageStream` in `lib/ai-service.ts`: marked in the source as
  for future use, and it streams through the SDK.
- `window.alert` in the add-marker modal: modelled as the `Alert` result
  of the submission.
- The generic `Modal` component's escape key and backdrop click: they
  call the same `onClose` as the cancel button, which is modelled.
- ConfirmDialog.VariantsLookDistinct: states that icons and icon
  backgrounds differ, but not that the confirm-button classes differ.
  The long class strings are beyond what the prover compares cheaply.
