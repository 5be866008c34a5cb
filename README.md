# VISS client core in Dafny

This project models the logic of a web client for the Vehicle Information
Service Specification (VISS) protocol. The client talks to a VISS server
over a WebSocket, using the actions get, set, subscribe and unsubscribe. The
model covers three parts of the client:

- **The session** (`useVissWebSocket`). This is the connection state
  (`hostIP`, `isConnected`, `isConnecting`, `connectionError`, the socket
  handle). It also holds a rolling 20-entry message log and the
  insertion-ordered `activeSubscriptions` map. The session changes in
  response to user calls and to the socket's `onopen`, `onmessage`,
  `onclose` and `onerror` callbacks. The part also includes the four
  command builders.
- **The command builder** (`useCommandBuilder`). This covers:
  - the list of VISS filters and the edits made to it;
  - the variants still available to each filter slot;
  - the parsing of filter parameters and the recursive string coercion of
    parsed JSON;
  - the effect that auto-manages a default time-based filter and a paths
    filter;
  - the command preview, JSON validation, and sending with a request-id
    counter.
- **The signal catalog** (`flattenVssTree`). This walk turns the
  hierarchical VSS tree into a flat list of sensor and actuator records,
  each with a dot-joined path.

Files, one module each:

- `base.dfy`: `Option`/`Result`, `trim`, `split`, decimal `toString`, dot
  replacement.
- `ordered_map.dfy`: a JavaScript `Map` (or a plain object's own keys) as an
  insertion-ordered association list.
- `json.dfy`: JSON values, JavaScript truthiness, property reads, and
  `convertToStringValues`. `JSON.parse` and `JSON.stringify` are taken as an
  abstract `Codec`.
- `message_log.dfy`: `addMessage`'s rolling log.
- `subscriptions.dfy`: the subscription registry and
  `getLatestSubscriptionId`.
- `commands.dfy`: the four builders, and a reading of command objects back
  into typed commands.
- `session.dfy`: the `Socket` and `VissSession` classes.
- `filters.dfy`: filters, available variants, parameter parsing, and the
  auto-manage step as a function.
- `command_builder.dfy`: the preview and send logic, and the
  `BuilderState` class that holds the hook's state.
- `vss_signals.dfy`: `flattenVssTree`, both as a pure specification and as
  the accumulating method.

A number is carried as the text `String(n)` gives for it, so floating point
never enters the model. React's deferred `setState` is taken as an immediate
field update. Each `useEffect` body is a method that callers invoke
explicitly.

The model follows the code as written. In particular:

- A blank host only sets `connectionError`. No log entry is added.
- `onopen` leaves `connectionError` as it is. `connectToHost` already
  cleared it.
- `onerror` clears `isConnecting` but not `isConnected`.
- `disconnect` does not clear `isConnecting`.
- Every socket's `onclose` clears the current socket handle. This includes a
  socket that has already been replaced by a newer one.

## Model

| member | source | states |
|---|---|---|
| Base.TrimSpec | src/lib/hooks/useVissWebSocket.js:41 | `trim()` removes exactly the leading and trailing white space: the result is an infix of the input that neither starts nor ends with a space |
| Base.BlankIffAllSpaces | src/lib/hooks/useVissWebSocket.js:41 | text is blank after trimming exactly when every character is white space |
| Base.TrimIdempotent | src/components/CommandBuilder/useCommandBuilder.js:35 | trimming twice is trimming once |
| Base.Split | src/components/CommandBuilder/useCommandBuilder.js:46 | `split(",")` gives at least one piece, and no piece holds the separator |
| Base.SplitJoin | src/components/CommandBuilder/useCommandBuilder.js:46 | joining the pieces with the separator gives back the original text |
| Base.NatToString | src/components/CommandBuilder/useCommandBuilder.js:268 | the counter's `toString()` is all decimal digits, with no leading zero |
| Base.NatToStringValue | src/components/CommandBuilder/useCommandBuilder.js:268 | the digits read back as the counter's value |
| Base.NatToStringInjective | src/components/CommandBuilder/useCommandBuilder.js:268 | different counter values give different request ids |
| Base.DotsToSpaces | src/lib/hooks/useVssSignals.js:19 | `replace(/\./g, " ")` keeps the length and turns every dot, and only the dots, into a space |
| OrderedMap.SetLookup | src/lib/hooks/useVissWebSocket.js:67-74 | after `map.set(k, v)`, looking up `k` gives `v` and every other key is unchanged |
| OrderedMap.SetKeys | src/lib/hooks/useVissWebSocket.js:67-74 | `set` on an existing key keeps the key order; a new key goes last |
| OrderedMap.SetNewKeyIsLast | src/lib/hooks/useVissWebSocket.js:67-74 | a newly set key becomes the last key |
| OrderedMap.DeleteLookup | src/lib/hooks/useVissWebSocket.js:282-286 | after `map.delete(k)`, `k` is absent and every other key is unchanged |
| OrderedMap.DeleteLast | src/lib/hooks/useVissWebSocket.js:282-286 | deleting the last key of a map makes the key before it the last |
| Json.ToStringValues | src/components/CommandBuilder/useCommandBuilder.js:54-67 | `convertToStringValues` leaves only string leaves; arrays keep their length, objects keep their keys in order, and a primitive becomes its `String()` form (`null` becomes "null") |
| Json.StringLeavesUnchanged | src/components/CommandBuilder/useCommandBuilder.js:54-67 | a value whose leaves are all strings is returned unchanged |
| Json.ToStringValuesIdempotent | src/components/CommandBuilder/useCommandBuilder.js:54-67 | coercing twice equals coercing once |
| MessageLog.Newest | src/lib/hooks/useVissWebSocket.js:31 | `slice(-20)` keeps `min(length, 20)` entries |
| MessageLog.Append | src/lib/hooks/useVissWebSocket.js:26-33 | the log never exceeds 20 entries; it grows by one until it is full; the new entry is last |
| MessageLog.AppendKeepsNewest | src/lib/hooks/useVissWebSocket.js:30-31 | the entries before the new one are the newest part of the old log, in their order |
| MessageLog.AppendAllIsNewest | src/lib/hooks/useVissWebSocket.js:26-33 | any run of `addMessage` calls leaves the newest 20 of everything logged, in arrival order |
| MessageLog.NewestOfNewest | src/lib/hooks/useVissWebSocket.js:31 | trimming early loses nothing that the final trim would keep |
| MessageLog.RunFromEmpty | src/lib/hooks/useVissWebSocket.js:15-33 | from the empty log, a run of messages leaves its newest 20 |
| Subscriptions.Track | src/lib/hooks/useVissWebSocket.js:63-78 | a frame with a truthy `subscriptionId` and `requestId` upserts `{requestId, timestamp}` under that id (new ids go last), leaving other ids alone; any other frame leaves the registry unchanged; the registry keeps distinct, truthy ids |
| Subscriptions.Remove | src/lib/hooks/useVissWebSocket.js:281-286 | the id is gone, every other id is unchanged, and the registry stays valid |
| Subscriptions.Latest | src/components/CommandBuilder/useCommandBuilder.js:102-110 | `getLatestSubscriptionId` gives "1" for an empty registry and otherwise the last inserted id; the result is always truthy |
| Subscriptions.TrackNewIsLatest | src/lib/hooks/useVissWebSocket.js:66-74 | confirming a new subscription makes its id the latest |
| Subscriptions.RemoveLatest | src/lib/hooks/useVissWebSocket.js:281-286 | removing the latest id makes the previous one the latest, or "1" when none is left |
| Subscriptions.ConfirmationFrame | src/lib/hooks/useVissWebSocket.js:66 | `{subscriptionId, requestId}` with truthy values is a confirmation |
| Subscriptions.LatestScenario | src/components/CommandBuilder/useCommandBuilder.js:102-110 | subscribe A, then B: B is the latest; after removing B, A is; an empty registry gives "1" |
| Commands.AssignLookup | src/lib/hooks/useVissWebSocket.js:180-182 | a conditional property add sets that key exactly when a value is given, and no other key changes |
| Commands.BuildGetReadsBack | src/lib/hooks/useVissWebSocket.js:169-185 | `buildGetCommand` reads back as a get holding the first path, `filter`, `authorization` and `dc` only when truthy, and `requestId` unless `includeRequestId === false`; keys are distinct |
| Commands.BuildSubscribeReadsBack | src/lib/hooks/useVissWebSocket.js:193-212 | the subscribe filter is the option's filter when truthy, else `{variant:"timebased", parameter:{period:"10000"}}`; the path is the first path; `authorization` and `dc` appear only when truthy |
| Commands.BuildSetReadsBack | src/lib/hooks/useVissWebSocket.js:242-256 | the set carries the given path and value unchanged, `authorization` only when truthy, and no `filter` or `dc` |
| Commands.BuildUnsubscribeReadsBack | src/lib/hooks/useVissWebSocket.js:219-233 | the unsubscribe carries only `action`, `subscriptionId` and, unless excluded, `requestId` |
| Session.SocketUrl | src/lib/hooks/useVissWebSocket.js:51 | the URL is `ws://` + host + `:8080` |
| Session.Socket.Send | src/lib/hooks/useVissWebSocket.js:145 | sending fails on a connecting socket; an open socket transmits the text; a closing or closed one drops it |
| Session.Socket.Close | src/lib/hooks/useVissWebSocket.js:119 | `close(code, reason)` on a connecting or open socket records the request and moves it to closing; otherwise it does nothing |
| Session.VissSession.constructor | src/lib/hooks/useVissWebSocket.js:12-19 | the initial state: host "127.0.0.1", disconnected, no error, empty log and registry, no socket |
| Session.VissSession.AddMessage | src/lib/hooks/useVissWebSocket.js:26-33 | the log becomes `Append(old log, {type, content, timestamp})` |
| Session.VissSession.ConnectToHost | src/lib/hooks/useVissWebSocket.js:39-112 | a blank host only sets "Please enter a host IP address"; otherwise the host is stored and either a fresh socket to `ws://host:8080` with protocol `VISS-noenc` is connecting with the error cleared, or a failed open clears `isConnecting`, sets "Connection error: …" and logs it |
| Session.VissSession.StartConnect | src/lib/hooks/useVissWebSocket.js:46-109 | the host is stored; either a fresh connecting socket to the host's URL with the error cleared, or, when the constructor throws, not connecting, the socket kept and the error set and logged |
| Session.VissSession.OpenFailed | src/lib/hooks/useVissWebSocket.js:105-109 | a thrown constructor clears `isConnecting`, sets "Connection error: …" and logs that same text as an error |
| Session.VissSession.OnOpen | src/lib/hooks/useVissWebSocket.js:54-58 | connected, no longer connecting, and exactly one system entry "Connected to host:8080"; nothing else changes |
| Session.VissSession.OnMessage | src/lib/hooks/useVissWebSocket.js:60-79 | exactly one received entry with the raw text; the registry is `Track`ed when the text parses and otherwise unchanged |
| Session.VissSession.OnClose | src/lib/hooks/useVissWebSocket.js:81-96 | disconnected, not connecting, no socket; one system entry "Connection closed" if clean, else one error entry "Connection lost: code reason" with "Unknown error" for an empty reason |
| Session.VissSession.OnError | src/lib/hooks/useVissWebSocket.js:98-102 | `isConnecting` cleared, the error "Failed to connect to host:8080", and one error entry "Connection error to host:8080"; `isConnected` untouched |
| Session.VissSession.Disconnect | src/lib/hooks/useVissWebSocket.js:117-124 | no socket, disconnected, empty registry, no log entry; an existing socket gets `close(1000, "User disconnected")` |
| Session.VissSession.SendMessage | src/lib/hooks/useVissWebSocket.js:130-154 | true exactly when connected with a socket, the text is not blank and parses, and the socket is not still connecting; then the text goes to the socket and one sent entry is logged; otherwise one error entry with the matching reason and nothing is sent |
| Session.VissSession.SendCommand | src/lib/hooks/useVissWebSocket.js:263-269 | sends `JSON.stringify(command)` with the same outcome as `SendMessage`: the same log entry, and the socket transmits that text exactly when the send went through on an open socket |
| Session.VissSession.ClearMessages | src/lib/hooks/useVissWebSocket.js:159-161 | the log becomes empty |
| Session.VissSession.UnsubscribeFromId | src/lib/hooks/useVissWebSocket.js:276-292 | sends the built unsubscribe command with the log entry and transmission of `SendMessage`; the id is removed from the registry only when the send succeeded |
| Session.VissSession.SetHost | src/lib/hooks/useVissWebSocket.js:298-300 | the host becomes the new value and the session invariant holds |
| Filters.UsedVariants | src/components/CommandBuilder/useCommandBuilder.js:86-88 | a variant is used exactly when it is non-empty and held by a slot other than the current one |
| Filters.Unused | src/components/CommandBuilder/useCommandBuilder.js:99 | the `filter(!includes)` keeps exactly the variants that are not used |
| Filters.UnusedSubsequence | src/components/CommandBuilder/useCommandBuilder.js:99 | filtering keeps the list's order |
| Filters.AvailableVariants | src/components/CommandBuilder/useCommandBuilder.js:85-100 | a variant is offered exactly when it is one of the seven and not used by another slot, in the declared order |
| Filters.OwnVariantAvailable | src/components/CommandBuilder/useCommandBuilder.js:85-100 | a slot is offered its own variant exactly while no other slot holds the same variant |
| Filters.DuplicateSlotsHideVariant | src/components/CommandBuilder/useCommandBuilder.js:69-100 | two slots added by `addFilter` are both time-based, and neither is offered "timebased" |
| Filters.AllUsedNoneAvailable | src/components/CommandBuilder/useCommandBuilder.js:85-100 | with index -1 and all seven variants in use, nothing is offered |
| Filters.DropEmptyKeepsOrder | src/components/CommandBuilder/useCommandBuilder.js:48 | `filter(Boolean)` keeps the non-empty pieces in their order, each as often as it occurs, and no empty one |
| Filters.CsvPieces | src/components/CommandBuilder/useCommandBuilder.js:45-48 | every piece is non-empty, comma-free and trimmed, and every non-blank piece of the split appears trimmed |
| Filters.CsvPiecesInOrder | src/components/CommandBuilder/useCommandBuilder.js:45-48 | the pieces are the trimmed comma-separated parts in their order, each as often as it occurs, with the empty ones left out |
| Filters.StringArray | src/components/CommandBuilder/useCommandBuilder.js:45-48 | the pieces as a JSON array of strings, in order |
| Filters.ParseFilterParameter | src/components/CommandBuilder/useCommandBuilder.js:34-52 | blank input gives undefined; JSON gives its string coercion; otherwise paths with a comma give the CSV pieces, anything else the trimmed text; every result has only string leaves |
| Filters.FilterObject | src/components/CommandBuilder/useCommandBuilder.js:216-223 | `{variant}` plus `parameter` only when the parameter text is non-empty, and no other key |
| Filters.DropAutoTimebasedMembers | src/components/CommandBuilder/useCommandBuilder.js:148-156 | keeps exactly the filters that are not the default time-based one |
| Filters.DropAutoTimebasedKeepsOrder | src/components/CommandBuilder/useCommandBuilder.js:148-156 | the filtering keeps every filter but the default time-based one, in order and as often as it occurs |
| Filters.DropPathsMembers | src/components/CommandBuilder/useCommandBuilder.js:184-186 | keeps exactly the filters that are not paths filters |
| Filters.DropPathsKeepsOrder | src/components/CommandBuilder/useCommandBuilder.js:184-186 | the filtering keeps every non-paths filter in order and as often as it occurs |
| Filters.IndexOfVariant | src/components/CommandBuilder/useCommandBuilder.js:176 | the first slot with the variant, or the length when there is none |
| Filters.FindVariant | src/components/CommandBuilder/useCommandBuilder.js:176 | `findIndex`: the first matching slot, or -1 when there is none |
| Filters.PathsStageKeepsOthers | src/components/CommandBuilder/useCommandBuilder.js:159-187 | the paths stage keeps or drops only paths filters |
| Filters.ManagedSubscribe | src/components/CommandBuilder/useCommandBuilder.js:137-145 | under subscribe a time-based filter is present afterwards; if there was none, the default `{"period":"1000"}` filter is first |
| Filters.ManagedOtherCommand | src/components/CommandBuilder/useCommandBuilder.js:146-187 | under any other command no default time-based filter remains, and apart from paths filters the list is the old one without its default time-based filters, in order and multiplicity |
| Filters.ManagedNoDefault | src/components/CommandBuilder/useCommandBuilder.js:146-157 | under any other command no default time-based filter remains |
| Filters.ManagedKeepsOthers | src/components/CommandBuilder/useCommandBuilder.js:159-187 | the paths stage leaves the non-paths filters exactly as the time-based stage left them, in order and multiplicity |
| Filters.PathsStageOthers | src/components/CommandBuilder/useCommandBuilder.js:159-187 | with the paths filters dropped, the paths stage is the identity |
| Filters.DropsCommute | src/components/CommandBuilder/useCommandBuilder.js:148-186 | dropping default time-based filters and dropping paths filters commute |
| Filters.ManagedPaths | src/components/CommandBuilder/useCommandBuilder.js:159-181 | several signals under get or subscribe: the first paths filter holds the stringified paths; an existing one is updated in place at the same index with every other slot unchanged; with none before, exactly one is appended at the end |
| Filters.ManagedPathsFirst | src/components/CommandBuilder/useCommandBuilder.js:159-181 | several signals under get or subscribe: the first paths filter holds the stringified paths |
| Filters.TimebasedStageKeepsPaths | src/components/CommandBuilder/useCommandBuilder.js:137-157 | a paths filter present before the time-based stage is present after it |
| Filters.ManagedFewSignals | src/components/CommandBuilder/useCommandBuilder.js:182-187 | with at most one signal, no paths filter remains |
| Filters.ManagedIdempotent | src/components/CommandBuilder/useCommandBuilder.js:133-191 | re-running the effect for the same command and signals changes nothing |
| CommandBuilder.CommandChoice | src/components/CommandBuilder/useCommandBuilder.js:113-117 | a string is taken as it is and an empty value gives no choice; a chosen command is never empty |
| CommandBuilder.IncludedFilter | src/components/CommandBuilder/useCommandBuilder.js:205-228 | filters are included exactly under the inclusion rule, never for set or unsubscribe or an empty list; one filter goes out as a bare object, several as an array in order |
| CommandBuilder.StampedDecode | src/components/CommandBuilder/useCommandBuilder.js:267-269 | setting `requestId` on a command object gives the same command with that request id, and keeps its filter |
| CommandBuilder.StampedProps | src/components/CommandBuilder/useCommandBuilder.js:267-269 | setting `requestId` changes that property and no other |
| CommandBuilder.DraftReadsBack | src/components/CommandBuilder/useCommandBuilder.js:230-264 | the draft is the builder's command for get, set and subscribe, with path "Vehicle" for several signals, the set value defaulting to "0", and the latest subscription id for unsubscribe |
| CommandBuilder.DraftGetReadsBack | src/components/CommandBuilder/useCommandBuilder.js:233-246 | the get draft reads back as a get of the preview path ("Vehicle" for several signals) with the included filter |
| CommandBuilder.DraftSetReadsBack | src/components/CommandBuilder/useCommandBuilder.js:247-251 | the set draft reads back as a set of the first signal to the value or "0", with no filter |
| CommandBuilder.DraftSubscribeReadsBack | src/components/CommandBuilder/useCommandBuilder.js:233-256 | the subscribe draft reads back as a subscribe of the preview path with the included filter or the default one |
| CommandBuilder.DraftUnsubscribeReadsBack | src/components/CommandBuilder/useCommandBuilder.js:257-261 | the unsubscribe draft reads back as an unsubscribe of the latest subscription id, with no filter |
| CommandBuilder.PreviewCommand | src/components/CommandBuilder/useCommandBuilder.js:194-271 | no preview exactly when no signal is selected and the command is not unsubscribe; otherwise the command for the action, with `requestId` equal to the counter |
| CommandBuilder.ValidationError | src/components/CommandBuilder/useCommandBuilder.js:285-299 | the error text is empty exactly when the text is blank or parses |
| CommandBuilder.CommandToSend | src/components/CommandBuilder/useCommandBuilder.js:307-320 | a command is handed over exactly when the text parses to an object or an array; an object gets `requestId` set to the counter with its other properties unchanged |
| CommandBuilder.PreviewIsSent | src/components/CommandBuilder/useCommandBuilder.js:267-313 | when the codec reads back its own output, sending an unedited preview sends exactly the preview |
| CommandBuilder.BuilderState.constructor | src/components/CommandBuilder/useCommandBuilder.js:20-32 | the initial state: command "get", counter 1, no filters, toggles off |
| CommandBuilder.BuilderState.AddFilter | src/components/CommandBuilder/useCommandBuilder.js:69-72 | appends `{variant:"timebased", parameter:""}` |
| CommandBuilder.BuilderState.UpdateFilter | src/components/CommandBuilder/useCommandBuilder.js:74-79 | only the given field of the given slot changes, and the length stays |
| CommandBuilder.BuilderState.RemoveFilter | src/components/CommandBuilder/useCommandBuilder.js:81-83 | exactly that slot goes and the others keep their order |
| CommandBuilder.BuilderState.HandleCommandTypeChange | src/components/CommandBuilder/useCommandBuilder.js:112-122 | a non-empty choice selects the command and turns `includeFilter` off; otherwise nothing changes |
| CommandBuilder.BuilderState.ResetToggles | src/components/CommandBuilder/useCommandBuilder.js:125-130 | collapsing turns both toggles off |
| CommandBuilder.BuilderState.AutoManageFilters | src/components/CommandBuilder/useCommandBuilder.js:133-191 | the in-place `unshift`, filter, `push` and index assignment give `ManagedFilters` of the old list |
| CommandBuilder.BuilderState.GenerateCommand | src/components/CommandBuilder/useCommandBuilder.js:194-271 | the generated text is the indented JSON of the preview, or empty when there is none |
| CommandBuilder.BuilderState.ValidateJson | src/components/CommandBuilder/useCommandBuilder.js:285-299 | true exactly when the text is blank or parses, and the error text is set to match |
| CommandBuilder.BuilderState.HandleJsonChange | src/components/CommandBuilder/useCommandBuilder.js:301-305 | the edited text replaces the preview and is validated |
| CommandBuilder.BuilderState.HandleSend | src/components/CommandBuilder/useCommandBuilder.js:307-320 | hands over `CommandToSend` of the current text with the current counter; the counter goes up by exactly one when a command was handed over |
| VssSignals.ChildPath | src/lib/hooks/useVssSignals.js:31-39 | a child's path is `parent.key`, or just `key` below the empty path |
| VssSignals.BelowChild | src/lib/hooks/useVssSignals.js:31-39 | a path below a child's path is below the parent's |
| VssSignals.FlattenShape | src/lib/hooks/useVssSignals.js:10-46 | every record's value lies below the starting path, and its label is the value with spaces for dots |
| VssSignals.EntriesShape | src/lib/hooks/useVssSignals.js:28-43 | the same for the records of a run of entries |
| VssSignals.SignalList.Push | src/lib/hooks/useVssSignals.js:17 | `push` appends one record |
| VssSignals.FlattenInto | src/lib/hooks/useVssSignals.js:10-46 | the accumulator ends as its old contents followed by `Flatten(node, path)`: the entries already there are kept as a prefix |
| VssSignals.EntriesInto | src/lib/hooks/useVssSignals.js:29-42 | the `Object.entries` loop appends the records of every entry, in entry order |
| VssSignals.FlattenVssTree | src/lib/hooks/useVssSignals.js:70 | the walk from the root with an empty accumulator gives `Flatten(data, "")` |
| VssSignals.NonObjectEmpty | src/lib/hooks/useVssSignals.js:11-13 | a null or non-object node adds nothing |
| VssSignals.SignalFirst | src/lib/hooks/useVssSignals.js:16-26 | a sensor or actuator node's own record comes first, with value the path and label the path with spaces |
| VssSignals.TypedLeafOnly | src/lib/hooks/useVssSignals.js:28-34 | a typed node without children visits nothing below it and adds at most its own record |
| VssSignals.PrimitiveEntriesSkipped | src/lib/hooks/useVssSignals.js:34-43 | a primitive entry of an untyped node adds nothing |
| VssSignals.CatalogShape | src/lib/hooks/useVssSignals.js:10-46 | every signal of a catalog is named by a dotted path below the start, and labelled by it |
| VssSignals.BareSensor | src/lib/hooks/useVssSignals.js:16-26 | `{"type":"sensor"}` gives one record with description "" and no datatype or unit |
| VssSignals.OneChildBranch | src/lib/hooks/useVssSignals.js:28-33 | a branch with one child walks just that child, at the child's path |
| VssSignals.OneEntryRoot | src/lib/hooks/useVssSignals.js:34-43 | an untyped root with one object entry walks that entry at its key |
| VssSignals.ChildLabel | src/lib/hooks/useVssSignals.js:19-31 | a child's label is the parent's label, a space, and the key's label |
| VssSignals.OneSignalCatalog | src/lib/hooks/useVssSignals.js:10-46 | `{branch: {children: {leaf: {type: "sensor"}}}}` flattens to exactly the record `branch.leaf` labelled `branch leaf` |

## Left out

- The real WebSocket, the network and React's scheduling are not modelled. The socket is a small class that records what it was sent and asked to close. The callbacks are methods that the environment calls.
- Text parsing and serialisation are not modelled. `JSON.parse`, `JSON.stringify` and `JSON.stringify(v, null, 2)` are the abstract functions of a `Codec`. `Json.ParseJson` is the codec's parser with one fact added, which JSON's grammar guarantees: blank text never parses. `Session.VissSession.SendMessage` relies on nothing else about them.
- Clocks are not modelled. `toLocaleTimeString()` and `Date.now().toString()` are passed in as opaque text parameters.
- Session.VissSession.OnMessage: one time parameter stands for both of the handler's clock reads, the log entry's and the subscription's.
- Session.VissSession.ConnectToHost: whether `new WebSocket` throws is a parameter. The thrown message is not derived from the URL.
- JavaScript's ordering of integer-like object keys is not modelled. `Object.entries` and `Map` keys are taken in insertion order. This affects `VssSignals.Flatten` for objects whose keys look like array indices.
- Object spread (`{...filter, [field]: value}`) on any field other than the two a filter has is not modelled. `UpdateFilter` takes one of `variant` and `parameter`.
- `CommandBuilder.BuilderState.HandleSend` assumes that `onSendCommand` is supplied. When it is absent, the counter still advances in the source.
- `CommandBuilder.CommandToSend`: for an array result the source adds a `requestId` property to the array object. `JSON.stringify` drops that property, so the array is taken as unchanged.
- `CommandBuilder.CommandToSend`: a primitive or `null` result makes the property assignment throw in strict-mode code, so nothing is sent and the counter does not change. This is modelled as such.
- The plain state setters (`setSelectedSignals`, `setIncludeFilter`, `setShowCommandEditor`, `setSetValue`) are not modelled. They are single field assignments with nothing to state.
- The derived display flags `isFilterDisabled` and `isSendDisabled` are not modelled. They are presentation.
- The fetch and the loading and error flags of `loadVssSignals` are I/O and are not modelled.
- Filters.ManagedPaths: when several paths filters already exist, only the first is updated and the others stay unchanged, which is what the code does. The lemma does not claim that only one paths filter remains.
- Map keys and property names are compared as values. A JavaScript `Map` compares object keys by identity, so an object `subscriptionId` from a parsed frame would never match an earlier one in `Subscriptions.Track`; the code treats ids as strings. In `Json.ToStringValues` an object key `__proto__` goes through JavaScript's prototype setter and is lost, while the model keeps it.
