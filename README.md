# kernel-canvas: the console's state and request logic in Dafny

kernel-canvas is a browser console for a local Docker engine. It is built in
React, and its logic sits inside three components. This project states that
logic in Dafny and proves its properties:

- **The toolbar** (`Toolbar` module, with `Search` and `CreateContainer`). It
  searches the registry through a proxy, normalises and ranks the results,
  pulls an image, and builds the create-container request from the dialog's
  name and port-mapping text. It also shows a notification snackbar and
  handles the keyboard shortcuts.
- **The application shell** (`App` module). It holds the four resource
  collections, the loading flag, the selected canvas node and the sidebar's
  visibility. It refreshes the collections with four fetches, one after
  another.
- **The sidebar** (`Sidebar` module). It lists the current collection of the
  selected tab as draggable items, each with a label, an icon and a tooltip.

The toolbar and the shell keep state that their handlers update, so they are
classes: `Toolbar.ToolbarState` and `App.AppState`. Each handler is a method
that states the new state in full. The sidebar only computes from its inputs,
so it is functions.

Nothing here performs network calls. How each request settles is a parameter
of the handler that awaits it:
- a search response: `Search.SearchResponse`;
- a pull or create outcome: `Toolbar.ApiOutcome`;
- the four refresh fetches: `App.Responses`.

An asynchronous handler that shows an intermediate state while it waits
(search spinner, pull in flight) is split into a `Begin…` method, an `End…`
method and the composite.

`Text` holds the JavaScript string operations the handlers rely on:
- `split`, which keeps empty pieces;
- `split('/').pop()`;
- decimal rendering of the random name suffix.

`Resources` holds the decoded Docker objects. Their fields are optional,
because the code reads several alternative fields.

In a few places the code does something one might not expect. The model
follows the code:
- The refresh is sequential. The first failed fetch abandons the later ones,
  so their slots keep their old contents. They are not refreshed independently.
- A query shorter than two characters issues nothing and leaves the previous
  results in place. It does not clear them.
- The submit handler does not itself reject an empty container name. Only the
  dialog's Create button is disabled for it (`Toolbar.CreateEnabled`).
- A successful create does not refresh the collections. The next poll does.
- A result's namespace is the first `/`-segment of its repository name. Its
  name is the last one.
- The pull guard is one shared in-flight flag plus a comparison with the last
  selected result. The search box can clear that selection (see Findings).

## Model

| member | source | states |
|---|---|---|
| CreateContainer.BuildContainerConfig | src/components/Toolbar.js:199-230 | the create body carries the dialog name verbatim, the image reference (`fullName`, else `name`) followed by `:latest`, and exactly the port bindings and exposed ports the two loops over the comma-separated pairs produce |
| CreateContainer.BindingsKeys | src/components/Toolbar.js:202-206 | a `<port>/tcp` key is bound iff some pair has a non-empty host side and that non-empty container side |
| CreateContainer.ExposedKeys | src/components/Toolbar.js:224-228 | a `<port>/tcp` key is exposed iff some pair has that non-empty container side, whatever its host side |
| CreateContainer.BindingsLastWins | src/components/Toolbar.js:202-206 | for a container port repeated in several pairs, the last binding pair's host port is the one kept |
| CreateContainer.BindingValuesAreSingletons | src/components/Toolbar.js:205 | every binding is a one-element list holding a non-empty host port free of `:`, the host side of some binding pair |
| CreateContainer.BoundPortsAreExposed | src/components/Toolbar.js:201-228 | every key of `PortBindings` is also a key of `ExposedPorts` |
| CreateContainer.PortKeysHaveTcpForm | src/components/Toolbar.js:205-227 | every bound or exposed key is a port text free of `:` and `,` followed by `/tcp` |
| CreateContainer.TwoMappingsExample | src/components/Toolbar.js:199-229 | `8080:80,3000:3000` binds `80/tcp` to host 8080 and `3000/tcp` to host 3000, and exposes both |
| CreateContainer.MalformedPairsExample | src/components/Toolbar.js:201-227 | `8080:`, `80` and the empty text add nothing; `:80` exposes `80/tcp` without binding it |
| Toolbar.ToolbarState.SubmitCreateContainer | src/components/Toolbar.js:195-250 | without a selected result nothing happens; otherwise the request is the built body; success shows "Container <name> created successfully" and closes the dialog; failure shows "Failed to create container: <message>" as an error and leaves the dialog as it was |
| Toolbar.CreateEnabled | src/components/Toolbar.js:524 | the Create button is enabled exactly for a non-empty name |
| Toolbar.DefaultContainerName | src/components/Toolbar.js:188 | the proposed name is the last `/`-segment of the result's name, a dash and the decimal digits of a number below 10000; it is never empty and holds no `/` |
| Toolbar.ToolbarState.OpenCreateDialog | src/components/Toolbar.js:182-189 | without a result nothing changes; otherwise the result is selected, the dialog opens and its name is the default name, so Create starts enabled |
| Toolbar.ToolbarState.CloseCreateDialog | src/components/Toolbar.js:191-193 | the dialog is closed |
| Toolbar.ToolbarState.SetContainerName | src/components/Toolbar.js:500-501 | typing in the name field replaces the container name the submit handler sends |
| Toolbar.ToolbarState.SetContainerPorts | src/components/Toolbar.js:512-513 | typing in the port field replaces the port-mapping text the submit handler parses |
| Search.Normalize | src/components/Toolbar.js:65-77 | description, counts and officialness pass through, `fullName` is the repository name, tags are `["latest"]`, and neither name nor namespace holds a `/` |
| Search.NormalizedNameParts | src/components/Toolbar.js:66-72 | the name is a suffix and the namespace a prefix of the repository name; with a `/` in it, a `/` stands right before the name and right after the namespace, so (neither holding a `/`) the name is the last segment and the namespace the first, however many segments there are; without a `/` the name is the whole repository name and the namespace is empty |
| Search.NormalizeQualified | src/components/Toolbar.js:66-72 | `ns/n` normalises to namespace `ns` and name `n` |
| Search.NormalizeAll | src/components/Toolbar.js:65 | one normalised result per raw result, in order |
| Search.ImageNameOfNormalized | src/components/Toolbar.js:74 | the image reference of a normalised result is the reported repository name |
| Search.RankSortedPermutation | src/components/Toolbar.js:80-84 | the ranked list is a permutation of its input and no later element compares before an earlier one |
| Search.RankOrdersResults | src/components/Toolbar.js:80-84 | ranking is a permutation; every official result precedes every non-official one; pull counts do not increase within equal officialness; results with equal keys keep their order |
| Search.RankStable | src/components/Toolbar.js:80-84 | results that compare equal keep their input order, as the language's stable sort requires |
| Search.RankOfficialFirstExample | src/components/Toolbar.js:81-82 | an official result with 10 pulls goes before a non-official one with 100 |
| Search.ShouldQuery | src/components/Toolbar.js:102 | a query is issued exactly when it has at least two characters |
| Search.ResultsAfter | src/components/Toolbar.js:63-93 | an ok response yields a ranked permutation of the normalised results; a non-ok or thrown one yields the empty list |
| Toolbar.ToolbarState.BeginSearch | src/components/Toolbar.js:57-62 | an empty query issues nothing; otherwise the spinner is on and the request is issued |
| Toolbar.ToolbarState.EndSearch | src/components/Toolbar.js:63-96 | the results become those of the response and the spinner is off in every case |
| Toolbar.ToolbarState.SearchDockerHub | src/components/Toolbar.js:57-97 | the whole search: nothing for an empty query, else the settled results and the spinner off |
| Toolbar.ToolbarState.DebounceElapsed | src/components/Toolbar.js:101-105 | a query of fewer than two characters issues nothing and changes nothing; a longer one ends with the settled results and the spinner off |
| Toolbar.ToolbarState.SetSearchQuery | src/components/Toolbar.js:304 | typing replaces the query |
| Toolbar.ToolbarState.ClearSearch | src/components/Toolbar.js:137-144 | query, results and selected result are cleared |
| Toolbar.ToolbarState.CloseSearch | src/components/Toolbar.js:145-149 | query and results are cleared; the selection is kept |
| Toolbar.FocusesSearch | src/components/Toolbar.js:113 | the search box takes the focus exactly for Ctrl+K and for `/` without Ctrl |
| Toolbar.SlashNeverTyped | src/components/Toolbar.js:113-114 | as written, a query holding a `/` has a character the key handler takes as the focus shortcut and cancels, so it is never typed |
| Toolbar.FocusesSearchOutsideFields | src/components/Toolbar.js:113 | the corrected shortcut: it focuses only where the written one does, agrees with it outside text fields, and inside a field reacts to Ctrl+K alone |
| Toolbar.ClearsSearch | src/components/Toolbar.js:121 | Escape clears only while the search box has the focus, and no key both clears and focuses |
| Toolbar.ToolbarState.HandleKeyDown | src/components/Toolbar.js:111-124 | the focus answer is the shortcut predicate; the search is cleared exactly on Escape in the search box, and nothing changes otherwise |
| Toolbar.ToolbarState.BeginPull | src/components/Toolbar.js:151-161 | without a result nothing happens; otherwise the result is selected, the flag raised and `imageName:latest` requested and awaited; the button as written (line 440) is then disabled for exactly the results with the same `name`, the corrected `PullDisabled` and `PullTargetDisabled` for exactly the results naming the same image |
| Toolbar.ToolbarState.EndPull | src/components/Toolbar.js:161-179 | success shows "Started pulling <image>:<tag>" and clears the search; failure shows "Failed to pull image: <message>" as an error and keeps the search; the flag is lowered and the pull is no longer awaited either way |
| Toolbar.ToolbarState.PullImage | src/components/Toolbar.js:151-180 | the whole pull: the request `imageName:latest`, the selection, the lowered flag; on success the notice "Started pulling <image>:latest" and a cleared search; on failure the error notice "Failed to pull image: <message>" with the query and results as they were |
| Toolbar.PullDisabledAsWritten | src/components/Toolbar.js:440 | the button as written: disabled only while pulling, and at least for the result being pulled |
| Toolbar.SameNameDisablesOtherImage | src/components/Toolbar.js:440 | pulling `bitnami/nginx` disables the official `nginx` result as written, though the two name different images, and the corrected predicate does not |
| Toolbar.PullDisabled | src/components/Toolbar.js:440 | the corrected button: disabled only while pulling the same image reference, and always for the result being pulled |
| Toolbar.PullTargetDisabled | src/components/Toolbar.js:440 | the corrected guard of the second finding: disabled only while a pull is awaited, and then exactly for the results naming the awaited image |
| Toolbar.EscapeDuringPull | src/components/Toolbar.js:121-144 | after a pull starts, Escape in the search box clears the selection: the pull is still in flight, the button as written is enabled again for the result being pulled, and the button guarded by the awaited pull stays disabled |
| Toolbar.ToolbarState.CloseSnackbar | src/components/Toolbar.js:252-254 | the snackbar closes and keeps its message and severity |
| Toolbar.ToolbarState.constructor | src/components/Toolbar.js:39-52 | nothing typed, found, selected, in flight, awaited or open; the snackbar is closed, empty and of success severity |
| App.UnwrapVolumes | src/App.js:41 | the volumes slot is the envelope's `Volumes` list, or empty when it is absent |
| App.Completed | src/App.js:28-49 | the number of leading successful fetches: every earlier step delivered, and the step at that position failed |
| App.RequestsIssued | src/App.js:28-46 | one request per successful step plus the failing one, at most four |
| App.RefreshedSlots | src/App.js:28-49 | after a refresh, each slot before the first failure holds what its fetch delivered, and the failed slot and all later ones keep their previous contents |
| App.FailureKeepsLaterSlots | src/App.js:28-49 | a failure at one step leaves that slot and every later one unchanged, whatever the later responses would have been |
| App.FullRefresh | src/App.js:28-46 | when all four fetches succeed, every slot is replaced wholesale and four requests are made |
| App.AppState.BeginFetch | src/App.js:24-26 | a refresh, on mount or on a poll, raises the loading flag (the sidebar's spinner) and leaves the collections as they were |
| App.AppState.EndFetch | src/App.js:28-52 | the collections become the refreshed ones, each fetch awaited before the next; loading is off at the end whatever failed; the requests made are counted |
| App.AppState.FetchData | src/App.js:24-53 | the whole refresh: loading raised, then the refreshed collections and loading off, with no error reaching the caller |
| App.AppState.constructor | src/App.js:14-20 | four empty collections, no selection, loading, sidebar open |
| App.AppState.SelectNode | src/App.js:63-65 | the picked node replaces the selection |
| App.AppState.DeselectNode | src/App.js:67-69 | the selection is cleared |
| App.AppState.ToggleSidebar | src/App.js:71-73 | the sidebar's visibility is negated |
| Sidebar.BeginDrag | src/components/Sidebar.js:22-26 | the drag payload carries exactly the list's type and the item unchanged |
| Sidebar.TypeName | src/components/Sidebar.js:140-213 | the drag types are the four upper-case kind names |
| Sidebar.TypeNamesDistinct | src/components/Sidebar.js:140-213 | distinct kinds are dragged under distinct type names |
| Sidebar.StripLeadingSlash | src/components/Sidebar.js:40 | the result is a suffix of the text, one character shorter exactly when the text starts with `/` |
| Sidebar.IdPrefix | src/components/Sidebar.js:40 | the first twelve characters of the id, or all of a shorter one; nothing without an id |
| Sidebar.Label | src/components/Sidebar.js:40 | with `Names`, its first entry without one leading `/` (no label when the list is empty); otherwise the first non-empty of `name` and `Name`, else the id prefix |
| Sidebar.LabelFallbacks | src/components/Sidebar.js:40 | a label that falls back to the id is a prefix of the id of at most twelve characters; a `/name` container is labelled `name` |
| Sidebar.IconFor | src/components/Sidebar.js:142-215 | only containers get the container icon, green exactly when the state is `running` |
| Sidebar.TooltipFor | src/components/Sidebar.js:137-210 | containers show their image, images their first tag or "No tag" without a tag list, volumes and networks their driver |
| Sidebar.SidebarBody | src/components/Sidebar.js:122-223 | a spinner and no list exactly while loading; else the tab's "No … found" message for an empty collection, or one row per item in order, each with the item as drag payload under the tab's kind and with its label, tooltip and icon |
| Sidebar.TabsTagTheirKinds | src/components/Sidebar.js:129-213 | tab 0 drags containers as CONTAINER, tab 1 images as IMAGE, tab 2 volumes as VOLUME and tab 3 networks as NETWORK |
| Text.JoinSplit | src/components/Toolbar.js:202 | splitting keeps every character: joining the pieces gives back the text |
| Text.SplitJoin | src/components/Toolbar.js:203 | splitting a join of separator-free pieces gives back the pieces |
| Text.LastPieceIsSuffix | src/components/Toolbar.js:66 | `split('/').pop()` is a separator-free suffix of the text and idempotent |
| Text.DecimalRoundTrip | src/components/Toolbar.js:188 | the decimal text of a number reads back as that number |

## Left out

- Timers are not modelled: the 500 ms search debounce, the 10-second poll, the 150 ms blur delay and the 6-second snackbar auto-hide. The model keeps only what happens when each fires (`DebounceElapsed`, `FetchData`, `CloseSnackbar`).
- Overlapping asynchronous handlers are not modelled. Two searches or two pulls in flight at once, and a response that arrives after a newer query, are races the code does not guard against. Each handler here runs to completion.
- The network and `dockerApi` calls are not modelled. Their outcomes are parameters. `dockerApi`, `Canvas` and `ContainerDetails` are not part of this model.
- JSON decoding is not modelled beyond success or failure. A search body without a `results` list counts as a thrown search. A refresh body that decodes to something other than a list, or a volumes body that is `null`, is not modelled.
- DOM focus and blur and the document key listener's registration are not modelled. `HandleKeyDown` takes "the search box has the focus" as a parameter and answers whether to focus it.
- `Toolbar.ToolbarState.HandleKeyDown` does not model the text a key types. The handler's `preventDefault` on the focus shortcut means a bare `/` is never typed, in the search box or in the dialog's fields. So a query such as `bitnami/nginx` cannot be typed (see Findings; `Toolbar.SlashNeverTyped`).
- The search box's focus flag and the result dropdown's visibility are rendering, not modelled. So are the "No results found" line and the spinner inside the dropdown.
- The refresh button reloads the whole page. That is not modelled.
- `Math.random` is not modelled. The name suffix is a parameter below 10000.
- react-dnd's drag monitor and the dragging opacity are not modelled. Only the payload is.
- `Sidebar.BeginDrag` gives the payload of the item a row is drawn for. The drag specification is passed to react-dnd without a dependency list, and react-dnd may keep the payload built when the row first mounted. Rows are keyed by id, image digest or volume name, so a row that React reuses across refreshes (an image without a digest, matched by position) may carry an earlier or a different item. That memoisation is not modelled.
- `App.AppState.EndFetch` runs the four awaited fetches as one step. The half-refreshed collections between two awaits are states a render can show, but they are not states of the model. Only the raised flag before the fetches (`BeginFetch`) and the state after them are.
- The sidebar's tab changes are not modelled as state. The selected tab is a parameter of `SidebarBody`.
- JSX, MUI layout, the drawer width and the icons' artwork are not modelled. Logging is not modelled either.
- Lengths count Unicode characters. JavaScript counts UTF-16 code units, so `ShouldQuery` and the 12-character id prefix differ from the code only for characters outside the Basic Multilingual Plane.
- `Sidebar.Label` models a label expression that would throw (an empty `Names` list) as no label. The model does not capture that the exception aborts the render.
- `Sidebar.TooltipFor`: an image with an empty `RepoTags` list gets no tooltip, as the code computes. The model does not claim "No tag" for it.
- Non-string field values in the decoded objects are not modelled. Every optional field is a string or absent.

## Findings

| source | as written | input that shows it | evidently intended | confidence | as-written member | corrected member |
|---|---|---|---|---|---|---|
| src/components/Toolbar.js:440 | the pull button is disabled while any pull is in flight for a selected result with the same `name`, which is only the last segment of the repository name | pull `bitnami/nginx`; while it is in flight the official `nginx` result's button is disabled too, and shows the in-flight spinner | disable the button only for the result whose image reference (`fullName`, else `name`) is being pulled | medium, not executed | Toolbar.SameNameDisablesOtherImage | Toolbar.PullDisabled |
| src/components/Toolbar.js:440 | the pull button's guard reads the selected result, and Escape in the search box clears the search and the selection | start pulling a result, then press Escape in the search box and search again: the result's button is enabled while the first pull is still in flight, so a second pull of the same image can start | keep the button disabled for the awaited image whatever the search box does | medium, not executed | Toolbar.EscapeDuringPull | Toolbar.PullTargetDisabled |
| src/components/Toolbar.js:113-114 | the document-wide key handler takes a bare `/` as the focus shortcut and cancels its default action wherever the focus is | type `bitnami/nginx` into the search box: the `/` is swallowed and the box holds `bitnaminginx` | take `/` as the shortcut only while no text field has the focus | medium, not executed | Toolbar.SlashNeverTyped | Toolbar.FocusesSearchOutsideFields |
