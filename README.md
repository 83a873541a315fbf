# OSF project header, addon folder pickers, storage providers and Dataverse grid — a Dafny model

This project models four pieces of the Open Science Framework code base:

- **Project header view-model** (`website/static/js/nodeControl.js`).
  - Choosing the warning and the endpoint for a change to public or private.
  - Building the addon alert blocks shown before going public.
  - Validating the title.
  - Adding the project to and removing it from the project organizer (dashboard).
  - Watching and unwatching, with the watch count adjusted before the server answers.
  - The DOI and ARK links, and asking for and creating identifiers.
- **Addon folder-picker configuration** (`website/static/js/addonNodeConfig.js`).
  - The default pick handler and the default connect-account handler.
  - How the caller's options override them (`$.extend`).
  - The derived selected-folder type.
  - The tree options the picker hands to its tree widget.
- **Provider registry and copy/move dispatch** (`providers/core.py`).
  - The `PROVIDERS` table with `register_provider`, `get_provider` and `make_provider`.
  - `ResponseWrapper`.
  - `BaseProvider.copy` and `BaseProvider.move`: try the provider's own intra-provider operation, and fall back to download/upload (plus delete for a move) when it is unavailable or raises `NotImplementedError`.
- **Dataverse grid configuration** (`website/addons/dataverse/static/dataverseRubeusCfg.js`).
  - Merging upload results into grid rows in place.
  - The release-study flow and its messages.
  - Refreshing a Dataverse item after a state change.
  - The DOI link of a citation.

## How things are modelled

- **Knockout observables** become `var` fields of a class.
- **Computed observables** become functions with `reads this`.
- **Server requests** are not issued. Their answers arrive as parameters of type `Reply<T>`: `Ok(body)` for `done`, `Fail` for `fail`.
- **User answers** to `bootbox.confirm` are also parameters (`confirmed`).
- **Effects the code has on the page**, such as dialogs, alerts, grid updates and requests, are returned as values, or appended to a log field that the methods extend.
- **Falsy identifiers** (`null`, `undefined`, `''`) in the DOI and ARK fields and in usernames are the empty string.
- **JavaScript objects** whose keys matter are maps, and a missing key is `undefined`. `$.extend` is map union, so the later source's keys win.
- **A Python class** is a value compared by its qualified name (`ProviderClass(qualname)`), so two distinct classes sharing a qualified name are one class here.
- **A coroutine** becomes a method that records, in order, the provider calls it makes. The outcome of each call is a parameter (`Answers`). A pure function (`CopyRun`, `MoveRun`) gives the result and the log left after the calls, from the log before them. The methods are proved equal to it, and the lemmas are stated on it.

Decisions taken where the code is not obvious:

- **Warnings.** The message key is chosen with strict equality and a final `else`. A node type other than `project` or `component` that goes public is therefore shown the component *private* warning, while the request still goes to the public endpoint (`UnknownNodeTypeGoingPublicWarnsAsPrivate`).
- **Toggling watch.** `toggleWatch` adjusts the count before the request and does not flip `userIsWatching` itself. On failure nothing is rolled back: the count stays off by one and the button label is unchanged. Only a success brings both values from the server.
- **Asking for identifiers.** `askCreateIdentifiers` does not re-check `canCreateIdentifiers`. A confirmed dialog always posts.
- **Picking a folder.** The default pick handler replaces the selection with an object holding only `name`, `path` and `id`. Afterwards a user with auth has a selected-folder type of `undefined` (`None`), not `''`.
- **Release failures.** The failure branch reads `args.responseJSON.code`. When the reply has no JSON body, that read throws before the alert and before `updateItem`, so neither happens (`ReleaseReply.ReleaseFailed(None)`).
- **Dataverse rows.** A grid row is one object, `data` and `urls` included. The refresh merges the answer's first entry into the whole row, so an answer carrying `data` or `urls` replaces them, and the next refresh or release uses the new URLs (`AnswerReplacesRowUrls`).
- **Refreshing an item.** When an item's `data` is not an object, the state is written to a fresh object that is then dropped, so the row keeps no state. An empty successful answer merges nothing, but the folder is still reloaded.
- **Organizer flag.** `addToDashboard` sets the flag first and, on failure, sets it to `false`; `removeFromDashboard` clears it first and, on failure, sets it to `true`. Neither restores the earlier value, so after a failure the flag is the opposite of the attempted change whatever it was before.
- **Citation links.** The citation link takes the second `:`-separated segment of the DOI. A DOI without `:` yields a link ending in `undefined`.

## Model

| member | source | states |
|---|---|---|
| NodeControl.SelectMessageKey | website/static/js/nodeControl.js:55-58 | each of the four warnings is chosen exactly when its permission/node-type condition holds; the component-private warning is chosen in every remaining case |
| NodeControl.SelectUrlKey | website/static/js/nodeControl.js:60 | the public endpoint is used iff the permission is `public`, the private one otherwise |
| NodeControl.WarningAgreesWithEndpoint | website/static/js/nodeControl.js:55-60 | for a known node type and permission, a public warning is shown iff the request goes to the public endpoint |
| NodeControl.UnknownNodeTypeGoingPublicWarnsAsPrivate | website/static/js/nodeControl.js:55-60 | for an unknown node type going public, the component-private warning is shown although the public endpoint is used |
| NodeControl.PrivateChangeShowsBaseMessage | website/static/js/nodeControl.js:57-58 | a change to private shows the project-private warning for a project and the component-private warning otherwise |
| NodeControl.WrappedAppend | website/static/js/nodeControl.js:89-92 | enclosing each item of a concatenation gives the concatenation of the enclosed lists |
| NodeControl.AlertBlocksAppend | website/static/js/nodeControl.js:89-92 | the alert text of a concatenation of prompt lists is the concatenation of their alert texts |
| NodeControl.AlertBlocksCons | website/static/js/nodeControl.js:89-92 | the first prompt's block comes before the blocks of the rest |
| NodeControl.BuildAlerts | website/static/js/nodeControl.js:87-92 | the loop leaves one warning `div` per prompt, in prompt order |
| NodeControl.SetPermissions | website/static/js/nodeControl.js:51-99 | going public with unavailable prompts opens no dialog; otherwise the dialog shows the alerts followed by the chosen message; a request is made iff the user confirms; the request goes to the chosen endpoint with the permission as body; the page reloads iff the request succeeds |
| NodeControl.IndexOf | website/static/js/nodeControl.js:253 | `indexOf` is -1 iff the element is absent, and otherwise the first index holding it |
| NodeControl.TrimEmptyIffBlank | website/static/js/nodeControl.js:168-172 | trimming leaves the empty string iff every character is JavaScript whitespace |
| NodeControl.ValidateTitle | website/static/js/nodeControl.js:168-172 | a title is rejected, with the blank-title message, iff it is whitespace only |
| NodeControl.ProjectViewModel.constructor | website/static/js/nodeControl.js:105-128 | every field is initialised from the node and user data |
| NodeControl.ProjectViewModel.WatchButtonAction | website/static/js/nodeControl.js:133-135 | the button reads `Unwatch` iff the user is watching and `Watch` iff not |
| NodeControl.ProjectViewModel.CanBeOrganized | website/static/js/nodeControl.js:137-139 | organizing is possible iff there is a logged-in user and the node is public or the user is a contributor |
| NodeControl.ProjectViewModel.HasIdentifiers | website/static/js/nodeControl.js:245-247 | true iff both a DOI and an ARK are present |
| NodeControl.ProjectViewModel.CanCreateIdentifiers | website/static/js/nodeControl.js:249-254 | true iff identifiers are missing, the node is a public registration and the user holds `admin` |
| NodeControl.ProjectViewModel.DoiUrl | website/static/js/nodeControl.js:256-258 | a link exists iff there is a DOI; it is the EZID DOI prefix followed by exactly the DOI |
| NodeControl.ProjectViewModel.ArkUrl | website/static/js/nodeControl.js:260-262 | a link exists iff there is an ARK; it is the EZID ARK prefix followed by exactly the ARK |
| NodeControl.ProjectViewModel.AddToDashboard | website/static/js/nodeControl.js:185-196 | posts the pointer to the user's dashboard; the node ends up in the dashboard iff the request succeeds |
| NodeControl.ProjectViewModel.RemoveFromDashboard | website/static/js/nodeControl.js:200-208 | deletes the dashboard pointer; the node stays in the dashboard iff the request fails |
| NodeControl.ProjectViewModel.ToggleWatch | website/static/js/nodeControl.js:214-231 | posts to `togglewatch/`; on success the watch flag and count come from the server; on failure the flag is kept and the count stays moved by one in the direction of the intended toggle |
| NodeControl.ProjectViewModel.CreateIdentifiers | website/static/js/nodeControl.js:279-289 | posts to `identifiers/`; on success DOI and ARK come from the server, and identifiers can no longer be created once both are non-empty; on failure nothing changes |
| NodeControl.ProjectViewModel.AskCreateIdentifiers | website/static/js/nodeControl.js:264-277 | a request is made iff the user confirms; the identifiers change only for a confirmed, successful request |
| NodeControl.ProjectViewModel.MakePublic | website/static/js/nodeControl.js:233-235 | the dialog opens iff the prompts arrive and shows the alerts before the public warning; a request is made iff the prompts arrive and the user confirms; it posts `{permissions: 'public'}` to `permissions/public/`; the page reloads iff it succeeds |
| NodeControl.ProjectViewModel.MakePrivate | website/static/js/nodeControl.js:237-239 | the dialog always opens with the private warning for the node type; a request is made iff the user confirms; it posts `{permissions: 'private'}` to `permissions/private/`; the page reloads iff it succeeds |
| Common.Extend | website/static/js/addonNodeConfig.js:62 | `$.extend` (also at dataverseRubeusCfg.js:43 and 115): the merge holds the keys of both objects; the later object's values win and the other keys keep the earlier values |
| AddonNodeConfig.MergeOptions | website/static/js/addonNodeConfig.js:46-62 | each hook is the caller's when the caller supplies it and the default otherwise |
| AddonNodeConfig.SlotsAreIndependent | website/static/js/addonNodeConfig.js:46-62 | overriding one hook does not change the other, and the override is what the slot holds |
| AddonNodeConfig.NormalizeOpts | website/static/js/addonNodeConfig.js:93-95 | undefined options give exactly the default hooks; defined options are used as given |
| AddonNodeConfig.PickLabel | website/static/js/addonNodeConfig.js:49 | the label is the path, except that the root path is labelled with the addon's full-account name and is never a bare `/` |
| AddonNodeConfig.RootLabelIsNotUnique | website/static/js/addonNodeConfig.js:49 | a folder whose path equals the root label gets the same label as the root |
| AddonNodeConfig.ResolveLazyloadUrl | website/static/js/addonNodeConfig.js:71-73 | subfolders load from the item's own `folders` URL |
| AddonNodeConfig.LazyloadUrl | website/static/js/addonNodeConfig.js:71-73 | the lazy-load resolver installed in the tree options computes `ResolveLazyloadUrl`; no other option is a resolver of this view-model |
| AddonNodeConfig.TreeResolvesLazyloadFromItem | website/static/js/addonNodeConfig.js:64-75 | whatever the base picker's tree options, after the merge the pick hook is the dispatch to `PickFolder` and every item's subfolders load from its own `folders` URL |
| AddonNodeConfig.AddonFolderPickerViewModel.constructor | website/static/js/addonNodeConfig.js:31-76 | fields come from the arguments and the base picker; the options are the merge of the caller's options over the defaults; the tree options gain the pick dispatch and the lazy-load resolver |
| AddonNodeConfig.AddonFolderPickerViewModel.SelectedFolderType | website/static/js/addonNodeConfig.js:36-40 | `''` without auth or selection; otherwise the selection's `type`, and `undefined` exactly when it has none |
| AddonNodeConfig.AddonFolderPickerViewModel.DefaultOnPickFolder | website/static/js/addonNodeConfig.js:47-56 | prevents the default action, stops propagation, and replaces the selection with exactly `{name, path, id}` for the item; afterwards an authorised user's folder type is `undefined` |
| AddonNodeConfig.AddonFolderPickerViewModel.PickFolder | website/static/js/addonNodeConfig.js:68-70 | the tree hook runs the default handler when it is installed; otherwise it runs the caller's handler, and the selection and the event are what that handler leaves (`CallerPick`, given as a parameter because the handler's code is the caller's) |
| AddonNodeConfig.AddonFolderPickerViewModel.ConnectAccount | website/static/js/addonNodeConfig.js:83-85 | by default it navigates to the authorization URL the view-model holds when it runs (lines 57-59); a supplied handler runs instead |
| AddonNodeConfig.AddonFolderPickerViewModel.UpdateCustomFields | website/static/js/addonNodeConfig.js:77-79 | the credential flag is copied from the fetched settings |
| AddonNodeConfig.AddonNodeConfig.constructor | website/static/js/addonNodeConfig.js:89-99 | builds the view-model with normalised options; undefined options give the default hooks |
| ProviderCore.RegisterAsWritten | providers/core.py:11-18 | the guard as written: registration succeeds iff the same class is already registered under the name, so the table never changes |
| ProviderCore.Register | providers/core.py:11-18 | corrected guard: fails, leaving the table alone, iff the name is taken by another class; otherwise the name maps to the class and no other entry changes |
| ProviderCore.AsWrittenNothingEverRegisters | providers/core.py:13-14 | from the empty table under the written guard, every registration in any sequence raises "already registered" and the table stays empty |
| ProviderCore.DistinctRegistrationsAllSucceed | providers/core.py:11-25 | with the corrected guard, registering fresh distinct names all succeeds, each name then resolves to its class, and earlier entries survive |
| ProviderCore.RegisterIsIdempotent | providers/core.py:13-16 | registering the same class under the same name twice equals registering it once |
| ProviderCore.GetProvider | providers/core.py:21-25 | a lookup succeeds iff the name is registered and returns its class; an unknown name is the "no provider" error |
| ProviderCore.MakeProvider | providers/core.py:28-29 | constructs the registered class with the given keyword arguments, or fails as the lookup does |
| ProviderCore.RegisteredProviderCanBeMade | providers/core.py:11-29 | after registering a fresh name, `make_provider` builds that class with the given arguments |
| ProviderCore.Providers.RegisterProviderAsWritten | providers/core.py:11-18 | the module-level table under the written guard: result as `RegisterAsWritten`, table unchanged |
| ProviderCore.Providers.RegisterProvider | providers/core.py:11-18 | the module-level table under the corrected guard: result and new table as `Register` |
| ProviderCore.WrapResponse | providers/core.py:32-38 | keeps the response and its content; the size is the `Content-Length` header, absent iff the header is; the content type is the `Content-Type` header or `application/octet-stream` |
| ProviderCore.BaseAnswers | providers/core.py:53-63 | the base provider never offers intra-provider copy or move |
| ProviderCore.CopyIntraPathIsAlone | providers/core.py:66-71 | a successful intra copy is the only call made and its value is returned; nothing is transferred |
| ProviderCore.CopyFallbackIsDownloadThenUpload | providers/core.py:66-73 | without intra copy, or when it raises `NotImplementedError`, the copy downloads from the source and uploads the same object to the destination, in that order |
| ProviderCore.CopyIntraErrorPropagates | providers/core.py:67-71 | any other exception from the intra copy propagates and nothing is transferred |
| ProviderCore.MoveIntraPathIsAlone | providers/core.py:76-81 | a successful intra move is the only call made and its value is returned |
| ProviderCore.CopyNeverDeletes | providers/core.py:65-73 | a copy only appends to the log it starts from, and none of the calls it appends is a delete |
| ProviderCore.MoveDeletesOnlyAfterCompletedCopy | providers/core.py:76-83 | a fallback move deletes the source, as its last call, only when the copy returned; otherwise no delete happens |
| ProviderCore.BaseProviderAlwaysFallsBack | providers/core.py:53-83 | on the base provider, copy is download then upload and move is that copy followed by delete |
| ProviderCore.FallbackCopy | providers/core.py:72-73 | defines the fallback: a download from the source, then, if it returned, an upload of that object; the log gains the download first; it raises iff the download or the upload raises |
| ProviderCore.CopyRun | providers/core.py:65-73 | defines `copy`: the intra copy when offered, kept unless it raised `NotImplementedError`, otherwise the fallback; the log before the copy is kept, and its first new call is the intra copy iff one is offered |
| ProviderCore.MoveRun | providers/core.py:75-83 | defines `move`: the intra move when offered, kept unless it raised `NotImplementedError`, otherwise a copy and what follows it; the log before the move is kept, and its first new call is the intra move iff one is offered |
| ProviderCore.AfterCopy | providers/core.py:82-83 | defines the end of a fallback move: a raised copy ends it unchanged; a returned copy is followed by exactly one more call, the delete |
| ProviderCore.Copy | providers/core.py:65-73 | the coroutine's outcome, and the log it leaves, are those `CopyRun` gives for the log it started from |
| ProviderCore.Move | providers/core.py:75-83 | the coroutine's outcome, and the log it leaves, are those `MoveRun` gives for the log it started from |
| DataverseRubeusCfg.ReplacesIffEqualTruthyIds | website/addons/dataverse/static/dataverseRubeusCfg.js:113-114 | the row matches the answer iff its `file_id` equals the answer's `old_id` and is truthy; a row with a null id never matches |
| DataverseRubeusCfg.Merged | website/addons/dataverse/static/dataverseRubeusCfg.js:113-116 | defines one row after the loop: the answer merged in when the row matches; the row never loses a key and changes only when it matches |
| DataverseRubeusCfg.ReplacedIndices | website/addons/dataverse/static/dataverseRubeusCfg.js:111-117 | lists, in increasing order, exactly the rows whose truthy `file_id` equals the upload's truthy `old_id` |
| DataverseRubeusCfg.UploadSuccess | website/addons/dataverse/static/dataverseRubeusCfg.js:108-120 | without `actionTaken = 'file_updated'` the grid is untouched; otherwise every row whose id is the old id is merged with the response, every other row is kept, and the updated rows are reported in order |
| DataverseRubeusCfg.MergedItemFields | website/addons/dataverse/static/dataverseRubeusCfg.js:113-116 | a non-matching row is unchanged; a matching row takes every response field and keeps its others |
| DataverseRubeusCfg.MergeIsIdempotent | website/addons/dataverse/static/dataverseRubeusCfg.js:113-116 | merging the same response twice equals merging once; a row given a new id no longer matches the old one |
| DataverseRubeusCfg.ReleaseFailureMessage | website/addons/dataverse/static/dataverseRubeusCfg.js:73-76 | the "something went wrong" error is shown iff the failure code is 400, and "already released" otherwise |
| DataverseRubeusCfg.ReleaseEffects | website/addons/dataverse/static/dataverseRubeusCfg.js:55-82 | defines the release action's calls: the question always comes first; anything follows it, including the PUT to the release URL, iff the user confirms |
| DataverseRubeusCfg.ReleaseOrder | website/addons/dataverse/static/dataverseRubeusCfg.js:55-82 | a declined confirmation does nothing more; a confirmed one sets the releasing status and then makes the PUT; the alert and the row update follow unless the failure has no JSON body, in which case the row is never updated |
| DataverseRubeusCfg.Grid.ReleaseStudy | website/addons/dataverse/static/dataverseRubeusCfg.js:52-83 | the release URL is read from the row's `urls` first; with one, the grid's effects are extended by exactly the release effects for it; without one, nothing happens |
| DataverseRubeusCfg.UrlsEntry | website/addons/dataverse/static/dataverseRubeusCfg.js:37 | `row.urls[key]` is a URL exactly when `urls` is an object holding a string under `key`, and then it is that string (also read at line 54) |
| DataverseRubeusCfg.WithState | website/addons/dataverse/static/dataverseRubeusCfg.js:35-36 | an object `data` gains `state` and keeps its other properties; the row's other properties are untouched; a row whose `data` is not an object is unchanged |
| DataverseRubeusCfg.WithStateKeepsUrls | website/addons/dataverse/static/dataverseRubeusCfg.js:35-37 | recording the state does not change the URL the refresh then reads |
| DataverseRubeusCfg.AnswerReplacesRowUrls | website/addons/dataverse/static/dataverseRubeusCfg.js:43 | after the merge the row's `data` is the answer's, and its URLs are the answer's when the answer carries `urls` and the old ones otherwise |
| DataverseRubeusCfg.RefreshDataverseTree | website/addons/dataverse/static/dataverseRubeusCfg.js:34-47 | records the state on the row's data; without a state URL stops there; otherwise requests the state URL with the encoded state, and on success merges the answer's first entry (if any) into the whole row and reloads the folder; on failure the row keeps only the recorded state |
| DataverseRubeusCfg.Split | website/addons/dataverse/static/dataverseRubeusCfg.js:21 | splitting yields at least one part, and no part contains the separator |
| DataverseRubeusCfg.JoinSplit | website/addons/dataverse/static/dataverseRubeusCfg.js:21 | joining the parts of a split with the separator gives back the string |
| DataverseRubeusCfg.SplitJoin | website/addons/dataverse/static/dataverseRubeusCfg.js:21 | splitting a join of separator-free parts gives back the parts |
| DataverseRubeusCfg.CitationLink | website/addons/dataverse/static/dataverseRubeusCfg.js:21 | a DOI without `:` gives a link ending in `undefined` |
| DataverseRubeusCfg.CitationLinkSegment | website/addons/dataverse/static/dataverseRubeusCfg.js:21 | for `scheme:segment` with or without further segments, the link is the DOI resolver prefix followed by exactly the second segment |

## Left out

- Rendering and the browser: the DOM, Knockout bindings and `applyBindings`, bootbox dialogs, growl and Raven error reporting, `window.location.reload`, ZeroClipboard. Their inputs are parameters; their effects are outcome values.
- The in-place editors for title and description: their widget options, the edit request and the reload on success. Only the title validator is modelled (`ValidateTitle`).
- The `parent` field and the date fields, which are stored but never used by the logic modelled here.
- The `NodeControl` wrapper object, `FormattableDate` fields, the `watchButtonDisplay` formatting and `forkNode`. They are presentation or delegate to code that is not part of this model.
- HTML escaping and `submitSettingsSuccess` messages in the folder picker. `updateFromData` and the rest of the base `FolderPickerViewModel` are not part of this model either. The base picker's state enters as the `PickerBase` value.
- Caller-supplied handlers are opaque (`Handler.Supplied`). A supplied pick handler's effect on the selection and the event enters `PickFolder` as the `CallerPick` parameter; a supplied connect handler's effect is not modelled, only that it runs in place of the default.
- `updateFromData` fills the base picker's `urls` after construction. The model keeps the authorization URL in the `authUrl` field, which `ConnectAccount` reads when it runs; the refill itself is not modelled.
- `RefreshDataverseTree`: the `$.param` URL encoding is the parameter `encode`.
- `UploadSuccess`: grid items are values in an array, so aliasing between the grid's items and other references is not modelled.
- `WithState`: a `data` that is an array or function (`JsRef`) gains a `state` property in JavaScript; the model leaves it unchanged, as it does for primitives, where sloppy-mode JavaScript ignores the write.
- `UrlsEntry`: a row whose `urls` is an object but whose `state` or `release` entry is missing or not a string is treated like a row without `urls`, so the refresh stops after recording the state and the release does nothing. JavaScript would throw only when `urls` itself is null or undefined. Otherwise it would request `undefined?state=…`, or the page's own URL for the release.
- Plain objects are values here. Sharing of a row's `data` object with other holders is not modelled, and neither is `===` between objects, which JavaScript compares by reference.
- JavaScript numbers are integers. NaN, fractions and loose equality between numbers and strings are not modelled.
- Server requests run in one order, to completion. Interleavings of several outstanding requests are not modelled.
- `use_kwargs` wrapping of provider constructors and validation of their keyword arguments. `use_kwargs` is not part of this model, so `MakeProvider` records the arguments unchecked.
- `RequestWrapper` and `StreamReader`: stream handling is I/O.
- `download`, `upload` and `delete` are abstract in the base class. Their outcomes are parameters (`Answers`), and the objects they return are opaque.
- The `asyncio` scheduling of coroutines, and exceptions other than `NotImplementedError`, which are lumped together as `OtherError`.
- `WrapResponse`: HTTP header names are case-sensitive map keys here, whereas aiohttp's header lookup ignores case.
- `WrapResponse`: `Content-Length` is kept as the header's string, as the source does.
- `SetPermissions`: a failure of the permission request itself is modelled only as "no reload". The JSON error handler is not modelled.

## Findings

| source | as written | input that shows it | evidently intended | confidence | as-written member | corrected member |
|---|---|---|---|---|---|---|
| providers/core.py:13-14 | `if PROVIDERS.get(name) != cls: raise ValueError(...)` rejects a registration unless that very class is already registered under the name | empty `PROVIDERS`, `register_provider('s3')(S3Provider)`: `PROVIDERS.get('s3')` is `None`, which differs from `S3Provider`, so it raises "s3 is already a registered provider" and nothing is ever registered | raise only when the name is already taken by a different class: `name in PROVIDERS and PROVIDERS[name] != cls` | not executed | ProviderCore.RegisterAsWritten (with ProviderCore.AsWrittenNothingEverRegisters) | ProviderCore.Register (with ProviderCore.DistinctRegistrationsAllSucceed) |
