# Insomnia scratch-pad deep links and the WebSocket-request model, in Dafny

This project models two small pieces of the Insomnia desktop API client:

- the `shell:open` deep-link handler of the scratch-pad screen
  (`packages/insomnia/src/ui/routes/scratchpad-comp.tsx`): it derives a routing key
  from an `insomnia://` link by cutting at the first `?`, rewrites the development
  scheme `insomniadev://` in development builds, dispatches by exact string equality
  over eight known links, and runs the confirm-dialog and OAuth continuations; plus the
  `importUri` state that opens and closes the import dialog;
- the WebSocket-request model (`packages/insomnia/src/models/websocket-request.ts`):
  its metadata constants (`type` `WebSocketRequest`, `prefix` `ws-req`,
  `canDuplicate` true, `canSync` false), `init`, `isWebSocketRequest`, `migrate` and
  the `parentId` guard in front of the store's create.

Every side effect of the handler (a dialog, a route submission, a plugin or settings
call, an OAuth exchange, a log line) is a value of `DeepLink.Effect`; the screen object
`ScratchPadScreen.ScratchPad` keeps the effects issued so far in order, with the
`importUri` state beside them.

Files:

- `wrappers.dfy`: `Option` (for `undefined`) and `Result` (for a thrown error).
- `js_string.dfy`: JavaScript's `indexOf`, `substring`, `replace` with a string pattern,
  and truthiness of a possibly-undefined string.
- `deep_link.dfy`: routing key, development rewrite, the dispatch `Route`, the whole
  handler `HandleUrl`, and the continuations as functions.
- `scratchpad.dfy`: the `ScratchPad` class; its methods are the handler and the
  continuations as step sequences, each proved equal to the function that specifies it.
- `websocket_request.dfy`: the WebSocket-request model.

Inputs the source obtains from outside are parameters: whether `new URL(url)` throws
and the `searchParams` map (`params: Option<Params>`, `None` when parsing throws), the
build mode (`isDevelopment`), the decoding of the `theme` parameter
(`decodeTheme`, applied to the parameter's text and `None` when `JSON.parse` throws; a
missing parameter always throws, since it decodes to the text `undefined`), how each awaited external call
settles (`Settled`, or for the theme install the number of awaited calls that resolve
before one rejects), and `Date.now()` (`now`).

## Model

| member | source | states |
|---|---|---|
| JsString.IndexOf | packages/insomnia/src/ui/routes/scratchpad-comp.tsx:61 | `indexOf` gives the first index at which the pattern occurs, with no occurrence before it, or -1 exactly when it occurs nowhere |
| JsString.Substring | packages/insomnia/src/ui/routes/scratchpad-comp.tsx:61 | `substring` of in-range bounds is the slice between them, and two bounds at or below 0 give the empty string |
| JsString.ReplaceFirst | packages/insomnia/src/ui/routes/scratchpad-comp.tsx:64-69 | `replace` leaves a string without the pattern alone; otherwise the result keeps everything before the first occurrence, puts the replacement in its place and keeps everything after it |
| JsString.ReplaceFirstAt | packages/insomnia/src/ui/routes/scratchpad-comp.tsx:64-69 | `replace` with a string pattern swaps only the first occurrence and keeps the rest, later occurrences included |
| DeepLink.RoutingKeyWithoutQuery | packages/insomnia/src/ui/routes/scratchpad-comp.tsx:61 | with no `?`, or with `?` at index 0, the routing key is the whole link |
| DeepLink.RoutingKeyAtQuery | packages/insomnia/src/ui/routes/scratchpad-comp.tsx:61 | with the first `?` at index i > 0 the routing key is the link's first i characters (a `#fragment` before it stays) |
| DeepLink.RoutingKey | packages/insomnia/src/ui/routes/scratchpad-comp.tsx:61 | the routing key is always a prefix of the link, and non-empty for a non-empty link |
| DeepLink.NormalizeKey | packages/insomnia/src/ui/routes/scratchpad-comp.tsx:64-69 | production leaves the key alone; development leaves a key without `insomniadev://` alone |
| DeepLink.NormalizeKeyFirstOccurrence | packages/insomnia/src/ui/routes/scratchpad-comp.tsx:64-69 | in development the first `insomniadev://`, wherever it stands in the key, becomes `insomnia://`; the text before it and everything after it, later occurrences included, are kept |
| DeepLink.NormalizeKeyAtStart | packages/insomnia/src/ui/routes/scratchpad-comp.tsx:64-69 | in development a key starting with `insomniadev://` becomes `insomnia://` plus the same rest |
| DeepLink.DispatchKey | packages/insomnia/src/ui/routes/scratchpad-comp.tsx:61-69 | in production the key compared by the switch is a prefix of the link |
| DeepLink.KnownKeyHasNoDevScheme | packages/insomnia/src/ui/routes/scratchpad-comp.tsx:64-71 | no known key contains `insomniadev://`, so the development rewrite leaves every known key as it is |
| DeepLink.RoutingKeyOfLink | packages/insomnia/src/ui/routes/scratchpad-comp.tsx:61 | a `?`-free scheme and path followed by nothing or by a query has exactly the scheme and path as routing key |
| DeepLink.DevLinkKeyIsCanonical | packages/insomnia/src/ui/routes/scratchpad-comp.tsx:61-69 | in a development build an `insomniadev://` link is dispatched under its `insomnia://` twin's key |
| DeepLink.CanonicalLinkKey | packages/insomnia/src/ui/routes/scratchpad-comp.tsx:61-69 | an `insomnia://` link with a known key is dispatched under that key in either build |
| DeepLink.DevLinkRoutesLikeCanonical | packages/insomnia/src/ui/routes/scratchpad-comp.tsx:61-188 | in a development build an `insomniadev://` link whose twin's key is known has the same effect as its `insomnia://` twin in either build |
| DeepLink.DevLinkKeyKeepsDevScheme | packages/insomnia/src/ui/routes/scratchpad-comp.tsx:61 | a link starting with `insomniadev://` keeps that prefix in its routing key |
| DeepLink.DevSchemeKeyIsUnknown | packages/insomnia/src/ui/routes/scratchpad-comp.tsx:70-188 | a key starting with `insomniadev://` matches none of the eight keys |
| DeepLink.DevLinkUnknownInProduction | packages/insomnia/src/ui/routes/scratchpad-comp.tsx:64-192 | in a production build every `insomniadev://` link falls to the unknown-link log |
| DeepLink.Route | packages/insomnia/src/ui/routes/scratchpad-comp.tsx:70-192 | the effect belongs to the key exactly when the key is one of the eight (each key its own effect, by the independent inverse `TriggeringKey`); any other key gives only the unknown-link log carrying the link; the alert carries `params.title`/`params.message`, both submissions are POSTs (`/auth/logout` with an empty body, `/auth/authorize` with `code = params.box` as JSON), import carries `params.uri`, the plugin dialog `params.name`, the theme dialog exactly the theme `params.theme` decodes to, when it decodes (a missing or undecodable one throws), and each exchange `params.code`/`params.state` |
| DeepLink.RouteOfKnownKeyIgnoresUrl | packages/insomnia/src/ui/routes/scratchpad-comp.tsx:70-188 | for a known key the effect does not depend on the rest of the link; only the unknown-link log carries it |
| DeepLink.RouteReadsOnlyNamedParams | packages/insomnia/src/ui/routes/scratchpad-comp.tsx:70-188 | each key's effect depends on the query only through the parameters it names (title/message, uri, name, theme, code/state, box) |
| DeepLink.HandleUrl | packages/insomnia/src/ui/routes/scratchpad-comp.tsx:52-193 | the handler only logs the invalid link iff the link does not parse; a parsed link gives the unknown-link log iff its dispatch key is none of the eight; both logs carry the link |
| DeepLink.InvalidUrlOnlyLogs | packages/insomnia/src/ui/routes/scratchpad-comp.tsx:54-60 | a link that does not parse gives only the invalid-link log and triggers no action, in either build |
| DeepLink.HandleUrlExactMatch | packages/insomnia/src/ui/routes/scratchpad-comp.tsx:61-192 | a parseable link triggers an action iff its dispatch key is known, and then the action of that key |
| DeepLink.AlertLinkKey | packages/insomnia/src/ui/routes/scratchpad-comp.tsx:61-71 | `insomnia://app/alert?title=…&message=…` is dispatched as `insomnia://app/alert` in either build |
| DeepLink.AlertLinkExample | packages/insomnia/src/ui/routes/scratchpad-comp.tsx:71-76 | that link shows an alert carrying its title and message |
| DeepLink.PluginInstallDone | packages/insomnia/src/ui/routes/scratchpad-comp.tsx:99-111 | "no" does nothing; "yes" requests the install, then the settings open on the plugins tab iff it succeeds and the 'Plugin Install' / 'Failed to install plugin' error shows iff it fails |
| DeepLink.ThemeInstallSteps | packages/insomnia/src/ui/routes/scratchpad-comp.tsx:127-146 | an accepted theme install runs five awaited steps and then opens the settings on the themes tab, which none of the earlier steps does |
| DeepLink.ThemeInstallDone | packages/insomnia/src/ui/routes/scratchpad-comp.tsx:127-146 | "no" does nothing; "yes" issues the steps in order up to and including the first rejected call, and the themes tab opens iff every awaited call resolves |
| DeepLink.OAuthSettled | packages/insomnia/src/ui/routes/scratchpad-comp.tsx:151-177 | a rejected exchange shows exactly one error, titled 'Error authorizing GitHub' or 'Error authorizing GitLab' and carrying the rejection's message; a resolved one shows nothing |
| ScratchPadScreen.ScratchPad.constructor | packages/insomnia/src/ui/routes/scratchpad-comp.tsx:45 | the screen starts with `importUri` empty, the import dialog closed and no effects |
| ScratchPadScreen.ScratchPad.ImportModalOpen | packages/insomnia/src/ui/routes/scratchpad-comp.tsx:204-212 | the import dialog is rendered exactly when `importUri` is a non-empty string: not for `''`, not for `undefined` |
| ScratchPadScreen.ScratchPad.OnShellOpen | packages/insomnia/src/ui/routes/scratchpad-comp.tsx:52-193 | one link appends exactly the effect `HandleUrl` gives; only an `app/import` link changes `importUri`, and the import dialog is then open iff the link's `uri` is non-empty |
| ScratchPadScreen.ScratchPad.HideImportModal | packages/insomnia/src/ui/routes/scratchpad-comp.tsx:205-207 | hiding the import dialog resets `importUri` to `''` and closes it |
| ScratchPadScreen.ScratchPad.OnPluginInstallDone | packages/insomnia/src/ui/routes/scratchpad-comp.tsx:99-111 | the step-by-step continuation appends exactly `PluginInstallDone`; it runs only for a dialog that asked about that plugin |
| ScratchPadScreen.ScratchPad.OnThemeInstallDone | packages/insomnia/src/ui/routes/scratchpad-comp.tsx:127-146 | the step-by-step continuation, stopping at the first rejected await, appends exactly `ThemeInstallDone`; it runs only for a dialog that asked about that theme |
| ScratchPadScreen.ScratchPad.OnOAuthSettled | packages/insomnia/src/ui/routes/scratchpad-comp.tsx:151-177 | the `.catch` of an exchange appends exactly `OAuthSettled`; it runs only after an exchange with that provider was issued |
| WebSocketRequestModel.Init | packages/insomnia/src/models/websocket-request.ts:26-30 | a new request is named 'New WebSocket Request', has url `''` and sort key `-now` |
| WebSocketRequestModel.InitSortKeyAntitone | packages/insomnia/src/models/websocket-request.ts:29 | a later `init` never gets a larger sort key |
| WebSocketRequestModel.InitSortKeyNonPositive | packages/insomnia/src/models/websocket-request.ts:29 | for a clock at or after the epoch the sort key is not positive |
| WebSocketRequestModel.IsWebSocketRequest | packages/insomnia/src/models/websocket-request.ts:22-24 | a model is a WebSocket request iff its type tag is `WebSocketRequest` |
| WebSocketRequestModel.Migrate | packages/insomnia/src/models/websocket-request.ts:32 | migration is the identity |
| WebSocketRequestModel.Create | packages/insomnia/src/models/websocket-request.ts:22-40 | create throws iff `parentId` is missing or empty, naming the patch; otherwise it hands the patch unchanged to the store under a type tag that `isWebSocketRequest` accepts |
| WebSocketRequestModel.CreateWithoutParentFails | packages/insomnia/src/models/websocket-request.ts:34-37 | `create()` (the default empty patch) and any patch with a missing or empty `parentId` throw |
| WebSocketRequestModel.CreateWithParentSucceeds | packages/insomnia/src/models/websocket-request.ts:34-40 | any non-empty `parentId` lets the create through to the store tagged `WebSocketRequest`, whatever else the patch holds |

## Left out

- URL parsing (`new URL`) and query decoding (`searchParams`, `Object.fromEntries`) follow the WHATWG URL Standard and are not modelled: whether parsing throws and the resulting parameter map are inputs.
- `JSON.parse(decodeURIComponent(params.theme))` and `JSON.stringify` of the theme are not modelled: the decoding is the input `decodeTheme`, and the created plugin records the theme it exports instead of the generated `main.js` text. A theme is reduced to its `name` and `displayName`. When the decoding throws, the model records `ThemeParseThrows`: the source does not catch it, so no dialog appears.
- The IPC subscription and its unsubscribe (`window.main.on`), `installPlugin`, `createPlugin`, `reloadPlugins`, `setTheme`, the settings model and the two OAuth exchanges are external calls: each is an effect, and how it settles is an input.
- Concurrency: handlers are asynchronous and several links may interleave; the model treats one link, one answered dialog or one settled call at a time, in the order the caller chooses.
- The content of the confirm dialogs (titles 'Plugin Install' and 'Install Theme', 'Install'/'Cancel' buttons, the name shown) is not part of the `AskPluginInstall`/`AskThemeInstall` effects; they carry only the plugin name or theme.
- `ShowError` carries the error's message as its `error` field; for the OAuth failures the source passes the error object itself.
- JavaScript strings are UTF-16 code units; the model uses sequences of characters. Cutting at the ASCII `?` gives the same strings either way.
- JsString.ReplaceFirst: does not interpret `$` patterns in the replacement; the only replacement used, `insomnia://`, contains none.
- WebSocketRequestModel.Init: the sort key is an unbounded integer, not a double; `-1 * 0` is `-0` in JavaScript, which compares equal to `0`.
- `remove`, `update`, `getById` and `all` of the WebSocket-request model only delegate to the document database, which is not part of this model; nor is the `type` of the created document beyond the tag passed to the store.
- The React rendering and layout of the screen, `ErrorBoundary`, `Toast` and `Modals`, are not modelled; the import dialog being rendered is the predicate `ImportModalOpen`.
- `packages/insomnia/src/ui/routes/scratchpad.tsx` (a redirect when a session exists, decided by a session lookup that is not shown) and `packages/insomnia/src/ui/routes/root.tsx` (component composition) are not part of this model.
