# CodeTrack — a Dafny model of its core

CodeTrack is a VS Code extension that lets a user start and end a "coding
session" from a sidebar and choose, in a settings panel, which Notion
database properties hold the session's project and time. This project models
the four pieces of its logic that are self-contained once VS Code, the DOM
and the network are abstracted. It proves what each piece promises.

- **Notion URL to ID, and the request wrapper** (`src/utils.ts`, module
  `Utils`, with JavaScript's `split` and `includes` in module `JsString`).
  - `NotionUrlToId` is modelled as a function returning a `Result`.
  - It is proved equal to an independent reference definition (`IdOf`).
  - `MakeRequest` takes the network as a parameter: a function from the URL
    and the fetch options it builds to what the network did.
  - It is proved to attach the right body and to return parsed JSON, the raw
    response, the error, or `false`, as the code does once `fetch` is
    reached.
- **The settings panel** (`src/PanelProvider.ts`, module `Panel`).
  - The pending-message queue is specified on values (`Channel`, `Send`,
    `MarkReady`, `Run`). It is proved never to drop, duplicate or reorder a
    message.
  - The classes `PanelProvider` and `PanelHost` model the instance and its
    static `currentPanel`. Their methods are specified by those functions.
- **The session toggle** (`src/extension.ts`, module `Extension`).
  - The flag and its two guarded commands are a class over a pure step
    function.
  - Over any command sequence, the flag equals "the last command was a
    start".
- **The settings dropdowns** (`resources/script.js`, module `Script`).
  - `UpdateDropdown` is a method over a `<select>` modelled as a sequence of
    options plus a selection.
  - It is specified by the kind filter `Matching` and the selection rule
    `ChosenIndex`.

The messages that cross between the extension and the webview are in
module `Protocol`. Calls into VS Code are appended to log fields instead of
being performed: `postMessage`, `executeCommand`, `showInformationMessage`,
`showWarningMessage` and `dispose`.

The session commands only flip a boolean (`src/extension.ts:40-58`), and the
`codetrack.saveSettings` command that the panel forwards to has no handler
in the source files.

## Model

| member | source | states |
|---|---|---|
| `Utils.NotionUrlToId` | src/utils.ts:3-12 | fails with "Invalid Notion URL provided" exactly when the URL holds no `/`; otherwise the ID holds no `/`, `-` or `?` |
| `Utils.NotionUrlToIdIsIdOf` | src/utils.ts:5-8 | for every URL with a `/`, the ID is the text before the first `?` of the text after the last `-` of the text after the last `/` |
| `Utils.PlainSegmentIsId` | src/utils.ts:8 | a last segment without `-` or `?` is returned unchanged |
| `Utils.TrailingSlashGivesEmptyId` | src/utils.ts:8 | a URL ending in `/` yields the empty ID |
| `Utils.LastDashDecidesId` | src/utils.ts:8 | the `-` split precedes the `?` split: in a last segment `head-tail`, `tail` is the ID even when `head` holds a `?` |
| `Utils.DashInQueryDecidesId` | src/utils.ts:8 | `notion.so/abc?v=1-2` yields `2` |
| `JsString.Split` | src/utils.ts:5-8 | `split` returns at least one piece, no piece holds the separator, and joining the pieces gives the input back |
| `JsString.SplitJoin` | src/utils.ts:5-8 | `split` inverts `join` for pieces free of the separator, so the pieces are uniquely determined |
| `JsString.SplitHasSeveralPiecesIff` | src/utils.ts:5-7 | the split yields two or more parts exactly when the separator occurs, so the error branch is taken exactly when there is no `/` |
| `JsString.FirstPieceIsBeforeFirst` | src/utils.ts:8 | `split(c)[0]` is the text before the first `c` |
| `JsString.LastPieceIsAfterLast` | src/utils.ts:8 | `split(c).pop()` is the text after the last `c` |
| `JsString.Includes` | src/utils.ts:56 | `includes` holds exactly when the needle occurs at some position |
| `Utils.Request` | src/utils.ts:35-43 | the method, URL and message are kept, and each option is the one passed or, when omitted on its own, null data, no headers, `raw` false or `returnError` false |
| `Utils.DefaultRequestFailsWithFalse` | src/utils.ts:35-89 | with every option defaulted, fetch gets no body and no headers, the reply is never an error or a raw response, and it is `false` exactly when the request does not succeed, the parsed JSON otherwise |
| `Utils.EncodeBody` | src/utils.ts:55-63 | a body is set exactly when the data is not null; it is sent verbatim exactly when the data is a string and the Content-Type does not name `application/json` |
| `Utils.EncodeBodyRoundTrip` | src/utils.ts:55-63 | the body always carries exactly the request's data |
| `Utils.FetchOptionsFor` | src/utils.ts:46-63 | fetch gets the request's method and headers, and a body exactly when there is data |
| `Utils.Caught` | src/utils.ts:79-88 | a caught failure returns that error exactly when `returnError` is set, and `false` whenever it is not |
| `Utils.MakeRequest` | src/utils.ts:35-90 | the `false` of a caught failure only without `returnError`, an error only with it, and JSON or a raw response only after a 2xx response |
| `Utils.MakeRequestOutcome` | src/utils.ts:69-89 | on a 2xx response the raw response (with `raw`) or the parsed JSON; on a thrown fetch, a non-2xx status or a JSON parse failure, the error or `false` |
| `Utils.RawIgnoresBody` | src/utils.ts:73-77 | with `raw`, whether the body would parse cannot change the result |
| `Panel.Send` | src/PanelProvider.ts:99-104 | when ready the message is posted and the queue is untouched; when not ready it is appended to the queue and nothing is posted; the accepted sequence grows by exactly that message |
| `Panel.MarkReady` | src/PanelProvider.ts:36-46 | after `webviewReady` the panel is ready, the queue is empty and everything accepted has been posted in order |
| `Panel.DeliveryPreservesOrder` | src/PanelProvider.ts:36-104 | over any sequence of updates and ready signals, posted messages followed by queued ones are exactly the messages sent, in call order |
| `Panel.ReadyIsPermanent` | src/PanelProvider.ts:38 | once ready, a panel stays ready |
| `Panel.AllPostedOnceReady` | src/PanelProvider.ts:36-46 | after a ready signal, every message sent has been posted, in order, and the queue is empty |
| `Panel.NothingPostedBeforeReady` | src/PanelProvider.ts:101-104 | before any ready signal nothing is posted, and the queue holds the messages in call order |
| `Panel.RepeatedReadyPostsNothing` | src/PanelProvider.ts:36-46 | a second `webviewReady` posts nothing more |
| `Panel.PopOrderIsLifo` | src/PanelProvider.ts:115-120 | draining with `pop()` disposes every disposable exactly once, last registered first |
| `Panel.PanelProvider.constructor` | src/PanelProvider.ts:14-33 | a new panel has the given selections, is not ready, has an empty queue and holds its dispose listener |
| `Panel.PanelProvider.OnWebviewReady` | src/PanelProvider.ts:36-47 | the panel's state becomes `MarkReady` of its old state; nothing else changes |
| `Panel.PanelProvider.OnDidReceiveMessage` | src/PanelProvider.ts:34-58 | `webviewReady` flushes the queue; `saveSettings` forwards its two values to `codetrack.saveSettings`; other messages change nothing |
| `Panel.PanelProvider.Dispose` | src/PanelProvider.ts:110-121 | `currentPanel` becomes null, the VS Code panel is disposed, and the disposables are disposed from the end until none is left |
| `Panel.PanelHost.Render` | src/PanelProvider.ts:61-80 | an existing panel is reused and only its two selections change; otherwise a fresh panel is created with them, not ready, with an empty queue, holding only its dispose listener and with nothing forwarded or disposed yet |
| `Panel.PanelHost.UpdatePropertySettings` | src/PanelProvider.ts:82-108 | without a panel nothing happens; otherwise the panel keeps the new properties and a message carrying them and its current selections goes through `Send` |
| `Extension.Step` | src/extension.ts:40-58 | after a command the flag is true exactly when it was a start; a warning is shown exactly when the flag did not change; the texts are the source's |
| `Extension.FlagFollowsLastCommand` | src/extension.ts:40-58 | after any non-empty command sequence the flag is true exactly when the last command was a start |
| `Extension.RepeatedStartIsOneStart` | src/extension.ts:40-48 | `start; start` leaves the flag as a single `start` does, in any context |
| `Extension.RepeatedEndIsOneEnd` | src/extension.ts:50-58 | `end; end` leaves the flag as a single `end` does, in any context |
| `Extension.CodeTrack.constructor` | src/extension.ts:6 | initially no session is in progress |
| `Extension.CodeTrack.StartSession` | src/extension.ts:40-48 | the flag and the new notification are those of `Step` on a start |
| `Extension.CodeTrack.EndSession` | src/extension.ts:50-58 | the flag and the new notification are those of `Step` on an end |
| `Extension.CodeTrack.OnDidChangeConfiguration` | src/extension.ts:29-37 | the handler changes neither the flag nor the notifications |
| `Script.MatchingMembers` | resources/script.js:49-52 | a name is listed exactly when an entry pairs it with the requested kind |
| `Script.MatchingKeepsOrder` | resources/script.js:49-54 | the kind filter keeps entry order |
| `Script.NullTypeListsAll` | resources/script.js:50 | with a null kind every entry is listed |
| `Script.Placeholder` | resources/script.js:39-43 | the placeholder has value `''` and is disabled exactly when `noneIsSelectable` is false |
| `Script.NameOptionsAt` | resources/script.js:54-58 | the option at each position has the value and text of the name at that position |
| `Script.SelectionRule` | resources/script.js:59-77 | a truthy `selectedValue` that is listed selects its option; otherwise exactly one match selects index 1, and zero or several select the placeholder |
| `Script.AppendMatches` | resources/script.js:45-77 | appends one enabled option per matching name and selects the option `ChosenIndex` picks |
| `Script.Webview.UpdateDropdown` | resources/script.js:28-79 | an unknown element is left alone; otherwise the options are the placeholder and then the matches; with no properties loaded only the placeholder is present and no choice is made |
| `Script.Webview.OnMessage` | resources/script.js:81-122 | `updatePropertySettings` fills `projectProperty` from `relation` entries and `timeProperty` from `date` entries, preselecting the stored choices; `updateProjects` replaces `properties` and lists every project under a selectable "None"; every element the message does not refill (all of them for any other command) is unchanged |

## Left out

- Network I/O in `MakeRequest` is not modelled. The dynamic import of `node-fetch` and the `fetch` call are a function parameter that returns a `FetchOutcome`. The console logging of each call and each failure is left out too.
- `JSON.stringify` is not modelled: a body records which data value is JSON-encoded (`JsonOf`). A thrown error is modelled by its cause (`RequestError`), not by its message text.
- `Utils.MakeRequest`: a throwing `JSON.stringify` (cyclic or BigInt data) is not modelled; the model always reaches `fetch`, while the code would land in its `catch` and return the error or `false` without a request.
- VS Code API calls are not modelled. Among the untracked ones are `createWebviewPanel`, `reveal`, the `webview.html` assignment, the `webview.onDidReceiveMessage` registration (whose disposable is not kept), `workspace.getConfiguration`, `workspace.onDidChangeConfiguration`, `context.subscriptions.push`, `registerCommand` and `registerWebviewViewProvider`.
- `log`, `logError` and `GetHtmlForWebview` are imported by src/PanelProvider.ts from `./utils`, which does not define them; the model assumes they return normally and change no state.
- A 2xx response whose JSON body is `false` is `Json` of that value in the model; in JavaScript it is the same value `false` that the `False` reply stands for, so the two differ only in the model.
- `Panel.PanelHost.UpdatePropertySettings` leaves out the `catch` branch. `JSON.stringify` of a string-to-string map cannot throw.
- `Panel.PanelProvider.Dispose` does not model re-entry. VS Code fires `onDidDispose` when `_panel.dispose()` runs, which calls `dispose()` again; the model does not fire that event.
- `Panel.PanelProvider.Dispose` omits the `if (disposable)` test, because every registered disposable is an object.
- `Panel.PanelProvider.OnDidReceiveMessage` records the forwarded `saveSettings` call but not its effect. No handler for `codetrack.saveSettings` exists in the source files.
- The auto-start at `src/extension.ts:23-25` is not modelled. It runs `codetrack.startSession` before that command is registered, so it cannot be relied on to start a session.
- The configuration reads in `activate` are not modelled: `notionSecret` and `trackingDatabaseURL` are bound to locals nothing uses, and `autoStartOnVSCode` only gates the auto-start above. The change handler's reads only bind shadowing locals.
- src/SidebarProvider.ts is not part of this model. It holds the sidebar HTML and forwards two button clicks to commands.
- The DOM wiring of resources/script.js is not modelled: the load and `DOMContentLoaded` listeners, the button handlers, the `webviewReady` posting and the webview logging.
- The `Date.toLocaleString()` default session title is not modelled, because it depends on the clock and the locale.
- `Script.Webview.UpdateDropdown` does not model the browser's default selection. When no properties are loaded the script chooses no option, and the browser's own selectedness rule is not modelled (`BrowserDefault`).
- The ordering rule of `Object.entries` is not modelled: JavaScript lists integer-like keys first, in ascending order. Property maps are sequences of entries in the order `Object.entries` yields them.
- Concurrency is not modelled. There is none: handlers run one at a time on the event loop.
