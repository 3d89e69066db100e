# The `useFile` document store, modelled in Dafny

This project models the document content store of the tree-json editor (`src/store/useFile.ts`).
The store is a single object holding the text being edited (`contents`), its declared format,
the last conversion error, the dirty flag `hasChanges`, an optional JSON schema and the last
remote file. Its actions install text, convert it to the canonical JSON value, write the draft
to session storage when allowed, and hand the value to the renderer through an 800 ms trailing
debounce. They also load documents from a URL, from the remote API or from the session on
start-up, and save to the remote API.

Layout:

- `wrappers.dfy`: `Option` and `Result`.
- `canonical.dfy`: the canonical value (`Json`) and JavaScript truthiness of such a value.
- `json_api.dfy`: the `ApiResponse` envelope of the remote client. A call's outcome is either the
  envelope it resolved to or a thrown exception.
- `debounce.dfy`: the trailing debounce as a one-slot pending value. A call replaces the pending
  value; the end of a quiet window emits it. It proves that a burst of calls yields exactly one
  notification, carrying the last value.
- `file_model.dfy`: each action as a function on a `State` snapshot. The snapshot holds the store
  fields, session storage (`content`, `format`), the renderer (json text, json-store and graph
  loading flags) and the debounce slot. The properties of each action are proved here.
- `store_traces.dfy`: arbitrary sequences of actions, and invariants that hold along all of them.
- `use_file.dfy`: the store as a class, `UseFile.FileStore`. Its methods update the fields one
  step at a time, in the order the source does. Each method is proved to end in the state the
  matching `FileModel` function describes.

The collaborators whose code is not part of this model are uninterpreted total functions in a
`Converters` record: `contentToJson`, `jsonToContent`, `JSON.stringify(_, null, 2)`,
`JSON.parse` and `isURL`. A converter failure carries a `snippet` and a `message`. The store only
tests these two fields for truthiness, so an absent field and an empty one are both `""`. For the
same reason an omitted `contents` argument of `setContents` is `""`.

Network and fetch outcomes are parameters of the actions:

- `fetched`: the value `fetch` and `res.json()` produced, or `None` if either threw.
- `api`: the outcome of the single client call the action makes.

The page facts `isIframe()` and "`window.location.href` contains `?`", the live-transform setting
and the default document's text are fields of a fixed `Env`.

Each asynchronous action is one atomic step. `setContents` is called without `await` from the
other actions, so its failures are handled inside it and never reach the caller's `catch`. This
is why a failing `setContents` inside `setFormat` does not cause a `clear`. In `fetchUrl`, the
un-awaited `setContents` finishes after the following `useJson.setState({ json, loading: false })`.
The model runs the two in the other order. The final state is the same either way: the tail of
`setContents` never writes the json text, and it only ever sets the json loading flag to `false`.

Where the store's intended design and its code differ, the model follows the code:

- A failed conversion whose exception has neither `mark.snippet` nor `message` leaves `error`
  null, although the buffer does not convert. See `FileModel.SilentFailureLeavesNoError`.
- `fetchUrl` installs the fetched document with `hasChanges` true (the default), not as an
  unmodified load. See `FileModel.FetchUrl`.
- `clear` leaves `error`, `hasChanges` and `format` untouched. A failed format switch therefore
  clears the buffer under the new format, which `setFormat` sets before it converts.
- In `checkEditorSession` the remote-data branch and the fallback branch end with the same two
  steps: apply the stored format, then `setContents` with `hasChanges` false.
  `UseFile.FileStore.OpenStartupDocument` chooses the text first and performs those two steps
  once. The resulting state is the same.
- The text installed by a format switch goes through `setContents`, which ignores empty text. If
  the re-encoded text is empty, the old buffer stays, now labelled with the new format. See
  `FileModel.EmptyReencodingKeepsOldText`.

## Model

| member | source | states |
|---|---|---|
| FileModel.SetContents | src/store/useFile.ts:240-278 | An empty `contents` keeps the buffer; the format is the argument or unchanged; `hasChanges` is the argument even after a session write. Session storage gets (argument, current format) exactly when conversion succeeded, the update is not skipped, `hasChanges` holds, the text is non-empty and under 80,000 characters, and the page is neither framed nor query-loaded; otherwise it is untouched. On success the error is cleared and the value is scheduled unless skipped. On failure nothing is scheduled: a snippet becomes the error with the loading flags untouched, otherwise the message (if any) becomes the error and both loading flags go false. |
| FileModel.LongBufferNotPersisted | src/store/useFile.ts:259-271 | A buffer of 80,000 characters or more never reaches session storage, yet it is still installed, and propagated when it converts and is not skipped. |
| FileModel.SkippedUpdateIsSilent | src/store/useFile.ts:257 | With live transform off and `skipUpdate` set, neither session storage nor the debounce slot changes. |
| FileModel.SetContentsIdempotent | src/store/useFile.ts:240-278 | Calling `setContents` twice with the same argument ends in the same state as calling it once. |
| FileModel.SilentFailureLeavesNoError | src/store/useFile.ts:272-277 | A converter exception with neither snippet nor message leaves `error` null while the buffer still fails to convert under its format. |
| FileModel.Flush | src/store/useFile.ts:201-204 | Firing the debounced update empties the slot; if a value was pending, graph loading becomes true and the renderer's json becomes its pretty text; nothing else changes. |
| FileModel.FlushShowsLastEdit | src/store/useFile.ts:201-204 | Two successful, non-skipped edits followed by one flush show only the second edit's value in the renderer. |
| Debounce.Fire | src/store/useFile.ts:201-204 | The end of a quiet window empties the slot and emits exactly the pending value, or nothing when none is pending. |
| Debounce.BurstKeepsLast | src/store/useFile.ts:201-204 | A burst of calls leaves only its last value pending and emits nothing, whatever was pending before. |
| Debounce.BurstEmitsOnce | src/store/useFile.ts:201-204 | N ≥ 1 calls inside one quiet window produce exactly one notification, carrying the last call's value. |
| FileModel.Clear | src/store/useFile.ts:208-211 | `clear` empties the buffer and the json store's text and changes nothing else (error, `hasChanges` and format stay). |
| FileModel.SetFile | src/store/useFile.ts:213-217 | `setFile` records the file, takes its format or JSON, installs its content (kept buffer if empty) with `hasChanges` false and writes no session storage. Every other field (error, pending value, loading flags, schema, renderer) is what `setContents` makes of that load on the recorded file and format. |
| FileModel.SetFormat | src/store/useFile.ts:221-239 | The format is always the new one. If either conversion (old format to canonical, canonical text to new format) fails, the result is the cleared state under the new format. Otherwise it is `setContents` of the re-encoded text with `hasChanges` true. |
| FileModel.SetFormatKeepsDocument | src/store/useFile.ts:221-234 | If the converters satisfy the round-trip law, a successful switch whose re-encoded text is non-empty installs that text with no error, `hasChanges` true, and propagates the canonical value of the old text. |
| FileModel.EmptyReencodingKeepsOldText | src/store/useFile.ts:226-232 | When the re-encoded text is empty, the old buffer stays while the format becomes the new one. |
| FileModel.FetchUrl | src/store/useFile.ts:281-293 | A failed fetch or body parse gives exactly the cleared state. A fetched value's pretty text becomes the buffer (if non-empty) and the renderer's json, with json loading false and `hasChanges` true. Format, schema and file stay in both cases. On success every other field is what `setContents` makes of the text as an edit. |
| FileModel.StartupText | src/store/useFile.ts:299-316 | The start-up text, in order: the remote document's pretty text if the call succeeded with truthy data; else the session content if present, non-empty and not a widget; else the default document. |
| FileModel.CheckEditorSession | src/store/useFile.ts:294-320 | A URL query is exactly `fetchUrl`. Without one, the buffer is the start-up text (kept if empty), `hasChanges` is false, the format is the stored session format if any, and session storage is not written. Every field is what `setContents` makes of the start-up text loaded under that format. |
| FileModel.UrlQueryIgnoresRemoteAndSession | src/store/useFile.ts:295-297 | A string query that `isURL` accepts is exactly `fetchUrl`; the remote outcome, the widget flag and the stored session make no difference to the document. |
| FileModel.RemoteDocumentOpensUnmodified | src/store/useFile.ts:302-309 | With no query and a remote call that returns data, the buffer is that data's pretty text when it is non-empty, and `hasChanges` is false. |
| FileModel.LoadFromApi | src/store/useFile.ts:321-335 | A successful call with data installs its pretty text with `hasChanges` false and no session write; any other outcome, including a throw, changes nothing. |
| FileModel.SaveRequest | src/store/useFile.ts:338-345 | No request is sent for an empty buffer; otherwise the request is what `JSON.parse` makes of the buffer, or none if it rejects it, whatever the format. |
| FileModel.SaveToApi | src/store/useFile.ts:336-357 | Without a request the state is unchanged. Only `hasChanges` can change, and it becomes false exactly when a request was sent and the response reports success. |
| StoreTraces.EditsNeverRender | src/store/useFile.ts:240-278 | No sequence of `setContents` calls changes the renderer's json text. Between `setContents` and the debounced update, only the update writes it; `clear` and `fetchUrl` also write it directly. |
| StoreTraces.BurstRendersLastEdit | src/store/useFile.ts:201-204 | Any number of edits followed by one flush show exactly the last edit's value in the renderer, provided that edit converts and is not skipped. Nothing is left pending, so a second flush changes nothing. |
| StoreTraces.RunKeepsSessionPersistable | src/store/useFile.ts:259-267 | After any sequence of actions, session storage is as it was or holds a non-empty buffer under 80,000 characters together with a format. |
| StoreTraces.FramedPageNeverPersists | src/store/useFile.ts:254-265 | In a framed page, or one whose URL has a query string, no sequence of actions writes session storage. |
| UseFile.FileStore.constructor | src/store/useFile.ts:184-191 | Initial state: the default document, JSON, no error, `hasChanges` false, no schema, no file, nothing pending. The store keeps the caller's environment, converters included. |
| UseFile.FileStore.SetContents | src/store/useFile.ts:240-253 | The field-by-field install, then the conversion's two paths; ends in `FileModel.SetContents` of the old state. |
| UseFile.FileStore.Propagate | src/store/useFile.ts:254-271 | The success path: early return when skipped, guarded session write, scheduling; ends in the state `FileModel.Propagated` gives. |
| UseFile.FileStore.RecordFailure | src/store/useFile.ts:272-277 | The `catch`: snippet with early return, else message and both loading flags false; ends in the state `FileModel.Failed` gives. |
| UseFile.FileStore.Flush | src/store/useFile.ts:201-204 | The debounced callback; ends in `FileModel.Flush` of the old state. |
| UseFile.FileStore.Clear | src/store/useFile.ts:208-211 | Ends in `FileModel.Clear` of the old state. |
| UseFile.FileStore.SetJsonSchema | src/store/useFile.ts:212 | Only the schema changes, to the argument. |
| UseFile.FileStore.SetError | src/store/useFile.ts:279 | Only the error changes, to the argument. |
| UseFile.FileStore.SetHasChanges | src/store/useFile.ts:280 | Only `hasChanges` changes, to the argument. |
| UseFile.FileStore.GetContents | src/store/useFile.ts:218 | Returns the current buffer. |
| UseFile.FileStore.GetFormat | src/store/useFile.ts:219 | Returns the current format. |
| UseFile.FileStore.GetHasChanges | src/store/useFile.ts:220 | Returns the current dirty flag. |
| UseFile.FileStore.SetFile | src/store/useFile.ts:213-217 | Ends in `FileModel.SetFile` of the old state. |
| UseFile.FileStore.SetFormat | src/store/useFile.ts:221-239 | Format set first, conversions from the previous format, `clear` on either failure; ends in `FileModel.SetFormat` of the old state. |
| UseFile.FileStore.FetchUrl | src/store/useFile.ts:281-293 | Ends in `FileModel.FetchUrl` of the old state. |
| UseFile.FileStore.CheckEditorSession | src/store/useFile.ts:294-297 | A URL query goes to `FetchUrl` only; ends in `FileModel.CheckEditorSession` of the old state. |
| UseFile.FileStore.OpenStartupDocument | src/store/useFile.ts:299-319 | Reads the stored session first, picks the remote, session or default text, applies the stored format and installs the text as an unmodified load. |
| UseFile.FileStore.LoadFromApi | src/store/useFile.ts:321-335 | Ends in `FileModel.LoadFromApi` of the old state. |
| UseFile.FileStore.SaveToApi | src/store/useFile.ts:336-357 | Returns the request `FileModel.SaveRequest` describes and ends in `FileModel.SaveToApi` of the old state. |
| UseFile.FileStore.IsApiConnected | src/store/useFile.ts:358-365 | Returns the health response's `success`, or false when the call threw; never fails and changes nothing. |

## Left out

- The remote client in `src/lib/services/jsonApi.ts` performs network I/O. Only its `ApiResponse` envelope is modelled, as the input of the actions that call it.
- `fetch` and `res.json()` in `fetchUrl` are I/O. Their combined outcome is a parameter.
- `contentToJson` and `jsonToContent` live in `src/lib/utils/jsonAdapter.ts`, which is not part of this model. `JSON.stringify` and `JSON.parse` are JavaScript built-ins. All four are uninterpreted; the round-trip law is assumed only where a lemma requires it.
- The `isURL` regular expression is an uninterpreted predicate.
- The literal default document of `src/store/useFile.ts:13-143` is not transcribed. It is an arbitrary text in `Env`.
- The 800 ms wall-clock timing of the debounce is not modelled. An explicit flush stands for the end of the quiet window.
- Async interleaving and the stale-response races between in-flight actions are concurrency, not modelled. Every action is atomic.
- `toast`, `gaEvent` and `console.*` have no effect on state and are not modelled.
- `src/store/useJson.ts` and `src/store/useGraph.ts` are not part of this model. Each collaborator call is given one effect, and any other effect it may have is assumed absent:
  - `useJson.getState().clear()` (in `clear`) sets the json text to `""`.
  - `useJson.getState().setJson(text)` (in the debounced update) sets the json text to `text`.
  - `useGraph.getState().setLoading(true)` (in the debounced update) sets the graph loading flag.
  - `useJson.setState({ json, loading: false })` (in `fetchUrl`) sets the json text and clears the json loading flag.
  - `useJson.setState({ loading: false })` and `useGraph.setState({ loading: false })` (in the `catch` of `setContents`) clear the two loading flags.
  - No call touches the graph itself or any other renderer state.
- A `sessionStorage.setItem` that throws (storage full or unavailable) is not modelled. The model's writes always succeed.
- The `sessionStorage.getItem` reads of `checkEditorSession` (src/store/useFile.ts:299-300) sit outside any `try`. If storage is unavailable they throw and nothing is installed. The model's reads always succeed, so it always installs a start-up document.
- `FileModel.CheckEditorSession` takes the query and the page fact "`window.location.href` contains `?`" as independent inputs. On a real page a `json` query implies a `?` in the URL, because the query is read from it (src/pages/index.tsx:85). The model therefore also covers a URL load without a `?`, in which the fetched text can reach session storage. The source never writes session storage there: with the page fact set, `StoreTraces.FramedPageNeverPersists` covers that case.
- The live-transform setting, `isIframe()` and the page URL are fixed for a whole run of actions, though the source reads them afresh on each call.
- JavaScript string length counts UTF-16 code units; Dafny's `|s|` counts characters. The two differ for text outside the Basic Multilingual Plane.
- JavaScript numbers are doubles; the canonical value keeps integers, which is all that truthiness of the API payload needs.
- The UI files (`src/pages/index.tsx`, `src/pages/_app.tsx`, `src/components/ApiControls/index.tsx`, `src/features/editor/Toolbar/index.tsx`, `src/layout/PageLayout/index.tsx`) are rendering only. They use the store as follows:
  - `src/pages/index.tsx` calls `checkEditorSession(query?.json)` on mount. This is `FileModel.CheckEditorSession` with the page's query.
  - `src/components/ApiControls/index.tsx` calls `loadFromApi`, `saveToApi`, `isApiConnected` and `getHasChanges`. These are `FileModel.LoadFromApi`, `FileModel.SaveToApi`, `UseFile.FileStore.IsApiConnected` and `UseFile.FileStore.GetHasChanges`.
  - `src/features/editor/Toolbar/index.tsx` selects `format` and `setFormat` (lines 47-48) but renders an empty, hidden element and never calls `setFormat`. The action itself is `FileModel.SetFormat`.
