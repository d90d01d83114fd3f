# OpenResearch client core, modelled in Dafny

OpenResearch is a single-page client: the user types a query, picks one of
eight result categories, and the page sends the query to the Serper search API,
feeds the results to an OpenAI-compatible completion API, and shows both. API
keys live in the browser's local storage. This project models the three pieces
of that client that hold logic:

- **Credential store** (`src/lib/keyStore.ts`, module `KeyStore` in
  `key_store.dfy`). The storage slot is `Empty | Corrupt | Stored(record)`; a
  record is a map from the four key fields to strings, so the object spread of
  `saveKeys` is map union. `LoadKeys` and `ResolveKeys` (the body of
  `getRequiredKeysOrThrow`) are functions; `saveKeys` and `clearKeys` are the
  methods of class `Store`, which owns the slot.
- **Query-run state machine** (`src/App.tsx`, module `App` in `app.dfy`). The
  component's state is the datatype `AppState`; `Step` gives the effect of one
  event (a user action, or the settling of one of the two awaited client calls)
  and class `Component` has one method per handler and per resumption of a
  suspended `handleSearch` call, each proved to change its fields as `Step`
  says. Abort controllers become run numbers: `current` is
  `controllerRef.current`, `aborted` the controllers whose signal has fired,
  and `pending` the suspended calls with the request they are waiting on.
  `LastRunWins` proves that, provided the clients reject with an `AbortError`
  once their signal is aborted, superseded runs never change what is shown.
- **Result layout** (`src/components/SearchResults.tsx`, module
  `SearchResultsView` in `search_results.dfy`): the renderer table, the grid
  class switch, and the keyed items, whose keys are proved pairwise distinct by
  splitting each key back into link and index.

Shared pieces: `wrappers.dfy` (`Option`, `Result`), `strings.dfy` (JavaScript's
`trim`, the decimal text of an index, splitting at the last `-`), and
`search_types.dfy` (the category and result types).

Behaviour the code has that a reader of its design intent might not expect,
all modelled as the code has it:

- A source change during a run leaves `loading` true: the handler does not
  touch it, and the aborted run's `finally` skips `setLoading(false)`. The
  spinner stays on, and the results and placeholder stay hidden, until the next
  search settles (`App.SourceChangeFreezesDisplay`).
- Supersession is enforced only through the abort signal. If a client resolves
  after its signal fired, the stale results are written
  (`App.StaleSearchResultIsShown`); "last run wins" holds under the stated
  client contract.
- The page keeps no separate "validating" state and does not label errors as
  "search failed" or "synthesis failed". Any rejection that is not an abort,
  shows the thrown error's own message, or `An error occurred` for a
  non-`Error` value. Which client call throws the missing-key errors of
  `getRequiredKeysOrThrow` is decided in `./services/api`, which this model
  leaves out: if the search
  throws, the page shows the error with no results; if the synthesis throws,
  it shows the error beside the search results already stored
  (`App.MissingKeyIsShown` covers both).

## Model

| member | source | states |
|---|---|---|
| `KeyStore.LoadKeys` | src/lib/keyStore.ts:11-18 | loading is total: it gives the stored record, and the empty record when the slot is empty or unreadable |
| `KeyStore.Spread` | src/lib/keyStore.ts:22 | the spread's fields are those of both records, and each field of the partial overrides the stored one |
| `KeyStore.Persisted` | src/lib/keyStore.ts:23 | what is written keeps exactly the fields whose value is not `undefined`, with their values |
| `KeyStore.SavedSlot` | src/lib/keyStore.ts:20-24 | a save always leaves a stored record, whose fields are the old ones the partial does not name plus the partial's fields that are not `undefined` |
| `KeyStore.SaveThenLoad` | src/lib/keyStore.ts:20-24 | after a save, a field named by the partial reads back as the partial gives it, and any other field reads back as before |
| `KeyStore.SaveIdempotent` | src/lib/keyStore.ts:20-24 | saving the same partial twice stores the same record as saving it once |
| `KeyStore.Store.SaveKeys` | src/lib/keyStore.ts:20-24 | the slot becomes the stored merge of the loaded record and the partial, field by field as above |
| `KeyStore.Store.ClearKeys` | src/lib/keyStore.ts:26-28 | the slot is emptied, and loading then gives the empty record |
| `KeyStore.TrimmedOr` | src/lib/keyStore.ts:32-33 | the value is the trimmed stored string when that is not blank, and the default otherwise; it is never empty when it comes from the value |
| `KeyStore.ResolveKeys` | src/lib/keyStore.ts:30-46 | a missing or empty OpenAI key fails first, for every source; with it, a missing or empty Serper key fails exactly for the eight listed sources; on success both keys are returned as stored and base URL and model are the trimmed value or their defaults, never empty |
| `KeyStore.GetRequiredKeysOrThrow` | src/lib/keyStore.ts:30-46 | validation runs on the loaded record; with nothing stored or an unreadable slot every source fails on the OpenAI key |
| `KeyStore.SerperListIsSourceNames` | src/lib/keyStore.ts:40 | the Serper list holds exactly the names of the eight categories |
| `KeyStore.SerperAlwaysRequired` | src/lib/keyStore.ts:38-44 | for every category a user can select, a missing Serper key fails once the OpenAI key is present |
| `Strings.TrimEmptyIffBlank` | src/App.tsx:34 | a trimmed string is empty exactly when the string is all white space, which is the blank-query test |
| `Strings.TrimSpec` | src/lib/keyStore.ts:32 | the trimmed string is a contiguous piece of the input with only white space around it and no white space at either end |
| `App.ErrorText` | src/App.tsx:54-59 | an abort writes no error; any other thrown `Error` writes its message, and any other value writes `An error occurred` |
| `App.AfterCatch` | src/App.tsx:54-59 | the catch block changes only `error`: nothing for an abort, otherwise the thrown `Error`'s message or `An error occurred` |
| `App.AfterFinally` | src/App.tsx:60-64 | the finally block changes only `loading` and the suspended calls: the call ends while every other suspended call keeps its stage, and loading ends false exactly when the run was not aborted or loading was already false |
| `App.SourceChanged` | src/App.tsx:22-31 | a source change drops the controller, sets the source, clears the display but keeps loading, aborts the old controller, and leaves every suspended call aborted |
| `App.Started` | src/App.tsx:37-44 | a started search makes a fresh run current and pending, shows only the spinner, aborts the old controller, and leaves every other suspended call aborted |
| `App.SearchResolved` | src/App.tsx:47-50 | a resolved search stores its results and leaves the run waiting on a synthesis request with those same results and the run's query and source; nothing else changes |
| `App.Step` | src/App.tsx:20-65 | a settling call never touches the controllers, query, source or run counter; a call that is not suspended at the matching await changes nothing; a query edit changes only the query |
| `App.StepKeepsInv` | src/App.tsx:20-65 | every event keeps the controller invariant (the current controller is not aborted and every other suspended call's controller is) and never un-aborts a controller |
| `App.BlankQueryIsNoOp` | src/App.tsx:34 | a search on a blank query changes no state at all |
| `App.StartSearchEffect` | src/App.tsx:36-44 | a search aborts the previous controller, makes a fresh one current, sets loading, clears error, answer and results, and issues the search for the current query and source |
| `App.SettleClearsLoadingIffNotAborted` | src/App.tsx:60-64 | when a call settles, loading ends false exactly if its controller was not aborted or loading was already false, and the call ends |
| `App.View` | src/App.tsx:101-130 | results list and placeholder are never both shown; while loading neither is, nor the answer; without an error and not loading exactly one of them is shown; the spinner shows exactly while `loading`, the error banner exactly when `error` is non-empty, and when not loading the answer and the list show exactly when there is an answer and results |
| `App.MissingKeyIsShown` | src/App.tsx:54-64 | a missing-key `Error` (thrown at src/lib/keyStore.ts:35-43) thrown by the current run's search or synthesis ends the run with its message in the banner, no spinner, and the stored results and answer kept |
| `App.StaleEventInvisible` | src/App.tsx:54-64 | the abort rejection of a superseded run changes nothing that is displayed |
| `App.LastRunWins` | src/App.tsx:33-65 | under the abort contract, any sequence of settling calls leaves the display as the current run's calls alone would |
| `App.SourceChangeFreezesDisplay` | src/App.tsx:22-31 | after a source change the display is cleared and, under the abort contract, stays so with loading unchanged whatever settles |
| `App.StaleSearchResultIsShown` | src/App.tsx:47-48 | a superseded run whose search still resolves overwrites the results, which the abort contract excludes |
| `App.CompletedRun` | src/App.tsx:46-53 | a successful run stores the search results before synthesis, synthesis receives exactly those results with the run's query and source, and the run ends showing the results and the answer, no error, not loading |
| `App.Component.constructor` | src/App.tsx:12-20 | the initial state: empty query, source `search`, nothing shown, not loading, no controller |
| `App.Component.SetQuery` | src/App.tsx:12 | the query is replaced and nothing else changes |
| `App.Component.AbortCurrentController` | src/App.tsx:24 | the current controller, if any, is added to the aborted ones, nothing else changes; it is a step inside a handler and on its own does not keep the invariant |
| `App.Component.HandleSourceChange` | src/App.tsx:22-31 | the current controller is aborted and dropped, the source set, results, answer and error cleared, loading and suspended calls untouched |
| `App.Component.HandleSearch` | src/App.tsx:33-44 | a blank query changes nothing; otherwise a fresh, unaborted run becomes current, the previous one is aborted, loading is set, the display cleared and the search request recorded |
| `App.Component.BeginRun` | src/App.tsx:37-44 | the previous controller is aborted, a fresh run becomes current, loading is set, the display cleared and the search for the current query and source recorded as pending, keeping the controller invariant |
| `App.Component.Catch` | src/App.tsx:54-59 | the catch block writes the error text unless the thrown value is an abort, keeping the controller invariant |
| `App.Component.Finally` | src/App.tsx:60-64 | the finally block clears loading unless this run's controller is aborted, and the call ends, keeping the controller invariant |
| `App.Component.OnSearchDone` | src/App.tsx:47-50 | the results are stored, then the synthesis request is issued with exactly those results and the run's query and source |
| `App.Component.OnSearchFail` | src/App.tsx:54-64 | a failed search writes the error text unless aborted, keeps results and answer, and clears loading only if not aborted; no synthesis follows |
| `App.Component.OnSynthesisDone` | src/App.tsx:53 | the answer is stored, results and error kept, loading cleared only if not aborted |
| `App.Component.OnSynthesisFail` | src/App.tsx:59 | a failed synthesis writes the error text unless aborted, keeps the stored search results, clears loading only if not aborted |
| `SearchResultsView.ComponentBySource` | src/components/SearchResults.tsx:17-26 | `ScholarResult` is the renderer exactly for `scholar` and `patents` |
| `SearchResultsView.RendererSharing` | src/components/SearchResults.tsx:17-26 | every category has a renderer; two categories share one exactly when they are `scholar` and `patents` |
| `SearchResultsView.GridClass` | src/components/SearchResults.tsx:28-39 | the 4-column class exactly for images, the `gap-8` class exactly for videos, the 3-column class exactly for shopping, and `grid-cols-1` exactly for the other five |
| `SearchResultsView.ItemKey` | src/components/SearchResults.tsx:46 | a key is the link, then `-`, then the index's decimal digits |
| `SearchResultsView.Items` | src/components/SearchResults.tsx:45-49 | one item per result, in the same order, each drawn with the category's renderer and keyed `${link}-${index}` |
| `SearchResultsView.SplitItemKey` | src/components/SearchResults.tsx:46 | a key splits at its last `-` back into the link and the index it was made from |
| `SearchResultsView.ItemKeyInjective` | src/components/SearchResults.tsx:46 | keys made at different indexes differ whatever the links |
| `SearchResultsView.ItemKeysDistinct` | src/components/SearchResults.tsx:45-46 | the rendered items' keys are pairwise distinct, also when links repeat |
| `SearchResultsView.ItemKeyNamesPosition` | src/components/SearchResults.tsx:46 | each item's key names its result's link and its position |
| `Strings.ParseNatToString` | src/components/SearchResults.tsx:46 | the decimal text of an index reads back as the index |

## Left out

- The browser's `localStorage` and JSON. The slot is abstract (the item name `openresearch.keys.v1` is not modelled); a stored record is assumed to read back as written (`JSON.parse(JSON.stringify(x))` is `x` for a record of strings). Items written by other code are not modelled: a stored `null` would make `getRequiredKeysOrThrow` fail with a type error, and non-string field values are outside the record type.
- A storage whose writes throw (full or unavailable): `setItem` in `saveKeys` and `removeItem` in `clearKeys` would then throw; the model's writes always succeed. A `getItem` that throws is modelled, as the unreadable slot that `loadKeys` catches.
- The client calls `searchSerper` and `generateAIResponse` and the module that defines them are not part of this model. Their outcomes are the events `SearchDone`, `SearchFail`, `SynthDone` and `SynthFail`. That they reject with an `AbortError` once their signal is aborted is the stated assumption `App.Environment` of `App.LastRunWins`. Which of them calls `getRequiredKeysOrThrow` is decided in `./services/api`, outside this model, so a missing-key error is modelled as a rejection of either call, with the outcome of each (`App.MissingKeyIsShown`).
- React itself: state batching, re-render timing, `memo` and `useMemo`. Each handler reads the state of the render it was created in; the model reads the state at the moment the event is applied, which is the same for a user event.
- The markup and styling, the settings dialog open/close state, and the contents of each renderer. Only the choice of renderer and of grid class is modelled.
- `src/components/SettingsDialog.tsx`, `src/components/ImageResult.tsx`, `src/components/VideoResult.tsx` and `src/env.d.ts`. The dialog only forwards to `loadKeys` and `saveKeys`. It always passes all four fields, so a cleared input stores `''`, and `KeyStore.ResolveKeys` covers that case.
- JavaScript strings are UTF-16; the model uses Unicode characters. Every character `trim` strips is a single UTF-16 unit, so trimming is the same.
