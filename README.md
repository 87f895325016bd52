# AI Test Case Generator front end: the App workflow

This project models the `App` component of the test-case generator front end
as a state machine. The component keeps five pieces of state: the repository
URL, the file listing, the selected files, the test-case summaries and the
generated test code. Six handlers change that state:

- editing the URL;
- loading the listing (`fetchFiles`);
- toggling a file (`handleFileSelect`);
- generating summaries (`generateSummaries`);
- generating code for one summary (`generateCode`);
- submitting the code as a pull request (`createPullRequest`).

Every exchange with the backend is an input of the model. It is either
`Success(payload)` or `Failure`. A failure stands for a non-ok status, a
rejected fetch or a body that does not parse. The per-file content fetches are
a sequence of outcomes aligned with the selection. The class methods also take
the order in which those fetches complete. Each handler returns the requests it
sent, in the order it sent them, so "makes no remote call" means "returns no
requests".

Files and modules:

- `protocol.dfy` (`Protocol`): results, summaries, `{ name, content }` records
  and one request constructor per backend endpoint.
- `selection.dfy` (`Selection`): the toggle. A selected path is filtered out
  (every occurrence). Any other path is appended at the end.
- `batch.dfy` (`Batch`): the content batch built by
  `Promise.all(selectedFiles.map(...))`. `ContentBatch` is the batch in
  selection order. `Settle` replays the fetches in completion order, the way
  `Promise.all` fills its result slots. One rejection rejects the whole batch.
- `naming.dfy` (`Naming`): the proposed file name `test-case-<ms>.js`.
- `workflow.dfy` (`Workflow`): a snapshot of the five fields, and one pure
  step function per handler. Also the invariant, runs of events and the
  end-to-end walk.
- `app.dfy` (`AppComponent`): class `App` with the five fields. Each handler is
  a method that assigns fields one by one, as the `set...` calls do. Each
  method is proved to produce exactly the snapshot and requests of its
  `Workflow` step.

The model follows the code on these points:

- Editing the URL invalidates nothing (`src/App.js:196`). The listing, the
  selection, the summaries and the code survive the edit. The next content
  fetch asks the new repository for paths selected from the old listing
  (`Workflow.EditedUrlKeepsStaleSelection`).
- The selection is an ordered list, not a set. Toggling a selected path twice
  moves it to the end (`Selection.ToggleTwicePresent`).
- `generateCode` has no empty-selection guard. With an empty selection it still
  calls the code endpoint, with an empty batch.
- An unknown summary id is a silent no-op, not an error.

## Model

| member | source | states |
|---|---|---|
| Selection.RemoveAll | src/App.js:49 | the filter keeps exactly the elements other than the path, with their multiplicities, and drops every occurrence of the path |
| Selection.RemoveAllAppend | src/App.js:49 | filtering commutes with concatenation, so the kept elements stay in their original order |
| Selection.Toggle | src/App.js:48-50 | as a set, the new selection is the old one with the path flipped; a selected path loses every occurrence; an unselected path is appended at the end |
| Selection.ToggleTwiceAbsent | src/App.js:48-50 | toggling an unselected path twice restores the exact list |
| Selection.ToggleTwiceSameSet | src/App.js:48-50 | toggling any path twice restores the selection as a set |
| Selection.ToggleTwicePresent | src/App.js:48-50 | toggling a selected path twice filters out every occurrence and appends the path once at the end |
| Selection.ToggleTwicePresentReorders | src/App.js:48-50 | on `["a.js", "b.js"]`, toggling `a.js` twice gives `["b.js", "a.js"]`, so the list order is not restored |
| Selection.RemoveAllNoDup | src/App.js:49 | filtering keeps a duplicate-free list duplicate-free |
| Selection.ToggleNoDup | src/App.js:48-50 | a duplicate-free selection stays duplicate-free under any toggle |
| Selection.ToggleWithinListing | src/App.js:208-216 | toggling a listed path keeps a selection drawn from the listing drawn from it |
| Batch.FetchRequests | src/App.js:56-61 | one `/api/file-content` request per path, launched in path order, each naming the repository URL and that path |
| Batch.Settle | src/App.js:77-87 | the `Promise.all` fan-in in completion order succeeds iff every arrived fetch succeeded, and then keeps one slot per path; `Batch.SettleFills` and `Batch.SettleInSelectionOrder` fix the slots' contents |
| Batch.ContentBatch | src/App.js:77-87 | the batch succeeds iff every fetch succeeded, and then holds one `{ name, content }` record per selected path, in selection order |
| Batch.SettleFills | src/App.js:77-87 | over distinct arrivals, the fan-in rejects iff an arrived fetch was rejected, and otherwise each arrived fetch sits in its own slot |
| Batch.SettleInSelectionOrder | src/App.js:77-87 | whatever order the fetches complete in, the fan-in gives the batch in selection order, or rejects in the same cases |
| Batch.CompletionOrderIrrelevant | src/App.js:115-125 | two runs that differ only in completion order send identical batches |
| Naming.Decimal | src/App.js:165 | the timestamp is written as a non-empty string of decimal digits; it is one digit exactly when the timestamp is below 10, and a longer string never starts with `0` |
| Naming.ParseDecimalRoundTrip | src/App.js:165 | reading the decimal text back gives the timestamp |
| Naming.PrFileName | src/App.js:165 | the name is `test-case-`, the timestamp in decimal, then `.js`; the middle part reads back as the timestamp |
| Naming.PrFileNameInjective | src/App.js:165 | two proposed file names are equal only when the clock readings are equal |
| Workflow.FindSummary | src/App.js:112-113 | nothing is found iff no summary has the id; otherwise the result is the first summary with that id |
| Workflow.SetRepoUrl | src/App.js:196 | only the URL changes, no request is sent, and nothing downstream is invalidated |
| Workflow.FetchFiles | src/App.js:16-45 | an empty URL blocks all requests and changes nothing; failure changes nothing; success installs the listing and resets selection, summaries and code whatever they were |
| Workflow.HandleFileSelect | src/App.js:47-68 | only the selection changes, and it becomes exactly `Selection.Toggle` of the old list; one preview fetch is sent per path of the new selection, and their outcome cannot undo the change |
| Workflow.GenerateSummaries | src/App.js:70-108 | an empty selection blocks all requests; one fetch per selected path; the summaries call is made iff every fetch succeeded and carries the batch in selection order; any failure leaves the state unchanged; success replaces the summaries and clears the code; listing and selection never change |
| Workflow.GenerateCode | src/App.js:110-148 | an unknown id is a no-op with no request; otherwise one fetch per selected path, then the code call iff every fetch succeeded, carrying the first matching summary's text and the batch in selection order; only the code can change, and only to a successful answer |
| Workflow.CreatePullRequest | src/App.js:150-179 | no request iff there is no code; otherwise exactly one submission with the URL, the code and the clock-derived name; the state never changes |
| Workflow.InitialValid | src/App.js:10-14 | the initial state satisfies the invariant and its selection is within the listing |
| Workflow.ApplyPreservesValid | src/App.js:16-179 | every handler keeps the selection duplicate-free, and code present only next to a non-empty summary list |
| Workflow.ApplyKeepsSelectionListed | src/App.js:204-221 | with toggles offered only for listed files, every handler keeps the selection within the listing |
| Workflow.RunStaysValid | src/App.js:16-179 | any sequence of handler invocations from a valid state stays valid |
| Workflow.RunStaysListed | src/App.js:204-221 | any sequence of actions the page offers keeps the selection within the listing |
| Workflow.NewListingBlocksDownstream | src/App.js:36-40 | right after a new listing, summary generation, code generation and submission all make no remote call |
| Workflow.EditedUrlKeepsStaleSelection | src/App.js:196 | after a URL edit, summary generation fetches the old selection's paths from the new URL |
| Workflow.EndToEnd | src/App.js:10-179 | load, select, summarise, generate code, submit gives the expected states and submission; a reload resets every later stage |
| AppComponent.App.constructor | src/App.js:10-14 | the fields start as the empty URL, empty lists and empty code |
| AppComponent.App.SetRepoUrl | src/App.js:196 | the new fields are those of `Workflow.SetRepoUrl` |
| AppComponent.App.FetchFiles | src/App.js:16-45 | the new fields and the requests sent are those of `Workflow.FetchFiles` |
| AppComponent.App.HandleFileSelect | src/App.js:47-68 | the new fields and the preview requests are those of `Workflow.HandleFileSelect` |
| AppComponent.App.GenerateSummaries | src/App.js:70-108 | for any completion order of the fetches, the new fields and the requests are those of `Workflow.GenerateSummaries` |
| AppComponent.App.GenerateCode | src/App.js:110-148 | for any completion order of the fetches, the new fields and the requests are those of `Workflow.GenerateCode` |
| AppComponent.App.CreatePullRequest | src/App.js:150-179 | changes no field; sends the requests of `Workflow.CreatePullRequest`; reports a URL iff there was code and the submission succeeded |

## Left out

- HTTP plumbing: `fetch`, headers, JSON bodies, `response.json()` and the backend URL constant. Each exchange is an opaque success or failure.
- Non-ok and thrown failures are one `Failure` value. They differ only in the message shown to the user, and their effect on state is the same.
- Content fetches never check `response.ok`. A non-ok content response whose body parses yields an `undefined` content in `src/App.js`. The model has only "content" or "rejected" for each fetch.
- Payload shapes are trusted. A success whose body lacks `files`, `summaries` or `code` would install `undefined` in the component. Summary ids are integers compared by equality, standing in for JavaScript's `===`.
- `alert` and `console` output is not modelled. The URL that `createPullRequest` alerts is the `created` result of `AppComponent.App.CreatePullRequest`.
- JSX rendering is not modelled: visibility of sections and the disabled button. The only use made of it is that checkboxes exist only for listed files (`Workflow.Offered`).
- React's asynchronous state updates, stale closures and overlapping invocations of a handler are not modelled. Each handler runs atomically over the state at invocation.
- The preview fetch in `handleFileSelect` has no `catch`, so a rejection there is an unhandled promise rejection. It is not modelled beyond the fact that it cannot change state.
- `Date.now()` is the parameter `now`, a non-negative number of milliseconds.
- The submission's answer is not an input of the step function `Workflow.CreatePullRequest`, because no state depends on it. Only the class method reports the URL.
