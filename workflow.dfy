/** The App component's workflow as a state machine. A State is a snapshot of
    the five state hooks (`repoUrl`, `files`, `selectedFiles`,
    `testCaseSummaries`, `testCaseCode`); each handler is a step function that
    takes the snapshot at invocation and the backend's answers, and gives the
    snapshot afterwards together with the requests the handler sent, in the
    order it sent them. An empty request list means no remote call was made. */
module Workflow {
  import opened Protocol
  import opened Selection
  import opened Batch
  import opened Naming

  datatype State = State(
    repoUrl: string,
    files: seq<string>,
    selectedFiles: seq<string>,
    testCaseSummaries: seq<Summary>,
    testCaseCode: string)

  /** The values the hooks start with. */
  const Initial: State := State("", [], [], [], "")

  datatype Step = Step(state: State, requests: seq<Request>)

  predicate AllFetched(contents: seq<Result<string>>) {
    forall i | 0 <= i < |contents| :: contents[i].Success?
  }

  /** `testCaseSummaries.find(s => s.id === summaryId)`: the first summary with that id. */
  function FindSummary(summaries: seq<Summary>, id: int): (r: Option<Summary>)
    ensures r.None? <==> forall i | 0 <= i < |summaries| :: summaries[i].id != id
    ensures r.Some? ==> exists i | 0 <= i < |summaries| ::
              summaries[i] == r.value && r.value.id == id && forall j | 0 <= j < i :: summaries[j].id != id
  {
    if summaries == [] then None
    else if summaries[0].id == id then Some(summaries[0])
    else
      FindSummary(summaries[1..], id)
  }

  /** The text input's `onChange`: only the URL changes; the listing, the
      selection, the summaries and the code are kept. */
  function SetRepoUrl(s: State, url: string): (r: Step)
    ensures r.requests == []
    ensures r.state.repoUrl == url
    ensures r.state.(repoUrl := s.repoUrl) == s
  {
    Step(s.(repoUrl := url), [])
  }

  /** `fetchFiles`: blocked by an empty URL; on success the listing is
      replaced and everything downstream is reset; on failure nothing changes. */
  function FetchFiles(s: State, listing: Result<seq<string>>): (r: Step)
    ensures s.repoUrl == "" ==> r.requests == [] && r.state == s
    ensures s.repoUrl != "" ==> r.requests == [ListFiles(s.repoUrl)]
    ensures listing.Failure? ==> r.state == s
    ensures s.repoUrl != "" && listing.Success? ==> r.state == State(s.repoUrl, listing.value, [], [], "")
  {
    if s.repoUrl == "" then Step(s, [])
    else
      var requests := [ListFiles(s.repoUrl)];
      match listing
      case Failure => Step(s, requests)
      case Success(files) => Step(State(s.repoUrl, files, [], [], ""), requests)
  }

  /** `handleFileSelect`: the toggled selection is committed, then the content
      of every newly selected file is fetched for preview; the preview's
      outcome is discarded, so it is not an input. */
  function HandleFileSelect(s: State, path: string): (r: Step)
    ensures r.state.(selectedFiles := s.selectedFiles) == s
    ensures r.state.selectedFiles == Toggle(s.selectedFiles, path)
    ensures |r.requests| == |r.state.selectedFiles|
    ensures forall i | 0 <= i < |r.requests| :: r.requests[i] == FetchFileContent(s.repoUrl, r.state.selectedFiles[i])
  {
    var selection := Toggle(s.selectedFiles, path);
    Step(s.(selectedFiles := selection), FetchRequests(s.repoUrl, selection))
  }

  /** `generateSummaries`: blocked by an empty selection; otherwise fetches the
      content of every selected file, sends the batch, and on success replaces
      the summaries wholesale and clears the code. Any failure leaves the state
      as it was. `contents[i]` answers the fetch for `selectedFiles[i]`. */
  function GenerateSummaries(s: State, contents: seq<Result<string>>, summaries: Result<seq<Summary>>): (r: Step)
    requires |contents| == |s.selectedFiles|
    ensures s.selectedFiles == [] ==> r == Step(s, [])
    ensures r.state.repoUrl == s.repoUrl && r.state.files == s.files && r.state.selectedFiles == s.selectedFiles
    ensures !AllFetched(contents) || summaries.Failure? ==> r.state == s
    ensures s.selectedFiles != [] && AllFetched(contents) && summaries.Success? ==>
              r.state.testCaseSummaries == summaries.value && r.state.testCaseCode == ""
    ensures s.selectedFiles != [] ==>
              |r.requests| == |s.selectedFiles| + (if AllFetched(contents) then 1 else 0) &&
              r.requests[..|s.selectedFiles|] == FetchRequests(s.repoUrl, s.selectedFiles)
    ensures (exists q | q in r.requests :: q.SummariesCall?) <==> s.selectedFiles != [] && AllFetched(contents)
    ensures forall q | q in r.requests && q.SummariesCall? ::
              |q.filesContent| == |s.selectedFiles| &&
              forall i | 0 <= i < |s.selectedFiles| ::
                contents[i].Success? && q.filesContent[i] == FileContent(s.selectedFiles[i], contents[i].value)
  {
    if s.selectedFiles == [] then Step(s, [])
    else
      var fetches := FetchRequests(s.repoUrl, s.selectedFiles);
      match ContentBatch(s.selectedFiles, contents)
      case Failure =>
        assert forall q | q in fetches :: q.FetchFileContent?;
        Step(s, fetches)
      case Success(filesContent) =>
        var requests := fetches + [SummariesCall(filesContent)];
        assert requests[..|s.selectedFiles|] == fetches;
        assert requests[|fetches|] == SummariesCall(filesContent);
        match summaries
        case Failure => Step(s, requests)
        case Success(batch) => Step(s.(testCaseSummaries := batch, testCaseCode := ""), requests)
  }

  /** `generateCode(summaryId)`: a no-op for an id not in the summaries;
      otherwise re-fetches the content of the current selection, sends the
      first matching summary's text with the batch, and on success sets the
      code. Only the code can change, and only to the backend's answer. */
  function GenerateCode(s: State, summaryId: int, contents: seq<Result<string>>, code: Result<string>): (r: Step)
    requires |contents| == |s.selectedFiles|
    ensures (forall i | 0 <= i < |s.testCaseSummaries| :: s.testCaseSummaries[i].id != summaryId) ==> r == Step(s, [])
    ensures r.state.(testCaseCode := s.testCaseCode) == s
    ensures !AllFetched(contents) || code.Failure? ==> r.state == s
    ensures ((exists i | 0 <= i < |s.testCaseSummaries| :: s.testCaseSummaries[i].id == summaryId) &&
             AllFetched(contents) && code.Success?) ==> r.state.testCaseCode == code.value
    ensures (exists i | 0 <= i < |s.testCaseSummaries| :: s.testCaseSummaries[i].id == summaryId) ==>
              |r.requests| == |s.selectedFiles| + (if AllFetched(contents) then 1 else 0) &&
              r.requests[..|s.selectedFiles|] == FetchRequests(s.repoUrl, s.selectedFiles)
    ensures (exists q | q in r.requests :: q.CodeCall?) <==>
              (exists i | 0 <= i < |s.testCaseSummaries| :: s.testCaseSummaries[i].id == summaryId) &&
              AllFetched(contents)
    ensures forall q | q in r.requests && q.CodeCall? ::
              (exists i | 0 <= i < |s.testCaseSummaries| ::
                 s.testCaseSummaries[i].id == summaryId && q.summary == s.testCaseSummaries[i].summary &&
                 forall j | 0 <= j < i :: s.testCaseSummaries[j].id != summaryId) &&
              |q.filesContent| == |s.selectedFiles| &&
              forall i | 0 <= i < |s.selectedFiles| ::
                contents[i].Success? && q.filesContent[i] == FileContent(s.selectedFiles[i], contents[i].value)
  {
    match FindSummary(s.testCaseSummaries, summaryId)
    case None => Step(s, [])
    case Some(selected) =>
      var fetches := FetchRequests(s.repoUrl, s.selectedFiles);
      match ContentBatch(s.selectedFiles, contents)
      case Failure =>
        assert forall q | q in fetches :: q.FetchFileContent?;
        Step(s, fetches)
      case Success(filesContent) =>
        var requests := fetches + [CodeCall(selected.summary, filesContent)];
        assert requests[..|s.selectedFiles|] == fetches;
        assert requests[|fetches|] == CodeCall(selected.summary, filesContent);
        match code
        case Failure => Step(s, requests)
        case Success(text) => Step(s.(testCaseCode := text), requests)
  }

  /** `createPullRequest`: blocked while there is no code; otherwise submits
      the URL, the code and a clock-derived file name. No state changes, whatever
      the backend answers, so its answer is not an input here. */
  function CreatePullRequest(s: State, now: nat): (r: Step)
    ensures r.state == s
    ensures r.requests == [] <==> s.testCaseCode == ""
    ensures s.testCaseCode != "" ==> r.requests == [CreatePr(s.repoUrl, s.testCaseCode, PrFileName(now))]
  {
    if s.testCaseCode == "" then Step(s, [])
    else Step(s, [CreatePr(s.repoUrl, s.testCaseCode, PrFileName(now))])
  }

  /** A user action together with the backend's answers to what it sends. */
  datatype Event =
    | EditUrl(url: string)
    | LoadFiles(listing: Result<seq<string>>)
    | ToggleFile(path: string)
    | RequestSummaries(contents: seq<Result<string>>, summaries: Result<seq<Summary>>)
    | RequestCode(summaryId: int, contents: seq<Result<string>>, code: Result<string>)
    | RequestPr(now: nat)

  /** The backend answers each content fetch of the current selection once. */
  predicate Admissible(s: State, e: Event) {
    match e
    case RequestSummaries(contents, _) => |contents| == |s.selectedFiles|
    case RequestCode(_, contents, _) => |contents| == |s.selectedFiles|
    case _ => true
  }

  /** The rendered page only offers checkboxes for the listed files. */
  predicate Offered(s: State, e: Event) {
    e.ToggleFile? ==> e.path in s.files
  }

  function Apply(s: State, e: Event): Step
    requires Admissible(s, e)
  {
    match e
    case EditUrl(url) => SetRepoUrl(s, url)
    case LoadFiles(listing) => FetchFiles(s, listing)
    case ToggleFile(path) => HandleFileSelect(s, path)
    case RequestSummaries(contents, summaries) => GenerateSummaries(s, contents, summaries)
    case RequestCode(id, contents, code) => GenerateCode(s, id, contents, code)
    case RequestPr(now) => CreatePullRequest(s, now)
  }

  /** The selection has no repeated path, and code is only ever present while
      the summary list is non-empty. */
  predicate Valid(s: State) {
    && NoDup(s.selectedFiles)
    && (s.testCaseCode != "" ==> s.testCaseSummaries != [])
  }

  predicate SelectionListed(s: State) {
    forall x | x in s.selectedFiles :: x in s.files
  }

  lemma InitialValid()
    ensures Valid(Initial) && SelectionListed(Initial)
  {
  }

  /** Every handler keeps the workflow invariant. */
  lemma ApplyPreservesValid(s: State, e: Event)
    requires Admissible(s, e) && Valid(s)
    ensures Valid(Apply(s, e).state)
  {
    if e.ToggleFile? {
      ToggleNoDup(s.selectedFiles, e.path);
    } else if e.RequestCode? {
      var r := Apply(s, e).state;
      if r.testCaseCode != s.testCaseCode {
        assert FindSummary(s.testCaseSummaries, e.summaryId).Some?;
      }
    }
  }

  /** Through the page, the selection only ever holds listed files. */
  lemma ApplyKeepsSelectionListed(s: State, e: Event)
    requires Admissible(s, e) && Offered(s, e) && SelectionListed(s)
    ensures SelectionListed(Apply(s, e).state)
  {
  }

  /** `states[k + 1]` is what event `k` leaves behind in `states[k]`. */
  ghost predicate IsRun(states: seq<State>, events: seq<Event>) {
    && |states| == |events| + 1
    && forall k | 0 <= k < |events| ::
         Admissible(states[k], events[k]) && states[k + 1] == Apply(states[k], events[k]).state
  }

  /** Any sequence of handler invocations from a valid state stays valid. */
  lemma {:induction false} RunStaysValid(states: seq<State>, events: seq<Event>, k: nat)
    requires IsRun(states, events) && Valid(states[0])
    requires k < |states|
    ensures Valid(states[k])
  {
    if k > 0 {
      RunStaysValid(states, events, k - 1);
      ApplyPreservesValid(states[k - 1], events[k - 1]);
    }
  }

  /** Any sequence of actions the page offers keeps the selection within the listing. */
  lemma {:induction false} RunStaysListed(states: seq<State>, events: seq<Event>, k: nat)
    requires IsRun(states, events) && SelectionListed(states[0])
    requires forall j | 0 <= j < |events| :: Offered(states[j], events[j])
    requires k < |states|
    ensures SelectionListed(states[k])
  {
    if k > 0 {
      RunStaysListed(states, events, k - 1);
      ApplyKeepsSelectionListed(states[k - 1], events[k - 1]);
    }
  }

  /** Right after a new listing, no later stage can reach the backend on stale
      data: summaries are blocked by the empty selection, code generation by
      the empty summary list, and the pull request by the empty code. */
  lemma NewListingBlocksDownstream(s: State, files: seq<string>, id: int, now: nat,
                                   summaries: Result<seq<Summary>>, code: Result<string>)
    requires s.repoUrl != ""
    ensures var t := FetchFiles(s, Success(files)).state;
      && GenerateSummaries(t, [], summaries) == Step(t, [])
      && GenerateCode(t, id, [], code) == Step(t, [])
      && CreatePullRequest(t, now) == Step(t, [])
  {
  }

  /** Editing the URL invalidates nothing: the next summary generation fetches
      the old selection's paths from the new repository. */
  lemma EditedUrlKeepsStaleSelection(s: State, url: string, contents: seq<Result<string>>,
                                     summaries: Result<seq<Summary>>)
    requires s.selectedFiles != [] && |contents| == |s.selectedFiles|
    ensures var t := SetRepoUrl(s, url).state;
      GenerateSummaries(t, contents, summaries).requests[..|s.selectedFiles|]
        == FetchRequests(url, s.selectedFiles)
  {
  }

  /** The end-to-end walk through the workflow: load a listing, select one
      file, generate its summaries, generate code for the summary, submit it;
      a reload afterwards resets every later stage. */
  lemma EndToEnd(now: nat)
    ensures var s0 := SetRepoUrl(Initial, "https://example.com/r").state;
      var s1 := FetchFiles(s0, Success(["a.js", "b.js"])).state;
      var s2 := HandleFileSelect(s1, "a.js").state;
      var s3 := GenerateSummaries(s2, [Success("const x=1;")], Success([Summary(1, "Tests variable x")])).state;
      var s4 := GenerateCode(s3, 1, [Success("const x=1;")], Success("test('x',()=>{...})")).state;
      var s5 := FetchFiles(s4, Success(["a.js", "b.js"])).state;
      && s2.selectedFiles == ["a.js"]
      && s4 == State("https://example.com/r", ["a.js", "b.js"], ["a.js"],
                     [Summary(1, "Tests variable x")], "test('x',()=>{...})")
      && CreatePullRequest(s4, now).requests
           == [CreatePr("https://example.com/r", "test('x',()=>{...})", PrFileName(now))]
      && s5 == State("https://example.com/r", ["a.js", "b.js"], [], [], "")
  {
  }
}
