/** The App component itself: the five state hooks become fields and each
    handler a method that updates them field by field, as the `set...` calls
    do. A handler runs to completion over the state it was invoked on; the
    backend's answers are parameters, and each method returns the requests it
    sent. Each method is proved to follow the matching step of Workflow. */
module AppComponent {
  import opened Protocol
  import opened Batch
  import opened Selection
  import opened Naming
  import Workflow

  class App {
    var repoUrl: string
    var files: seq<string>
    var selectedFiles: seq<string>
    var testCaseSummaries: seq<Summary>
    var testCaseCode: string

    function Snapshot(): Workflow.State
      reads this
    {
      Workflow.State(repoUrl, files, selectedFiles, testCaseSummaries, testCaseCode)
    }

    constructor ()
      ensures Snapshot() == Workflow.Initial
    {
      repoUrl := "";
      files := [];
      selectedFiles := [];
      testCaseSummaries := [];
      testCaseCode := "";
    }

    method SetRepoUrl(url: string)
      modifies this
      ensures Snapshot() == Workflow.SetRepoUrl(old(Snapshot()), url).state
    {
      repoUrl := url;
    }

    method FetchFiles(listing: Result<seq<string>>) returns (requests: seq<Request>)
      modifies this
      ensures Snapshot() == Workflow.FetchFiles(old(Snapshot()), listing).state
      ensures requests == Workflow.FetchFiles(old(Snapshot()), listing).requests
    {
      if repoUrl == "" {
        requests := [];
        return;
      }
      requests := [ListFiles(repoUrl)];
      if listing.Failure? {
        return;
      }
      files := listing.value;
      selectedFiles := [];
      testCaseSummaries := [];
      testCaseCode := "";
    }

    /** The selection is committed before the preview fetches are sent, and
        nothing after them touches the state. */
    method HandleFileSelect(fileName: string) returns (requests: seq<Request>)
      modifies this
      ensures Snapshot() == Workflow.HandleFileSelect(old(Snapshot()), fileName).state
      ensures requests == Workflow.HandleFileSelect(old(Snapshot()), fileName).requests
    {
      var newSelectedFiles := Toggle(selectedFiles, fileName);
      selectedFiles := newSelectedFiles;
      requests := FetchRequests(repoUrl, newSelectedFiles);
    }

    /** `contents[i]` answers the fetch for `selectedFiles[i]`; the fetches
        complete in the order `completion`. */
    method GenerateSummaries(contents: seq<Result<string>>, completion: seq<nat>, summaries: Result<seq<Summary>>)
      returns (requests: seq<Request>)
      requires |contents| == |selectedFiles|
      requires IsPermutation(completion, |selectedFiles|)
      modifies this
      ensures Snapshot() == Workflow.GenerateSummaries(old(Snapshot()), contents, summaries).state
      ensures requests == Workflow.GenerateSummaries(old(Snapshot()), contents, summaries).requests
    {
      if |selectedFiles| == 0 {
        requests := [];
        return;
      }
      requests := FetchRequests(repoUrl, selectedFiles);
      var pending := seq(|selectedFiles|, _ => FileContent("", ""));
      var filesContent := Settle(pending, selectedFiles, contents, completion);
      SettleInSelectionOrder(pending, selectedFiles, contents, completion);
      if filesContent.Failure? {
        return;
      }
      requests := requests + [SummariesCall(filesContent.value)];
      if summaries.Failure? {
        return;
      }
      testCaseSummaries := summaries.value;
      testCaseCode := "";
    }

    method GenerateCode(summaryId: int, contents: seq<Result<string>>, completion: seq<nat>, code: Result<string>)
      returns (requests: seq<Request>)
      requires |contents| == |selectedFiles|
      requires IsPermutation(completion, |selectedFiles|)
      modifies this
      ensures Snapshot() == Workflow.GenerateCode(old(Snapshot()), summaryId, contents, code).state
      ensures requests == Workflow.GenerateCode(old(Snapshot()), summaryId, contents, code).requests
    {
      var selectedSummary := Workflow.FindSummary(testCaseSummaries, summaryId);
      if selectedSummary.None? {
        requests := [];
        return;
      }
      requests := FetchRequests(repoUrl, selectedFiles);
      var pending := seq(|selectedFiles|, _ => FileContent("", ""));
      var filesContent := Settle(pending, selectedFiles, contents, completion);
      SettleInSelectionOrder(pending, selectedFiles, contents, completion);
      if filesContent.Failure? {
        return;
      }
      requests := requests + [CodeCall(selectedSummary.value.summary, filesContent.value)];
      if code.Failure? {
        return;
      }
      testCaseCode := code.value;
    }

    /** Changes no field. Reports the pull request's URL when the submission
        was made and succeeded; `now` is the clock reading. */
    method CreatePullRequest(now: nat, prUrl: Result<string>) returns (requests: seq<Request>, created: Option<string>)
      ensures requests == Workflow.CreatePullRequest(Snapshot(), now).requests
      ensures created.Some? <==> testCaseCode != "" && prUrl.Success?
      ensures created.Some? ==> created.value == prUrl.value
    {
      if testCaseCode == "" {
        requests, created := [], None;
        return;
      }
      requests := [CreatePr(repoUrl, testCaseCode, PrFileName(now))];
      created := if prUrl.Success? then Some(prUrl.value) else None;
    }
  }
}
