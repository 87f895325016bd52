/** The values exchanged between the App component and the test-case generator
    backend. Every remote exchange is an input of the model: the backend's answer
    is either a success carrying the decoded payload, or a failure (a non-ok
    status, a rejected fetch or a body that does not parse). */
module Protocol {

  datatype Option<T> = None | Some(value: T)

  /** Outcome of one remote exchange. */
  datatype Result<T> = Success(value: T) | Failure

  /** One element of the `filesContent` array sent to the backend. */
  datatype FileContent = FileContent(name: string, content: string)

  /** One test-case summary as returned by `/api/generate-summaries`. */
  datatype Summary = Summary(id: int, summary: string)

  /** A request the component sends to the backend, one constructor per endpoint. */
  datatype Request =
    | ListFiles(repoUrl: string)                                  // POST /api/files
    | FetchFileContent(repoUrl: string, filePath: string)         // POST /api/file-content
    | SummariesCall(filesContent: seq<FileContent>)               // POST /api/generate-summaries
    | CodeCall(summary: string, filesContent: seq<FileContent>)   // POST /api/generate-code
    | CreatePr(repoUrl: string, testCaseCode: string, fileName: string) // POST /api/create-pr
}
