# NocoBase HTTP-request instruction and log-file resource, modelled in Dafny

This project models two small pieces of NocoBase's server plugins.

- **The HTTP-request workflow instruction** (`plugin-workflow-request`).
  - `request(config)` becomes the function `RequestDescriptor.Request`. It builds the descriptor that would go to the HTTP client and never sends it. It covers the method, content-type and timeout defaults, header and parameter folding (last write wins, and any header whose name lower-cases to `content-type` is dropped before `Content-Type` is forced), the rule for attaching a body, and the two content-type transformers.
  - The instruction's `run` and `resume` become the class `RequestInstruction.Instruction`. Jobs are objects of `WorkflowEngine.Job`.
  - In synchronous mode `run` returns `{status, result}` at once.
  - In asynchronous mode `run` saves one `PENDING` job and returns the processor's exit signal. The request's `.then`/`.catch`/`.finally` chain is the method `Settle`: it records the outcome and calls the plugin's `resume` exactly once. `resume` then resolves the job when `ignoreFail` is set.
  - The HTTP client is replaced by an abstract `Outcome`: `Success(data)` or `Failure(detail)`.
- **The log-file resource** (`plugin-logger`).
  - The `list` action's `readDir` is the recursive method `LoggerResource.ReadDir` with a loop. It works over an in-memory directory tree (`Entry`, `Listing`) in which a directory can be unreadable.
  - `ReadDir` is proved equal to the specification function `Prune`. Lemmas about `Prune` show three things. Only `.log` files are listed. No listed folder is empty. The listing holds exactly the `.log` files under readable directories, in enumeration order.
  - The `download` action's file-list validation and normalisation is the function `LoggerResource.DownloadFileList`.

The workflow engine is not rebuilt. `WorkflowEngine` records only what the instruction asks of it:

- `saveJob` appends a fresh job;
- `job.set` updates a job;
- `exit` returns the exit signal;
- the plugin's `resume` is logged;
- `getParsedValue` is the identity.

Two facts about the instruction's statuses shape the model:

- `resume` (`RequestInstruction.ts:128-134`) does not check that the job is still `PENDING`. When `ignoreFail` is set it resolves whatever job it is given, and otherwise it leaves the status alone.
- The only failure status the instruction writes is `FAILED` (`RequestInstruction.ts:86` and `:110`); it never writes `ERROR`. A failure, a local rejection included, is `FAILED` unless `ignoreFail` is set. Then the synchronous run records it as `RESOLVED` (`:86`), and the asynchronous path records `FAILED` first, which `resume` turns into `RESOLVED`.

## Model

| member | source | states |
|---|---|---|
| `RequestDescriptor.Transform` | packages/plugins/@nocobase/plugin-workflow-request/src/server/RequestInstruction.ts:25-34 | JSON data passes unchanged; form data that is a list becomes the form body of its filtered pairs `FormPairs`, at most one pair per entry; form data that is not a list rejects with `FormDataNotList`; any other content type rejects with `UnsupportedContentType`; it rejects iff neither transformer applies (the lemmas `FormPairsAppend` and `FormPairsMembership` carry the form case) |
| `RequestDescriptor.Request` | packages/plugins/@nocobase/plugin-workflow-request/src/server/RequestInstruction.ts:36-68 | rejects iff a body is due and its transformer rejects, with that rejection; otherwise the descriptor keeps the URL, has the defaulted method and timeout, `Content-Type` = the effective content type, and a body exactly when one is due, namely the transformed data (the lemmas `RequestHeaders`, `RequestParams`, `RequestDefaults`, `RequestBody` and `GetNeverCarriesBody` state the rest) |
| `RequestDescriptor.FoldLastWriteWins` | packages/plugins/@nocobase/plugin-workflow-request/src/server/RequestInstruction.ts:39-51 | a name is a key of the folded object iff some entry with that name is not skipped; its value is that of the last entry with that name (last write wins) |
| `RequestDescriptor.RequestHeaders` | packages/plugins/@nocobase/plugin-workflow-request/src/server/RequestInstruction.ts:38-54 | the descriptor's `Content-Type` equals the effective content type (`application/json` when absent); no other key lower-cases to `content-type`; every other key comes from a configured header and carries the value of the last header with that name |
| `RequestDescriptor.RequestParams` | packages/plugins/@nocobase/plugin-workflow-request/src/server/RequestInstruction.ts:48-51 | the parameter keys are exactly the configured names; each value is that of the last parameter with that name |
| `RequestDescriptor.RequestDefaults` | packages/plugins/@nocobase/plugin-workflow-request/src/server/RequestInstruction.ts:38-54 | with method, content type, timeout, headers and params absent, the request is `POST` with headers `{Content-Type: application/json}`, no params and timeout 5000; non-nullish data is attached unchanged |
| `RequestDescriptor.RequestBody` | packages/plugins/@nocobase/plugin-workflow-request/src/server/RequestInstruction.ts:56-67 | a body is attached iff the lower-cased method is not `get` and data is neither null nor undefined; JSON data is passed unchanged; form data becomes its filtered pair list, and non-list form data rejects; any other content type on a body-carrying request rejects; a request without a body never rejects |
| `RequestDescriptor.GetNeverCarriesBody` | packages/plugins/@nocobase/plugin-workflow-request/src/server/RequestInstruction.ts:62-66 | a GET request, in any letter case, never rejects and never carries a body, whatever its content type and data |
| `RequestDescriptor.FormPairs` | packages/plugins/@nocobase/plugin-workflow-request/src/server/RequestInstruction.ts:29-33 | the form transformer yields at most one pair per entry, and no pair has an empty name |
| `RequestDescriptor.FormPairsAppend` | packages/plugins/@nocobase/plugin-workflow-request/src/server/RequestInstruction.ts:29-33 | the form transformer distributes over concatenation, so the original order and duplicate names are kept |
| `RequestDescriptor.FormPairsMembership` | packages/plugins/@nocobase/plugin-workflow-request/src/server/RequestInstruction.ts:29-33 | a pair is serialised iff some entry has that non-empty name and that defined value |
| `RequestInstruction.Attempt` | packages/plugins/@nocobase/plugin-workflow-request/src/server/RequestInstruction.ts:77-90 | the awaited request settles to the network's answer when `request` does not reject, and to a failure carrying the rejection when it does, whatever the network would answer; a success only comes from a request that did not reject; a request without a body always gets the network's answer |
| `RequestInstruction.SyncRun` | packages/plugins/@nocobase/plugin-workflow-request/src/server/RequestInstruction.ts:77-90 | the synchronous branch always completes, never with `PENDING`; its result is the outcome's data or error detail; it is `FAILED` iff the attempt failed and `ignoreFail` is not set (the lemmas `SyncRunOutcome`, `UnsupportedContentTypeFails` and `AsyncAgreesWithSync` carry the rest) |
| `RequestInstruction.SyncRunOutcome` | packages/plugins/@nocobase/plugin-workflow-request/src/server/RequestInstruction.ts:77-90 | case by case: synchronous `run` is `RESOLVED` iff the request succeeded or `ignoreFail` is set; a success records the response data and a failure the error detail |
| `RequestInstruction.UnsupportedContentTypeFails` | packages/plugins/@nocobase/plugin-workflow-request/src/server/RequestInstruction.ts:56-89 | a body-carrying request with a content type that has no transformer ends as a caught failure that carries the rejection, `RESOLVED` only under `ignoreFail`, whatever the network would answer |
| `RequestInstruction.AsyncAgreesWithSync` | packages/plugins/@nocobase/plugin-workflow-request/src/server/RequestInstruction.ts:77-134 | settling an asynchronous job and then resuming it gives the status and result the synchronous run returns for the same outcome |
| `RequestInstruction.Instruction.Run` | packages/plugins/@nocobase/plugin-workflow-request/src/server/RequestInstruction.ts:71-126 | sync: returns the synchronous result and saves no job; async: saves exactly one fresh `PENDING` job with no result, the node's id and key, and `upstreamId` = the previous job's id or null; registers the request as in flight and returns the exit signal |
| `RequestInstruction.Instruction.Settle` | packages/plugins/@nocobase/plugin-workflow-request/src/server/RequestInstruction.ts:100-121 | the settled request sets `RESOLVED` with the data or `FAILED` with the detail, leaves the in-flight set, and is handed to the plugin's `resume` exactly once |
| `RequestInstruction.Instruction.Resume` | packages/plugins/@nocobase/plugin-workflow-request/src/server/RequestInstruction.ts:128-134 | returns the same job; sets the status to `RESOLVED` iff `ignoreFail`, otherwise leaves it; never alters the result |
| `RequestInstruction.SuspendAndResume` | packages/plugins/@nocobase/plugin-workflow-request/src/server/RequestInstruction.ts:92-134 | on a fresh engine the asynchronous protocol exits at once after saving a `PENDING` job with no upstream, resumes exactly once, and ends with the status and result of the synchronous run |
| `WorkflowEngine.Processor.SaveJob` | packages/plugins/@nocobase/plugin-workflow-request/src/server/RequestInstruction.ts:92-97 | appends exactly one fresh job with the given status, node id, node key and upstream id, and no result |
| `WorkflowEngine.Job.Set` | packages/plugins/@nocobase/plugin-workflow-request/src/server/RequestInstruction.ts:102-111 | `job.set({status, result})` sets both fields |
| `WorkflowEngine.Job.SetStatus` | packages/plugins/@nocobase/plugin-workflow-request/src/server/RequestInstruction.ts:130-132 | `job.set('status', …)` sets the status and keeps the result |
| `WorkflowEngine.WorkflowPlugin.Resume` | packages/plugins/@nocobase/plugin-workflow-request/src/server/RequestInstruction.ts:119-121 | each call appends the job to the log of resumed jobs |
| `LoggerResource.ReadDir` | packages/plugins/@nocobase/plugin-logger/src/server/resourcer/logger.ts:50-73 | the loop-and-recursion `readDir` computes exactly the pruned listing `Prune`; an unreadable directory yields `[]` |
| `LoggerResource.Prune` | packages/plugins/@nocobase/plugin-logger/src/server/resourcer/logger.ts:50-73 | the specification of `readDir`: an unreadable directory lists nothing, and a readable one lists at most one node per entry (the lemmas `PruneWellFormed`, `PruneKeepsLogPaths` and `EmptyDirectoryOmitted` carry the rest) |
| `LoggerResource.PruneWellFormed` | packages/plugins/@nocobase/plugin-logger/src/server/resourcer/logger.ts:55-66 | every file leaf of the listing ends with `.log`, and every folder in it has a non-empty `files` list |
| `LoggerResource.PruneKeepsLogPaths` | packages/plugins/@nocobase/plugin-logger/src/server/resourcer/logger.ts:53-72 | the listing's leaf paths are exactly the paths of the `.log` files under readable directories, in enumeration order: none lost, none added, none reordered |
| `LoggerResource.EmptyDirectoryOmitted` | packages/plugins/@nocobase/plugin-logger/src/server/resourcer/logger.ts:55-63 | a directory whose pruned listing is empty, an unreadable one included, contributes nothing; the entries around it are listed as if it were absent |
| `LoggerResource.Normalize` | packages/plugins/@nocobase/plugin-logger/src/server/resourcer/logger.ts:85-90 | `files.map` keeps length and order; a name that starts with `/` loses exactly that one character, other names are unchanged (`DownloadFileList` and `StripKeepsLogSuffix` add that `.log` names stay `.log` names) |
| `LoggerResource.DownloadFileList` | packages/plugins/@nocobase/plugin-logger/src/server/resourcer/logger.ts:80-90 | an absent list is empty; the list is rejected with 400 iff some name does not end with `.log`; otherwise length and order are kept, exactly one leading `/` is removed from names that start with one, other names are unchanged, and every resulting name still ends with `.log` |
| `LoggerResource.StripKeepsLogSuffix` | packages/plugins/@nocobase/plugin-logger/src/server/resourcer/logger.ts:85-90 | removing the leading `/` from a `.log` name leaves a name that still ends with `.log` |

## Left out

- The HTTP client (axios) is not modelled. Its answer is the `response` parameter, and an error's `toJSON()` form is the opaque string in `ClientError`. Timeouts are only carried in the descriptor.
- `URLSearchParams.toString()` percent-encoding (section 5.2 of the WHATWG URL Standard) is not modelled. The form body is the pair list that would be serialised.
- The logger calls in `run` and `readDir` are left out. They do not affect the result.
- Promise concurrency is not modelled. The settlement of an asynchronous request is the explicit event `Instruction.Settle`, and nothing runs between `run` and it.
- `getParsedValue` variable templating is the identity, so `run` (parsed config) and `resume` (raw `node.config`) read the same `ignoreFail`.
- `isWorkflowSync(processor.execution.workflow)` is the processor's `workflowSync` flag. The value returned by `processor.exit()` is the abstract `Exited`.
- JavaScript object key order in the header and parameter objects is not modelled: both are maps. A header or parameter named `__proto__` with a string value is dropped by `Object.assign`, whose assignment goes to the inherited `__proto__` setter and is ignored for a non-object value; the model keeps it as an ordinary key.
- Content types that name an inherited `Object.prototype` member (for example `constructor`) are treated like any other unsupported content type. In JavaScript they would find an inherited function instead of rejecting.
- `toLowerCase` is modelled on ASCII letters only. For the two comparisons made (`content-type`, `get`) no other character lower-cases to a matching letter, so the comparisons are exact.
- Only absent (`undefined`) and present configuration fields are modelled. `null` for `method`, `contentType` or `timeout`, non-string header names, and form entries that are not `{name, value}` records are left out. Form values are taken after their string conversion.
- The rest of the workflow engine is not part of this model: graph walk, job persistence and execution status.
- For the log resource, the following are left out: the real `readdir` and file system, `getLoggerFilePath`, path joining (the tree's nesting stands for it), and the tar/gzip streaming of `tarFiles` with its 500 error. From the HTTP context, `ctx.attachment`, `ctx.body` and the text of the `ctx.throw` messages are left out.
- A `files` value that is `null` or not a list is not modelled. Only an absent list or a list of strings is.
