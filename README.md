# CloudConvert Swift client — a Dafny model of its request layer and `Process`

The CloudConvert Swift client drives a file conversion on the CloudConvert REST
API in four steps:
1. create a process;
2. start it, either by uploading a local file or by posting parameters;
3. poll its status once a second until the server reports the step "finished" or an error occurs;
4. download the output file.

This project models the parts of `CloudConvert/CloudConvert.swift` that make
these decisions and keep the state:

- **URL completion** (`Api.Normalize`). Protocol-relative `//host/...` URLs
  get `https:`. Paths get `https://api.cloudconvert.com`. Full `http...` URLs
  are kept.
- **Response judgement** (`Api.Serialize`). This models `CloudConvertSerializer`.
  A transport error is passed on. A body that cannot be decoded fails. A
  decoded body without an HTTP response fails with the "nil response" reason.
  A non-2xx status fails with the body's `error`, else its `message`, else
  "Unknown error". Only a 2xx status succeeds.
- **Parameter rules** (`ProcessRules`):
  - what `create` posts;
  - how `start` chooses between an upload and a JSON post;
  - how `convert` reads its `download` option;
  - where the download destination closure puts the file and which path it reports.
- **The `Process` object.** This is the class `Processes.Process`, with the
  source's fields `url`, `data`, `currentRequest`, `refreshTimer` and
  `waitCompletionHandler`. Next to them it keeps what the object has done to
  its surroundings:
  - the requests it issued and cancelled (`wire`);
  - the response handlers still waiting for a reply (`handlers`);
  - the timers the run loop still holds (`liveTimers`);
  - the destinations it chose for downloaded files (`targets`) and the files
    it removed (`removed`);
  - the callbacks and delegate notifications it fired (`events`).

  Each method of the class is proved to produce exactly the state that the
  matching function of `ProcessModel` computes from the old state. The
  properties are proved about those functions.
- **The transport and the timers.** A request is an id on the `wire`, and its
  response handler waits in `handlers`. `ProcessModel.Deliver` is the network
  answering one request: it runs that handler once. `ProcessModel.Tick` is the
  run loop firing one scheduled timer. Cancelling a request in flight records
  `Cancelled(id)`, but the handler stays. With the URL loading system it
  later runs with the error `NSURLErrorCancelled` (-999). `Deliver` itself
  accepts any reply that fits the waiting handler, cancelled or not; the
  lemmas about cancellation choose the -999 reply.
- **Closures.** Closures handed to the object are values of `Callback`:
  - an application callback (`App(token)`), whose calls appear as events;
  - one of the three closures that `convert` chains (create, then start, then
    wait, then download).

  Progress reaches both the progress handler and the delegate;
  `conversionCompleted` and `conversionFileDownloaded` reach only the
  delegate. All of them are recorded in one stream of events, each kind with
  its own event.
- **`convert`** (`ProcessModel.Convert`, `Processes.Convert`). It creates the
  process and leaves the rest of the chain to the replies that later arrive.

The module `ProcessProperties` proves facts about sequences of operations.
The module `CallAccounting` counts how often each completion handler is
called. Over any trace of timer ticks, `cancel` calls and replies, a handler
is called at most as often as it is owed: by the stored wait callback and by
the requests still waiting for their reply. So the handler given to `convert`
is called at most once, and so is the callback given to `wait`.
The module `ConvertScenario` follows one upload conversion with
`download: true` from `convert` to the saved file. It does this in four
stages: `UploadIsStarted`, `FirstTickPolls`, `FinishedStartsDownload` and
`OutputIsSaved`. Each stage's `requires` is met by the previous stage's `ensures`.

### Where the behaviour is easy to misread

These are properties of the code as written. The model follows the code in
each case.

- **A cancelled refresh still resolves `wait`.** `refresh` cancels the request
  in flight before it issues a new one. The cancelled request still completes,
  with error -999. Its handler clears `currentRequest` while the newer request
  is still running. Because it sees an error, it also stops the timer and
  calls the `wait` callback with the cancellation error
  (`ProcessProperties.SupersededRefreshResolvesWait`). In the same way, a
  `start` cancelled by `cancel` still calls its callback with the error
  (`ProcessProperties.CancelledStartReportsError`).
- **`create` is never the current request.** `cancel` cannot stop it.
- **`start` does not cancel an earlier current request.** It overwrites it.
- **A second `wait` leaks a timer.** It schedules a new timer without
  invalidating the earlier one. After `cancel`, the earlier timer keeps
  polling (`ProcessProperties.SecondWaitOutlivesCancel`).
- **`url` can change at any time.** Any assignment to `data` whose value
  carries a string `url` overwrites it, and so does `create`.
- **The download order.** In `convert`, the download request is issued inside
  the `wait` callback. That is before the delegate's `conversionCompleted` is
  called. The "finished" progress event is emitted even when the download
  failed. The download handler never clears `currentRequest`.
- **The destination closure.** It declares `isDirectory` as false and tests it
  before it could be set, so its "directory" branch is never taken. An
  explicit path is always treated as a file path. If no path is given and
  there is no Documents directory, the file stays at the temporary location,
  and the path handed to the completion handler is nil
  (`ProcessRules.Destination`). The path is also nil when a download without
  a path fails before the destination closure runs. The `downloadPath!` in the
  `conversionFileDownloaded` call is evaluated only when a delegate is set,
  because of the optional chaining; `convert` sets no delegate. The model
  records the delegate notification with no path.

## Model

All source paths are in `CloudConvert/CloudConvert.swift`.

| member | source | states |
|---|---|---|
| Api.Normalize | CloudConvert/CloudConvert.swift:71-78 | a `//` URL gets `https:`; a URL not starting with `http` gets `https://api.cloudconvert.com` in front; an `http...` URL is unchanged; every result starts with `http` |
| Api.NormalizeIdempotent | CloudConvert/CloudConvert.swift:71-78 | completing an already completed URL changes nothing |
| Api.NormalizePathGoesToApiHost | CloudConvert/CloudConvert.swift:75-77 | an absolute path that is not protocol-relative is sent to the API host under that path |
| Api.FailureReason | CloudConvert/CloudConvert.swift:206-207 | the reason is the body's `error` string if there is one, else its `message` string, else "Unknown error" |
| Api.Serialize | CloudConvert/CloudConvert.swift:193-223 | a transport error and a decoding error are passed on unchanged; a decoded body without a response fails with the nil-response reason; a non-2xx status fails with that status and the failure reason; the result is a success iff there is no error, the body decodes, and a 2xx response is present, and then it is the decoded body |
| ProcessRules.CreateBody | CloudConvert/CloudConvert.swift:332-335 | the posted parameters are exactly the given ones without `file` and `download`, with their values unchanged |
| ProcessRules.PlanStart | CloudConvert/CloudConvert.swift:441-463 | the start is an upload iff `file` is a file URL and `input` is "upload"; the upload's query is the parameters without `file` and `download`; a post carries every parameter except `download`, with a file URL `file` replaced by its absolute string |
| ProcessRules.ChooseDownload | CloudConvert/CloudConvert.swift:650-658 | a file URL `download` downloads there; a string other than "false", or a true number or boolean, downloads to the default place; anything else, or no `download`, downloads nothing |
| ProcessRules.Destination | CloudConvert/CloudConvert.swift:490-527 | an explicit path is the target and the reported path, and only a file already there is removed; without one, the target is the suggested name in the Documents directory, and that is reported; without a Documents directory, the file stays at the temporary URL and no path is reported; a removed file is always the target |
| ProcessModel.SetData | CloudConvert/CloudConvert.swift:294-300 | the data is stored; the URL is replaced exactly when the new data has a string `url` |
| ProcessModel.Invoke | CloudConvert/CloudConvert.swift:638-665 | an application callback records one call with its error; a `convert` closure given an error reports that error with no path to the caller's handler and does nothing else; without an error, the `create` closure runs `start` with the `start` closure, the `start` closure runs `wait` with the `wait` closure, and the `wait` closure without an error downloads to the `download` URL, downloads to the default place, or calls the handler with no path and no error, as the download choice says; logs only grow and the invariant is kept |
| ProcessModel.CallOpt | CloudConvert/CloudConvert.swift:378-381 | calling an absent callback changes nothing; an application callback is only recorded; given an error, the callback only reports it |
| ProcessModel.Create | CloudConvert/CloudConvert.swift:332-336 | one POST to `https://api.cloudconvert.com/process` with the create body, waiting for a create reply; events, URL, data and current request are unchanged |
| ProcessModel.CompleteCreate | CloudConvert/CloudConvert.swift:336-345 | an error is passed to the callback; a reply with a string `url` sets the URL and then calls back with no error; a reply without one calls back with the code -1 error |
| ProcessModel.Refresh | CloudConvert/CloudConvert.swift:361-373 | the current request is cancelled first; without a URL the callback gets "No Process URL!" and nothing is issued; otherwise a GET on the completed URL is issued and becomes the current request |
| ProcessModel.CompleteRefresh | CloudConvert/CloudConvert.swift:373-406 | the current request is cleared and a successful reply stored; the callback, then the status progress event; on an error or the "finished" step, the timer is stopped, the wait callback fires once and is forgotten, and completion is announced; otherwise, whatever the stored wait callback, the current request is cleared, nothing is issued, only the callback's call and the status progress are added, and timer and wait callback are unchanged |
| ProcessModel.ReportStatus | CloudConvert/CloudConvert.swift:375-385 | the reply is stored as `start`'s reply is, then one progress event carrying the data's step, percent and message follows the callback's call |
| ProcessModel.ResolveWait | CloudConvert/CloudConvert.swift:387-400 | the refresh timer is invalidated and forgotten, the wait callback fires once with the error and is cleared, then `conversionCompleted` follows; for `convert`'s wait closure without an error, what the closure issues and reports comes before `conversionCompleted` |
| ProcessModel.Start | CloudConvert/CloudConvert.swift:422-463 | without a URL the callback gets "No Process URL!" and nothing is issued; otherwise exactly one upload or post, as the start plan says, goes to the completed URL and becomes the current request |
| ProcessModel.CompleteStart | CloudConvert/CloudConvert.swift:431-439 | the current request is cleared; an error goes to the callback with the data unchanged; a reply is stored and the callback gets no error |
| ProcessModel.Download | CloudConvert/CloudConvert.swift:482-490 | without `output.url` in the data, the handler gets no path and "Output file not yet available!" and nothing is issued; otherwise a fetch of the completed output URL becomes the current request |
| ProcessModel.CompleteDownload | CloudConvert/CloudConvert.swift:534-541 | the file is placed as the destination rule says, then "finished"/100/"Conversion finished!" progress, then the handler with the reported path and the error, then `conversionFileDownloaded`; the current request is left as it was |
| ProcessModel.Wait | CloudConvert/CloudConvert.swift:559-566 | the callback is stored and a new timer becomes the refresh timer; an earlier timer stays scheduled |
| ProcessModel.Tick | CloudConvert/CloudConvert.swift:570-572 | a tick is a refresh with no parameters and no callback: it never fires a callback, and with a URL it issues a GET on it |
| ProcessModel.Cancel | CloudConvert/CloudConvert.swift:583-598 | the current request is cancelled and forgotten, the refresh timer is stopped, a DELETE on the process URL is issued exactly when there is one, and nothing is called back |
| ProcessModel.Deliver | CloudConvert/CloudConvert.swift:227-240 | the reply to a request runs its handler once, on the judged response, and that handler is then gone; the invariant is kept |
| ProcessModel.Convert | CloudConvert/CloudConvert.swift:633-668 | a new process without URL whose only action is the create request, and which has called nothing back yet |
| Processes.Process.constructor | CloudConvert/CloudConvert.swift:313-315 | a new process has no URL, empty data and has done nothing |
| Processes.Process.WithUrl | CloudConvert/CloudConvert.swift:317-319 | a process made from a URL has that URL, empty data and has done nothing |
| Processes.Process.SetData | CloudConvert/CloudConvert.swift:294-300 | the object's new state is the `data` observer's |
| Processes.Process.Invoke | CloudConvert/CloudConvert.swift:638-665 | the object's new state is what running the closure prescribes |
| Processes.Process.CallOpt | CloudConvert/CloudConvert.swift:378-381 | the object's new state is what an optional call prescribes |
| Processes.Process.Create | CloudConvert/CloudConvert.swift:332-336 | the object's new state is `create`'s |
| Processes.Process.CompleteCreate | CloudConvert/CloudConvert.swift:336-345 | the object's new state is the create handler's |
| Processes.Process.Refresh | CloudConvert/CloudConvert.swift:361-373 | the object's new state is `refresh`'s |
| Processes.Process.CompleteRefresh | CloudConvert/CloudConvert.swift:373-406 | the object's new state is the refresh handler's |
| Processes.Process.Start | CloudConvert/CloudConvert.swift:422-463 | the object's new state is `start`'s |
| Processes.Process.CompleteStart | CloudConvert/CloudConvert.swift:431-439 | the object's new state is the start handler's |
| Processes.Process.Download | CloudConvert/CloudConvert.swift:482-490 | the object's new state is `download`'s |
| Processes.Process.CompleteDownload | CloudConvert/CloudConvert.swift:534-541 | the object's new state is the download handler's |
| Processes.Process.Wait | CloudConvert/CloudConvert.swift:559-566 | the object's new state is `wait`'s |
| Processes.Process.RefreshTimerTick | CloudConvert/CloudConvert.swift:570-572 | the object's new state is a tick's |
| Processes.Process.Cancel | CloudConvert/CloudConvert.swift:583-598 | the object's new state is `cancel`'s |
| Processes.Process.Deliver | CloudConvert/CloudConvert.swift:227-240 | the object's new state is that after the reply's handler ran |
| Processes.Convert | CloudConvert/CloudConvert.swift:633-668 | a fresh process in the state `convert` prescribes |
| ProcessProperties.PollErrorReachesConvertHandler | CloudConvert/CloudConvert.swift:383-399 | a poll reply with an error, while `convert`'s wait closure is waiting, adds the status progress, then calls `convert`'s handler with no path and that error, then announces completion with it; the timer is stopped and the wait closure cleared; no request is issued |
| ProcessProperties.WaitClosureFollowsDownloadChoice | CloudConvert/CloudConvert.swift:646-658 | `convert`'s wait closure without an error calls the handler with no path and no error when nothing is to be downloaded, reports "Output file not yet available!" without an output URL, and otherwise fetches the output URL, with the `download` path when one is given |
| ProcessProperties.FinishedPollRunsWaitClosure | CloudConvert/CloudConvert.swift:387-399 | a "finished" poll reply while `convert`'s wait closure is stored stops the timer and clears the closure; after the status progress, the closure fetches the output (to the `download` path or the default place) and makes it the current request, or reports "Output file not yet available!" without an output URL, or calls the handler with no path and no error when nothing is to be downloaded; `conversionCompleted` comes last |
| ProcessProperties.TickSupersedesRefresh | CloudConvert/CloudConvert.swift:361-373 | a tick while a refresh is in flight cancels that refresh and issues a GET that becomes the current request; the old handler still waits and nothing is called back |
| ProcessProperties.CancelledRefreshReplyResolvesWait | CloudConvert/CloudConvert.swift:373-399 | the cancellation reply to a waiting refresh clears the current request, stops the timer, and calls the wait callback with the error before announcing completion |
| ProcessProperties.SupersededRefreshResolvesWait | CloudConvert/CloudConvert.swift:363-397 | a tick while a refresh is in flight cancels it; that refresh's reply with the cancellation error clears the current request while the new refresh is pending, stops the timer and resolves `wait` with the error |
| ProcessProperties.CancelledStartReportsError | CloudConvert/CloudConvert.swift:431-435 | `cancel` after `start` calls nothing back, but the cancelled start still calls its callback with the cancellation error |
| ProcessProperties.CancelStopsPolling | CloudConvert/CloudConvert.swift:583-591 | with only the refresh timer scheduled, `cancel` leaves no timer, no refresh timer and no current request |
| ProcessProperties.SecondWaitOutlivesCancel | CloudConvert/CloudConvert.swift:559-566 | the timer of a first `wait` survives a second `wait` and a `cancel` |
| ProcessProperties.TransferKeysNeverSent | CloudConvert/CloudConvert.swift:332-335 | no create or start request carries `download`; no create body or upload query carries `file` |
| ProcessProperties.DownloadReportsItsTarget | CloudConvert/CloudConvert.swift:490-541 | a reported download path is the destination chosen for the landed file, recorded in `targets`, and a removed file was already at that path |
| ProcessProperties.RequestIdsUnique | CloudConvert/CloudConvert.swift:227-240 | every request on the wire has its own id and the next id is unused, so each reply reaches exactly one request's handler |
| CallAccounting.InvokeBudget | CloudConvert/CloudConvert.swift:638-665 | running a closure calls a party at most once beyond what it was owed before, and only if the closure owes it |
| CallAccounting.ResolveWaitBudget | CloudConvert/CloudConvert.swift:387-397 | ending the polling calls the wait callback and forgets it, so no party gains a call it was not owed |
| CallAccounting.CompleteRefreshBudget | CloudConvert/CloudConvert.swift:373-406 | the refresh handler calls a party at most once beyond what it was owed, and only if its callback owes it |
| CallAccounting.DeliverBudget | CloudConvert/CloudConvert.swift:227-240 | a reply runs its handler once and removes it, so no party gains a call it was not owed |
| CallAccounting.TickBudget | CloudConvert/CloudConvert.swift:570-572 | a timer tick never adds a call a party was not owed |
| CallAccounting.StepBudget | CloudConvert/CloudConvert.swift:570-598 | a tick, a `cancel` or a reply keeps the invariant and adds no call a party was not owed |
| CallAccounting.RunBudget | CloudConvert/CloudConvert.swift:361-598 | over any trace of ticks, `cancel` calls and replies, the calls a party had plus those it is owed never grow |
| CallAccounting.ConvertCallsHandlerAtMostOnce | CloudConvert/CloudConvert.swift:633-668 | whatever replies arrive, whenever timers fire and whether or not the process is cancelled, the handler given to `convert` is called at most once |
| CallAccounting.WaitCallbackFiresAtMostOnce | CloudConvert/CloudConvert.swift:559-566 | over any trace of ticks, `cancel` calls and replies, the callback stored by `wait` is called at most once more, provided no waiting request holds it too |
| ConvertScenario.CreateReplyStarts | CloudConvert/CloudConvert.swift:638-642 | any create reply carrying a string `url` sets it and issues the start to it, waiting for the start reply; the data is untouched |
| ConvertScenario.StartReplyWaits | CloudConvert/CloudConvert.swift:642-646 | a successful start reply stores the data, taking its `url` when it has a string one, and schedules the polling timer with the download step as wait callback |
| ConvertScenario.IdleTickPolls | CloudConvert/CloudConvert.swift:570-572 | a tick with nothing in flight issues exactly one GET on the process URL |
| ConvertScenario.FinishedReplyDownloads | CloudConvert/CloudConvert.swift:646-653 | a "finished" reply with an output URL stops the timer, starts the download from that URL, then announces completion |
| ConvertScenario.DownloadLands | CloudConvert/CloudConvert.swift:513-540 | a download without a path lands in the Documents directory and the handler gets that path and no error |
| ConvertScenario.UploadParamsPlan | CloudConvert/CloudConvert.swift:442-455 | parameters with an uploadable file start an upload without `file` and `download`, and `download: true` downloads to the default place |
| ConvertScenario.ConcreteUrls | CloudConvert/CloudConvert.swift:73-74 | the protocol-relative URLs of the run are completed with `https:` |
| ConvertScenario.UploadIsStarted | CloudConvert/CloudConvert.swift:633-646 | from `convert`, the create reply uploads the file to the process URL and the start reply schedules polling |
| ConvertScenario.FirstTickPolls | CloudConvert/CloudConvert.swift:570-572 | the first tick polls the process URL with nothing else changed |
| ConvertScenario.FinishedStartsDownload | CloudConvert/CloudConvert.swift:387-399 | the "finished" poll reply stops the timer, clears the wait and fetches the output |
| ConvertScenario.OutputIsSaved | CloudConvert/CloudConvert.swift:513-540 | the output is saved in the Documents directory, and the caller's handler gets that path and no error, after the final progress event |

## Left out

- HTTP plumbing is not modelled: Alamofire requests, headers, the API key, query encoding and multipart assembly. A request is the call it makes: method, completed URL, parameters or file.
- JSON decoding is not modelled. A reply carries the decoding's outcome, and `NSNumber` bridging is one `Number` case that reads as a boolean when non-zero.
- Upload and download progress events with their byte counts are left out. They involve floating-point percentages and `NSByteCountFormatter`, and the percentage divides by the expected total without a guard.
- Percentages are modelled as exact reals, not `Float`.
- `dispatch_async` to the main queue is modelled as immediate: timer scheduling in `wait` and invalidation in the refresh handler and in `cancel`. The model does not capture a reply that arrives between the call and the queued block.
- Timer intervals and the one-second period are left out. A tick of any scheduled timer may happen at any time.
- The file system is not modelled beyond the destination closure's choices. A landing gives the temporary URL, the suggested file name, whether a Documents directory exists, and which files exist.
- `absoluteString` is modelled as `file://` followed by the path, without percent escaping.
- `conversionTypes`, the `description` property and the `subscript` are not modelled. They issue one request or only read.
- The delegate and the progress handler are recorded in one event stream. Their presence or absence is not modelled.
- Application callbacks only record their call. A completion handler that calls back into the process (`cancel`, `wait` or another method) in the middle of a handler is not modelled.
- ProcessModel.CompleteDownload: `targets` records the destination chosen for a landed file; whether the move there succeeded shows only in the error handed to the handler, not in the file system state.
- A cast of non-dictionary data with `data?["key"]` is modelled as nil.
- The application's `UIViewController` is not part of this model.
- ProcessModel.Deliver: the reply is only delivered to a request that is still waiting and whose kind it fits. A second reply to the same request is not modelled.
- ProcessModel.CompleteDownload: the delegate's presence is not modelled, so `conversionFileDownloaded` is always recorded, and with no path when the path is nil. With a delegate set, the source's `downloadPath!` would stop the program there.
- ProcessModel.Deliver: a cancelled request is not forced to get the cancellation error; any reply that fits its handler may arrive. The at-most-once results therefore cover more traces than the transport allows.
- Values.Value: `Url` holds only local file URLs, with `absoluteString` being `file://` followed by the path. A remote `NSURL` given as `file` or `download` cannot be represented.
- Api.Normalize: every string is completed. The trap of `NSURL(string:)!` (line 81) on a completed URL that does not parse is not modelled.
