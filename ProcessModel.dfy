/** The job controller `Process` as a state machine over values.  Each public
    operation of the class, each response handler it attaches to a request and
    each closure `convert` chains is a function from the state before to the
    state after.  The transport, the run loop's timers and the observers are part
    of the state as logs: `wire` lists the requests issued and cancelled,
    `handlers` the response handlers still waiting for their reply, `liveTimers`
    the timers still scheduled and `events` the callbacks fired, in order. */
module ProcessModel {
  import opened Wrappers
  import opened Values
  import opened Api
  import opened ProcessRules

  datatype Method = GET | POST | DELETE

  /** A call on the transport (URLs already normalised). */
  datatype Call =
    | Request(verb: Method, url: string, params: Option<Params>)
    | Upload(url: string, query: Params, file: FileUrl)
    | Fetch(url: string)

  /** A request handle is issued, or cancelled. */
  datatype Action = Issued(id: nat, call: Call) | Cancelled(id: nat)

  /** A completion closure: `App(token)` is one the application supplied, the
      others are the three closures of `convert`, each holding the conversion
      parameters and the application's final handler. */
  datatype Callback =
    | App(token: nat)
    | AfterCreate(params: Params, done: Option<nat>)
    | AfterStart(params: Params, done: Option<nat>)
    | AfterWait(params: Params, done: Option<nat>)

  /** The response handler attached to an issued request. */
  datatype Handler =
    | CreateHandler(created: Callback)
    | RefreshHandler(refreshed: Option<Callback>)
    | StartHandler(started: Option<Callback>)
    | DownloadHandler(path: Option<FileUrl>, done: Option<nat>)

  /** What the transport delivers for a request: the raw parts of an API
      response, or the outcome of a file download (`landing` is present when the
      bytes arrived and the destination was asked for). */
  datatype Reply =
    | ApiReply(error: Option<Error>, response: Option<HttpResponse>, parsed: Result<Value, Error>)
    | FileReply(landing: Option<Landing>, error: Option<Error>)

  /** The callbacks observers see.  `Progress` goes to both the progress handler
      and the delegate; `Done` and `Delivered` are application completion
      handlers of the two shapes; the last two are delegate callbacks. */
  datatype Event =
    | Progress(step: Option<string>, percent: Option<real>, message: Option<string>)
    | Done(token: nat, error: Option<Error>)
    | Delivered(token: nat, path: Option<FileUrl>, error: Option<Error>)
    | ConversionCompleted(error: Option<Error>)
    | FileDownloaded(path: Option<FileUrl>)

  datatype ProcessState = ProcessState(
    url: Option<string>,
    data: Value,
    currentRequest: Option<nat>,
    refreshTimer: Option<nat>,
    waitHandler: Option<Callback>,
    handlers: map<nat, Handler>,
    liveTimers: set<nat>,
    removed: set<FileUrl>,     // files the download destination closure deleted
    targets: seq<FileUrl>,     // where each landed download was to be moved, whether or not the move succeeded
    wire: seq<Action>,
    events: seq<Event>,
    nextId: nat)

  const NoProcessUrl := ProcessError(-1, Some("No Process URL!"))
  const NoUrlInReply := ProcessError(-1, None)
  const OutputUnavailable := ProcessError(-1, Some("Output file not yet available!"))
  const FinishedStep := "finished"
  const FinishedMessage := "Conversion finished!"

  /** A new process: no URL, or the one given, and empty data. */
  function Initial(url: Option<string>): ProcessState
  {
    ProcessState(url, Dict(map[]), None, None, None, map[], {}, {}, [], [], [], 0)
  }

  // ---------------------------------------------------------------- invariants

  ghost predicate IssuedBelow(wire: seq<Action>, n: nat)
  {
    forall i :: 0 <= i < |wire| && wire[i].Issued? ==> wire[i].id < n
  }

  ghost predicate IdsIncreasing(wire: seq<Action>)
  {
    forall i, j :: 0 <= i < j < |wire| && wire[i].Issued? && wire[j].Issued? ==> wire[i].id < wire[j].id
  }

  /** The kinds of closure `wait` is given. */
  predicate IsWaitCallback(cb: Option<Callback>)
  {
    cb.None? || cb.value.App? || cb.value.AfterWait?
  }

  /** No callback, or one of the application's. */
  predicate Plain(cb: Option<Callback>)
  {
    cb.None? || cb.value.App?
  }

  /** Handles are fresh: every request, pending handler and timer has an id below
      `nextId`, and request ids increase along the wire; the stored timer is a
      scheduled one. */
  ghost predicate Valid(s: ProcessState)
  {
    && (forall id :: id in s.handlers ==> id < s.nextId)
    && (s.currentRequest.Some? ==> s.currentRequest.value < s.nextId)
    && (s.refreshTimer.Some? ==> s.refreshTimer.value in s.liveTimers)
    && (forall t :: t in s.liveTimers ==> t < s.nextId)
    && IssuedBelow(s.wire, s.nextId)
    && IdsIncreasing(s.wire)
    && IsWaitCallback(s.waitHandler)
  }

  /** Logs only grow, and a response handler is only ever added for a new request. */
  ghost predicate Grows(s: ProcessState, r: ProcessState)
  {
    && s.wire <= r.wire
    && s.events <= r.events
    && s.targets <= r.targets
    && s.removed <= r.removed
    && s.nextId <= r.nextId
    && (forall id :: id in r.handlers ==> id in s.handlers || s.nextId <= id)
  }

  // ---------------------------------------------------------------- helpers

  function TimerSet(t: Option<nat>): set<nat>
  {
    if t.Some? then {t.value} else {}
  }

  function CancelActive(s: ProcessState): seq<Action>
  {
    if s.currentRequest.Some? then [Cancelled(s.currentRequest.value)] else []
  }

  function ErrorOf(result: Result<Value, Error>): Option<Error>
  {
    if result.Err? then Some(result.error) else None
  }

  /** A refresh reply that ends the polling: an error, or the "finished" step. */
  predicate Terminal(result: Result<Value, Error>)
  {
    result.Err? || AsString(Field(result.value, "step")) == Some(FinishedStep)
  }

  /** The progress event built from the process data. */
  function StatusProgress(d: Value): Event
  {
    Progress(AsString(Field(d, "step")), AsReal(Field(d, "percent")), AsString(Field(d, "message")))
  }

  /** `data["output"]["url"]`, when the output is a dictionary with a string URL. */
  function OutputUrl(d: Value): Option<string>
  {
    match Field(d, "output")
    case Some(Dict(m)) => AsString(Lookup(m, "url"))
    case _ => None
  }

  /** The events an application handler of the `(path, error)` shape produces. */
  function Notify(done: Option<nat>, path: Option<FileUrl>, err: Option<Error>): seq<Event>
  {
    if done.Some? then [Delivered(done.value, path, err)] else []
  }

  /** The events an application callback of the `(error)` shape produces. */
  function Fire(cb: Option<Callback>, err: Option<Error>): seq<Event>
  {
    if cb.Some? && cb.value.App? then [Done(cb.value.token, err)] else []
  }

  /** What a callback shows when it is handed an error: `convert` stops and
      reports the error to its own handler with no path. */
  function Reported(cb: Callback, e: Error): seq<Event>
  {
    if cb.App? then [Done(cb.token, Some(e))] else Notify(cb.done, None, Some(e))
  }

  function ReportedOpt(cb: Option<Callback>, e: Error): seq<Event>
  {
    if cb.Some? then Reported(cb.value, e) else []
  }

  function Rank(cb: Callback): nat
  {
    match cb
    case App(_) => 0
    case AfterWait(_, _) => 1
    case AfterStart(_, _) => 2
    case AfterCreate(_, _) => 3
  }

  function RankOpt(cb: Option<Callback>): nat
  {
    if cb.Some? then Rank(cb.value) else 0
  }

  /** Hands `call` to the transport under a fresh id, attaching `handler`. */
  function IssueCall(s: ProcessState, call: Call, handler: Option<Handler>): (r: ProcessState)
    ensures r.wire == s.wire + [Issued(s.nextId, call)] && r.nextId == s.nextId + 1
    ensures r.handlers == if handler.Some? then s.handlers[s.nextId := handler.value] else s.handlers
    ensures Grows(s, r) && (Valid(s) ==> Valid(r))
  {
    s.(wire := s.wire + [Issued(s.nextId, call)],
       handlers := if handler.Some? then s.handlers[s.nextId := handler.value] else s.handlers,
       nextId := s.nextId + 1)
  }

  /** Invalidates and forgets the refresh timer. */
  function StopTimer(s: ProcessState): (r: ProcessState)
    ensures r.refreshTimer.None? && r.liveTimers == s.liveTimers - TimerSet(s.refreshTimer)
    ensures Valid(s) ==> Valid(r)
  {
    s.(liveTimers := s.liveTimers - TimerSet(s.refreshTimer), refreshTimer := None)
  }

  // ---------------------------------------------------------------- the data observer

  /** Assigning `data`: the new value is stored, and the URL is overwritten exactly
      when the new value carries a string `url`. */
  function SetData(s: ProcessState, d: Value): (r: ProcessState)
    ensures r.data == d
    ensures AsString(Field(d, "url")).Some? ==> r.url == AsString(Field(d, "url"))
    ensures AsString(Field(d, "url")).None? ==> r.url == s.url
    ensures r == s.(data := d, url := r.url)
  {
    s.(data := d, url := if AsString(Field(d, "url")).Some? then AsString(Field(d, "url")) else s.url)
  }

  // ---------------------------------------------------------------- callbacks

  /** Runs a completion closure.  An application closure is just observed; the
      closures of `convert` go on to `start`, `wait` and the download decision,
      and stop at the first error, which they report with no path. */
  function Invoke(s: ProcessState, cb: Callback, err: Option<Error>): (r: ProcessState)
    decreases Rank(cb), 1
    ensures Grows(s, r) && (Valid(s) ==> Valid(r))
    ensures r.url == s.url && r.data == s.data
    ensures err.Some? ==> r == s.(events := s.events + Reported(cb, err.value))
    ensures cb.App? ==> r == s.(events := s.events + [Done(cb.token, err)])
    ensures !cb.AfterStart? ==>
              r.refreshTimer == s.refreshTimer && r.liveTimers == s.liveTimers && r.waitHandler == s.waitHandler
    ensures cb.AfterCreate? && err.None? ==> r == Start(s, cb.params, Some(AfterStart(cb.params, cb.done)))
    ensures cb.AfterStart? && err.None? ==> r == Wait(s, Some(AfterWait(cb.params, cb.done)))
    ensures cb.AfterWait? && err.None? && ChooseDownload(cb.params).ToFile? ==>
              r == Download(s, Some(ChooseDownload(cb.params).path), cb.done)
    ensures cb.AfterWait? && err.None? && ChooseDownload(cb.params).ToDefault? ==> r == Download(s, None, cb.done)
    ensures cb.AfterWait? && err.None? && ChooseDownload(cb.params).NoDownload? ==>
              r == s.(events := s.events + Notify(cb.done, None, None))
  {
    match cb
    case App(t) => s.(events := s.events + [Done(t, err)])
    case AfterCreate(params, done) =>
      if err.Some? then s.(events := s.events + Notify(done, None, err))
      else Start(s, params, Some(AfterStart(params, done)))
    case AfterStart(params, done) =>
      if err.Some? then s.(events := s.events + Notify(done, None, err))
      else Wait(s, Some(AfterWait(params, done)))
    case AfterWait(params, done) =>
      if err.Some? then s.(events := s.events + Notify(done, None, err))
      else
        match ChooseDownload(params)
        case ToFile(path) => Download(s, Some(path), done)
        case ToDefault => Download(s, None, done)
        case NoDownload => s.(events := s.events + Notify(done, None, None))
  }

  /** `callback?(err)` */
  function CallOpt(s: ProcessState, cb: Option<Callback>, err: Option<Error>): (r: ProcessState)
    decreases RankOpt(cb), 2
    ensures Grows(s, r) && (Valid(s) ==> Valid(r))
    ensures r.url == s.url && r.data == s.data
    ensures err.Some? ==> r == s.(events := s.events + ReportedOpt(cb, err.value))
    ensures Plain(cb) ==> r == s.(events := s.events + Fire(cb, err))
    ensures cb.None? || !cb.value.AfterStart? ==>
              r.refreshTimer == s.refreshTimer && r.liveTimers == s.liveTimers && r.waitHandler == s.waitHandler
  {
    if cb.None? then s else Invoke(s, cb.value, err)
  }

  // ---------------------------------------------------------------- create

  /** `create`: posts the parameters, less `file` and `download`, to /process.
      The request is not recorded as the current request. */
  function Create(s: ProcessState, params: Params, cb: Callback): (r: ProcessState)
    ensures r.wire == s.wire + [Issued(s.nextId, Request(POST, ApiRoot + "/process", Some(CreateBody(params))))]
    ensures r.handlers == s.handlers[s.nextId := CreateHandler(cb)]
    ensures r.events == s.events && r.url == s.url && r.data == s.data && r.currentRequest == s.currentRequest
    ensures r.waitHandler == s.waitHandler
    ensures Valid(s) ==> Valid(r)
  {
    assert "/process"[1] == 'p';
    NormalizePathGoesToApiHost("/process");
    IssueCall(s, Request(POST, Normalize("/process"), Some(CreateBody(params))), Some(CreateHandler(cb)))
  }

  /** The response handler of `create`: the URL is taken from a reply that has a
      string `url`; a reply without one is an error of code -1. */
  function CompleteCreate(s: ProcessState, cb: Callback, result: Result<Value, Error>): (r: ProcessState)
    ensures Grows(s, r) && (Valid(s) ==> Valid(r))
    ensures r.data == s.data
    ensures result.Ok? && AsString(Field(result.value, "url")).Some? ==> r.url == AsString(Field(result.value, "url"))
    ensures !(result.Ok? && AsString(Field(result.value, "url")).Some?) ==> r.url == s.url
    ensures result.Err? ==> r == s.(events := s.events + Reported(cb, result.error))
    ensures result.Ok? && AsString(Field(result.value, "url")).None? ==> r == s.(events := s.events + Reported(cb, NoUrlInReply))
    ensures cb.App? && result.Ok? && AsString(Field(result.value, "url")).Some? ==> r.events == s.events + [Done(cb.token, None)]
  {
    match result
    case Err(e) => Invoke(s, cb, Some(e))
    case Ok(v) =>
      match AsString(Field(v, "url"))
      case Some(u) => Invoke(s.(url := Some(u)), cb, None)
      case None => Invoke(s, cb, Some(NoUrlInReply))
  }

  // ---------------------------------------------------------------- refresh

  /** `refresh`: cancels the current request if there is one, then without a URL
      reports an error and issues nothing; otherwise issues a GET on the URL and
      makes it the current request. */
  function Refresh(s: ProcessState, params: Option<Params>, cb: Option<Callback>): (r: ProcessState)
    ensures Grows(s, r) && (Valid(s) ==> Valid(r))
    ensures r.url == s.url && r.data == s.data
    ensures r.refreshTimer == s.refreshTimer && r.liveTimers == s.liveTimers && r.waitHandler == s.waitHandler
    ensures s.url.None? ==>
              r == s.(wire := s.wire + CancelActive(s), events := s.events + ReportedOpt(cb, NoProcessUrl))
    ensures s.url.Some? ==>
              && r.wire == s.wire + CancelActive(s) + [Issued(s.nextId, Request(GET, Normalize(s.url.value), params))]
              && r.currentRequest == Some(s.nextId)
              && r.handlers == s.handlers[s.nextId := RefreshHandler(cb)]
              && r.events == s.events
  {
    var s1 := s.(wire := s.wire + CancelActive(s));
    if s1.url.None? then
      CallOpt(s1, cb, Some(NoProcessUrl))
    else
      IssueCall(s1, Request(GET, Normalize(s1.url.value), params), Some(RefreshHandler(cb))).(currentRequest := Some(s.nextId))
  }

  /** The response handler of `refresh`.  It clears the current request, stores a
      successful reply as the new data, calls its own callback, emits the status
      as progress, and on an error or the "finished" step stops the timer, fires
      the stored wait callback once and forgets it, and tells the delegate. */
  function CompleteRefresh(s: ProcessState, cb: Option<Callback>, result: Result<Value, Error>): (r: ProcessState)
    ensures Grows(s, r) && (Valid(s) ==> Valid(r))
    ensures r.data == if result.Ok? then result.value else s.data
    ensures r.url == if result.Ok? && AsString(Field(result.value, "url")).Some? then AsString(Field(result.value, "url")) else s.url
    ensures Plain(cb) ==> r.waitHandler == if Terminal(result) then None else s.waitHandler
    ensures Plain(cb) && IsWaitCallback(s.waitHandler) ==>
              if Terminal(result) then r.refreshTimer.None? && r.liveTimers == s.liveTimers - TimerSet(s.refreshTimer)
              else r.refreshTimer == s.refreshTimer && r.liveTimers == s.liveTimers
    ensures Plain(cb) && Plain(s.waitHandler) ==>
              && r.currentRequest.None? && r.wire == s.wire && r.handlers == s.handlers
              && r.events == s.events + Fire(cb, ErrorOf(result)) + [StatusProgress(r.data)]
                             + if Terminal(result) then Fire(s.waitHandler, ErrorOf(result)) + [ConversionCompleted(ErrorOf(result))]
                               else []
    ensures Plain(cb) && !Terminal(result) ==>
              && r.currentRequest.None? && r.wire == s.wire && r.handlers == s.handlers
              && r.events == s.events + Fire(cb, ErrorOf(result)) + [StatusProgress(r.data)]
  {
    var s1 := ReportStatus(s, cb, result);
    if Terminal(result) then ResolveWait(s1, ErrorOf(result)) else s1
  }

  /** The first part of the `refresh` handler: the reply is handled as the reply
      to `start` is, then the status is emitted as progress. */
  function ReportStatus(s: ProcessState, cb: Option<Callback>, result: Result<Value, Error>): (r: ProcessState)
    ensures Grows(s, r) && (Valid(s) ==> Valid(r))
    ensures r.data == if result.Ok? then result.value else s.data
    ensures r.url == if result.Ok? && AsString(Field(result.value, "url")).Some? then AsString(Field(result.value, "url")) else s.url
    ensures Plain(cb) ==>
              r == s.(currentRequest := None, data := r.data, url := r.url,
                      events := s.events + Fire(cb, ErrorOf(result)) + [StatusProgress(r.data)])
  {
    var s1 := CompleteStart(s, cb, result);
    s1.(events := s1.events + [StatusProgress(s1.data)])
  }

  /** The end of polling: stops the timer, fires the stored wait callback once and
      forgets it, and tells the delegate the conversion completed. */
  function ResolveWait(s: ProcessState, err: Option<Error>): (r: ProcessState)
    ensures Grows(s, r) && (Valid(s) ==> Valid(r))
    ensures r.data == s.data && r.url == s.url && r.waitHandler.None?
    ensures IsWaitCallback(s.waitHandler) ==>
              r.refreshTimer.None? && r.liveTimers == s.liveTimers - TimerSet(s.refreshTimer)
    ensures Plain(s.waitHandler) ==>
              && r.currentRequest == s.currentRequest && r.wire == s.wire && r.handlers == s.handlers
              && r.events == s.events + Fire(s.waitHandler, err) + [ConversionCompleted(err)]
    ensures err.Some? ==>
              && r.currentRequest == s.currentRequest && r.wire == s.wire && r.handlers == s.handlers
              && r.events == s.events + ReportedOpt(s.waitHandler, err.value) + [ConversionCompleted(err)]
    ensures s.waitHandler.Some? && err.None? ==>
              var w := Invoke(StopTimer(s), s.waitHandler.value, None);
              && r.currentRequest == w.currentRequest && r.wire == w.wire && r.handlers == w.handlers
              && r.events == w.events + [ConversionCompleted(None)]
  {
    var s1 := StopTimer(s);
    var s2 := CallOpt(s1, s1.waitHandler, err);
    s2.(waitHandler := None, events := s2.events + [ConversionCompleted(err)])
  }

  // ---------------------------------------------------------------- start

  /** The call `start` makes on the transport for a process at `url`. */
  function StartCall(url: string, params: Params): Call
  {
    match PlanStart(params)
    case UploadFile(query, file) => Upload(Normalize(url), query, file)
    case PostBody(body) => Request(POST, Normalize(url), Some(body))
  }

  /** `start`: without a URL reports an error and issues nothing; otherwise
      uploads the file or posts the parameters to the process URL and makes that
      the current request (an earlier current request is not cancelled). */
  function Start(s: ProcessState, params: Params, cb: Option<Callback>): (r: ProcessState)
    decreases RankOpt(cb), 3
    ensures Grows(s, r) && (Valid(s) ==> Valid(r))
    ensures r.url == s.url && r.data == s.data
    ensures r.refreshTimer == s.refreshTimer && r.liveTimers == s.liveTimers && r.waitHandler == s.waitHandler
    ensures s.url.None? ==> r == s.(events := s.events + ReportedOpt(cb, NoProcessUrl))
    ensures s.url.Some? ==>
              && r.wire == s.wire + [Issued(s.nextId, StartCall(s.url.value, params))]
              && r.currentRequest == Some(s.nextId)
              && r.handlers == s.handlers[s.nextId := StartHandler(cb)]
              && r.events == s.events
  {
    if s.url.None? then
      CallOpt(s, cb, Some(NoProcessUrl))
    else
      IssueCall(s, StartCall(s.url.value, params), Some(StartHandler(cb))).(currentRequest := Some(s.nextId))
  }

  /** The response handler of `start`: clears the current request, stores a
      successful reply as the new data and calls the callback. */
  function CompleteStart(s: ProcessState, cb: Option<Callback>, result: Result<Value, Error>): (r: ProcessState)
    ensures Grows(s, r) && (Valid(s) ==> Valid(r))
    ensures r.data == if result.Ok? then result.value else s.data
    ensures r.url == if result.Ok? && AsString(Field(result.value, "url")).Some? then AsString(Field(result.value, "url")) else s.url
    ensures result.Err? ==> r == s.(currentRequest := None, events := s.events + ReportedOpt(cb, result.error))
    ensures Plain(cb) ==> r == s.(currentRequest := None, data := r.data, url := r.url, events := s.events + Fire(cb, ErrorOf(result)))
  {
    var s1 := s.(currentRequest := None);
    match result
    case Err(e) => CallOpt(s1, cb, Some(e))
    case Ok(v) => CallOpt(SetData(s1, v), cb, None)
  }

  // ---------------------------------------------------------------- download

  /** `download`: without `data.output.url` completes at once with no path and
      an error, issuing nothing; otherwise starts a download of the output URL
      and makes it the current request. */
  function Download(s: ProcessState, path: Option<FileUrl>, done: Option<nat>): (r: ProcessState)
    ensures Grows(s, r) && (Valid(s) ==> Valid(r))
    ensures r.url == s.url && r.data == s.data && r.handlers.Keys >= s.handlers.Keys
    ensures r.refreshTimer == s.refreshTimer && r.liveTimers == s.liveTimers && r.waitHandler == s.waitHandler
    ensures OutputUrl(s.data).None? ==> r == s.(events := s.events + Notify(done, None, Some(OutputUnavailable)))
    ensures OutputUrl(s.data).Some? ==>
              && r.wire == s.wire + [Issued(s.nextId, Fetch(Normalize(OutputUrl(s.data).value)))]
              && r.currentRequest == Some(s.nextId)
              && r.handlers == s.handlers[s.nextId := DownloadHandler(path, done)]
              && r.events == s.events
  {
    match OutputUrl(s.data)
    case None => s.(events := s.events + Notify(done, None, Some(OutputUnavailable)))
    case Some(u) =>
      IssueCall(s, Fetch(Normalize(u)), Some(DownloadHandler(path, done))).(currentRequest := Some(s.nextId))
  }

  /** The path `download` hands to its completion handler: the placement's, when
      the destination was resolved, else the path it was asked for. */
  function ReportedPath(path: Option<FileUrl>, landing: Option<Landing>): Option<FileUrl>
  {
    if landing.Some? then Destination(path, landing.value).reported else path
  }

  /** The response handler of `download`: places the file, then emits the final
      progress ("finished", 100, "Conversion finished!"), calls the completion
      handler and tells the delegate.  The current request is left as it is. */
  function CompleteDownload(s: ProcessState, path: Option<FileUrl>, done: Option<nat>, landing: Option<Landing>, error: Option<Error>): (r: ProcessState)
    ensures Grows(s, r) && (Valid(s) ==> Valid(r))
    ensures r.events == s.events + [Progress(Some(FinishedStep), Some(100.0), Some(FinishedMessage))]
                        + Notify(done, ReportedPath(path, landing), error) + [FileDownloaded(ReportedPath(path, landing))]
    ensures landing.Some? ==>
              r.targets == s.targets + [Destination(path, landing.value).target]
              && r.removed == s.removed + Destination(path, landing.value).removed
    ensures landing.None? ==> r.targets == s.targets && r.removed == s.removed
    ensures r.wire == s.wire && r.currentRequest == s.currentRequest && r.handlers == s.handlers
    ensures r.url == s.url && r.data == s.data && r.refreshTimer == s.refreshTimer && r.waitHandler == s.waitHandler
  {
    var s1 := if landing.Some? then
                var p := Destination(path, landing.value);
                s.(removed := s.removed + p.removed, targets := s.targets + [p.target])
              else s;
    var reported := ReportedPath(path, landing);
    var s2 := s1.(events := s1.events + [Progress(Some(FinishedStep), Some(100.0), Some(FinishedMessage))]);
    var s3 := s2.(events := s2.events + Notify(done, reported, error));
    s3.(events := s3.events + [FileDownloaded(reported)])
  }

  // ---------------------------------------------------------------- wait, tick, cancel

  /** `wait`: stores the callback and schedules a new repeating timer as the
      refresh timer.  A timer scheduled before is not invalidated. */
  function Wait(s: ProcessState, cb: Option<Callback>): (r: ProcessState)
    ensures r.waitHandler == cb && r.refreshTimer == Some(s.nextId)
    ensures r.liveTimers == s.liveTimers + {s.nextId} && (Valid(s) ==> s.nextId !in s.liveTimers)
    ensures r.wire == s.wire && r.events == s.events && r.currentRequest == s.currentRequest && r.handlers == s.handlers
    ensures r.url == s.url && r.data == s.data
    ensures Grows(s, r) && (Valid(s) && IsWaitCallback(cb) ==> Valid(r))
  {
    s.(waitHandler := cb, refreshTimer := Some(s.nextId), liveTimers := s.liveTimers + {s.nextId}, nextId := s.nextId + 1)
  }

  /** A tick of a scheduled timer: a refresh with no parameters and no callback,
      which only ever touches the wire. */
  function Tick(s: ProcessState, t: nat): (r: ProcessState)
    requires t in s.liveTimers
    ensures r.events == s.events && r.url == s.url && r.data == s.data
    ensures s.url.Some? ==> |r.wire| > |s.wire| && r.wire[|r.wire| - 1] == Issued(s.nextId, Request(GET, Normalize(s.url.value), None))
    ensures s.url.None? ==> r.wire == s.wire + CancelActive(s) && r.nextId == s.nextId
    ensures Grows(s, r) && (Valid(s) ==> Valid(r))
  {
    Refresh(s, None, None)
  }

  /** `cancel`: cancels and forgets the current request, stops the timer, and
      issues a DELETE on the process URL exactly when there is one; it never
      calls anything back. */
  function Cancel(s: ProcessState): (r: ProcessState)
    ensures r.currentRequest.None? && r.refreshTimer.None?
    ensures r.liveTimers == s.liveTimers - TimerSet(s.refreshTimer)
    ensures r.events == s.events && r.handlers == s.handlers
    ensures s.url.Some? ==> r.wire == s.wire + CancelActive(s) + [Issued(s.nextId, Request(DELETE, Normalize(s.url.value), None))]
    ensures s.url.None? ==> r.wire == s.wire + CancelActive(s)
    ensures r.url == s.url && r.data == s.data && r.waitHandler == s.waitHandler
    ensures Grows(s, r) && (Valid(s) ==> Valid(r))
  {
    var s1 := StopTimer(s.(wire := s.wire + CancelActive(s), currentRequest := None));
    if s1.url.Some? then IssueCall(s1, Request(DELETE, Normalize(s1.url.value), None), None) else s1
  }

  // ---------------------------------------------------------------- replies

  /** Whether a reply is of the kind the request's handler expects. */
  predicate Fits(h: Handler, reply: Reply)
  {
    h.DownloadHandler? <==> reply.FileReply?
  }

  /** The transport delivers the reply to request `id`: its response handler
      runs once, on the serialized response (a download's on the raw outcome). */
  function Deliver(s: ProcessState, id: nat, reply: Reply): (r: ProcessState)
    requires id in s.handlers && Fits(s.handlers[id], reply)
    ensures Valid(s) ==> Valid(r) && id !in r.handlers
    ensures s.wire <= r.wire && s.events <= r.events
  {
    var s1 := s.(handlers := s.handlers - {id});
    match s.handlers[id]
    case CreateHandler(cb) => CompleteCreate(s1, cb, Serialize(reply.error, reply.response, reply.parsed))
    case RefreshHandler(cb) => CompleteRefresh(s1, cb, Serialize(reply.error, reply.response, reply.parsed))
    case StartHandler(cb) => CompleteStart(s1, cb, Serialize(reply.error, reply.response, reply.parsed))
    case DownloadHandler(path, done) => CompleteDownload(s1, path, done, reply.landing, reply.error)
  }

  // ---------------------------------------------------------------- convert

  /** `convert`: a new process whose only action so far is the create request;
      its callback chain carries the parameters and the caller's handler. */
  function Convert(params: Params, done: Option<nat>): (r: ProcessState)
    ensures Valid(r) && r.url.None? && r.events == [] && r.waitHandler.None?
    ensures r.wire == [Issued(0, Request(POST, ApiRoot + "/process", Some(CreateBody(params))))]
    ensures r.handlers == map[0 := CreateHandler(AfterCreate(params, done))]
  {
    Create(Initial(None), params, AfterCreate(params, done))
  }
}
