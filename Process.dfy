/** The `Process` class: the job controller with the fields the source updates
    in place.  Besides `url`, `data`, `currentRequest`, `refreshTimer` and
    `waitCompletionHandler` it holds what it has done to its surroundings: the
    requests issued and cancelled, the response handlers still waiting, the
    timers still scheduled, the files moved and removed, and the callbacks
    fired.  Every method is proved to take the object from one state to the
    state the matching function of `ProcessModel` prescribes. */
module Processes {
  import opened Wrappers
  import opened Values
  import opened Api
  import opened ProcessRules
  import opened ProcessModel

  class Process {
    var url: Option<string>
    var data: Value
    var currentRequest: Option<nat>
    var refreshTimer: Option<nat>
    var waitCompletionHandler: Option<Callback>

    var handlers: map<nat, Handler>
    var liveTimers: set<nat>
    var removed: set<FileUrl>
    var targets: seq<FileUrl>
    var wire: seq<Action>
    var events: seq<Event>
    var nextId: nat

    /** The abstract value of the object. */
    function State(): ProcessState
      reads this
    {
      ProcessState(url, data, currentRequest, refreshTimer, waitCompletionHandler,
                   handlers, liveTimers, removed, targets, wire, events, nextId)
    }

    constructor ()
      ensures State() == Initial(None)
    {
      url, data, currentRequest, refreshTimer, waitCompletionHandler := None, Dict(map[]), None, None, None;
      handlers, liveTimers, removed, targets, wire, events, nextId := map[], {}, {}, [], [], [], 0;
    }

    constructor WithUrl(url: string)
      ensures State() == Initial(Some(url))
    {
      this.url := Some(url);
      data, currentRequest, refreshTimer, waitCompletionHandler := Dict(map[]), None, None, None;
      handlers, liveTimers, removed, targets, wire, events, nextId := map[], {}, {}, [], [], [], 0;
    }

    method Issue(call: Call, handler: Option<Handler>) returns (id: nat)
      modifies this
      ensures id == old(nextId)
      ensures State() == IssueCall(old(State()), call, handler)
    {
      id := nextId;
      wire := wire + [Issued(id, call)];
      if handler.Some? {
        handlers := handlers[id := handler.value];
      }
      nextId := nextId + 1;
    }

    method InvalidateTimer()
      modifies this
      ensures State() == StopTimer(old(State()))
    {
      if refreshTimer.Some? {
        liveTimers := liveTimers - {refreshTimer.value};
      }
      refreshTimer := None;
    }

    /** Assignment to `data` with its observer. */
    method SetData(d: Value)
      modifies this
      ensures State() == ProcessModel.SetData(old(State()), d)
    {
      data := d;
      var u := AsString(Field(d, "url"));
      if u.Some? {
        url := u;
      }
    }

    method Notify(done: Option<nat>, path: Option<FileUrl>, err: Option<Error>)
      modifies this
      ensures State() == old(State()).(events := old(events) + ProcessModel.Notify(done, path, err))
    {
      if done.Some? {
        events := events + [Delivered(done.value, path, err)];
      }
    }

    method Invoke(cb: Callback, err: Option<Error>)
      modifies this
      decreases Rank(cb), 1
      ensures State() == ProcessModel.Invoke(old(State()), cb, err)
    {
      match cb
      case App(t) =>
        events := events + [Done(t, err)];
      case AfterCreate(params, done) =>
        if err.Some? {
          Notify(done, None, err);
        } else {
          Start(params, Some(AfterStart(params, done)));
        }
      case AfterStart(params, done) =>
        if err.Some? {
          Notify(done, None, err);
        } else {
          Wait(Some(AfterWait(params, done)));
        }
      case AfterWait(params, done) =>
        if err.Some? {
          Notify(done, None, err);
        } else {
          match ChooseDownload(params)
          case ToFile(path) => Download(Some(path), done);
          case ToDefault => Download(None, done);
          case NoDownload => Notify(done, None, None);
        }
    }

    method CallOpt(cb: Option<Callback>, err: Option<Error>)
      modifies this
      decreases RankOpt(cb), 2
      ensures State() == ProcessModel.CallOpt(old(State()), cb, err)
    {
      if cb.Some? {
        Invoke(cb.value, err);
      }
    }

    /** `create(parameters, completionHandler)` */
    method Create(params: Params, cb: Callback)
      modifies this
      ensures State() == ProcessModel.Create(old(State()), params, cb)
    {
      var body := params;
      body := body - {"file"};
      body := body - {"download"};
      assert body == CreateBody(params);
      var _ := Issue(Request(POST, Normalize("/process"), Some(body)), Some(CreateHandler(cb)));
    }

    method CompleteCreate(cb: Callback, result: Result<Value, Error>)
      modifies this
      ensures State() == ProcessModel.CompleteCreate(old(State()), cb, result)
    {
      match result
      case Err(e) =>
        Invoke(cb, Some(e));
      case Ok(v) =>
        var u := AsString(Field(v, "url"));
        if u.Some? {
          url := u;
          Invoke(cb, None);
        } else {
          Invoke(cb, Some(NoUrlInReply));
        }
    }

    /** `refresh(parameters, completionHandler)` */
    method Refresh(params: Option<Params>, cb: Option<Callback>)
      modifies this
      ensures State() == ProcessModel.Refresh(old(State()), params, cb)
    {
      if currentRequest.Some? {
        wire := wire + [Cancelled(currentRequest.value)];
      }
      if url.None? {
        CallOpt(cb, Some(NoProcessUrl));
        return;
      }
      var id := Issue(Request(GET, Normalize(url.value), params), Some(RefreshHandler(cb)));
      currentRequest := Some(id);
    }

    method CompleteRefresh(cb: Option<Callback>, result: Result<Value, Error>)
      modifies this
      ensures State() == ProcessModel.CompleteRefresh(old(State()), cb, result)
    {
      currentRequest := None;
      var err := ErrorOf(result);
      if result.Ok? {
        SetData(result.value);
        CallOpt(cb, None);
      } else {
        CallOpt(cb, err);
      }
      events := events + [StatusProgress(data)];
      if err.Some? || AsString(Field(data, "step")) == Some(FinishedStep) {
        InvalidateTimer();
        CallOpt(waitCompletionHandler, err);
        waitCompletionHandler := None;
        events := events + [ConversionCompleted(err)];
      }
    }

    /** `start(parameters, completionHandler)` */
    method Start(params: Params, cb: Option<Callback>)
      modifies this
      decreases RankOpt(cb), 3
      ensures State() == ProcessModel.Start(old(State()), params, cb)
    {
      if url.None? {
        CallOpt(cb, Some(NoProcessUrl));
        return;
      }
      var ps := params;
      ps := ps - {"download"};
      var file := AsUrl(Lookup(ps, "file"));
      var call;
      if file.Some? && AsString(Lookup(ps, "input")) == Some("upload") {
        ps := ps - {"file"};
        call := Upload(Normalize(url.value), ps, file.value);
      } else {
        if file.Some? {
          ps := ps["file" := Str(AbsoluteString(file.value))];
        }
        call := Request(POST, Normalize(url.value), Some(ps));
      }
      assert call == StartCall(url.value, params);
      var id := Issue(call, Some(StartHandler(cb)));
      currentRequest := Some(id);
    }

    method CompleteStart(cb: Option<Callback>, result: Result<Value, Error>)
      modifies this
      ensures State() == ProcessModel.CompleteStart(old(State()), cb, result)
    {
      currentRequest := None;
      match result
      case Err(e) =>
        CallOpt(cb, Some(e));
      case Ok(v) =>
        SetData(v);
        CallOpt(cb, None);
    }

    /** `download(downloadPath, completionHandler)` */
    method Download(path: Option<FileUrl>, done: Option<nat>)
      modifies this
      ensures State() == ProcessModel.Download(old(State()), path, done)
    {
      var output := OutputUrl(data);
      if output.Some? {
        var id := Issue(Fetch(Normalize(output.value)), Some(DownloadHandler(path, done)));
        currentRequest := Some(id);
      } else {
        Notify(done, None, Some(OutputUnavailable));
      }
    }

    method CompleteDownload(path: Option<FileUrl>, done: Option<nat>, landing: Option<Landing>, error: Option<Error>)
      modifies this
      ensures State() == ProcessModel.CompleteDownload(old(State()), path, done, landing, error)
    {
      var downloadPath := path;
      if landing.Some? {
        var placement := Destination(path, landing.value);
        removed := removed + placement.removed;
        targets := targets + [placement.target];
        downloadPath := placement.reported;
      }
      events := events + [Progress(Some(FinishedStep), Some(100.0), Some(FinishedMessage))];
      Notify(done, downloadPath, error);
      events := events + [FileDownloaded(downloadPath)];
    }

    /** `wait(completionHandler)` */
    method Wait(cb: Option<Callback>)
      modifies this
      ensures State() == ProcessModel.Wait(old(State()), cb)
    {
      waitCompletionHandler := cb;
      refreshTimer := Some(nextId);
      liveTimers := liveTimers + {nextId};
      nextId := nextId + 1;
    }

    /** `refreshTimerTick()`, run by a scheduled timer. */
    method RefreshTimerTick(t: nat)
      requires t in liveTimers
      modifies this
      ensures State() == Tick(old(State()), t)
    {
      Refresh(None, None);
    }

    /** `cancel()` */
    method Cancel()
      modifies this
      ensures State() == ProcessModel.Cancel(old(State()))
    {
      if currentRequest.Some? {
        wire := wire + [Cancelled(currentRequest.value)];
      }
      currentRequest := None;
      InvalidateTimer();
      if url.Some? {
        var _ := Issue(Request(DELETE, Normalize(url.value), None), None);
      }
    }

    /** The transport delivers the reply to request `id`. */
    method Deliver(id: nat, reply: Reply)
      requires id in handlers && Fits(handlers[id], reply)
      modifies this
      ensures State() == ProcessModel.Deliver(old(State()), id, reply)
    {
      var handler := handlers[id];
      handlers := handlers - {id};
      match handler
      case CreateHandler(cb) =>
        CompleteCreate(cb, Serialize(reply.error, reply.response, reply.parsed));
      case RefreshHandler(cb) =>
        CompleteRefresh(cb, Serialize(reply.error, reply.response, reply.parsed));
      case StartHandler(cb) =>
        CompleteStart(cb, Serialize(reply.error, reply.response, reply.parsed));
      case DownloadHandler(path, done) =>
        CompleteDownload(path, done, reply.landing, reply.error);
    }
  }

  /** `convert(parameters, progressHandler, completionHandler)`: a new process
      whose create request is on its way; the caller keeps it to cancel. */
  method Convert(params: Params, done: Option<nat>) returns (process: Process)
    ensures fresh(process)
    ensures process.State() == ProcessModel.Convert(params, done)
  {
    process := new Process();
    process.Create(params, AfterCreate(params, done));
  }
}
