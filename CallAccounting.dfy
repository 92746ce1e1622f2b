/** How often a completion handler is called.  Whatever the transport delivers,
    whenever the timers fire and whenever the application cancels, a party is
    called at most as often as it was owed: by the stored wait callback and by
    the closures of the requests still waiting for their reply.  In particular
    `convert` calls its handler at most once, and the callback given to `wait`
    fires at most once. */
module CallAccounting {
  import opened Wrappers
  import opened Values
  import opened Api
  import opened ProcessRules
  import opened ProcessModel

  /** A party that can be called back: an application callback of the `(error)`
      shape, or the `(path, error)` handler given to `convert`. */
  datatype Party = AppCallback(token: nat) | ConvertHandler(done: nat)

  predicate Calls(e: Event, p: Party)
  {
    match p
    case AppCallback(t) => e.Done? && e.token == t
    case ConvertHandler(d) => e.Delivered? && e.token == d
  }

  /** How many times `p` has been called. */
  function CallCount(events: seq<Event>, p: Party): nat
  {
    if events == [] then 0
    else CallCount(events[..|events| - 1], p) + (if Calls(events[|events| - 1], p) then 1 else 0)
  }

  function One(b: bool): nat
  {
    if b then 1 else 0
  }

  /** Whether running the closure can end in a call of `p`. */
  predicate Owes(cb: Callback, p: Party)
  {
    match p
    case AppCallback(t) => cb == App(t)
    case ConvertHandler(d) => !cb.App? && cb.done == Some(d)
  }

  predicate OwesOpt(cb: Option<Callback>, p: Party)
  {
    cb.Some? && Owes(cb.value, p)
  }

  /** Whether running the response handler can end in a call of `p`. */
  predicate HandlerOwes(h: Handler, p: Party)
  {
    match h
    case CreateHandler(cb) => Owes(cb, p)
    case RefreshHandler(cb) => OwesOpt(cb, p)
    case StartHandler(cb) => OwesOpt(cb, p)
    case DownloadHandler(_, done) => p.ConvertHandler? && done == Some(p.done)
  }

  /** The waiting requests whose handler can call `p`. */
  function Pending(handlers: map<nat, Handler>, p: Party): set<nat>
  {
    set id | id in handlers && HandlerOwes(handlers[id], p)
  }

  /** The calls `p` has had plus the calls it is still owed. */
  function Potential(s: ProcessState, p: Party): nat
  {
    CallCount(s.events, p) + One(OwesOpt(s.waitHandler, p)) + |Pending(s.handlers, p)|
  }

  // ---------------------------------------------------------------- counting

  lemma {:induction false} CallCountAppend(a: seq<Event>, b: seq<Event>, p: Party)
    ensures CallCount(a + b, p) == CallCount(a, p) + CallCount(b, p)
    decreases |b|
  {
    if b == [] {
      assert a + b == a;
    } else {
      CallCountAppend(a, b[..|b| - 1], p);
      assert (a + b)[..|a + b| - 1] == a + b[..|b| - 1];
    }
  }

  lemma CallCountSingle(e: Event, p: Party)
    ensures CallCount([e], p) == One(Calls(e, p))
  {
    assert [e][..0] == [];
  }

  lemma NotifyCount(done: Option<nat>, path: Option<FileUrl>, err: Option<Error>, p: Party)
    ensures CallCount(Notify(done, path, err), p) == One(p.ConvertHandler? && done == Some(p.done))
  {
    if done.Some? {
      CallCountSingle(Delivered(done.value, path, err), p);
    }
  }

  lemma ReportedOptCount(cb: Option<Callback>, e: Error, p: Party)
    ensures CallCount(ReportedOpt(cb, e), p) == One(OwesOpt(cb, p))
  {
    if cb.Some? {
      if cb.value.App? {
        CallCountSingle(Done(cb.value.token, Some(e)), p);
      } else {
        NotifyCount(cb.value.done, None, Some(e), p);
      }
    }
  }

  lemma SubsetCard(a: set<nat>, b: set<nat>)
    requires a <= b
    ensures |a| <= |b|
  {
    assert b == a + (b - a);
    assert a * (b - a) == {};
  }

  lemma PendingRemove(h: map<nat, Handler>, id: nat, p: Party)
    requires id in h
    ensures |Pending(h - {id}, p)| + One(HandlerOwes(h[id], p)) == |Pending(h, p)|
  {
    if HandlerOwes(h[id], p) {
      assert Pending(h - {id}, p) == Pending(h, p) - {id};
    } else {
      assert Pending(h - {id}, p) == Pending(h, p);
    }
  }

  lemma PendingAdd(h: map<nat, Handler>, k: nat, v: Handler, p: Party)
    ensures |Pending(h[k := v], p)| <= |Pending(h, p)| + One(HandlerOwes(v, p))
  {
    if HandlerOwes(v, p) {
      SubsetCard(Pending(h[k := v], p), Pending(h, p) + {k});
    } else {
      SubsetCard(Pending(h[k := v], p), Pending(h, p));
    }
  }

  /** Appending events, with handlers and wait callback unchanged, adds their calls. */
  lemma PotentialFrame(s: ProcessState, r: ProcessState, extra: seq<Event>, p: Party)
    requires r.events == s.events + extra && r.waitHandler == s.waitHandler && r.handlers == s.handlers
    ensures Potential(r, p) == Potential(s, p) + CallCount(extra, p)
  {
    CallCountAppend(s.events, extra, p);
  }

  // ---------------------------------------------------------------- one operation at a time

  lemma StartBudget(s: ProcessState, params: Params, cb: Option<Callback>, p: Party)
    ensures Potential(Start(s, params, cb), p) <= Potential(s, p) + One(OwesOpt(cb, p))
  {
    if s.url.None? {
      PotentialFrame(s, Start(s, params, cb), ReportedOpt(cb, NoProcessUrl), p);
      ReportedOptCount(cb, NoProcessUrl, p);
    } else {
      PendingAdd(s.handlers, s.nextId, StartHandler(cb), p);
    }
  }

  lemma DownloadBudget(s: ProcessState, path: Option<FileUrl>, done: Option<nat>, p: Party)
    ensures Potential(Download(s, path, done), p) <= Potential(s, p) + One(p.ConvertHandler? && done == Some(p.done))
  {
    if OutputUrl(s.data).None? {
      PotentialFrame(s, Download(s, path, done), Notify(done, None, Some(OutputUnavailable)), p);
      NotifyCount(done, None, Some(OutputUnavailable), p);
    } else {
      PendingAdd(s.handlers, s.nextId, DownloadHandler(path, done), p);
    }
  }

  /** Running a closure calls `p` at most once more than it was owed already, and
      only when the closure owes it. */
  lemma InvokeBudget(s: ProcessState, cb: Callback, err: Option<Error>, p: Party)
    ensures Potential(Invoke(s, cb, err), p) <= Potential(s, p) + One(Owes(cb, p))
  {
    var r := Invoke(s, cb, err);
    if err.Some? {
      PotentialFrame(s, r, Reported(cb, err.value), p);
      ReportedOptCount(Some(cb), err.value, p);
    } else {
      match cb
      case App(t) =>
        PotentialFrame(s, r, [Done(t, err)], p);
        CallCountSingle(Done(t, err), p);
      case AfterCreate(params, d) =>
        StartBudget(s, params, Some(AfterStart(params, d)), p);
      case AfterStart(params, d) =>
        assert r == Wait(s, Some(AfterWait(params, d)));
      case AfterWait(params, d) =>
        match ChooseDownload(params)
        case ToFile(path) => DownloadBudget(s, Some(path), d, p);
        case ToDefault => DownloadBudget(s, None, d, p);
        case NoDownload =>
          PotentialFrame(s, r, Notify(d, None, None), p);
          NotifyCount(d, None, None, p);
    }
  }

  lemma CallOptBudget(s: ProcessState, cb: Option<Callback>, err: Option<Error>, p: Party)
    ensures Potential(CallOpt(s, cb, err), p) <= Potential(s, p) + One(OwesOpt(cb, p))
  {
    if cb.Some? {
      InvokeBudget(s, cb.value, err, p);
    }
  }

  lemma CompleteCreateBudget(s: ProcessState, cb: Callback, result: Result<Value, Error>, p: Party)
    ensures Potential(CompleteCreate(s, cb, result), p) <= Potential(s, p) + One(Owes(cb, p))
  {
    match result
    case Err(e) => InvokeBudget(s, cb, Some(e), p);
    case Ok(v) =>
      match AsString(Field(v, "url"))
      case Some(u) => InvokeBudget(s.(url := Some(u)), cb, None, p);
      case None => InvokeBudget(s, cb, Some(NoUrlInReply), p);
  }

  lemma CompleteStartBudget(s: ProcessState, cb: Option<Callback>, result: Result<Value, Error>, p: Party)
    ensures Potential(CompleteStart(s, cb, result), p) <= Potential(s, p) + One(OwesOpt(cb, p))
  {
    var s1 := s.(currentRequest := None);
    match result
    case Err(e) => CallOptBudget(s1, cb, Some(e), p);
    case Ok(v) => CallOptBudget(SetData(s1, v), cb, None, p);
  }

  /** Ending the polling fires the stored wait callback, which is forgotten in the
      same step, so it adds no call that was not owed. */
  lemma ResolveWaitBudget(s: ProcessState, err: Option<Error>, p: Party)
    requires IsWaitCallback(s.waitHandler)
    ensures Potential(ResolveWait(s, err), p) <= Potential(s, p)
  {
    var s1 := StopTimer(s);
    var s2 := CallOpt(s1, s1.waitHandler, err);
    CallOptBudget(s1, s1.waitHandler, err, p);
    assert s2.waitHandler == s.waitHandler;
    CallCountAppend(s2.events, [ConversionCompleted(err)], p);
    CallCountSingle(ConversionCompleted(err), p);
  }

  lemma CompleteRefreshBudget(s: ProcessState, cb: Option<Callback>, result: Result<Value, Error>, p: Party)
    requires Valid(s)
    ensures Potential(CompleteRefresh(s, cb, result), p) <= Potential(s, p) + One(OwesOpt(cb, p))
  {
    var s2 := CompleteStart(s, cb, result);
    CompleteStartBudget(s, cb, result, p);
    var s3 := ReportStatus(s, cb, result);
    PotentialFrame(s2, s3, [StatusProgress(s2.data)], p);
    CallCountSingle(StatusProgress(s2.data), p);
    if Terminal(result) {
      ResolveWaitBudget(s3, ErrorOf(result), p);
    }
  }

  lemma CompleteDownloadBudget(s: ProcessState, path: Option<FileUrl>, done: Option<nat>,
                               landing: Option<Landing>, error: Option<Error>, p: Party)
    ensures Potential(CompleteDownload(s, path, done, landing, error), p)
              == Potential(s, p) + One(p.ConvertHandler? && done == Some(p.done))
  {
    var reported := ReportedPath(path, landing);
    var first := [Progress(Some(FinishedStep), Some(100.0), Some(FinishedMessage))];
    var last := [FileDownloaded(reported)];
    PotentialFrame(s, CompleteDownload(s, path, done, landing, error), first + Notify(done, reported, error) + last, p);
    CallCountAppend(first + Notify(done, reported, error), last, p);
    CallCountAppend(first, Notify(done, reported, error), p);
    CallCountSingle(first[0], p);
    CallCountSingle(last[0], p);
    NotifyCount(done, reported, error, p);
  }

  /** A reply runs its handler, which is then gone: no call beyond those owed. */
  lemma DeliverBudget(s: ProcessState, id: nat, reply: Reply, p: Party)
    requires Valid(s) && id in s.handlers && Fits(s.handlers[id], reply)
    ensures Potential(Deliver(s, id, reply), p) <= Potential(s, p)
  {
    var s1 := s.(handlers := s.handlers - {id});
    PendingRemove(s.handlers, id, p);
    assert Potential(s1, p) + One(HandlerOwes(s.handlers[id], p)) == Potential(s, p);
    match s.handlers[id]
    case CreateHandler(cb) =>
      CompleteCreateBudget(s1, cb, Serialize(reply.error, reply.response, reply.parsed), p);
    case RefreshHandler(cb) =>
      assert Valid(s1);
      CompleteRefreshBudget(s1, cb, Serialize(reply.error, reply.response, reply.parsed), p);
    case StartHandler(cb) =>
      CompleteStartBudget(s1, cb, Serialize(reply.error, reply.response, reply.parsed), p);
    case DownloadHandler(path, done) =>
      CompleteDownloadBudget(s1, path, done, reply.landing, reply.error, p);
  }

  lemma TickBudget(s: ProcessState, t: nat, p: Party)
    requires t in s.liveTimers
    ensures Potential(Tick(s, t), p) <= Potential(s, p)
  {
    assert Tick(s, t) == Refresh(s, None, None);
    if s.url.Some? {
      PendingAdd(s.handlers, s.nextId, RefreshHandler(None), p);
    } else {
      assert Tick(s, t).events == s.events;
    }
  }

  // ---------------------------------------------------------------- traces

  /** What can happen to a process once it exists: a scheduled timer fires, the
      application cancels, or the reply to a waiting request arrives.  A step
      that cannot happen in a state (a timer not scheduled, a request no longer
      waiting, a reply of the wrong kind) leaves the state as it is. */
  datatype Step = TimerFires(timer: nat) | AppCancels | ReplyArrives(id: nat, reply: Reply)

  function Apply(s: ProcessState, step: Step): ProcessState
  {
    match step
    case TimerFires(t) => if t in s.liveTimers then Tick(s, t) else s
    case AppCancels => Cancel(s)
    case ReplyArrives(id, reply) =>
      if id in s.handlers && Fits(s.handlers[id], reply) then Deliver(s, id, reply) else s
  }

  function Run(s: ProcessState, steps: seq<Step>): ProcessState
    decreases |steps|
  {
    if steps == [] then s else Run(Apply(s, steps[0]), steps[1..])
  }

  lemma StepBudget(s: ProcessState, step: Step, p: Party)
    requires Valid(s)
    ensures Valid(Apply(s, step)) && Potential(Apply(s, step), p) <= Potential(s, p)
  {
    match step
    case TimerFires(t) =>
      if t in s.liveTimers {
        TickBudget(s, t, p);
      }
    case AppCancels =>
      PotentialFrame(s, Cancel(s), [], p);
      assert s.events + [] == s.events;
    case ReplyArrives(id, reply) =>
      if id in s.handlers && Fits(s.handlers[id], reply) {
        DeliverBudget(s, id, reply, p);
      }
  }

  /** Over any trace, the calls a party has had plus those it is owed never grow. */
  lemma {:induction false} RunBudget(s: ProcessState, steps: seq<Step>, p: Party)
    requires Valid(s)
    ensures Valid(Run(s, steps)) && Potential(Run(s, steps), p) <= Potential(s, p)
    decreases |steps|
  {
    if steps != [] {
      StepBudget(s, steps[0], p);
      RunBudget(Apply(s, steps[0]), steps[1..], p);
    }
  }

  // ---------------------------------------------------------------- consequences

  /** Whatever replies arrive, whenever the timers fire and whether or not the
      application cancels, `convert` calls its completion handler at most once. */
  lemma ConvertCallsHandlerAtMostOnce(params: Params, done: nat, steps: seq<Step>)
    ensures CallCount(Run(Convert(params, Some(done)), steps).events, ConvertHandler(done)) <= 1
  {
    var s := Convert(params, Some(done));
    RunBudget(s, steps, ConvertHandler(done));
    assert Pending(s.handlers, ConvertHandler(done)) == {0};
  }

  /** The callback given to `wait` is called at most once, whatever follows, when
      no waiting request can call it as well; once the wait is resolved it is
      never called again. */
  lemma WaitCallbackFiresAtMostOnce(s: ProcessState, token: nat, steps: seq<Step>)
    requires Valid(s) && Pending(s.handlers, AppCallback(token)) == {}
    ensures CallCount(Run(s, steps).events, AppCallback(token))
              <= CallCount(s.events, AppCallback(token)) + One(s.waitHandler == Some(App(token)))
  {
    RunBudget(s, steps, AppCallback(token));
  }
}
