/** Properties of the job controller that span several steps. */
module ProcessProperties {
  import opened Wrappers
  import opened Values
  import opened Api
  import opened ProcessRules
  import opened ProcessModel

  const CancelledError := TransportError(NSURLErrorCancelled)

  /** A poll error ends the wait of a `convert` run: its handler gets no path
      and the error, before the delegate hears that the conversion completed. */
  lemma PollErrorReachesConvertHandler(s: ProcessState, e: Error, params: Params, done: nat)
    requires s.waitHandler == Some(AfterWait(params, Some(done)))
    ensures var r := CompleteRefresh(s, None, Err(e));
            && r.events == s.events + [StatusProgress(s.data), Delivered(done, None, Some(e)), ConversionCompleted(Some(e))]
            && r.waitHandler.None? && r.refreshTimer.None? && r.liveTimers == s.liveTimers - TimerSet(s.refreshTimer)
            && r.wire == s.wire && r.handlers == s.handlers && r.data == s.data
  {
    var s1 := ReportStatus(s, None, Err(e));
    assert s1.events == s.events + [StatusProgress(s.data)];
    assert ReportedOpt(s1.waitHandler, e) == [Delivered(done, None, Some(e))];
  }

  /** When polling ends without an error, the wait closure of `convert` acts on
      the `download` option: it fetches the output to the given file or to the
      default place, or, when no download is asked for, calls the handler with no
      path and no error; without an output URL in the data, the handler gets the
      "Output file not yet available!" error instead of a fetch. */
  lemma WaitClosureFollowsDownloadChoice(s: ProcessState, params: Params, done: nat)
    ensures var r := Invoke(s, AfterWait(params, Some(done)), None);
            && (ChooseDownload(params).NoDownload? ==>
                  r.events == s.events + [Delivered(done, None, None)] && r.wire == s.wire && r.handlers == s.handlers)
            && (!ChooseDownload(params).NoDownload? && OutputUrl(s.data).None? ==>
                  r.events == s.events + [Delivered(done, None, Some(OutputUnavailable))] && r.wire == s.wire)
            && (ChooseDownload(params).ToFile? && OutputUrl(s.data).Some? ==>
                  && r.wire == s.wire + [Issued(s.nextId, Fetch(Normalize(OutputUrl(s.data).value)))]
                  && r.handlers == s.handlers[s.nextId := DownloadHandler(Some(ChooseDownload(params).path), Some(done))]
                  && r.events == s.events)
            && (ChooseDownload(params).ToDefault? && OutputUrl(s.data).Some? ==>
                  && r.wire == s.wire + [Issued(s.nextId, Fetch(Normalize(OutputUrl(s.data).value)))]
                  && r.handlers == s.handlers[s.nextId := DownloadHandler(None, Some(done))]
                  && r.events == s.events)
  {
  }

  /** A "finished" poll reply ends the wait of a `convert` run: after the status
      progress, the stored wait closure acts on the `download` option, and only
      then does the delegate hear that the conversion completed. */
  lemma FinishedPollRunsWaitClosure(s: ProcessState, d: Value, params: Params, done: nat)
    requires s.waitHandler == Some(AfterWait(params, Some(done)))
    requires AsString(Field(d, "step")) == Some(FinishedStep)
    ensures var r := CompleteRefresh(s, None, Ok(d));
            && r.data == d && r.waitHandler.None? && r.refreshTimer.None?
            && r.liveTimers == s.liveTimers - TimerSet(s.refreshTimer)
            && (ChooseDownload(params).NoDownload? ==>
                  && r.events == s.events + [StatusProgress(d), Delivered(done, None, None), ConversionCompleted(None)]
                  && r.wire == s.wire && r.handlers == s.handlers && r.currentRequest.None?)
            && (!ChooseDownload(params).NoDownload? && OutputUrl(d).None? ==>
                  && r.events == s.events + [StatusProgress(d), Delivered(done, None, Some(OutputUnavailable)), ConversionCompleted(None)]
                  && r.wire == s.wire && r.handlers == s.handlers && r.currentRequest.None?)
            && (!ChooseDownload(params).NoDownload? && OutputUrl(d).Some? ==>
                  && r.wire == s.wire + [Issued(s.nextId, Fetch(Normalize(OutputUrl(d).value)))]
                  && r.handlers == s.handlers[s.nextId := DownloadHandler(
                       if ChooseDownload(params).ToFile? then Some(ChooseDownload(params).path) else None, Some(done))]
                  && r.currentRequest == Some(s.nextId)
                  && r.events == s.events + [StatusProgress(d), ConversionCompleted(None)])
  {
    var s1 := ReportStatus(s, None, Ok(d));
    assert s1.events == s.events + [StatusProgress(d)] && s1.currentRequest.None?;
    var s2 := StopTimer(s1);
    WaitClosureFollowsDownloadChoice(s2, params, done);
    assert CompleteRefresh(s, None, Ok(d)) == ResolveWait(s1, None);
  }

  /** A tick while a refresh is in flight cancels it and issues a new one, which
      becomes the current request; the old handler is still waiting. */
  lemma TickSupersedesRefresh(s: ProcessState, t: nat)
    requires t in s.liveTimers && s.url.Some? && s.currentRequest.Some?
    ensures var r := Tick(s, t);
            && r.wire == s.wire + [Cancelled(s.currentRequest.value),
                                   Issued(s.nextId, Request(GET, Normalize(s.url.value), None))]
            && r.handlers == s.handlers[s.nextId := RefreshHandler(None)]
            && r.currentRequest == Some(s.nextId)
            && r.events == s.events && r.data == s.data && r.waitHandler == s.waitHandler
            && r.refreshTimer == s.refreshTimer && r.liveTimers == s.liveTimers
  {
    assert Tick(s, t) == Refresh(s, None, None);
    assert CancelActive(s) == [Cancelled(s.currentRequest.value)];
  }

  /** The cancellation reply to a refresh ends the polling: it clears the current
      request, stops the timer and resolves `wait` with the error. */
  lemma CancelledRefreshReplyResolvesWait(s: ProcessState, id: nat, w: nat)
    requires id in s.handlers && s.handlers[id] == RefreshHandler(None) && s.waitHandler == Some(App(w))
    ensures var r := Deliver(s, id, ApiReply(Some(CancelledError), None, Ok(Null)));
            && r.handlers == s.handlers - {id} && r.currentRequest.None?
            && r.refreshTimer.None? && r.liveTimers == s.liveTimers - TimerSet(s.refreshTimer)
            && r.waitHandler.None?
            && r.events == s.events + [StatusProgress(s.data), Done(w, Some(CancelledError)), ConversionCompleted(Some(CancelledError))]
  {
    var s1 := s.(handlers := s.handlers - {id});
    assert Deliver(s, id, ApiReply(Some(CancelledError), None, Ok(Null)))
        == CompleteRefresh(s1, None, Err(CancelledError));
  }

  /** A refresh that is superseded by the next tick is cancelled, but its handler
      still runs with the cancellation error: it clears the current request
      although the newer refresh is still in flight, stops the timer, and
      resolves `wait` with that error. */
  lemma SupersededRefreshResolvesWait(s: ProcessState, w: nat, t: nat) returns (s1: ProcessState, s2: ProcessState)
    requires Valid(s) && s.url.Some?
    requires s.waitHandler == Some(App(w)) && s.refreshTimer == Some(t)
    requires s.currentRequest.Some? && s.currentRequest.value in s.handlers
    requires s.handlers[s.currentRequest.value] == RefreshHandler(None)
    ensures s1 == Tick(s, t)
    ensures |s1.wire| > |s.wire| && s1.wire[|s.wire|] == Cancelled(s.currentRequest.value)
    ensures s1.currentRequest == Some(s.nextId)
    ensures s.currentRequest.value in s1.handlers
    ensures s2 == Deliver(s1, s.currentRequest.value, ApiReply(Some(CancelledError), None, Ok(Null)))
    ensures s.nextId in s2.handlers && s2.currentRequest.None?
    ensures s2.refreshTimer.None? && t !in s2.liveTimers && s2.waitHandler.None?
    ensures s2.events == s.events + [StatusProgress(s.data), Done(w, Some(CancelledError)), ConversionCompleted(Some(CancelledError))]
  {
    var stale := s.currentRequest.value;
    TickSupersedesRefresh(s, t);
    s1 := Tick(s, t);
    assert stale < s.nextId;
    CancelledRefreshReplyResolvesWait(s1, stale, w);
    s2 := Deliver(s1, stale, ApiReply(Some(CancelledError), None, Ok(Null)));
  }



  /** Cancelling a start in flight does not silence it: the start callback still
      receives the cancellation error, although `cancel` itself reports nothing. */
  lemma CancelledStartReportsError(s: ProcessState, params: Params, w: nat)
    requires Valid(s) && s.url.Some?
    ensures var s1 := Cancel(Start(s, params, Some(App(w))));
            && s1.events == s.events
            && s.nextId in s1.handlers
            && Fits(s1.handlers[s.nextId], ApiReply(Some(CancelledError), None, Ok(Null)))
            && Deliver(s1, s.nextId, ApiReply(Some(CancelledError), None, Ok(Null))).events
               == s.events + [Done(w, Some(CancelledError))]
  {
    var s1 := Cancel(Start(s, params, Some(App(w))));
    assert s1.handlers[s.nextId] == StartHandler(Some(App(w)));
  }

  /** With only the refresh timer scheduled, `cancel` leaves no timer that could
      tick again. */
  lemma CancelStopsPolling(s: ProcessState)
    requires Valid(s) && s.liveTimers <= TimerSet(s.refreshTimer)
    ensures Cancel(s).liveTimers == {}
    ensures Cancel(s).refreshTimer.None? && Cancel(s).currentRequest.None?
  {
  }

  /** A second `wait` replaces the stored timer without invalidating the first,
      so the first keeps ticking after `cancel`. */
  lemma SecondWaitOutlivesCancel(s: ProcessState, first: Option<Callback>, second: Option<Callback>)
    requires Valid(s)
    ensures s.nextId in Cancel(Wait(Wait(s, first), second)).liveTimers
  {
  }

  /** Neither the create body nor any start request carries `download`; an
      uploaded file is not repeated among the query parameters. */
  lemma TransferKeysNeverSent(s: ProcessState, params: Params, cb: Option<Callback>)
    requires s.url.Some?
    ensures var call := Start(s, params, cb).wire[|s.wire|].call;
            && (call.Upload? ==> "download" !in call.query && "file" !in call.query)
            && (call.Request? ==> call.params.Some? && "download" !in call.params.value)
    ensures var call := Create(s, params, App(0)).wire[|s.wire|].call;
            call.Request? && call.params.Some? && "download" !in call.params.value && "file" !in call.params.value
  {
  }

  /** Every request on the wire has its own id, and the next request's id has not
      been used: a reply is routed to exactly one request. */
  lemma RequestIdsUnique(s: ProcessState)
    requires Valid(s)
    ensures forall i, j ::
              0 <= i < |s.wire| && 0 <= j < |s.wire| && s.wire[i].Issued? && s.wire[j].Issued? && s.wire[i].id == s.wire[j].id
              ==> i == j
    ensures forall i :: 0 <= i < |s.wire| && s.wire[i].Issued? ==> s.wire[i].id != s.nextId
  {
  }

  /** Whenever `download` reports a path, it is the destination chosen for the
      landed file, and the only file it removed was one already at that path.
      Whether the move there succeeded shows only in the reported error. */
  lemma DownloadReportsItsTarget(s: ProcessState, path: Option<FileUrl>, done: Option<nat>, landing: Landing, error: Option<Error>)
    ensures var r := CompleteDownload(s, path, done, Some(landing), error);
            && |r.targets| == |s.targets| + 1
            && (ReportedPath(path, Some(landing)).Some? ==> r.targets[|s.targets|] == ReportedPath(path, Some(landing)).value)
            && r.removed - s.removed <= {r.targets[|s.targets|]} * landing.existing
  {
  }
}
