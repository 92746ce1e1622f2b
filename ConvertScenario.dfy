/** The steps of a `convert` run, and one whole run of an upload conversion. */
module ConvertScenario {
  import opened Wrappers
  import opened Values
  import opened Api
  import opened ProcessRules
  import opened ProcessModel

  /** A 200 response with the given JSON body. */
  function Ok200(body: Value): Reply
  {
    ApiReply(None, Some(HttpResponse(200)), Ok(body))
  }

  /** A create reply carrying a string `url` sets it and sends the start request
      to that URL. */
  lemma CreateReplyStarts(s: ProcessState, id: nat, params: Params, done: Option<nat>, body: Value, u: string)
    requires id in s.handlers && s.handlers[id] == CreateHandler(AfterCreate(params, done))
    requires AsString(Field(body, "url")) == Some(u)
    ensures var r := Deliver(s, id, Ok200(body));
            && r.url == Some(u) && r.data == s.data
            && r.wire == s.wire + [Issued(s.nextId, StartCall(u, params))]
            && r.handlers == (s.handlers - {id})[s.nextId := StartHandler(Some(AfterStart(params, done)))]
            && r.currentRequest == Some(s.nextId)
            && r.events == s.events && r.liveTimers == s.liveTimers && r.nextId == s.nextId + 1
            && r.targets == s.targets
  {
    var s1 := s.(handlers := s.handlers - {id});
    assert Deliver(s, id, Ok200(body)) == CompleteCreate(s1, AfterCreate(params, done), Ok(body));
    assert CompleteCreate(s1, AfterCreate(params, done), Ok(body))
        == Start(s1.(url := Some(u)), params, Some(AfterStart(params, done)));
  }

  /** A successful start reply stores the data, taking its `url` when it has one,
      and installs the polling timer. */
  lemma StartReplyWaits(s: ProcessState, id: nat, params: Params, done: Option<nat>, body: Value)
    requires id in s.handlers && s.handlers[id] == StartHandler(Some(AfterStart(params, done)))
    ensures var r := Deliver(s, id, Ok200(body));
            && r.url == (if AsString(Field(body, "url")).Some? then AsString(Field(body, "url")) else s.url)
            && r.data == body
            && r.refreshTimer == Some(s.nextId) && r.liveTimers == s.liveTimers + {s.nextId}
            && r.waitHandler == Some(AfterWait(params, done))
            && r.currentRequest.None? && r.wire == s.wire && r.events == s.events
            && r.handlers == s.handlers - {id} && r.nextId == s.nextId + 1 && r.targets == s.targets
  {
    var s1 := s.(handlers := s.handlers - {id});
    assert Deliver(s, id, Ok200(body)) == CompleteStart(s1, Some(AfterStart(params, done)), Ok(body));
    var s2 := SetData(s1.(currentRequest := None), body);
    assert CompleteStart(s1, Some(AfterStart(params, done)), Ok(body)) == CallOpt(s2, Some(AfterStart(params, done)), None);
  }

  /** A "finished" poll reply with an output URL stops the timer and, for a
      conversion that asks for a download to the default place, starts it. */
  lemma FinishedReplyDownloads(s: ProcessState, id: nat, params: Params, done: Option<nat>, out: string)
    requires id in s.handlers && s.handlers[id] == RefreshHandler(None)
    requires s.waitHandler == Some(AfterWait(params, done)) && ChooseDownload(params) == ToDefault
    ensures var body := Dict(map["step" := Str(FinishedStep), "output" := Dict(map["url" := Str(out)])]);
            var r := Deliver(s, id, Ok200(body));
            && r.wire == s.wire + [Issued(s.nextId, Fetch(Normalize(out)))]
            && r.handlers == (s.handlers - {id})[s.nextId := DownloadHandler(None, done)]
            && r.liveTimers == s.liveTimers - TimerSet(s.refreshTimer) && r.refreshTimer.None?
            && r.waitHandler.None?
            && r.events == s.events + [StatusProgress(body), ConversionCompleted(None)]
            && r.nextId == s.nextId + 1 && r.targets == s.targets && r.currentRequest == Some(s.nextId)
  {
    var body := Dict(map["step" := Str(FinishedStep), "output" := Dict(map["url" := Str(out)])]);
    assert Field(body, "url") == None;
    assert AsString(Field(body, "step")) == Some(FinishedStep);
    assert OutputUrl(body) == Some(out);
    var s1 := s.(handlers := s.handlers - {id});
    assert Deliver(s, id, Ok200(body)) == CompleteRefresh(s1, None, Ok(body));
    var s3 := SetData(s1.(currentRequest := None), body);
    var s3' := s3.(events := s3.events + [StatusProgress(body)]);
    var s4 := StopTimer(s3');
    assert Invoke(s4, AfterWait(params, done), None) == Download(s4, None, done);
  }

  /** A tick with no request in flight polls the process URL. */
  lemma IdleTickPolls(s: ProcessState, t: nat)
    requires t in s.liveTimers && s.url.Some? && s.currentRequest.None?
    ensures var r := Tick(s, t);
            && r.wire == s.wire + [Issued(s.nextId, Request(GET, Normalize(s.url.value), None))]
            && r.handlers == s.handlers[s.nextId := RefreshHandler(None)]
            && r.currentRequest == Some(s.nextId) && r.nextId == s.nextId + 1
            && r.liveTimers == s.liveTimers && r.refreshTimer == s.refreshTimer
            && r.waitHandler == s.waitHandler && r.events == s.events && r.targets == s.targets
  {
    assert CancelActive(s) == [];
  }

  /** A download that lands with a Documents directory and no explicit path is
      saved there, and the caller's handler gets that path and no error. */
  lemma DownloadLands(s: ProcessState, id: nat, done: nat, tmp: FileUrl, name: string, docs: FileUrl)
    requires id in s.handlers && s.handlers[id] == DownloadHandler(None, Some(done))
    ensures var r := Deliver(s, id, FileReply(Some(Landing(tmp, name, Some(docs), {})), None));
            && r.targets == s.targets + [Appending(docs, name)]
            && r.events == s.events + [Progress(Some(FinishedStep), Some(100.0), Some(FinishedMessage)),
                                       Delivered(done, Some(Appending(docs, name)), None),
                                       FileDownloaded(Some(Appending(docs, name)))]
  {
    var landing := Landing(tmp, name, Some(docs), {});
    assert Deliver(s, id, FileReply(Some(landing), None))
        == CompleteDownload(s.(handlers := s.handlers - {id}), None, Some(done), Some(landing), None);
    assert ReportedPath(None, Some(landing)) == Some(Appending(docs, name));
  }

  function UploadParams(file: FileUrl): Params
  {
    map["inputformat" := Str("png"), "outputformat" := Str("pdf"), "input" := Str("upload"),
        "file" := Url(file), "download" := Number(1.0)]
  }

  function UploadQuery(): Params
  {
    map["inputformat" := Str("png"), "outputformat" := Str("pdf"), "input" := Str("upload")]
  }

  function FinishedBody(): Value
  {
    Dict(map["step" := Str(FinishedStep), "output" := Dict(map["url" := Str(OutputFileUrl)])])
  }

  const JobUrl := "//h/j"
  const OutputFileUrl := "//d/o"

  lemma UploadParamsPlan(file: FileUrl)
    ensures PlanStart(UploadParams(file)) == UploadFile(UploadQuery(), file)
    ensures ChooseDownload(UploadParams(file)) == ToDefault
  {
    var params := UploadParams(file);
    assert Lookup(params, "file") == Some(Url(file));
    assert Lookup(params, "input") == Some(Str("upload"));
    assert Lookup(params, "download") == Some(Number(1.0));
    assert params - {"file", "download"} == UploadQuery();
  }

  lemma ConcreteUrls()
    ensures Normalize(JobUrl) == "https://h/j"
    ensures Normalize(OutputFileUrl) == "https://d/o"
  {
    assert JobUrl[..2] == "//" && OutputFileUrl[..2] == "//";
  }

  /** An upload conversion with `download: true`, up to polling: the create reply
      sends the upload to the process URL, and the start reply schedules the
      polling timer. */
  lemma UploadIsStarted(file: FileUrl, done: nat) returns (s1: ProcessState, s2: ProcessState)
    ensures s1 == Deliver(Convert(UploadParams(file), Some(done)), 0, Ok200(Dict(map["url" := Str(JobUrl)])))
    ensures |s1.wire| == 2 && s1.wire[1] == Issued(1, Upload("https://h/j", UploadQuery(), file))
    ensures 1 in s1.handlers && Fits(s1.handlers[1], Ok200(Dict(map["step" := Str("convert")])))
    ensures s2 == Deliver(s1, 1, Ok200(Dict(map["step" := Str("convert")])))
    ensures s2.url == Some(JobUrl) && s2.currentRequest.None? && s2.handlers == map[]
    ensures s2.nextId == 3 && s2.liveTimers == {2} && s2.refreshTimer == Some(2) && |s2.wire| == 2
    ensures s2.waitHandler == Some(AfterWait(UploadParams(file), Some(done)))
    ensures s2.targets == [] && s2.events == []
  {
    var params := UploadParams(file);
    UploadParamsPlan(file);
    ConcreteUrls();
    var s0 := Convert(params, Some(done));
    assert s0.targets == [] && s0.nextId == 1;
    var b1 := Dict(map["url" := Str(JobUrl)]);
    assert AsString(Field(b1, "url")) == Some(JobUrl);
    CreateReplyStarts(s0, 0, params, Some(done), b1, JobUrl);
    s1 := Deliver(s0, 0, Ok200(b1));

    var b2 := Dict(map["step" := Str("convert")]);
    assert Field(b2, "url") == None;
    StartReplyWaits(s1, 1, params, Some(done), b2);
    s2 := Deliver(s1, 1, Ok200(b2));
  }

  /** The first tick of the polling timer polls the process URL. */
  lemma FirstTickPolls(s2: ProcessState) returns (s3: ProcessState)
    requires s2.url == Some(JobUrl) && s2.currentRequest.None? && s2.handlers == map[]
    requires s2.nextId == 3 && s2.liveTimers == {2} && |s2.wire| == 2
    ensures s3 == Tick(s2, 2)
    ensures |s3.wire| == 3 && s3.wire[2] == Issued(3, Request(GET, "https://h/j", None))
    ensures s3.handlers == map[3 := RefreshHandler(None)] && s3.nextId == 4
    ensures s3.waitHandler == s2.waitHandler && s3.targets == s2.targets && s3.events == s2.events
  {
    ConcreteUrls();
    IdleTickPolls(s2, 2);
    s3 := Tick(s2, 2);
  }

  /** The poll reply says "finished" with an output URL: the timer stops, the
      wait is resolved and the output is downloaded. */
  lemma FinishedStartsDownload(s3: ProcessState, file: FileUrl, done: nat) returns (s4: ProcessState)
    requires s3.handlers == map[3 := RefreshHandler(None)] && s3.nextId == 4 && |s3.wire| == 3
    requires s3.waitHandler == Some(AfterWait(UploadParams(file), Some(done)))
    ensures s4 == Deliver(s3, 3, Ok200(FinishedBody()))
    ensures s4.liveTimers == s3.liveTimers - TimerSet(s3.refreshTimer) && s4.waitHandler.None?
    ensures |s4.wire| == 4 && s4.wire[3] == Issued(4, Fetch("https://d/o"))
    ensures s4.handlers == map[4 := DownloadHandler(None, Some(done))]
    ensures s4.targets == s3.targets
    ensures s4.events == s3.events + [StatusProgress(FinishedBody()), ConversionCompleted(None)]
  {
    UploadParamsPlan(file);
    ConcreteUrls();
    FinishedReplyDownloads(s3, 3, UploadParams(file), Some(done), OutputFileUrl);
    s4 := Deliver(s3, 3, Ok200(FinishedBody()));
  }

  /** The output lands in the Documents directory, and the caller's handler gets
      that path and no error. */
  lemma OutputIsSaved(s4: ProcessState, docs: FileUrl, tmp: FileUrl, done: nat) returns (s5: ProcessState)
    requires s4.handlers == map[4 := DownloadHandler(None, Some(done))]
    ensures s5 == Deliver(s4, 4, FileReply(Some(Landing(tmp, "out.pdf", Some(docs), {})), None))
    ensures s5.targets == s4.targets + [Appending(docs, "out.pdf")]
    ensures s5.events == s4.events + [Progress(Some(FinishedStep), Some(100.0), Some(FinishedMessage)),
                                      Delivered(done, Some(Appending(docs, "out.pdf")), None),
                                      FileDownloaded(Some(Appending(docs, "out.pdf")))]
  {
    DownloadLands(s4, 4, done, tmp, "out.pdf", docs);
    s5 := Deliver(s4, 4, FileReply(Some(Landing(tmp, "out.pdf", Some(docs), {})), None));
  }
}
