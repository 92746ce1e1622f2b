/** The decisions a process takes from its parameters and from the file system:
    which keys the create and start requests carry, whether the input file is
    uploaded, whether `convert` downloads the output, and where a downloaded file
    is placed. */
module ProcessRules {
  import opened Wrappers
  import opened Values

  /** The body of the create request: the caller's parameters without the
      transfer-only keys `file` and `download`, every other key as given. */
  function CreateBody(params: Params): (body: Params)
    ensures body.Keys == params.Keys - {"file", "download"}
    ensures forall k :: k in body ==> body[k] == params[k]
  {
    params - {"file", "download"}
  }

  /** How `start` sends its parameters. */
  datatype StartPlan =
      /** multipart upload of `file`, the other parameters in the query string */
    | UploadFile(query: Params, file: FileUrl)
      /** a JSON body */
    | PostBody(body: Params)

  /** `start` never sends `download`; a file URL is uploaded when the input mode
      is "upload" and otherwise sent as its absolute string; everything else is
      passed on. */
  function PlanStart(params: Params): (plan: StartPlan)
    ensures plan.UploadFile? <==>
              AsUrl(Lookup(params, "file")).Some? && AsString(Lookup(params, "input")) == Some("upload")
    ensures plan.UploadFile? ==>
              && Some(plan.file) == AsUrl(Lookup(params, "file"))
              && plan.query.Keys == params.Keys - {"file", "download"}
              && forall k :: k in plan.query ==> plan.query[k] == params[k]
    ensures plan.PostBody? ==>
              && plan.body.Keys == params.Keys - {"download"}
              && forall k :: k in plan.body ==>
                   plan.body[k] == if k == "file" && AsUrl(Lookup(params, "file")).Some?
                                   then Str(AbsoluteString(AsUrl(Lookup(params, "file")).value))
                                   else params[k]
  {
    var ps := params - {"download"};
    var file := AsUrl(Lookup(ps, "file"));
    if file.Some? && AsString(Lookup(ps, "input")) == Some("upload") then
      UploadFile(ps - {"file"}, file.value)
    else if file.Some? then
      PostBody(ps["file" := Str(AbsoluteString(file.value))])
    else
      PostBody(ps)
  }

  /** What `convert` does once the conversion has finished. */
  datatype DownloadChoice =
    | ToFile(path: FileUrl)
    | ToDefault
    | NoDownload

  /** The `download` parameter of `convert`: a file URL is the download target; a
      string other than "false" or a true boolean asks for the default place;
      anything else, or no value, means no download. */
  function ChooseDownload(params: Params): (c: DownloadChoice)
    ensures c.ToFile? <==> AsUrl(Lookup(params, "download")).Some?
    ensures c.ToFile? ==> Some(c.path) == AsUrl(Lookup(params, "download"))
    ensures c.ToDefault? <==>
              || (AsString(Lookup(params, "download")).Some? && AsString(Lookup(params, "download")).value != "false")
              || AsBool(Lookup(params, "download")) == Some(true)
    ensures "download" !in params ==> c == NoDownload
  {
    var download := Lookup(params, "download");
    if AsUrl(download).Some? then ToFile(AsUrl(download).value)
    else if AsString(download).Some? && AsString(download).value != "false" then ToDefault
    else if AsBool(download).Some? && AsBool(download).value != false then ToDefault
    else NoDownload
  }

  /** What the file system and the transport know when a download has arrived. */
  datatype Landing = Landing(
    temporary: FileUrl,         // where the transport stored the bytes
    suggestedFilename: string,  // the response's suggested file name
    documents: Option<FileUrl>, // the user's Documents directory, if there is one
    existing: set<FileUrl>)     // the files present before the move

  /** Where the downloaded file goes, which file is deleted to make room for it,
      and the path the process reports to its completion handler. */
  datatype Placement = Placement(target: FileUrl, removed: set<FileUrl>, reported: Option<FileUrl>)

  /** The destination closure of `download`.  The requested path is used as it
      is; without one the file goes to Documents under its suggested name; without
      a Documents directory it stays at the temporary URL and no path is reported.
      A file is removed only at the target and only when it exists. */
  function Destination(requested: Option<FileUrl>, landing: Landing): (p: Placement)
    ensures requested.Some? ==> p.target == requested.value && p.reported == requested
    ensures requested.None? && landing.documents.Some? ==>
              p.target == Appending(landing.documents.value, landing.suggestedFilename) && p.reported == Some(p.target)
    ensures requested.None? && landing.documents.None? ==>
              p.target == landing.temporary && p.removed == {} && p.reported == None
    ensures p.removed <= {p.target} && p.removed <= landing.existing
    ensures p.reported.Some? ==> p.removed == {p.target} * landing.existing
    ensures p.reported.Some? ==> p.reported.value == p.target
  {
    // The directory branch of the source tests a flag that is still false at that
    // point, so it is never taken; an explicit path is always treated as a file.
    match requested
    case Some(path) =>
      Placement(path, {path} * landing.existing, Some(path))
    case None =>
      match landing.documents
      case Some(dir) =>
        var target := Appending(dir, landing.suggestedFilename);
        Placement(target, {target} * landing.existing, Some(target))
      case None =>
        Placement(landing.temporary, {}, None)
  }
}
