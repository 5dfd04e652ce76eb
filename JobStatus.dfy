/** The job-status edge function: a read-only lookup of one job id, taken
    from the query string, in a job map. The module declares its own map,
    which starts empty and which nothing in it writes. */
module JobStatus {
  import opened Js
  import RV = ReactionVideo

  const MissingId := "jobId parameter required"

  /** The handler's request: its method, its decoded query parameters in
      order, and its JSON body, which the handler never reads. */
  datatype Request = Request(verb: string, query: seq<(string, string)>, body: Value)

  /** The response: the preflight answer, 400 with its `error` field,
      404 `{status: "not_found"}`, or 200 with the stored record. */
  datatype Reply = Preflight | Refused(status: int, error: string) | NotFound | Found(job: RV.Job) {
    function Code(): int {
      match this
      case Preflight => 200
      case Refused(status, _) => status
      case NotFound => 404
      case Found(_) => 200
    }
  }

  /** `url.searchParams.get(name)`: the first value given for `name`. */
  function QueryGet(query: seq<(string, string)>, name: string): (r: Option<string>)
    ensures r.Some? ==> exists i ::
      && 0 <= i < |query| && query[i] == (name, r.value)
      && (forall j :: 0 <= j < i ==> query[j].0 != name)
    ensures r.None? <==> forall i :: 0 <= i < |query| ==> query[i].0 != name
  {
    if query == [] then None
    else if query[0].0 == name then Some(query[0].1)
    else QueryGet(query[1..], name)
  }

  /** The handler, against the job map `jobs`. */
  function HandleStatus(jobs: map<string, RV.Job>, req: Request): (r: Reply)
    ensures req.verb == "OPTIONS" ==> r == Preflight
    ensures req.verb != "OPTIONS" && !Present(QueryGet(req.query, "jobId")) ==> r == Refused(400, MissingId)
    ensures r.NotFound? <==>
      req.verb != "OPTIONS" && Present(QueryGet(req.query, "jobId")) && QueryGet(req.query, "jobId").value !in jobs
    ensures r.Found? <==>
      req.verb != "OPTIONS" && Present(QueryGet(req.query, "jobId")) && QueryGet(req.query, "jobId").value in jobs
    ensures r.Found? ==> r.job == jobs[QueryGet(req.query, "jobId").value]
    ensures r.Code() == 404 <==> r.NotFound?
  {
    if req.verb == "OPTIONS" then Preflight
    else
      var id := QueryGet(req.query, "jobId");
      if !Present(id) then Refused(400, MissingId)
      else if id.value !in jobs then NotFound
      else Found(jobs[id.value])
  }

  /** The map this module declares. */
  const OwnJobs: map<string, RV.Job> := map[]

  /** With its own map, every lookup with an id answers 404. */
  lemma OwnMapNeverFinds(req: Request)
    requires req.verb != "OPTIONS" && Present(QueryGet(req.query, "jobId"))
    ensures HandleStatus(OwnJobs, req) == NotFound
  {
  }

  /** Against a map that the reaction-video service keeps lawfully, a found
      record always has one of the written shapes. */
  lemma FoundIsWellFormed(log: seq<RV.Write>, req: Request)
    requires RV.Lawful(log)
    ensures HandleStatus(RV.Replay(log), req).Found? ==> HandleStatus(RV.Replay(log), req).job.WellFormed()
  {
    RV.ReplayWellFormed(log);
  }

  /** The scenario of a job started and then watched, had the two functions
      shared one map. Processing writes `running` before the handler
      replies, so the first lookup never finds the job queued: it is
      running, or already failed when the line is not a string. After the
      model call settles the job is succeeded with a URL or failed with an
      error. */
  method StartThenWatch(body: Value, token: string, freshId: string, seedance: Invocation)
    returns (first: Reply, last: Reply)
    requires freshId != ""
    requires RV.InputValid(body) && token != ""
    ensures Get(body, "line").Str? ==> first == Found(RV.RunningJob)
    ensures !Get(body, "line").Str? ==> first == Found(RV.SanitizeFailed) && last == first
    ensures last.Found? && last.job.status.Terminal()
    ensures last.job.status == RV.Succeeded ==> last.job.videoUrl.Some?
    ensures last.job.status == RV.Failed ==> last.job.error.Some?
  {
    var service := new RV.VideoService();
    var request := RV.Request("POST", Json(body));
    var created := service.Serve(request, Some(token), freshId);
    var query := Request("GET", [("jobId", freshId)], Undefined);
    first := HandleStatus(service.jobs, query);
    var params := RV.Admit(request, Some(token)).params;
    if params.line.Str? {
      service.FinishProcessing(freshId, params, seedance);
    }
    last := HandleStatus(service.jobs, query);
  }
}
