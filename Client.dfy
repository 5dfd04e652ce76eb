/** The mirror page of the web client: what a capture does to the page's
    state, and the loop that polls the job-status function for the reaction
    clip. Calls to edge functions are recorded in a log; what each call
    answered is a parameter. */
module Client {
  import opened Js
  import RV = ReactionVideo
  import JS = JobStatus

  /** The most status queries one clip waits for. */
  const MaxAttempts := 30
  /** The wait before each status query, in milliseconds. */
  const PollIntervalMs := 2000

  datatype Toast = Toast(title: string, description: string)

  const ReflectFailed := Toast("Oops!", "Something went wrong. Try again?")
  const CaptureFailed := Toast("Error", "Failed to process image. Please try again.")
  const ClipFailed := Toast("Video generation failed", "Could not generate reaction clip")

  /** A step the page takes towards the outside world: invoking one of the
      edge functions (reflect, text-to-speech, reaction-video, job-status)
      with the values its JSON body carries, or waiting. */
  datatype Call =
    | InvokeReflect(image: string, intensity: int, tone: string)
    | InvokeSpeech(text: Value)
    | InvokeReactionVideo(image: string, line: Value, mood: Value, mode: string)
    | InvokeJobStatus(jobId: Value)
    | Sleep(ms: int)

  /** What invoking the reflect function gave: an error, a thrown
      exception, or data. */
  datatype ReflectOutcome = ReflectError | ReflectThrew | ReflectData(data: Value)

  /** What invoking the reaction-video function gave: an error (returned or
      thrown; both end the same way), or data. */
  datatype JobOutcome = JobError | JobData(data: Value)

  /** What one status query gave: an error, a thrown exception, or data,
      of which the page reads the fields `status` and `videoUrl`. */
  datatype PollOutcome = PollError | PollThrew | Polled(status: Value, videoUrl: Value)

  /** The data of a status query as the page reads it. */
  function ReadStatus(data: Value): PollOutcome {
    Polled(Get(data, "status"), Get(data, "videoUrl"))
  }

  /** The pipeline the page asks for; the reaction-video function ignores it. */
  const VideoMode := "seedance"

  /** The body of the job request. */
  function VideoBody(image: string, line: Value, mood: Value): Value {
    Obj(map["imageBase64" := Str(image), "line" := line, "mood" := mood, "mode" := Str(VideoMode)])
  }

  /** The body of a status query. */
  function StatusBody(jobId: Value): Value {
    Obj(map["jobId" := jobId])
  }

  /** The id to poll for: job creation succeeded and gave a truthy `jobId`. */
  function JobIdOf(job: JobOutcome): (id: Option<Value>)
    ensures id.Some? <==> job.JobData? && Truthy(Get(job.data, "jobId"))
    ensures id.Some? ==> Truthy(id.value) && id.value == Get(job.data, "jobId")
  {
    if job.JobData? && Truthy(Get(job.data, "jobId")) then Some(Get(job.data, "jobId")) else None
  }

  /** A status record announcing a clip: succeeded, with a truthy URL. */
  predicate Delivered(p: PollOutcome) {
    p.Polled? && p.status == Str("succeeded") && Truthy(p.videoUrl)
  }

  /** A status record announcing failure. */
  predicate FailedStatus(p: PollOutcome) {
    p.Polled? && p.status == Str("failed")
  }

  /** The outcomes after which the loop does not query again. */
  predicate Stops(p: PollOutcome) {
    p.PollThrew? || Delivered(p) || FailedStatus(p)
  }

  /** The index of the first stopping outcome at or after `from`, or
      `|polls|` when none stops. */
  function FirstStop(polls: seq<PollOutcome>, from: nat): (k: nat)
    requires from <= |polls|
    ensures from <= k <= |polls|
    ensures forall i :: from <= i < k ==> !Stops(polls[i])
    ensures k < |polls| ==> Stops(polls[k])
    decreases |polls| - from
  {
    if from == |polls| then from
    else if Stops(polls[from]) then from
    else FirstStop(polls, from + 1)
  }

  /** How the loop ends. */
  datatype PollEnd = GotClip(url: Value) | GotFailure | Aborted | Exhausted

  function EndOf(polls: seq<PollOutcome>): PollEnd {
    var k := FirstStop(polls, 0);
    if k == |polls| then Exhausted
    else if Delivered(polls[k]) then GotClip(polls[k].videoUrl)
    else if polls[k].Polled? then GotFailure
    else Aborted
  }

  /** The number of status queries the loop issues. */
  function Attempts(polls: seq<PollOutcome>): nat {
    var k := FirstStop(polls, 0);
    if k < |polls| then k + 1 else |polls|
  }

  /** The loop runs out exactly when no outcome stops it; otherwise it ends
      at the first stopping outcome, having queried up to and including it,
      with a truthy URL when that outcome delivered a clip. */
  lemma EndOfMeaning(polls: seq<PollOutcome>)
    ensures EndOf(polls) == Exhausted <==> forall i :: 0 <= i < |polls| ==> !Stops(polls[i])
    ensures EndOf(polls) == Exhausted <==> Attempts(polls) == |polls| && (|polls| == 0 || !Stops(polls[|polls| - 1]))
    ensures EndOf(polls) != Exhausted ==>
      && 0 < Attempts(polls) <= |polls|
      && Stops(polls[Attempts(polls) - 1])
      && (forall i :: 0 <= i < Attempts(polls) - 1 ==> !Stops(polls[i]))
      && (EndOf(polls).GotClip? <==> Delivered(polls[Attempts(polls) - 1]))
      && (EndOf(polls) == Aborted <==> polls[Attempts(polls) - 1].PollThrew?)
    ensures EndOf(polls).GotClip? ==> Truthy(EndOf(polls).url)
  {
  }

  /** The loop ends at attempt `i` when that is the first stopping outcome. */
  lemma EndsAt(polls: seq<PollOutcome>, i: nat)
    requires i < |polls| && Stops(polls[i])
    requires forall j :: 0 <= j < i ==> !Stops(polls[j])
    ensures FirstStop(polls, 0) == i && Attempts(polls) == i + 1
    ensures EndOf(polls) == (if polls[i].PollThrew? then Aborted
                             else if Delivered(polls[i]) then GotClip(polls[i].videoUrl)
                             else GotFailure)
  {
  }

  /** The loop runs out when no outcome stops it. */
  lemma NeverEnds(polls: seq<PollOutcome>)
    requires forall j :: 0 <= j < |polls| ==> !Stops(polls[j])
    ensures FirstStop(polls, 0) == |polls| && Attempts(polls) == |polls| && EndOf(polls) == Exhausted
  {
  }

  /** The calls of `n` attempts: each status query preceded by its wait. */
  function PollCalls(jobId: Value, n: nat): seq<Call> {
    if n == 0 then [] else PollCalls(jobId, n - 1) + [Sleep(PollIntervalMs), InvokeJobStatus(jobId)]
  }

  /** Attempt `i` waits `PollIntervalMs` and then queries the status of
      `jobId`, and `n` attempts make nothing else. */
  lemma {:induction false} PollCallsShape(jobId: Value, n: nat)
    ensures |PollCalls(jobId, n)| == 2 * n
    ensures forall i :: 0 <= i < n ==> PollCalls(jobId, n)[2 * i] == Sleep(PollIntervalMs)
    ensures forall i :: 0 <= i < n ==> PollCalls(jobId, n)[2 * i + 1] == InvokeJobStatus(jobId)
  {
    if n > 0 {
      PollCallsShape(jobId, n - 1);
    }
  }

  /** The number of status queries in a call log. */
  function Queries(calls: seq<Call>): nat {
    if calls == [] then 0
    else (if calls[0].InvokeJobStatus? then 1 else 0) + Queries(calls[1..])
  }

  lemma {:induction false} QueriesConcat(a: seq<Call>, b: seq<Call>)
    ensures Queries(a + b) == Queries(a) + Queries(b)
  {
    if a == [] {
      assert a + b == b;
    } else {
      assert (a + b)[1..] == a[1..] + b;
      QueriesConcat(a[1..], b);
    }
  }

  /** `n` attempts issue exactly `n` status queries. */
  lemma {:induction false} PollCallsQueries(jobId: Value, n: nat)
    ensures Queries(PollCalls(jobId, n)) == n
  {
    if n > 0 {
      var tail := [Sleep(PollIntervalMs), InvokeJobStatus(jobId)];
      assert Queries(tail) == 1 by {
        assert tail[1..][1..] == [];
        assert Queries(tail[1..]) == 1;
      }
      PollCallsQueries(jobId, n - 1);
      QueriesConcat(PollCalls(jobId, n - 1), tail);
    }
  }

  /** The status queries and waits of video generation after the job
      request: none without a job id, the loop's otherwise. */
  function PollsMade(job: JobOutcome, polls: seq<PollOutcome>): seq<Call> {
    if JobIdOf(job).Some? then PollCalls(JobIdOf(job).value, Attempts(polls)) else []
  }

  /** The clip URL after video generation, `before` unless a clip arrived. */
  function ClipUrl(job: JobOutcome, polls: seq<PollOutcome>, before: Value): Value {
    if JobIdOf(job).Some? && EndOf(polls).GotClip? then EndOf(polls).url else before
  }

  /** The toasts video generation shows: one on a failed job, else none. */
  function ClipToasts(job: JobOutcome, polls: seq<PollOutcome>): seq<Toast> {
    if JobIdOf(job).Some? && EndOf(polls) == GotFailure then [ClipFailed] else []
  }

  /** Video generation leaves the clip pending: a job was created, no query
      stopped the loop and the timeout reset saw a false flag. */
  predicate StillPending(job: JobOutcome, polls: seq<PollOutcome>, rendered: bool) {
    JobIdOf(job).Some? && EndOf(polls) == Exhausted && !rendered
  }

  /** However the queries are answered, video generation queries at most
      `MaxAttempts` times, and never without a job id. */
  lemma QueriesBounded(job: JobOutcome, polls: seq<PollOutcome>)
    requires |polls| == MaxAttempts
    ensures Queries(PollsMade(job, polls)) <= MaxAttempts
    ensures JobIdOf(job).None? ==> Queries(PollsMade(job, polls)) == 0
  {
    if JobIdOf(job).Some? {
      PollCallsQueries(JobIdOf(job).value, Attempts(polls));
    }
  }

  /** Pending survives only an exhausted loop; a clip, a failure or a thrown
      query each end it, and a URL is kept only from a clip. */
  lemma PendingEndsOnStop(job: JobOutcome, polls: seq<PollOutcome>, rendered: bool)
    ensures StillPending(job, polls, rendered) ==> forall i :: 0 <= i < |polls| ==> !Stops(polls[i])
    ensures ClipUrl(job, polls, Null) != Null ==> Truthy(ClipUrl(job, polls, Null)) && !StillPending(job, polls, rendered)
    ensures ClipToasts(job, polls) != [] ==> !StillPending(job, polls, rendered) && ClipUrl(job, polls, Null) == Null
  {
  }

  class MirrorPage {
    var message: Value
    var mood: Value
    var isProcessing: bool
    var intensity: int
    var tone: string
    var isVideoPending: bool
    var reactionUrl: Value
    var audioUrl: Value
    /** The toasts shown, oldest first. */
    var toasts: seq<Toast>
    /** The calls made, oldest first. */
    var calls: seq<Call>

    /** The page as first rendered. */
    constructor ()
      ensures message == Null && mood == Str("neutral") && !isProcessing
      ensures intensity == 1 && tone == "coach"
      ensures !isVideoPending && reactionUrl == Null && audioUrl == Null
      ensures toasts == [] && calls == []
    {
      message := Null;
      mood := Str("neutral");
      isProcessing := false;
      intensity := 1;
      tone := "coach";
      isVideoPending := false;
      reactionUrl := Null;
      audioUrl := Null;
      toasts := [];
      calls := [];
    }

    /** The resets a capture performs before it invokes reflect. */
    method BeginCapture()
      modifies this`isProcessing, this`message, this`reactionUrl, this`audioUrl, this`isVideoPending
      ensures isProcessing && message == Null && reactionUrl == Null && audioUrl == Null && !isVideoPending
    {
      isProcessing := true;
      message := Null;
      reactionUrl := Null;
      audioUrl := Null;
      isVideoPending := false;
    }

    /** The synchronous start of video generation: the clip is pending and
        the reaction-video function is invoked. */
    method BeginVideoGeneration(image: string, line: Value, mood: Value)
      modifies this`isVideoPending, this`calls
      ensures isVideoPending
      ensures calls == old(calls) + [InvokeReactionVideo(image, line, mood, VideoMode)]
    {
      isVideoPending := true;
      calls := calls + [InvokeReactionVideo(image, line, mood, VideoMode)];
    }

    /** One attempt of the poll loop: the wait, the status query, and what
        its outcome does to the page; `stop` says the loop ends here. */
    method PollOnce(jobId: Value, outcome: PollOutcome) returns (stop: bool)
      modifies this`isVideoPending, this`reactionUrl, this`toasts, this`calls
      ensures stop == Stops(outcome)
      ensures calls == old(calls) + [Sleep(PollIntervalMs), InvokeJobStatus(jobId)]
      ensures reactionUrl == (if Delivered(outcome) then outcome.videoUrl else old(reactionUrl))
      ensures toasts == old(toasts) + (if FailedStatus(outcome) then [ClipFailed] else [])
      ensures isVideoPending == (old(isVideoPending) && !stop)
    {
      calls := calls + [Sleep(PollIntervalMs), InvokeJobStatus(jobId)];
      match outcome {
        case PollThrew =>
          isVideoPending := false;
          return true;
        case PollError =>
          return false;
        case Polled(status, videoUrl) =>
          if status == Str("succeeded") && Truthy(videoUrl) {
            reactionUrl := videoUrl;
            isVideoPending := false;
            return true;
          }
          if status == Str("failed") {
            isVideoPending := false;
            toasts := toasts + [ClipFailed];
            return true;
          }
          return false;
      }
    }

    /** The poll loop: up to `MaxAttempts` waits and status queries, ending
        at the first clip, the first failure or the first thrown query.
        `rendered` is the pending flag as the capture's render saw it, which
        the timeout reset after the loop tests; a thrown query skips it. */
    method PollJob(jobId: Value, polls: seq<PollOutcome>, rendered: bool) returns (attempts: nat)
      requires |polls| == MaxAttempts
      modifies this`isVideoPending, this`reactionUrl, this`toasts, this`calls
      ensures attempts == Attempts(polls)
      ensures calls == old(calls) + PollCalls(jobId, attempts)
      ensures reactionUrl == (if EndOf(polls).GotClip? then EndOf(polls).url else old(reactionUrl))
      ensures toasts == old(toasts) + (if EndOf(polls) == GotFailure then [ClipFailed] else [])
      ensures isVideoPending == (EndOf(polls) == Exhausted && !rendered && old(isVideoPending))
    {
      attempts := MaxAttempts;
      ghost var stopped := false;
      for i := 0 to MaxAttempts
        invariant forall j :: 0 <= j < i ==> !Stops(polls[j])
        invariant calls == old(calls) + PollCalls(jobId, i)
        invariant reactionUrl == old(reactionUrl) && toasts == old(toasts)
        invariant isVideoPending == old(isVideoPending)
      {
        var stop := PollOnce(jobId, polls[i]);
        assert calls == old(calls) + PollCalls(jobId, i + 1) by {
          assert PollCalls(jobId, i + 1) == PollCalls(jobId, i) + [Sleep(PollIntervalMs), InvokeJobStatus(jobId)];
        }
        if stop {
          EndsAt(polls, i);
          attempts := i + 1;
          if polls[i].PollThrew? {
            return;
          }
          stopped := true;
          break;
        }
      }
      if !stopped {
        NeverEnds(polls);
      }
      if rendered {
        isVideoPending := false;
      }
    }

    /** The rest of video generation, once the reaction-video call has
        answered: without a job id the clip stops pending and nothing is
        queried; with one, the poll loop runs. */
    method AwaitVideoJob(job: JobOutcome, polls: seq<PollOutcome>, rendered: bool)
      requires |polls| == MaxAttempts
      modifies this`isVideoPending, this`reactionUrl, this`toasts, this`calls
      ensures calls == old(calls) + PollsMade(job, polls)
      ensures reactionUrl == ClipUrl(job, polls, old(reactionUrl))
      ensures toasts == old(toasts) + ClipToasts(job, polls)
      ensures isVideoPending == (StillPending(job, polls, rendered) && old(isVideoPending))
    {
      match job
      case JobError =>
        isVideoPending := false;
      case JobData(data) =>
        if !Truthy(Get(data, "jobId")) {
          isVideoPending := false;
        } else {
          var attempts := PollJob(Get(data, "jobId"), polls, rendered);
        }
    }

    /** What a capture does with the data reflect returned: show its message
        and mood, ask for speech, and generate the clip; processing ends
        once the reaction-video call is made. */
    method ShowReflection(image: string, data: Value, job: JobOutcome, polls: seq<PollOutcome>, rendered: bool)
      requires |polls| == MaxAttempts
      requires isVideoPending == false
      modifies this`message, this`mood, this`calls, this`isVideoPending, this`isProcessing, this`reactionUrl, this`toasts
      ensures message == Get(data, "message") && mood == Get(data, "mood") && !isProcessing
      ensures calls == old(calls)
        + [ InvokeSpeech(message),
            InvokeReactionVideo(image, message, mood, VideoMode) ]
        + PollsMade(job, polls)
      ensures reactionUrl == ClipUrl(job, polls, old(reactionUrl))
      ensures toasts == old(toasts) + ClipToasts(job, polls)
      ensures isVideoPending == StillPending(job, polls, rendered)
    {
      message := Get(data, "message");
      mood := Get(data, "mood");
      calls := calls + [InvokeSpeech(message)];
      BeginVideoGeneration(image, message, mood);
      isProcessing := false;
      AwaitVideoJob(job, polls, rendered);
    }

    /** A capture: the resets, the reflect call and, when it gives data, the
        speech call, the start of video generation, the end of processing
        and the rest of video generation. */
    method HandleCapture(image: string, reflect: ReflectOutcome, job: JobOutcome, polls: seq<PollOutcome>)
      requires |polls| == MaxAttempts
      modifies this
      ensures !isProcessing && audioUrl == Null
      ensures intensity == old(intensity) && tone == old(tone)
      ensures !(reflect.ReflectData? && Truthy(reflect.data)) ==>
        && calls == old(calls) + [InvokeReflect(image, intensity, tone)]
        && message == Null && mood == old(mood) && reactionUrl == Null && !isVideoPending
      ensures reflect.ReflectError? ==> toasts == old(toasts) + [ReflectFailed]
      ensures reflect.ReflectThrew? ==> toasts == old(toasts) + [CaptureFailed]
      ensures reflect.ReflectData? && !Truthy(reflect.data) ==> toasts == old(toasts)
      ensures reflect.ReflectData? && Truthy(reflect.data) ==>
        && message == Get(reflect.data, "message") && mood == Get(reflect.data, "mood")
        && calls == old(calls)
           + [ InvokeReflect(image, intensity, tone),
               InvokeSpeech(message),
               InvokeReactionVideo(image, message, mood, VideoMode) ]
           + PollsMade(job, polls)
        && reactionUrl == ClipUrl(job, polls, Null)
        && toasts == old(toasts) + ClipToasts(job, polls)
        && isVideoPending == StillPending(job, polls, old(isVideoPending))
    {
      var rendered := isVideoPending;
      BeginCapture();
      calls := calls + [InvokeReflect(image, intensity, tone)];
      match reflect {
        case ReflectError =>
          toasts := toasts + [ReflectFailed];
        case ReflectThrew =>
          toasts := toasts + [CaptureFailed];
        case ReflectData(data) =>
          if Truthy(data) {
            ShowReflection(image, data, job, polls, rendered);
          }
      }
      isProcessing := false;
    }
  }

  /** What the page receives for a status reply: a reply outside the 2xx
      range becomes an error, any other its JSON body. */
  function Observe(reply: JS.Reply): (p: PollOutcome)
    ensures p.PollError? <==> !(200 <= reply.Code() < 300)
    ensures reply.Found? ==> p == ReadStatus(JobJson(reply.job))
  {
    match reply
    case Preflight => ReadStatus(Null)
    case Refused(status, error) =>
      if 200 <= status < 300 then ReadStatus(Obj(map["error" := Str(error)])) else PollError
    case NotFound => PollError
    case Found(job) => ReadStatus(JobJson(job))
  }

  function StatusText(s: RV.Status): string {
    match s
    case Queued => "queued"
    case Running => "running"
    case Succeeded => "succeeded"
    case Failed => "failed"
  }

  /** A job record as `JSON.stringify` writes it: absent fields are omitted. */
  function JobJson(job: RV.Job): (v: Value)
    ensures Delivered(ReadStatus(v)) <==> job.status == RV.Succeeded && job.videoUrl.Some? && job.videoUrl.value != ""
    ensures FailedStatus(ReadStatus(v)) <==> job.status == RV.Failed
  {
    var status := map["status" := Str(StatusText(job.status))];
    var url := if job.videoUrl.Some? then map["videoUrl" := Str(job.videoUrl.value)] else map[];
    var error := if job.error.Some? then map["error" := Str(job.error.value)] else map[];
    Obj(status + url + error)
  }

  /** A terminal record a status query delivers ends the loop, unless it
      is a success without a usable URL. */
  lemma TerminalRecordStops(job: RV.Job)
    requires job.WellFormed() && job.status.Terminal()
    ensures Stops(Observe(JS.Found(job))) <==> !(job.status == RV.Succeeded && job.videoUrl.value == "")
  {
  }

  /** The status query the page sends: its id travels in the body, and the
      query string is empty. */
  function ClientRequest(jobId: Value): JS.Request {
    JS.Request("POST", [], StatusBody(jobId))
  }

  /** Whatever the job map holds, the page's status query is answered 400
      and the page sees an error. */
  lemma ClientQueryRefused(jobs: map<string, RV.Job>, jobId: Value)
    ensures JS.HandleStatus(jobs, ClientRequest(jobId)) == JS.Refused(400, JS.MissingId)
    ensures Observe(JS.HandleStatus(jobs, ClientRequest(jobId))) == PollError
  {
  }

  /** The outcomes the page receives when every query goes to the handler
      over `jobs`. */
  function ClientPolls(jobs: map<string, RV.Job>, jobId: Value): (polls: seq<PollOutcome>)
    ensures |polls| == MaxAttempts
    ensures forall i :: 0 <= i < |polls| ==> polls[i] == PollError
  {
    ClientQueryRefused(jobs, jobId);
    seq(MaxAttempts, _ => Observe(JS.HandleStatus(jobs, ClientRequest(jobId))))
  }

  /** Against the job-status handler, the loop never stops early: it spends
      all its attempts and ends without a clip or a failure. */
  lemma {:induction false} ClientPollingExhausts(jobs: map<string, RV.Job>, jobId: Value)
    ensures EndOf(ClientPolls(jobs, jobId)) == Exhausted
    ensures Attempts(ClientPolls(jobs, jobId)) == MaxAttempts
  {
    var polls := ClientPolls(jobs, jobId);
    ClientQueryRefused(jobs, jobId);
    assert forall i :: 0 <= i < |polls| ==> !Stops(polls[i]);
  }

  /** The reaction-video reply as the page receives it: a created id as
      `{jobId}`, a refusal as an error, the preflight's empty body as null. */
  function Received(reply: RV.Reply): (job: JobOutcome)
    ensures JobIdOf(job).Some? <==> reply.Created? && reply.jobId != ""
    ensures JobIdOf(job).Some? ==> JobIdOf(job).value == Str(reply.jobId)
  {
    match reply
    case Preflight => JobData(Null)
    case Refused(_, _) => JobError
    case Created(id) => JobData(Obj(map["jobId" := Str(id)]))
  }

  /** A capture whose reflect call gives data and whose job was created,
      polled against the job-status handler over any job map: the clip stays
      pending for good, no URL arrives and the page has queried 30 times. */
  method CaptureAgainstHandler(image: string, reflected: Value, job: JobOutcome, jobs: map<string, RV.Job>)
    returns (pending: bool, url: Value, queries: nat)
    requires Truthy(reflected) && JobIdOf(job).Some?
    ensures pending && url == Null && queries == MaxAttempts
  {
    var polls := ClientPolls(jobs, JobIdOf(job).value);
    ClientPollingExhausts(jobs, JobIdOf(job).value);
    var page := new MirrorPage();
    page.HandleCapture(image, ReflectData(reflected), job, polls);
    pending := page.isVideoPending;
    url := page.reactionUrl;
    var before := [ InvokeReflect(image, 1, "coach"),
                    InvokeSpeech(page.message),
                    InvokeReactionVideo(image, page.message, page.mood, VideoMode) ];
    assert page.calls == before + PollsMade(job, polls);
    CaptureQueries(before[0], before[1], before[2], PollsMade(job, polls));
    PollCallsQueries(JobIdOf(job).value, MaxAttempts);
    queries := Queries(page.calls);
  }

  /** The same capture with its job created by the reaction-video service,
      whose map the status handler reads: the created job sits in the map,
      and still the clip stays pending. */
  method StuckClip(image: string, reflected: Value, token: string, freshId: string)
    returns (pending: bool, url: Value, queries: nat)
    requires Truthy(reflected) && freshId != "" && token != ""
    requires RV.InputValid(VideoBody(image, Get(reflected, "message"), Get(reflected, "mood")))
    ensures pending && url == Null && queries == MaxAttempts
  {
    var service := new RV.VideoService();
    var request := RV.Request("POST", Json(VideoBody(image, Get(reflected, "message"), Get(reflected, "mood"))));
    var created := service.Serve(request, Some(token), freshId);
    assert freshId in service.jobs;
    pending, url, queries := CaptureAgainstHandler(image, reflected, Received(created), service.jobs);
  }

  /** Calls that are no status queries add none to the count. */
  lemma CaptureQueries(first: Call, second: Call, third: Call, rest: seq<Call>)
    requires !first.InvokeJobStatus? && !second.InvokeJobStatus? && !third.InvokeJobStatus?
    ensures Queries([first, second, third] + rest) == Queries(rest)
  {
    var before := [first, second, third];
    assert Queries(before) == 0 by {
      assert before[1..][1..][1..] == [];
      assert Queries(before[1..][1..]) == 0;
      assert Queries(before[1..]) == 0;
    }
    QueriesConcat(before, rest);
  }
}
