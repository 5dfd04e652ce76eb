/** The reaction-video edge function: the in-memory job map, the request
    handler that admits a job and queues it, and the processing step that
    marks it running and then records exactly one terminal result. The
    Seedance invocation is an input; the fresh job id is a parameter. */
module ReactionVideo {
  import opened Text
  import opened Js

  datatype Status = Queued | Running | Succeeded | Failed {
    predicate Terminal() {
      this == Succeeded || this == Failed
    }
  }

  /** A job record `{status, videoUrl?, error?}`. */
  datatype Job = Job(status: Status, videoUrl: Option<string>, error: Option<string>) {
    /** The shapes the service writes: `videoUrl` only on success, `error`
        only on failure, neither while queued or running. */
    predicate WellFormed() {
      match status
      case Queued => videoUrl.None? && error.None?
      case Running => videoUrl.None? && error.None?
      case Succeeded => videoUrl.Some? && error.None?
      case Failed => videoUrl.None? && error.Some?
    }
  }

  const QueuedJob := Job(Queued, None, None)
  const RunningJob := Job(Running, None, None)

  const ImagePrefix := "data:image/"
  const MaxCaptionText := 120
  const InvalidInput := "Invalid input: imageBase64 and line required"
  const TokenMissing := "REPLICATE_API_TOKEN not configured"
  const NoVideoUrl := "Seedance did not return a video URL"
  /** The TypeError messages of the three ways the handler can throw on a
      malformed body: destructuring `null`, a non-string `imageBase64`, and
      a non-string `line` reaching `sanitize`. */
  const NullBody := "Cannot destructure property 'imageBase64' of '(intermediate value)' as it is null."
  const ImageNotAString := "imageBase64?.startsWith is not a function"
  const LineNotAString := "s.replace is not a function"

  datatype Request = Request(verb: string, body: Body)

  /** What the handler passes to processing. `mode` is read and ignored. */
  datatype Params = Params(image: string, line: Value, mood: Value, mode: Value, token: string)

  /** The handler's decision before any job exists. */
  datatype Admission = AnswerPreflight | Refuse(status: int, reason: string) | Accept(params: Params)

  /** The response: the preflight answer, an error status with its `error`
      field, or `{jobId}`. */
  datatype Reply = Preflight | Refused(status: int, error: string) | Created(jobId: string)

  /** The body's fields are acceptable: `imageBase64` starts with
      "data:image/" and `line` is truthy. */
  predicate InputValid(body: Value) {
    var image := Get(body, "imageBase64");
    image.Str? && StartsWith(image.s, ImagePrefix) && Truthy(Get(body, "line"))
  }

  /** `v` when given, `fallback` when undefined: a destructuring default. */
  function OrDefault(v: Value, fallback: string): Value {
    if v == Undefined then Str(fallback) else v
  }

  /** The checks of the handler, in the order it makes them: body,
      image and line (400), then the token (thrown, so 500). */
  function Admit(req: Request, token: Option<string>): (a: Admission)
    ensures a.AnswerPreflight? <==> req.verb == "OPTIONS"
    ensures a.Accept? <==> req.verb != "OPTIONS" && req.body.Json? && InputValid(req.body.value) && Present(token)
    ensures a.Accept? ==>
      && a.params.image == Get(req.body.value, "imageBase64").s
      && a.params.line == Get(req.body.value, "line")
      && a.params.mood == OrDefault(Get(req.body.value, "mood"), "neutral")
      && a.params.token == token.value
    ensures a.Refuse? ==> a.status == 400 || a.status == 500
    ensures a.Refuse? && a.status == 400 ==> a.reason == InvalidInput && req.body.Json? && !InputValid(req.body.value)
    ensures req.verb != "OPTIONS" && req.body.Json? && InputValid(req.body.value) && !Present(token)
      ==> a == Refuse(500, TokenMissing)
    // what `await req.json()` and the destructuring throw is answered 500
    ensures req.verb != "OPTIONS" && req.body.Unparsable? ==> a == Refuse(500, req.body.error)
    ensures req.verb != "OPTIONS" && req.body.Json? && req.body.value == Null ==> a == Refuse(500, NullBody)
    // a missing image, or a string image failing the field checks, is answered 400
    ensures (req.verb != "OPTIONS" && req.body.Json? && req.body.value != Null && req.body.value != Undefined
             && (Get(req.body.value, "imageBase64") == Undefined || Get(req.body.value, "imageBase64") == Null))
      ==> a == Refuse(400, InvalidInput)
    ensures (req.verb != "OPTIONS" && req.body.Json? && Get(req.body.value, "imageBase64").Str?
             && !InputValid(req.body.value))
      ==> a == Refuse(400, InvalidInput)
    // an image that is neither nullish nor a string has no `startsWith`
    ensures (req.verb != "OPTIONS" && req.body.Json?
             && Get(req.body.value, "imageBase64") != Undefined && Get(req.body.value, "imageBase64") != Null
             && !Get(req.body.value, "imageBase64").Str?)
      ==> a == Refuse(500, ImageNotAString)
  {
    if req.verb == "OPTIONS" then AnswerPreflight
    else match req.body
      case Unparsable(e) => Refuse(500, e)
      case Json(v) =>
        if v == Null || v == Undefined then Refuse(500, NullBody)
        else
          var image := Get(v, "imageBase64");
          if image == Undefined || image == Null then Refuse(400, InvalidInput)
          else if !image.Str? then Refuse(500, ImageNotAString)
          else if !StartsWith(image.s, ImagePrefix) || !Truthy(Get(v, "line")) then Refuse(400, InvalidInput)
          else if !Present(token) then Refuse(500, TokenMissing)
          else Accept(Params(image.s, Get(v, "line"), OrDefault(Get(v, "mood"), "neutral"),
                             OrDefault(Get(v, "mode"), "seedance"), token.value))
  }

  /** The gradient colours of the clip, chosen by mood. */
  function Palette(mood: Value): (p: string)
    ensures p == "teal/cyan" <==> mood == Str("upbeat")
    ensures p == "indigo/navy" <==> mood == Str("sleepy")
    ensures p == "lilac/gray" <==> mood != Str("upbeat") && mood != Str("sleepy")
  {
    if mood == Str("upbeat") then "teal/cyan"
    else if mood == Str("sleepy") then "indigo/navy"
    else "lilac/gray"
  }

  /** `s.replace(/[\r\n]+/g, " ").slice(0, 120)`: no line break remains,
      at most 120 characters, and the characters other than breaks and
      spaces are a prefix of those of `s` (all of them when `s` is short). */
  function Sanitize(s: string): (r: string)
    ensures |r| <= MaxCaptionText
    ensures forall i :: 0 <= i < |r| ==> !IsLineBreak(r[i])
    ensures VisibleText(r, LineBreak) <= VisibleText(s, LineBreak)
    ensures |s| <= MaxCaptionText ==> VisibleText(r, LineBreak) == VisibleText(s, LineBreak)
    ensures r <= Collapse(s, LineBreak) && |r| == Min(MaxCaptionText, |Collapse(s, LineBreak)|)
  {
    var c := Collapse(s, LineBreak);
    CollapseKeepsVisible(s, LineBreak);
    TakeVisiblePrefix(c, MaxCaptionText);
    assert OnlySpaces(c, LineBreak);
    Take(c, MaxCaptionText)
  }

  /** Two pieces of a caption separated by a run of line breaks come out
      separated by exactly one space, when they fit. */
  lemma SanitizeBreaks(a: string, w: string, b: string)
    requires |a| + 1 + |b| <= MaxCaptionText
    requires forall i :: 0 <= i < |a| ==> !IsLineBreak(a[i])
    requires forall i :: 0 <= i < |b| ==> !IsLineBreak(b[i])
    requires w != [] && forall i :: 0 <= i < |w| ==> IsLineBreak(w[i])
    ensures Sanitize(a + w + b) == a + [' '] + b
  {
    assert forall i :: 0 <= i < |a| ==> !In(a[i], LineBreak);
    assert forall i :: 0 <= i < |b| ==> !In(b[i], LineBreak);
    assert forall i :: 0 <= i < |w| ==> In(w[i], LineBreak);
    RunBecomesOneSpace(a, w, b, LineBreak);
    CollapseClassFree(a, LineBreak);
    CollapseClassFree(b, LineBreak);
  }

  /** `Array.isArray(output) ? output[0] : output?.output?.[0]`. */
  function ExtractVideoUrl(output: Value): (url: Value)
    ensures output.Arr? ==> url == (if output.items == [] then Undefined else output.items[0])
    ensures !output.Arr? && !output.Obj? ==> url == Undefined
    ensures output.Obj? && "output" !in output.fields ==> url == Undefined
    ensures !output.Arr? ==>
      var field := Get(output, "output");
      && (field.Arr? ==> url == (if field.items == [] then Undefined else field.items[0]))
      && (field.Str? ==> url == (if field.s == "" then Undefined else Str([field.s[0]])))
      && (field.Obj? ==> url == (if "0" in field.fields then field.fields["0"] else Undefined))
      && (!field.Arr? && !field.Str? && !field.Obj? ==> url == Undefined)
  {
    if output.Arr? then First(output) else First(Get(output, "output"))
  }

  /** The record of a job whose line `sanitize` cannot process. */
  const SanitizeFailed := Job(Failed, None, Some(LineNotAString))

  /** The record processing leaves before its first `await`: running, or
      failed when building the prompt throws on a line that is not a
      string. */
  function Started(params: Params): (job: Job)
    ensures job.WellFormed()
    ensures job.status == Running <==> params.line.Str?
    ensures job.status == Failed <==> !params.line.Str?
    ensures job.status == Failed ==> job.error == Some(LineNotAString)
  {
    if params.line.Str? then RunningJob else SanitizeFailed
  }

  /** The terminal record processing writes: success with the URL, or
      failure with the message of what was thrown. */
  function Settle(params: Params, seedance: Invocation): (job: Job)
    ensures job.WellFormed() && job.status.Terminal()
    ensures job.status == Succeeded <==>
      && params.line.Str? && seedance.Returned?
      && Truthy(ExtractVideoUrl(seedance.output)) && Convertible(ExtractVideoUrl(seedance.output))
    ensures job.status == Succeeded ==> job.videoUrl == Some(ToText(ExtractVideoUrl(seedance.output)))
    ensures !params.line.Str? ==> job.error == Some(LineNotAString)
    ensures params.line.Str? && seedance.Threw? ==> job.error == Some(seedance.message)
    ensures params.line.Str? && seedance.Returned? && !Truthy(ExtractVideoUrl(seedance.output))
      ==> job.error == Some(NoVideoUrl)
    ensures (params.line.Str? && seedance.Returned? && Truthy(ExtractVideoUrl(seedance.output))
             && !Convertible(ExtractVideoUrl(seedance.output))) ==> job.error == Some(NoPrimitive)
  {
    if !params.line.Str? then SanitizeFailed
    else match seedance
      case Threw(e) => Job(Failed, None, Some(e))
      case Returned(output) =>
        var url := ExtractVideoUrl(output);
        if !Truthy(url) then Job(Failed, None, Some(NoVideoUrl))
        else if !Convertible(url) then Job(Failed, None, Some(NoPrimitive))
        else Job(Succeeded, Some(ToText(url)), None)
  }

  /** A job that failed before the first `await` ends there: its terminal
      record is the one already written, whatever the model would do. */
  lemma EarlyFailureIsFinal(params: Params, seedance: Invocation)
    requires Started(params).status == Failed
    ensures Settle(params, seedance) == Started(params)
  {
  }

  /** An output whose `output` field is a non-empty string yields that
      string's first character as the clip URL, and the job succeeds. */
  lemma StringFieldGivesFirstCharacter(params: Params, text: string)
    requires params.line.Str? && text != ""
    ensures Settle(params, Returned(Obj(map["output" := Str(text)]))) == Job(Succeeded, Some([text[0]]), None)
  {
    var output := Obj(map["output" := Str(text)]);
    assert Get(output, "output") == Str(text);
  }

  /** The writes of the synchronous start of processing. */
  function StartWrites(id: string, params: Params): seq<Write> {
    if params.line.Str? then [Write(id, RunningJob)] else [Write(id, RunningJob), Write(id, SanitizeFailed)]
  }

  /** One `jobs.set(id, job)`. */
  datatype Write = Write(id: string, job: Job)

  /** The map that a sequence of writes leaves behind, starting from empty. */
  ghost function Replay(log: seq<Write>): map<string, Job>
    decreases |log|
  {
    if log == [] then map[]
    else Replay(log[..|log| - 1])[log[|log| - 1].id := log[|log| - 1].job]
  }

  /** The record a write replaces, if any. */
  ghost function Previous(log: seq<Write>, k: nat): Option<Job>
    requires k < |log|
  {
    var before := Replay(log[..k]);
    if log[k].id in before then Some(before[log[k].id]) else None
  }

  /** The lifecycle `queued -> running -> succeeded | failed`: a job is
      created queued, runs only once queued, and ends only once running. */
  ghost predicate Allowed(prev: Option<Job>, next: Status) {
    match next
    case Queued => prev.None?
    case Running => prev.Some? && prev.value.status == Queued
    case Succeeded => prev.Some? && prev.value.status == Running
    case Failed => prev.Some? && prev.value.status == Running
  }

  /** Write `k` is well formed and follows the lifecycle. */
  ghost predicate LawfulAt(log: seq<Write>, k: nat)
    requires k < |log|
  {
    log[k].job.WellFormed() && Allowed(Previous(log, k), log[k].job.status)
  }

  /** Every write is well formed and follows the lifecycle. */
  ghost predicate Lawful(log: seq<Write>) {
    forall k :: 0 <= k < |log| ==> LawfulAt(log, k)
  }

  /** The map after the first `m` writes is the map after `m - 1` writes with
      write `m - 1` applied. */
  lemma ReplayStep(log: seq<Write>, m: nat)
    requires 0 < m <= |log|
    ensures Replay(log[..m]) == Replay(log[..m - 1])[log[m - 1].id := log[m - 1].job]
  {
    assert log[..m][..m - 1] == log[..m - 1];
  }

  lemma ReplayAppend(log: seq<Write>, w: Write)
    ensures Replay(log + [w]) == Replay(log)[w.id := w.job]
  {
    assert (log + [w])[..|log|] == log;
  }

  lemma LawfulAppend(log: seq<Write>, w: Write)
    requires Lawful(log)
    requires w.job.WellFormed()
    requires Allowed(if w.id in Replay(log) then Some(Replay(log)[w.id]) else None, w.job.status)
    ensures Lawful(log + [w])
  {
    var log' := log + [w];
    forall k | 0 <= k < |log'|
      ensures LawfulAt(log', k)
    {
      assert log'[..k] == if k < |log| then log[..k] else log;
      if k < |log| {
        assert LawfulAt(log, k);
        assert Previous(log', k) == Previous(log, k);
      }
    }
  }

  /** Every record in a lawfully written map has one of the written shapes. */
  lemma {:induction false} ReplayWellFormed(log: seq<Write>)
    requires Lawful(log)
    ensures forall id :: id in Replay(log) ==> Replay(log)[id].WellFormed()
    decreases |log|
  {
    if log != [] {
      var init := log[..|log| - 1];
      assert LawfulAt(log, |log| - 1);
      assert Lawful(init) by {
        forall k | 0 <= k < |init|
          ensures LawfulAt(init, k)
        {
          assert LawfulAt(log, k);
          assert init[..k] == log[..k];
          assert Previous(init, k) == Previous(log, k);
        }
      }
      ReplayWellFormed(init);
    }
  }

  /** The ids in the map are exactly the ids written. */
  lemma {:induction false} ReplayKeys(log: seq<Write>, id: string)
    ensures id in Replay(log) <==> exists k :: 0 <= k < |log| && log[k].id == id
    decreases |log|
  {
    if log != [] {
      var init := log[..|log| - 1];
      ReplayKeys(init, id);
      if id in Replay(init) {
        var k :| 0 <= k < |init| && init[k].id == id;
        assert log[k].id == id;
      }
      if k :| 0 <= k < |log| && log[k].id == id {
        if k < |init| { assert init[k].id == id; }
      }
    }
  }

  /** A job is queued only by its first write: no job re-enters `queued`. */
  lemma QueuedOnlyFirst(log: seq<Write>, k: nat)
    requires Lawful(log) && k < |log| && log[k].job.status == Queued
    ensures forall j :: 0 <= j < k ==> log[j].id != log[k].id
  {
    assert LawfulAt(log, k);
    forall j | 0 <= j < k ensures log[j].id != log[k].id {
      if log[j].id == log[k].id {
        assert log[..k][j].id == log[k].id;
        ReplayKeys(log[..k], log[k].id);
      }
    }
  }

  /** After a terminal write, the record keeps that status in every later map. */
  lemma {:induction false} TerminalStays(log: seq<Write>, k: nat, m: nat)
    requires Lawful(log) && k < m <= |log| && log[k].job.status.Terminal()
    ensures log[k].id in Replay(log[..m])
    ensures Replay(log[..m])[log[k].id].status == log[k].job.status
    decreases m
  {
    ReplayStep(log, m);
    if m > k + 1 {
      TerminalStays(log, k, m - 1);
      assert LawfulAt(log, m - 1);
    }
  }

  /** A terminal record is final: no later write touches that job. */
  lemma TerminalIsFinal(log: seq<Write>, k: nat)
    requires Lawful(log) && k < |log| && log[k].job.status.Terminal()
    ensures forall j :: k < j < |log| ==> log[j].id != log[k].id
  {
    forall j | k < j < |log| ensures log[j].id != log[k].id {
      TerminalStays(log, k, j);
      assert LawfulAt(log, j);
    }
  }

  /** The service: the module-level job map and the two code paths that
      write it. */
  class VideoService {
    var jobs: map<string, Job>
    /** Every `jobs.set` so far, in order. */
    ghost var log: seq<Write>

    ghost predicate Valid()
      reads this
    {
      jobs == Replay(log) && Lawful(log)
    }

    constructor ()
      ensures Valid() && jobs == map[] && log == []
    {
      jobs := map[];
      log := [];
    }

    /** The request handler: on acceptance the fresh id is stored as
        queued and returned; otherwise the map is left as it was. */
    method Serve(req: Request, token: Option<string>, freshId: string) returns (reply: Reply)
      requires Valid() && freshId !in jobs
      modifies this
      ensures Valid()
      ensures Admit(req, token).AnswerPreflight? ==> reply == Preflight && jobs == old(jobs) && log == old(log)
      ensures Admit(req, token).Refuse? ==>
        && reply == Refused(Admit(req, token).status, Admit(req, token).reason)
        && jobs == old(jobs) && log == old(log)
      ensures Admit(req, token).Accept? ==>
        && reply == Created(freshId)
        && jobs == old(jobs)[freshId := Started(Admit(req, token).params)]
        && log == old(log) + [Write(freshId, QueuedJob)] + StartWrites(freshId, Admit(req, token).params)
    {
      match Admit(req, token)
      case AnswerPreflight =>
        reply := Preflight;
      case Refuse(status, reason) =>
        reply := Refused(status, reason);
      case Accept(params) =>
        Record(freshId, QueuedJob);
        StartProcessing(freshId, params);
        reply := Created(freshId);
    }

    /** `processVideoGeneration` up to its first `await`, which runs before
        the handler replies: `running` is written, and a line that is not a
        string makes building the prompt throw, so `failed` follows. */
    method StartProcessing(jobId: string, params: Params)
      requires Valid() && jobId in jobs && jobs[jobId].status == Queued
      modifies this
      ensures Valid()
      ensures jobs == old(jobs)[jobId := Started(params)]
      ensures log == old(log) + StartWrites(jobId, params)
    {
      Record(jobId, RunningJob);
      if !params.line.Str? {
        Record(jobId, SanitizeFailed);
      }
    }

    /** `processVideoGeneration` once the model call settles: exactly one
        terminal record. Only a job with a string line gets this far. */
    method FinishProcessing(jobId: string, params: Params, seedance: Invocation)
      requires Valid() && jobId in jobs && jobs[jobId].status == Running && params.line.Str?
      modifies this
      ensures Valid()
      ensures jobs == old(jobs)[jobId := Settle(params, seedance)]
      ensures log == old(log) + [Write(jobId, Settle(params, seedance))]
    {
      var result := Settle(params, seedance);
      Record(jobId, result);
    }

    /** `jobs.set(id, job)` for a write the lifecycle allows. */
    method Record(id: string, job: Job)
      requires Valid() && job.WellFormed()
      requires Allowed(if id in jobs then Some(jobs[id]) else None, job.status)
      modifies this
      ensures Valid()
      ensures jobs == old(jobs)[id := job] && log == old(log) + [Write(id, job)]
    {
      ReplayAppend(log, Write(id, job));
      LawfulAppend(log, Write(id, job));
      jobs := jobs[id := job];
      log := log + [Write(id, job)];
    }
  }
}
