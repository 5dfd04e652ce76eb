# Mirror app: message generation, reaction-clip jobs and the client poll loop

This project models the core of a small "smart mirror" web app. A webcam
frame goes to the `reflect` edge function, which captions the image with a
hosted model, asks a second model for a one-line remark and answers with a
mood and a message. The client then starts a reaction clip through the
`reaction-video` edge function. That function queues a job in an in-memory
job map, then processes it: before replying it marks the job running (or
failed, when the line cannot be sanitised), and once the model call settles
it records exactly one terminal result. The `job-status` edge function looks a job up. The client
page polls it at most 30 times, two seconds apart.

The model has six modules:

- `Js` holds JavaScript values as the handlers see them: truthiness, property
  reads, `String(x)` and `join`.
- `Text` holds the string operations the handlers use: whitespace runs, trim,
  truncation and case-insensitive search.
- `Reflect` is the `reflect` handler, a pure function of the request, the
  token and the results of the two model invocations.
- `ReactionVideo` holds the job records and the pure helpers: admission,
  palette, `sanitize` and URL extraction. Its class `VideoService` holds the
  job map and a ghost log of every write. Its invariant states that the map
  is the replay of the log and that every write follows the lifecycle
  `queued -> running -> succeeded | failed`.
- `JobStatus` is the `job-status` handler, a pure function of a job map and
  a request.
- `Client` holds the class `MirrorPage`, with the page's state fields, a log
  of the calls it makes and the toasts it shows. Its methods model
  `handleCapture`, `startVideoGeneration` and the poll loop.

Every hosted-model call, edge-function answer and status poll is a parameter
of the model. It is either a value or a failure.

Behaviour modelled as the code is written:

- **The two functions do not share a job map.** `job-status` declares its own
  map and never writes it, so on its own it answers 404 to every lookup
  (`JobStatus.OwnMapNeverFinds`). `JobStatus.StartThenWatch` shows what a
  shared map would answer.
- **Every client poll is refused.** The client sends `jobId` in the JSON
  body, but the handler reads only the query string. Against any job map,
  every client poll is therefore answered 400 (`Client.ClientQueryRefused`).
  With a job id in hand, the loop always runs all 30 attempts
  (`Client.ClientPollingExhausts`).
- **The clip spinner can stay pending.** The timeout reset after the loop
  tests the `isVideoPending` captured when the page rendered, not the
  current flag. When that captured flag was false, as on a fresh page, the
  spinner is still pending after 30 refused polls
  (`Client.CaptureAgainstHandler`). When it was true, the reset does clear
  the spinner.
- **No retry and no pipeline choice.** The code has no automatic retry on
  capacity errors. It reads `mode` and ignores it: the image-to-video model
  is always used. Neither a retry nor a choice of pipeline is modelled.
- **A plain-string model output fails the job.** URL extraction takes the
  first array element, or else `output.output[0]`. A plain string output
  therefore yields no URL, and an `output` field holding a string yields
  only its first character as the URL
  (`ReactionVideo.StringFieldGivesFirstCharacter`).
- **Processing starts before the reply.** `processVideoGeneration` runs
  synchronously up to its first `await`, so the job is already running, or
  already failed for a non-string line, when the job id is returned
  (`ReactionVideo.VideoService.Serve`).
- **JavaScript edge cases are kept:**
  - `toneRules[tone]` finds inherited `Object.prototype` properties.
  - A non-string `imageBase64` that gets past the guard makes `startsWith`
    throw. In `reflect` the guard `!imageBase64` lets through any truthy
    value, and the throw gives the fallback message. In `reaction-video` the
    optional call `imageBase64?.startsWith` lets through any value other
    than `null` and `undefined`, `false` and `0` included, and the throw
    gives a 500.
  - A non-string `line` makes `sanitize` throw, so the job fails.
  - `String()` throws on a parsed object with an own `toString` key. In
    `reflect`, such a tone or intensity (logged before the first model call)
    or such a model output gives the fallback message. In `reaction-video`,
    such a clip URL fails the job.

## Model

| member | source | states |
|---|---|---|
| `Js.First` | supabase/functions/reaction-video/index.ts:91 | Definition, no contract: `v?.[0]` on arrays, strings, objects and other values |
| `Js.Truthy` | supabase/functions/reflect/index.ts:27 | Definition, no contract: JavaScript truthiness, as in `!x`, the or-default of line 55 and `if (x)` |
| `Js.Get` | supabase/functions/reaction-video/index.ts:22 | Definition, no contract: a destructured property read, undefined when absent or when the value is not an object |
| `Js.Present` | supabase/functions/reflect/index.ts:15 | Definition, no contract: a string that passes `!x`, that is, given and non-empty; used for the token (also supabase/functions/reaction-video/index.ts:32) and the job id (supabase/functions/job-status/index.ts:22) |
| `Js.Decimal` | supabase/functions/reflect/index.ts:35 | `String(n)` for an integer: its decimal text, never empty |
| `Js.ElementText` | supabase/functions/reflect/index.ts:54 | Definition, no contract: the text `join` uses for an element, "" for `null` and `undefined` |
| `Js.Join` | supabase/functions/reflect/index.ts:54 | Definition, no contract: `parts.join(sep)` |
| `Js.Convertible` | supabase/functions/reflect/index.ts:35 | Definition, no contract: `String(v)` does not throw, that is, no object inside has an own `toString` key |
| `Js.ToText` | supabase/functions/reflect/index.ts:54 | Definition, no contract: `String(v)` for a convertible value |
| `Js.OutputText` | supabase/functions/reflect/index.ts:54 | Definition, no contract: `Array.isArray(v) ? v.join(sep) : String(v)` for a convertible value |
| `Reflect.Fallback` | supabase/functions/reflect/index.ts:116-133 | Definition, no contract: the caught exception's 200 answer, neutral, with the fixed message and the error |
| `Reflect.Launched` | supabase/functions/reflect/index.ts:35 | Definition, no contract: admitted, and the log line before the first model call can turn tone and intensity into text |
| `Reflect.HandleReflect` | supabase/functions/reflect/index.ts:8-135 | Preflight. A missing token gives 500 before the body is read. A bad image gives 400 with no model invoked, and every failure is a 400 or a 500. An unparsable body, a non-string image and a tone or intensity that `String()` cannot convert give the 200 fallback with that error and no model invoked. Models are invoked only when launched, captioning first. A thrown or inconvertible caption gives the fallback after one invocation; a thrown or inconvertible line gives it after both. An admitted request always gets a 200 message of at most 160 characters. An `error` field comes only with the neutral fallback message. There is no `error` iff both models returned convertible outputs; then mood and message are derived from those outputs |
| `Reflect.Caption` | supabase/functions/reflect/index.ts:54-55 | The caption is never empty and has at most 160 characters. It is "uncertain appearance" when the joined output is empty, otherwise a prefix of that output of length min(160, its length) |
| `Reflect.ToneStyle` | supabase/functions/reflect/index.ts:24-65 | "compliment" and "roast" select their styles (iff); an inherited property name selects that property (iff); every other style found is one of the three; an absent tone gives the coach style |
| `Reflect.ToneKey` | supabase/functions/reflect/index.ts:24 | Definition, no contract: the property name `toneRules[tone]` looks up, with `tone` defaulting to "coach" |
| `Reflect.Absurdity` | supabase/functions/reflect/index.ts:24-70 | Intensity defaults to "subtle"; a level exists iff `Number(intensity)` is a number; a level is one of the four; an integer is clamped to 0..3 (≤0 gives "none", ≥3 gives "bold") |
| `Reflect.NumberOf` | supabase/functions/reflect/index.ts:68 | Definition, no contract: `Number(intensity)` for null, booleans and numbers; every other value is treated as NaN |
| `Reflect.Clamp` | supabase/functions/reflect/index.ts:68 | Definition, no contract: `Math.max(0, Math.min(3, n))` |
| `Reflect.NormalizeMessage` | supabase/functions/reflect/index.ts:99-100 | The message is the prefix of the squeezed raw text (whitespace runs made single spaces, then trimmed) of length exactly min(160, that text's length). So it has no leading whitespace, no two adjacent whitespace characters and only plain spaces. Its visible characters are a prefix of the raw text's, and all of them when the raw text is at most 160 long |
| `Reflect.NormalizeWords` | supabase/functions/reflect/index.ts:100 | Two whitespace-free words separated by any non-empty whitespace run come out joined by exactly one space, when they fit in 160 characters |
| `Reflect.NormalizeSpacing` | supabase/functions/reflect/index.ts:100 | Trimming and cutting a collapsed text keeps it collapsed and leaves no whitespace in front |
| `Reflect.NormalizeKeepsVisible` | supabase/functions/reflect/index.ts:100 | Collapse, trim and slice keep the visible characters as a prefix, and all of them for short input |
| `Reflect.AnyOccurs` | supabase/functions/reflect/index.ts:103-104 | An alternation regex with the `i` flag matches iff some word occurs in the text at some index, ignoring ASCII case |
| `Reflect.MoodOf` | supabase/functions/reflect/index.ts:103-104 | Upbeat iff an upbeat word occurs; sleepy iff no upbeat word but a sleepy word occurs; neutral iff neither occurs |
| `Reflect.CheckImage` | supabase/functions/reflect/index.ts:24-33 | Accepted iff `imageBase64` is a string starting with "data:image/jpeg;base64,", and the accepted image is that string. The check throws iff `imageBase64` is truthy and not a string. It refuses iff `imageBase64` is falsy, or a string without that prefix |
| `Reflect.NeverFailsOnceAdmitted` | supabase/functions/reflect/index.ts:116-133 | Whatever the models do, an admitted request gets a 200 message with one of the three moods and at most 160 characters |
| `Reflect.RefusalIgnoresModels` | supabase/functions/reflect/index.ts:14-33 | A refused request's answer does not depend on the model results |
| `Text.Take` | supabase/functions/reflect/index.ts:54-55 | `slice(0, n)` is the prefix of length exactly min(n, the string's length), and the whole string when it is short enough |
| `Text.StartsWith` | supabase/functions/reflect/index.ts:27 | Definition, no contract: `s.startsWith(prefix)`; also supabase/functions/reaction-video/index.ts:24 |
| `Text.IsSpace` | supabase/functions/reflect/index.ts:100 | Definition, no contract: the characters of JavaScript's `\s`, which `trim` also removes |
| `Text.IsLineBreak` | supabase/functions/reaction-video/index.ts:110 | Definition, no contract: the class `[\r\n]` |
| `Text.Trim` | supabase/functions/reflect/index.ts:100 | The result is a slice of the input with only whitespace outside it on either side, and it is empty or has no whitespace at either end |
| `Text.TrimmedIsSlice` | supabase/functions/reflect/index.ts:100 | The trimmed and cut text is the slice of the input starting at the returned index |
| `Text.Collapse` | supabase/functions/reflect/index.ts:100 | The result is no longer than the input and empty iff the input is. Its first character is a space when the input starts with a class character, and otherwise the input's first character. It has no two adjacent class characters and no class character other than a space. That every run becomes one space is stated by `Text.RunBecomesOneSpace` |
| `Text.LeadingRunIs` | supabase/functions/reflect/index.ts:100 | A prefix of class characters followed by a non-class character (or the end) is the leading run |
| `Text.KeptBeforeTrailingRunIs` | supabase/functions/reflect/index.ts:100 | A suffix of class characters preceded by a non-class character (or the start) is the trailing run |
| `Text.DropLeadingConcat` | supabase/functions/reflect/index.ts:100 | Dropping a leading run from `a + b` drops it from `a` alone when `a` ends in a non-class character |
| `Text.DropTrailingConcat` | supabase/functions/reflect/index.ts:100 | Dropping a trailing run from `a + b` drops it from `b` alone when `b` starts with a non-class character |
| `Text.CollapseClassFree` | supabase/functions/reflect/index.ts:100 | A text without class characters collapses to itself |
| `Text.CollapseRunThen` | supabase/functions/reflect/index.ts:100 | A run of class characters followed by a non-class character (or the end) becomes exactly one space |
| `Text.CollapseConcat` | supabase/functions/reflect/index.ts:100 | Collapsing distributes over concatenation when the first part ends in a non-class character |
| `Text.CollapseKeepsLast` | supabase/functions/reflect/index.ts:100 | A text ending in a non-class character keeps that character last after collapsing |
| `Text.RunBecomesOneSpace` | supabase/functions/reflect/index.ts:100 | A maximal run of class characters between two texts becomes exactly one space, and each side collapses on its own |
| `Text.SqueezeClassFree` | supabase/functions/reflect/index.ts:100 | A text without whitespace is unchanged by `replace(/\s+/g, " ").trim()` |
| `Text.SqueezeJoins` | supabase/functions/reflect/index.ts:100 | Two texts with no whitespace at the joint, separated by a whitespace run, squeeze to their own squeezed forms joined by one space |
| `Text.Squeeze` | supabase/functions/reflect/index.ts:100 | Definition, no contract: `replace(/\s+/g, " ").trim()` |
| `Text.CollapseKeepsVisible` | supabase/functions/reflect/index.ts:100 | Collapsing runs keeps exactly the visible characters, in order |
| `Text.TakeVisiblePrefix` | supabase/functions/reflect/index.ts:100 | A prefix's visible characters are a prefix of the whole string's visible characters |
| `Text.ContainsIgnoringCaseIff` | supabase/functions/reflect/index.ts:103-104 | The case-insensitive search succeeds iff the word matches at some index of the text |
| `Text.ContainsIgnoringCase` | supabase/functions/reflect/index.ts:103-104 | Definition, no contract: the left-to-right scan of a `/word/i` test; characterised by `Text.ContainsIgnoringCaseIff` |
| `ReactionVideo.Admit` | supabase/functions/reaction-video/index.ts:16-55 | Preflight iff OPTIONS. Accepted iff the body parses, `imageBase64` starts with "data:image/", `line` is truthy and the token is present; the accepted parameters come from the body, with mood defaulting to "neutral". Refusals are 400 or 500, and a 400 means invalid input. An unparsable body gives 500 with the parse error, a `null` body 500 with the destructuring TypeError, and an `imageBase64` that is neither nullish nor a string (`false` and `0` included) 500 with the `startsWith` TypeError. A missing or nullish `imageBase64`, or a string one without the prefix or with a falsy `line`, gives 400 "Invalid input: imageBase64 and line required". Valid input without a token gives 500 "REPLICATE_API_TOKEN not configured" |
| `ReactionVideo.OrDefault` | supabase/functions/reaction-video/index.ts:22 | Definition, no contract: a destructuring default, used only when the value is undefined |
| `ReactionVideo.Palette` | supabase/functions/reaction-video/index.ts:68-69 | "teal/cyan" iff the mood is "upbeat"; "indigo/navy" iff it is "sleepy"; "lilac/gray" otherwise |
| `ReactionVideo.Sanitize` | supabase/functions/reaction-video/index.ts:109-111 | The result is the prefix of the break-collapsed text (each CR/LF run made one space) of length exactly min(120, that text's length). So no CR or LF remains and it has at most 120 characters. Its characters other than breaks and spaces are a prefix of the input's, and all of them for short input |
| `ReactionVideo.SanitizeBreaks` | supabase/functions/reaction-video/index.ts:109-111 | Two break-free pieces separated by a non-empty run of CR/LF come out joined by exactly one space, when they fit in 120 characters |
| `ReactionVideo.ExtractVideoUrl` | supabase/functions/reaction-video/index.ts:91 | An array gives its first element (undefined when empty). A value that is neither array nor object, or an object without `output`, gives undefined. Otherwise `output.output[0]`: an array's first element, a string's first character, an object's property "0", and undefined for anything else |
| `ReactionVideo.Settle` | supabase/functions/reaction-video/index.ts:61-107 | The record is well formed and terminal. It succeeds iff `line` is a string, the model returned and the extracted URL is truthy and convertible by `String()`; on success `videoUrl` is that URL as text. Otherwise `error` is the sanitize TypeError, the model's message, "Seedance did not return a video URL", or the conversion TypeError |
| `ReactionVideo.Started` | supabase/functions/reaction-video/index.ts:61-71 | The record written before the first `await` is well formed: running iff `line` is a string, otherwise failed with the sanitize TypeError |
| `ReactionVideo.EarlyFailureIsFinal` | supabase/functions/reaction-video/index.ts:61-107 | A job that failed before the model call keeps that failed record as its terminal record, whatever the model does |
| `ReactionVideo.StringFieldGivesFirstCharacter` | supabase/functions/reaction-video/index.ts:91-98 | An output `{output: "..."}` with a non-empty string succeeds with only that string's first character as the URL |
| `ReactionVideo.InputValid` | supabase/functions/reaction-video/index.ts:20-29 | Definition, no contract: `imageBase64` starts with "data:image/" and `line` is truthy |
| `ReactionVideo.VideoService.constructor` | supabase/functions/reaction-video/index.ts:10-14 | The map starts empty, with an empty write log, and the invariant holds |
| `ReactionVideo.VideoService.Serve` | supabase/functions/reaction-video/index.ts:16-55 | The invariant is kept. Preflight and refusals leave the map and the log unchanged. Acceptance writes the fresh id as queued, then as running (then failed for a non-string line) before replying, changes no other key and returns that id |
| `ReactionVideo.VideoService.StartProcessing` | supabase/functions/reaction-video/index.ts:57-71 | The invariant is kept. The synchronous start writes running, then failed when `line` is not a string; the job then holds `Started(params)` and no other key changes |
| `ReactionVideo.VideoService.FinishProcessing` | supabase/functions/reaction-video/index.ts:75-107 | The invariant is kept. Once the model call settles, exactly one terminal write is made, the record `Settle` gives, and no other key changes |
| `ReactionVideo.VideoService.Record` | supabase/functions/reaction-video/index.ts:36-38 | A lifecycle-allowed, well-formed `jobs.set` keeps the invariant and changes only that key |
| `ReactionVideo.ReplayWellFormed` | supabase/functions/reaction-video/index.ts:9-14 | Every record in a lawfully written map has one of the written shapes |
| `ReactionVideo.ReplayKeys` | supabase/functions/reaction-video/index.ts:9-14 | The ids in the map are exactly the ids written |
| `ReactionVideo.QueuedOnlyFirst` | supabase/functions/reaction-video/index.ts:37-38 | Only the first write of a job queues it |
| `ReactionVideo.TerminalStays` | supabase/functions/reaction-video/index.ts:57-107 | After a terminal write, the job keeps that status in every later map |
| `ReactionVideo.TerminalIsFinal` | supabase/functions/reaction-video/index.ts:57-107 | No write after a terminal one touches that job |
| `JobStatus.QueryGet` | supabase/functions/job-status/index.ts:19-20 | The value found belongs to the first query pair with that name; none is found iff no pair has that name |
| `JobStatus.HandleStatus` | supabase/functions/job-status/index.ts:13-41 | OPTIONS gives the preflight answer. A missing or empty id gives 400 "jobId parameter required". 404 iff the id is absent from the map. 200 with the stored record, verbatim, iff the id is present |
| `JobStatus.OwnMapNeverFinds` | supabase/functions/job-status/index.ts:6-11 | With the module's own empty map, every lookup with an id is answered 404 |
| `JobStatus.FoundIsWellFormed` | supabase/functions/job-status/index.ts:29-41 | Against a lawfully written map, a found record is well formed |
| `JobStatus.StartThenWatch` | supabase/functions/job-status/index.ts:29-41 | With a shared map, a started job is never found queued: it is found running, or failed with the sanitize error when `line` is not a string. After processing it is found terminal, with a URL on success or an error on failure |
| `Client.MirrorPage.constructor` | src/pages/Index.tsx:10-17 | The page's initial state |
| `Client.MirrorPage.BeginCapture` | src/pages/Index.tsx:21-25 | Processing is set, and message, clip URL, audio URL and the pending flag are cleared; nothing else changes |
| `Client.MirrorPage.HandleCapture` | src/pages/Index.tsx:20-66 | Reflect is invoked with the image, intensity and tone. A reflect error or a throw shows its own toast and starts nothing else. Data starts speech and video generation. Processing is false on every path |
| `Client.MirrorPage.ShowReflection` | src/pages/Index.tsx:46-55 | Message and mood come from the data; speech is invoked, then video generation runs |
| `Client.MirrorPage.BeginVideoGeneration` | src/pages/Index.tsx:98-110 | Pending is set and exactly one reaction-video call is logged, carrying the image, the line, the mood and mode "seedance" |
| `Client.MirrorPage.AwaitVideoJob` | src/pages/Index.tsx:112-157 | Without a job id, pending is cleared and no query is made. Otherwise the call log, clip URL, toasts and pending flag are those the poll loop gives |
| `Client.MirrorPage.PollJob` | src/pages/Index.tsx:118-153 | Exactly `Attempts(polls)` wait-then-query pairs are made. The URL is taken only from a delivered clip, and the toast only on failure. Pending survives only an exhausted loop whose render-captured flag was false |
| `Client.MirrorPage.PollOnce` | src/pages/Index.tsx:121-147 | One wait, then one query. The result says whether the outcome stops the loop. A clip sets the URL; a failure shows the toast; both clear pending |
| `Client.JobIdOf` | src/pages/Index.tsx:112-119 | An id to poll exists iff job creation gave data with a truthy `jobId`, and it is that `jobId` |
| `Client.ReadStatus` | src/pages/Index.tsx:132 | Definition, no contract: the page reads `statusData?.status` and `statusData.videoUrl` |
| `Client.VideoBody` | src/pages/Index.tsx:104-109 | Definition, no contract: the job request body, with the image, the line, the mood and mode "seedance" |
| `Client.StatusBody` | src/pages/Index.tsx:124 | Definition, no contract: the status query body `{ jobId }` |
| `Client.FirstStop` | src/pages/Index.tsx:120-147 | The first stopping outcome at or after a point: none before it, and it stops if it exists |
| `Client.Delivered` | src/pages/Index.tsx:132 | Definition, no contract: a record with status "succeeded" and a truthy URL |
| `Client.FailedStatus` | src/pages/Index.tsx:138 | Definition, no contract: a record with status "failed" |
| `Client.Stops` | src/pages/Index.tsx:127-147 | Definition, no contract: a thrown query, a delivered clip or a failure ends the loop; a query error does not |
| `Client.EndOf` | src/pages/Index.tsx:132-153 | Definition, no contract: how the loop ends; characterised by `Client.EndOfMeaning` |
| `Client.Attempts` | src/pages/Index.tsx:120-147 | Definition, no contract: the number of queries made; characterised by `Client.EndOfMeaning` |
| `Client.EndOfMeaning` | src/pages/Index.tsx:132-147 | The loop runs out iff no outcome stops it. Otherwise it ends at the first stopping outcome: a clip iff that outcome delivered one, with a truthy URL, and aborted iff that query threw |
| `Client.EndsAt` | src/pages/Index.tsx:132-147 | The first stopping outcome at index `i` ends the loop after `i + 1` queries, with the ending that outcome gives |
| `Client.NeverEnds` | src/pages/Index.tsx:120-153 | With no stopping outcome, all attempts run and the loop runs out |
| `Client.PollCallsShape` | src/pages/Index.tsx:120-125 | `n` attempts make `2n` calls that alternate a 2000 ms wait and a status query for the job id |
| `Client.PollCallsQueries` | src/pages/Index.tsx:120-125 | `n` attempts make exactly `n` status queries |
| `Client.QueriesConcat` | src/pages/Index.tsx:120-125 | Query counts add up over concatenated call logs |
| `Client.QueriesBounded` | src/pages/Index.tsx:112-125 | Video generation makes at most 30 status queries, and none without a job id |
| `Client.PendingEndsOnStop` | src/pages/Index.tsx:132-153 | Pending survives only when no outcome stops the loop. A URL comes only from a clip and ends pending; the failure toast ends pending and keeps no URL |
| `Client.Observe` | src/pages/Index.tsx:123-130 | A non-2xx answer is a query error; a found record is read as its status and URL |
| `Client.JobJson` | supabase/functions/job-status/index.ts:38-41 | The client reads a delivered clip iff the record succeeded with a non-empty URL, and a failure iff it failed |
| `Client.TerminalRecordStops` | src/pages/Index.tsx:132-147 | A well-formed terminal record, as the client reads it, stops the loop unless it is a success with an empty URL |
| `Client.ClientQueryRefused` | supabase/functions/job-status/index.ts:19-27 | Against any map, the client's request gets 400 "jobId parameter required", which the client sees as a query error |
| `Client.ClientRequest` | src/pages/Index.tsx:123-125 | Definition, no contract: the status request the page sends, with the id in the body and an empty query string |
| `Client.ClientPolls` | src/pages/Index.tsx:120-125 | The client observes 30 outcomes against any job map, and every one is a query error |
| `Client.ClientPollingExhausts` | src/pages/Index.tsx:120-153 | The client's loop against the job-status handler always runs all 30 attempts and runs out |
| `Client.Received` | src/pages/Index.tsx:103-116 | A created job gives data whose `jobId` is the new id; a refusal gives an error |
| `Client.CaptureAgainstHandler` | src/pages/Index.tsx:150-153 | After a successful reflection and job creation, with polls answered by the job-status handler, the clip stays pending with no URL after 30 queries |
| `Client.StuckClip` | src/pages/Index.tsx:98-153 | Starting a job for real and then polling through the client leaves the clip pending with no URL |
| `Client.CaptureQueries` | src/pages/Index.tsx:28-110 | The reflect, speech and job-creation calls that precede polling are not status queries |

## Left out

- The prompts sent to the models, console logging, CORS headers and the `Response` objects are not modelled; only status codes and body fields are.
- The hosted-model calls (captioning, one-liner, image-to-video) are inputs, either an output value or a thrown message. Their latency and content are unmodelled.
- `Reflect.Absurdity`: strings and arrays are treated as NaN, whereas `Number()` converts numeric strings and short arrays. The level is only logged by the source and never reaches the prompt.
- Numbers are integers only; floating-point values are not modelled.
- `Text.Take`, `Js.First`, `Reflect.Caption`, `Reflect.NormalizeMessage`, `ReactionVideo.Sanitize`, `ReactionVideo.ExtractVideoUrl`: strings are sequences of code points, whereas JavaScript indexes and measures strings in UTF-16 code units. So the 160, 160 and 120 bounds count code points, and the first character of a string is a whole character where JavaScript would give a lone surrogate for a character outside the Basic Multilingual Plane.
- `Client.MirrorPage.HandleCapture`: `audioUrl` stays null and the audio-failure toast is not modelled, because `generateAudio` turns its result into a Blob and an object URL through browser APIs. Only the text-to-speech call is recorded.
- Concurrency is not modelled. Fire-and-forget job processing and the unawaited audio and video tasks run as sequential steps, so interleavings and the order of toasts across tasks are not modelled.
- Timers are not modelled as delays. Each 2000 ms wait is a `Sleep` entry in the call log.
- The 500 answer of job-status when building the request URL throws is not modelled; requests arrive with their query already decoded.
- `crypto.randomUUID` is the `freshId` parameter. Its uniqueness is a precondition.
- The text-to-speech edge function, the webcam, control-panel and message-bubble components, `getMoodEmoji` and the page's JSX are not part of this model. They are browser, media and rendering code.
- The intensity and tone setters of the control panel are not modelled; the page keeps its initial intensity 1 and tone "coach".
