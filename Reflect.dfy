/** The message generator (the `reflect` edge function): the configuration
    and image checks, the caption, tone, absurdity, message and mood
    derivations, and the fail-soft answer. The two model invocations
    (captioning, then the one-liner) are inputs: each either returns an
    output or throws. */
module Reflect {
  import opened Text
  import opened Js

  const JpegPrefix := "data:image/jpeg;base64,"
  const MaxCaption := 160
  const MaxMessage := 160
  const UnknownAppearance := "uncertain appearance"
  const FallbackMessage := "You've got this\U{2014}coffee and curiosity should help."
  const MissingToken := "Missing REPLICATE_API_TOKEN"
  const InvalidImage := "Invalid image format"
  /** The message of the TypeError thrown when `imageBase64` is truthy but not a string. */
  const NotAString := "imageBase64.startsWith is not a function"

  const ComplimentStyle := "Wholesome, short hype compliment (max 12 words). Be clever, not boring."
  const RoastStyle := "Savage, witty, 12 words max. PG-13. Mock outfit, vibe, or confidence."
  const CoachStyle := "Chaotic life coach wisdom. Sound delusional but motivational."

  const AbsurdityLevels: seq<string> := ["none", "subtle", "noticeable", "bold"]
  const UpbeatWords: seq<string> := ["smile", "happy", "cheerful", "confident"]
  const SleepyWords: seq<string> := ["tired", "sleepy", "messy"]

  /** The properties every object literal inherits from `Object.prototype`:
      looking one of them up in the tone table finds a function, not a style. */
  const InheritedKeys: set<string> := {
    "constructor", "__proto__", "hasOwnProperty", "isPrototypeOf", "propertyIsEnumerable",
    "toString", "toLocaleString", "valueOf", "__defineGetter__", "__defineSetter__",
    "__lookupGetter__", "__lookupSetter__"
  }

  /** The two hosted models, captioning first. */
  datatype Model = Llava | Llama

  datatype Mood = Upbeat | Sleepy | Neutral {
    function Label(): string {
      match this
      case Upbeat => "upbeat"
      case Sleepy => "sleepy"
      case Neutral => "neutral"
    }
  }

  datatype Request = Request(verb: string, body: Body)

  /** The response: the empty preflight answer, an error status with its
      `error` field, or a 200 carrying mood and message (and `error` on the
      fallback path). */
  datatype Reply =
    | Preflight
    | Failure(status: int, reason: string)
    | Message(mood: Mood, message: string, error: Option<string>)

  /** The response together with the models invoked, in order. */
  datatype Outcome = Outcome(reply: Reply, invoked: seq<Model>)

  /** `desc`: the caption text cut to 160 characters, or "uncertain
      appearance" when that is empty. */
  function Caption(output: Value): (desc: string)
    ensures 0 < |desc| <= MaxCaption
    ensures OutputText(output, " ") == [] ==> desc == UnknownAppearance
    ensures OutputText(output, " ") != [] ==>
      desc <= OutputText(output, " ") && |desc| == Min(MaxCaption, |OutputText(output, " ")|)
  {
    var text := Take(OutputText(output, " "), MaxCaption);
    if text == [] then UnknownAppearance else text
  }

  /** The style instruction the tone selects. */
  datatype ToneRule = Style(text: string) | Inherited(key: string)

  /** The property name `toneRules[tone]` looks up; `tone` defaults to "coach". */
  function ToneKey(tone: Value): string {
    if tone == Undefined then "coach" else ToText(tone)
  }

  /** `toneRules[tone] || <coach style>`. */
  function ToneStyle(tone: Value): (rule: ToneRule)
    ensures rule == Style(ComplimentStyle) <==> ToneKey(tone) == "compliment"
    ensures rule == Style(RoastStyle) <==> ToneKey(tone) == "roast"
    ensures rule.Inherited? <==> ToneKey(tone) in InheritedKeys
    ensures rule.Style? ==> rule.text in {ComplimentStyle, RoastStyle, CoachStyle}
    ensures tone == Undefined ==> rule == Style(CoachStyle)
  {
    var key := ToneKey(tone);
    if key == "compliment" then Style(ComplimentStyle)
    else if key == "roast" then Style(RoastStyle)
    else if key == "coach" then Style(CoachStyle)
    else if key in InheritedKeys then Inherited(key)
    else Style(CoachStyle)
  }

  /** `Number(v)`; `None` stands for NaN. */
  function NumberOf(v: Value): Option<int> {
    match v
    case Null => Some(0)
    case Bool(b) => Some(if b then 1 else 0)
    case Num(n) => Some(n)
    case _ => None
  }

  /** `Math.max(0, Math.min(3, n))`. */
  function Clamp(n: int): int {
    if n < 0 then 0 else if n > 3 then 3 else n
  }

  /** `absurdityLevels[weird]` with intensity defaulting to 1; `None` is
      `undefined`, which NaN gives. */
  function Absurdity(intensity: Value): (level: Option<string>)
    ensures intensity == Undefined ==> level == Some("subtle")
    ensures intensity != Undefined ==> (level.Some? <==> NumberOf(intensity).Some?)
    ensures level.Some? ==> level.value in AbsurdityLevels
    ensures intensity.Num? && intensity.n <= 0 ==> level == Some("none")
    ensures intensity.Num? && intensity.n >= 3 ==> level == Some("bold")
    ensures intensity.Num? && 0 <= intensity.n <= 3 ==> level == Some(AbsurdityLevels[intensity.n])
  {
    var n := if intensity == Undefined then Some(1) else NumberOf(intensity);
    if n.None? then None else Some(AbsurdityLevels[Clamp(n.value)])
  }

  /** `raw.replace(/\s+/g, " ").trim().slice(0, 160)`: no leading
      whitespace, no two whitespace characters in a row, only plain spaces,
      at most 160 characters, and the visible characters are a prefix of
      those of `raw` (all of them when `raw` is short enough). */
  function NormalizeMessage(raw: string): (message: string)
    ensures |message| <= MaxMessage
    ensures message == [] || !IsSpace(message[0])
    ensures NoAdjacent(message, Whitespace)
    ensures OnlySpaces(message, Whitespace)
    ensures VisibleText(message, Whitespace) <= VisibleText(raw, Whitespace)
    ensures |raw| <= MaxMessage ==> VisibleText(message, Whitespace) == VisibleText(raw, Whitespace)
    ensures message <= Squeeze(raw) && |message| == Min(MaxMessage, |Squeeze(raw)|)
  {
    NormalizeSpacing(Collapse(raw, Whitespace));
    NormalizeKeepsVisible(raw);
    Take(Squeeze(raw), MaxMessage)
  }

  /** Two words separated by any whitespace come out separated by exactly
      one space, when they fit. */
  lemma NormalizeWords(a: string, w: string, b: string)
    requires a != [] && b != [] && |a| + 1 + |b| <= MaxMessage
    requires forall i :: 0 <= i < |a| ==> !IsSpace(a[i])
    requires forall i :: 0 <= i < |b| ==> !IsSpace(b[i])
    requires w != [] && forall i :: 0 <= i < |w| ==> IsSpace(w[i])
    ensures NormalizeMessage(a + w + b) == a + [' '] + b
  {
    SqueezeJoins(a, w, b);
    SqueezeClassFree(a);
    SqueezeClassFree(b);
  }

  /** Trimming and cutting a collapsed text keeps it collapsed, and leaves
      no whitespace in front. */
  lemma NormalizeSpacing(c: string)
    requires NoAdjacent(c, Whitespace) && OnlySpaces(c, Whitespace)
    ensures var m := Take(Trim(c), MaxMessage);
      && (m == [] || !IsSpace(m[0]))
      && NoAdjacent(m, Whitespace)
      && OnlySpaces(m, Whitespace)
  {
    var m := Take(Trim(c), MaxMessage);
    var lo := TrimmedIsSlice(c, MaxMessage);
    SliceKeepsSpacing(c, lo, lo + |m|);
    if m != [] {
      assert m[0] == Trim(c)[0];
    }
  }

  /** A slice of a collapsed text is still collapsed. */
  lemma SliceKeepsSpacing(c: string, lo: nat, hi: nat)
    requires lo <= hi <= |c|
    requires NoAdjacent(c, Whitespace) && OnlySpaces(c, Whitespace)
    ensures NoAdjacent(c[lo..hi], Whitespace) && OnlySpaces(c[lo..hi], Whitespace)
  {
    var m := c[lo..hi];
    forall i, j | 0 <= i && j == i + 1 && j < |m| ensures !(In(m[i], Whitespace) && In(m[j], Whitespace)) {
      assert m[i] == c[lo + i] && m[j] == c[lo + j];
    }
  }

  lemma NormalizeKeepsVisible(raw: string)
    ensures var m := Take(Trim(Collapse(raw, Whitespace)), MaxMessage);
      && VisibleText(m, Whitespace) <= VisibleText(raw, Whitespace)
      && (|raw| <= MaxMessage ==> VisibleText(m, Whitespace) == VisibleText(raw, Whitespace))
  {
    var c := Collapse(raw, Whitespace);
    var lead := DropLeading(c, Whitespace);
    var t := DropTrailing(lead, Whitespace);
    CollapseKeepsVisible(raw, Whitespace);
    DropLeadingKeepsVisible(c, Whitespace);
    DropTrailingKeepsVisible(lead, Whitespace);
    TakeVisiblePrefix(t, MaxMessage);
  }

  /** Some word of `words` occurs in `text`, ignoring ASCII case. */
  ghost predicate Mentions(text: string, words: seq<string>) {
    exists w, i :: w in words && MatchesAt(text, w, i)
  }

  /** `/w1|w2|…/i.test(text)` for the words `words`. */
  function AnyOccurs(text: string, words: seq<string>): (r: bool)
    ensures r <==> Mentions(text, words)
  {
    if words == [] then false
    else
      ContainsIgnoringCaseIff(text, words[0]);
      assert forall w :: w in words <==> w == words[0] || w in words[1..];
      ContainsIgnoringCase(text, words[0]) || AnyOccurs(text, words[1..])
  }

  /** The mood: "upbeat" for a smile, happy, cheerful or confident caption,
      checked first; then "sleepy" for tired, sleepy or messy; else "neutral". */
  function MoodOf(desc: string): (m: Mood)
    ensures m == Upbeat <==> Mentions(desc, UpbeatWords)
    ensures m == Sleepy <==> !Mentions(desc, UpbeatWords) && Mentions(desc, SleepyWords)
    ensures m == Neutral <==> !Mentions(desc, UpbeatWords) && !Mentions(desc, SleepyWords)
  {
    if AnyOccurs(desc, UpbeatWords) then Upbeat
    else if AnyOccurs(desc, SleepyWords) then Sleepy
    else Neutral
  }

  /** The verdict of the image check. */
  datatype ImageCheck = BadImage | NotText | Jpeg(image: string)

  /** `const {imageBase64} = body || {}` followed by
      `!imageBase64 || !imageBase64.startsWith("data:image/jpeg;base64,")`;
      a truthy value that is not a string has no `startsWith` and throws. */
  function CheckImage(body: Value): (c: ImageCheck)
    ensures c.Jpeg? <==> Get(body, "imageBase64").Str? && StartsWith(Get(body, "imageBase64").s, JpegPrefix)
    ensures c.Jpeg? ==> c.image == Get(body, "imageBase64").s
    ensures c.NotText? <==> Truthy(Get(body, "imageBase64")) && !Get(body, "imageBase64").Str?
    ensures c.BadImage? <==>
      (!Truthy(Get(body, "imageBase64"))
       || (Get(body, "imageBase64").Str? && !StartsWith(Get(body, "imageBase64").s, JpegPrefix)))
  {
    var image := Get(if Truthy(body) then body else Obj(map[]), "imageBase64");
    if !Truthy(image) then BadImage
    else if !image.Str? then NotText
    else if !StartsWith(image.s, JpegPrefix) then BadImage
    else Jpeg(image.s)
  }

  /** The caught exception's answer: 200, neutral, the fixed message, and
      the exception's message as `error`. */
  function Fallback(error: string): Reply {
    Message(Neutral, FallbackMessage, Some(error))
  }

  /** The request passes the token and image checks. */
  predicate Admitted(req: Request, token: Option<string>) {
    req.verb != "OPTIONS" && Present(token) && req.body.Json? && CheckImage(req.body.value).Jpeg?
  }

  /** Admitted, and the log line written before the first model call can
      turn the tone and the intensity into text. */
  predicate Launched(req: Request, token: Option<string>) {
    Admitted(req, token) && Convertible(Get(req.body.value, "tone")) && Convertible(Get(req.body.value, "intensity"))
  }

  /** The whole handler. */
  function HandleReflect(req: Request, token: Option<string>, caption: Invocation, line: Invocation): (o: Outcome)
    // preflight, and the token checked before the body is read
    ensures req.verb == "OPTIONS" ==> o == Outcome(Preflight, [])
    ensures req.verb != "OPTIONS" && !Present(token) ==> o == Outcome(Failure(500, MissingToken), [])
    // a bad image is refused with 400 and no model is invoked
    ensures req.verb != "OPTIONS" && Present(token) && req.body.Json? && CheckImage(req.body.value).BadImage?
      ==> o == Outcome(Failure(400, InvalidImage), [])
    ensures o.reply.Failure? ==> o.reply.status == 400 || o.reply.status == 500
    // what throws before the first model call is caught: the 200 fallback
    ensures req.verb != "OPTIONS" && Present(token) && req.body.Unparsable?
      ==> o == Outcome(Fallback(req.body.error), [])
    ensures req.verb != "OPTIONS" && Present(token) && req.body.Json? && CheckImage(req.body.value).NotText?
      ==> o == Outcome(Fallback(NotAString), [])
    ensures Admitted(req, token) && !Launched(req, token) ==> o == Outcome(Fallback(NoPrimitive), [])
    // captioning comes first, the one-liner only after it
    ensures o.invoked <= [Llava, Llama]
    ensures o.invoked != [] <==> Launched(req, token)
    // what throws after a model call is caught too, with its message
    ensures Launched(req, token) && caption.Threw? ==> o == Outcome(Fallback(caption.message), [Llava])
    ensures Launched(req, token) && caption.Returned? && !Convertible(caption.output)
      ==> o == Outcome(Fallback(NoPrimitive), [Llava])
    ensures Launched(req, token) && caption.Returned? && Convertible(caption.output) && line.Threw?
      ==> o == Outcome(Fallback(line.message), [Llava, Llama])
    ensures Launched(req, token) && caption.Returned? && Convertible(caption.output) && line.Returned? && !Convertible(line.output)
      ==> o == Outcome(Fallback(NoPrimitive), [Llava, Llama])
    // fail-soft: once admitted, always a 200 message with a bounded text
    ensures Admitted(req, token) ==> o.reply.Message?
    ensures o.reply.Message? ==> |o.reply.message| <= MaxMessage
    ensures o.reply.Message? && o.reply.error.Some? ==> o.reply.mood == Neutral && o.reply.message == FallbackMessage
    ensures (o.reply.Message? && o.reply.error.None?) <==>
      && Launched(req, token) && caption.Returned? && line.Returned?
      && Convertible(caption.output) && Convertible(line.output)
    ensures o.reply.Message? && o.reply.error.None? ==>
      && o.invoked == [Llava, Llama]
      && o.reply.mood == MoodOf(Caption(caption.output))
      && o.reply.message == NormalizeMessage(OutputText(line.output, " "))
  {
    if req.verb == "OPTIONS" then Outcome(Preflight, [])
    else if !Present(token) then Outcome(Failure(500, MissingToken), [])
    else match req.body
      case Unparsable(e) => Outcome(Fallback(e), [])
      case Json(body) =>
        match CheckImage(body)
        case BadImage => Outcome(Failure(400, InvalidImage), [])
        case NotText => Outcome(Fallback(NotAString), [])
        case Jpeg(_) =>
          if !Convertible(Get(body, "tone")) || !Convertible(Get(body, "intensity")) then
            Outcome(Fallback(NoPrimitive), [])
          else match caption
            case Threw(e) => Outcome(Fallback(e), [Llava])
            case Returned(captionOutput) =>
              if !Convertible(captionOutput) then Outcome(Fallback(NoPrimitive), [Llava])
              else
                var desc := Caption(captionOutput);
                match line
                case Threw(e) => Outcome(Fallback(e), [Llava, Llama])
                case Returned(lineOutput) =>
                  if !Convertible(lineOutput) then Outcome(Fallback(NoPrimitive), [Llava, Llama])
                  else
                    var message := NormalizeMessage(OutputText(lineOutput, " "));
                    Outcome(Message(MoodOf(desc), message, None), [Llava, Llama])
  }

  /** Whatever the models do, an admitted request is answered 200 with a
      message of at most 160 characters. */
  lemma {:induction false} NeverFailsOnceAdmitted(req: Request, token: Option<string>, caption: Invocation, line: Invocation)
    requires Admitted(req, token)
    ensures HandleReflect(req, token, caption, line).reply.Message?
    ensures |HandleReflect(req, token, caption, line).reply.message| <= MaxMessage
  {
  }

  /** The response to a request that never reaches the models does not
      depend on them. */
  lemma RefusalIgnoresModels(req: Request, token: Option<string>, c1: Invocation, l1: Invocation, c2: Invocation, l2: Invocation)
    requires !Launched(req, token)
    ensures HandleReflect(req, token, c1, l1) == HandleReflect(req, token, c2, l2)
  {
  }
}
