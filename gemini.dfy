/** The wrappers around the generative model: breed classification with its
    fixed fallback record, caption generation with its fallback captions, the
    assembly of the caption request, and the frame-grab arithmetic for videos.
    The model itself is an oracle: a call either throws or answers with an
    optional response text. */
module Gemini {
  import opened Types
  import opened JsText

  /** What one `generateContent` call gives back. */
  datatype ModelReply = Threw | Answered(text: Option<string>)

  // ---------------------------------------------------------------------------
  // analyzeBreedSize

  const BreedFallback: BreedAnalysis :=
    BreedAnalysis(MEDIUM, "We couldn't reach our dog database, so we're assuming a happy medium!", 40.0)

  /** `analyzeBreedSize`, given the model's reply and `JSON.parse` as an oracle
      (None when parsing throws). A missing or empty text, a thrown call and a
      failed parse all end in the fallback; nothing escapes. */
  function AnalyzeBreedSize(reply: ModelReply, parse: string -> Option<BreedAnalysis>): (r: BreedAnalysis)
    ensures r == BreedFallback ||
            (reply.Answered? && reply.text.Some? && reply.text.value != "" && parse(reply.text.value) == Some(r))
  {
    match reply
    case Threw => BreedFallback
    case Answered(text) =>
      if text.None? || text.value == "" then BreedFallback  // the source throws here, and its own catch returns the fallback
      else match parse(text.value)
        case None => BreedFallback
        case Some(analysis) => analysis
  }

  /** Every failure, thrown or soft, yields exactly the fallback record. */
  lemma BreedFallbackOnFailure(reply: ModelReply, parse: string -> Option<BreedAnalysis>)
    requires reply.Threw? || reply.text.None? || reply.text.value == "" || parse(reply.text.value).None?
    ensures AnalyzeBreedSize(reply, parse) == BreedAnalysis(MEDIUM, BreedFallback.reasoning, 40.0)
  {
  }

  /** A non-empty text that parses is returned unchanged. */
  lemma BreedParsedUnchanged(text: string, parse: string -> Option<BreedAnalysis>)
    requires text != "" && parse(text).Some?
    ensures AnalyzeBreedSize(Answered(Some(text)), parse) == parse(text).value
  {
  }

  /** The response schema restricts `size` to SMALL, MEDIUM or LARGE; it
      only types `reasoning` and `typicalHeightCm` as a string and a number. */
  ghost predicate SchemaConforming(parse: string -> Option<BreedAnalysis>) {
    forall t :: parse(t).Some? ==> parse(t).value.size in {SMALL, MEDIUM, LARGE}
  }

  /** Under a schema-conforming model the size is never UNKNOWN; a fallback
      result also has a positive height and some reasoning. */
  lemma BreedAnalysisValid(reply: ModelReply, parse: string -> Option<BreedAnalysis>)
    requires SchemaConforming(parse)
    ensures var r := AnalyzeBreedSize(reply, parse);
      r.size != UNKNOWN &&
      (r == BreedFallback ==> r.typicalHeightCm > 0.0 && r.reasoning != "")
  {
  }

  // ---------------------------------------------------------------------------
  // generateDogThought: result selection

  const FallbackThoughts: seq<string> := [
    "Woof! I think I see a squirrel... wait, no, just a speck of dust.",
    "I have no idea what this is, but I probably want to eat it.",
    "Can we stop looking at this and go for a walk?",
    "Everything looks very yellow and very interesting today!",
    "Thinking about sausages... please hold." ]

  /** `Math.floor(random * FALLBACK_THOUGHTS.length)` for `random` in [0,1). */
  function FallbackIndex(random: real): (i: nat)
    requires 0.0 <= random < 1.0
    ensures i < |FallbackThoughts|
  {
    (random * (|FallbackThoughts| as real)).Floor
  }

  function PickFallback(random: real): (s: string)
    requires 0.0 <= random < 1.0
    ensures s in FallbackThoughts && s != ""
  {
    FallbackThoughts[FallbackIndex(random)]
  }

  /** The caption `generateDogThought` resolves to: the trimmed text when it
      is non-empty, otherwise (and when the call throws) a fallback caption. */
  function GenerateDogThought(reply: ModelReply, random: real): (r: string)
    requires 0.0 <= random < 1.0
    ensures r != ""
    ensures r in FallbackThoughts || (reply.Answered? && reply.text.Some? && r == Trim(reply.text.value))
  {
    match reply
    case Threw => PickFallback(random)
    case Answered(text) =>
      match text
      case None => PickFallback(random)
      case Some(t) => Or(Trim(t), PickFallback(random))
  }

  /** A text with anything but white space in it is used, trimmed. */
  lemma ThoughtUsesText(text: string, random: real)
    requires 0.0 <= random < 1.0
    requires exists i :: 0 <= i < |text| && !IsWhiteSpace(text[i])
    ensures GenerateDogThought(Answered(Some(text)), random) == Trim(text)
  {
  }

  /** A thrown call, a missing text or an all-white-space text gives the
      fallback caption the random draw picks. */
  lemma ThoughtFallback(reply: ModelReply, random: real)
    requires 0.0 <= random < 1.0
    requires reply.Threw? || reply.text.None? ||
             forall i :: 0 <= i < |reply.text.value| ==> IsWhiteSpace(reply.text.value[i])
    ensures GenerateDogThought(reply, random) == FallbackThoughts[FallbackIndex(random)]
  {
  }

  // ---------------------------------------------------------------------------
  // generateDogThought: request assembly

  /** Which sentence about the picture goes into the prompt. */
  datatype VisualContext = NoVisual | ImageVisual | VideoFrameVisual

  /** One request part: inline base64 media, or the text prompt (its fixed
      wording elided, its interpolated values kept). */
  datatype Part =
    | InlineData(data: string, mimeType: string)
    | PromptText(persona: string, scene: string, visual: VisualContext)

  /** Builds the request's parts. `imageData` is what the file reader yields
      for an image; `frame` is what frame extraction yields for a video
      (None when it resolved to null). An empty frame string is falsy, so it
      is dropped like a missing one. */
  method AssembleParts(breed: string, scene: string, file: Option<MediaFile>,
                       imageData: string, frame: Option<string>)
    returns (parts: seq<Part>)
    ensures 1 <= |parts| <= 2
    ensures forall i :: 0 <= i < |parts| - 1 ==> parts[i].InlineData?
    ensures parts[|parts| - 1].PromptText?
    ensures parts[|parts| - 1].persona == Or(breed, "dog") && parts[|parts| - 1].scene == scene
    ensures |parts| == 2 <==>
      file.Some? && (StartsWith(file.value.mimeType, "image/") ||
                     (StartsWith(file.value.mimeType, "video/") && frame.Some? && frame.value != ""))
    ensures |parts| == 2 && StartsWith(file.value.mimeType, "image/") ==>
      parts[0] == InlineData(imageData, file.value.mimeType) && parts[1].visual == ImageVisual
    ensures |parts| == 2 && !StartsWith(file.value.mimeType, "image/") ==>
      frame.Some? && frame.value != "" &&
      parts[0] == InlineData(frame.value, "image/jpeg") && parts[1].visual == VideoFrameVisual
    ensures |parts| == 1 ==> parts[0].visual == NoVisual
  {
    parts := [];
    var visual := NoVisual;
    if file.Some? {
      if StartsWith(file.value.mimeType, "image/") {
        parts := parts + [InlineData(imageData, file.value.mimeType)];
        visual := ImageVisual;
      } else if StartsWith(file.value.mimeType, "video/") {
        if frame.Some? && frame.value != "" {
          parts := parts + [InlineData(frame.value, "image/jpeg")];
          visual := VideoFrameVisual;
        }
      }
    }
    parts := parts + [PromptText(Or(breed, "dog"), scene, visual)];
  }

  // ---------------------------------------------------------------------------
  // extractFrameFromVideo: seek time and canvas size

  /** `Math.min(0.5, duration * 0.1)`. */
  function SeekTime(duration: real): (t: real)
    ensures t <= 0.5 && t <= duration * 0.1
    ensures t == 0.5 || t == duration * 0.1
  {
    if 0.5 <= duration * 0.1 then 0.5 else duration * 0.1
  }

  const MaxDim: real := 640.0

  function Max(a: nat, b: nat): nat {
    if a >= b then a else b
  }

  /** `Math.min(1, 640 / Math.max(w, h))`; for a 0×0 video the division gives
      +Infinity and the minimum is 1. */
  function FrameScale(w: nat, h: nat): (k: real)
    ensures 0.0 < k <= 1.0
    ensures k * (Max(w, h) as real) <= MaxDim
    ensures Max(w, h) as real <= MaxDim ==> k == 1.0
    ensures Max(w, h) as real > MaxDim ==> k * (Max(w, h) as real) == MaxDim
  {
    var longest := Max(w, h) as real;
    if longest == 0.0 || 1.0 <= MaxDim / longest then 1.0 else MaxDim / longest
  }

  /** A canvas dimension takes the integer part of the assigned length. */
  function CanvasSide(len: nat, k: real): (side: nat)
    requires 0.0 < k <= 1.0
    ensures side <= len
  {
    (len as real * k).Floor
  }

  /** The grabbed frame is never upscaled, its long edge is at most 640, and a
      frame that already fits keeps its size. */
  lemma FrameFits(w: nat, h: nat)
    ensures var k := FrameScale(w, h);
      CanvasSide(w, k) <= w && CanvasSide(h, k) <= h &&
      CanvasSide(w, k) <= 640 && CanvasSide(h, k) <= 640 &&
      (Max(w, h) <= 640 ==> CanvasSide(w, k) == w && CanvasSide(h, k) == h)
  {
  }

  /** The hidden video element and the canvas of one frame grab. */
  class FrameGrab {
    var currentTime: real
    var canvasWidth: nat
    var canvasHeight: nat

    /** A fresh video starts at time 0; a fresh canvas is 300×150. */
    constructor ()
      ensures currentTime == 0.0 && canvasWidth == 300 && canvasHeight == 150
    {
      currentTime := 0.0;
      canvasWidth := 300;
      canvasHeight := 150;
    }

    /** `onloadedmetadata`: seek near the start. */
    method OnLoadedMetadata(duration: real)
      modifies this`currentTime
      ensures currentTime == SeekTime(duration)
      ensures currentTime <= 0.5 && currentTime <= duration * 0.1
    {
      currentTime := SeekTime(duration);
    }

    /** `onseeked`: size the canvas for the frame, at most 640 on its long edge. */
    method OnSeeked(videoWidth: nat, videoHeight: nat)
      modifies this`canvasWidth, this`canvasHeight
      ensures canvasWidth == CanvasSide(videoWidth, FrameScale(videoWidth, videoHeight))
      ensures canvasHeight == CanvasSide(videoHeight, FrameScale(videoWidth, videoHeight))
      ensures canvasWidth <= videoWidth && canvasHeight <= videoHeight
      ensures canvasWidth <= 640 && canvasHeight <= 640
    {
      var scale := FrameScale(videoWidth, videoHeight);
      FrameFits(videoWidth, videoHeight);
      canvasWidth := CanvasSide(videoWidth, scale);
      canvasHeight := CanvasSide(videoHeight, scale);
    }
  }
}
