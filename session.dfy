/** The application's session state and its handlers. Each asynchronous
    handler is split into the part that runs when it is invoked (ending at
    its `await`) and the part that runs when the awaited call resolves. The
    handlers keep no request numbers: whichever completion arrives last
    decides what is shown. */
module Session {
  import opened Types
  import opened JsText

  datatype MediaKind = Image | Video

  /** The uploaded file as the session stores it: an object URL, its kind,
      its name and the original file for the caption requests. */
  datatype UploadedFile = UploadedFile(url: string, kind: MediaKind, name: string, originalFile: MediaFile)

  /** The arguments of one `generateDogThought` call. */
  datatype ThoughtRequest = ThoughtRequest(breed: string, scene: SceneType, file: MediaFile)

  /** The state values a handler's closure captured when it was created. */
  datatype View = View(file: Option<UploadedFile>, breedInput: string, scene: SceneType)

  /** An `analyzeBreedSize` call in flight, with the view of the handler that
      issued it (used again when it resolves). */
  datatype AnalysisRequest = AnalysisRequest(breedName: string, view: View)

  /** The stored kind: a MIME type starting with "video" is a video, anything
      else an image. */
  function KindOf(mimeType: string): (k: MediaKind)
    ensures k == Video <==> StartsWith(mimeType, "video")
  {
    if StartsWith(mimeType, "video") then Video else Image
  }

  /** The caption request tests "video/" where the upload tests "video": every
      type the request sends as a video frame is stored as a video, but a bare
      "video" (or "videos/...") is stored as a video and sent without media. */
  lemma VideoPrefixMismatch(mimeType: string)
    ensures StartsWith(mimeType, "video/") ==> KindOf(mimeType) == Video
    ensures KindOf("video") == Video && !StartsWith("video", "video/") && !StartsWith("video", "image/")
  {
  }

  /** The breed a caption request names: the explicit breed, else the typed
      breed, else "Dog". */
  function ThoughtBreed(currentBreed: Option<string>, breedInput: string): (b: string)
    ensures b != ""
    ensures currentBreed.Some? && currentBreed.value != "" ==> b == currentBreed.value
    ensures (currentBreed.None? || currentBreed.value == "") && breedInput != "" ==> b == breedInput
    ensures (currentBreed.None? || currentBreed.value == "") && breedInput == "" ==> b == "Dog"
  {
    Or(Or(currentBreed.GetOr(""), breedInput), "Dog")
  }

  class App {
    var file: Option<UploadedFile>
    var breedInput: string
    var breedAnalysis: Option<BreedAnalysis>
    var scene: SceneType
    var dogThought: string
    var isLoading: bool
    var isThoughtLoading: bool

    constructor ()
      ensures file == None && breedInput == "" && breedAnalysis == None
      ensures scene == CASUAL && dogThought == ""
      ensures !isLoading && !isThoughtLoading
    {
      file := None;
      breedInput := "";
      breedAnalysis := None;
      scene := CASUAL;
      dogThought := "";
      isLoading := false;
      isThoughtLoading := false;
    }

    function CurrentView(): View
      reads this
    {
      View(file, breedInput, scene)
    }

    /** The size handed to the display: the analysed size, LARGE before any
        analysis. */
    function DisplaySize(): (size: DogSize)
      reads this
      ensures breedAnalysis.None? ==> size == LARGE
      ensures breedAnalysis.Some? ==> size == breedAnalysis.value.size
    {
      if breedAnalysis.Some? then breedAnalysis.value.size else LARGE
    }

    /** `updateDogThought` up to its `await`, run by a handler whose closure
        saw `view`: without a file nothing happens; otherwise the thought is
        cleared, the loading flag raised and one request issued. */
    method UpdateDogThoughtStart(view: View, currentBreed: Option<string>, currentScene: Option<SceneType>)
      returns (request: Option<ThoughtRequest>)
      modifies this`isThoughtLoading, this`dogThought
      ensures view.file.None? ==> request.None? && unchanged(this)
      ensures view.file.Some? ==>
        isThoughtLoading && dogThought == "" &&
        request == Some(ThoughtRequest(ThoughtBreed(currentBreed, view.breedInput),
                                       currentScene.GetOr(view.scene),
                                       view.file.value.originalFile))
    {
      if view.file.None? {
        return None;
      }
      isThoughtLoading := true;
      dogThought := "";
      var breed := ThoughtBreed(currentBreed, view.breedInput);
      var sceneSent := if currentScene.Some? then currentScene.value else view.scene;
      request := Some(ThoughtRequest(breed, sceneSent, view.file.value.originalFile));
    }

    /** `updateDogThought` after its `await`: the caption is stored and the
        loading flag cleared, whichever request the caption answers. */
    method CompleteDogThought(thought: string)
      modifies this`dogThought, this`isThoughtLoading
      ensures dogThought == thought && !isThoughtLoading
    {
      dogThought := thought;
      isThoughtLoading := false;
    }

    /** The effect on `[file, scene]`: with a file, request a fresh thought
        for the typed breed and the current scene. */
    method FileOrSceneEffect() returns (request: Option<ThoughtRequest>)
      modifies this`isThoughtLoading, this`dogThought
      ensures file.None? ==> request.None? && unchanged(this)
      ensures file.Some? ==>
        isThoughtLoading && dogThought == "" &&
        request == Some(ThoughtRequest(ThoughtBreed(None, breedInput), scene, file.value.originalFile))
    {
      request := UpdateDogThoughtStart(CurrentView(), Some(breedInput), Some(scene));
    }

    /** `handleFileChange` and the effect it triggers: no selection changes
        nothing; a selection is stored (a new object, so the effect runs) and
        a thought requested for it. */
    method HandleFileChange(selected: Option<MediaFile>, url: string)
      returns (request: Option<ThoughtRequest>)
      modifies this
      ensures selected.None? ==> request.None? && unchanged(this)
      ensures selected.Some? ==>
        file == Some(UploadedFile(url, KindOf(selected.value.mimeType), selected.value.name, selected.value)) &&
        isThoughtLoading && dogThought == "" &&
        request == Some(ThoughtRequest(ThoughtBreed(None, breedInput), scene, selected.value))
      ensures breedInput == old(breedInput) && breedAnalysis == old(breedAnalysis)
      ensures scene == old(scene) && isLoading == old(isLoading)
    {
      if selected.None? {
        return None;
      }
      var f := selected.value;
      var kind := KindOf(f.mimeType);
      file := Some(UploadedFile(url, kind, f.name, f));
      request := FileOrSceneEffect();
    }

    /** Typing in the breed box. */
    method EditBreedInput(value: string)
      modifies this`breedInput
      ensures breedInput == value
    {
      breedInput := value;
    }

    /** A scene button: picking the current scene is no state change, so the
        effect does not run; picking another one runs it. */
    method SelectScene(s: SceneType) returns (request: Option<ThoughtRequest>)
      modifies this
      ensures scene == s
      ensures s == old(scene) || old(file).None? ==> request.None? && dogThought == old(dogThought)
      ensures s != old(scene) && old(file).Some? ==>
        isThoughtLoading && dogThought == "" &&
        request == Some(ThoughtRequest(ThoughtBreed(None, breedInput), s, old(file).value.originalFile))
      ensures request.None? ==> isThoughtLoading == old(isThoughtLoading)
      ensures file == old(file) && breedInput == old(breedInput)
      ensures breedAnalysis == old(breedAnalysis) && isLoading == old(isLoading)
    {
      if s == scene {
        return None;
      }
      scene := s;
      request := FileOrSceneEffect();
    }

    /** `handleAnalyzeBreed` up to its `await`: a blank breed does nothing;
        otherwise loading starts and the untrimmed breed is sent. */
    method HandleAnalyzeBreedStart() returns (request: Option<AnalysisRequest>)
      modifies this`isLoading
      ensures Trim(breedInput) == "" ==> request.None? && unchanged(this)
      ensures Trim(breedInput) != "" ==> isLoading && request == Some(AnalysisRequest(breedInput, CurrentView()))
    {
      if Trim(breedInput) == "" {
        return None;
      }
      isLoading := true;
      request := Some(AnalysisRequest(breedInput, CurrentView()));
    }

    /** `handleAnalyzeBreed` after its `await`: the analysis replaces the old
        one, a thought request starts from the handler's own (possibly
        outdated) view, and loading ends. */
    method HandleAnalyzeBreedComplete(issued: AnalysisRequest, analysis: BreedAnalysis)
      returns (request: Option<ThoughtRequest>)
      modifies this
      ensures breedAnalysis == Some(analysis) && !isLoading
      ensures issued.view.file.None? ==> request.None?
      ensures issued.view.file.Some? ==>
        isThoughtLoading && dogThought == "" &&
        request == Some(ThoughtRequest(ThoughtBreed(None, issued.view.breedInput), issued.view.scene,
                                       issued.view.file.value.originalFile))
      ensures issued.view.file.None? ==>
        dogThought == old(dogThought) && isThoughtLoading == old(isThoughtLoading)
      ensures file == old(file) && breedInput == old(breedInput) && scene == old(scene)
    {
      breedAnalysis := Some(analysis);
      request := UpdateDogThoughtStart(issued.view, Some(issued.view.breedInput), Some(issued.view.scene));
      isLoading := false;
    }

    /** `handleRegenerateThought`: a new request for the typed breed and the
        current scene. */
    method HandleRegenerateThought() returns (request: Option<ThoughtRequest>)
      modifies this`isThoughtLoading, this`dogThought
      ensures file.None? ==> request.None? && unchanged(this)
      ensures file.Some? ==>
        isThoughtLoading && dogThought == "" &&
        request == Some(ThoughtRequest(ThoughtBreed(None, breedInput), scene, file.value.originalFile))
    {
      request := UpdateDogThoughtStart(CurrentView(), Some(breedInput), Some(scene));
    }

    /** `handleReset`: back to the initial values, except that the two loading
        flags are left as they are. The effect it triggers finds no file. */
    method HandleReset()
      modifies this
      ensures file == None && breedInput == "" && breedAnalysis == None
      ensures dogThought == "" && scene == CASUAL
      ensures isLoading == old(isLoading) && isThoughtLoading == old(isThoughtLoading)
    {
      file := None;
      breedInput := "";
      breedAnalysis := None;
      dogThought := "";
      scene := CASUAL;
      var none := FileOrSceneEffect();
    }
  }

  // ---------------------------------------------------------------------------
  // What the handlers allow, shown on whole event sequences.

  /** A regeneration and a scene change in flight (the regenerate button is
      hidden while a caption loads, but the scene buttons are not): the first
      completion already clears the loading flag, and the earlier request,
      answering last, overwrites the caption for the newly chosen scene. */
  method RegenerateRace(app: App, other: SceneType, first: string, second: string)
    returns (stale: ThoughtRequest, current: ThoughtRequest)
    requires app.file.Some? && other != app.scene
    modifies app
    ensures stale.scene != other && current.scene == other && app.scene == other
    ensures app.dogThought == first && !app.isThoughtLoading
  {
    var r1 := app.HandleRegenerateThought();
    var r2 := app.SelectScene(other);
    stale, current := r1.value, r2.value;
    app.CompleteDogThought(second);
    assert !app.isThoughtLoading;
    app.CompleteDogThought(first);
  }

  /** A caption requested before a reset still lands after it, on a session
      that has no file any more. */
  method CaptionAfterReset(app: App, caption: string)
    requires app.file.Some?
    modifies app
    ensures app.file.None? && app.dogThought == caption
  {
    var r := app.HandleRegenerateThought();
    app.HandleReset();
    app.CompleteDogThought(caption);
  }

  /** An analysis started with a file and resolved after a reset still issues
      a caption request, for the file and breed of the view it started from. */
  method AnalysisAfterReset(app: App, analysis: BreedAnalysis) returns (request: Option<ThoughtRequest>)
    requires app.file.Some? && Trim(app.breedInput) != ""
    modifies app
    ensures app.file.None? && app.breedAnalysis == Some(analysis) && !app.isLoading
    ensures request.Some? && request.value.breed != "" && app.isThoughtLoading
  {
    var started := app.HandleAnalyzeBreedStart();
    app.HandleReset();
    request := app.HandleAnalyzeBreedComplete(started.value, analysis);
  }
}
