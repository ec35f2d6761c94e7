# DogView in Dafny

DogView lets a user upload a photo or a video and see it "as a dog would":
colour-shifted towards a two-cone palette, slightly blurred, zoomed from a
low vantage point that depends on the dog's size, with a cartoon of the
owner's feet drawn over it in the style of the chosen scene, and with a
one-line "dog thought" caption from a generative model.

This project models the core of that application in Dafny and proves its
rules:

- `types.dfy` (module `Types`): the `DogSize` and `SceneType` enumerations,
  the string value each scene carries, and the `BreedAnalysis` record.
- `jstext.dfy` (module `JsText`): the JavaScript string operations the code
  relies on: `trim` (with the ECMAScript white-space set), `startsWith`, and
  `||` on strings.
- `vision.dfy` (module `Vision`, pure): the scene asset bundles, the sock,
  pant and shoe variant dispatch, the two-leg overlay and its layering, the
  size-to-perspective lookup, and the dog-vision filter. The filter is a
  colour matrix (SVG 1.1 section 15.10, feColorMatrix), a linear gain on red
  and green (SVG 1.1 section 15.11, feComponentTransfer) and a Gaussian blur
  whose radius depends on the size. Colours are exact `real`s, and each
  pointwise primitive's result is clamped to [0,1]. SVG path data is
  represented by tags.
- `gemini.dfy` (module `Gemini`, mixed): the wrappers around the generative
  model. The model is an oracle: each call either throws or answers with an
  optional text. `JSON.parse` is a function parameter, and `Math.random` is a
  real in [0,1). Request assembly is an imperative method. The frame grab for
  videos is a class whose two event handlers set the seek time and the canvas
  size.
- `session.dfy` (module `Session`, imperative): the `App` class holds the
  seven session fields. Each asynchronous handler is split into a start
  method (up to its `await`) and a completion method. As in the code, there
  is no staleness protection:
  - the last completion to arrive overwrites `dogThought`;
  - the first completion already clears `isThoughtLoading`;
  - an analysis that resolves late requests a caption from the view it
    started with.
  Three client methods play these sequences through. The design intent
  is that only the most recent request's caption is shown. The code does
  not enforce that, and the model follows the code.

The upload handler stores a file as a video when its MIME type starts with
`video` (App.tsx:23). The caption request attaches a frame only when the
type starts with `video/` (services/geminiService.ts:131). So a bare `video`
type is shown as a video but sent without media. `Session.VideoPrefixMismatch`
states both sides.

## Model

| member | source | states |
|---|---|---|
| `Types.SceneName` | types.ts:8-13 | every scene's run-time value is a non-empty (truthy) string |
| `JsText.IsWhiteSpace` | services/geminiService.ts:186 | no visible ASCII character is white space, while space, tab, LF and CR are |
| `JsText.TrimStart` | services/geminiService.ts:186 | the result is a suffix of the input, does not start with white space, and everything cut off is white space |
| `JsText.TrimEnd` | services/geminiService.ts:186 | the result is a prefix of the input, does not end with white space, and everything cut off is white space |
| `JsText.Trim` | services/geminiService.ts:186 | the trimmed string is no longer than the input and has no white space at either end |
| `JsText.TrimIsInnerSlice` | services/geminiService.ts:186 | the trimmed string is a contiguous slice of the input with only white space around it |
| `JsText.TrimEmptyIff` | App.tsx:30 | `trim()` gives "" exactly when the input is empty or all white space (both directions) |
| `JsText.TrimIdempotent` | services/geminiService.ts:186 | trimming a trimmed string changes nothing |
| `JsText.Or` | App.tsx:51 | JavaScript "or" on two strings gives the first one unless it is empty, and the result is non-empty when the second one is |
| `JsText.StartsWith` | App.tsx:23 | `startsWith` holds exactly when the prefix fits and matches the string character by character from position 0 |
| `Vision.GetAssets` | components/DogVisionDisplay.tsx:17-75 | total on every string; footwear, pant length and sock height always come from the fixed vocabularies; the skin tone is shared; every colour field and the texture are populated (non-empty) |
| `Vision.AssetsPerScene` | components/DogVisionDisplay.tsx:20-73 | the whole scene table: INDOOR gives SLIPPERS/short/low, SPORT RUNNERS/cropped/mid, FANCY HEELS/skirt/frilly, CASUAL SNEAKERS/rolled/mid, each with its exact pant, shoe, sole and sock colours and texture (e.g. SPORT: lime `#a3e635` and dark-green `#166534` runners, grey `#374151` cropped leggings) |
| `Vision.UnrecognisedSceneIsCasual` | components/DogVisionDisplay.tsx:60-73 | any value that is not one of the four scene names gets exactly the CASUAL bundle |
| `Vision.AssetsDistinguishScenes` | components/DogVisionDisplay.tsx:17-75 | different scenes give different bundles |
| `Vision.Sock` | components/DogVisionDisplay.tsx:127-157 | the sock keeps its colour, and it has a ruffle exactly when it uses the frilly outline |
| `Vision.SockVariants` | components/DogVisionDisplay.tsx:131-147 | "low" gives the low outline and "frilly" the frilly outline (both directions); only "frilly" has a ruffle; every other value gives the mid outline |
| `Vision.Pant` | components/DogVisionDisplay.tsx:159-182 | the pant keeps its colour |
| `Vision.PantVariants` | components/DogVisionDisplay.tsx:163-175 | "short", "skirt" and "cropped" each select their own outline (both directions); every other value gives the rolled outline |
| `Vision.RenderShoe` | components/DogVisionDisplay.tsx:184-258 | each shoe drawing uses the bundle's colours: heel body in the primary colour, runner in sole/primary/secondary, slipper in sole/primary |
| `Vision.ShoeVariants` | components/DogVisionDisplay.tsx:185-258 | HEELS gives the heel; RUNNERS and SNEAKERS give the identical runner; every other type gives the slipper (each both directions); only the slipper is lowered by 15 |
| `Vision.ShoeLift` | components/DogVisionDisplay.tsx:187-250 | the shoe drawing is moved down by 10 for the heel and the runner and by 15 for the slipper (both directions), and the leg layers carry that offset |
| `Vision.LegLayers` | components/DogVisionDisplay.tsx:270-274 | one leg is four layers in the order Leg, Sock, Shoe, Pant |
| `Vision.OwnerFeetOverlay` | components/DogVisionDisplay.tsx:261-286 | exactly two leg groups, at translate(120,80) rotate(-5) and translate(240,90) rotate(8), with identical layers |
| `Vision.OverlayLayering` | components/DogVisionDisplay.tsx:268-283 | each leg is the skin leg of width 36, then the scene's sock, the shoe with its offset, and the pant, all from the same bundle |
| `Vision.OverlayDefaultsAgree` | components/DogVisionDisplay.tsx:272-282 | defaulting an empty sock height to "mid" and an empty pant length to "rolled" draws the same shape as passing the empty value |
| `Vision.GetVisionConfig` | components/DogVisionDisplay.tsx:306-341 | a zoom is applied exactly for the known sizes, always anchored bottom centre; the feet are anchored bottom right exactly for the known sizes |
| `Vision.EffectiveZoom` | components/DogVisionDisplay.tsx:335-340 | the container's zoom is never below 1 (UNKNOWN's empty style is scale 1) |
| `Vision.PerspectiveOrdering` | components/DogVisionDisplay.tsx:306-341 | the zoom is 3.5, 2.0, 1.3 and 1 (no transform) for SMALL, MEDIUM, LARGE and UNKNOWN, strictly decreasing; the feet scale is 105, 90, 75 and 100 |
| `Vision.Clamp` | components/DogVisionDisplay.tsx:365-376 | clamping lands in [0,1] and leaves values already in [0,1] alone |
| `Vision.ClampAll` | components/DogVisionDisplay.tsx:365-376 | a clamped colour is in range, and a colour already in range is unchanged |
| `Vision.ApplyPrimitive` | components/DogVisionDisplay.tsx:365-376 | a colour matrix or component transfer yields a colour in [0,1] |
| `Vision.Transfer` | components/DogVisionDisplay.tsx:372-376 | an absent function passes the channel through, and a linear gain of at least 1 with no negative intercept never darkens a channel |
| `Vision.MatrixRow` | components/DogVisionDisplay.tsx:365-371 | a row with non-negative coefficients and no offset maps a [0,1] colour into [0, sum of the coefficients] |
| `Vision.ApplyChain` | components/DogVisionDisplay.tsx:351-376 | the empty chain is the identity, a non-empty chain always ends in [0,1], and a [0,1] colour stays in [0,1] |
| `Vision.SubstochasticNeedsNoClamp` | components/DogVisionDisplay.tsx:365-371 | a matrix whose rows are non-negative, sum to at most 1 and have no offset needs no clamping on [0,1] colours |
| `Vision.DogMatrixSubstochastic` | components/DogVisionDisplay.tsx:365-371 | the dog matrix is such a matrix |
| `Vision.BlurRadius` | components/DogVisionDisplay.tsx:378 | the stdDeviation is 1.2 for SMALL and 0.6 for every other size (both directions) |
| `Vision.SmallIsBlurriest` | components/DogVisionDisplay.tsx:378 | SMALL's blur is strictly larger than every other size's |
| `Vision.DogVisionFilter` | components/DogVisionDisplay.tsx:351-379 | the filter is two pointwise primitives followed by the size's blur |
| `Vision.DogMatrixChannels` | components/DogVisionDisplay.tsx:365-371 | R' = G' = 0.4·R + 0.6·G, B' = B, A' = A, and on [0,1] inputs no clamping is needed |
| `Vision.PrimaryColours` | components/DogVisionDisplay.tsx:352-371 | pure red maps to 0.4, pure green to 0.6 (so green stays brighter), and pure blue is unchanged |
| `Vision.DogColor` | components/DogVisionDisplay.tsx:365-376 | for every input the filtered colour is in [0,1] with equal red and green channels |
| `Vision.DogColorChannels` | components/DogVisionDisplay.tsx:365-376 | the whole pointwise filter gives clamp(1.05·(0.4·R + 0.6·G)) in both R and G, with B and A untouched |
| `Vision.RedGreenConfusion` | components/DogVisionDisplay.tsx:357-363 | colours with the same red-green mixture, blue and alpha look identical after filtering, and red always equals green |
| `Vision.GainOnlyRedGreen` | components/DogVisionDisplay.tsx:372-376 | the transfer multiplies R and G by 1.05 and leaves B and A alone |
| `Gemini.AnalyzeBreedSize` | services/geminiService.ts:8-54 | the result is either the fallback record or the parse of a non-empty response text; nothing is thrown |
| `Gemini.BreedFallbackOnFailure` | services/geminiService.ts:39-53 | a thrown call, a missing or empty text, or a failed parse gives exactly {MEDIUM, the fixed reasoning, 40} |
| `Gemini.BreedParsedUnchanged` | services/geminiService.ts:39-44 | a non-empty text that parses is returned as parsed |
| `Gemini.SchemaConforming` | services/geminiService.ts:17-35 | the assumption the schema gives: every parsed reply has size SMALL, MEDIUM or LARGE |
| `Gemini.BreedAnalysisValid` | services/geminiService.ts:17-53 | when the model keeps to its response schema (`SchemaConforming`: the `size` enum SMALL, MEDIUM, LARGE), the result never has size UNKNOWN; the fallback also has a positive height and non-empty reasoning |
| `Gemini.FallbackIndex` | services/geminiService.ts:186-189 | floor(r·5) is a valid index of the five fallback captions for every r in [0,1) |
| `Gemini.PickFallback` | services/geminiService.ts:112-118 | the picked fallback is one of the fixed captions and is non-empty |
| `Gemini.GenerateDogThought` | services/geminiService.ts:186-190 | the caption is never empty, and it is either a fallback caption or the trimmed response text |
| `Gemini.ThoughtUsesText` | services/geminiService.ts:186 | a response text with a non-white-space character is returned trimmed |
| `Gemini.ThoughtFallback` | services/geminiService.ts:186-190 | a thrown call, a missing text or an all-white-space text gives the fallback caption at floor(r·5) |
| `Gemini.AssembleParts` | services/geminiService.ts:122-175 | 1 or 2 parts, the prompt always last; one media part exactly for an `image/` file (its own bytes and MIME type) or a `video/` file whose extracted frame is non-empty (sent as `image/jpeg`; a null or empty frame is dropped); the prompt names the breed (or "dog" when it is empty), the scene and the matching picture sentence |
| `Gemini.SeekTime` | services/geminiService.ts:80 | the seek time is min(0.5, duration·0.1), so it is at most 0.5 s and at most a tenth of the duration |
| `Gemini.FrameScale` | services/geminiService.ts:87-88 | the scale lies in (0,1] and is 1 when the frame already fits; otherwise it scales the long edge to exactly 640 |
| `Gemini.CanvasSide` | services/geminiService.ts:89-90 | a canvas side is never longer than the video side |
| `Gemini.FrameFits` | services/geminiService.ts:86-90 | the canvas is never upscaled, both sides are at most 640, and a frame that fits keeps its size |
| `Gemini.FrameGrab.constructor` | services/geminiService.ts:71-85 | a fresh video is at time 0 and a fresh canvas is 300×150 |
| `Gemini.FrameGrab.OnLoadedMetadata` | services/geminiService.ts:78-81 | the video seeks to the seek time, at most 0.5 s and at most a tenth of the duration |
| `Gemini.FrameGrab.OnSeeked` | services/geminiService.ts:83-90 | the canvas gets the scaled frame size: at most 640 per side and never larger than the video |
| `Session.KindOf` | App.tsx:23 | a file is stored as a video exactly when its MIME type starts with "video" |
| `Session.VideoPrefixMismatch` | App.tsx:23 | every `video/` type is stored as a video, but "video" is stored as a video while matching neither prefix the caption request tests |
| `Session.ThoughtBreed` | App.tsx:51 | the breed sent is the explicit breed, else the typed breed, else "Dog"; it is never empty |
| `Session.App.constructor` | App.tsx:8-15 | the initial state: no file, empty breed, no analysis, CASUAL, empty thought, not loading |
| `Session.App.DisplaySize` | App.tsx:299 | the display gets the analysed size, or LARGE when there is no analysis |
| `Session.App.UpdateDogThoughtStart` | App.tsx:44-54 | without a file in the handler's view nothing changes; otherwise the thought is cleared, loading starts and one request is issued for the chosen breed, scene and file |
| `Session.App.CompleteDogThought` | App.tsx:55-58 | the caption is stored and the loading flag cleared, whichever request it answers |
| `Session.App.FileOrSceneEffect` | App.tsx:67-71 | with a file, a thought request starts for the typed breed and the current scene; without one, nothing changes |
| `Session.App.HandleFileChange` | App.tsx:19-26 | no selection changes nothing; a selection is stored with its URL, kind, name and file, and a thought request starts for it |
| `Session.App.EditBreedInput` | App.tsx:201 | the typed text becomes `breedInput` |
| `Session.App.SelectScene` | App.tsx:243-256 | the scene is set; a different scene with a file present starts a thought request, while the same scene or no file changes nothing else |
| `Session.App.HandleAnalyzeBreedStart` | App.tsx:29-34 | a blank breed changes nothing; otherwise `isLoading` is set and the untrimmed breed is sent with the handler's view |
| `Session.App.HandleAnalyzeBreedComplete` | App.tsx:34-40 | the analysis replaces the old one, `isLoading` is cleared, and a thought request starts from the view the analysis started with |
| `Session.App.HandleRegenerateThought` | App.tsx:62-64 | with a file, a thought request starts for the typed breed and the current scene |
| `Session.App.HandleReset` | App.tsx:73-80 | file, breed, analysis, thought and scene return to their initial values; both loading flags are unchanged |
| `Session.RegenerateRace` | App.tsx:44-71 | a regeneration followed by a scene change: the first completion clears loading, and the earlier request for the old scene, completing last, overwrites the caption although the scene is now the new one |
| `Session.CaptionAfterReset` | App.tsx:44-80 | a caption requested before a reset is still stored after the reset |
| `Session.AnalysisAfterReset` | App.tsx:29-80 | an analysis resolving after a reset stores its result and still starts a caption request |

## Left out

- The parse oracle returns a whole `BreedAnalysis`, so a parsed reply is assumed to carry all three fields (and, under `Gemini.SchemaConforming`, a known size). A reply without `size` would make `analysis.size.toString()` (App.tsx:37) throw after the analysis is stored: loading is still cleared, but no caption request is made. That path needs the model to break its response schema and is not modelled.
- The calls to the generative model, `JSON.parse`, `FileReader`, the video element's loading and decoding, canvas drawing, `toDataURL`, and object URL creation and release are browser or foreign-library I/O. The model takes their results as parameters: a reply that throws or carries an optional text, a parse function, the image's base64 data, an optional extracted frame, and a URL.
- `Math.random` is a real parameter in [0,1).
- Real asynchrony and React's scheduling are reduced to explicit start and complete methods. The caller decides which completion arrives when, so the model makes no ordering claims beyond what the handlers themselves do.
- Clearing the file input element's value in `handleReset` is DOM state, not session state.
- The `currentSize` argument of `updateDogThought` is never read, so it is not modelled.
- The `showOriginal` and `showFeet` toggles, JSX layout, class strings, `getSceneButtonClass`, the header and footer, the thought-bubble markup and the caption texts beyond `getVisionConfig` are presentation.
- The disabled state of the analyse button is presentation. The Enter key calls the handler without that check, so `HandleAnalyzeBreedStart` has no `isLoading` guard, as in the code.
- SVG path geometry, the gradients, the `softShadow` filter, the Gaussian convolution itself and CSS transitions are rendering. The model keeps the chosen variant, colour, placement, scale and blur radius.
- The filter's colour space is not modelled. By default SVG filters work on linearRGB values, and the sRGB/linearRGB conversion is left out: channel values are those of the working colour space.
- The prompt's wording and the lower-casing of the scene name are left out. The prompt part keeps the interpolated persona, the scene and which picture sentence is included.
- Numbers are exact reals. Floating-point rounding, and NaN or infinite video durations, are not modelled. The one infinity the frame code relies on, 640/0 for a 0×0 video, is modelled by its outcome: scale 1.
- The regenerate button is hidden while a caption loads, so two regenerations cannot overlap from the UI; `HandleRegenerateThought` itself has no guard, and the race is shown with a scene change, whose buttons stay enabled.
- `Gemini.BreedAnalysisValid`: does not promise a positive height or non-empty reasoning for a parsed reply, because the response schema types those fields but does not bound them.
- `Vision.DogColor` covers only the pointwise part of the filter. The blur mixes neighbouring pixels and is represented only by its radius.
