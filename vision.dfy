/** The dog-vision display: the scene asset bundles, the owner-feet overlay
    built from leg, sock, shoe and pant primitives, the size-dependent
    perspective zoom, and the dichromatic colour filter with its blur.
    SVG path data is represented by tags; only the choice of variant, colour,
    placement and radius is modelled. */
module Vision {
  import opened Types
  import JsText

  // ---------------------------------------------------------------------------
  // Scene asset bundles

  /** The styling record `getAssets` returns. `footwear` is the record's
      `type` field; every field is a string, as in the source. */
  datatype AssetBundle = AssetBundle(
    footwear: string,
    pantsColor: string,
    pantLength: string,
    shoePrimary: string,
    shoeSecondary: string,
    soleColor: string,
    sockColor: string,
    sockHeight: string,
    skinTone: string,
    texture: string)

  const SkinTone: string := "#ffdbac"

  /** `getAssets(scene)`: a switch over the scene's string value whose
      `default` branch shares the CASUAL bundle. */
  function GetAssets(scene: string): (b: AssetBundle)
    ensures b.footwear in {"SLIPPERS", "RUNNERS", "HEELS", "SNEAKERS"}
    ensures b.pantLength in {"short", "cropped", "skirt", "rolled"}
    ensures b.sockHeight in {"low", "mid", "frilly"}
    ensures b.skinTone == SkinTone
    ensures b.pantsColor != "" && b.shoePrimary != "" && b.shoeSecondary != "" &&
            b.soleColor != "" && b.sockColor != "" && b.texture != ""
  {
    if scene == "INDOOR" then
      AssetBundle("SLIPPERS", "#fcd34d", "short", "#f9a8d4", "#fff", "#fce7f3",
                  "#ffffff", "low", SkinTone, "fluffy")
    else if scene == "SPORT" then
      AssetBundle("RUNNERS", "#374151", "cropped", "#a3e635", "#166534", "#ffffff",
                  "#e2e8f0", "mid", SkinTone, "mesh")
    else if scene == "FANCY" then
      AssetBundle("HEELS", "#db2777", "skirt", "#dc2626", "#7f1d1d", "#000000",
                  "rgba(255,255,255,0.9)", "frilly", SkinTone, "shine")
    else
      AssetBundle("SNEAKERS", "#60a5fa", "rolled", "#3b82f6", "#1d4ed8", "#f8fafc",
                  "#fca5a5", "mid", SkinTone, "canvas")
  }

  /** Every scene has its bundle, as the scene table fixes it: footwear,
      pant length and sock height, then the pant, shoe, sole and sock colours
      and the texture. */
  lemma AssetsPerScene(s: SceneType)
    ensures var b := GetAssets(SceneName(s));
      match s
      case INDOOR =>
        b.footwear == "SLIPPERS" && b.pantLength == "short" && b.sockHeight == "low" &&
        b.pantsColor == "#fcd34d" && b.shoePrimary == "#f9a8d4" && b.shoeSecondary == "#fff" &&
        b.soleColor == "#fce7f3" && b.sockColor == "#ffffff" && b.texture == "fluffy"
      case SPORT =>
        b.footwear == "RUNNERS" && b.pantLength == "cropped" && b.sockHeight == "mid" &&
        b.pantsColor == "#374151" && b.shoePrimary == "#a3e635" && b.shoeSecondary == "#166534" &&
        b.soleColor == "#ffffff" && b.sockColor == "#e2e8f0" && b.texture == "mesh"
      case FANCY =>
        b.footwear == "HEELS" && b.pantLength == "skirt" && b.sockHeight == "frilly" &&
        b.pantsColor == "#db2777" && b.shoePrimary == "#dc2626" && b.shoeSecondary == "#7f1d1d" &&
        b.soleColor == "#000000" && b.sockColor == "rgba(255,255,255,0.9)" && b.texture == "shine"
      case CASUAL =>
        b.footwear == "SNEAKERS" && b.pantLength == "rolled" && b.sockHeight == "mid" &&
        b.pantsColor == "#60a5fa" && b.shoePrimary == "#3b82f6" && b.shoeSecondary == "#1d4ed8" &&
        b.soleColor == "#f8fafc" && b.sockColor == "#fca5a5" && b.texture == "canvas"
  {
  }

  /** A value that is none of the four scene names gets the CASUAL bundle. */
  lemma UnrecognisedSceneIsCasual(scene: string)
    requires forall s: SceneType :: scene != SceneName(s)
    ensures GetAssets(scene) == GetAssets(SceneName(CASUAL))
  {
    assert scene != SceneName(INDOOR) && scene != SceneName(SPORT) && scene != SceneName(FANCY);
  }

  /** Distinct scenes give distinct bundles, so the mapping loses nothing. */
  lemma AssetsDistinguishScenes(s: SceneType, t: SceneType)
    requires s != t
    ensures GetAssets(SceneName(s)) != GetAssets(SceneName(t))
  {
  }

  // ---------------------------------------------------------------------------
  // Drawing primitives

  /** The skin-coloured leg: a tapered quadrilateral of the given width. */
  datatype LegShape = LegShape(skin: string, width: int)

  const DefaultLegWidth: int := 36

  datatype SockPath = LowSockPath | FrillySockPath | MidSockPath

  /** A sock: its outline, its fill, and whether a ruffled top edge (stroked in
      the sock colour) is drawn. */
  datatype SockShape = SockShape(path: SockPath, color: string, ruffle: bool)

  datatype PantPath = ShortsPath | SkirtPath | CroppedPath | RolledPath

  /** A pant or skirt outline, filled with the pant colour under a drop shadow. */
  datatype PantShape = PantShape(path: PantPath, color: string)

  /** The three shoe drawings with the colours each one paints. */
  datatype ShoeShape =
    | HeelShoe(body: string)                                 // spike and body in shoePrimary
    | RunnerShoe(sole: string, upper: string, stripe: string) // sole and toe cap, upper, chevron
    | SlipperShoe(sole: string, upper: string)

  /** `Sock`: "low" and "frilly" have their own outlines, anything else is the
      mid (crew) sock; only "frilly" adds the ruffle. */
  function Sock(color: string, heightType: string): (r: SockShape)
    ensures r.color == color
    ensures r.ruffle <==> r.path == FrillySockPath
  {
    if heightType == "low" then SockShape(LowSockPath, color, false)
    else if heightType == "frilly" then SockShape(FrillySockPath, color, true)
    else SockShape(MidSockPath, color, false)
  }

  /** The sock variants: each named height has its own outline and every
      other value falls back to the mid outline. */
  lemma SockVariants(color: string, heightType: string)
    ensures Sock(color, heightType).path == LowSockPath <==> heightType == "low"
    ensures Sock(color, heightType).path == FrillySockPath <==> heightType == "frilly"
    ensures Sock(color, heightType).ruffle <==> heightType == "frilly"
    ensures heightType != "low" && heightType != "frilly" ==> Sock(color, heightType).path == MidSockPath
  {
  }

  /** `Pant`: "short", "skirt" and "cropped" have their own outlines, anything
      else is the rolled-jeans outline. */
  function Pant(color: string, length: string): (r: PantShape)
    ensures r.color == color
  {
    if length == "short" then PantShape(ShortsPath, color)
    else if length == "skirt" then PantShape(SkirtPath, color)
    else if length == "cropped" then PantShape(CroppedPath, color)
    else PantShape(RolledPath, color)
  }

  lemma PantVariants(color: string, length: string)
    ensures Pant(color, length).path == ShortsPath <==> length == "short"
    ensures Pant(color, length).path == SkirtPath <==> length == "skirt"
    ensures Pant(color, length).path == CroppedPath <==> length == "cropped"
    ensures Pant(color, length).path == RolledPath <==> length !in {"short", "skirt", "cropped"}
  {
  }

  /** `RenderShoe`: dispatch on the bundle's footwear string. */
  function RenderShoe(style: AssetBundle): (r: ShoeShape)
    ensures r.HeelShoe? ==> r.body == style.shoePrimary
    ensures r.RunnerShoe? ==> r == RunnerShoe(style.soleColor, style.shoePrimary, style.shoeSecondary)
    ensures r.SlipperShoe? ==> r == SlipperShoe(style.soleColor, style.shoePrimary)
  {
    if style.footwear == "HEELS" then HeelShoe(style.shoePrimary)
    else if style.footwear == "RUNNERS" || style.footwear == "SNEAKERS" then
      RunnerShoe(style.soleColor, style.shoePrimary, style.shoeSecondary)
    else SlipperShoe(style.soleColor, style.shoePrimary)
  }

  /** HEELS gives the heel, RUNNERS and SNEAKERS the same runner drawing, and
      every other footwear string (SLIPPERS included) the slipper. */
  lemma ShoeVariants(style: AssetBundle)
    ensures RenderShoe(style).HeelShoe? <==> style.footwear == "HEELS"
    ensures RenderShoe(style).RunnerShoe? <==> style.footwear in {"RUNNERS", "SNEAKERS"}
    ensures RenderShoe(style).SlipperShoe? <==> style.footwear !in {"HEELS", "RUNNERS", "SNEAKERS"}
    ensures style.footwear == "RUNNERS" ==>
      RenderShoe(style) == RenderShoe(style.(footwear := "SNEAKERS"))
    ensures ShoeLift(RenderShoe(style)) == 15 <==> style.footwear !in {"HEELS", "RUNNERS", "SNEAKERS"}
  {
  }

  /** The `translate(0, dy)` each shoe drawing gets inside the leg group:
      the slipper sits lower than the heel and the runner. */
  function ShoeLift(shoe: ShoeShape): (dy: int)
    ensures dy == 10 || dy == 15
    ensures dy == 15 <==> shoe.SlipperShoe?
  {
    match shoe
    case HeelShoe(_) => 10
    case RunnerShoe(_, _, _) => 10
    case SlipperShoe(_, _) => 15
  }

  // ---------------------------------------------------------------------------
  // Owner-feet overlay

  datatype Layer =
    | LegLayer(leg: LegShape)
    | SockLayer(sock: SockShape)
    | ShoeLayer(shoe: ShoeShape, dy: int)
    | PantLayer(pant: PantShape)

  /** translate(dx, dy) rotate(degrees) of one leg group. */
  datatype Placement = Placement(dx: int, dy: int, degrees: int)

  datatype LegGroup = LegGroup(placement: Placement, layers: seq<Layer>)

  /** One leg, painted bottom to top; a missing sock height defaults to "mid"
      and a missing pant length to "rolled". */
  function LegLayers(style: AssetBundle): (layers: seq<Layer>)
    ensures |layers| == 4
    ensures layers[0].LegLayer? && layers[1].SockLayer? && layers[2].ShoeLayer? && layers[3].PantLayer?
  {
    [ LegLayer(LegShape(style.skinTone, DefaultLegWidth)),
      SockLayer(Sock(style.sockColor, JsText.Or(style.sockHeight, "mid"))),
      ShoeLayer(RenderShoe(style), ShoeLift(RenderShoe(style))),
      PantLayer(Pant(style.pantsColor, JsText.Or(style.pantLength, "rolled"))) ]
  }

  /** `OwnerFeetOverlay`: two leg groups built from the same bundle, differing
      only in their placement. */
  function OwnerFeetOverlay(scene: string): (legs: seq<LegGroup>)
    ensures |legs| == 2
    ensures legs[0].placement == Placement(120, 80, -5)
    ensures legs[1].placement == Placement(240, 90, 8)
    ensures legs[0].layers == legs[1].layers
  {
    var style := GetAssets(scene);
    [ LegGroup(Placement(120, 80, -5), LegLayers(style)),
      LegGroup(Placement(240, 90, 8), LegLayers(style)) ]
  }

  /** Each leg of the overlay is Leg, Sock, Shoe, Pant, drawn from the scene's
      bundle; the pant is painted last, over the shoe and sock. */
  lemma OverlayLayering(scene: string, i: int)
    requires 0 <= i < 2
    ensures var style := GetAssets(scene);
      var layers := OwnerFeetOverlay(scene)[i].layers;
      layers == [ LegLayer(LegShape(SkinTone, DefaultLegWidth)),
                  SockLayer(Sock(style.sockColor, style.sockHeight)),
                  ShoeLayer(RenderShoe(style), ShoeLift(RenderShoe(style))),
                  PantLayer(Pant(style.pantsColor, style.pantLength)) ]
  {
  }

  /** The overlay's defaults agree with the primitives' own fallbacks: an
      empty sock height draws the mid sock and an empty pant length the
      rolled jeans, exactly as if the default had been passed. */
  lemma OverlayDefaultsAgree(color: string, h: string, len: string)
    ensures Sock(color, JsText.Or(h, "mid")) == Sock(color, h)
    ensures Pant(color, JsText.Or(len, "rolled")) == Pant(color, len)
  {
  }

  // ---------------------------------------------------------------------------
  // Perspective

  datatype Anchor = BottomCenter

  /** A CSS `transform: scale(k)` with its `transformOrigin`. */
  datatype Zoom = Zoom(scale: real, origin: Anchor)

  /** `getVisionConfig`: the media container's zoom (none for UNKNOWN), the
      overlay's scale class as a percentage, whether that class also anchors
      the overlay at its bottom right, and the perspective caption. */
  datatype VisionConfig = VisionConfig(
    container: Option<Zoom>,
    feetScalePercent: nat,
    feetAnchoredBottomRight: bool,
    description: string)

  function GetVisionConfig(size: DogSize): (c: VisionConfig)
    ensures c.container.Some? <==> size != UNKNOWN
    ensures c.container.Some? ==> c.container.value.origin == BottomCenter
    ensures c.feetAnchoredBottomRight <==> size != UNKNOWN
  {
    match size
    case SMALL =>
      VisionConfig(Some(Zoom(3.5, BottomCenter)), 105, true, "Ground level perspective. The world is tall!")
    case MEDIUM =>
      VisionConfig(Some(Zoom(2.0, BottomCenter)), 90, true, "Waist-height perspective.")
    case LARGE =>
      VisionConfig(Some(Zoom(1.3, BottomCenter)), 75, true, "Near human hip-height.")
    case UNKNOWN =>
      VisionConfig(None, 100, false, "")
  }

  /** The zoom the container ends up with; an empty style is scale 1. */
  function EffectiveZoom(size: DogSize): (k: real)
    ensures k >= 1.0
  {
    match GetVisionConfig(size).container
    case Some(z) => z.scale
    case None => 1.0
  }

  /** Smaller dogs see a more magnified world, and every known size magnifies:
      zoom 3.5, 2.0, 1.3 and 1 (no transform) for UNKNOWN, with the overlay
      at 105%, 90%, 75% and 100%. */
  lemma PerspectiveOrdering()
    ensures EffectiveZoom(SMALL) == 3.5 && EffectiveZoom(MEDIUM) == 2.0 &&
            EffectiveZoom(LARGE) == 1.3 && EffectiveZoom(UNKNOWN) == 1.0
    ensures EffectiveZoom(SMALL) > EffectiveZoom(MEDIUM) > EffectiveZoom(LARGE) > EffectiveZoom(UNKNOWN)
    ensures GetVisionConfig(SMALL).feetScalePercent == 105 && GetVisionConfig(MEDIUM).feetScalePercent == 90 &&
            GetVisionConfig(LARGE).feetScalePercent == 75 && GetVisionConfig(UNKNOWN).feetScalePercent == 100
  {
  }

  // ---------------------------------------------------------------------------
  // The dog-vision filter (SVG 1.1 section 15.10 feColorMatrix, section 15.11
  // feComponentTransfer, section 15.17 feGaussianBlur)

  /** A colour with channels in the filter's working colour space. */
  datatype Rgba = Rgba(r: real, g: real, b: real, a: real)

  predicate InUnitRange(p: Rgba) {
    0.0 <= p.r <= 1.0 && 0.0 <= p.g <= 1.0 && 0.0 <= p.b <= 1.0 && 0.0 <= p.a <= 1.0
  }

  function Clamp(x: real): (y: real)
    ensures 0.0 <= y <= 1.0
    ensures 0.0 <= x <= 1.0 ==> y == x
  {
    if x < 0.0 then 0.0 else if x > 1.0 then 1.0 else x
  }

  function ClampAll(p: Rgba): (q: Rgba)
    ensures InUnitRange(q)
    ensures InUnitRange(p) ==> q == p
  {
    Rgba(Clamp(p.r), Clamp(p.g), Clamp(p.b), Clamp(p.a))
  }

  /** feFunc types used: absent (identity) and `linear` (slope·C + intercept). */
  datatype TransferFn = Identity | Linear(slope: real, intercept: real)

  /** A gain of at least 1 with no negative offset never darkens a channel. */
  function Transfer(f: TransferFn, c: real): (r: real)
    ensures f.Identity? ==> r == c
    ensures f.Linear? && f.slope >= 1.0 && f.intercept >= 0.0 && c >= 0.0 ==> r >= c
  {
    match f
    case Identity => c
    case Linear(slope, intercept) => slope * c + intercept
  }

  datatype Primitive =
    | ColorMatrix(values: seq<real>)   // the 20 `values`, row by row
    | ComponentTransfer(funcR: TransferFn, funcG: TransferFn, funcB: TransferFn, funcA: TransferFn)
    | GaussianBlur(stdDeviation: real)

  /** Row `i` of a 4×5 matrix applied to [R G B A 1]. A row with
      non-negative coefficients and no offset maps a [0,1] colour to at least
      0 and at most the sum of its coefficients. */
  function MatrixRow(m: seq<real>, i: nat, p: Rgba): (r: real)
    requires |m| == 20 && i < 4
    ensures InUnitRange(p) && RowNonNegative(m, i) ==>
      0.0 <= r <= m[5 * i] + m[5 * i + 1] + m[5 * i + 2] + m[5 * i + 3]
  {
    var r := m[5 * i] * p.r + m[5 * i + 1] * p.g + m[5 * i + 2] * p.b + m[5 * i + 3] * p.a + m[5 * i + 4];
    if InUnitRange(p) && RowNonNegative(m, i) then
      WeightedSum(m[5 * i], m[5 * i + 1], m[5 * i + 2], m[5 * i + 3], p.r, p.g, p.b, p.a);
      r
    else r
  }

  /** Non-negative weights applied to channels in [0,1] give at least 0 and
      at most the sum of the weights. */
  lemma WeightedSum(wr: real, wg: real, wb: real, wa: real, r: real, g: real, b: real, a: real)
    requires 0.0 <= r <= 1.0 && 0.0 <= g <= 1.0 && 0.0 <= b <= 1.0 && 0.0 <= a <= 1.0
    requires wr >= 0.0 && wg >= 0.0 && wb >= 0.0 && wa >= 0.0
    ensures 0.0 <= wr * r + wg * g + wb * b + wa * a <= wr + wg + wb + wa
  {
    WeightedChannel(wr, r);
    WeightedChannel(wg, g);
    WeightedChannel(wb, b);
    WeightedChannel(wa, a);
    BoundedSum(wr * r, wg * g, wb * b, wa * a, wr, wg, wb, wa);
  }

  /** Sums of bounded non-negative terms are bounded by the sum of the bounds. */
  lemma BoundedSum(x: real, y: real, z: real, t: real, ux: real, uy: real, uz: real, ut: real)
    requires 0.0 <= x <= ux && 0.0 <= y <= uy && 0.0 <= z <= uz && 0.0 <= t <= ut
    ensures 0.0 <= x + y + z + t <= ux + uy + uz + ut
  {
  }

  /** A non-negative weight times a channel in [0,1] lies between 0 and the weight. */
  lemma WeightedChannel(w: real, c: real)
    requires w >= 0.0 && 0.0 <= c <= 1.0
    ensures 0.0 <= w * c <= w
  {
    assert w * c <= w * 1.0;
  }

  /** The result of a pointwise primitive on one pixel, clamped to [0,1]. */
  function ApplyPrimitive(prim: Primitive, p: Rgba): (q: Rgba)
    requires !prim.GaussianBlur?
    requires prim.ColorMatrix? ==> |prim.values| == 20
    ensures InUnitRange(q)
  {
    match prim
    case ColorMatrix(m) =>
      ClampAll(Rgba(MatrixRow(m, 0, p), MatrixRow(m, 1, p), MatrixRow(m, 2, p), MatrixRow(m, 3, p)))
    case ComponentTransfer(fr, fg, fb, fa) =>
      ClampAll(Rgba(Transfer(fr, p.r), Transfer(fg, p.g), Transfer(fb, p.b), Transfer(fa, p.a)))
  }

  predicate Pointwise(prims: seq<Primitive>) {
    forall i :: 0 <= i < |prims| ==>
      !prims[i].GaussianBlur? && (prims[i].ColorMatrix? ==> |prims[i].values| == 20)
  }

  /** A chain of pointwise primitives applied in order: the empty chain is
      the identity, and any other chain ends in [0,1]. */
  function ApplyChain(prims: seq<Primitive>, p: Rgba): (r: Rgba)
    requires Pointwise(prims)
    ensures prims == [] ==> r == p
    ensures prims != [] || InUnitRange(p) ==> InUnitRange(r)
    decreases |prims|
  {
    if prims == [] then p else ApplyChain(prims[1..], ApplyPrimitive(prims[0], p))
  }

  /** Row `i` has non-negative coefficients and a zero offset. */
  predicate RowNonNegative(m: seq<real>, i: nat)
    requires |m| == 20 && i < 4
  {
    m[5 * i] >= 0.0 && m[5 * i + 1] >= 0.0 && m[5 * i + 2] >= 0.0 && m[5 * i + 3] >= 0.0 &&
    m[5 * i + 4] == 0.0
  }

  /** Every row is non-negative with coefficients summing to at most 1. */
  predicate Substochastic(m: seq<real>)
    requires |m| == 20
  {
    forall i :: 0 <= i < 4 ==>
      RowNonNegative(m, i) && m[5 * i] + m[5 * i + 1] + m[5 * i + 2] + m[5 * i + 3] <= 1.0
  }

  /** A substochastic matrix maps [0,1] colours into [0,1] by itself: the
      clamp after it changes nothing. */
  lemma {:induction false} SubstochasticNeedsNoClamp(m: seq<real>, p: Rgba)
    requires |m| == 20 && Substochastic(m) && InUnitRange(p)
    ensures ApplyPrimitive(ColorMatrix(m), p) ==
      Rgba(MatrixRow(m, 0, p), MatrixRow(m, 1, p), MatrixRow(m, 2, p), MatrixRow(m, 3, p))
  {
    var q := Rgba(MatrixRow(m, 0, p), MatrixRow(m, 1, p), MatrixRow(m, 2, p), MatrixRow(m, 3, p));
    assert RowNonNegative(m, 0) && m[0] + m[1] + m[2] + m[3] <= 1.0;
    assert RowNonNegative(m, 1) && m[5] + m[6] + m[7] + m[8] <= 1.0;
    assert RowNonNegative(m, 2) && m[10] + m[11] + m[12] + m[13] <= 1.0;
    assert RowNonNegative(m, 3) && m[15] + m[16] + m[17] + m[18] <= 1.0;
    assert InUnitRange(q);
  }

  const DogMatrix: seq<real> := [
    0.40, 0.60, 0.0, 0.0, 0.0,
    0.40, 0.60, 0.0, 0.0, 0.0,
    0.0,  0.0,  1.0, 0.0, 0.0,
    0.0,  0.0,  0.0, 1.0, 0.0 ]

  /** The dog matrix is substochastic, so its output needs no clamping. */
  lemma DogMatrixSubstochastic()
    ensures Substochastic(DogMatrix)
  {
    assert RowNonNegative(DogMatrix, 0) && RowNonNegative(DogMatrix, 1);
    assert RowNonNegative(DogMatrix, 2) && RowNonNegative(DogMatrix, 3);
  }

  const Gain: real := 1.05

  /** The blur's stdDeviation: 1.2 for a SMALL dog, 0.6 otherwise. */
  function BlurRadius(size: DogSize): (sd: real)
    ensures sd > 0.0
    ensures size == SMALL <==> sd == 1.2
    ensures size != SMALL ==> sd == 0.6
  {
    if size == SMALL then 1.2 else 0.6
  }

  /** A SMALL dog sees more blur than any other size. */
  lemma SmallIsBlurriest(size: DogSize)
    requires size != SMALL
    ensures BlurRadius(SMALL) > BlurRadius(size)
  {
  }

  /** The `dog-vision-filter` element: matrix, then gain on R and G, then blur. */
  function DogVisionFilter(size: DogSize): (f: seq<Primitive>)
    ensures |f| == 3 && Pointwise(f[..2]) && f[2] == GaussianBlur(BlurRadius(size))
  {
    [ ColorMatrix(DogMatrix),
      ComponentTransfer(Linear(Gain, 0.0), Linear(Gain, 0.0), Identity, Identity),
      GaussianBlur(BlurRadius(size)) ]
  }

  /** The colour a pixel gets from the filter's pointwise part (the blur then
      mixes neighbouring pixels, which is not modelled). Whatever the input,
      the result lies in [0,1] and its red and green channels are equal. */
  function DogColor(size: DogSize, p: Rgba): (r: Rgba)
    ensures InUnitRange(r) && r.r == r.g
  {
    var f := DogVisionFilter(size)[..2];
    var m := ApplyPrimitive(f[0], p);
    assert m.r == m.g;
    assert f[1..][1..] == [];
    assert ApplyChain(f, p) == ApplyChain(f[1..], m) == ApplyPrimitive(f[1], m);
    ApplyChain(f, p)
  }

  /** The matrix merges red and green into one channel, 0.4·R + 0.6·G, and
      passes blue and alpha through; on [0,1] inputs no clamping happens. */
  lemma DogMatrixChannels(p: Rgba)
    requires InUnitRange(p)
    ensures var y := 0.4 * p.r + 0.6 * p.g;
      0.0 <= y <= 1.0 &&
      ApplyPrimitive(ColorMatrix(DogMatrix), p) == Rgba(y, y, p.b, p.a)
  {
    var y := 0.4 * p.r + 0.6 * p.g;
    assert MatrixRow(DogMatrix, 0, p) == y && MatrixRow(DogMatrix, 1, p) == y;
    assert MatrixRow(DogMatrix, 2, p) == p.b && MatrixRow(DogMatrix, 3, p) == p.a;
  }

  /** Pure red gives 0.4, pure green 0.6 (green stays brighter than red), and
      pure blue is unchanged. */
  lemma PrimaryColours()
    ensures ApplyPrimitive(ColorMatrix(DogMatrix), Rgba(1.0, 0.0, 0.0, 1.0)) == Rgba(0.4, 0.4, 0.0, 1.0)
    ensures ApplyPrimitive(ColorMatrix(DogMatrix), Rgba(0.0, 1.0, 0.0, 1.0)) == Rgba(0.6, 0.6, 0.0, 1.0)
    ensures ApplyPrimitive(ColorMatrix(DogMatrix), Rgba(0.0, 0.0, 1.0, 1.0)) == Rgba(0.0, 0.0, 1.0, 1.0)
  {
  }

  /** The whole pointwise filter: R and G become the gained, clamped merged
      channel; B and A are untouched. */
  lemma {:induction false} DogColorChannels(size: DogSize, p: Rgba)
    requires InUnitRange(p)
    ensures DogColor(size, p) == Rgba(Clamp(Gain * (0.4 * p.r + 0.6 * p.g)),
                                      Clamp(Gain * (0.4 * p.r + 0.6 * p.g)), p.b, p.a)
  {
    var f := DogVisionFilter(size)[..2];
    DogMatrixChannels(p);
    var m := ApplyPrimitive(f[0], p);
    assert f[1..][1..] == [];
    assert ApplyChain(f, p) == ApplyChain(f[1..], m);
    assert ApplyChain(f[1..], m) == ApplyChain(f[1..][1..], ApplyPrimitive(f[1], m));
  }

  /** Dichromacy: two colours with the same red-green mixture, blue and alpha
      look identical to the dog, however their red and green differ. */
  lemma RedGreenConfusion(size: DogSize, p: Rgba, q: Rgba)
    requires InUnitRange(p) && InUnitRange(q)
    requires 0.4 * p.r + 0.6 * p.g == 0.4 * q.r + 0.6 * q.g && p.b == q.b && p.a == q.a
    ensures DogColor(size, p) == DogColor(size, q)
    ensures DogColor(size, p).r == DogColor(size, p).g
  {
    DogColorChannels(size, p);
    DogColorChannels(size, q);
  }

  /** The gain leaves blue (and alpha) alone and scales only red and green. */
  lemma GainOnlyRedGreen(p: Rgba)
    requires InUnitRange(p) && Gain * p.r <= 1.0 && Gain * p.g <= 1.0
    ensures var t := ApplyPrimitive(DogVisionFilter(SMALL)[1], p);
      t.r == Gain * p.r && t.g == Gain * p.g && t.b == p.b && t.a == p.a
  {
  }
}
