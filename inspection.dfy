/**
 * The decision logic of the inspection window: the camera controls built from the saved
 * camera settings, the detection parameters read and clamped from their JSON file, the
 * fallback when alignment fails, and the bookkeeping of `_show_defects` (dominant cue
 * label, can number, radius floors, sheet and can counters).
 */
module InspectionWindow {
  import opened Wrappers
  import opened Clamps
  import opened Masks
  import opened JsonValues
  import DefectDetector

  // ---------------------------------------------------------------------------
  // Camera controls
  // ---------------------------------------------------------------------------

  /** The controls dict handed to Picamera2: automatic exposure and white balance, and the
      five optional controls, each `None` when its key is absent from the dict. */
  datatype Controls = Controls(
    aeEnable: bool, awbEnable: bool,
    exposureTime: Option<int>, analogueGain: Option<real>, colourGains: Option<(real, real)>,
    brightness: Option<real>, contrast: Option<real>)

  /** A saved `ColourGains` entry that is unpacked: a list of exactly two values. */
  predicate IsGainPair(j: Json) {
    j.JArray? && |j.items| == 2
  }

  /** `int(params[key])` when the key is present: `Some(None)` when it is absent, `None`
      when `int()` raises. */
  function OptionalInt(params: map<string, Json>, key: string): (r: Option<Option<int>>)
    ensures key !in params ==> r == Some(None)
    ensures key in params ==> (r.None? <==> PyInt(params[key]).None?)
    ensures key in params && r.Some? ==> r.value == PyInt(params[key])
  {
    if key !in params then Some(None)
    else match PyInt(params[key])
      case None => None
      case Some(i) => Some(Some(i))
  }

  /** `float(params[key])` when the key is present, as for `OptionalInt`. */
  function OptionalReal(params: map<string, Json>, key: string): (r: Option<Option<real>>)
    ensures key !in params ==> r == Some(None)
    ensures key in params ==> (r.None? <==> PyFloat(params[key]).None?)
    ensures key in params && r.Some? ==> r.value == PyFloat(params[key])
  {
    if key !in params then Some(None)
    else match PyFloat(params[key])
      case None => None
      case Some(x) => Some(Some(x))
  }

  /** `(float(rg), float(bg))`, only for a two-element `ColourGains` list. */
  function OptionalGains(params: map<string, Json>): (r: Option<Option<(real, real)>>)
    ensures !("ColourGains" in params && IsGainPair(params["ColourGains"])) ==> r == Some(None)
    ensures "ColourGains" in params && IsGainPair(params["ColourGains"]) ==>
              var g := params["ColourGains"].items;
              && (r.None? <==> PyFloat(g[0]).None? || PyFloat(g[1]).None?)
              && (r.Some? ==> r.value == Some((PyFloat(g[0]).value, PyFloat(g[1]).value)))
  {
    if "ColourGains" in params && IsGainPair(params["ColourGains"]) then
      var g := params["ColourGains"].items;
      match (PyFloat(g[0]), PyFloat(g[1]))
      case (Some(rg), Some(bg)) => Some(Some((rg, bg)))
      case _ => None
    else Some(None)
  }

  /** `_build_controls_from_params`: automatic exposure and white balance off; exposure time,
      gain, brightness and contrast exactly when saved, colour gains exactly for a saved
      two-element list. `None` stands for the exception of a value that does not convert. */
  function BuildControls(params: map<string, Json>): (r: Option<Controls>)
    ensures r.Some? ==> !r.value.aeEnable && !r.value.awbEnable
    ensures r.Some? ==> (r.value.exposureTime.Some? <==> "ExposureTime" in params)
    ensures r.Some? ==> (r.value.analogueGain.Some? <==> "AnalogueGain" in params)
    ensures r.Some? ==> (r.value.brightness.Some? <==> "Brightness" in params)
    ensures r.Some? ==> (r.value.contrast.Some? <==> "Contrast" in params)
    ensures r.Some? ==> (r.value.colourGains.Some? <==> "ColourGains" in params && IsGainPair(params["ColourGains"]))
    ensures r.Some? && "ExposureTime" in params ==> r.value.exposureTime == PyInt(params["ExposureTime"])
    ensures r.Some? && "AnalogueGain" in params ==> r.value.analogueGain == PyFloat(params["AnalogueGain"])
    ensures r.Some? && "Brightness" in params ==> r.value.brightness == PyFloat(params["Brightness"])
    ensures r.Some? && "Contrast" in params ==> r.value.contrast == PyFloat(params["Contrast"])
    ensures r.None? <==> || ("ExposureTime" in params && PyInt(params["ExposureTime"]).None?)
                         || ("AnalogueGain" in params && PyFloat(params["AnalogueGain"]).None?)
                         || OptionalGains(params).None?
                         || ("Brightness" in params && PyFloat(params["Brightness"]).None?)
                         || ("Contrast" in params && PyFloat(params["Contrast"]).None?)
  {
    var et := OptionalInt(params, "ExposureTime");
    var ag := OptionalReal(params, "AnalogueGain");
    var cg := OptionalGains(params);
    var br := OptionalReal(params, "Brightness");
    var ct := OptionalReal(params, "Contrast");
    if et.None? || ag.None? || cg.None? || br.None? || ct.None? then None
    else Some(Controls(false, false, et.value, ag.value, cg.value, br.value, ct.value))
  }

  // ---------------------------------------------------------------------------
  // Detection parameters (`_load_params`)
  // ---------------------------------------------------------------------------

  /** The parameters `detect_defects` has always taken. */
  datatype CoreParams = CoreParams(
    darkThreshold: int, brightThreshold: int,
    darkMorphKernel: int, darkMorphIterations: int,
    brightMorphKernel: int, brightMorphIterations: int,
    minDefectArea: int, darkGradientThreshold: int,
    blueThreshold: int, redThreshold: int)

  /** The MS-SSIM structure cue. */
  datatype MsssimParams = MsssimParams(
    useMsSsim: bool, percentile: real, weight: real,
    kernels: seq<int>, sigmas: seq<real>, morphKernel: int, morphIterations: int)

  /** The top-hat / black-hat maps and the colour-difference map. */
  datatype MapParams = MapParams(
    useMorphMaps: bool, thTopPercentile: real, thBlackPercentile: real, seTop: int, seBlack: int,
    useColorDelta: bool, colorMetric: string, colorPercentile: real)

  /** The final fusion. */
  datatype FusionParams = FusionParams(
    fusionMode: string, wStruct: real, wTop: real, wBlack: real, wColor: real, fusedPercentile: real)

  datatype InspectionParams = InspectionParams(core: CoreParams, msssim: MsssimParams, maps: MapParams, fusion: FusionParams)

  /** `params.get(key, default)`. */
  function Get(f: map<string, Json>, key: string, default: Json): Json {
    if key in f then f[key] else default
  }

  /** `int(params.get(key, default))`. */
  function ReadInt(f: map<string, Json>, key: string, default: int): (r: Option<int>)
    ensures key !in f ==> r == Some(default)
  {
    PyInt(Get(f, key, JInt(default)))
  }

  /** `float(params.get(key, default))`. */
  function ReadReal(f: map<string, Json>, key: string, default: real): (r: Option<real>)
    ensures key !in f ==> r == Some(default)
  {
    PyFloat(Get(f, key, JFloat(default)))
  }

  /** `bool(int(params.get(key, 1)))`. */
  function ReadFlag(f: map<string, Json>, key: string): (r: Option<bool>)
    ensures key !in f ==> r == Some(true)
  {
    match ReadInt(f, key, 1)
    case None => None
    case Some(i) => Some(i != 0)
  }

  /** `detect_area` (the older name) wins over `min_defect_area`; the default is 1. */
  function MinAreaSource(f: map<string, Json>): (j: Json)
    ensures "detect_area" in f ==> j == f["detect_area"]
    ensures "detect_area" !in f && "min_defect_area" in f ==> j == f["min_defect_area"]
    ensures "detect_area" !in f && "min_defect_area" !in f ==> j == JInt(1)
  {
    if "detect_area" in f then f["detect_area"] else Get(f, "min_defect_area", JInt(1))
  }

  /** The conversions of the core parameters, before any clamp. */
  function ReadCore(f: map<string, Json>): Option<CoreParams> {
    var dt := ReadInt(f, "dark_threshold", 30);
    var bt := ReadInt(f, "bright_threshold", 30);
    var dk := ReadInt(f, "dark_morph_kernel_size", 3);
    var di := ReadInt(f, "dark_morph_iterations", 1);
    var bk := ReadInt(f, "bright_morph_kernel_size", 3);
    var bi := ReadInt(f, "bright_morph_iterations", 1);
    var ma := PyInt(MinAreaSource(f));
    var dg := ReadInt(f, "dark_gradient_threshold", 10);
    var blt := ReadInt(f, "blue_threshold", 25);
    var rt := ReadInt(f, "red_threshold", 25);
    if || dt.None? || bt.None? || dk.None? || di.None? || bk.None? || bi.None? || ma.None?
       || dg.None? || blt.None? || rt.None?
    then None
    else Some(CoreParams(dt.value, bt.value, dk.value, di.value, bk.value, bi.value,
                         ma.value, dg.value, blt.value, rt.value))
  }

  function ReadMsssim(f: map<string, Json>): Option<MsssimParams> {
    var use := ReadFlag(f, "use_ms_ssim");
    var pct := ReadReal(f, "msssim_percentile", 99.5);
    var w := ReadReal(f, "msssim_weight", 0.5);
    var k1 := ReadInt(f, "msssim_kernel_size_s1", 7);
    var k2 := ReadInt(f, "msssim_kernel_size_s2", 5);
    var k3 := ReadInt(f, "msssim_kernel_size_s3", 3);
    var s1 := ReadReal(f, "msssim_sigma_s1", 1.5);
    var s2 := ReadReal(f, "msssim_sigma_s2", 1.0);
    var s3 := ReadReal(f, "msssim_sigma_s3", 0.8);
    var mk := ReadInt(f, "msssim_morph_kernel_size", 3);
    var mi := ReadInt(f, "msssim_morph_iterations", 1);
    if || use.None? || pct.None? || w.None? || k1.None? || k2.None? || k3.None?
       || s1.None? || s2.None? || s3.None? || mk.None? || mi.None?
    then None
    else Some(MsssimParams(use.value, pct.value, w.value, [k1.value, k2.value, k3.value],
                           [s1.value, s2.value, s3.value], mk.value, mi.value))
  }

  function ReadMaps(f: map<string, Json>, repr: Json -> string): Option<MapParams> {
    var umm := ReadFlag(f, "use_morph_maps");
    var tt := ReadReal(f, "th_top_percentile", 99.5);
    var tb := ReadReal(f, "th_black_percentile", 99.5);
    var st := ReadInt(f, "se_top", 9);
    var sb := ReadInt(f, "se_black", 9);
    var ucd := ReadFlag(f, "use_color_delta");
    var cm := PyStr(Get(f, "color_metric", JStr("maxab")), repr);
    var cp := ReadReal(f, "color_percentile", 99.0);
    if umm.None? || tt.None? || tb.None? || st.None? || sb.None? || ucd.None? || cp.None? then None
    else Some(MapParams(umm.value, tt.value, tb.value, st.value, sb.value, ucd.value, cm, cp.value))
  }

  function ReadFusion(f: map<string, Json>, repr: Json -> string): Option<FusionParams> {
    var fm := PyStr(Get(f, "fusion_mode", JStr("or")), repr);
    var ws := ReadReal(f, "w_struct", 0.50);
    var wt := ReadReal(f, "w_top", 0.25);
    var wb := ReadReal(f, "w_black", 0.15);
    var wc := ReadReal(f, "w_color", 0.10);
    var fp := ReadReal(f, "fused_percentile", 99.5);
    if ws.None? || wt.None? || wb.None? || wc.None? || fp.None? then None
    else Some(FusionParams(fm, ws.value, wt.value, wb.value, wc.value, fp.value))
  }

  /** All conversions, before any clamp; `None` stands for the exception of the first value
      that does not convert. */
  function Converted(f: map<string, Json>, repr: Json -> string): (r: Option<InspectionParams>)
    ensures r.Some? ==> |r.value.msssim.kernels| == 3
  {
    var c := ReadCore(f);
    var m := ReadMsssim(f);
    var mp := ReadMaps(f, repr);
    var fu := ReadFusion(f, repr);
    if c.None? || m.None? || mp.None? || fu.None? then None
    else Some(InspectionParams(c.value, m.value, mp.value, fu.value))
  }

  predicate CoreClamped(c: CoreParams) {
    && 0 <= c.darkThreshold <= 255 && 0 <= c.brightThreshold <= 255
    && 0 <= c.blueThreshold <= 255 && 0 <= c.redThreshold <= 255
    && c.darkMorphKernel >= 1 && c.darkMorphKernel % 2 == 1
    && c.brightMorphKernel >= 1 && c.brightMorphKernel % 2 == 1
    && c.darkMorphIterations >= 0 && c.brightMorphIterations >= 0
    && c.minDefectArea >= 1
  }

  predicate MsssimClamped(m: MsssimParams) {
    && |m.kernels| == 3
    && (forall n :: 0 <= n < 3 ==> m.kernels[n] >= 1 && m.kernels[n] % 2 == 1)
    && m.morphKernel >= 1 && m.morphKernel % 2 == 1 && m.morphIterations >= 0
  }

  predicate MapsClamped(mp: MapParams) {
    && 0.0 <= mp.thTopPercentile <= 100.0 && 0.0 <= mp.thBlackPercentile <= 100.0
    && mp.seTop >= 1 && mp.seTop % 2 == 1 && mp.seBlack >= 1 && mp.seBlack % 2 == 1
    && 0.0 <= mp.colorPercentile <= 100.0
  }

  predicate FusionClamped(fu: FusionParams) {
    && 0.0 <= fu.fusedPercentile <= 100.0
    && 0.0 <= fu.wStruct <= 1.0 && 0.0 <= fu.wTop <= 1.0 && 0.0 <= fu.wBlack <= 1.0 && 0.0 <= fu.wColor <= 1.0
  }

  /** The bounds `_load_params` enforces. */
  predicate Clamped(s: InspectionParams) {
    CoreClamped(s.core) && MsssimClamped(s.msssim) && MapsClamped(s.maps) && FusionClamped(s.fusion)
  }

  /** `max(0, v)` on the iteration counts. */
  function NonNeg(i: int): (r: int)
    ensures r >= 0 && (i >= 0 ==> r == i)
  {
    if i < 0 then 0 else i
  }

  /** The thresholds go into [0, 255], the kernels become odd and >= 1, the iterations >= 0,
      the minimum area >= 1; the gradient threshold is left as read. */
  function ClampCore(c: CoreParams): (r: CoreParams)
    ensures CoreClamped(r)
    ensures r.darkGradientThreshold == c.darkGradientThreshold
    ensures r.minDefectArea == (if c.minDefectArea < 1 then 1 else c.minDefectArea)
  {
    CoreParams(
      ClampInt(c.darkThreshold, 0, 255), ClampInt(c.brightThreshold, 0, 255),
      OddAtLeastOne(c.darkMorphKernel), NonNeg(c.darkMorphIterations),
      OddAtLeastOne(c.brightMorphKernel), NonNeg(c.brightMorphIterations),
      if c.minDefectArea < 1 then 1 else c.minDefectArea, c.darkGradientThreshold,
      ClampInt(c.blueThreshold, 0, 255), ClampInt(c.redThreshold, 0, 255))
  }

  /** The three scale kernels and the morphology kernel become odd and >= 1, the iterations
      >= 0; the percentile, the weight and the sigmas are left as read. */
  function ClampMsssim(m: MsssimParams): (r: MsssimParams)
    requires |m.kernels| == 3
    ensures MsssimClamped(r)
    ensures r.useMsSsim == m.useMsSsim && r.percentile == m.percentile && r.weight == m.weight
    ensures r.sigmas == m.sigmas
  {
    m.(kernels := [OddAtLeastOne(m.kernels[0]), OddAtLeastOne(m.kernels[1]), OddAtLeastOne(m.kernels[2])],
       morphKernel := OddAtLeastOne(m.morphKernel), morphIterations := NonNeg(m.morphIterations))
  }

  /** The percentiles go into [0, 100] and the structuring elements become odd and >= 1. */
  function ClampMaps(mp: MapParams): (r: MapParams)
    ensures MapsClamped(r)
    ensures r.useMorphMaps == mp.useMorphMaps && r.useColorDelta == mp.useColorDelta
    ensures r.colorMetric == mp.colorMetric
  {
    mp.(thTopPercentile := ClampReal(mp.thTopPercentile, 0.0, 100.0),
        thBlackPercentile := ClampReal(mp.thBlackPercentile, 0.0, 100.0),
        seTop := OddAtLeastOne(mp.seTop), seBlack := OddAtLeastOne(mp.seBlack),
        colorPercentile := ClampReal(mp.colorPercentile, 0.0, 100.0))
  }

  /** The weights go into [0, 1] and the fused percentile into [0, 100]. */
  function ClampFusion(fu: FusionParams): (r: FusionParams)
    ensures FusionClamped(r)
    ensures r.fusionMode == fu.fusionMode
  {
    FusionParams(fu.fusionMode, ClampReal(fu.wStruct, 0.0, 1.0), ClampReal(fu.wTop, 0.0, 1.0),
                 ClampReal(fu.wBlack, 0.0, 1.0), ClampReal(fu.wColor, 0.0, 1.0),
                 ClampReal(fu.fusedPercentile, 0.0, 100.0))
  }

  /** The clamps of `_load_params`, applied to the converted values. */
  function Clamp(s: InspectionParams): (r: InspectionParams)
    requires |s.msssim.kernels| == 3
    ensures Clamped(r)
  {
    InspectionParams(ClampCore(s.core), ClampMsssim(s.msssim), ClampMaps(s.maps), ClampFusion(s.fusion))
  }

  /** The clamps change exactly the out-of-range values: parameters already within bounds
      come back unchanged, and only those do. */
  lemma ClampFixesExactlyClamped(s: InspectionParams)
    requires |s.msssim.kernels| == 3
    ensures Clamp(s) == s <==> Clamped(s)
  {
    if Clamped(s) {
      var k := s.msssim.kernels;
      assert k == [k[0], k[1], k[2]];
      assert ClampMsssim(s.msssim) == s.msssim;
      assert ClampCore(s.core) == s.core;
      assert ClampMaps(s.maps) == s.maps;
      assert ClampFusion(s.fusion) == s.fusion;
    }
  }

  /** `_load_params`: `load_params(...) or {}` (a falsy document reads as no parameters; any
      other document that is not a JSON object has no `.get` and raises), the conversions,
      then the clamps. `None` stands for the exception, which ends the window's constructor. */
  function LoadParams(doc: Json, repr: Json -> string): (r: Option<InspectionParams>)
    ensures r.Some? ==> Clamped(r.value)
    ensures Truthy(doc) && !doc.JObject? ==> r.None?
  {
    if Truthy(doc) && !doc.JObject? then None
    else
      var f := if doc.JObject? then doc.fields else map[];
      match Converted(f, repr)
      case None => None
      case Some(s) => Some(Clamp(s))
  }

  /** The parameters of a missing or empty parameter object. */
  const InspectionDefaults: InspectionParams := InspectionParams(
    CoreParams(30, 30, 3, 1, 3, 1, 1, 10, 25, 25),
    MsssimParams(true, 99.5, 0.5, [7, 5, 3], [1.5, 1.0, 0.8], 3, 1),
    MapParams(true, 99.5, 99.5, 9, 9, true, "maxab", 99.0),
    FusionParams("or", 0.50, 0.25, 0.15, 0.10, 99.5))

  /** An empty object, and any falsy document, gives the source's defaults, which are
      already within bounds. */
  lemma LoadParamsDefaults(doc: Json, repr: Json -> string)
    requires !Truthy(doc) || doc == JObject(map[])
    ensures LoadParams(doc, repr) == Some(InspectionDefaults)
    ensures Clamped(InspectionDefaults)
  {
    EmptyReadsDefaults(repr);
    ClampFixesExactlyClamped(InspectionDefaults);
  }

  /** Every key missing, each conversion reads its default. */
  lemma EmptyReadsDefaults(repr: Json -> string)
    ensures Converted(map[], repr) == Some(InspectionDefaults)
  {
    var none: map<string, Json> := map[];
    assert ReadCore(none) == Some(InspectionDefaults.core);
    assert ReadMsssim(none) == Some(InspectionDefaults.msssim);
    assert ReadMaps(none, repr) == Some(InspectionDefaults.maps);
    assert ReadFusion(none, repr) == Some(InspectionDefaults.fusion);
  }

  function Max1(i: int): int {
    if i < 1 then 1 else i
  }

  /** `detect_area` is preferred over `min_defect_area`, and the area is forced to >= 1. */
  lemma MinAreaPrefersDetectArea(f: map<string, Json>, repr: Json -> string)
    requires LoadParams(JObject(f), repr).Some?
    ensures var a := LoadParams(JObject(f), repr).value.core.minDefectArea;
            && a >= 1
            && ("detect_area" in f ==> a == Max1(PyInt(f["detect_area"]).value))
            && ("detect_area" !in f && "min_defect_area" in f ==> a == Max1(PyInt(f["min_defect_area"]).value))
            && ("detect_area" !in f && "min_defect_area" !in f ==> a == 1)
  {
    var s := Converted(f, repr).value;
    assert LoadParams(JObject(f), repr).value.core == ClampCore(s.core);
    CoreMinArea(f);
  }

  /** The core's area is the integer read from the preferred key. */
  lemma CoreMinArea(f: map<string, Json>)
    requires ReadCore(f).Some?
    ensures ReadCore(f).value.minDefectArea == PyInt(MinAreaSource(f)).value
  {
  }

  /** `msssim_percentile` and `msssim_weight` are kept exactly as `float()` reads them. */
  lemma MsssimUnclamped(f: map<string, Json>, repr: Json -> string)
    requires LoadParams(JObject(f), repr).Some?
    ensures LoadParams(JObject(f), repr).value.msssim.percentile == ReadReal(f, "msssim_percentile", 99.5).value
    ensures LoadParams(JObject(f), repr).value.msssim.weight == ReadReal(f, "msssim_weight", 0.5).value
  {
  }

  /** The call of `detect_defects` from `_show_defects`: the window's parameters, with the
      overexposure flag and the optional returns left at their defaults (off). */
  function DetectorParams(s: InspectionParams): (p: DefectDetector.DetectParams)
    ensures !p.ignoreOverexposed && !p.returnMsssim && !p.returnFusion
  {
    var c := s.core;
    var m := s.msssim;
    var mp := s.maps;
    var fu := s.fusion;
    DefectDetector.DetectParams(
      c.darkThreshold, c.brightThreshold, c.darkMorphKernel, c.darkMorphIterations,
      c.brightMorphKernel, c.brightMorphIterations, c.minDefectArea, c.darkGradientThreshold,
      c.blueThreshold, c.redThreshold,
      m.useMsSsim, m.percentile, m.weight, DefectDetector.MsSsimConfig(m.kernels, m.sigmas),
      m.morphKernel, m.morphIterations,
      false,
      mp.useMorphMaps, mp.thTopPercentile, mp.thBlackPercentile, mp.seTop, mp.seBlack,
      mp.useColorDelta, mp.colorMetric, mp.colorPercentile,
      fu.fusionMode, fu.wStruct, fu.wTop, fu.wBlack, fu.wColor, fu.fusedPercentile,
      false, false)
  }

  /** With clamped parameters the full pipeline can only fail on `msssim_percentile`, the one
      percentile `_load_params` leaves unclamped. */
  lemma OnlyMsssimPercentileCanFail(d: Dims, safe: Mask, s: InspectionParams)
    requires Clamped(s)
    ensures DefectDetector.FullModeFails(d, safe, DetectorParams(s)) <==>
              s.msssim.useMsSsim && DefectDetector.BadPercentile(d, safe, s.msssim.percentile)
  {
  }

  // ---------------------------------------------------------------------------
  // Alignment fallback
  // ---------------------------------------------------------------------------

  /** A 3x3 homography. */
  datatype Homography = Homography(m: seq<seq<real>>)

  const Identity: Homography := Homography([[1.0, 0.0, 0.0], [0.0, 1.0, 0.0], [0.0, 0.0, 1.0]])

  /** The aligned frame and homography `_show_defects` works with. `attempt` is what
      `align_with_template` returned, `None` when it raised; a failure, or a `None` image or
      homography, falls back to a copy of the current frame and the identity. */
  function AlignOrFallback<I>(current: I, attempt: Option<(Option<I>, Option<Homography>)>): (r: (I, Homography))
    ensures attempt.Some? && attempt.value.0.Some? && attempt.value.1.Some? ==>
              r == (attempt.value.0.value, attempt.value.1.value)
    ensures !(attempt.Some? && attempt.value.0.Some? && attempt.value.1.Some?) ==> r == (current, Identity)
  {
    match attempt
    case Some((Some(aligned), Some(h))) => (aligned, h)
    case _ => (current, Identity)
  }

  /** `np.linalg.inv(H)`, or the identity when inversion raises. `inv` is numpy's inverse,
      `None` for a singular matrix. */
  function InverseOrIdentity(h: Homography, inv: Homography -> Option<Homography>): (r: Homography)
    ensures inv(h).None? ==> r == Identity
    ensures inv(h).Some? ==> r == inv(h).value
  {
    inv(h).GetOr(Identity)
  }

  /** After a failed alignment the drawing needs no reprojection: when numpy inverts the
      identity to itself (or fails), the inverse used is the identity too. */
  lemma FallbackDrawsUnwarped<I>(current: I, attempt: Option<(Option<I>, Option<Homography>)>,
                                 inv: Homography -> Option<Homography>)
    requires !(attempt.Some? && attempt.value.0.Some? && attempt.value.1.Some?)
    requires inv(Identity).None? || inv(Identity) == Some(Identity)
    ensures AlignOrFallback(current, attempt).0 == current
    ensures InverseOrIdentity(AlignOrFallback(current, attempt).1, inv) == Identity
  {
  }

  // ---------------------------------------------------------------------------
  // Dominant label and radii
  // ---------------------------------------------------------------------------

  /** The four cues, in the order of the `mask_types` dict. */
  datatype Label = Dark | Bright | Blue | Red

  datatype CueMasks = CueMasks(dark: Mask, bright: Mask, blue: Mask, red: Mask)

  function Rank(l: Label): nat {
    match l
    case Dark => 0
    case Bright => 1
    case Blue => 2
    case Red => 3
  }

  /** `cv2.countNonZero` of the cue's mask inside the bounding box. */
  function LabelCount(m: CueMasks, l: Label, b: DefectDetector.Box): nat {
    var mask := match l case Dark => m.dark case Bright => m.bright case Blue => m.blue case Red => m.red;
    CountIn(mask, b.y, b.y + b.h, b.x, b.x + b.w)
  }

  /** `max(mask_types, key=count)`: the label with the most pixels in the box; on a tie the
      earliest of dark, bright, blue, red (Python's `max` keeps the first maximum). */
  function DominantLabel(m: CueMasks, b: DefectDetector.Box): (l: Label)
    ensures forall k :: LabelCount(m, k, b) <= LabelCount(m, l, b)
    ensures forall k :: Rank(k) < Rank(l) ==> LabelCount(m, k, b) < LabelCount(m, l, b)
  {
    var l1 := if LabelCount(m, Bright, b) > LabelCount(m, Dark, b) then Bright else Dark;
    var l2 := if LabelCount(m, Blue, b) > LabelCount(m, l1, b) then Blue else l1;
    if LabelCount(m, Red, b) > LabelCount(m, l2, b) then Red else l2
  }

  /** The circle radius in template space: at least 8. */
  function TemplateRadius(enclosing: real): (r: real)
    ensures r >= 8.0 && r >= enclosing
    ensures enclosing >= 8.0 ==> r == enclosing
  {
    if enclosing > 8.0 then enclosing else 8.0
  }

  /** `_warp_radius_T2C`: the reprojected distance (a foreign computation), at least 1. */
  function WarpedRadius(distance: real): (r: real)
    ensures r >= 1.0 && r >= distance
    ensures distance >= 1.0 ==> r == distance
  {
    if distance > 1.0 then distance else 1.0
  }

  /** The drawn radius: the reprojected radius plus 6, at least 24. */
  function DrawnRadius(warped: real): (r: real)
    ensures r >= 24.0 && r >= warped + 6.0
    ensures warped + 6.0 >= 24.0 ==> r == warped + 6.0
  {
    if warped + 6.0 > 24.0 then warped + 6.0 else 24.0
  }

  /** Whatever the reprojection does, the drawn circle has radius at least 24 and is at least
      7 pixels wider than the 1-pixel floor of the reprojected radius. */
  lemma RadiusFloors(enclosing: real, reproject: real -> real)
    ensures TemplateRadius(enclosing) >= 8.0
    ensures DrawnRadius(WarpedRadius(reproject(TemplateRadius(enclosing)))) >= 24.0
  {
  }

  // ---------------------------------------------------------------------------
  // Can number
  // ---------------------------------------------------------------------------

  /** A can instance: its number (`numero_lata`) and the centre of its polygon. */
  datatype CanPolygon = CanPolygon(number: int, cx: real, cy: real)

  function SqDist(p: CanPolygon, x: int, y: int): real {
    (p.cx - x as real) * (p.cx - x as real) + (p.cy - y as real) * (p.cy - y as real)
  }

  /** Index of the first polygon `near` the point, or |polys| when none is. `near` is
      Shapely's "contains the point or lies within 2.0 of it". */
  function FirstNear(polys: seq<CanPolygon>, near: (CanPolygon, int, int) -> bool, x: int, y: int): (k: nat)
    ensures k <= |polys|
    ensures forall i :: 0 <= i < k ==> !near(polys[i], x, y)
    ensures k < |polys| ==> near(polys[k], x, y)
  {
    if polys == [] || near(polys[0], x, y) then 0 else 1 + FirstNear(polys[1..], near, x, y)
  }

  /** `min(polys[..n], key=squared distance)`: the index of the first nearest centre. */
  function NearestIndex(polys: seq<CanPolygon>, n: nat, x: int, y: int): (k: nat)
    requires 1 <= n <= |polys|
    ensures k < n
    ensures forall i :: 0 <= i < n ==> SqDist(polys[k], x, y) <= SqDist(polys[i], x, y)
    ensures forall i :: 0 <= i < k ==> SqDist(polys[i], x, y) > SqDist(polys[k], x, y)
  {
    if n == 1 then 0
    else
      var k := NearestIndex(polys, n - 1, x, y);
      if SqDist(polys[n - 1], x, y) < SqDist(polys[k], x, y) then n - 1 else k
  }

  /** The can number of a defect drawn at (x, y): the first polygon near the point, else the
      one with the nearest centre, else none (no polygons at all). */
  function CanIdOf(polys: seq<CanPolygon>, near: (CanPolygon, int, int) -> bool, x: int, y: int): (r: Option<int>)
    ensures r.None? <==> polys == []
    ensures r.Some? ==> exists i :: 0 <= i < |polys| && polys[i].number == r.value
  {
    var k := FirstNear(polys, near, x, y);
    if k < |polys| then Some(polys[k].number)
    else if polys != [] then Some(polys[NearestIndex(polys, |polys|, x, y)].number)
    else None
  }

  /** The number comes from the first near polygon when there is one, and otherwise from a
      polygon no other centre is nearer than. */
  lemma CanIdChoice(polys: seq<CanPolygon>, near: (CanPolygon, int, int) -> bool, x: int, y: int)
    requires polys != []
    ensures (exists i :: 0 <= i < |polys| && near(polys[i], x, y)) ==>
              exists i :: 0 <= i < |polys| && near(polys[i], x, y) && CanIdOf(polys, near, x, y) == Some(polys[i].number)
                          && forall j :: 0 <= j < i ==> !near(polys[j], x, y)
    ensures (forall i :: 0 <= i < |polys| ==> !near(polys[i], x, y)) ==>
              exists i :: 0 <= i < |polys| && CanIdOf(polys, near, x, y) == Some(polys[i].number)
                          && forall j :: 0 <= j < |polys| ==> SqDist(polys[i], x, y) <= SqDist(polys[j], x, y)
  {
    var k := FirstNear(polys, near, x, y);
    if k == |polys| {
      var n := NearestIndex(polys, |polys|, x, y);
      assert CanIdOf(polys, near, x, y) == Some(polys[n].number);
    }
  }

  /** The search loop of `_show_defects`, with the nearest-centre fallback. */
  method CanId(polys: seq<CanPolygon>, near: (CanPolygon, int, int) -> bool, x: int, y: int)
    returns (id: Option<int>)
    ensures id == CanIdOf(polys, near, x, y)
  {
    var i := 0;
    while i < |polys|
      invariant 0 <= i <= |polys|
      invariant forall j :: 0 <= j < i ==> !near(polys[j], x, y)
    {
      if near(polys[i], x, y) {
        return Some(polys[i].number);
      }
      i := i + 1;
    }
    if polys != [] {
      id := Some(polys[NearestIndex(polys, |polys|, x, y)].number);
    } else {
      id := None;
    }
  }

  // ---------------------------------------------------------------------------
  // Counters
  // ---------------------------------------------------------------------------

  /** A defect contour after reprojection (a foreign computation): its bounding box in
      template space and its rounded centre in the current frame. */
  datatype Found = Found(box: DefectDetector.Box, x: int, y: int)

  /** One entry of `defect_data`: the can number and the dominant cue. */
  datatype DefectRecord = DefectRecord(can: Option<int>, cue: Label)

  function RecordOf(polys: seq<CanPolygon>, near: (CanPolygon, int, int) -> bool, m: CueMasks, d: Found): DefectRecord {
    DefectRecord(CanIdOf(polys, near, d.x, d.y), DominantLabel(m, d.box))
  }

  /** The numbers of the cans with at least one defect (`can_ids`). */
  function CanIds(records: seq<DefectRecord>): (ids: set<int>)
    ensures forall r :: r in records && r.can.Some? ==> r.can.value in ids
    ensures forall i :: i in ids ==> exists r :: r in records && r.can == Some(i)
  {
    set r | r in records && r.can.Some? :: r.can.value
  }

  /** The numbers the polygons carry. */
  function Numbers(polys: seq<CanPolygon>): set<int> {
    set p | p in polys :: p.number
  }

  lemma {:induction false} NumbersBound(polys: seq<CanPolygon>)
    ensures |Numbers(polys)| <= |polys|
  {
    if polys != [] {
      NumbersBound(polys[1..]);
      assert Numbers(polys) == Numbers(polys[1..]) + {polys[0].number} by {
        forall p | p in polys ensures p == polys[0] || p in polys[1..] {
          var i :| 0 <= i < |polys| && polys[i] == p;
          if i > 0 { assert polys[1..][i - 1] == p; }
        }
      }
    }
  }

  lemma SubsetCard(a: set<int>, b: set<int>)
    requires a <= b
    ensures |a| <= |b|
  {
    assert b == a + (b - a);
  }

  /** No more cans are defective than there are cans: every number comes from a polygon. */
  lemma DefectiveAtMostTotal(polys: seq<CanPolygon>, records: seq<DefectRecord>)
    requires forall r :: r in records && r.can.Some? ==> exists i :: 0 <= i < |polys| && polys[i].number == r.can.value
    ensures |CanIds(records)| <= |polys|
  {
    assert CanIds(records) <= Numbers(polys) by {
      forall n | n in CanIds(records) ensures n in Numbers(polys) {
        var r :| r in records && r.can == Some(n);
        var i :| 0 <= i < |polys| && polys[i].number == n;
        assert polys[i] in polys;
      }
    }
    SubsetCard(CanIds(records), Numbers(polys));
    NumbersBound(polys);
  }

  /** The defect percentage shown: defective over total cans, times 100; 0 with no cans. */
  function DefectPercent(defective: nat, total: nat): (pct: real)
    ensures total == 0 ==> pct == 0.0
    ensures defective <= total ==> 0.0 <= pct <= 100.0
    ensures total > 0 ==> pct * total as real == defective as real * 100.0
  {
    if total > 0 then defective as real / total as real * 100.0 else 0.0
  }

  class Inspection {
    var countSheets: nat
    var countTotalCans: nat
    var countGoodCans: nat
    var countDefectCans: nat
    /** `defect_data` of the last sheet. */
    var defectData: seq<DefectRecord>

    /** Every can counted is either good or defective. */
    ghost predicate Valid()
      reads this
    {
      countGoodCans + countDefectCans == countTotalCans
    }

    constructor ()
      ensures Valid()
      ensures countSheets == 0 && countTotalCans == 0 && countGoodCans == 0 && countDefectCans == 0
      ensures defectData == []
    {
      countSheets := 0;
      countTotalCans := 0;
      countGoodCans := 0;
      countDefectCans := 0;
      defectData := [];
    }

    /** The bookkeeping of `_show_defects` for one sheet: label and can number per defect,
        then the counters. */
    method RecordSheet(polys: seq<CanPolygon>, near: (CanPolygon, int, int) -> bool, m: CueMasks, found: seq<Found>)
      modifies this
      requires Valid()
      ensures Valid()
      ensures |defectData| == |found|
      ensures forall i :: 0 <= i < |found| ==> defectData[i] == RecordOf(polys, near, m, found[i])
      ensures countSheets == old(countSheets) + 1
      ensures countTotalCans == old(countTotalCans) + |polys|
      ensures countDefectCans == old(countDefectCans) + |CanIds(defectData)|
      ensures countGoodCans == old(countGoodCans) + (|polys| - |CanIds(defectData)|)
      ensures |CanIds(defectData)| <= |polys|
    {
      var records: seq<DefectRecord> := [];
      var ids: set<int> := {};
      var i := 0;
      while i < |found|
        invariant 0 <= i <= |found|
        invariant |records| == i
        invariant forall j :: 0 <= j < i ==> records[j] == RecordOf(polys, near, m, found[j])
        invariant ids == CanIds(records)
        invariant unchanged(this)
      {
        var cue := DominantLabel(m, found[i].box);
        var can := CanId(polys, near, found[i].x, found[i].y);
        var rec := DefectRecord(can, cue);
        records := records + [rec];
        if can.Some? {
          ids := ids + {can.value};
        }
        i := i + 1;
      }
      forall r | r in records && r.can.Some?
        ensures exists k :: 0 <= k < |polys| && polys[k].number == r.can.value
      {
        var j :| 0 <= j < |records| && records[j] == r;
        assert r.can == CanIdOf(polys, near, found[j].x, found[j].y);
      }
      DefectiveAtMostTotal(polys, records);
      defectData := records;
      var total := |polys|;
      var defects := |ids|;
      var good := if total - defects > 0 then total - defects else 0;
      countSheets := countSheets + 1;
      countTotalCans := countTotalCans + total;
      countGoodCans := countGoodCans + good;
      countDefectCans := countDefectCans + defects;
    }

    /** `defect_pct` after the update: the cumulative share of defective cans. */
    function DefectPct(): (pct: real)
      reads this
      requires Valid()
      ensures 0.0 <= pct <= 100.0
    {
      DefectPercent(countDefectCans, countTotalCans)
    }
  }
}
