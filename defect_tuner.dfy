/**
 * The defect tuner window's parameter handling: the parameter map with its defaults, the
 * load / merge / validate of a saved JSON file (with the legacy `detect_area` alias), the
 * save coercion, the widget change handlers with their debounce flag, reset-to-defaults,
 * and the "classic" final mask of the preview.
 */
module DefectTuner {
  import opened Wrappers
  import opened Text
  import opened Clamps
  import opened Masks
  import opened JsonValues
  import DefectDetector

  /** A parameter value: the window stores ints, floats and strings. */
  datatype PValue = PInt(i: int) | PFloat(x: real) | PStr(s: string)

  type Params = map<string, PValue>

  const FloatKeys: set<string> := {
    "msssim_percentile", "msssim_weight",
    "msssim_sigma_s1", "msssim_sigma_s2", "msssim_sigma_s3",
    "th_top_percentile", "th_black_percentile",
    "color_percentile", "w_struct", "w_top", "w_black", "w_color",
    "fused_percentile"
  }
  const LoadBoolKeys: set<string> := {"use_ms_ssim", "use_morph_maps", "use_color_delta", "use_heatmap_bg", "ignore_overexposed"}
  /** Saving also writes `final_include_gradient` as a boolean; loading reads it as an int. */
  const SaveBoolKeys: set<string> := LoadBoolKeys + {"final_include_gradient"}
  const StringKeys: set<string> := {"color_metric", "fusion_mode", "final_mode"}
  const SeKeys: set<string> := {"se_top", "se_black"}
  const WeightKeys: set<string> := {"w_struct", "w_top", "w_black", "w_color"}

  /** The window's initial parameter map. */
  const Defaults: Params := map[
    "dark_threshold" := PInt(30),
    "bright_threshold" := PInt(30),
    "blue_threshold" := PInt(25),
    "red_threshold" := PInt(25),
    "dark_morph_kernel_size" := PInt(3),
    "dark_morph_iterations" := PInt(1),
    "bright_morph_kernel_size" := PInt(3),
    "bright_morph_iterations" := PInt(1),
    "dark_gradient_threshold" := PInt(10),
    "min_defect_area" := PInt(1),
    "use_ms_ssim" := PInt(1),
    "msssim_percentile" := PFloat(99.5),
    "msssim_weight" := PFloat(0.5),
    "msssim_kernel_size_s1" := PInt(7),
    "msssim_kernel_size_s2" := PInt(5),
    "msssim_kernel_size_s3" := PInt(3),
    "msssim_sigma_s1" := PFloat(1.5),
    "msssim_sigma_s2" := PFloat(1.0),
    "msssim_sigma_s3" := PFloat(0.8),
    "msssim_morph_kernel_size" := PInt(3),
    "msssim_morph_iterations" := PInt(1),
    "use_morph_maps" := PInt(1),
    "th_top_percentile" := PFloat(99.5),
    "th_black_percentile" := PFloat(99.5),
    "se_top" := PInt(9),
    "se_black" := PInt(9),
    "use_color_delta" := PInt(1),
    "color_metric" := PStr("maxab"),
    "color_percentile" := PFloat(99.0),
    "fusion_mode" := PStr("or"),
    "w_struct" := PFloat(0.50),
    "w_top" := PFloat(0.25),
    "w_black" := PFloat(0.15),
    "w_color" := PFloat(0.10),
    "fused_percentile" := PFloat(99.5),
    "final_mode" := PStr("extended"),
    "final_include_gradient" := PInt(1),
    "use_heatmap_bg" := PInt(1),
    "ignore_overexposed" := PInt(0)
  ]

  /** The ten basic parameters "reset to defaults" restores. */
  const BasicDefaults: Params := map[
    "dark_threshold" := PInt(30),
    "bright_threshold" := PInt(30),
    "blue_threshold" := PInt(25),
    "red_threshold" := PInt(25),
    "dark_morph_kernel_size" := PInt(3),
    "dark_morph_iterations" := PInt(1),
    "bright_morph_kernel_size" := PInt(3),
    "bright_morph_iterations" := PInt(1),
    "dark_gradient_threshold" := PInt(10),
    "min_defect_area" := PInt(1)
  ]

  // ---------------------------------------------------------------------------
  // Conversions of stored values
  // ---------------------------------------------------------------------------

  /** `int(v)` of a stored value. */
  function IntOf(v: PValue): (r: Option<int>)
    ensures v.PInt? ==> r == Some(v.i)
    ensures v.PFloat? ==> r == Some(Trunc(v.x))
    ensures v.PStr? ==> r == ParseInt(v.s)
  {
    match v
    case PInt(i) => Some(i)
    case PFloat(x) => Some(Trunc(x))
    case PStr(s) => ParseInt(s)
  }

  /** `float(v)` of a stored value. */
  function FloatOf(v: PValue): (r: Option<real>)
    ensures v.PInt? ==> r == Some(v.i as real)
    ensures v.PFloat? ==> r == Some(v.x)
    ensures v.PStr? ==> r == ParseReal(v.s)
  {
    match v
    case PInt(i) => Some(i as real)
    case PFloat(x) => Some(x)
    case PStr(s) => ParseReal(s)
  }

  /** `str(v)` of a stored value. */
  function StrOf(v: PValue, repr: Json -> string): string {
    match v
    case PInt(i) => IntToDecimal(i)
    case PFloat(x) => repr(JFloat(x))
    case PStr(s) => s
  }

  // ---------------------------------------------------------------------------
  // Loading
  // ---------------------------------------------------------------------------

  /** The words the robust boolean parse accepts as true. */
  predicate TrueWord(s: string) {
    s == "1" || s == "true" || s == "yes" || s == "on"
  }

  /** The robust boolean parse of a boolean key: 1 or 0. */
  function BoolFlag(j: Json): (b: int)
    ensures b == 0 || b == 1
    ensures j.JInt? ==> (b == 1 <==> j.i != 0)
    ensures j.JBool? ==> (b == 1 <==> j.b)
    ensures j.JStr? ==> (b == 1 <==> TrueWord(Lower(Strip(j.s))))
    ensures !j.JInt? && !j.JBool? && !j.JStr? ==> (b == 1 <==> Truthy(j))
  {
    match j
    case JInt(i) => if i != 0 then 1 else 0
    case JBool(v) => if v then 1 else 0
    case JStr(s) => if TrueWord(Lower(Strip(s))) then 1 else 0
    case _ => if Truthy(j) then 1 else 0
  }

  /** How a key's value is converted when it is loaded. */
  datatype KeyKind = BoolKey | FloatKey | StringKey | IntKey

  /** What the loader reads from a key's name: the conversion it applies and which of the
      validation rules fire on the key. */
  datatype KeyInfo = KeyInfo(kind: KeyKind, kernel: bool, se: bool, iterations: bool,
                             threshold: bool, minArea: bool, percentile: bool, weight: bool)

  function LoadKind(k: string): KeyKind {
    if k in LoadBoolKeys then BoolKey
    else if k in FloatKeys then FloatKey
    else if k in StringKeys then StringKey
    else IntKey
  }

  function InfoOf(k: string): KeyInfo {
    KeyInfo(
      kind := LoadKind(k),
      kernel := Contains(k, "kernel"),
      se := k in SeKeys,
      iterations := Contains(k, "iterations"),
      threshold := (EndsWith(k, "_threshold") || Contains(k, "threshold")) && k !in FloatKeys,
      minArea := k == "min_defect_area",
      percentile := EndsWith(k, "percentile"),
      weight := k in WeightKeys)
  }

  /** The conversion step of a loaded value; `None` means the key is skipped. */
  function Convert(key: KeyInfo, j: Json, repr: Json -> string): (r: Option<PValue>)
    ensures r.Some? ==> Typed(key, r.value)
    ensures key.kind.BoolKey? ==> r == Some(PInt(BoolFlag(j)))
    ensures key.kind.FloatKey? ==> (r.None? <==> PyFloat(j).None?)
    ensures key.kind.StringKey? ==> r == Some(PStr(PyStr(j, repr)))
    ensures key.kind.IntKey? ==> (r.None? <==> PyInt(j).None?)
  {
    match key.kind
    case BoolKey => Some(PInt(BoolFlag(j)))
    case FloatKey => (match PyFloat(j) case Some(x) => Some(PFloat(x)) case None => None)
    case StringKey => Some(PStr(PyStr(j, repr)))
    case IntKey => (match PyInt(j) case Some(i) => Some(PInt(i)) case None => None)
  }

  /** The type a value has after conversion: 0/1, a float, a string or an int. */
  predicate Typed(key: KeyInfo, v: PValue) {
    match key.kind
    case BoolKey => v == PInt(0) || v == PInt(1)
    case FloatKey => v.PFloat?
    case StringKey => v.PStr?
    case IntKey => v.PInt?
  }

  /** Keys whose rule turns the value into an int. */
  predicate IntRuled(key: KeyInfo) {
    key.se || key.iterations || key.threshold || key.minArea
  }

  /** "kernel" keys: below 1 becomes 1, an even int becomes odd. Comparing a string with
      1 raises, which aborts the whole load. */
  function KernelRule(key: KeyInfo, v: PValue): (r: Option<PValue>)
    ensures !key.kernel ==> r == Some(v)
    ensures key.kernel && v.PInt? ==> r == Some(PInt(OddAtLeastOne(v.i)))
    ensures key.kernel && v.PStr? ==> r.None?
    ensures key.kernel && v.PFloat? ==> r.Some? && (r.value.PFloat? ==> r.value.x >= 1.0)
  {
    if !key.kernel then Some(v)
    else match v
      case PInt(i) => Some(PInt(OddAtLeastOne(i)))
      case PFloat(x) => Some(if x < 1.0 then PInt(1) else v)
      case PStr(_) => None
  }

  /** `se_top` / `se_black`: `max(1, int(v))`, then odd. */
  function SeRule(key: KeyInfo, v: PValue): (r: Option<PValue>)
    ensures !key.se ==> r == Some(v)
    ensures key.se ==> (r.None? <==> IntOf(v).None?)
    ensures r.Some? && key.se ==> r.value.PInt? && r.value.i >= 1 && r.value.i % 2 == 1
  {
    if !key.se then Some(v)
    else match IntOf(v)
      case Some(i) => Some(PInt(OddAtLeastOne(i)))
      case None => None
  }

  /** "iterations" keys: `max(0, int(v))`. */
  function IterationsRule(key: KeyInfo, v: PValue): (r: Option<PValue>)
    ensures !key.iterations ==> r == Some(v)
    ensures key.iterations ==> (r.None? <==> IntOf(v).None?)
    ensures r.Some? && key.iterations ==> r.value.PInt? && r.value.i >= 0
  {
    if !key.iterations then Some(v)
    else match IntOf(v)
      case Some(i) => Some(PInt(if i < 0 then 0 else i))
      case None => None
  }

  /** Integer "threshold" keys: `max(0, min(255, int(v)))`. */
  function ThresholdRule(key: KeyInfo, v: PValue): (r: Option<PValue>)
    ensures !key.threshold ==> r == Some(v)
    ensures key.threshold ==> (r.None? <==> IntOf(v).None?)
    ensures r.Some? && key.threshold ==> r.value.PInt? && 0 <= r.value.i <= 255
  {
    if !key.threshold then Some(v)
    else match IntOf(v)
      case Some(i) => Some(PInt(ClampInt(i, 0, 255)))
      case None => None
  }

  /** `min_defect_area`: `max(1, int(v))`. */
  function MinAreaRule(key: KeyInfo, v: PValue): (r: Option<PValue>)
    ensures !key.minArea ==> r == Some(v)
    ensures key.minArea ==> (r.None? <==> IntOf(v).None?)
    ensures r.Some? && key.minArea ==> r.value.PInt? && r.value.i >= 1
  {
    if !key.minArea then Some(v)
    else match IntOf(v)
      case Some(i) => Some(PInt(if i < 1 then 1 else i))
      case None => None
  }

  /** Keys ending in "percentile": `float(v)` clamped to [0, 100]; a failed `float()` keeps
      the value. */
  function PercentileRule(key: KeyInfo, v: PValue): (r: PValue)
    ensures !key.percentile || FloatOf(v).None? ==> r == v
    ensures key.percentile && FloatOf(v).Some? ==> r.PFloat? && 0.0 <= r.x <= 100.0
  {
    if !key.percentile then v
    else match FloatOf(v)
      case Some(x) => PFloat(ClampReal(x, 0.0, 100.0))
      case None => v
  }

  /** The four fusion weights: `float(v)` clamped to [0, 1]; a failed `float()` keeps the
      value. */
  function WeightRule(key: KeyInfo, v: PValue): (r: PValue)
    ensures !key.weight || FloatOf(v).None? ==> r == v
    ensures key.weight && FloatOf(v).Some? ==> r.PFloat? && 0.0 <= r.x <= 1.0
  {
    if !key.weight then v
    else match FloatOf(v)
      case Some(x) => PFloat(ClampReal(x, 0.0, 1.0))
      case None => v
  }

  /** The validation chain, in the order the loader applies it; `None` means an exception
      that aborts the whole load. */
  function Validate(key: KeyInfo, v: PValue): Option<PValue> {
    match KernelRule(key, v)
    case None => None
    case Some(v1) =>
      match SeRule(key, v1)
      case None => None
      case Some(v2) =>
        match IterationsRule(key, v2)
        case None => None
        case Some(v3) =>
          match ThresholdRule(key, v3)
          case None => None
          case Some(v4) =>
            match MinAreaRule(key, v4)
            case None => None
            case Some(v5) => Some(WeightRule(key, PercentileRule(key, v5)))
  }

  /** What every validation rule requires of a value stored under a key. */
  predicate Conforms(key: KeyInfo, v: PValue) {
    match v
    case PInt(i) =>
      && (key.kernel || key.se ==> i >= 1 && i % 2 == 1)
      && (key.iterations ==> i >= 0)
      && (key.threshold ==> 0 <= i <= 255)
      && (key.minArea ==> i >= 1)
      && !key.percentile && !key.weight
    case PFloat(x) =>
      && !IntRuled(key)
      && (key.kernel ==> x >= 1.0)
      && (key.percentile ==> 0.0 <= x <= 100.0)
      && (key.weight ==> 0.0 <= x <= 1.0)
    case PStr(s) =>
      && !IntRuled(key) && !key.kernel
      && (key.percentile || key.weight ==> ParseReal(s).None?)
  }

  /** The rules that fire on a key keep a value of the key's own type (true of every key
      of the default map). */
  predicate Coherent(key: KeyInfo) {
    match key.kind
    case FloatKey => !key.kernel && !IntRuled(key)
    case StringKey => !key.kernel && !IntRuled(key) && !key.percentile && !key.weight
    case _ => !key.percentile && !key.weight
  }

  /** The load clamps: a value that passes validation satisfies every rule, keeps the
      key's type and is 0 or 1 for a boolean key. */
  lemma ValidateConforms(key: KeyInfo, v: PValue)
    requires Coherent(key) && Typed(key, v)
    ensures Validate(key, v).Some? ==> Conforms(key, Validate(key, v).value) && Typed(key, Validate(key, v).value)
  {
    match v
    case PInt(i) =>
      ValidateInt(key, i);
    case PFloat(x) =>
      assert Validate(key, v) == Some(WeightRule(key, PercentileRule(key, v)));
    case PStr(s) =>
      assert Validate(key, v) == Some(v);
  }

  /** The integer rules in the loader's order: kernel, structuring element, iterations,
      threshold, minimum area. */
  function IntRules(key: KeyInfo, i: int): (r: int)
    ensures key.kernel || key.se ==> r >= 1 && r % 2 == 1
    ensures key.iterations ==> r >= 0
    ensures key.threshold ==> 0 <= r <= 255
    ensures key.minArea ==> r >= 1
    ensures i == 0 || i == 1 ==> r == 0 || r == 1
  {
    var a := if key.kernel then OddAtLeastOne(i) else i;
    var b := if key.se then OddAtLeastOne(a) else a;
    var c := if key.iterations && b < 0 then 0 else b;
    var d := if key.threshold then ClampInt(c, 0, 255) else c;
    if key.minArea && d < 1 then 1 else d
  }

  /** On an int, validation is the chain of integer rules, then the float rules. */
  lemma ValidateInt(key: KeyInfo, i: int)
    ensures Validate(key, PInt(i)) == Some(WeightRule(key, PercentileRule(key, PInt(IntRules(key, i)))))
  {
  }

  /** A conforming value passes validation unchanged, so validation is idempotent. */
  lemma ValidateKeeps(key: KeyInfo, v: PValue)
    requires Conforms(key, v)
    ensures Validate(key, v) == Some(v)
  {
  }

  /** A validated value validates to itself. */
  lemma ValidateIdempotent(key: KeyInfo, v: PValue)
    requires Coherent(key) && Typed(key, v) && Validate(key, v).Some?
    ensures Validate(key, Validate(key, v).value) == Validate(key, v)
  {
    ValidateConforms(key, v);
    ValidateKeeps(key, Validate(key, v).value);
  }

  /** The legacy alias: `detect_area` stands for `min_defect_area` when the latter is absent. */
  function Aliased(data: map<string, Json>): (r: map<string, Json>)
    ensures "detect_area" in data && "min_defect_area" !in data ==>
              r == data["min_defect_area" := data["detect_area"]]
    ensures !("detect_area" in data && "min_defect_area" !in data) ==> r == data
  {
    if "detect_area" in data && "min_defect_area" !in data then data["min_defect_area" := data["detect_area"]]
    else data
  }

  /** The merge of one key: kept when the file lacks it or its conversion fails, otherwise
      validated; `None` aborts the load. */
  function Merged(k: string, current: PValue, data: map<string, Json>, repr: Json -> string): Option<PValue> {
    if k !in data then Some(current)
    else match Convert(InfoOf(k), data[k], repr)
      case None => Some(current)
      case Some(v) => Validate(InfoOf(k), v)
  }

  /** Some key of `p` makes the load abort. */
  predicate Aborts(p: Params, data: map<string, Json>, repr: Json -> string) {
    exists k :: k in p && Merged(k, p[k], data, repr).None?
  }

  /** The parameter map after loading `file`: `None` is a missing or unreadable file, a
      document that is not an object changes nothing, and so does an aborted load. */
  function Loaded(p: Params, file: Option<Json>, repr: Json -> string): (r: Params)
    ensures r.Keys == p.Keys
  {
    if file.None? || !file.value.JObject? then p
    else
      var data := Aliased(file.value.fields);
      if Aborts(p, data, repr) then p
      else map k | k in p :: Merged(k, p[k], data, repr).value
  }

  /** The merge: a key the file lacks, or whose value fails conversion, keeps its current
      value; every other key gets the validated file value. Keys of the file that are not
      parameters are ignored (Loaded keeps the key set). */
  lemma LoadedValue(p: Params, fields: map<string, Json>, repr: Json -> string, k: string)
    requires k in p && !Aborts(p, Aliased(fields), repr)
    ensures var data := Aliased(fields);
      && (k !in data ==> Loaded(p, Some(JObject(fields)), repr)[k] == p[k])
      && (k in data && Convert(InfoOf(k), data[k], repr).None? ==> Loaded(p, Some(JObject(fields)), repr)[k] == p[k])
      && (k in data && Convert(InfoOf(k), data[k], repr).Some? ==>
            Some(Loaded(p, Some(JObject(fields)), repr)[k]) == Validate(InfoOf(k), Convert(InfoOf(k), data[k], repr).value))
  {
  }

  /** The alias is used exactly when the file has `detect_area` but no `min_defect_area`. */
  lemma AliasUsed(p: Params, fields: map<string, Json>, repr: Json -> string)
    requires "min_defect_area" in p && "detect_area" in fields && "min_defect_area" !in fields
    requires !Aborts(p, Aliased(fields), repr)
    requires Convert(InfoOf("min_defect_area"), fields["detect_area"], repr).Some?
    ensures Some(Loaded(p, Some(JObject(fields)), repr)["min_defect_area"]) ==
              Validate(InfoOf("min_defect_area"), Convert(InfoOf("min_defect_area"), fields["detect_area"], repr).value)
  {
    LoadedValue(p, fields, repr, "min_defect_area");
  }

  /** Invariant of the parameter map: every value is of its key's type and satisfies the
      validation rules. */
  ghost predicate Valid(p: Params) {
    forall k :: k in p ==> Coherent(InfoOf(k)) && Typed(InfoOf(k), p[k]) && Conforms(InfoOf(k), p[k])
  }

  /** Loading keeps the parameter map valid. */
  lemma LoadKeepsValid(p: Params, file: Option<Json>, repr: Json -> string)
    requires Valid(p)
    ensures Valid(Loaded(p, file, repr))
  {
    if file.Some? && file.value.JObject? {
      var data := Aliased(file.value.fields);
      if !Aborts(p, data, repr) {
        forall k | k in p
          ensures Typed(InfoOf(k), Loaded(p, file, repr)[k]) && Conforms(InfoOf(k), Loaded(p, file, repr)[k])
        {
          if k in data && Convert(InfoOf(k), data[k], repr).Some? {
            ValidateConforms(InfoOf(k), Convert(InfoOf(k), data[k], repr).value);
          }
        }
      }
    }
  }

  // ---------------------------------------------------------------------------
  // Saving
  // ---------------------------------------------------------------------------

  /** The conversion the save applies to a key: boolean keys first (including
      `final_include_gradient`), then float, string and int keys. */
  function SaveKind(k: string): KeyKind {
    if k in SaveBoolKeys then BoolKey else LoadKind(k)
  }

  /** The save converts a key as the load does, except `final_include_gradient`, which it
      writes as a boolean and the load reads as an int. */
  lemma KindsAgree(k: string)
    ensures SaveKind(k) == InfoOf(k).kind || (SaveKind(k).BoolKey? && InfoOf(k).kind.IntKey?)
  {
    if k in SaveBoolKeys && k !in LoadBoolKeys {
      assert k == "final_include_gradient";
      assert k !in FloatKeys && k !in StringKeys;
    }
  }

  /** The saved form of one value: 0/1 for boolean keys, float, str or int by key. */
  function SavedValue(kind: KeyKind, v: PValue, repr: Json -> string): (r: Option<Json>)
    ensures r.Some? && kind.BoolKey? ==> r.value == JInt(0) || r.value == JInt(1)
    ensures r.Some? && kind.FloatKey? ==> r.value.JFloat?
    ensures r.Some? && kind.StringKey? ==> r.value.JStr?
    ensures r.Some? && kind.IntKey? ==> r.value.JInt?
    ensures r.None? <==> ((kind.BoolKey? || kind.IntKey?) && IntOf(v).None?) || (kind.FloatKey? && FloatOf(v).None?)
  {
    match kind
    case BoolKey => (match IntOf(v) case Some(i) => Some(JInt(if i != 0 then 1 else 0)) case None => None)
    case FloatKey => (match FloatOf(v) case Some(x) => Some(JFloat(x)) case None => None)
    case StringKey => Some(JStr(StrOf(v, repr)))
    case IntKey => (match IntOf(v) case Some(i) => Some(JInt(i)) case None => None)
  }

  /** The JSON object the save writes, or `None` when a conversion raises (nothing is
      written then). `detect_area` is added as `int(min_defect_area)`. */
  function Saved(p: Params, repr: Json -> string): (r: Option<map<string, Json>>)
    ensures r.Some? ==> "min_defect_area" in p && IntOf(p["min_defect_area"]).Some?
  {
    if "min_defect_area" !in p || IntOf(p["min_defect_area"]).None? then None
    else if SaveFails(p, repr) then None
    else Some(SavedFields(p, repr)["detect_area" := JInt(IntOf(p["min_defect_area"]).value)])
  }

  /** Some value has no conversion for its key. */
  predicate SaveFails(p: Params, repr: Json -> string) {
    exists k :: k in p && SavedValue(SaveKind(k), p[k], repr).None?
  }

  function SavedFields(p: Params, repr: Json -> string): map<string, Json>
    requires !SaveFails(p, repr)
  {
    map k | k in p :: SavedValue(SaveKind(k), p[k], repr).value
  }

  /** What the save writes: every parameter under its own key, converted by its key's
      type, plus `detect_area` equal to `int(min_defect_area)`. */
  lemma SavedContents(p: Params, repr: Json -> string)
    requires Saved(p, repr).Some?
    ensures Saved(p, repr).value.Keys == p.Keys + {"detect_area"}
    ensures Saved(p, repr).value["detect_area"] == JInt(IntOf(p["min_defect_area"]).value)
    ensures forall k :: k in p && k != "detect_area" ==> Some(Saved(p, repr).value[k]) == SavedValue(SaveKind(k), p[k], repr)
  {
  }

  /** The boolean keys of the save hold 0 or 1. */
  ghost predicate SaveBoolsBinary(p: Params) {
    forall k :: k in p && SaveKind(k).BoolKey? ==> p[k] == PInt(0) || p[k] == PInt(1)
  }

  /** One value survives the save and the reload. */
  lemma ValueRoundTrip(kind: KeyKind, key: KeyInfo, v: PValue, repr: Json -> string)
    requires kind == key.kind || (kind.BoolKey? && key.kind.IntKey?)
    requires Typed(key, v) && Conforms(key, v)
    requires kind.BoolKey? ==> v == PInt(0) || v == PInt(1)
    ensures SavedValue(kind, v, repr).Some?
    ensures Convert(key, SavedValue(kind, v, repr).value, repr) == Some(v)
    ensures Validate(key, v) == Some(v)
  {
    ValidateKeeps(key, v);
  }

  lemma KeyRoundTrip(p: Params, k: string, repr: Json -> string)
    requires Valid(p) && SaveBoolsBinary(p) && k in p
    ensures SavedValue(SaveKind(k), p[k], repr).Some?
    ensures Convert(InfoOf(k), SavedValue(SaveKind(k), p[k], repr).value, repr) == Some(p[k])
    ensures Validate(InfoOf(k), p[k]) == Some(p[k])
  {
    KindsAgree(k);
    ValueRoundTrip(SaveKind(k), InfoOf(k), p[k], repr);
  }

  /** Reloading what was saved gives back a valid parameter map unchanged, whatever the
      values of the map it is merged into (the next window's defaults). */
  lemma SaveLoadRoundTrip(p: Params, q: Params, repr: Json -> string)
    requires Valid(p) && SaveBoolsBinary(p)
    requires "min_defect_area" in p && "detect_area" !in p
    requires q.Keys == p.Keys
    ensures Saved(p, repr).Some?
    ensures Loaded(q, Some(JObject(Saved(p, repr).value)), repr) == p
  {
    forall k | k in p ensures SavedValue(SaveKind(k), p[k], repr).Some? {
      KeyRoundTrip(p, k, repr);
    }
    assert IntOf(p["min_defect_area"]).Some? by {
      KeyRoundTrip(p, "min_defect_area", repr);
    }
    var fields := Saved(p, repr).value;
    assert Aliased(fields) == fields;
    MergeRestores(p, q, fields, repr);
    assert !Aborts(q, fields, repr);
  }

  /** Merging the saved object into a map with the same keys gives back every value. */
  lemma MergeRestores(p: Params, q: Params, fields: map<string, Json>, repr: Json -> string)
    requires Valid(p) && SaveBoolsBinary(p) && "detect_area" !in p && q.Keys == p.Keys
    requires Saved(p, repr).Some? && fields == Saved(p, repr).value
    ensures forall k :: k in q ==> Merged(k, q[k], fields, repr) == Some(p[k])
  {
    forall k | k in q ensures Merged(k, q[k], fields, repr) == Some(p[k]) {
      KeyRoundTrip(p, k, repr);
    }
  }

  // ---------------------------------------------------------------------------
  // The window's widgets
  // ---------------------------------------------------------------------------

  /** A parameter widget with the range it is built with (and, for a float spin box, the
      number of decimals it shows). */
  datatype Widget =
    | SpinBox(lo: int, hi: int)
    | DoubleSpinBox(dlo: real, dhi: real, decimals: nat)
    | CheckBox

  /** The registered parameter widgets, in the order they are built. */
  const Widgets: seq<(string, Widget)> := [
    ("dark_threshold", SpinBox(0, 255)), ("bright_threshold", SpinBox(0, 255)),
    ("blue_threshold", SpinBox(0, 255)), ("red_threshold", SpinBox(0, 255)),
    ("dark_gradient_threshold", SpinBox(0, 255)), ("min_defect_area", SpinBox(1, 100000)),
    ("ignore_overexposed", CheckBox),
    ("dark_morph_kernel_size", SpinBox(1, 31)), ("dark_morph_iterations", SpinBox(0, 10)),
    ("bright_morph_kernel_size", SpinBox(1, 31)), ("bright_morph_iterations", SpinBox(0, 10)),
    ("use_ms_ssim", CheckBox),
    ("msssim_percentile", DoubleSpinBox(90.0, 99.9, 1)), ("msssim_weight", DoubleSpinBox(0.0, 1.0, 2)),
    ("msssim_kernel_size_s1", SpinBox(3, 11)), ("msssim_kernel_size_s2", SpinBox(3, 11)),
    ("msssim_kernel_size_s3", SpinBox(3, 11)),
    ("msssim_sigma_s1", DoubleSpinBox(0.5, 2.5, 2)), ("msssim_sigma_s2", DoubleSpinBox(0.5, 2.5, 2)),
    ("msssim_sigma_s3", DoubleSpinBox(0.5, 2.5, 2)),
    ("msssim_morph_kernel_size", SpinBox(1, 7)), ("msssim_morph_iterations", SpinBox(0, 3)),
    ("use_color_delta", CheckBox), ("color_percentile", DoubleSpinBox(90.0, 99.9, 1)),
    ("w_struct", DoubleSpinBox(0.0, 1.0, 2)), ("w_top", DoubleSpinBox(0.0, 1.0, 2)),
    ("w_black", DoubleSpinBox(0.0, 1.0, 2)), ("w_color", DoubleSpinBox(0.0, 1.0, 2)),
    ("fused_percentile", DoubleSpinBox(90.0, 99.9, 1)),
    ("final_include_gradient", CheckBox)
  ]

  /** The items of the colour-metric and fusion-mode combo boxes. */
  const MetricItems: seq<string> := ["maxab", "l2ab"]
  const FusionItems: seq<string> := ["or", "weighted"]

  /** `x` rounded to `decimals` places (halves up): what a float spin box keeps. */
  function RoundTo(x: real, decimals: nat): (r: real)
    ensures x - 0.5 / Pow10(decimals) < r <= x + 0.5 / Pow10(decimals)
    ensures OnGrid(r, Pow10(decimals))
  {
    RoundScaled(x, Pow10(decimals))
  }

  /** `x` is a whole number of steps `1 / scale`. */
  predicate OnGrid(x: real, scale: real) {
    (x * scale).Floor as real == x * scale
  }

  /** `x` rounded to the nearest multiple of `1 / scale`, halves up. */
  function RoundScaled(x: real, scale: real): (r: real)
    requires scale >= 1.0
    ensures x - 0.5 / scale < r <= x + 0.5 / scale
    ensures OnGrid(r, scale)
  {
    var n := (x * scale + 0.5).Floor;
    RoundBounds(x, scale, n);
    n as real / scale
  }

  lemma RoundBounds(x: real, scale: real, n: int)
    requires scale >= 1.0 && n == (x * scale + 0.5).Floor
    ensures x - 0.5 / scale < n as real / scale <= x + 0.5 / scale
    ensures OnGrid(n as real / scale, scale)
  {
    assert (n as real / scale) * scale == n as real;
    assert x * scale - 0.5 < n as real <= x * scale + 0.5;
    assert (x - 0.5 / scale) * scale == x * scale - 0.5;
    assert (x + 0.5 / scale) * scale == x * scale + 0.5;
  }

  /** A value already on the grid is not changed by rounding. */
  lemma RoundKeeps(x: real, decimals: nat)
    requires OnGrid(x, Pow10(decimals))
    ensures RoundTo(x, decimals) == x
  {
    RoundScaledKeeps(x, Pow10(decimals));
  }

  lemma RoundScaledKeeps(x: real, scale: real)
    requires scale >= 1.0 && OnGrid(x, scale)
    ensures RoundScaled(x, scale) == x
  {
    var m := (x * scale).Floor;
    assert m as real <= x * scale + 0.5 < m as real + 1.0;
    assert (x * scale + 0.5).Floor == m;
  }

  /** The value a widget shows once it is set from the parameter `v`, in the form
      `_sync_params_from_ui` reads it back: a spin box shows `int(v)` clamped to its range,
      a float spin box `float(v)` rounded to its decimals and then clamped, a check box 1
      when `int(v)` is non-zero and 0 otherwise. `None` when `int()`/`float()` raises. */
  function Shown(w: Widget, v: PValue): (r: Option<PValue>)
    ensures r.None? <==> (if w.DoubleSpinBox? then FloatOf(v).None? else IntOf(v).None?)
    ensures r.Some? && w.SpinBox? ==> r.value.PInt? && w.lo <= r.value.i <= (if w.hi < w.lo then w.lo else w.hi)
    ensures r.Some? && w.DoubleSpinBox? ==>
              r.value.PFloat? && w.dlo <= r.value.x <= (if w.dhi < w.dlo then w.dlo else w.dhi)
    ensures r.Some? && w.CheckBox? ==> r.value == PInt(0) || r.value == PInt(1)
  {
    match w
    case SpinBox(lo, hi) =>
      (match IntOf(v)
       case Some(i) => Some(PInt(ClampInt(i, lo, (if hi < lo then lo else hi))))
       case None => None)
    case DoubleSpinBox(lo, hi, d) =>
      (match FloatOf(v)
       case Some(x) => Some(PFloat(ClampReal(RoundTo(x, d), lo, (if hi < lo then lo else hi))))
       case None => None)
    case CheckBox =>
      (match IntOf(v)
       case Some(i) => Some(PInt(if i != 0 then 1 else 0))
       case None => None)
  }

  /** A value the widget can show is shown unchanged: an int in a spin box's range, a float
      in a float spin box's range with no more than its decimals, 0 or 1 in a check box. */
  lemma ShownKeeps(w: Widget, v: PValue)
    requires w.SpinBox? ==> v.PInt? && w.lo <= v.i <= w.hi
    requires w.DoubleSpinBox? ==>
               v.PFloat? && w.dlo <= v.x <= w.dhi && OnGrid(v.x, Pow10(w.decimals))
    requires w.CheckBox? ==> v == PInt(0) || v == PInt(1)
    ensures Shown(w, v) == Some(v)
  {
    if w.DoubleSpinBox? {
      RoundKeeps(v.x, w.decimals);
    }
  }

  /** The values the widgets show after being set from `p`: the widgets whose parameter is
      present and converts, a later widget of the same key winning. */
  function ShownMap(ws: seq<(string, Widget)>, p: Params): (r: map<string, PValue>)
    ensures forall k :: k in r ==> k in p && exists i :: 0 <= i < |ws| && ws[i].0 == k && Shown(ws[i].1, p[k]) == Some(r[k])
  {
    if ws == [] then map[]
    else
      var front := ws[..|ws| - 1];
      var m := ShownMap(front, p);
      var w := ws[|ws| - 1];
      assert forall i :: 0 <= i < |front| ==> front[i] == ws[i];
      if w.0 in p && Shown(w.1, p[w.0]).Some? then m[w.0 := Shown(w.1, p[w.0]).value] else m
  }

  /** Every widget whose parameter is present and converts shows a value. */
  lemma {:induction false} ShownMapCovers(ws: seq<(string, Widget)>, p: Params)
    ensures forall i :: 0 <= i < |ws| && ws[i].0 in p && Shown(ws[i].1, p[ws[i].0]).Some? ==> ws[i].0 in ShownMap(ws, p)
  {
    if ws != [] {
      var front := ws[..|ws| - 1];
      ShownMapCovers(front, p);
      assert forall i :: 0 <= i < |front| ==> front[i] == ws[i];
    }
  }

  /** Building the widgets from `p` raises nowhere: every widget's parameter is present and
      converts. */
  predicate WidgetsBuild(ws: seq<(string, Widget)>, p: Params) {
    forall i :: 0 <= i < |ws| ==> ws[i].0 in p && Shown(ws[i].1, p[ws[i].0]).Some?
  }

  /** `setCurrentText` on a combo box that is not editable: the text is selected when it is
      one of the items, otherwise the first item stays selected. */
  function ComboText(items: seq<string>, text: string): (r: string)
    requires items != []
    ensures r in items
    ensures text in items ==> r == text
    ensures text !in items ==> r == items[0]
  {
    if text in items then text else items[0]
  }

  /** `_sync_params_from_ui`: every registered widget writes the value it shows, then the
      two synced combo boxes write their texts. */
  function Synced(p: Params, shown: map<string, PValue>, metric: string, fusion: string): (r: Params)
    ensures r.Keys == p.Keys + shown.Keys + {"color_metric", "fusion_mode"}
    ensures r["color_metric"] == PStr(metric) && r["fusion_mode"] == PStr(fusion)
    ensures forall k :: k in shown && k != "color_metric" && k != "fusion_mode" ==> r[k] == shown[k]
    ensures forall k :: k in p && k !in shown && k != "color_metric" && k != "fusion_mode" ==> r[k] == p[k]
  {
    (p + shown)["color_metric" := PStr(metric)]["fusion_mode" := PStr(fusion)]
  }

  /** The file holds what the widgets show, not the parameter map as it was: each widget's
      key is saved from the widget's value, each other key from the parameter. */
  lemma SavedFromWidgets(p: Params, shown: map<string, PValue>, metric: string, fusion: string,
                         repr: Json -> string, k: string)
    requires Saved(Synced(p, shown, metric, fusion), repr).Some?
    requires k != "detect_area" && k != "color_metric" && k != "fusion_mode"
    requires k in p || k in shown
    ensures k in shown ==> Some(Saved(Synced(p, shown, metric, fusion), repr).value[k]) == SavedValue(SaveKind(k), shown[k], repr)
    ensures k !in shown ==> Some(Saved(Synced(p, shown, metric, fusion), repr).value[k]) == SavedValue(SaveKind(k), p[k], repr)
  {
    SavedContents(Synced(p, shown, metric, fusion), repr);
  }

  /** The columns of the CSV history log. */
  const LogFields: set<string> := {
    "timestamp", "user", "user_type",
    "dark_threshold", "bright_threshold", "blue_threshold", "red_threshold",
    "dark_morph_kernel_size", "dark_morph_iterations",
    "bright_morph_kernel_size", "bright_morph_iterations",
    "dark_gradient_threshold", "min_defect_area", "detect_area", "ignore_overexposed", "use_heatmap_bg",
    "use_ms_ssim", "msssim_percentile", "msssim_weight",
    "msssim_kernel_size_s1", "msssim_kernel_size_s2", "msssim_kernel_size_s3",
    "msssim_sigma_s1", "msssim_sigma_s2", "msssim_sigma_s3",
    "msssim_morph_kernel_size", "msssim_morph_iterations",
    "use_morph_maps", "th_top_percentile", "th_black_percentile", "se_top", "se_black",
    "use_color_delta", "color_metric", "color_percentile",
    "fusion_mode", "w_struct", "w_top", "w_black", "w_color", "fused_percentile"
  }

  /** `csv.DictWriter.writerow` with the default `extrasaction="raise"`: a row with a key
      outside the columns raises `ValueError`. */
  predicate LogAccepts(row: map<string, Json>) {
    row.Keys <= LogFields
  }

  /** The history log never takes a row of a parameter map that has `final_mode`, which
      every map loaded from the defaults has: the JSON file is written, then the log raises. */
  lemma LogRejectsFinalMode(p: Params, repr: Json -> string)
    requires "final_mode" in p && Saved(p, repr).Some?
    ensures !LogAccepts(Saved(p, repr).value)
  {
    SavedContents(p, repr);
    FinalModeNotLogged();
    assert "final_mode" in Saved(p, repr).value.Keys;
  }

  /** No save of the window is ever logged: its parameters start from the defaults, which
      have `final_mode`, and neither the load nor the sync removes a key. */
  lemma SavesNeverLogged(file: Option<Json>, repr: Json -> string,
                         shown: map<string, PValue>, metric: string, fusion: string)
    requires Saved(Synced(Loaded(Defaults, file, repr), shown, metric, fusion), repr).Some?
    ensures !LogAccepts(Saved(Synced(Loaded(Defaults, file, repr), shown, metric, fusion), repr).value)
  {
    assert "final_mode" in Defaults;
    LogRejectsFinalMode(Synced(Loaded(Defaults, file, repr), shown, metric, fusion), repr);
  }

  /** `final_mode` is not a column of the log. */
  lemma FinalModeNotLogged()
    ensures "final_mode" !in LogFields
  {
  }

  /** The value an integer spin box stores: an even value of a "kernel" parameter is
      raised to the next odd number, any other value is stored as it is. */
  function SliderValue(name: string, value: int): (r: int)
    ensures Contains(name, "kernel") ==> r % 2 == 1 && (r == value || r == value + 1)
    ensures Contains(name, "kernel") && value % 2 == 1 ==> r == value
    ensures !Contains(name, "kernel") ==> r == value
  {
    if Contains(name, "kernel") && value % 2 == 0 then value + 1 else value
  }

  /** The reset loop calls `setValue(int(params[key]))` on a widget: it raises on a check
      box (no `setValue`) and when the parameter is missing or has no `int()`. */
  predicate ResetsWidget(w: (string, Widget), p: Params) {
    !w.1.CheckBox? && w.0 in p && IntOf(p[w.0]).Some?
  }

  /** How many widgets, from `from` on, the reset loop sets before it raises. */
  function ResetPrefix(ws: seq<(string, Widget)>, p: Params, from: nat): (r: nat)
    requires from <= |ws|
    ensures from <= r <= |ws|
    decreases |ws| - from
  {
    if from == |ws| || !ResetsWidget(ws[from], p) then from else ResetPrefix(ws, p, from + 1)
  }

  /** The loop sets every widget before the prefix's end, and cannot set the one there. */
  lemma {:induction false} ResetPrefixStops(ws: seq<(string, Widget)>, p: Params, from: nat)
    requires from <= |ws|
    ensures forall m :: from <= m < ResetPrefix(ws, p, from) ==> ResetsWidget(ws[m], p)
    ensures ResetPrefix(ws, p, from) < |ws| ==> !ResetsWidget(ws[ResetPrefix(ws, p, from)], p)
    decreases |ws| - from
  {
    if from < |ws| && ResetsWidget(ws[from], p) {
      ResetPrefixStops(ws, p, from + 1);
    }
  }

  /** The parameters as `int()` reads them, for the reset's `setValue(int(...))`. */
  function IntParams(p: Params): (r: Params)
    ensures forall k :: k in r <==> k in p && IntOf(p[k]).Some?
    ensures forall k :: k in r ==> r[k] == PInt(IntOf(p[k]).value)
  {
    map k | k in p && IntOf(p[k]).Some? :: PInt(IntOf(p[k]).value)
  }

  class Tuner {
    /** `spin_boxes`: the registered parameter widgets, in the order they were built. */
    const widgets: seq<(string, Widget)>
    /** The ten values `_reset_to_defaults` restores. */
    const basicDefaults: Params
    var params: Params
    /** The value each registered widget shows, as `_sync_params_from_ui` reads it. */
    var shown: map<string, PValue>
    /** The texts of the colour-metric and fusion-mode combo boxes. */
    var metricText: string
    var fusionText: string
    /** `__init__` got through building the widgets; false stands for the exception a
        missing parameter or a failed `int()`/`float()` raises, which leaves no window. */
    var built: bool
    /** `_update_scheduled`: a preview refresh is pending on the single-shot timer. */
    var updateScheduled: bool
    /** How many times the debounce timer was started. */
    var timerStarts: nat
    /** How many times the preview was recomputed. */
    var previewUpdates: nat

    /** The window: the defaults, merged with the saved file, then the widgets built from
        the merged parameters and the first preview. */
    constructor (file: Option<Json>, repr: Json -> string)
      ensures widgets == Widgets && basicDefaults == BasicDefaults
      ensures params == Loaded(Defaults, file, repr)
      ensures built == (WidgetsBuild(Widgets, params) && "color_metric" in params && "fusion_mode" in params)
      ensures built ==> shown == ShownMap(Widgets, params)
      ensures built ==> metricText == ComboText(MetricItems, StrOf(params["color_metric"], repr))
      ensures built ==> fusionText == ComboText(FusionItems, StrOf(params["fusion_mode"], repr))
      ensures !updateScheduled && timerStarts == 0
      ensures previewUpdates == if built then 1 else 0
    {
      widgets := Widgets;
      basicDefaults := BasicDefaults;
      params := Defaults;
      shown := map[];
      metricText := "";
      fusionText := "";
      built := false;
      updateScheduled := false;
      timerStarts := 0;
      previewUpdates := 0;
      new;
      LoadSavedParams(file, repr);
      BuildWidgets(repr);
    }

    /** The rest of `__init__`: the widgets are built from the parameters, in order, then
        the first preview is computed; a missing parameter or a failed conversion raises. */
    method BuildWidgets(repr: Json -> string)
      modifies this
      ensures built == (WidgetsBuild(widgets, params) && "color_metric" in params && "fusion_mode" in params)
      ensures built ==> shown == ShownMap(widgets, params)
      ensures built ==> metricText == ComboText(MetricItems, StrOf(params["color_metric"], repr))
      ensures built ==> fusionText == ComboText(FusionItems, StrOf(params["fusion_mode"], repr))
      ensures previewUpdates == old(previewUpdates) + (if built then 1 else 0)
      ensures params == old(params) && updateScheduled == old(updateScheduled) && timerStarts == old(timerStarts)
    {
      built := WidgetsBuild(widgets, params) && "color_metric" in params && "fusion_mode" in params;
      if built {
        shown := ShownMap(widgets, params);
        metricText := ComboText(MetricItems, StrOf(params["color_metric"], repr));
        fusionText := ComboText(FusionItems, StrOf(params["fusion_mode"], repr));
        previewUpdates := previewUpdates + 1;
      }
    }

    /** `_load_saved_params`: merges the saved file into the parameters. */
    method LoadSavedParams(file: Option<Json>, repr: Json -> string)
      modifies this
      ensures params == Loaded(old(params), file, repr)
      ensures shown == old(shown) && metricText == old(metricText) && fusionText == old(fusionText)
      ensures built == old(built) && updateScheduled == old(updateScheduled)
      ensures timerStarts == old(timerStarts) && previewUpdates == old(previewUpdates)
    {
      if file.None? || !file.value.JObject? {
        return;
      }
      var data := file.value.fields;
      if "detect_area" in data && "min_defect_area" !in data {
        data := data["min_defect_area" := data["detect_area"]];
      }
      assert data == Aliased(file.value.fields);
      var merged := params;
      var todo := params.Keys;
      while todo != {}
        invariant todo <= params.Keys && merged.Keys == params.Keys
        invariant forall k :: k in todo ==> merged[k] == params[k]
        invariant forall k :: k in params && k !in todo ==> Merged(k, params[k], data, repr) == Some(merged[k])
        decreases todo
      {
        var k :| k in todo;
        var v := params[k];
        if k in data {
          var c := Convert(InfoOf(k), data[k], repr);
          if c.Some? {
            var checked := Validate(InfoOf(k), c.value);
            if checked.None? {
              assert Merged(k, params[k], data, repr).None?;
              return;
            }
            v := checked.value;
          }
        }
        merged := merged[k := v];
        todo := todo - {k};
      }
      assert !Aborts(params, data, repr);
      params := merged;
    }

    /** `_sync_params_from_ui`: the registered widgets' values, then the texts of the two
        synced combo boxes, are written into the parameters. */
    method SyncParamsFromUi()
      modifies this
      ensures params == Synced(old(params), shown, metricText, fusionText)
      ensures shown == old(shown) && metricText == old(metricText) && fusionText == old(fusionText)
      ensures built == old(built) && updateScheduled == old(updateScheduled)
      ensures timerStarts == old(timerStarts) && previewUpdates == old(previewUpdates)
    {
      var p := params;
      var todo := shown.Keys;
      while todo != {}
        invariant todo <= shown.Keys
        invariant p.Keys == params.Keys + (shown.Keys - todo)
        invariant forall k :: k in shown && k !in todo ==> p[k] == shown[k]
        invariant forall k :: k in params && (k !in shown || k in todo) ==> p[k] == params[k]
        decreases todo
      {
        var k :| k in todo;
        p := p[k := shown[k]];
        todo := todo - {k};
      }
      assert p == params + shown;
      params := p["color_metric" := PStr(metricText)]["fusion_mode" := PStr(fusionText)];
    }

    /** `_save_current_params`: syncs the parameters from the widgets, then writes the JSON
        object `written` (`None` when a conversion raises and nothing is written), then
        appends the history row; `logged` is false when the log raises. */
    method SaveCurrentParams(repr: Json -> string) returns (written: Option<map<string, Json>>, logged: bool)
      modifies this
      ensures params == Synced(old(params), shown, metricText, fusionText)
      ensures written == Saved(params, repr)
      ensures logged <==> written.Some? && LogAccepts(written.value)
      ensures shown == old(shown) && metricText == old(metricText) && fusionText == old(fusionText)
      ensures built == old(built) && updateScheduled == old(updateScheduled)
      ensures timerStarts == old(timerStarts) && previewUpdates == old(previewUpdates)
    {
      SyncParamsFromUi();
      written := SaveObject(params, repr);
      logged := written.Some? && written.value.Keys <= LogFields;
    }

    /** The debounce: start the timer only when no update is pending. */
    method ScheduleUpdate()
      modifies this
      ensures updateScheduled
      ensures timerStarts == old(timerStarts) + (if old(updateScheduled) then 0 else 1)
      ensures params == old(params) && shown == old(shown) && previewUpdates == old(previewUpdates)
      ensures metricText == old(metricText) && fusionText == old(fusionText) && built == old(built)
    {
      if !updateScheduled {
        updateScheduled := true;
        timerStarts := timerStarts + 1;
      }
    }

    /** `_on_slider_change`: stores `int(value)`, an even "kernel" value made odd in the
        parameter and in the widget. */
    method OnSliderChange(name: string, value: int)
      modifies this
      ensures params == old(params)[name := PInt(SliderValue(name, value))]
      ensures shown == if name in old(shown) then old(shown)[name := PInt(SliderValue(name, value))] else old(shown)
      ensures updateScheduled
      ensures timerStarts == old(timerStarts) + (if old(updateScheduled) then 0 else 1)
      ensures previewUpdates == old(previewUpdates)
      ensures metricText == old(metricText) && fusionText == old(fusionText) && built == old(built)
    {
      var v := value;
      if Contains(name, "kernel") && v % 2 == 0 {
        v := v + 1;
      }
      if name in shown {
        shown := shown[name := PInt(v)];
      }
      params := params[name := PInt(v)];
      ScheduleUpdate();
    }

    /** `_on_slider_change_float`. */
    method OnSliderChangeFloat(name: string, value: real)
      modifies this
      ensures params == old(params)[name := PFloat(value)]
      ensures shown == if name in old(shown) then old(shown)[name := PFloat(value)] else old(shown)
      ensures updateScheduled
      ensures timerStarts == old(timerStarts) + (if old(updateScheduled) then 0 else 1)
      ensures previewUpdates == old(previewUpdates)
      ensures metricText == old(metricText) && fusionText == old(fusionText) && built == old(built)
    {
      if name in shown {
        shown := shown[name := PFloat(value)];
      }
      params := params[name := PFloat(value)];
      ScheduleUpdate();
    }

    /** `_on_checkbox_change`: 1 when checked, 0 otherwise. */
    method OnCheckboxChange(name: string, checked: bool)
      modifies this
      ensures params == old(params)[name := PInt(if checked then 1 else 0)]
      ensures shown == if name in old(shown) then old(shown)[name := PInt(if checked then 1 else 0)] else old(shown)
      ensures updateScheduled
      ensures timerStarts == old(timerStarts) + (if old(updateScheduled) then 0 else 1)
      ensures previewUpdates == old(previewUpdates)
      ensures metricText == old(metricText) && fusionText == old(fusionText) && built == old(built)
    {
      if name in shown {
        shown := shown[name := PInt(if checked then 1 else 0)];
      }
      params := params[name := PInt(if checked then 1 else 0)];
      ScheduleUpdate();
    }

    /** `_on_text_param_change`, from one of the three combo boxes. */
    method OnTextParamChange(name: string, value: string)
      modifies this
      ensures params == old(params)[name := PStr(value)]
      ensures metricText == if name == "color_metric" then value else old(metricText)
      ensures fusionText == if name == "fusion_mode" then value else old(fusionText)
      ensures updateScheduled
      ensures timerStarts == old(timerStarts) + (if old(updateScheduled) then 0 else 1)
      ensures previewUpdates == old(previewUpdates)
      ensures shown == old(shown) && built == old(built)
    {
      if name == "color_metric" {
        metricText := value;
      } else if name == "fusion_mode" {
        fusionText := value;
      }
      params := params[name := PStr(value)];
      ScheduleUpdate();
    }

    /** `_debounced_update`: the timer fired; clear the flag and refresh the preview. */
    method DebouncedUpdate()
      modifies this
      ensures !updateScheduled
      ensures previewUpdates == old(previewUpdates) + 1
      ensures params == old(params) && shown == old(shown) && timerStarts == old(timerStarts)
      ensures metricText == old(metricText) && fusionText == old(fusionText) && built == old(built)
    {
      updateScheduled := false;
      previewUpdates := previewUpdates + 1;
    }

    /** `_reset_to_defaults` as written: the ten basic values are restored, then the widget
        loop sets each widget to `int()` of its parameter; it raises at the first widget it
        cannot set, so later widgets keep what they show and the preview is refreshed only
        when the loop completes. */
    method ResetToDefaultsAsWritten()
      modifies this
      ensures params == old(params) + basicDefaults
      ensures shown == old(shown) + ShownMap(widgets[..ResetPrefix(widgets, params, 0)], IntParams(params))
      ensures previewUpdates == old(previewUpdates) + (if ResetPrefix(widgets, params, 0) == |widgets| then 1 else 0)
      ensures updateScheduled == old(updateScheduled) && timerStarts == old(timerStarts)
      ensures metricText == old(metricText) && fusionText == old(fusionText) && built == old(built)
    {
      params := params + basicDefaults;
      var values, completed := ResetWidgets(widgets, params);
      shown := shown + values;
      if completed {
        previewUpdates := previewUpdates + 1;
      }
    }

    /** `_reset_to_defaults` as intended: every widget, check boxes included, shows its
        restored parameter, and the preview is always refreshed. */
    method ResetToDefaults()
      modifies this
      ensures params == old(params) + basicDefaults
      ensures shown == old(shown) + ShownMap(widgets, params)
      ensures previewUpdates == old(previewUpdates) + 1
      ensures updateScheduled == old(updateScheduled) && timerStarts == old(timerStarts)
      ensures metricText == old(metricText) && fusionText == old(fusionText) && built == old(built)
    {
      params := params + basicDefaults;
      shown := shown + ShownMap(widgets, params);
      previewUpdates := previewUpdates + 1;
    }
  }

  /** The JSON object `_save_current_params` writes for `p`, built key by key. */
  method SaveObject(p: Params, repr: Json -> string) returns (written: Option<map<string, Json>>)
    ensures written == Saved(p, repr)
  {
    if "min_defect_area" !in p || IntOf(p["min_defect_area"]).None? {
      return None;
    }
    var out: map<string, Json> := map[];
    var todo := p.Keys;
    while todo != {}
      invariant todo <= p.Keys
      invariant out.Keys == p.Keys - todo
      invariant forall k :: k in out ==> SavedValue(SaveKind(k), p[k], repr) == Some(out[k])
      decreases todo
    {
      var k :| k in todo;
      var s := SavedValue(SaveKind(k), p[k], repr);
      if s.None? {
        return None;
      }
      out := out[k := s.value];
      todo := todo - {k};
    }
    assert out == map k | k in p :: SavedValue(SaveKind(k), p[k], repr).value;
    written := Some(out["detect_area" := JInt(IntOf(p["min_defect_area"]).value)]);
  }

  /** The reset's widget loop: the values it sets, widget by widget, until it raises;
      `completed` when it gets through every widget. */
  method ResetWidgets(ws: seq<(string, Widget)>, p: Params) returns (values: map<string, PValue>, completed: bool)
    ensures values == ShownMap(ws[..ResetPrefix(ws, p, 0)], IntParams(p))
    ensures completed <==> ResetPrefix(ws, p, 0) == |ws|
  {
    values := map[];
    var n := 0;
    while n < |ws|
      invariant 0 <= n <= |ws|
      invariant n <= ResetPrefix(ws, p, 0)
      invariant values == ShownMap(ws[..n], IntParams(p))
    {
      if !ResetsWidget(ws[n], p) {
        ResetStopsAt(ws, p, n);
        return values, false;
      }
      ResetStep(ws, IntParams(p), n);
      ResetGoesOn(ws, p, n);
      var w := ws[n];
      values := values[w.0 := Shown(w.1, PInt(IntOf(p[w.0]).value)).value];
      n := n + 1;
    }
    assert ws[..n] == ws;
    completed := true;
  }

  /** The loop raises at the first widget it cannot set. */
  lemma ResetStopsAt(ws: seq<(string, Widget)>, p: Params, n: nat)
    requires n <= ResetPrefix(ws, p, 0) && n < |ws| && !ResetsWidget(ws[n], p)
    ensures ResetPrefix(ws, p, 0) == n
  {
    ResetPrefixStops(ws, p, 0);
  }

  /** A widget the loop can set is within the prefix it sets. */
  lemma ResetGoesOn(ws: seq<(string, Widget)>, p: Params, n: nat)
    requires n <= ResetPrefix(ws, p, 0) && n < |ws| && ResetsWidget(ws[n], p)
    ensures n + 1 <= ResetPrefix(ws, p, 0)
  {
    ResetPrefixStops(ws, p, 0);
  }

  /** One more widget set by the reset loop extends the shown map by that widget. */
  lemma ResetStep(ws: seq<(string, Widget)>, q: Params, n: nat)
    requires n < |ws| && !ws[n].1.CheckBox? && ws[n].0 in q && q[ws[n].0].PInt?
    ensures Shown(ws[n].1, q[ws[n].0]).Some?
    ensures ShownMap(ws[..n + 1], q) == ShownMap(ws[..n], q)[ws[n].0 := Shown(ws[n].1, q[ws[n].0]).value]
  {
    assert ws[..n + 1][..n] == ws[..n];
  }

  /** Reset overwrites only the ten basic keys; every other parameter keeps its value. */
  lemma ResetKeepsOthers(p: Params)
    ensures (p + BasicDefaults).Keys == p.Keys + BasicDefaults.Keys
    ensures forall k :: k in BasicDefaults ==> (p + BasicDefaults)[k] == BasicDefaults[k]
    ensures forall k :: k in p && k !in BasicDefaults ==> (p + BasicDefaults)[k] == p[k]
  {
  }

  /** The reset loop never reaches the preview: the seventh registered widget is the
      `ignore_overexposed` check box. */
  lemma ResetNeverRefreshes(p: Params)
    ensures ResetPrefix(Widgets, p, 0) <= 6 < |Widgets|
  {
    assert Widgets[6].1.CheckBox?;
    ResetStopsBy(Widgets, p, 6);
  }

  /** The loop gets no further than a widget it cannot set. */
  lemma ResetStopsBy(ws: seq<(string, Widget)>, p: Params, n: nat)
    requires n < |ws| && !ResetsWidget(ws[n], p)
    ensures ResetPrefix(ws, p, 0) <= n
  {
    ResetPrefixStops(ws, p, 0);
  }

  /** After the basic values are restored, the reset loop sets exactly the six basic spin
      boxes before it raises. */
  lemma ResetSetsSixWidgets(p: Params)
    ensures ResetPrefix(Widgets, p + BasicDefaults, 0) == 6
  {
    var q := p + BasicDefaults;
    forall m | 0 <= m < 6 ensures ResetsWidget(Widgets[m], q) {
      assert Widgets[m].0 in BasicDefaults && BasicDefaults[Widgets[m].0].PInt?;
    }
    assert !ResetsWidget(Widgets[6], q);
    ResetPrefixStops(Widgets, q, 0);
  }

  /** The six widgets the reset sets do not include the dark morphology kernel spin box:
      its value was restored too, but the box keeps showing the old one, which the next
      save writes back. */
  lemma ResetLeavesMorphKernel(q: Params)
    ensures "dark_morph_kernel_size" !in ShownMap(Widgets[..6], q)
  {
    var ws := Widgets[..6];
    forall i | 0 <= i < 6 ensures ws[i].0 != "dark_morph_kernel_size" {
      assert |ws[i].0| != |"dark_morph_kernel_size"|;
    }
  }

  // ---------------------------------------------------------------------------
  // The "classic" final mask of the preview
  // ---------------------------------------------------------------------------

  /** `final_mode`, stripped and lower-cased, is "classic"; a missing key reads "extended". */
  predicate IsClassic(p: Params, repr: Json -> string) {
    "final_mode" in p && Lower(Strip(StrOf(p["final_mode"], repr))) == "classic"
  }

  /** `bool(int(params.get("final_include_gradient", 1)))`; `None` when `int()` raises. */
  function IncludeGradient(p: Params): (r: Option<bool>)
    ensures "final_include_gradient" !in p ==> r == Some(true)
    ensures "final_include_gradient" in p && p["final_include_gradient"].PInt? ==>
              r == Some(p["final_include_gradient"].i != 0)
  {
    if "final_include_gradient" !in p then Some(true)
    else match IntOf(p["final_include_gradient"])
      case Some(i) => Some(i != 0)
      case None => None
  }

  /** The dark gradient gate: the whole mask when the threshold is <= 0, otherwise the
      gradient pixels above it, always within the mask. */
  function GradientGate(d: Dims, maskBin: Mask, grad: Gray, darkGrad: int): (r: Mask) {
    And(d, if darkGrad <= 0 then maskBin else Above(d, grad, darkGrad), maskBin)
  }

  /** `_morph`, the same guard as the detector's morphology step. */
  function Morph(m: Mask, k: int, it: int, openClose: (Mask, nat, nat) -> Mask): (r: Mask)
    ensures k <= 1 || it <= 0 ==> r == m
  {
    DefectDetector.ApplyMorphologicalOps(Some(m), k, it, openClose).value
  }

  /** The classic final mask: the union of the cleaned dark, bright, blue and red masks,
      plus the gradient gate when it is included. */
  function ClassicFinal(d: Dims, maskBin: Mask, grad: Gray, darkGrad: int,
                        dark: Mask, bright: Mask, blue: Mask, red: Mask,
                        darkK: int, darkIt: int, colorK: int, colorIt: int,
                        includeGradient: bool, openClose: (Mask, nat, nat) -> Mask): Mask
  {
    var u := Or(d, Morph(dark, darkK, darkIt, openClose), Morph(bright, colorK, colorIt, openClose));
    var u2 := Or(d, u, Morph(blue, colorK, colorIt, openClose));
    var u3 := Or(d, u2, Morph(red, colorK, colorIt, openClose));
    if includeGradient then Or(d, u3, GradientGate(d, maskBin, grad, darkGrad)) else u3
  }

  /** A pixel of the classic final mask is set exactly when one of the four cleaned masks
      has it, or, with the gradient included, when it is in the mask and its gradient
      exceeds a positive threshold (any mask pixel when the threshold is <= 0). */
  lemma ClassicFinalPixels(d: Dims, maskBin: Mask, grad: Gray, darkGrad: int,
                           dark: Mask, bright: Mask, blue: Mask, red: Mask,
                           darkK: int, darkIt: int, colorK: int, colorIt: int,
                           includeGradient: bool, openClose: (Mask, nat, nat) -> Mask)
    ensures forall i, j ::
      At(ClassicFinal(d, maskBin, grad, darkGrad, dark, bright, blue, red, darkK, darkIt, colorK, colorIt,
                      includeGradient, openClose), i, j) <==>
        InRange(d, i, j) &&
        (|| At(Morph(dark, darkK, darkIt, openClose), i, j)
         || At(Morph(bright, colorK, colorIt, openClose), i, j)
         || At(Morph(blue, colorK, colorIt, openClose), i, j)
         || At(Morph(red, colorK, colorIt, openClose), i, j)
         || (includeGradient && At(maskBin, i, j) && (darkGrad <= 0 || Px(grad, i, j) > darkGrad)))
  {
  }
}
