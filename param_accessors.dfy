/**
 * The integer parameter properties of the defect tuner: each property reads and writes the
 * text of its own backing Tk variable, and every write asks the host window to refresh its
 * preview when the host has a preview to refresh.
 */
module DefectParamAccessors {
  import opened Wrappers
  import opened Text

  /** The ten integer properties. */
  datatype Param =
    | DarkThreshold | BrightThreshold | BlueThreshold | RedThreshold
    | DarkMorphKernelSize | DarkMorphIterations | BrightMorphKernelSize | BrightMorphIterations
    | DarkGradientThreshold | MinDefectArea

  /** The ten backing variables (`*_var` attributes). */
  datatype Var =
    | DarkThresholdVar | BrightThresholdVar | BlueThresholdVar | RedThresholdVar
    | DarkKernelVar | DarkIterationsVar | BrightKernelVar | BrightIterationsVar
    | DarkGradientThresholdVar | MinDefectAreaVar

  /** The backing variable of each property; the morphology properties use the short names. */
  function VarOf(p: Param): (v: Var)
    ensures p.DarkMorphKernelSize? <==> v.DarkKernelVar?
    ensures p.DarkMorphIterations? <==> v.DarkIterationsVar?
    ensures p.BrightMorphKernelSize? <==> v.BrightKernelVar?
    ensures p.BrightMorphIterations? <==> v.BrightIterationsVar?
  {
    match p
    case DarkThreshold => DarkThresholdVar
    case BrightThreshold => BrightThresholdVar
    case BlueThreshold => BlueThresholdVar
    case RedThreshold => RedThresholdVar
    case DarkMorphKernelSize => DarkKernelVar
    case DarkMorphIterations => DarkIterationsVar
    case BrightMorphKernelSize => BrightKernelVar
    case BrightMorphIterations => BrightIterationsVar
    case DarkGradientThreshold => DarkGradientThresholdVar
    case MinDefectArea => MinDefectAreaVar
  }

  /** No two properties share a backing variable, so a setter touches only its own property. */
  lemma VarOfInjective(p: Param, q: Param)
    ensures VarOf(p) == VarOf(q) <==> p == q
  {
  }

  /** `int(var.get())` on the variables `vars`; `None` stands for the AttributeError of an
      unbound (`None`) variable and the ValueError of text that is no integer. */
  function Read(vars: map<Var, string>, p: Param): (r: Option<int>)
    ensures VarOf(p) !in vars ==> r.None?
  {
    if VarOf(p) in vars then ParseInt(vars[VarOf(p)]) else None
  }

  /** Writing `str(value)` into the variable of `p` makes `p` read back `value` and leaves
      every other property reading what it read before. */
  lemma WriteThenRead(vars: map<Var, string>, p: Param, q: Param, value: int)
    ensures Read(vars[VarOf(p) := IntToDecimal(value)], q) == if q == p then Some(value) else Read(vars, q)
  {
    VarOfInjective(p, q);
    if q == p {
      ParseIntRoundTrip(value);
    }
  }

  class ParamAccessors {
    /** The bound backing variables and their text; an absent variable is still `None`. */
    var vars: map<Var, string>
    /** The host window defines `_update_preview`. */
    var hasUpdatePreview: bool
    /** Number of preview refreshes requested so far. */
    var previewCalls: nat

    /** Every backing variable starts as `None`. */
    constructor (hasUpdatePreview: bool)
      ensures vars == map[]
      ensures this.hasUpdatePreview == hasUpdatePreview && previewCalls == 0
    {
      vars := map[];
      this.hasUpdatePreview := hasUpdatePreview;
      previewCalls := 0;
    }

    /** The getter: `int()` of the backing variable's text. `None` stands for the
        AttributeError of an unbound variable and the ValueError of text that is no integer. */
    function Get(p: Param): (r: Option<int>)
      reads this
      ensures VarOf(p) !in vars ==> r.None?
    {
      Read(vars, p)
    }

    /** The host window creates a backing variable holding `text`. */
    method Bind(v: Var, text: string)
      modifies this
      ensures vars == old(vars)[v := text]
      ensures hasUpdatePreview == old(hasUpdatePreview) && previewCalls == old(previewCalls)
    {
      vars := vars[v := text];
    }

    /** `_safe_update_preview`: refresh the preview if the host has `_update_preview`. */
    method SafeUpdatePreview()
      modifies this
      ensures vars == old(vars) && hasUpdatePreview == old(hasUpdatePreview)
      ensures previewCalls == old(previewCalls) + (if hasUpdatePreview then 1 else 0)
    {
      if hasUpdatePreview {
        previewCalls := previewCalls + 1;
      }
    }

    /** The setter: store `str(value)` in the property's own variable, then refresh.
        `ok` is false for the AttributeError of an unbound variable, which changes nothing. */
    method Set(p: Param, value: int) returns (ok: bool)
      modifies this
      ensures ok <==> VarOf(p) in old(vars)
      ensures ok ==> vars == old(vars)[VarOf(p) := IntToDecimal(value)]
      ensures ok ==> previewCalls == old(previewCalls) + (if hasUpdatePreview then 1 else 0)
      ensures !ok ==> vars == old(vars) && previewCalls == old(previewCalls)
      ensures hasUpdatePreview == old(hasUpdatePreview)
      ensures ok ==> forall q :: Get(q) == if q == p then Some(value) else old(Get(q))
    {
      if VarOf(p) !in vars {
        return false;
      }
      ghost var before := vars;
      vars := vars[VarOf(p) := IntToDecimal(value)];
      forall q ensures Read(vars, q) == if q == p then Some(value) else Read(before, q) {
        WriteThenRead(before, p, q, value);
      }
      SafeUpdatePreview();
      ok := true;
    }
  }

  /** Before any variable is bound every getter fails, and so does every setter. */
  lemma UnboundGetFails(a: ParamAccessors, p: Param)
    requires a.vars == map[]
    ensures a.Get(p).None?
  {
  }
}
