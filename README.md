# VisionCameraSheetPiCam — a Dafny model of its decision logic

VisionCameraSheetPiCam inspects printed sheets of can bodies on a Raspberry Pi camera:
it aligns each captured frame with a template, builds binary defect masks, finds defect
contours, assigns each defect to a numbered can and keeps counts of good and defective
cans. Around that pipeline sit windows for tuning the detector, laying out and numbering
the cans, drawing the leaf mask and the can shape, and a small user registry with login.

The pixel arithmetic is OpenCV and floating point. This project models the logic wrapped
around it, one Dafny module per source file:

- `DefectDetector` (`models/defect_detector.py`): percentile binarisation inside the
  region of interest, min-max normalisation, the morphology guard, the dark, bright and
  colour cues, "or" and weighted fusion, overexposure removal, the contour filter and the
  shape of the returned tuple. Masks are grids of booleans. The module-level `mode` switch
  is a parameter, so both the simple and the full branch are modelled. OpenCV operators
  are fields of a `Vision` record passed in.
- `DefectTuner` (`windows/defect_tuner_window.py`): the parameter map with its load,
  merge, clamp and legacy alias; the registered widgets, what each shows and how the
  save reads them back; the save coercion, its round trip and the CSV history log's
  columns; slider handling; the debounce flag; reset to defaults; the classic final-mask
  union.
- `DefectParamAccessors` (`config/defect_param_accessors.py`): the integer properties
  and their backing variables.
- `InspectionWindow` (`windows/inspection_window.py`): camera controls, parameter
  loading and clamping, the alignment fallback, the dominant label, radius floors, the
  can-number fallback and the cumulative counters.
- `AlignImage` (`models/align_image.py`): match sorting and selection, the errors raised
  and the point rescaling. ORB, the matcher and RANSAC are function parameters.
- `AdjustPositions` (`windows/adjust_positions.py`): grouping centres into rows, the
  guide lines, and numbering the cans along the lines.
- `LeafMask` (`windows/create_leaf_mask.py`): the polygon point editor.
- `FormCan` (`windows/create_form_can.py`): the crop box, the candidate filter and
  ranking, cycling through candidates, zoom and the centred saved shape.
- `SheetMargins` (`models/detect_sheet_margins.py`): the sheet contour, its corners and
  the coordinate file with its round trip.
- `Users` (`windows/create_users.py`, `windows/login_window.py`,
  `windows/manage_users_window.py`): the user registry, creating users, login, listing
  and deleting users.
- `Gallery` (`windows/gallery.py`): the image listing and the clicked path.
- `ParamEntrySimpleNumeric` and `ParamEntryHor` (`widgets/param_entry_simple_numeric.py`,
  `widgets/param_entry_hor.py`): wheel stepping with clamping, and the digit validator.

Shared modules hold what several files use: `Wrappers` (Option and Result), `Text`
(Python's `strip`, `lower`, `int()` and `float()` of text, decimal printing), `JsonValues`
(JSON values and Python's conversions of them), `Sorting` (a stable insertion sort, as
Python's `sorted`), `Clamps` (clamping, truncation toward zero, the odd-kernel rule) and
`Masks` (boolean grids and byte images with the pixelwise operations OpenCV applies).

Code that updates objects in place is modelled as classes whose methods modify their
fields (the tuner, the inspection counters, the layout window, the two editors, the user
windows, the parameter properties, the entry variable); loops are methods with loop
invariants, each proved equal to a specification function about which the properties
are proved as lemmas. Pure code is modelled as functions and lemmas.

Files, the camera, clocks and user input are inputs: a file is a value (or its absence),
a directory listing is a sequence of names, a click is a pair of coordinates.

## Model

| member | source | states |
|---|---|---|
| DefectDetector.Rank | models/defect_detector.py:29 | the interpolation position `pct/100*(n-1)` of numpy's linear percentile lies in [0, n-1] |
| DefectDetector.Lower | models/defect_detector.py:29 | the lower order statistic is an index at or below the position, less than one below it |
| DefectDetector.Upper | models/defect_detector.py:29 | the upper order statistic is at or above the lower one and a valid index |
| DefectDetector.InterpMonotone | models/defect_detector.py:29 | on sorted samples a larger percentile never gives a smaller value |
| DefectDetector.Percentile | models/defect_detector.py:29 | `np.percentile` of a non-empty sample is defined exactly when `pct` is in [0, 100] (numpy raises otherwise) |
| DefectDetector.PercentileBounds | models/defect_detector.py:29 | the percentile lies between the smallest and the largest sample |
| DefectDetector.PercentileZeroIsMinimum | models/defect_detector.py:29 | percentile 0 is at or below every sample |
| DefectDetector.PercentileMonotone | models/defect_detector.py:29 | raising `pct` never lowers the threshold |
| DefectDetector.ThresholdInRoi | models/defect_detector.py:30-31 | a pixel is set exactly when it lies in the ROI and its score reaches the threshold |
| DefectDetector.PercentileBin | models/defect_detector.py:23-31 | `_percentile_bin` fails exactly when the ROI has pixels and `pct` is outside [0, 100]; its mask is a subset of the ROI; an empty ROI gives the all-zero mask |
| DefectDetector.PercentileBinMonotone | models/defect_detector.py:29-30 | raising `pct` never adds a foreground pixel |
| DefectDetector.PercentileBinZeroIsRoi | models/defect_detector.py:23-31 | at percentile 0 the mask is the whole ROI |
| DefectDetector.SeqMin | models/defect_detector.py:35 | `x.min()` is a value of the map and at or below every value |
| DefectDetector.SeqMax | models/defect_detector.py:35 | `x.max()` is a value of the map and at or above every value |
| DefectDetector.AllValues | models/defect_detector.py:35 | every pixel value of the map is among the values whose extremes are taken |
| DefectDetector.Norm01 | models/defect_detector.py:33-38 | `_norm01` keeps the map's shape (its values are stated by the three lemmas below) |
| DefectDetector.Norm01Range | models/defect_detector.py:33-38 | every normalised value lies in [0, 1], and a constant map becomes all zeros |
| DefectDetector.Norm01Extremes | models/defect_detector.py:33-38 | when the map is not constant, a pixel holding the minimum becomes 0 and a pixel holding the maximum becomes 1 |
| DefectDetector.Norm01Monotone | models/defect_detector.py:33-38 | normalising keeps the order of any two pixels |
| DefectDetector.EffectiveKernel | models/defect_detector.py:128 | the kernel used is odd and is `k` or `k + 1` |
| DefectDetector.ApplyMorphologicalOps | models/defect_detector.py:120-132 | None gives None; `k <= 1` or `it <= 0` returns the mask unchanged; otherwise opening then closing with the odd kernel |
| DefectDetector.Clean | models/defect_detector.py:126-127 | a cleaning with `k <= 1` or `it <= 0` is the identity |
| DefectDetector.AbsDiff | models/defect_detector.py:216 | `cv2.absdiff` of two byte images is non-negative everywhere |
| DefectDetector.DarkGate | models/defect_detector.py:295-299 | the gradient gate is the whole binary mask when `dark_gradient_threshold <= 0` |
| DefectDetector.MicroDarkThreshold | models/defect_detector.py:308 | `bh_th` always lies in [6, 20], and equals `dark // 2 + 6` for `dark` in [0, 28] |
| DefectDetector.DarkerFilteredPixels | models/defect_detector.py:290-311 | a darker pixel is one whose saturating difference `tpl - aligned` exceeds the threshold under the gate, or whose black-hat difference exceeds `bh_th` inside the mask |
| DefectDetector.ColourCuePixels | models/defect_detector.py:313-324 | a colour cue pixel is one whose saturating channel difference exceeds its threshold, off the thin edges |
| DefectDetector.MsssimMaskOutcome | models/defect_detector.py:326-341 | the MS-SSIM stage fails exactly when it is on and its percentile is bad for a non-empty ROI; it yields a mask exactly when it is on |
| DefectDetector.MaybeBinOutcome | models/defect_detector.py:360-397 | an enabled map's bin fails exactly on a bad percentile; every bin lies inside the safe ROI |
| DefectDetector.BinMapsOutcome | models/defect_detector.py:360-397 | the top-hat, black-hat and colour bins fail exactly when an enabled one has a bad percentile, and all lie inside the safe ROI |
| DefectDetector.ExtraMapsOutcome | models/defect_detector.py:357-397 | building the extra maps fails exactly when an enabled map has a bad percentile |
| DefectDetector.WeightedFusionOutcome | models/defect_detector.py:402-408 | weighted fusion fails exactly on a bad `fused_percentile` and otherwise stays inside the safe ROI |
| DefectDetector.OrFusionIsUnion | models/defect_detector.py:409-417 | "or" fusion is exactly the union of the enabled bins and, when enabled with positive weight, the MS-SSIM mask |
| DefectDetector.FuseOr | models/defect_detector.py:409-417 | the accumulating "or" branch yields the union `OrFusion` |
| DefectDetector.FusionFails | models/defect_detector.py:357-417 | the fusion step fails exactly when a map fails or weighted fusion has a bad percentile |
| DefectDetector.Fuse | models/defect_detector.py:357-417 | the fusion method builds the maps and fuses them by the selected mode, as `Fusion` |
| DefectDetector.CombinedIsUnion | models/defect_detector.py:343-355 | `combined` is exactly the union of the four cleaned cues and, when enabled, the MS-SSIM mask |
| DefectDetector.Combine | models/defect_detector.py:350-355 | OR-ing one cleaned cue at a time yields `Combined` |
| DefectDetector.FinalMaskPixels | models/defect_detector.py:419-422 | a final pixel is in the union, inside the safe ROI, and not overexposed when that is asked; the mask lies in the ROI and misses the overexposed pixels |
| DefectDetector.Finalize | models/defect_detector.py:419-422 | the method computes `FinalMask` |
| DefectDetector.AssembleMasks | models/defect_detector.py:326-422 | Full mode after the cues is `Assemble` |
| DefectDetector.AssembleFails | models/defect_detector.py:326-422 | after the cues, Full mode fails exactly when the MS-SSIM mask or the fusion fails |
| DefectDetector.AssembleFailsWhen | models/defect_detector.py:326-422 | Full mode fails exactly when some enabled stage has a bad percentile over a non-empty safe ROI |
| DefectDetector.AssembleWithinSafeRoi | models/defect_detector.py:419-422 | the final mask of Full mode lies in the safe ROI and misses the overexposed pixels when asked |
| DefectDetector.DetectFull | models/defect_detector.py:270-422 | the Full-mode method computes `FullOutcome` |
| DefectDetector.FullOutcomeFails | models/defect_detector.py:270-422 | Full mode raises exactly when an enabled percentile is out of range over a non-empty safe ROI |
| DefectDetector.FullFinalWithinSafeRoi | models/defect_detector.py:419-422 | Full mode's final mask lies inside the safe ROI and misses the overexposed pixels when asked |
| DefectDetector.SimpleFinalWithinSafeRoi | models/defect_detector.py:237-240 | Simple mode's final mask lies inside the safe ROI |
| DefectDetector.Kept | models/defect_detector.py:425-436 | the filter never adds contours |
| DefectDetector.KeptMembers | models/defect_detector.py:425-436 | a contour survives exactly when it passes the area and circularity test |
| DefectDetector.KeptAppend | models/defect_detector.py:425-436 | the surviving contours keep their relative order |
| DefectDetector.SmallContoursDropped | models/defect_detector.py:427-431 | a contour below `max(1, min_defect_area)` never survives |
| DefectDetector.FilterContours | models/defect_detector.py:425-436 | the appending loop yields exactly `Kept` |
| DefectDetector.RetTuple | models/defect_detector.py:439-445 | the tuple has six items plus one per optional return, starts with the final mask and the kept contours, and ends with the fused mask when asked |
| DefectDetector.BuildRet | models/defect_detector.py:439-445 | appending to `ret` yields `RetTuple` |
| DefectDetector.DetectMasks | models/defect_detector.py:205-422 | the masks of the selected mode (`mode` made a parameter) |
| DefectDetector.Finish | models/defect_detector.py:425-445 | the contour filter and the tuple around the mode's masks; an error passes through |
| DefectDetector.DetectDefects | models/defect_detector.py:138-445 | `detect_defects` returns the mode's tuple around the kept contours, or the percentile error |
| DefectTuner.IntOf | windows/defect_tuner_window.py:541 | `int(v)`: an int is kept, a float truncated toward zero, a string parsed as Python's `int()` parses it |
| DefectTuner.FloatOf | windows/defect_tuner_window.py:537 | `float(v)`: an int widened, a float kept, a string parsed as Python's `float()` parses it |
| DefectTuner.BoolFlag | windows/defect_tuner_window.py:525-535 | the robust boolean parse yields 0 or 1: non-zero ints, `True`, the words 1/true/yes/on (stripped, lower-cased) and truthy values give 1 |
| DefectTuner.Convert | windows/defect_tuner_window.py:524-543 | the conversion by key kind: booleans always convert, floats and ints fail exactly when `float()`/`int()` raise (the key is skipped), strings become their `str()` |
| DefectTuner.KernelRule | windows/defect_tuner_window.py:546-549 | a "kernel" value below 1 becomes 1 and an even int becomes odd; comparing a string raises and aborts the load |
| DefectTuner.SeRule | windows/defect_tuner_window.py:551-554 | `se_top`/`se_black` become an odd int of at least 1, failing exactly when `int()` raises |
| DefectTuner.IterationsRule | windows/defect_tuner_window.py:555-556 | "iterations" keys become a non-negative int |
| DefectTuner.ThresholdRule | windows/defect_tuner_window.py:557-559 | integer "threshold" keys are clamped to [0, 255] |
| DefectTuner.MinAreaRule | windows/defect_tuner_window.py:560-561 | `min_defect_area` becomes an int of at least 1 |
| DefectTuner.PercentileRule | windows/defect_tuner_window.py:563-569 | "percentile" keys become a float in [0, 100]; a failed `float()` keeps the value |
| DefectTuner.WeightRule | windows/defect_tuner_window.py:571-577 | the four fusion weights become a float in [0, 1]; a failed `float()` keeps the value |
| DefectTuner.IntRules | windows/defect_tuner_window.py:546-561 | on an int the rules give odd kernels of at least 1, non-negative iterations, thresholds in [0, 255], an area of at least 1, and keep 0/1 flags binary |
| DefectTuner.ValidateInt | windows/defect_tuner_window.py:546-577 | on an int, validation is the integer rules followed by the float rules, in the loader's order |
| DefectTuner.ValidateConforms | windows/defect_tuner_window.py:545-577 | a validated value satisfies every clamp of its key and keeps the key's type |
| DefectTuner.ValidateKeeps | windows/defect_tuner_window.py:545-577 | a value that already satisfies the clamps passes validation unchanged |
| DefectTuner.ValidateIdempotent | windows/defect_tuner_window.py:545-577 | validating a validated value changes nothing |
| DefectTuner.Aliased | windows/defect_tuner_window.py:502-504 | `detect_area` is copied to `min_defect_area` exactly when the file has the former and not the latter; otherwise the data is unchanged |
| DefectTuner.Loaded | windows/defect_tuner_window.py:493-584 | loading never adds or removes a parameter key |
| DefectTuner.LoadedValue | windows/defect_tuner_window.py:506-581 | a key the file lacks, or whose conversion fails, keeps its value; every other key gets the validated file value; other file keys are ignored |
| DefectTuner.AliasUsed | windows/defect_tuner_window.py:502-504 | with only `detect_area` in the file, `min_defect_area` gets its validated value |
| DefectTuner.LoadKeepsValid | windows/defect_tuner_window.py:493-584 | loading keeps the parameter map valid (every value typed and clamped) |
| DefectTuner.KindsAgree | windows/defect_tuner_window.py:1083-1101 | the save converts each key as the load does, except `final_include_gradient`, saved as a boolean and loaded as an int |
| DefectTuner.SavedValue | windows/defect_tuner_window.py:1093-1101 | a saved value is 0/1 for boolean keys, a float, string or int by key kind, and fails exactly when `int()`/`float()` raise |
| DefectTuner.Saved | windows/defect_tuner_window.py:1075-1107 | a save that writes has an int `min_defect_area` |
| DefectTuner.SavedContents | windows/defect_tuner_window.py:1093-1104 | the file holds every parameter under its own key, converted by kind, plus `detect_area` equal to `int(min_defect_area)` |
| DefectTuner.ValueRoundTrip | windows/defect_tuner_window.py:524-577 | one valid value survives being saved and reloaded |
| DefectTuner.KeyRoundTrip | windows/defect_tuner_window.py:1093-1101 | each valid parameter survives the save and the reload |
| DefectTuner.SaveLoadRoundTrip | windows/defect_tuner_window.py:493-584 | reloading the saved file into any map with the same keys (the next window's defaults) gives back a valid parameter map unchanged |
| DefectTuner.MergeRestores | windows/defect_tuner_window.py:506-581 | merging the saved object into a map with the same keys restores every key's value |
| DefectTuner.RoundTo | windows/defect_tuner_window.py:199-200 | a float spin box keeps its value rounded to its decimals: within half a unit of the last place, and on that grid |
| DefectTuner.RoundKeeps | windows/defect_tuner_window.py:199-200 | a value already on the grid of the decimals is kept by the rounding |
| DefectTuner.Shown | windows/defect_tuner_window.py:192-210 | a spin box shows `int(v)` in its range, a float spin box `float(v)` rounded and in its range, a check box 0 or 1; nothing exactly when `int()`/`float()` raises |
| DefectTuner.ShownKeeps | windows/defect_tuner_window.py:192-210 | a value the widget can show (in range, on the decimals' grid, 0/1 for a check box) is shown unchanged |
| DefectTuner.ShownMap | windows/defect_tuner_window.py:193-325 | each key shown is a parameter key, shown as the value of a widget registered under it |
| DefectTuner.ShownMapCovers | windows/defect_tuner_window.py:193-325 | every widget whose parameter is present and converts shows a value |
| DefectTuner.ComboText | windows/defect_tuner_window.py:288 | selecting a text in a fixed combo box selects it when it is an item, otherwise the first item stays |
| DefectTuner.Synced | windows/defect_tuner_window.py:422-439 | after the sync every widget key holds the value its widget shows, the two combo keys hold their texts, and every other key keeps its value |
| DefectTuner.SavedFromWidgets | windows/defect_tuner_window.py:1075-1104 | the saved value of a widget key comes from what its widget shows, not from the stored parameter; any other key is saved from the stored parameter |
| DefectTuner.LogRejectsFinalMode | windows/defect_tuner_window.py:1114-1142 | a saved map with `final_mode`, a column the log does not have, is refused by the CSV writer, so the history row is never written |
| DefectTuner.SavesNeverLogged | windows/defect_tuner_window.py:1075-1142 | whatever the saved file and the widgets hold, a save of the window that writes the JSON file never gets its history row written: the defaults have `final_mode`, and neither the load nor the sync drops a key |
| DefectTuner.SliderValue | windows/defect_tuner_window.py:587-595 | an even value of a "kernel" parameter is raised to the next odd number; any other value is stored as it is |
| DefectTuner.Tuner.constructor | windows/defect_tuner_window.py:24-419 | the window loads the saved file over the defaults; when every widget can show its value it shows `ShownMap` of the loaded parameters, the combo boxes their texts, and the preview is drawn once; no update is pending |
| DefectTuner.Tuner.BuildWidgets | windows/defect_tuner_window.py:181-419 | building succeeds exactly when every registered widget can show its parameter and both combo keys exist; then the widgets show `ShownMap` and the preview is drawn once; the parameters are unchanged |
| DefectTuner.Tuner.LoadSavedParams | windows/defect_tuner_window.py:493-584 | the parameters become the merge `Loaded` of the saved file; the widgets and every other field are unchanged |
| DefectTuner.Tuner.SyncParamsFromUi | windows/defect_tuner_window.py:422-439 | the parameters become `Synced` of the widgets' values; the widgets are unchanged |
| DefectTuner.Tuner.SaveCurrentParams | windows/defect_tuner_window.py:1075-1142 | the parameters are first synced from the widgets; the object written is `Saved` of the synced parameters, or nothing when a conversion raises; the history row is logged exactly when every saved key is a log column |
| DefectTuner.Tuner.ScheduleUpdate | windows/defect_tuner_window.py:597-599 | the timer starts only when no update was pending; afterwards one is pending |
| DefectTuner.Tuner.OnSliderChange | windows/defect_tuner_window.py:587-599 | stores the odd-corrected int in the parameter and in its widget, and schedules one debounced update |
| DefectTuner.Tuner.OnSliderChangeFloat | windows/defect_tuner_window.py:475-479 | stores the float in the parameter and in its widget, and schedules one debounced update |
| DefectTuner.Tuner.OnCheckboxChange | windows/defect_tuner_window.py:481-485 | stores 1 when checked and 0 otherwise, in the parameter and in its check box, and schedules one debounced update |
| DefectTuner.Tuner.OnTextParamChange | windows/defect_tuner_window.py:487-491 | stores the text, which is also the combo box's text for the two synced combo keys, and schedules one debounced update |
| DefectTuner.Tuner.DebouncedUpdate | windows/defect_tuner_window.py:621-623 | clears the pending flag and refreshes the preview once |
| DefectTuner.Tuner.ResetToDefaultsAsWritten | windows/defect_tuner_window.py:601-619 | restores the ten basic values; the widgets up to the first one that cannot take `setValue(int(...))` show the new values; the preview is refreshed only when the loop completes |
| DefectTuner.Tuner.ResetToDefaults | windows/defect_tuner_window.py:601-619 | restores the ten basic values, every widget shows its parameter, and the preview is always refreshed |
| DefectTuner.ResetPrefixStops | windows/defect_tuner_window.py:614-617 | the reset loop sets every widget before the prefix's end and cannot set the one there |
| DefectTuner.IntParams | windows/defect_tuner_window.py:616 | the parameters `int()` can read, each as that int |
| DefectTuner.ResetWidgets | windows/defect_tuner_window.py:614-617 | the loop sets exactly the widgets before `ResetPrefix` to their `int()` values and completes exactly when that is every widget |
| DefectTuner.SaveObject | windows/defect_tuner_window.py:1078-1104 | the object built key by key is `Saved(p)` |
| DefectTuner.ResetKeepsOthers | windows/defect_tuner_window.py:602-614 | reset overwrites only the ten basic keys; every other parameter keeps its value |
| DefectTuner.ResetNeverRefreshes | windows/defect_tuner_window.py:223-229 | the reset's widget loop never completes: it stops at or before the seventh registered widget, the `ignore_overexposed` check box, which has no `setValue`; so the preview is never refreshed |
| DefectTuner.ResetSetsSixWidgets | windows/defect_tuner_window.py:601-619 | after the basic values are restored the loop sets exactly the six threshold and area spin boxes before it raises |
| DefectTuner.ResetLeavesMorphKernel | windows/defect_tuner_window.py:601-619 | the dark morphology kernel spin box is not among the six widgets set, so it keeps showing its old value, which the next save writes back |
| DefectTuner.IncludeGradient | windows/defect_tuner_window.py:934 | a missing `final_include_gradient` counts as on; an int counts as on when non-zero |
| DefectTuner.Morph | windows/defect_tuner_window.py:641-649 | `_morph` with `k <= 1` or `it <= 0` returns the mask unchanged |
| DefectTuner.ClassicFinalPixels | windows/defect_tuner_window.py:918-936 | a classic final pixel is in one of the four cleaned masks, or, with the gradient included, in the mask with a gradient above a positive threshold |
| InspectionWindow.OptionalInt | windows/inspection_window.py:58-59 | `int(params[key])` only when the key is present; fails exactly when `int()` raises |
| InspectionWindow.OptionalReal | windows/inspection_window.py:62-70 | `float(params[key])` only when the key is present; fails exactly when `float()` raises |
| InspectionWindow.OptionalGains | windows/inspection_window.py:64-66 | colour gains only for a saved two-element list, as the pair of its floats |
| InspectionWindow.BuildControls | windows/inspection_window.py:49-71 | automatic exposure and white balance off; exposure time, gain, brightness and contrast set exactly when saved; colour gains exactly for a saved two-element list |
| InspectionWindow.ReadInt | windows/inspection_window.py:429-439 | `int(params.get(key, default))` gives the default for a missing key |
| InspectionWindow.ReadReal | windows/inspection_window.py:443-444 | `float(params.get(key, default))` gives the default for a missing key |
| InspectionWindow.ReadFlag | windows/inspection_window.py:442 | `bool(int(params.get(key, 1)))` is on for a missing key |
| InspectionWindow.MinAreaSource | windows/inspection_window.py:436 | `detect_area` wins over `min_defect_area`; the default is 1 |
| InspectionWindow.Converted | windows/inspection_window.py:429-500 | the conversions read three MS-SSIM scale kernels |
| InspectionWindow.NonNeg | windows/inspection_window.py:519-520 | `max(0, v)` is non-negative and keeps a non-negative value |
| InspectionWindow.ClampCore | windows/inspection_window.py:507-522 | thresholds go into [0, 255], kernels become odd and at least 1, iterations at least 0, the area at least 1; the gradient threshold is left as read |
| InspectionWindow.ClampMsssim | windows/inspection_window.py:447-473 | the scale kernels and the MS-SSIM morphology kernel become odd and at least 1, its iterations at least 0; percentile, weight and sigmas are left as read |
| InspectionWindow.ClampMaps | windows/inspection_window.py:476-493 | the map percentiles go into [0, 100] and the structuring elements become odd and at least 1 |
| InspectionWindow.ClampFusion | windows/inspection_window.py:495-505 | the fusion weights go into [0, 1] and the fused percentile into [0, 100] |
| InspectionWindow.Clamp | windows/inspection_window.py:447-522 | after the clamps every clamped parameter is within its bounds |
| InspectionWindow.ClampFixesExactlyClamped | windows/inspection_window.py:447-522 | the clamps change a parameter set exactly when it is out of bounds: in-bounds sets come back unchanged |
| InspectionWindow.LoadParams | windows/inspection_window.py:425-522 | a successful load is within bounds; a truthy document that is not an object raises |
| InspectionWindow.LoadParamsDefaults | windows/inspection_window.py:426-505 | an empty or falsy document gives the defaults, which are within bounds |
| InspectionWindow.EmptyReadsDefaults | windows/inspection_window.py:426-505 | with every key missing, each conversion reads the source default |
| InspectionWindow.MinAreaPrefersDetectArea | windows/inspection_window.py:436-522 | the minimum area comes from `detect_area` when present, else `min_defect_area`, else 1, and is at least 1 |
| InspectionWindow.CoreMinArea | windows/inspection_window.py:436 | the core minimum area is the integer read from `detect_area`, else `min_defect_area`, else 1 |
| InspectionWindow.MsssimUnclamped | windows/inspection_window.py:443-444 | `msssim_percentile` and `msssim_weight` are kept exactly as read |
| InspectionWindow.DetectorParams | windows/inspection_window.py:601-620 | the detector is called with overexposure removal and the optional returns off |
| InspectionWindow.OnlyMsssimPercentileCanFail | windows/inspection_window.py:443-505 | with loaded parameters the detector can fail only on `msssim_percentile`, the one percentile left unclamped |
| InspectionWindow.AlignOrFallback | windows/inspection_window.py:558-567 | a successful alignment is used; an exception or a `None` image or homography falls back to the current frame and the identity |
| InspectionWindow.InverseOrIdentity | windows/inspection_window.py:570-573 | the inverse homography, or the identity when inversion raises |
| InspectionWindow.FallbackDrawsUnwarped | windows/inspection_window.py:563-573 | after a failed alignment the frame is the current one and the drawing uses the identity |
| InspectionWindow.DominantLabel | windows/inspection_window.py:656-678 | the label has the most pixels in the box; on a tie the earliest of dark, bright, blue, red wins |
| InspectionWindow.TemplateRadius | windows/inspection_window.py:683 | the template-space radius is at least 8 and at least the enclosing radius |
| InspectionWindow.WarpedRadius | windows/inspection_window.py:649-654 | the reprojected radius is at least 1 |
| InspectionWindow.DrawnRadius | windows/inspection_window.py:687 | the drawn radius is at least 24 and at least the reprojected radius plus 6 |
| InspectionWindow.RadiusFloors | windows/inspection_window.py:683-687 | whatever the reprojection does, the drawn circle has radius at least 24 |
| InspectionWindow.FirstNear | windows/inspection_window.py:712-717 | the index of the first polygon containing the point or within 2.0 of it |
| InspectionWindow.NearestIndex | windows/inspection_window.py:719-722 | the first polygon whose centre is nearest the point |
| InspectionWindow.CanIdOf | windows/inspection_window.py:710-722 | a can number exists exactly when there are polygons, and it is some polygon's number |
| InspectionWindow.CanIdChoice | windows/inspection_window.py:710-722 | the number is that of the first near polygon when there is one, otherwise that of a polygon no other centre is nearer than |
| InspectionWindow.CanId | windows/inspection_window.py:710-722 | the search loop with its fallback computes `CanIdOf` |
| InspectionWindow.CanIds | windows/inspection_window.py:739 | the set of can numbers is exactly the numbers of the records that have one |
| InspectionWindow.DefectiveAtMostTotal | windows/inspection_window.py:739-742 | no more cans are defective than there are cans on the sheet |
| InspectionWindow.DefectPercent | windows/inspection_window.py:747 | the percentage is defective over total times 100, 0 with no cans, within [0, 100] |
| InspectionWindow.Inspection.constructor | windows/inspection_window.py:92-95 | the counters start at zero |
| InspectionWindow.Inspection.RecordSheet | windows/inspection_window.py:669-746 | one record per defect with its label and can number; one more sheet; the total grows by the sheet's cans, the defective count by the distinct can numbers, the good count by the rest, so good plus defective stays the total |
| InspectionWindow.Inspection.DefectPct | windows/inspection_window.py:747 | the cumulative defect percentage lies in [0, 100] |
| DefectParamAccessors.VarOf | config/defect_param_accessors.py:22-110 | each property reads and writes its own variable; the morphology properties use the short `*_kernel_var` / `*_iterations_var` names |
| DefectParamAccessors.VarOfInjective | config/defect_param_accessors.py:22-110 | no two properties share a variable |
| DefectParamAccessors.Read | config/defect_param_accessors.py:22-24 | `int(var.get())` fails when the variable is unbound |
| DefectParamAccessors.WriteThenRead | config/defect_param_accessors.py:26-29 | after a setter, its property reads back the value written and every other property reads what it read before |
| DefectParamAccessors.ParamAccessors.constructor | config/defect_param_accessors.py:6-16 | every variable starts as `None` |
| DefectParamAccessors.ParamAccessors.Get | config/defect_param_accessors.py:22-24 | a getter on an unbound variable fails |
| DefectParamAccessors.ParamAccessors.Bind | config/defect_param_accessors.py:6-16 | binding a variable sets exactly that variable and refreshes nothing |
| DefectParamAccessors.ParamAccessors.SafeUpdatePreview | config/defect_param_accessors.py:18-20 | the preview is refreshed exactly when the host has `_update_preview` |
| DefectParamAccessors.ParamAccessors.Set | config/defect_param_accessors.py:26-29 | a setter succeeds exactly when its variable is bound; it then stores `str(value)` in that variable only and refreshes once if it can; a failing setter changes nothing |
| DefectParamAccessors.UnboundGetFails | config/defect_param_accessors.py:6-24 | right after construction every getter fails |
| AlignImage.GoodMatchPercent | models/align_image.py:20 | the fraction is the saved value whatever its JSON type, and 0.2 when none is saved |
| AlignImage.Product | models/align_image.py:47 | `int(n * pct)` raises exactly for a value that is not a number, a boolean or a string, and for a string whose n-fold repetition `int()` rejects; an int multiplies, a boolean counts as 0 or 1, a float product is truncated toward zero (within 1 of `n * pct`, on the side of 0), a string is repeated n times and parsed |
| AlignImage.NumGood | models/align_image.py:47 | `max(4, int(n * pct))` raises exactly when the product raises, is at least 4 and at least the product, equals the product once that is at least 4, and for a float fraction is the floor of `n * pct` |
| AlignImage.SortedMatches | models/align_image.py:46 | the sorted matches are a permutation of the matches |
| AlignImage.SelectMatches | models/align_image.py:43-51 | no matches raise; a count that raised raises; otherwise, with the count of at least 4, the kept matches are the first `min(n, count)` of the sorted matches, at least 4, or the "too few" error |
| AlignImage.TooFewIffFewerThanFour | models/align_image.py:47-51 | when the count does not raise, the "too few matches" error happens exactly when there are 1 to 3 matches |
| AlignImage.TextPercentKeepsAll | models/align_image.py:47-48 | a saved fraction that is a digit string other than all zeros keeps every match, because the repeated string parses to at least n |
| AlignImage.ZeroTextKeepsFour | models/align_image.py:47-48 | a saved fraction made only of zeros keeps the 4 nearest matches |
| AlignImage.SelectKeeps | models/align_image.py:47-48 | with at least 4 matches and a count of at least 4, the first `min(n, count)` sorted matches are kept |
| Text.Repeat | models/align_image.py:47 | `s * n` on a string: n copies of s, made only of the characters of s, ending with s |
| Text.RepeatDigits | models/align_image.py:47 | repeating a digit string gives a digit string whose value is at least n when the string's value is at least 1, and 0 when it is 0 |
| AlignImage.KeptAreNearest | models/align_image.py:46-48 | no kept match is farther than a dropped one; kept and dropped together are the matches; the kept ones are sorted by distance |
| AlignImage.Rescaled | models/align_image.py:58-59 | every point divided by the resize scale |
| AlignImage.QueryPoints | models/align_image.py:54 | the template keypoint of each kept match, in order; `None` for an index out of range |
| AlignImage.TrainPoints | models/align_image.py:55 | the current-image keypoint of each kept match, in order; `None` for an index out of range |
| AlignImage.AlignWithTemplate | models/align_image.py:9-73 | a configuration that is not an object raises, a non-positive scale raises, missing descriptors raise; success needs descriptors on both sides |
| AlignImage.AlignUsesBestMatches | models/align_image.py:42-64 | a successful alignment is the RANSAC homography from the current points to the template points of at least 4 best matches, both rescaled to full resolution |
| AlignImage.MaxFeaturesUnused | models/align_image.py:7-34 | `max_features` is read but changes nothing: ORB always uses 1500 features |
| AdjustPositions.CentreOf | windows/adjust_positions.py:325-327 | the truncated mean of the vertices; a polygon without vertices raises |
| AdjustPositions.Centres | windows/adjust_positions.py:323-328 | one centre per polygon, in order; fails exactly when some polygon has no vertex |
| AdjustPositions.FirstJoin | windows/adjust_positions.py:332-337 | the first row whose mean y is within the tolerance, and no earlier row is |
| AdjustPositions.Place | windows/adjust_positions.py:331-339 | one grouping step adds exactly the centre, joining a row or opening one |
| AdjustPositions.SortEach | windows/adjust_positions.py:340-341 | every row sorted by x |
| AdjustPositions.GroupPartitions | windows/adjust_positions.py:329-339 | grouping loses and duplicates no centre and makes no empty row |
| AdjustPositions.GroupKeeps | windows/adjust_positions.py:329-339 | the rows hold exactly the centres grouped, each once |
| AdjustPositions.GroupNonEmpty | windows/adjust_positions.py:329-339 | no row of the grouping is empty |
| AdjustPositions.RowsPartition | windows/adjust_positions.py:322-342 | the rows together are a permutation of the centres, none is empty, each is ordered by x |
| AdjustPositions.VisitOrder | windows/adjust_positions.py:330 | the centres are visited in ascending y, all of them |
| AdjustPositions.ComputeCentres | windows/adjust_positions.py:323-328 | the centre loop computes `Centres` |
| AdjustPositions.JoinOrOpen | windows/adjust_positions.py:331-339 | the inner loop joins the first close row or opens a new one, as `Place` |
| AdjustPositions.GroupRows | windows/adjust_positions.py:329-339 | the grouping loop computes `Group` |
| AdjustPositions.SortRows | windows/adjust_positions.py:340-341 | the in-place row sort computes `SortEach` |
| AdjustPositions.DetectRows | windows/adjust_positions.py:322-342 | `detectar_filas_poligonos` fails exactly on a polygon without vertices and otherwise gives `Rows` of the centres |
| AdjustPositions.InitialLine | windows/adjust_positions.py:217 | the slider start `int(H * (n - i) / (n + 1))` lies in [0, H] |
| AdjustPositions.InitialLinesOrdered | windows/adjust_positions.py:208-217 | later lines start no lower, and strictly higher when the image has at least n + 1 rows |
| AdjustPositions.NearestLine | windows/adjust_positions.py:364 | `min(range(L), key=distance)` is the first line of least distance |
| AdjustPositions.Indexed | windows/adjust_positions.py:352-357 | every centre with its polygon index |
| AdjustPositions.Assign | windows/adjust_positions.py:360-365 | one list per line |
| AdjustPositions.AssignPartitions | windows/adjust_positions.py:360-365 | every can lands on exactly one line |
| AdjustPositions.AssignNearest | windows/adjust_positions.py:361-365 | a can sits on the line nearest its centre, under its own polygon index |
| AdjustPositions.OrderLine | windows/adjust_positions.py:368-376 | ordering a line permutes its cans |
| AdjustPositions.OrderLineSorted | windows/adjust_positions.py:373-376 | "left->right" orders by ascending x, every other direction by descending x |
| AdjustPositions.OrderLines | windows/adjust_positions.py:368-376 | every line ordered by its own direction |
| AdjustPositions.OrderLinesPreserves | windows/adjust_positions.py:368-376 | ordering the lines loses and adds no can |
| AdjustPositions.NumberRow | windows/adjust_positions.py:381-383 | a line's cans get consecutive numbers from the start, in order |
| AdjustPositions.NumberLines | windows/adjust_positions.py:379-383 | one numbered list per line |
| AdjustPositions.NumbersConsecutive | windows/adjust_positions.py:379-383 | read in line order the numbers are 1, 2, ..., n, the k-th can getting k |
| AdjustPositions.NumberedInOrder | windows/adjust_positions.py:379-383 | numbering keeps the cans in line order, one number each, and numbers them 1..n |
| AdjustPositions.Numbering | windows/adjust_positions.py:351-383 | assignment, ordering and numbering keep one list per line |
| AdjustPositions.NumberingComplete | windows/adjust_positions.py:351-386 | every polygon is numbered exactly once and the numbers run 1..n in line order |
| AdjustPositions.NumberRowFrom | windows/adjust_positions.py:381-383 | the inner numbering loop computes `NumberRow` |
| AdjustPositions.NumberInOrder | windows/adjust_positions.py:379-383 | the numbering loop with its running counter computes `NumberLines` |
| AdjustPositions.Window.constructor | windows/adjust_positions.py:32-44 | no polygons and no lines at the start |
| AdjustPositions.Window.UpdateLineEntries | windows/adjust_positions.py:194-229 | n fresh lines (none for a negative n) at their initial heights, all "left->right"; polygons and numbering untouched |
| AdjustPositions.Window.UpdateLinePosition | windows/adjust_positions.py:231-234 | an existing line moves to the new height; any other index changes nothing |
| AdjustPositions.Window.SelectDirection | windows/adjust_positions.py:221-222 | choosing one of the two entries of an existing line's combo box sets that line's direction and nothing else; every line keeps a direction from the two entries |
| AdjustPositions.Window.ResetLines | windows/adjust_positions.py:143-169 | no lines, no polygons, no numbering |
| AdjustPositions.Window.NumberPolygonsOnLines | windows/adjust_positions.py:344-386 | nothing changes without polygons or lines; a polygon without vertices raises and changes nothing; otherwise the numbering is `Numbering` of the centres on the lines |
| LeafMask.PreviewScale | windows/create_leaf_mask.py:108-115 | the preview scale is in (0, 1] and the scaled image fits the 800 x 700 preview |
| LeafMask.LabelScale | windows/create_leaf_mask.py:223 | the letterbox scale of the label is positive |
| LeafMask.MapClick | windows/create_leaf_mask.py:220-228 | every click maps to a pixel of the original image: the pixel under it when over the image, the nearest border pixel otherwise |
| LeafMask.HoverTol | windows/create_leaf_mask.py:161-163 | `max(3, int(8 / scale))`: at least 3, and the floor of 8 / scale above that |
| LeafMask.HoverTolAtLeastEight | windows/create_leaf_mask.py:112-163 | the preview never enlarges, so the tolerance is at least 8 and the floor of 3 never applies |
| LeafMask.FirstNear | windows/create_leaf_mask.py:165-171 | the first point within the tolerance on both axes, `None` exactly when no point is |
| LeafMask.MaskArray | windows/create_leaf_mask.py:269-274 | a black mask with fewer than 3 points, otherwise the filled polygon |
| LeafMask.LeafMaskCreator.constructor | windows/create_leaf_mask.py:15-293 | no drag, not done; the points are the ones read from the coordinates file, or none; the scale is the preview scale of a loaded image, else 1.0 |
| LeafMask.LeafMaskCreator.IsOverPoint | windows/create_leaf_mask.py:165-171 | the search loop computes `FirstNear` with the hover tolerance |
| LeafMask.LeafMaskCreator.OnMousePress | windows/create_leaf_mask.py:173-189 | nothing once done; a press on a point drags that point; any other press appends exactly the mapped pixel |
| LeafMask.LeafMaskCreator.OnMouseMove | windows/create_leaf_mask.py:191-201 | while dragging, only the dragged point moves, to the mapped pixel |
| LeafMask.LeafMaskCreator.OnMouseRelease | windows/create_leaf_mask.py:203-214 | the drag ends and no point moves |
| LeafMask.LeafMaskCreator.Undo | windows/create_leaf_mask.py:249-254 | the last point is removed, if any; confirm stays enabled exactly with 3 or more points |
| LeafMask.LeafMaskCreator.ResetPoints | windows/create_leaf_mask.py:256-262 | no points, not done, confirm disabled |
| LeafMask.LeafMaskCreator.Confirm | windows/create_leaf_mask.py:239-247 | refuses fewer than 3 points and changes nothing; otherwise marks done, then saves exactly the points and accepts when an image is loaded; without an image the redraw raises after the polygon is marked done, and nothing is saved or accepted |
| LeafMask.PressOnPointGrabs | windows/create_leaf_mask.py:165-186 | a press at an existing point always finds a point at or before it, so no point is stacked on another |
| FormCan.Sorted2 | windows/create_form_can.py:151-152 | `sorted([a, b])` is ordered and holds the same two values |
| FormCan.CropBoxOrdered | windows/create_form_can.py:149-158 | whichever way the rectangle was dragged, the crop box in image pixels has left at or before right and top at or above bottom |
| FormCan.Rescale | windows/create_form_can.py:185 | every contour point divided by the 0.5 downscale |
| FormCan.RescaleAll | windows/create_form_can.py:185 | every contour rescaled, in order |
| FormCan.Candidates | windows/create_form_can.py:188-206 | the filter keeps at most the contours it is given |
| FormCan.CandidatesKeepIff | windows/create_form_can.py:189-206 | a contour becomes a candidate, with its score, exactly when its area is in [2000, 3000000], its perimeter is non-zero and its circularity is strictly between 0.5 and 1.5 |
| FormCan.FilterCandidates | windows/create_form_can.py:188-206 | the filter loop with its two `continue`s computes `Candidates` |
| FormCan.ContoursOf | windows/create_form_can.py:215 | the contours of the candidates, in order |
| FormCan.Ranked | windows/create_form_can.py:214-215 | one ranked contour per candidate |
| FormCan.RankedBestFirst | windows/create_form_can.py:214-215 | the ranking keeps every candidate once and orders them by descending score |
| FormCan.OutlinePoints | windows/create_form_can.py:230-258 | one saved point per contour point |
| FormCan.Normalised | windows/create_form_can.py:277-279 | every point minus the centroid of the outline |
| FormCan.NormalisedCentred | windows/create_form_can.py:277-279 | the saved shape is centred: both coordinate sums are zero |
| FormCan.Zoom | windows/create_form_can.py:134-141 | the zoom stays in [0.1, 5.0]; zooming in never shrinks and zooming out never grows unless clamped |
| FormCan.FormCanCreator.constructor | windows/create_form_can.py:59-71 | zoom 0.6, no candidates, no outline, nothing saved |
| FormCan.FormCanCreator.WheelEvent | windows/create_form_can.py:134-143 | only the zoom changes, to `Zoom` of the old one |
| FormCan.FormCanCreator.ProcessCrop | windows/create_form_can.py:148-222 | nothing changes without a candidate; otherwise the ranked candidates replace the old ones, the first is shown at the crop's offset and the selection is the crop box |
| FormCan.FormCanCreator.ShowRanked | windows/create_form_can.py:213-222 | the ranked contours are stored and the first one's outline is computed at the crop's offset |
| FormCan.FormCanCreator.ShowNextContour | windows/create_form_can.py:260-269 | nothing without candidates; otherwise the next candidate, wrapping to the first after the last, and its outline |
| FormCan.FormCanCreator.SaveShape | windows/create_form_can.py:272-287 | refuses fewer than 3 points; otherwise saves the outline centred on its centroid and closes |
| FormCan.Step | windows/create_form_can.py:265-267 | the index after k presses of "next" stays a valid index |
| FormCan.CycleReturns | windows/create_form_can.py:265-267 | within a round "next" moves k places, wrapping once, and n presses come back to the first shown |
| SheetMargins.MinArea | models/detect_sheet_margins.py:15 | the minimum area defaults to 100000 |
| SheetMargins.Largest | models/detect_sheet_margins.py:33 | the first contour of largest area |
| SheetMargins.Corners | models/detect_sheet_margins.py:38-39 | the bounding box's four corners, clockwise from the top left |
| SheetMargins.DetectSheetEdges | models/detect_sheet_margins.py:7-47 | a non-object configuration, no contours and a non-numeric minimum raise; success exactly when the largest contour reaches the minimum area, giving its corners |
| SheetMargins.SmallerContourIgnored | models/detect_sheet_margins.py:33-39 | adding a contour no larger than the sheet does not change the result |
| SheetMargins.PairRoundTrip | models/detect_sheet_margins.py:44 | a written "x,y" line reads back as the same pair |
| SheetMargins.CoordsText | models/detect_sheet_margins.py:42-44 | the file is empty exactly when there are no corners |
| SheetMargins.CoordsRoundTrip | models/detect_sheet_margins.py:42-44 | the saved file reads back as exactly the corners written, in order |
| Users.Keys | windows/manage_users_window.py:51 | the names of the registry, in insertion order |
| Users.Get | windows/login_window.py:69 | a name reads back a value exactly when it is registered |
| Users.Put | windows/create_users.py:81-84 | writing an existing name keeps the number of users; a new name is appended last |
| Users.Pop | windows/manage_users_window.py:63 | `pop(name, None)` never adds a user and ignores a missing name |
| Users.GetPut | windows/create_users.py:81-84 | a written name reads back the new entry and every other name is unchanged |
| Users.GetPop | windows/manage_users_window.py:63 | a popped name is gone and every other name is unchanged |
| Users.PopKeys | windows/manage_users_window.py:63 | after a pop the names are old names other than the popped one |
| Users.PopDistinct | windows/manage_users_window.py:63 | popping keeps the names distinct |
| Users.PutNewDistinct | windows/create_users.py:76-84 | adding an unregistered name keeps the names distinct |
| Users.FileStore.constructor | windows/create_users.py:70-74 | the files the windows read and write |
| Users.NewUserWindow.constructor | windows/create_users.py:12-16 | the window keeps the file it was given and has not accepted |
| Users.NewUserWindow.CreateUser | windows/create_users.py:55-90 | an empty stripped name or empty password is refused first, then a mismatched confirmation, then an unreadable file, then an existing name; otherwise exactly `name -> {password, type}` is appended to the registry (an empty one when the file is missing), the file rewritten and the dialog accepted; no refusal changes anything |
| Users.LoadUsers | windows/login_window.py:80-88 | an empty registry when the file is missing or unreadable |
| Users.Field | windows/login_window.py:69-70 | `users[name][key]` exists exactly for an object entry holding the key |
| Users.TentarLoginAsWritten | windows/login_window.py:4-78 | as written the warning is never shown: the failure branch raises `NameError` |
| Users.TentarLogin | windows/login_window.py:63-78 | the corrected login shows the warning instead of raising `NameError` |
| Users.LoginSucceedsIff | windows/login_window.py:63-76 | a login succeeds exactly when the stripped name is registered with the stripped password, and passes the name and stored type to the callback |
| Users.NoFileNoLogin | windows/login_window.py:80-88 | without a readable registry every login fails |
| Users.LoginFailureRaises | windows/login_window.py:4-78 | as written, exactly the logins that should warn raise instead; all other outcomes agree |
| Users.SpacedPasswordNeverLogsIn | windows/create_users.py:57-84 | a password stored with surrounding white space never logs in, because login strips what it compares |
| Users.CreatedUserCannotLogIn | main.py:168-170 | with the default `users.json` the main window opens it with, a newly created user cannot log in |
| Users.CreatedUserCanLogIn | windows/create_users.py:55-90 | with `config/users.json`, a newly created user logs in with the same name and password and gets the type chosen |
| Users.WrongPasswordFails | windows/login_window.py:69 | a one-user registry turns away every password but the stored one, whatever name is typed |
| Users.LoginAfterCreate | windows/login_window.py:69-70 | a name appended to a registry lacking it logs in with its password and type |
| Users.TypeText | windows/manage_users_window.py:52 | `info.get("type", "Desconhecido")`: the stored type text, the default when absent, and an error for a non-object entry |
| Users.Items | windows/manage_users_window.py:51-54 | one `name (type)` row per user in order, stopping at the first entry that is no object |
| Users.ListItems | windows/manage_users_window.py:51-54 | the row loop computes `Items` |
| Users.ParsedNameOfItem | windows/manage_users_window.py:53-62 | the name of a row is parsed back when it has no space |
| Users.ParsedNameBeforeSpace | windows/manage_users_window.py:62 | the parsed name of a text is exactly its part before the first space |
| Users.ParsedNames | windows/manage_users_window.py:61-62 | one parsed name per selected row |
| Users.RowNames | windows/manage_users_window.py:61-63 | the registered names of the selected rows |
| Users.GetPopAll | windows/manage_users_window.py:61-63 | popping a list of names removes exactly those names |
| Users.PopSelected | windows/manage_users_window.py:61-63 | the deletion loop as written pops the parsed name of every selected row, in selection order |
| Users.PopRows | windows/manage_users_window.py:61-63 | the corrected deletion loop pops the name of every selected row of the registry shown |
| Users.ManageUserWindow.constructor | windows/manage_users_window.py:9-12 | an empty registry and list before loading |
| Users.ManageUserWindow.LoadUsers | windows/manage_users_window.py:37-54 | a missing file shows the "not found" row, an unreadable one the "bad JSON" row, both keeping the registry; otherwise the registry is the file's and the rows are `Items` |
| Users.ManageUserWindow.DeleteSelectedAsWritten | windows/manage_users_window.py:56-69 | nothing without a selection; otherwise the names before the first space of the selected rows are popped, the file rewritten and the list rebuilt from the new registry (`items == Items(usersData, repr)`) |
| Users.ManageUserWindow.DeleteSelectedRows | windows/manage_users_window.py:56-69 | the corrected deletion pops exactly the users of the selected rows, rewrites the file and rebuilds the list from the new registry (`items == Items(usersData, repr)`) |
| Users.SpacedNameDeletesOther | windows/manage_users_window.py:62 | with users "ana" and "ana maria", deleting the row "ana maria (User)" deletes "ana" and keeps "ana maria" |
| Users.DeleteRowsExact | windows/manage_users_window.py:61-63 | deleting by rows removes exactly the users shown in the selected rows and keeps all others |
| Gallery.StrLeTotalPreorder | windows/gallery.py:37 | Python's string order is total and transitive, so `sorted` can use it |
| Gallery.KeepImages | windows/gallery.py:38 | the kept names keep their order, are all images, and include every image listed |
| Gallery.ImageFilesListed | windows/gallery.py:35-42 | the gallery lists exactly the image files of the folder, in name order |
| Gallery.JoinPath | windows/gallery.py:46 | `os.path.join` ends with the name, and an absolute name replaces the folder |
| Gallery.ImagePathInFolder | windows/gallery.py:44-47 | a clicked entry's path is the name inside `data/raw` |
| ParamEntrySimpleNumeric.CurrentValue | widgets/param_entry_simple_numeric.py:28-31 | `int(var.get())`, or 0 when that raises |
| ParamEntrySimpleNumeric.WheelValueBounds | widgets/param_entry_simple_numeric.py:33-41 | the new value respects both given bounds (the maximum wins when they cross) and is the value stepped once when that is in bounds |
| ParamEntrySimpleNumeric.WheelUpThenDown | widgets/param_entry_simple_numeric.py:33-43 | inside the bounds a step down undoes a step up |
| ParamEntrySimpleNumeric.UnparsableCountsAsZero | widgets/param_entry_simple_numeric.py:28-36 | a text that is no integer steps from 0 |
| ParamEntrySimpleNumeric.StringVar.constructor | widgets/param_entry_simple_numeric.py:17 | the entry's text variable |
| ParamEntrySimpleNumeric.OnMouseWheel | widgets/param_entry_simple_numeric.py:20-43 | the variable holds the decimal text of the new value, which reads back as that value; the command runs exactly when there is one and the window is not silent |
| ParamEntrySimpleNumeric.OnButton4 | widgets/param_entry_simple_numeric.py:46 | a wheel step with delta +1 |
| ParamEntrySimpleNumeric.OnButton5 | widgets/param_entry_simple_numeric.py:47 | a wheel step with delta -1 |
| ParamEntryHor.ValidateNumeric | widgets/param_entry_hor.py:5-7 | the empty text or a text of decimal digits only |
| ParamEntryHor.SignOrPointRejected | widgets/param_entry_hor.py:5-7 | a sign or a decimal point is rejected |
| ParamEntryHor.ValidTextParses | widgets/param_entry_hor.py:5-7 | a valid non-empty text reads as the number its digits spell |
| ParamEntryHor.AcceptsEdit | widgets/param_entry_hor.py:36-37 | every edit is accepted without a master widget; with one exactly the numeric texts |

## Left out

- OpenCV image operations (colour conversions, blur, CLAHE, Canny, morphology, resize, `findContours`, `contourArea`, `arcLength`, `boundingRect`, `minEnclosingCircle`, warping): foreign calls. Their results are inputs or fields of the `Vision` record.
- Floating-point numerics: the SSIM and MS-SSIM maps, the band-pass residual, LAB normalisation, the weighted-fusion score and the homography reprojection of points and radii are foreign functions. Floats are exact reals, and `np.pi` is its double value written as a decimal.
- ORB, the brute-force matcher, RANSAC `findHomography` and `warpPerspective`: function parameters of `AlignImage.AlignWithTemplate`.
- YOLO detection in the layout window and Shapely's `contains` and `distance` in the inspection window: their results are inputs.
- The camera, GPIO, Qt and Tk widgets, drawing, previews, message boxes and the cursor: not modelled, except the tuner's registered spin boxes, check boxes and two synced combo boxes, which are modelled by the value each shows. The preview counter of detected defects in the tuner is drawing only.
- Timers: the tuner's debounce is the `_update_scheduled` flag and a count of timer starts; when the timer fires is not modelled.
- File and JSON I/O: a file is a value. `json.load` is not modelled; a file is present and parsed, present and unreadable, or absent.
- The users file: it is modelled as a JSON object. A file holding another JSON value (a list, say) is not modelled.
- Printing of floats, lists and dicts (`repr`): a foreign formatter passed in where text of such a value is needed.
- Numeric text: `int()` and `float()` of text accept ASCII digits, a sign, a point and an exponent; underscores, `inf`, `nan` and non-ASCII digits are not modelled. `lower()` and `isdigit()` are ASCII only.
- DefectTuner.RoundTo: rounds a decimal half upwards; Qt rounds the binary double, so a value whose double lies just below a half rounds down there.
- DefectTuner.Tuner.constructor: `built` false stands for the exception `__init__` raises when a widget cannot take its parameter or a combo key is missing; the half-built window is not modelled.
- DefectTuner.Tuner.ResetToDefaultsAsWritten: the `ignore_overexposed` box left with its signals blocked after the loop raises is not modelled.
- DefectTuner.Tuner.SaveCurrentParams: the CSV row's timestamp, user and header, and the append to the file, are not modelled; only whether the writer accepts the row's keys is.
- DefectTuner.LoadKeepsValid: assumes the map it starts from is valid, which needs each key's rules to keep the key's type; this is not proved for the literal default map.
- AlignImage.AlignWithTemplate: a non-positive resize scale is an error of its own; OpenCV's `resize` raises on it.
- DefectParamAccessors.ParamAccessors.Set: the value written is an integer; `str()` of other values is not modelled.
- AdjustPositions.Window.constructor: starts with an empty numbering, which the source first sets in `reset_lines` or `number_polygons_on_lines`.
- `run_detection`, `on_salvar_mascara` and the shape loading of the layout window: YOLO inference, drawing and file writes; the rows they feed are modelled through `DetectRows`.
- The undo button of the can-shape window is created but never connected: there is nothing to model.
- `keyPressEvent` and `_cancel` of the leaf-mask window dispatch to the modelled handlers or only close the dialog; `_save_mask_and_coords` is the file write that `Confirm` records as the saved points.
- The gallery's image preview (opening and scaling with PIL and Qt): not modelled.
- The entry callback's `print`: output only.

## Findings

| source | as written | input that shows it | evidently intended | confidence | as-written member | corrected member |
|---|---|---|---|---|---|---|
| windows/defect_tuner_window.py:601-619 | the reset loop calls `setValue` on every registered widget, including the `ignore_overexposed` check box, which has no `setValue`, so it raises after the six threshold spin boxes | pressing reset with the default widgets | the basic values are reset, every widget shows them and the preview is refreshed | high, not executed | DefectTuner.ResetNeverRefreshes | DefectTuner.Tuner.ResetToDefaults |
| windows/login_window.py:4-78 | the failure branch calls `QMessageBox.warning`, but `QMessageBox` is never imported, so it raises `NameError` | any wrong password | a warning box, the dialog stays open | high, not executed | Users.LoginFailureRaises | Users.TentarLogin |
| main.py:168-170 | the main window opens the new-user window with its default file `users.json`, while login and user management read `config/users.json` | with "ana" absent from `config/users.json`, create "ana" with password "x", then log in as "ana" with "x" | the new user can log in | high, not executed | Users.CreatedUserCannotLogIn | Users.CreatedUserCanLogIn |
| windows/manage_users_window.py:62 | the user to delete is the row text up to its first space | users "ana" and "ana maria"; delete the row "ana maria (User)" | the user shown in the row is deleted | high, not executed | Users.SpacedNameDeletesOther | Users.ManageUserWindow.DeleteSelectedRows |
