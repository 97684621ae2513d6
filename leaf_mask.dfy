/**
 * The polygon point editor of the leaf-mask dialog: clicks on the preview are mapped back
 * to pixels of the original image, a click near an existing point starts dragging it and a
 * click elsewhere adds a point; undo, reset and confirm complete the editing cycle. Drawing,
 * message boxes and the files written on confirm are left to Qt and OpenCV.
 */
module LeafMask {
  import opened Wrappers
  import opened Clamps
  import opened Masks

  /** `PREVIEW_WIDTH` and `PREVIEW_HEIGHT`: the fixed size of the image label. */
  const PreviewWidth: int := 800
  const PreviewHeight: int := 700

  type Point = (int, int)

  /** An image OpenCV can load has at least one pixel. */
  predicate Loaded(d: Dims) {
    d.h >= 1 && d.w >= 1
  }

  function MinReal(a: real, b: real): real {
    if a <= b then a else b
  }

  /** `_resize_image`: the preview scale, never enlarging the image. */
  function PreviewScale(d: Dims): (s: real)
    requires Loaded(d)
    ensures 0.0 < s <= 1.0
    ensures s * d.w as real <= PreviewWidth as real && s * d.h as real <= PreviewHeight as real
  {
    MinReal(1.0, MinReal(PreviewWidth as real / d.w as real, PreviewHeight as real / d.h as real))
  }

  /** The label-to-image scale of `_map_click_to_original` (the label is letterboxed). */
  function LabelScale(d: Dims): (s: real)
    requires Loaded(d)
    ensures s > 0.0
  {
    MinReal(PreviewWidth as real / d.w as real, PreviewHeight as real / d.h as real)
  }

  /** One coordinate of a click, back in the original image before clamping: the click
      minus the letterbox offset, divided by the scale and truncated. */
  function Unclamped(click: int, labelSize: int, orig: nat, scale: real): int
    requires scale > 0.0
  {
    var disp := Trunc(orig as real * scale);
    var offset := (labelSize - disp) as real / 2.0;
    Trunc((click as real - offset) / scale)
  }

  /** `_map_click_to_original`: a click lands on a pixel of the original image. A click over
      the displayed image maps to the pixel under it; a click in the letterbox or outside
      the label goes to the nearest border pixel. */
  function MapClick(d: Dims, clickX: int, clickY: int): (r: Point)
    requires Loaded(d)
    ensures 0 <= r.0 < d.w && 0 <= r.1 < d.h
    ensures var ux := Unclamped(clickX, PreviewWidth, d.w, LabelScale(d));
            (0 <= ux < d.w ==> r.0 == ux) && (ux < 0 ==> r.0 == 0) && (ux >= d.w ==> r.0 == d.w - 1)
    ensures var uy := Unclamped(clickY, PreviewHeight, d.h, LabelScale(d));
            (0 <= uy < d.h ==> r.1 == uy) && (uy < 0 ==> r.1 == 0) && (uy >= d.h ==> r.1 == d.h - 1)
  {
    var s := LabelScale(d);
    (ClampInt(Unclamped(clickX, PreviewWidth, d.w, s), 0, d.w - 1),
     ClampInt(Unclamped(clickY, PreviewHeight, d.h, s), 0, d.h - 1))
  }

  /** `_hover_tol`: about 8 screen pixels in image pixels, at least 3. */
  function HoverTol(scale: real): (tol: int)
    requires scale > 0.0
    ensures tol >= 3
    ensures tol > 3 ==> tol as real <= 8.0 / scale < tol as real + 1.0
    ensures 8.0 / scale >= 4.0 ==> tol > 3
  {
    var t := Trunc(8.0 / scale);
    if t > 3 then t else 3
  }

  /** The preview never enlarges the image, so the tolerance is in fact at least 8 and the
      floor of 3 never applies. */
  lemma HoverTolAtLeastEight(scale: real)
    requires 0.0 < scale <= 1.0
    ensures HoverTol(scale) >= 8
  {
    assert 8.0 / scale >= 8.0 by {
      assert 8.0 / scale * scale == 8.0;
    }
  }

  function Abs(v: int): nat {
    if v >= 0 then v else -v
  }

  /** (x, y) lies within `tol` of point p along both axes. */
  predicate Near(p: Point, x: int, y: int, tol: int) {
    Abs(x - p.0) <= tol && Abs(y - p.1) <= tol
  }

  /** The first point within the tolerance, if any. */
  function FirstNear(points: seq<Point>, x: int, y: int, tol: int): (r: Option<nat>)
    ensures r.None? <==> forall i :: 0 <= i < |points| ==> !Near(points[i], x, y, tol)
    ensures r.Some? ==> r.value < |points| && Near(points[r.value], x, y, tol)
    ensures r.Some? ==> forall i :: 0 <= i < r.value ==> !Near(points[i], x, y, tol)
  {
    if points == [] then None
    else if Near(points[0], x, y, tol) then Some(0)
    else match FirstNear(points[1..], x, y, tol)
      case None => None
      case Some(i) => Some(i + 1)
  }

  /** `_create_mask_array`: a black mask of the image's size, with the polygon filled in
      (by OpenCV's `fillPoly`) once there are at least 3 points. */
  function MaskArray(d: Dims, points: seq<Point>, fillPoly: (Dims, seq<Point>) -> Mask): (r: Mask)
    ensures |points| < 3 ==> forall i, j :: !At(r, i, j)
    ensures |points| >= 3 ==> r == fillPoly(d, points)
  {
    if |points| >= 3 then fillPoly(d, points) else Zeros(d)
  }

  class LeafMaskCreator {
    /** `self.points`, in original-image pixels. */
    var points: seq<Point>
    var isDone: bool
    /** The preview scale. */
    var scale: real
    /** The size of the loaded image; `None` when `cv2.imread` failed. */
    var image: Option<Dims>
    var dragging: Option<nat>
    /** The confirm button is enabled. */
    var confirmEnabled: bool
    /** The dialog was accepted. */
    var accepted: bool
    /** The points written to the coordinates file on confirm. */
    var saved: Option<seq<Point>>

    /** The scale never enlarges, the image is a real one, and the confirm button is enabled
        exactly when the polygon has at least 3 points. */
    predicate Valid()
      reads this
    {
      0.0 < scale <= 1.0 &&
      (image.Some? ==> Loaded(image.value)) &&
      (confirmEnabled <==> |points| >= 3)
    }

    /** `__init__`: `_load_and_prepare_image`, then `_load_existing_coords`, where `loaded`
        is the list read from the coordinates file (`None` when there is no file or it cannot
        be read). Loaded points stay editable: the polygon is not marked done. */
    constructor (image: Option<Dims>, loaded: Option<seq<Point>>)
      requires image.Some? ==> Loaded(image.value)
      ensures Valid()
      ensures this.image == image && !isDone && dragging.None?
      ensures points == if loaded.Some? then loaded.value else []
      ensures !accepted && saved.None?
      ensures scale == if image.Some? then PreviewScale(image.value) else 1.0
    {
      this.image := image;
      points := [];
      isDone := false;
      scale := if image.Some? then PreviewScale(image.value) else 1.0;
      dragging := None;
      confirmEnabled := false;
      accepted := false;
      saved := None;
      new;
      if loaded.Some? {
        points := loaded.value;
        if |points| >= 3 {
          confirmEnabled := true;
        }
      }
    }

    /** `_is_over_point`: the first point within the hover tolerance of (x, y). */
    method IsOverPoint(x: int, y: int) returns (idx: Option<nat>)
      requires scale > 0.0
      ensures idx == FirstNear(points, x, y, HoverTol(scale))
    {
      var tol := HoverTol(scale);
      var i := 0;
      while i < |points|
        invariant 0 <= i <= |points|
        invariant forall j :: 0 <= j < i ==> !Near(points[j], x, y, tol)
      {
        if Abs(x - points[i].0) <= tol && Abs(y - points[i].1) <= tol {
          return Some(i);
        }
        i := i + 1;
      }
      return None;
    }

    /** `_on_mouse_press`: nothing once the polygon is confirmed; a press on a point starts
        dragging it; any other press appends exactly one point. Without an image the click
        cannot be mapped and the handler stops with an error, changing nothing. */
    method OnMousePress(clickX: int, clickY: int)
      modifies this
      requires Valid()
      ensures Valid()
      ensures old(isDone) || old(image).None? ==> points == old(points) && dragging == old(dragging)
      ensures !old(isDone) && old(image).Some? ==>
                var p := MapClick(old(image).value, clickX, clickY);
                var hit := FirstNear(old(points), p.0, p.1, HoverTol(old(scale)));
                (hit.Some? ==> points == old(points) && dragging == hit) &&
                (hit.None? ==> points == old(points) + [p] && dragging == old(dragging))
      ensures isDone == old(isDone) && image == old(image) && scale == old(scale)
      ensures accepted == old(accepted) && saved == old(saved)
    {
      if isDone || image.None? {
        return;
      }
      var p := MapClick(image.value, clickX, clickY);
      var idx := IsOverPoint(p.0, p.1);
      if idx.Some? {
        dragging := idx;
        return;
      }
      points := points + [p];
      if |points| >= 3 {
        confirmEnabled := true;
      }
    }

    /** `_on_mouse_move`: while dragging, the dragged point follows the mouse and no other
        point changes. A dragged index that no longer exists (the point was undone during the
        drag) makes the handler stop with an IndexError. */
    method OnMouseMove(clickX: int, clickY: int)
      modifies this
      requires Valid()
      ensures Valid()
      ensures old(image).Some? && old(dragging).Some? && old(dragging).value < |old(points)| ==>
                points == old(points)[old(dragging).value := MapClick(old(image).value, clickX, clickY)]
      ensures !(old(image).Some? && old(dragging).Some? && old(dragging).value < |old(points)|) ==>
                points == old(points)
      ensures dragging == old(dragging) && isDone == old(isDone) && image == old(image)
      ensures scale == old(scale) && accepted == old(accepted) && saved == old(saved)
    {
      if image.None? {
        return;
      }
      var p := MapClick(image.value, clickX, clickY);
      if dragging.Some? && dragging.value < |points| {
        points := points[dragging.value := p];
      }
    }

    /** `_on_mouse_release`: the drag ends; the points stay where they are. */
    method OnMouseRelease()
      modifies this
      requires Valid()
      ensures Valid()
      ensures dragging.None?
      ensures points == old(points) && isDone == old(isDone) && image == old(image)
      ensures scale == old(scale) && accepted == old(accepted) && saved == old(saved)
    {
      dragging := None;
    }

    /** `_undo`: removes the last point, if any. */
    method Undo()
      modifies this
      requires Valid()
      ensures Valid()
      ensures old(points) == [] ==> points == []
      ensures old(points) != [] ==> points == old(points)[..|old(points)| - 1]
      ensures dragging == old(dragging) && isDone == old(isDone) && image == old(image)
      ensures scale == old(scale) && accepted == old(accepted) && saved == old(saved)
    {
      if points != [] {
        points := points[..|points| - 1];
        if |points| < 3 {
          confirmEnabled := false;
        }
      }
    }

    /** `_reset_points`: back to an empty, unconfirmed polygon. */
    method ResetPoints()
      modifies this
      requires Valid()
      ensures Valid()
      ensures points == [] && !isDone && !confirmEnabled
      ensures dragging == old(dragging) && image == old(image)
      ensures scale == old(scale) && accepted == old(accepted) && saved == old(saved)
    {
      points := [];
      isDone := false;
      confirmEnabled := false;
    }

    /** `_confirm`: refuses a polygon of fewer than 3 points; otherwise marks it done, then
        redraws, saves the points and accepts the dialog. Without an image (points loaded
        from the coordinates file) the redraw raises after the polygon is marked done, so
        nothing is saved and the dialog stays open. */
    method Confirm() returns (ok: bool)
      modifies this
      requires Valid()
      ensures Valid()
      ensures ok <==> |old(points)| >= 3 && image.Some?
      ensures isDone == (old(isDone) || |old(points)| >= 3)
      ensures ok ==> accepted && saved == Some(old(points))
      ensures !ok ==> accepted == old(accepted) && saved == old(saved)
      ensures points == old(points) && dragging == old(dragging) && image == old(image)
      ensures scale == old(scale)
    {
      if |points| < 3 {
        return false;
      }
      isDone := true;
      if image.None? {
        return false;
      }
      saved := Some(points);
      accepted := true;
      ok := true;
    }
  }

  /** A second press at the pixel of a point grabs a point instead of adding another: the
      editor never stacks a new point on an existing one. */
  lemma {:induction false} PressOnPointGrabs(points: seq<Point>, k: nat, tol: int)
    requires k < |points| && tol >= 0
    ensures FirstNear(points, points[k].0, points[k].1, tol).Some?
    ensures FirstNear(points, points[k].0, points[k].1, tol).value <= k
  {
    if k > 0 && !Near(points[0], points[k].0, points[k].1, tol) {
      PressOnPointGrabs(points[1..], k - 1, tol);
    }
  }
}
