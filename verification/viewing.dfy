/** The camera handlers of scene-start.cpp: mouse buttons and the scroll wheel
    (`mouseClickOrScroll`) and the perspective frustum chosen on a window resize
    (`reshape`). */
module Viewing {
  import opened Scene

  /** GLUT's button and state codes; the wheel reports buttons 3 (up) and 4 (down). */
  const LeftButton: int := 0
  const MiddleButton: int := 1
  const ButtonDown: int := 0
  const ButtonUp: int := 1
  const WheelUp: int := 3
  const WheelDown: int := 4

  /** One scroll-up step: a non-negative distance shrinks by a fifth, then 0.05 is taken
      off; a distance already below zero only loses the 0.05. */
  function ZoomIn(v: real): (r: real)
    ensures r <= v - 0.05
    ensures v < 0.0 ==> r == v - 0.05
    ensures r < 0.0 <==> v < 0.0625
  {
    (if v < 0.0 then v else v * 0.8) - 0.05
  }

  /** One scroll-down step: the inverse scaling by 1.25, then 0.05 added. */
  function ZoomOut(v: real): (r: real)
    ensures r >= v + 0.05
    ensures v >= 0.0 ==> r > 0.0
    ensures v < 0.0 ==> r == v + 0.05
  {
    (if v < 0.0 then v else v * 1.25) + 0.05
  }

  /** Both wheel steps are strictly monotone, so scrolling never reorders two distances. */
  lemma ZoomMonotone(a: real, b: real)
    requires a < b
    ensures ZoomIn(a) < ZoomIn(b)
    ensures ZoomOut(a) < ZoomOut(b)
  {
  }

  /** Scrolling up then down restores the distance only while it is negative: otherwise
      the step below 0.0625 leaves `0.8 * v`, and above it `v - 0.0125`. */
  lemma ZoomOutAfterIn(v: real)
    ensures ZoomOut(ZoomIn(v)) ==
      (if v < 0.0 then v else if v < 0.0625 then 0.8 * v else v - 0.0125)
  {
  }

  /** Scrolling down then up: exact below -0.05, otherwise `v - 0.01`, `0.8 * v - 0.01`. */
  lemma ZoomInAfterOut(v: real)
    ensures ZoomIn(ZoomOut(v)) ==
      (if v < -0.05 then v else if v < 0.0 then 0.8 * v - 0.01 else v - 0.01)
  {
  }

  /** `mouseClickOrScroll(button, state, x, y)`: pressing the left or middle button starts
      a drag on that button (a shift-click also drags with the left button), releasing it
      ends the drag, and the wheel changes only `viewDist`. */
  function MouseClick(e: Editor, button: int, state: int): (r: Editor)
    ensures button == LeftButton && state == ButtonDown ==> r == e.(drag := Held(LeftButton))
    ensures button == MiddleButton && state == ButtonDown ==> r == e.(drag := Held(MiddleButton))
    ensures (button == LeftButton || button == MiddleButton) && state == ButtonUp ==>
      r == Deactivate(e)
    ensures button == WheelUp ==> r == e.(cam := e.cam.(viewDist := ZoomIn(e.cam.viewDist)))
    ensures button == WheelDown ==> r == e.(cam := e.cam.(viewDist := ZoomOut(e.cam.viewDist)))
    ensures r.objs == e.objs && r.nObjects == e.nObjects && r.tool == e.tool
    ensures r.currObject == e.currObject && r.toolObj == e.toolObj && r.selected == e.selected
    ensures !(button in {LeftButton, MiddleButton, WheelUp, WheelDown}) ==> r == e
  {
    if button == LeftButton && state == ButtonDown then e.(drag := Held(LeftButton))
    else if button == LeftButton && state == ButtonUp then Deactivate(e)
    else if button == MiddleButton && state == ButtonDown then e.(drag := Held(MiddleButton))
    else if button == MiddleButton && state == ButtonUp then Deactivate(e)
    else if button == WheelUp then e.(cam := e.cam.(viewDist := ZoomIn(e.cam.viewDist)))
    else if button == WheelDown then e.(cam := e.cam.(viewDist := ZoomOut(e.cam.viewDist)))
    else e
  }

  /** The near and far clipping distances of the projection. */
  const NearDist: real := 0.01
  const FarDist: real := 100.0

  /** The arguments of `Frustum(left, right, bottom, top, near, far)`. */
  datatype Frustum = Frustum(left: real, right: real, bottom: real, top: real, near: real, far: real)

  /** A projection, or one whose extents divide by a zero window dimension (an infinite
      or NaN float in the source). */
  datatype Projection = Finite(f: Frustum) | NonFinite

  /** The window size recorded by `reshape` together with the projection it builds. */
  datatype Window = Window(width: int, height: int, proj: Projection)

  /** `reshape(width, height)`: the narrower dimension spans exactly `2 * NearDist` on the
      near plane and the other is widened by the aspect ratio, so the same part of the
      scene stays visible across the narrower side. */
  function Reshape(width: nat, height: nat): (r: Window)
    ensures r.width == width && r.height == height
    ensures r.proj.NonFinite? <==> width == 0 || height == 0
    ensures r.proj.Finite? ==>
      var f := r.proj.f;
      && f.near == NearDist && f.far == FarDist
      && f.left == -f.right && f.bottom == -f.top
      && f.right * (height as real) == f.top * (width as real)
      && (width == height ==> f.right == NearDist && f.top == NearDist)
      && (if width < height then f.right == NearDist && f.top > NearDist
          else f.top == NearDist && f.right >= NearDist)
  {
    var w := width as real;
    var h := height as real;
    if width < height then
      if width == 0 then Window(width, height, NonFinite)
      else
        Widen(w, h);
        Window(width, height, Finite(Frustum(-NearDist, NearDist, -NearDist * h / w, NearDist * h / w, 0.01, 100.0)))
    else
      if height == 0 then Window(width, height, NonFinite)
      else
        Widen(h, w);
        Window(width, height, Finite(Frustum(-NearDist * w / h, NearDist * w / h, -NearDist, NearDist, 0.01, 100.0)))
  }

  /** Widening the near-plane extent by the ratio `b / a` of the two dimensions. */
  lemma Widen(a: real, b: real)
    requires 0.0 < a <= b
    ensures NearDist * b / a * a == NearDist * b
    ensures NearDist * b / a >= NearDist
    ensures a < b ==> NearDist * b / a > NearDist
  {
    var q := NearDist * b / a;
    assert q * a == NearDist * b;
    assert q == NearDist + NearDist * (b - a) / a;
    assert NearDist * (b - a) / a >= 0.0;
    assert a < b ==> NearDist * (b - a) / a > 0.0;
  }

  /** Turning the window on its side swaps the horizontal and vertical extents. */
  lemma ReshapeSwap(width: nat, height: nat)
    requires width > 0 && height > 0
    ensures Reshape(height, width).proj.Finite?
    ensures Reshape(height, width).proj.f.right == Reshape(width, height).proj.f.top
    ensures Reshape(height, width).proj.f.top == Reshape(width, height).proj.f.right
  {
    var w := width as real;
    var h := height as real;
    if width < height {
      assert Reshape(height, width).proj.f.right == NearDist * h / w;
    } else if width > height {
      assert Reshape(height, width).proj.f.top == NearDist * w / h;
    } else {
      assert w / h == 1.0;
    }
  }

  /** A common factor of both dimensions cancels from the widened extent. */
  lemma RatioScale(k: real, a: real, b: real)
    requires k > 0.0 && a > 0.0
    ensures NearDist * (k * b) / (k * a) == NearDist * b / a
  {
    assert NearDist * (k * b) == k * (NearDist * b);
  }

  /** Scaling the window keeps its frustum: only the aspect ratio matters. */
  lemma ReshapeScale(width: nat, height: nat, k: nat)
    requires width > 0 && height > 0 && k > 0
    ensures Reshape(k * width, k * height).proj == Reshape(width, height).proj
  {
    var w := width as real;
    var h := height as real;
    var kr := k as real;
    assert (k * width) as real == kr * w;
    assert (k * height) as real == kr * h;
    assert k * width < k * height <==> width < height;
    RatioScale(kr, w, h);
    RatioScale(kr, h, w);
  }
}
