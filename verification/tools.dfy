/** The drag callbacks of scene-start.cpp. Each callback receives a two-component delta
    (already scaled by the binding's sensitivity matrix) and adds its components to two
    scalars of the camera or of one scene object. Every object callback is written out as
    in the source and proved equal to a table-driven reference, `ByLaw(LawOf(m), ...)`. */
module Tools {
  import opened Scene

  /** The index an object callback edits: `toolObj`, or `currObject` for the two angle
      callbacks. */
  datatype Target = ToolObject | CurrentObject

  /** How an object callback spends a delta `v`: `v.x * kx` is added to field `fx`, then,
      when `clamp` is set, a brightness at or below 0 is reset to 0, then `v.y * ky` is
      added to field `fy`. */
  datatype Law = Law(target: Target, fx: Field, kx: real, fy: Field, ky: real, clamp: bool)

  predicate ValidLaw(l: Law) {
    l.fx != l.fy && (l.clamp ==> l.fx == Brightness)
  }

  /** Callbacks that edit a scene object rather than the camera. */
  predicate OnObject(m: Mutator) {
    m != CamSideViewDist && m != CamSideUp
  }

  /** The field table of the object callbacks. */
  function LawOf(m: Mutator): (l: Law)
    requires OnObject(m)
    ensures ValidLaw(l)
  {
    match m
    case LocXZ => Law(ToolObject, LocX, 1.0, LocZ, 1.0, false)
    case ScaleY => Law(ToolObject, Scale, 1.0, LocY, 1.0, false)
    case BrightnessY => Law(ToolObject, Brightness, 1.0, LocY, 1.0, true)
    case RedGreen => Law(ToolObject, Red, 1.0, Green, 1.0, false)
    case BlueBrightness => Law(ToolObject, Blue, 1.0, Brightness, 1.0, false)
    case AmbientDiffuse => Law(ToolObject, Ambient, 1.0, Diffuse, 1.0, false)
    case SpecularShine => Law(ToolObject, Specular, 1.0, Shine, 1.0, false)
    case RotateObj => Law(ToolObject, AngleZ, -20.0, AngleY, -20.0, false)
    case AngleYX => Law(CurrentObject, AngleY, 1.0, AngleX, 1.0, false)
    case AngleZTexScale => Law(CurrentObject, AngleZ, 1.0, TexScale, 1.0, false)
  }

  function TargetIndex(t: Target, e: Editor): int {
    match t
    case ToolObject => e.toolObj
    case CurrentObject => e.currObject
  }

  function Max0(x: real): real {
    if x <= 0.0 then 0.0 else x
  }

  function ClampBrightness(o: SceneObject): SceneObject {
    o.(brightness := Max0(o.brightness))
  }

  /** The effect of a law on the record it targets. */
  function Step(l: Law, o: SceneObject, v: Vec2): SceneObject {
    var o1 := Bump(o, l.fx, l.kx * v.x);
    var o2 := if l.clamp then ClampBrightness(o1) else o1;
    Bump(o2, l.fy, l.ky * v.y)
  }

  /** Reference semantics of an object callback, read off its law. */
  function ByLaw(l: Law, e: Editor, v: Vec2): Outcome {
    var t := TargetIndex(l.target, e);
    if !InSlots(t) then Overflow
    else Next(e.(objs := e.objs[t := Step(l, e.objs[t], v)]))
  }

  /** A callback changes the two fields its law names and no other. */
  lemma StepFrame(m: Mutator, o: SceneObject, v: Vec2, f: Field)
    requires OnObject(m)
    requires f != LawOf(m).fx && f != LawOf(m).fy
    ensures Get(Step(LawOf(m), o, v), f) == Get(o, f)
  {
    match m
    case LocXZ => case ScaleY => case BrightnessY => case RedGreen => case BlueBrightness =>
    case AmbientDiffuse => case SpecularShine => case RotateObj => case AngleYX =>
    case AngleZTexScale =>
  }

  /** The values a callback leaves in the two fields its law names. */
  lemma StepFields(m: Mutator, o: SceneObject, v: Vec2)
    requires OnObject(m)
    ensures var l := LawOf(m);
      && Step(l, o, v).meshId == o.meshId && Step(l, o, v).texId == o.texId
      && Get(Step(l, o, v), l.fy) == Get(o, l.fy) + l.ky * v.y
      && (!l.clamp ==> Get(Step(l, o, v), l.fx) == Get(o, l.fx) + l.kx * v.x)
      && (l.clamp ==> Get(Step(l, o, v), l.fx) == Max0(Get(o, l.fx) + l.kx * v.x))
  {
    var l := LawOf(m);
    var o1 := Bump(o, l.fx, l.kx * v.x);
    var o2 := if l.clamp then ClampBrightness(o1) else o1;
    BumpOther(o, l.fx, l.kx * v.x, l.fy);
    if l.clamp {
      ClampOther(o1, l.fy);
    }
    BumpOther(o2, l.fy, l.ky * v.y, l.fx);
  }

  /** The clamp touches brightness only. */
  lemma ClampOther(o: SceneObject, g: Field)
    requires g != Brightness
    ensures Get(ClampBrightness(o), g) == Get(o, g)
  {
    match g
    case LocX => case LocY => case LocZ => case LocW => case Scale =>
    case AngleX => case AngleY => case AngleZ => case Diffuse => case Specular =>
    case Ambient => case Shine => case Red => case Green => case Blue =>
    case TexScale =>
  }

  /** What an object callback does, read off its law: it fails exactly when the target
      index is outside the array, and otherwise changes the two fields its law names on
      the target object and nothing else. */
  lemma ByLawSpec(m: Mutator, e: Editor, v: Vec2)
    requires OnObject(m)
    ensures var l := LawOf(m);
      ByLaw(l, e, v).Overflow? <==> !InSlots(TargetIndex(l.target, e))
    ensures var l := LawOf(m);
      ByLaw(l, e, v).Next? ==>
      var t := TargetIndex(l.target, e);
      var e' := ByLaw(l, e, v).e;
      && e'.(objs := e.objs) == e
      && (forall j :: 0 <= j < MaxObjects && j != t ==> e'.objs[j] == e.objs[j])
      && (forall f :: f != l.fx && f != l.fy ==> Get(e'.objs[t], f) == Get(e.objs[t], f))
      && e'.objs[t].meshId == e.objs[t].meshId && e'.objs[t].texId == e.objs[t].texId
      && Get(e'.objs[t], l.fy) == Get(e.objs[t], l.fy) + l.ky * v.y
      && (!l.clamp ==> Get(e'.objs[t], l.fx) == Get(e.objs[t], l.fx) + l.kx * v.x)
      && (l.clamp ==> Get(e'.objs[t], l.fx) == Max0(Get(e.objs[t], l.fx) + l.kx * v.x))
  {
    var l := LawOf(m);
    var t := TargetIndex(l.target, e);
    if InSlots(t) {
      StepFields(m, e.objs[t], v);
      forall f | f != l.fx && f != l.fy
        ensures Get(Step(l, e.objs[t], v), f) == Get(e.objs[t], f)
      {
        StepFrame(m, e.objs[t], v, f);
      }
    }
  }

  // ---- the callbacks, as written in the source ----

  function AdjustCamSideViewDist(e: Editor, cv: Vec2): (r: Outcome)
    ensures r.Next? && r.e.(cam := e.cam) == e
    ensures r.e.cam.sideDeg == e.cam.sideDeg + cv.x && r.e.cam.viewDist == e.cam.viewDist + cv.y
    ensures r.e.cam.upDeg == e.cam.upDeg
  {
    Next(e.(cam := e.cam.(sideDeg := e.cam.sideDeg + cv.x, viewDist := e.cam.viewDist + cv.y)))
  }

  function AdjustCamSideUp(e: Editor, su: Vec2): (r: Outcome)
    ensures r.Next? && r.e.(cam := e.cam) == e
    ensures r.e.cam.sideDeg == e.cam.sideDeg + su.x && r.e.cam.upDeg == e.cam.upDeg + su.y
    ensures r.e.cam.viewDist == e.cam.viewDist
  {
    Next(e.(cam := e.cam.(sideDeg := e.cam.sideDeg + su.x, upDeg := e.cam.upDeg + su.y)))
  }

  function AdjustLocXZ(e: Editor, xz: Vec2): (r: Outcome)
    ensures r == ByLaw(LawOf(LocXZ), e, xz)
  {
    var t := e.toolObj;
    if !InSlots(t) then Overflow
    else
      var o := e.objs[t];
      Next(e.(objs := e.objs[t := o.(loc := o.loc.(x := o.loc.x + xz.x, z := o.loc.z + xz.y))]))
  }

  function AdjustScaleY(e: Editor, sy: Vec2): (r: Outcome)
    ensures r == ByLaw(LawOf(ScaleY), e, sy)
  {
    var t := e.toolObj;
    if !InSlots(t) then Overflow
    else
      var o := e.objs[t];
      Next(e.(objs := e.objs[t := o.(scale := o.scale + sy.x, loc := o.loc.(y := o.loc.y + sy.y))]))
  }

  function AdjustBrightnessY(e: Editor, bY: Vec2): (r: Outcome)
    ensures r == ByLaw(LawOf(BrightnessY), e, bY)
    ensures r.Next? ==> r.e.objs[e.toolObj].brightness >= 0.0
  {
    var t := e.toolObj;
    if !InSlots(t) then Overflow
    else
      var o := e.objs[t];
      var raised := o.brightness + bY.x;
      var b := if raised <= 0.0 then 0.0 else raised;
      assert Bump(o, Brightness, 1.0 * bY.x) == o.(brightness := raised);
      Next(e.(objs := e.objs[t := o.(brightness := b, loc := o.loc.(y := o.loc.y + bY.y))]))
  }

  function AdjustRedGreen(e: Editor, rg: Vec2): (r: Outcome)
    ensures r == ByLaw(LawOf(RedGreen), e, rg)
  {
    var t := e.toolObj;
    if !InSlots(t) then Overflow
    else
      var o := e.objs[t];
      Next(e.(objs := e.objs[t := o.(rgb := o.rgb.(r := o.rgb.r + rg.x, g := o.rgb.g + rg.y))]))
  }

  function AdjustBlueBrightness(e: Editor, blbr: Vec2): (r: Outcome)
    ensures r == ByLaw(LawOf(BlueBrightness), e, blbr)
  {
    var t := e.toolObj;
    if !InSlots(t) then Overflow
    else
      var o := e.objs[t];
      Next(e.(objs := e.objs[t := o.(rgb := o.rgb.(b := o.rgb.b + blbr.x),
                                     brightness := o.brightness + blbr.y)]))
  }

  function AmbientDiffuseModification(e: Editor, ambdif: Vec2): (r: Outcome)
    ensures r == ByLaw(LawOf(AmbientDiffuse), e, ambdif)
  {
    var t := e.toolObj;
    if !InSlots(t) then Overflow
    else
      var o := e.objs[t];
      Next(e.(objs := e.objs[t := o.(ambient := o.ambient + ambdif.x, diffuse := o.diffuse + ambdif.y)]))
  }

  function SpecularShineModification(e: Editor, specshi: Vec2): (r: Outcome)
    ensures r == ByLaw(LawOf(SpecularShine), e, specshi)
  {
    var t := e.toolObj;
    if !InSlots(t) then Overflow
    else
      var o := e.objs[t];
      Next(e.(objs := e.objs[t := o.(specular := o.specular + specshi.x, shine := o.shine + specshi.y)]))
  }

  function RotateObject(e: Editor, xz: Vec2): (r: Outcome)
    ensures r == ByLaw(LawOf(RotateObj), e, xz)
  {
    var t := e.toolObj;
    if !InSlots(t) then Overflow
    else
      var o := e.objs[t];
      Next(e.(objs := e.objs[t := o.(angles := o.angles.(z := o.angles.z + -20.0 * xz.x,
                                                          y := o.angles.y + -20.0 * xz.y))]))
  }

  function AdjustAngleYX(e: Editor, angleYX: Vec2): (r: Outcome)
    ensures r == ByLaw(LawOf(AngleYX), e, angleYX)
  {
    var t := e.currObject;
    if !InSlots(t) then Overflow
    else
      var o := e.objs[t];
      Next(e.(objs := e.objs[t := o.(angles := o.angles.(y := o.angles.y + angleYX.x,
                                                          x := o.angles.x + angleYX.y))]))
  }

  function AdjustAngleZTexScale(e: Editor, azTs: Vec2): (r: Outcome)
    ensures r == ByLaw(LawOf(AngleZTexScale), e, azTs)
  {
    var t := e.currObject;
    if !InSlots(t) then Overflow
    else
      var o := e.objs[t];
      Next(e.(objs := e.objs[t := o.(angles := o.angles.(z := o.angles.z + azTs.x),
                                     texScale := o.texScale + azTs.y)]))
  }

  /** Invokes the callback a tool tag stands for. */
  function Apply(m: Mutator, e: Editor, v: Vec2): (r: Outcome)
    ensures OnObject(m) ==> r == ByLaw(LawOf(m), e, v)
    ensures !OnObject(m) ==> r.Next? && r.e.(cam := e.cam) == e
  {
    match m
    case CamSideViewDist => AdjustCamSideViewDist(e, v)
    case CamSideUp => AdjustCamSideUp(e, v)
    case LocXZ => AdjustLocXZ(e, v)
    case ScaleY => AdjustScaleY(e, v)
    case BrightnessY => AdjustBrightnessY(e, v)
    case RedGreen => AdjustRedGreen(e, v)
    case BlueBrightness => AdjustBlueBrightness(e, v)
    case AmbientDiffuse => AmbientDiffuseModification(e, v)
    case SpecularShine => SpecularShineModification(e, v)
    case RotateObj => RotateObject(e, v)
    case AngleYX => AdjustAngleYX(e, v)
    case AngleZTexScale => AdjustAngleZTexScale(e, v)
  }

  function Neg(v: Vec2): Vec2 {
    Vec2(-v.x, -v.y)
  }

  function Plus(v: Vec2, w: Vec2): Vec2 {
    Vec2(v.x + w.x, v.y + w.y)
  }

  lemma Distribute(k: real, a: real, b: real)
    ensures k * a + k * b == k * (a + b)
  {
  }

  /** On one record: a non-clamping law is undone by the opposite delta. */
  lemma StepUndo(m: Mutator, o: SceneObject, v: Vec2)
    requires OnObject(m) && m != BrightnessY
    ensures Step(LawOf(m), Step(LawOf(m), o, v), Neg(v)) == o
  {
    var l := LawOf(m);
    var o1 := Step(l, o, v);
    var o2 := Step(l, o1, Neg(v));
    StepFields(m, o, v);
    StepFields(m, o1, Neg(v));
    Distribute(l.kx, v.x, -v.x);
    Distribute(l.ky, v.y, -v.y);
    forall f
      ensures Get(o2, f) == Get(o, f)
    {
      if f != l.fx && f != l.fy {
        StepFrame(m, o, v, f);
        StepFrame(m, o1, Neg(v), f);
      }
    }
    SameObject(o2, o);
  }

  /** On one record: two deltas of a non-clamping law add up. */
  lemma StepAccumulate(m: Mutator, o: SceneObject, v: Vec2, w: Vec2)
    requires OnObject(m) && m != BrightnessY
    ensures Step(LawOf(m), Step(LawOf(m), o, v), w) == Step(LawOf(m), o, Plus(v, w))
  {
    var l := LawOf(m);
    var o1 := Step(l, o, v);
    var o2 := Step(l, o1, w);
    var o3 := Step(l, o, Plus(v, w));
    StepFields(m, o, v);
    StepFields(m, o1, w);
    StepFields(m, o, Plus(v, w));
    Distribute(l.kx, v.x, w.x);
    Distribute(l.ky, v.y, w.y);
    forall f
      ensures Get(o2, f) == Get(o3, f)
    {
      if f != l.fx && f != l.fy {
        StepFrame(m, o, v, f);
        StepFrame(m, o1, w, f);
        StepFrame(m, o, Plus(v, w), f);
      }
    }
    SameObject(o2, o3);
  }

  /** Every callback except the clamping brightness one is undone by the opposite drag. */
  lemma DragUndo(m: Mutator, e: Editor, v: Vec2)
    requires m != BrightnessY
    requires Apply(m, e, v).Next?
    ensures Apply(m, Apply(m, e, v).e, Neg(v)) == Next(e)
  {
    if OnObject(m) {
      LawUndo(m, e, v);
    }
  }

  /** The object callbacks' part of `DragUndo`, on the reference. */
  lemma LawUndo(m: Mutator, e: Editor, v: Vec2)
    requires OnObject(m) && m != BrightnessY
    requires ByLaw(LawOf(m), e, v).Next?
    ensures ByLaw(LawOf(m), ByLaw(LawOf(m), e, v).e, Neg(v)) == Next(e)
  {
    var l := LawOf(m);
    var t := TargetIndex(l.target, e);
    StepUndo(m, e.objs[t], v);
    assert ByLaw(l, e, v).e.objs[t := e.objs[t]] == e.objs;
  }

  /** Two successive drags of a non-clamping callback have the effect of one drag by the
      sum of their deltas. */
  lemma DragsAccumulate(m: Mutator, e: Editor, v: Vec2, w: Vec2)
    requires m != BrightnessY
    requires Apply(m, e, v).Next?
    ensures Apply(m, Apply(m, e, v).e, w) == Apply(m, e, Plus(v, w))
  {
    if OnObject(m) {
      LawAccumulate(m, e, v, w);
    }
  }

  /** The object callbacks' part of `DragsAccumulate`, on the reference. */
  lemma LawAccumulate(m: Mutator, e: Editor, v: Vec2, w: Vec2)
    requires OnObject(m) && m != BrightnessY
    requires ByLaw(LawOf(m), e, v).Next?
    ensures ByLaw(LawOf(m), ByLaw(LawOf(m), e, v).e, w) == ByLaw(LawOf(m), e, Plus(v, w))
  {
    var l := LawOf(m);
    var t := TargetIndex(l.target, e);
    StepAccumulate(m, e.objs[t], v, w);
    assert ByLaw(l, e, v).e.objs[t := Step(l, e.objs[t], Plus(v, w))]
        == e.objs[t := Step(l, e.objs[t], Plus(v, w))];
  }

  /** The brightness clamp loses information: dragging a brightness `b` down by more than
      `b` and back up by the same amount ends at that amount, not at `b`. */
  lemma BrightnessClampForgets(e: Editor, d: real)
    requires InSlots(e.toolObj)
    requires 0.0 <= e.objs[e.toolObj].brightness < d
    ensures var e1 := AdjustBrightnessY(e, Vec2(-d, 0.0)).e;
            AdjustBrightnessY(e1, Vec2(d, 0.0)).e.objs[e.toolObj].brightness == d
  {
  }

  /** `adjustBlueBrightness` does not clamp: a large enough negative delta makes the
      brightness negative. */
  lemma BlueBrightnessCanGoNegative(e: Editor, v: Vec2)
    requires InSlots(e.toolObj)
    requires v.y < -e.objs[e.toolObj].brightness
    ensures AdjustBlueBrightness(e, v).e.objs[e.toolObj].brightness < 0.0
  {
  }
}
