/** The editor state of scene-start.cpp: the fixed array of scene objects, the object
    counter and selection indices, the camera scalars and the abstract tool binding.
    Float fields are modelled as `real`. */
module Scene {

  /** Capacity of `sceneObjs`. */
  const MaxObjects: int := 1024

  datatype Vec2 = Vec2(x: real, y: real)
  datatype Vec3 = Vec3(x: real, y: real, z: real)
  datatype Vec4 = Vec4(x: real, y: real, z: real, w: real)
  datatype Rgb = Rgb(r: real, g: real, b: real)

  /** One placed mesh instance (the `SceneObject` record). */
  datatype SceneObject = SceneObject(
    loc: Vec4,
    scale: real,
    angles: Vec3,          // rotations about the X, Y and Z axes, in degrees
    diffuse: real,
    specular: real,
    ambient: real,
    shine: real,
    rgb: Rgb,
    brightness: real,      // multiplies all colours
    meshId: int,
    texId: int,
    texScale: real)

  /** A slot of the zero-initialised static array that nothing has written yet. */
  const Blank: SceneObject :=
    SceneObject(Vec4(0.0, 0.0, 0.0, 0.0), 0.0, Vec3(0.0, 0.0, 0.0), 0.0, 0.0, 0.0, 0.0,
                Rgb(0.0, 0.0, 0.0), 0.0, 0, 0, 0.0)

  /** The whole array, live prefix and stale tail alike. */
  type Slots = s: seq<SceneObject> | |s| == MaxObjects witness BlankSlots()

  /** The array as the program starts: every slot zero. */
  function BlankSlots(): (s: seq<SceneObject>)
    ensures |s| == MaxObjects && forall i :: 0 <= i < MaxObjects ==> s[i] == Blank
  {
    seq(MaxObjects, _ => Blank)
  }

  predicate InSlots(i: int) {
    0 <= i < MaxObjects
  }

  /** The real-valued fields of a record, so that "every other field is unchanged" can be
      said once. */
  datatype Field =
    | LocX | LocY | LocZ | LocW | Scale | AngleX | AngleY | AngleZ
    | Diffuse | Specular | Ambient | Shine | Red | Green | Blue | Brightness | TexScale

  function Get(o: SceneObject, f: Field): real {
    match f
    case LocX => o.loc.x
    case LocY => o.loc.y
    case LocZ => o.loc.z
    case LocW => o.loc.w
    case Scale => o.scale
    case AngleX => o.angles.x
    case AngleY => o.angles.y
    case AngleZ => o.angles.z
    case Diffuse => o.diffuse
    case Specular => o.specular
    case Ambient => o.ambient
    case Shine => o.shine
    case Red => o.rgb.r
    case Green => o.rgb.g
    case Blue => o.rgb.b
    case Brightness => o.brightness
    case TexScale => o.texScale
  }

  /** `o` with `d` added to field `f` (the `+=` of every drag callback). */
  function Bump(o: SceneObject, f: Field, d: real): (r: SceneObject)
    ensures Get(r, f) == Get(o, f) + d
    ensures r.meshId == o.meshId && r.texId == o.texId
  {
    match f
    case LocX => o.(loc := o.loc.(x := o.loc.x + d))
    case LocY => o.(loc := o.loc.(y := o.loc.y + d))
    case LocZ => o.(loc := o.loc.(z := o.loc.z + d))
    case LocW => o.(loc := o.loc.(w := o.loc.w + d))
    case Scale => o.(scale := o.scale + d)
    case AngleX => o.(angles := o.angles.(x := o.angles.x + d))
    case AngleY => o.(angles := o.angles.(y := o.angles.y + d))
    case AngleZ => o.(angles := o.angles.(z := o.angles.z + d))
    case Diffuse => o.(diffuse := o.diffuse + d)
    case Specular => o.(specular := o.specular + d)
    case Ambient => o.(ambient := o.ambient + d)
    case Shine => o.(shine := o.shine + d)
    case Red => o.(rgb := o.rgb.(r := o.rgb.r + d))
    case Green => o.(rgb := o.rgb.(g := o.rgb.g + d))
    case Blue => o.(rgb := o.rgb.(b := o.rgb.b + d))
    case Brightness => o.(brightness := o.brightness + d)
    case TexScale => o.(texScale := o.texScale + d)
  }

  /** Bumping one field leaves every other field as it was. */
  lemma BumpOther(o: SceneObject, f: Field, d: real, g: Field)
    requires g != f
    ensures Get(Bump(o, f, d), g) == Get(o, g)
  {
    match g
    case LocX => case LocY => case LocZ => case LocW => case Scale =>
    case AngleX => case AngleY => case AngleZ => case Diffuse => case Specular =>
    case Ambient => case Shine => case Red => case Green => case Blue =>
    case Brightness => case TexScale =>
  }

  /** Two records agreeing on every field are the same record. */
  lemma SameObject(o: SceneObject, p: SceneObject)
    requires forall f :: Get(o, f) == Get(p, f)
    requires o.meshId == p.meshId && o.texId == p.texId
    ensures o == p
  {
    assert o.loc == p.loc by {
      assert Get(o, LocX) == Get(p, LocX) && Get(o, LocY) == Get(p, LocY);
      assert Get(o, LocZ) == Get(p, LocZ) && Get(o, LocW) == Get(p, LocW);
    }
    assert o.angles == p.angles by {
      assert Get(o, AngleX) == Get(p, AngleX) && Get(o, AngleY) == Get(p, AngleY);
      assert Get(o, AngleZ) == Get(p, AngleZ);
    }
    assert o.rgb == p.rgb by {
      assert Get(o, Red) == Get(p, Red) && Get(o, Green) == Get(p, Green);
      assert Get(o, Blue) == Get(p, Blue);
    }
    assert Get(o, Scale) == Get(p, Scale) && Get(o, TexScale) == Get(p, TexScale);
    assert Get(o, Diffuse) == Get(p, Diffuse) && Get(o, Specular) == Get(p, Specular);
    assert Get(o, Ambient) == Get(p, Ambient) && Get(o, Shine) == Get(p, Shine);
    assert Get(o, Brightness) == Get(p, Brightness);
  }

  /** `viewDist`, `camRotSidewaysDeg` and `camRotUpAndOverDeg`. */
  datatype Camera = Camera(viewDist: real, sideDeg: real, upDeg: real)

  /** The drag callbacks that `setToolCallbacks` can be handed. */
  datatype Mutator =
    | CamSideViewDist    // adjustCamrotsideViewdist
    | CamSideUp          // adjustcamSideUp
    | LocXZ              // adjustLocXZ
    | ScaleY             // adjustScaleY
    | BrightnessY        // adjustBrightnessY
    | RedGreen           // adjustRedGreen
    | BlueBrightness     // adjustBlueBrightness
    | AmbientDiffuse     // AmbientDiffuseModification
    | SpecularShine      // SpecularShineModification
    | RotateObj          // RotateObj
    | AngleYX            // adjustAngleYX
    | AngleZTexScale     // adjustAngleZTexscale

  /** A 2x2 sensitivity matrix: a diagonal `mat2(sx, 0, 0, sy)`, or `camRotZ()`, whose
      entries depend on the sideways camera angle through a rotation. */
  datatype Sens = Diag(sx: real, sy: real) | CamRotZ

  /** The arguments of the last `setToolCallbacks`: the callback and matrix for the left
      button, then those for the middle button. */
  datatype Tool = Unset | Bound(left: Mutator, leftSens: Sens, middle: Mutator, middleSens: Sens)

  /** Whether a tool drag is in progress (`activateTool` / `deactivateTool`). */
  datatype Drag = Idle | Held(button: int)

  const CameraTool: Tool := Bound(CamSideViewDist, Diag(400.0, -2.0), CamSideUp, Diag(400.0, -90.0))
  const MoveScaleTool: Tool := Bound(LocXZ, CamRotZ, ScaleY, Diag(0.05, 10.0))
  const LightMoveTool: Tool := Bound(LocXZ, CamRotZ, BrightnessY, Diag(1.0, 10.0))
  const ColourTool: Tool := Bound(RedGreen, Diag(1.0, 1.0), BlueBrightness, Diag(1.0, 1.0))
  const LightRotateTool: Tool := Bound(RotateObj, CamRotZ, BrightnessY, Diag(1.0, 10.0))
  const MaterialTool: Tool := Bound(AmbientDiffuse, Diag(2.0, 10.0), SpecularShine, Diag(2.0, 10.0))
  const AngleTool: Tool := Bound(AngleYX, Diag(400.0, -400.0), AngleZTexScale, Diag(400.0, 15.0))

  /** Every global the editor handlers read or write. */
  datatype Editor = Editor(
    objs: Slots,
    nObjects: int,
    currObject: int,
    toolObj: int,
    selected: int,       // selected_object: a select-menu id (index + 200), or 0 for none
    tool: Tool,
    drag: Drag,
    cam: Camera)

  /** What a handler does: continue with a new state, terminate the process with a code,
      or index `sceneObjs` outside 0..1023 (undefined behaviour in the source). */
  datatype Outcome = Next(e: Editor) | Exit(code: int) | Overflow

  /** The globals at program start, before `init` runs. */
  const Start: Editor :=
    Editor(BlankSlots(), 0, -1, -1, 0, Unset, Idle, Camera(1.5, 0.0, 20.0))

  /** The object counter stays within the array. */
  predicate Wf(e: Editor) {
    0 <= e.nObjects <= MaxObjects
  }

  /** After `init`: the ground and the three lights are always present. */
  predicate Ready(e: Editor) {
    4 <= e.nObjects <= MaxObjects
  }

  /** `deactivateTool()`. */
  function Deactivate(e: Editor): (r: Editor)
    ensures r.drag == Idle && r.(drag := e.drag) == e
  {
    e.(drag := Idle)
  }
}
