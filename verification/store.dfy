/** The scene-object store of scene-start.cpp: `addObject`, the start-up scene built by
    `init`, `select_object`, and the duplicate and delete items of `manipulate_objs`. */
module Store {
  import opened Scene

  /** The record `addObject(id)` leaves in a slot whose previous contents are `prev`:
      every field is written except `scale`, which is only written when `id` is neither
      0 (the ground square) nor 55 (the light sphere). */
  function Placed(prev: SceneObject, id: int, mouse: Vec2, tex: int): SceneObject {
    SceneObject(Vec4(mouse.x, 0.0, mouse.y, 1.0),
                if id != 0 && id != 55 then 0.005 else prev.scale,
                Vec3(0.0, 180.0, 0.0), 1.0, 0.5, 0.7, 10.0,
                Rgb(0.7, 0.7, 0.7), 1.0, id, tex, 2.0)
  }

  /** `addObject(id)`. `mouse` stands for `currMouseXYworld(camRotSidewaysDeg)` (its x is
      the world x, its y the world z) and `tex` for `rand() % numTextures`. */
  function AddObject(e: Editor, id: int, mouse: Vec2, tex: int): (r: Outcome)
    ensures r.Overflow? <==> !InSlots(e.nObjects)
    ensures !r.Exit?
    ensures r.Next? ==> forall j :: 0 <= j < MaxObjects && j != e.nObjects ==> r.e.objs[j] == e.objs[j]
    ensures r.Next? ==>
      && r.e.nObjects == e.nObjects + 1
      && r.e.currObject == e.nObjects && r.e.toolObj == e.nObjects
      && r.e.tool == MoveScaleTool
      && r.e.selected == e.selected && r.e.drag == e.drag && r.e.cam == e.cam
    ensures r.Next? ==>
      var o := r.e.objs[e.nObjects];
      && o.loc == Vec4(mouse.x, 0.0, mouse.y, 1.0)
      && o.rgb == Rgb(0.7, 0.7, 0.7) && o.brightness == 1.0
      && o.diffuse == 1.0 && o.specular == 0.5 && o.ambient == 0.7 && o.shine == 10.0
      && o.angles == Vec3(0.0, 180.0, 0.0)
      && o.meshId == id && o.texId == tex && o.texScale == 2.0
      && (id != 0 && id != 55 ==> o.scale == 0.005)
      && (id == 0 || id == 55 ==> o.scale == e.objs[e.nObjects].scale)
    ensures Wf(e) && r.Next? ==> Wf(r.e)
    ensures Ready(e) && r.Next? ==> Ready(r.e)
  {
    var n := e.nObjects;
    if !InSlots(n) then Overflow
    else
      Next(e.(objs := e.objs[n := Placed(e.objs[n], id, mouse, tex)],
              nObjects := n + 1, currObject := n, toolObj := n, tool := MoveScaleTool))
  }

  /** `init`'s scene: the ground (slot 0), three light spheres (slots 1 to 3) and one test
      mesh (slot 4), then the camera tool. The mouse does not move while `init` runs, so
      every `addObject` sees the same `mouse`; `groundTex`, `testMesh` and `testTex` stand
      for the `rand()` results that survive (the lights' random textures are overwritten). */
  function Init(groundTex: int, testMesh: int, testTex: int, mouse: Vec2): (r: Editor)
    ensures Ready(r) && r.nObjects == 5
    ensures r.objs[0].meshId == 0 && r.objs[0].loc == Vec4(0.0, 0.0, 0.0, 1.0)
    ensures r.objs[0].scale == 10.0 && r.objs[0].angles.x == 90.0 && r.objs[0].texScale == 5.0
    ensures r.objs[0].texId == groundTex
    ensures forall i :: 1 <= i <= 3 ==>
      r.objs[i].meshId == 55 && r.objs[i].scale == 0.1 && r.objs[i].texId == 0
      && r.objs[i].loc == Vec4(2.0, i as real, 1.0, 1.0)
    ensures r.objs[1].brightness == 0.4 && r.objs[2].brightness == 0.2 && r.objs[3].brightness == 0.2
    ensures r.objs[4].meshId == testMesh && r.objs[4].texId == testTex
    ensures r.objs[4].loc == Vec4(mouse.x, 0.0, mouse.y, 1.0)
    ensures testMesh != 0 && testMesh != 55 ==> r.objs[4].scale == 0.005
    ensures testMesh == 0 || testMesh == 55 ==> r.objs[4].scale == 0.0
    ensures forall j :: 5 <= j < MaxObjects ==> r.objs[j] == Blank
    ensures r.currObject == 4 && r.toolObj == 4 && r.selected == 0
    ensures r.tool == CameraTool && r.drag == Idle && r.cam == Start.cam
  {
    var s0 := AddObject(Start, 0, mouse, groundTex).e;
    var g := s0.objs[0];
    var s1 := s0.(objs := s0.objs[0 := g.(loc := Vec4(0.0, 0.0, 0.0, 1.0), scale := 10.0,
                                          angles := g.angles.(x := 90.0), texScale := 5.0)]);
    var s2 := AddObject(s1, 55, mouse, 0).e;
    var l1 := s2.objs[1];
    var s3 := s2.(objs := s2.objs[1 := l1.(loc := Vec4(2.0, 1.0, 1.0, 1.0), scale := 0.1,
                                           texId := 0, brightness := 0.4)]);
    var s4 := AddObject(s3, 55, mouse, 0).e;
    var l2 := s4.objs[2];
    var s5 := s4.(objs := s4.objs[2 := l2.(loc := Vec4(2.0, 2.0, 1.0, 1.0), scale := 0.1,
                                           texId := 0, brightness := 0.2)]);
    var s6 := AddObject(s5, 55, mouse, 0).e;
    var l3 := s6.objs[3];
    var s7 := s6.(objs := s6.objs[3 := l3.(loc := Vec4(2.0, 3.0, 1.0, 1.0), scale := 0.1,
                                           texId := 0, brightness := 0.2)]);
    var s8 := AddObject(s7, testMesh, mouse, testTex).e;
    s8.(tool := CameraTool)
  }

  /** `select_object(id)`: menu ids from 200 up select the object at index `id - 200`. */
  function SelectObject(e: Editor, id: int): (r: Editor)
    ensures r.drag == Idle
    ensures id >= 200 ==> r.selected == id && r.currObject == id - 200 && r.toolObj == id - 200
    ensures id < 200 ==> r == Deactivate(e)
    ensures r.objs == e.objs && r.nObjects == e.nObjects && r.tool == e.tool && r.cam == e.cam
  {
    var d := Deactivate(e);
    if id >= 200 then d.(selected := id, currObject := id - 200, toolObj := id - 200) else d
  }

  /** Menu item 66 of `manipulate_objs` (after the guard and `deactivateTool`): copies the
      selected record into slot `nObjects`, placing the copy at the mouse position plus
      0.01 on x and z, and makes it the current and tool object. */
  function Duplicate(e: Editor, mouse: Vec2): (r: Outcome)
    ensures r.Overflow? <==> !InSlots(e.selected - 200) || !InSlots(e.nObjects)
    ensures !r.Exit?
    ensures r.Next? ==> forall f :: f != LocX && f != LocZ ==>
      Get(r.e.objs[e.nObjects], f) == Get(e.objs[e.selected - 200], f)
    ensures r.Next? ==>
      && r.e.objs[e.nObjects].meshId == e.objs[e.selected - 200].meshId
      && r.e.objs[e.nObjects].texId == e.objs[e.selected - 200].texId
      && r.e.objs[e.nObjects].loc.x == mouse.x + 0.01
      && r.e.objs[e.nObjects].loc.z == mouse.y + 0.01
    ensures r.Next? ==> forall j :: 0 <= j < MaxObjects && j != e.nObjects ==> r.e.objs[j] == e.objs[j]
    ensures r.Next? ==>
      && r.e.nObjects == e.nObjects + 1
      && r.e.currObject == e.nObjects && r.e.toolObj == e.nObjects && r.e.selected == 0
      && r.e.tool == MoveScaleTool && r.e.drag == e.drag && r.e.cam == e.cam
  {
    var k := e.selected - 200;
    var n := e.nObjects;
    if !InSlots(k) || !InSlots(n) then Overflow
    else
      var src := e.objs[k];
      Next(e.(objs := e.objs[n := src.(loc := src.loc.(x := mouse.x + 0.01, z := mouse.y + 0.01))],
              nObjects := n + 1, currObject := n, toolObj := n, tool := MoveScaleTool, selected := 0))
  }

  /** Menu item 67 of `manipulate_objs` (after the guard and `deactivateTool`): with more
      than four objects, shifts the records after the selected index `k` down one slot,
      reading up to slot `nObjects`, drops the count by one and selects the new last
      object (or nothing once only the four reserved objects remain). */
  method DeleteSelected(e: Editor) returns (r: Outcome)
    requires e.selected >= 204
    ensures !r.Exit?
    ensures e.nObjects <= 4 ==> r == Next(e)
    ensures e.nObjects > 4 ==>
      (r.Overflow? <==> e.selected - 200 < e.nObjects && e.nObjects >= MaxObjects)
    ensures r.Next? && e.nObjects > 4 ==>
      var n := e.nObjects;
      var k := e.selected - 200;
      var s := r.e.objs;
      && r.e.nObjects == n - 1
      && (forall j :: 0 <= j < k && j < MaxObjects ==> s[j] == e.objs[j])
      && (forall j :: k <= j < n - 1 ==> s[j] == e.objs[j + 1])
      && (k < n ==> s[n - 1] == e.objs[n])
      && (forall j :: n <= j < MaxObjects ==> s[j] == e.objs[j])
      && (k >= n ==> s == e.objs)
      && (k < n ==> s[..n - 1] == e.objs[..k] + e.objs[k + 1..n])
      && r.e.tool == CameraTool && r.e.cam == e.cam
      && (n - 1 > 4 ==> r.e.selected == n + 198 && r.e.currObject == n - 2 && r.e.toolObj == n - 2
                        && r.e.drag == Idle)
      && (n - 1 <= 4 ==> r.e.selected == 0 && r.e.currObject == -1 && r.e.toolObj == -1
                         && r.e.drag == e.drag)
  {
    var n := e.nObjects;
    if n <= 4 {
      return Next(e);
    }
    var k := e.selected - 200;
    var objs: Slots := e.objs;
    if k != n - 1 {
      var i := 0;
      while i < (n - 1) - k + 1
        invariant 0 <= i && (i == 0 || i <= n - k)
        invariant i > 0 ==> k + i < MaxObjects
        invariant forall j :: 0 <= j < MaxObjects && !(k <= j < k + i) ==> objs[j] == e.objs[j]
        invariant forall j :: k <= j < k + i ==> objs[j] == e.objs[j + 1]
      {
        if k + 1 + i >= MaxObjects {
          return Overflow;
        }
        objs := objs[k + i := objs[k + 1 + i]];
        i := i + 1;
      }
    } else {
      if k + 1 >= MaxObjects {
        return Overflow;
      }
      objs := objs[k := objs[k + 1]];
    }
    if k < n {
      assert objs[..n - 1] == e.objs[..k] + e.objs[k + 1..n];
    } else {
      assert objs == e.objs;
    }
    var d := e.(objs := objs, nObjects := n - 1);
    if n - 1 > 4 {
      d := SelectObject(d, n - 1 - 1 + 200);
    } else {
      d := d.(currObject := -1, toolObj := -1, selected := 0);
    }
    r := Next(d.(tool := CameraTool));
  }

  /** `manipulate_objs(id)`: nothing at all happens unless an object of index 4 or more
      is selected; otherwise the tool is deactivated and item 66 duplicates, item 67
      deletes. */
  method ManipulateObjs(e: Editor, id: int, mouse: Vec2) returns (r: Outcome)
    ensures !r.Exit?
    ensures e.selected < 204 ==> r == Next(e)
    ensures e.selected >= 204 && id == 66 ==> r == Duplicate(Deactivate(e), mouse)
    ensures e.selected >= 204 && id != 66 && id != 67 ==> r == Next(Deactivate(e))
    ensures e.selected >= 204 && id == 67 && e.nObjects <= 4 ==> r == Next(Deactivate(e))
    ensures e.selected >= 204 && id == 67 && e.nObjects > 4 && r.Next? ==>
      r.e.nObjects == e.nObjects - 1
    ensures Ready(e) && r.Next? ==> Ready(r.e)
    ensures Ready(e) && r.Next? ==> forall j :: 0 <= j < 4 ==> r.e.objs[j] == e.objs[j]
  {
    if e.selected == 0 || e.selected < 204 {
      return Next(e);
    }
    var d := Deactivate(e);
    if id == 66 {
      r := Duplicate(d, mouse);
    } else if id == 67 {
      r := DeleteSelected(d);
    } else {
      r := Next(d);
    }
  }
}
