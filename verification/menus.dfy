/** The GLUT menu handlers of scene-start.cpp as state transitions: each maps a menu id
    and the editor state to a new selection and tool binding, a store edit, or an exit. */
module Menus {
  import opened Scene
  import Store

  /** The add-object submenu: `deactivateTool` then `addObject(id)`. */
  function ObjectMenu(e: Editor, id: int, mouse: Vec2, tex: int): (r: Outcome)
    ensures r.Overflow? <==> !InSlots(e.nObjects)
    ensures r.Next? ==>
      && r.e.drag == Idle && r.e.nObjects == e.nObjects + 1
      && r.e.objs[e.nObjects].meshId == id
      && r.e.currObject == e.nObjects && r.e.toolObj == e.nObjects && r.e.tool == MoveScaleTool
  {
    Store.AddObject(Deactivate(e), id, mouse, tex)
  }

  /** `texMenu(id)`: gives the current object texture `id`, if there is a current object. */
  function TexMenu(e: Editor, id: int): (r: Outcome)
    ensures r.Overflow? <==> e.currObject >= MaxObjects
    ensures !r.Exit?
    ensures e.currObject < 0 ==> r == Next(Deactivate(e))
    ensures r.Next? && e.currObject >= 0 ==>
      && r.e.objs[e.currObject].texId == id
      && r.e.objs[e.currObject].(texId := e.objs[e.currObject].texId) == e.objs[e.currObject]
      && r.e.(objs := e.objs) == Deactivate(e)
    ensures r.Next? ==> forall j :: 0 <= j < MaxObjects && j != e.currObject ==> r.e.objs[j] == e.objs[j]
  {
    var d := Deactivate(e);
    var c := e.currObject;
    if c >= 0 then
      if !InSlots(c) then Overflow
      else Next(d.(objs := d.objs[c := d.objs[c].(texId := id)]))
    else Next(d)
  }

  /** `groundMenu(id)`: gives the ground, object 0, texture `id`. */
  function GroundMenu(e: Editor, id: int): (r: Outcome)
    ensures r.Next?
    ensures r.e.objs[0].texId == id && r.e.objs[0].(texId := e.objs[0].texId) == e.objs[0]
    ensures forall j :: 1 <= j < MaxObjects ==> r.e.objs[j] == e.objs[j]
    ensures r.e.(objs := e.objs) == Deactivate(e)
  {
    var d := Deactivate(e);
    Next(d.(objs := d.objs[0 := d.objs[0].(texId := id)]))
  }

  /** The ids the lights submenu handles. */
  predicate IsLightItem(id: int) {
    id in {70, 71, 72, 73, 74, 80, 81, 90, 91, 92}
  }

  /** `lightMenu(id)`: points the tool at light 1, 2 or 3 (the tens digit of `id` less 6)
      and binds moving (x0), colour (x1, and 72 to 74) or rotating (92); any other id
      terminates the process with status 1. */
  function LightMenu(e: Editor, id: int): (r: Outcome)
    ensures r.Exit? <==> !IsLightItem(id)
    ensures r.Exit? ==> r.code == 1
    ensures !r.Overflow?
    ensures r.Next? ==>
      && r.e.toolObj == id / 10 - 6
      && 1 <= r.e.toolObj <= 3
      && r.e.tool == (if id == 92 then LightRotateTool
                      else if id % 10 == 0 then LightMoveTool
                      else ColourTool)
      && r.e.(toolObj := e.toolObj, tool := e.tool) == Deactivate(e)
  {
    var d := Deactivate(e);
    if id == 70 then Next(d.(toolObj := 1, tool := LightMoveTool))
    else if id >= 71 && id <= 74 then Next(d.(toolObj := 1, tool := ColourTool))
    else if id == 80 then Next(d.(toolObj := 2, tool := LightMoveTool))
    else if id == 81 then Next(d.(toolObj := 2, tool := ColourTool))
    else if id == 90 then Next(d.(toolObj := 3, tool := LightMoveTool))
    else if id == 91 then Next(d.(toolObj := 3, tool := ColourTool))
    else if id == 92 then Next(d.(toolObj := 3, tool := LightRotateTool))
    else Exit(1)
  }

  /** `materialMenu(id)`: with a current object, item 10 binds the colour tool and item 20
      the ambient/diffuse/specular/shine tool, both on the current object; an unknown id
      only reports an error. */
  function MaterialMenu(e: Editor, id: int): (r: Outcome)
    ensures r.Next?
    ensures e.currObject < 0 || (id != 10 && id != 20) ==> r.e == Deactivate(e)
    ensures e.currObject >= 0 && (id == 10 || id == 20) ==>
      && r.e.toolObj == e.currObject
      && r.e.tool == (if id == 10 then ColourTool else MaterialTool)
      && r.e.(toolObj := e.toolObj, tool := e.tool) == Deactivate(e)
  {
    var d := Deactivate(e);
    if e.currObject < 0 then Next(d)
    else if id == 10 then Next(d.(toolObj := e.currObject, tool := ColourTool))
    else if id == 20 then Next(d.(toolObj := e.currObject, tool := MaterialTool))
    else Next(d)
  }

  /** `mainmenu(id)`: 41 binds position/scale on the current object, 50 the camera tool,
      55 rotation/texture scale (aimed at `currObject` by the callbacks themselves, so
      `toolObj` is left alone), 99 exits with status 0. */
  function MainMenu(e: Editor, id: int): (r: Outcome)
    ensures r.Exit? <==> id == 99
    ensures r.Exit? ==> r.code == 0
    ensures !r.Overflow?
    ensures r.Next? ==>
      && r.e.objs == e.objs && r.e.nObjects == e.nObjects && r.e.currObject == e.currObject
      && r.e.selected == e.selected && r.e.cam == e.cam && r.e.drag == Idle
    ensures id == 41 && e.currObject >= 0 ==>
      r.Next? && r.e.toolObj == e.currObject && r.e.tool == MoveScaleTool
    ensures id == 50 ==> r.Next? && r.e.toolObj == e.toolObj && r.e.tool == CameraTool
    ensures id == 55 && e.currObject >= 0 ==>
      r.Next? && r.e.toolObj == e.toolObj && r.e.tool == AngleTool
    ensures ((id != 41 && id != 55) || e.currObject < 0) && id != 50 && id != 99 ==>
      r == Next(Deactivate(e))
  {
    var d := Deactivate(e);
    var d := if id == 41 && e.currObject >= 0 then d.(toolObj := e.currObject, tool := MoveScaleTool) else d;
    var d := if id == 50 then d.(tool := CameraTool) else d;
    var d := if id == 55 && e.currObject >= 0 then d.(tool := AngleTool) else d;
    if id == 99 then Exit(0) else Next(d)
  }

  /** No menu handler other than the store edits (add, texture, ground texture,
      duplicate, delete) changes a scene object or the object count. */
  lemma DispatchMenusKeepObjects(e: Editor, id: int)
    ensures LightMenu(e, id).Next? ==>
      LightMenu(e, id).e.objs == e.objs && LightMenu(e, id).e.nObjects == e.nObjects
    ensures MaterialMenu(e, id).e.objs == e.objs && MaterialMenu(e, id).e.nObjects == e.nObjects
    ensures Store.SelectObject(e, id).objs == e.objs
    ensures MainMenu(e, id).Next? ==> MainMenu(e, id).e.objs == e.objs
  {
  }
}
