# Scene editor state of scene-start.cpp, in Dafny

scene-start.cpp is an OpenGL/GLUT scene editor. The user adds meshes to a scene, selects them and drags them with the mouse. Almost everything it computes that is not drawing is editor state:

- a fixed array of 1024 `SceneObject` records, with the counter `nObjects` and the indices `currObject`, `toolObj` and `selected_object`;
- the pair of drag callbacks bound by the last `setToolCallbacks`;
- the camera scalars `viewDist`, `camRotSidewaysDeg` and `camRotUpAndOverDeg`.

This project models that state as an immutable `Editor` value. Every handler is a function or method from one state to an `Outcome`, which is one of three things:

- `Next(e)`, the new state;
- `Exit(code)` for `exit(code)`;
- `Overflow`, where the C code indexes `sceneObjs` outside 0..1023.

Modules:

- `Scene` (scene.dfy): the records, the whole 1024-slot array (stale slots past `nObjects` included), the tool tags, the editor state.
- `Store` (store.dfy): `addObject`, the start-up scene of `init`, `select_object`, and the duplicate and delete items of `manipulate_objs`.
- `Tools` (tools.dfy): the drag callbacks. Each object callback is written as in the source and proved equal to a table-driven reference (`ByLaw(LawOf(m), ...)`). The undo and accumulation laws are proved on that reference.
- `Menus` (menus.dfy): the object, texture, ground, light, material and main menu handlers.
- `Viewing` (viewing.dfy): mouse buttons, scroll-wheel zoom and the frustum `reshape` chooses.
- `Paging` (paging.dfy): how `createArrayMenu` splits a list of entries into submenus of ten, and the text of their labels.
- `ProgramName` (basename.dfy): the program name `main` takes from `argv[0]`.

Modelling choices:

- Float fields are `real`.
- The tool binding is the tag `Bound(left, leftSens, middle, middleSens)`: the four arguments of `setToolCallbacks`, with `camRotZ()` kept as the tag `CamRotZ`.
- `activateTool` and `deactivateTool` become `drag := Held(button)` and `drag := Idle`.
- Results of `currMouseXYworld` and `rand()` are parameters (`mouse`, `tex`, `groundTex`, `testMesh`, `testTex`).

The model follows the code in these places:

- Duplicate places the copy at the mouse position plus 0.01 on x and z, not beside the original.
- The `mat2(0.05, 0, 0, 10)` binding belongs to `adjustScaleY`: it scales the x delta into `scale` and the y delta into `loc[1]`.
- Only `adjustBrightnessY` clamps brightness at 0. `adjustBlueBrightness` does not, so a light or an object can reach a negative brightness (`Tools.BlueBrightnessCanGoNegative`).
- Scroll-up keeps shrinking a distance that is already negative (`Viewing.ZoomIn`).

## Model

| member | source | states |
|---|---|---|
| Store.AddObject | scene-start.cpp:253-280 | fails exactly when `nObjects` is outside the array. Otherwise it writes only slot `nObjects`: mouse x/z position, y 0, w 1, colour 0.7, brightness 1, angles (0,180,0), diffuse 1, specular 0.5, ambient 0.7, shine 10, texture scale 2, the given mesh and texture. Scale becomes 0.005 except for meshes 0 and 55, which keep the slot's old scale. The count grows by one, the new slot becomes current and tool object, the move/scale tool is bound, and the object-count invariants are kept |
| Store.Init | scene-start.cpp:319-349 | the start-up scene has five objects: the ground in slot 0 (scale 10, tilted 90 degrees, texture scale 5), three lights in slots 1-3 at heights 1, 2, 3 with brightness 0.4, 0.2, 0.2 and the plain texture, and a test mesh in slot 4. Every later slot is still zero. Object 4 is current and tool object, and the camera tool is bound |
| Store.SelectObject | scene-start.cpp:712-719 | ends any drag. A menu id of 200 or more selects index `id - 200` as current and tool object; a smaller id changes nothing else |
| Store.Duplicate | scene-start.cpp:729-745 | fails exactly when the selected index or `nObjects` is outside the array. The new slot `nObjects` equals the selected record in every field except x and z, which are the mouse position plus 0.01. No other slot changes. The count grows by one, the copy becomes current and tool object, and the selection is cleared |
| Store.DeleteSelected | scene-start.cpp:747-779 | with four or fewer objects nothing changes. Otherwise the shift reads slot `nObjects` and fails exactly when that lies outside the array (and the selection is live). Slots before the selected index `k` are kept, slots `k..n-2` hold their successors, and slot `n-1` gets old slot `n`. The live prefix is the old prefix with slot `k` removed. The count drops by one, and the new last object is selected, or the selection is cleared when only four objects remain |
| Store.ManipulateObjs | scene-start.cpp:722-780 | changes nothing unless the selected id is at least 204; then it ends the drag and runs duplicate (66) or delete (67). It never touches the ground and lights in slots 0-3, and it keeps at least four objects |
| Tools.AdjustCamSideViewDist | scene-start.cpp:218-222 | adds the x delta to the sideways angle and the y delta to the view distance; nothing else changes |
| Tools.AdjustCamSideUp | scene-start.cpp:224-227 | adds the deltas to the sideways and up-and-over angles; nothing else changes |
| Tools.AdjustLocXZ | scene-start.cpp:229-232 | equals the reference law adding x to `loc[0]` and y to `loc[2]` of the tool object |
| Tools.AdjustScaleY | scene-start.cpp:234-237 | equals the reference law adding x to `scale` and y to `loc[1]` of the tool object |
| Tools.AdjustBrightnessY | scene-start.cpp:531-538 | equals the clamping reference law: brightness plus x, reset to 0 when at or below 0, then y added to `loc[1]`. The resulting brightness is never negative |
| Tools.AdjustRedGreen | scene-start.cpp:540-544 | equals the reference law adding x to red and y to green of the tool object |
| Tools.AdjustBlueBrightness | scene-start.cpp:546-550 | equals the non-clamping reference law adding x to blue and y to brightness of the tool object |
| Tools.AmbientDiffuseModification | scene-start.cpp:555-558 | equals the reference law adding x to ambient and y to diffuse of the tool object |
| Tools.SpecularShineModification | scene-start.cpp:563-566 | equals the reference law adding x to specular and y to shine of the tool object |
| Tools.RotateObject | scene-start.cpp:570-574 | equals the reference law adding -20x to the Z angle and -20y to the Y angle of the tool object |
| Tools.AdjustAngleYX | scene-start.cpp:681-685 | equals the reference law on the current object, not the tool object: x to the Y angle, y to the X angle |
| Tools.AdjustAngleZTexScale | scene-start.cpp:687-691 | equals the reference law on the current object: x to the Z angle, y to the texture scale |
| Tools.LawOf | scene-start.cpp:229-237 | each callback's law names two different fields, and only a brightness field is ever clamped |
| Tools.StepFrame | scene-start.cpp:531-574 | an object callback leaves every field other than its two named fields unchanged |
| Tools.StepFields | scene-start.cpp:531-574 | an object callback adds the scaled deltas to its two fields (the first clamped at 0 for the brightness callback) and keeps mesh and texture |
| Tools.ByLawSpec | scene-start.cpp:531-574 | an object callback fails exactly when its target index is outside the array. Otherwise it changes only the target slot, and in it only the two named fields |
| Tools.Apply | scene-start.cpp:218-237 | running the callback a tag names is the reference law for object callbacks; camera callbacks change only the camera |
| Tools.StepUndo | scene-start.cpp:229-237 | on one record, a non-clamping callback is undone by the opposite delta |
| Tools.StepAccumulate | scene-start.cpp:229-237 | on one record, two deltas of a non-clamping callback add up to one |
| Tools.DragUndo | scene-start.cpp:218-237 | every callback except the clamping brightness one, camera callbacks included, is undone by dragging back by the opposite delta |
| Tools.DragsAccumulate | scene-start.cpp:218-237 | two drags of a non-clamping callback equal one drag by the summed delta |
| Tools.LawUndo | scene-start.cpp:531-574 | on an object callback's table entry: the opposite delta restores the whole editor state |
| Tools.LawAccumulate | scene-start.cpp:531-574 | on an object callback's table entry: two deltas applied in turn equal their sum applied once |
| Tools.BrightnessClampForgets | scene-start.cpp:533-536 | the clamp is lossy: dragging brightness `b` down by `d > b` and up by `d` ends at `d`, not `b` |
| Tools.BlueBrightnessCanGoNegative | scene-start.cpp:546-550 | a large enough negative delta to `adjustBlueBrightness` gives a negative brightness |
| Menus.ObjectMenu | scene-start.cpp:508-512 | ends the drag and adds an object of the chosen mesh, which becomes current and tool object; fails exactly when the array is full |
| Menus.TexMenu | scene-start.cpp:514-521 | with a current object, sets only that object's texture (failing when the index is past the array); without one it only ends the drag |
| Menus.GroundMenu | scene-start.cpp:523-528 | sets only the ground's texture and ends the drag |
| Menus.LightMenu | scene-start.cpp:577-630 | exits with status 1 exactly for ids outside {70-74, 80, 81, 90-92}. Otherwise the tool object becomes light `id/10 - 6`, in 1..3, with the move tool for x0, the rotate tool for 92 and the colour tool otherwise; nothing else changes but the drag |
| Menus.MaterialMenu | scene-start.cpp:656-678 | with a current object, id 10 binds the colour tool and id 20 the material tool on it. Any other id, or no current object, only ends the drag |
| Menus.MainMenu | scene-start.cpp:693-708 | exits with status 0 exactly for 99. Otherwise objects, count, selection and camera are kept. 41 binds move/scale on the current object, 50 binds the camera tool, 55 binds the angle tool without changing the tool object; any other id only ends the drag |
| Menus.DispatchMenusKeepObjects | scene-start.cpp:577-719 | the light, material, main and select menus never change a scene object or the object count |
| Viewing.ZoomIn | scene-start.cpp:188-190 | scroll-up lowers the distance by at least 0.05, by exactly 0.05 when it is negative, and gives a negative distance exactly when it was below 0.0625 |
| Viewing.ZoomOut | scene-start.cpp:192-194 | scroll-down raises the distance by at least 0.05, by exactly 0.05 when it is negative, and keeps a non-negative distance positive |
| Viewing.ZoomMonotone | scene-start.cpp:188-194 | both wheel steps are strictly increasing functions of the distance |
| Viewing.ZoomOutAfterIn | scene-start.cpp:188-194 | up then down restores a negative distance, gives `0.8 v` below 0.0625 and `v - 0.0125` above it |
| Viewing.ZoomInAfterOut | scene-start.cpp:188-194 | down then up restores a distance below -0.05, otherwise ends 0.01 lower (and scaled by 0.8 between -0.05 and 0) |
| Viewing.MouseClick | scene-start.cpp:171-196 | left or middle press starts a drag on that button, including shift-left; release ends it; wheel buttons 3 and 4 change only the view distance; any other button changes nothing |
| Viewing.Reshape | scene-start.cpp:889-925 | records the window size. The frustum is non-finite exactly when a dimension is 0; otherwise it is symmetric, near 0.01, far 100. The narrower dimension has half-extent 0.01, the other is widened in proportion to the aspect ratio, and a square window has both at 0.01 |
| Viewing.ReshapeSwap | scene-start.cpp:911-924 | turning the window on its side swaps the horizontal and vertical half-extents |
| Viewing.ReshapeScale | scene-start.cpp:911-924 | scaling both dimensions by the same factor gives the same frustum |
| Paging.CDiv | scene-start.cpp:634 | C division rounds toward zero: the remainder has the sign of the dividend |
| Paging.CreateArrayMenu | scene-start.cpp:632-652 | there are `(size-1)/10 + 1` submenus, in C division. Together they list `1..size` once each in order: entry `j` is in submenu `(j-1)/10` and nowhere else, and with `size >= 1` every submenu holds 1 to 10 entries. Each label names its submenu's first and last entry, and with the corrected buffer every label fits |
| Paging.CreateSubMenus | scene-start.cpp:637-642 | the first loop builds submenu `i` as the entries `10i+1..min(10i+10, size)`, for every `i` below the submenu count |
| Paging.AddEntries | scene-start.cpp:639-640 | the inner loop adds entries `lo..hi` in order, and nothing when `hi < lo` |
| Paging.LabelSubMenus | scene-start.cpp:645-650 | the second loop gives parent item `i` the label `10i+1` to `min(10i+10, size)`, for every submenu |
| Paging.MenuFacts | scene-start.cpp:634-650 | what the two loops build meets every promise listed for `CreateArrayMenu` |
| Paging.PagesIndex | scene-start.cpp:637-647 | after `k` iterations there are `k` submenus and `k` labels, and the `p`-th of each is the one iteration `p` made |
| Paging.FlattenPages | scene-start.cpp:637-640 | the first `k` submenus, read in order, list exactly the entries `1..min(10k, size)` |
| Paging.PagesCoverEntries | scene-start.cpp:634-640 | the submenus list `1..size` once each in order, every entry of submenu `i` belongs there by `(x-1)/10`, and every entry is in its submenu |
| Paging.PagesFlatten | scene-start.cpp:634-640 | read in order, all the submenus list exactly `1..size` |
| Paging.PagesPlaceEntries | scene-start.cpp:637-640 | each entry submenu `i` holds lies in `1..size` and has `(x-1)/10 == i` |
| Paging.PagesReachEntries | scene-start.cpp:634-640 | each entry `x` in `1..size` is found in submenu `(x-1)/10`, which exists |
| Paging.EntryInPlace | scene-start.cpp:637-640 | one entry of one built submenu is in range and in its own submenu |
| Paging.EntryReached | scene-start.cpp:634-640 | one entry in `1..size` is found in the built submenu `(x-1)/10` |
| Paging.PageMember | scene-start.cpp:639 | an entry that iteration `i` of the inner loop adds is in `1..size` and belongs to submenu `i` |
| Paging.EntryPage | scene-start.cpp:634-639 | entry `x` lies in the bounds the inner loop uses for submenu `(x-1)/10`, and that submenu is created |
| Paging.PagesSized | scene-start.cpp:637-640 | with `size >= 1` every submenu holds 1 to 10 entries; with `size <= 0` every submenu is empty |
| Paging.PagesLabelled | scene-start.cpp:639-647 | every label names the first and last entry of its non-empty submenu |
| Paging.LabelsFit | scene-start.cpp:645-647 | for an `int` size, every label's text fits the corrected buffer |
| Paging.CountBound | scene-start.cpp:634-639 | every submenu index starts at an existing entry |
| Paging.CountCovers | scene-start.cpp:634 | the submenus reach the last entry |
| Paging.LabelOverflowAsWritten | scene-start.cpp:646-647 | as written, a list of 100 or more entries gives label "91-100", which with its NUL does not fit `num[6]` |
| Paging.LabelFits | scene-start.cpp:646-647 | every label of an `int`-sized list fits a 24-byte buffer |
| ProgramName.Basename | scene-start.cpp:962-964 | the result is the suffix of `argv[0]` after its last `/` or `\`, or the whole string when there is none |
| ProgramName.ProgramNameOf | scene-start.cpp:962-964 | the loop of `main` computes exactly that suffix |
| ProgramName.BasenameStep | scene-start.cpp:963-964 | one more character of `argv[0]` either restarts the name (a separator) or is appended to it |
| ProgramName.BasenameUnique | scene-start.cpp:962-964 | that suffix is unique: any separator-free suffix preceded by a separator (or the whole string) is the name |
| ProgramName.BasenameIdempotent | scene-start.cpp:962-964 | the name of a name is itself |
| ProgramName.BasenameAfterSep | scene-start.cpp:962-964 | directories before a separator do not change the name |

## Findings

| source | as written | input that shows it | evidently intended | confidence | as-written member | corrected member |
|---|---|---|---|---|---|---|
| scene-start.cpp:646-647 | `sprintf(num, "%d-%d", ...)` into `char num[6]` | `createArrayMenu` with `size >= 100`: the tenth label is "91-100", 7 bytes with its NUL | a label buffer big enough for every label | not executed; latent, since whether any menu reaches 100 entries depends on `numMeshes`/`numTextures` in gnatidread.h, which is not part of this model | Paging.LabelOverflowAsWritten | Paging.LabelFits |

## Left out

- All OpenGL and GLUT calls: mesh and texture loading, `drawMesh`, `display`, menu construction in `makeMenu`, `glutPostRedisplay`, and the GLUT menu ids `createArrayMenu` returns.
- The matrix code of Angel.h: `camRotZ()` is kept as an opaque tag, and the view and model matrices in `display` are not modelled.
- gnatidread.h is not part of this model. This covers `setToolCallbacks`, `activateTool`, `deactivateTool`, `doToolUpdateXY` and `currMouseXYworld`; the bound callbacks are recorded as a tag, and the mouse world position is a parameter.
- How a mouse motion is turned into a callback delta, including the sensitivity matrices applied to it, happens in gnatidread.h. The callbacks here take the delta already scaled.
- `rand()`: the random mesh and texture ids are parameters. `numMeshes` and `numTextures` are not part of this model, so those parameters are not range-checked.
- The `cout` in `adjustCamrotsideViewdist`, the `printf` in `materialMenu` and `lightMenu`, the window-title `timer`, the `idle` callback, `keyboard`, `menu_status` and `up_func`: they are output or event plumbing with no effect on the state modelled.
- The data-directory probing with `opendir` in `main`: filesystem I/O.
- Float rounding: every float is a `real`, so the model ignores rounding. The 0.0625 threshold of `Viewing.ZoomIn` holds exactly only in the reals.
- The entry names `menuEntries[j-1]` that `createArrayMenu` shows: a submenu is modelled as the entry numbers it returns to the handler, which is all the handlers see.
- Paging.CreateArrayMenu: treats `i*10+10` as an unbounded integer; in C it would overflow only for a size within 9 of `INT_MAX`.
- Store.ManipulateObjs: states delete's effect only through the count; the full effect is stated once, by Store.DeleteSelected.
