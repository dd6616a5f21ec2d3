# 3DViewer core, modelled in Dafny

3DViewer is a Qt/OpenGL desktop viewer for Wavefront OBJ meshes. Loading and
triangulation are delegated to CGAL and drawing to OpenGL; the logic of its
own is small and stateful, and that is what this project models:

- **Scene objects** (`SceneObject.dfy`, module `SceneObjects`): the record of
  one loaded mesh. Ids come from a global counter that wraps like a C++
  `unsigned int`. The bounding-box extents are computed once at construction
  by a min/max loop seeded with ±`FLT_MAX` and scaled by 100. The centre is
  the mean of the vertex positions. `makeObject` flattens a face-list mesh
  into one vertex sequence. The buffers-initialised and visibility flags are
  the only fields that change after construction; everything else is `const`.
  `getID` is the `const id` field itself.
- **Scene** (`Scene.dfy`, module `Scenes`): the ordered object list and the
  current selection. It supports append-and-select, lookup by id, removal of
  the selection (found by pointer identity, first occurrence), selection from
  a list item, and visibility of the selection. Every operation preserves
  the invariant "the selection is null or in the list", although none of
  them requires it.
- **Camera** (`Camera.dfy`, module `Cameras`): position, Euler angles and
  zoom. Movement is a fixed step of speed × 0.05 that ignores the frame time.
  Pitch is clamped to [−89, 89] and zoom to [1, 120]. Reset restores the
  canonical pose. The trigonometry of `updateCameraVectors` is the function
  `orient` that the camera is built with. The invariant `Valid()` states that
  front, right and up are always `orient(yaw, pitch)`.
- **Input handling** (`Renderer.dfy`, module `Renderers`): the widget's event
  handlers. They keep the last pointer position and the "first move after a
  release" flag, compute drag offsets with y inverted, and map keys to camera
  actions, including Escape falling through into the W case. They also keep
  the per-frame `deltaTime`/`lastFrame` bookkeeping.

Shared value types (`Vec3`, `Vec2`, `Point`, `Option`, `Axis`) are in
`Geometry.dfy`.

Floats are modelled as reals and the C++ `unsigned int` as the newtype `u32`.
The clock is a parameter: `PaintGL` takes the timer reading in milliseconds.
The mouse buttons and the screen position of a move event are parameters of
`MouseMoveEvent`. The widget size is a parameter of `InitializeGL`.

Where the headers and the `.cpp` files disagree, the model follows the `.cpp`:
- `Scene.h` has no `m_currentSelection`.
- `Camera.h` uses `m_` names and declares `reset(float)`.
- `SceneObject.h` declares an empty `Vertex` and a constructor from
  (vertices, normals, textures) that `SceneObject.cpp` does not define.

`MakeObject` therefore returns the three buffers that constructor would
receive. `SceneObject.constructor` models the constructor of
`SceneObject.cpp`. The camera's start position (0, 0, 20) is the default
argument in `Camera.h`, which the `.cpp` does not contradict.

Four facts about the code that the model keeps as they are:
- `Camera::reset()` takes no target size; it always restores the same pose
  and does not frame the object.
- `mouseMoveEvent` handles only moves with the left button held, and such a
  move turns the camera. Nothing rotates or pans the object.
- `mousePressEvent` is empty. The drag origin is seeded on the first
  left-button move after a release. Before any release the origin is the
  last position set by `initializeGL`, the widget centre.
- `makeObject` yields the sum of the face degrees as its vertex count. This
  equals three times the face count only for a triangulated mesh
  (`TriangulatedLength`).

That widget centre is in widget coordinates (`QPoint(width()/2.0f, …)`,
3DViewer/Renderer/src/OpenGLRenderer.cpp:18). Moves are measured in screen
coordinates (`globalX()`/`globalY()`, lines 164-171). So the first drag
before any release turns the camera by the distance on screen between the
pointer and the widget-centre point taken as a screen position. That can be
a large jump. The model copies this behaviour: `InitializeGL` stores the
centre and `MouseMoveEvent` subtracts it from the global position.

## Model

| member | source | states |
|---|---|---|
| SceneObjects.NextId | 3DViewer/Scene/src/SceneObject.cpp:12 | `++m_idCounter` on an unsigned int: the next id is (counter + 1) mod 2^32 |
| SceneObjects.IdCounter.constructor | 3DViewer/Scene/src/SceneObject.cpp:4 | the counter starts at 0 |
| SceneObjects.IssuedIdsCount | 3DViewer/Scene/src/SceneObject.cpp:4-12 | while the counter does not wrap, the k-th construction after counter value c receives id c + k + 1 |
| SceneObjects.IssuedIdsIncrease | 3DViewer/Scene/src/SceneObject.cpp:4-12 | from the initial counter 0, ids are 1, 2, 3, … and strictly increasing, hence pairwise distinct, for fewer than 2^32 objects |
| SceneObjects.SceneObject.constructor | 3DViewer/Scene/src/SceneObject.cpp:6-15 | stores filepath, name, vertices and the three counts unchanged; takes the next counter value as id; buffers not initialised and active; length/width/height are (max − min) × 100 on x/y/z, and non-negative for a non-empty vertex list |
| SceneObjects.MinCoord | 3DViewer/Scene/src/SceneObject.cpp:45-55 | the running minimum never exceeds FLT_MAX, is below every processed vertex coordinate, and is either FLT_MAX or attained by one of them |
| SceneObjects.MaxCoord | 3DViewer/Scene/src/SceneObject.cpp:46-55 | the running maximum is at least −FLT_MAX, above every processed vertex coordinate, and either −FLT_MAX or attained by one of them |
| SceneObjects.Bounds | 3DViewer/Scene/src/SceneObject.cpp:43-55 | the min/max loop ends with the per-axis minimum and maximum over all vertices (loop invariant over the processed prefix) |
| SceneObjects.BoundsAttained | 3DViewer/Scene/src/SceneObject.cpp:45-58 | for a non-empty list of float vertices both bounds are attained by some vertex and min ≤ max, so every dimension is ≥ 0 |
| SceneObjects.CentroidWithinBounds | 3DViewer/Scene/src/SceneObject.cpp:33-41 | the mean of the vertex positions lies between the bounding-box minimum and maximum on every axis |
| SceneObjects.SumAtLeast | 3DViewer/Scene/src/SceneObject.cpp:36-38 | the accumulated sum of n coordinates each ≥ lo is ≥ n × lo |
| SceneObjects.SumAtMost | 3DViewer/Scene/src/SceneObject.cpp:36-38 | the accumulated sum of n coordinates each ≤ hi is ≤ n × hi |
| SceneObjects.SceneObject.GetObjectCenter | 3DViewer/Scene/src/SceneObject.cpp:33-41 | for a non-empty vertex list, returns the sum of the positions divided by their number, which lies inside the bounding box |
| SceneObjects.SceneObject.SetBuffersInited | 3DViewer/Scene/include/SceneObject.h:34-35 | afterwards `IsBuffersInited()` returns the value set; only that field may change |
| SceneObjects.SceneObject.SetVisible | 3DViewer/Scene/src/Scene.cpp:58 | the object's active flag becomes "state is not unchecked (0)"; nothing else changes |
| SceneObjects.MakeObject | 3DViewer/Scene/include/SceneObject.h:52-83 | a null mesh gives an empty result; otherwise the vertices are the faces' points concatenated face by face, in order, and normals and textures are empty |
| SceneObjects.Flatten | 3DViewer/Scene/include/SceneObject.h:63-70 | every point of every face appears in the flattened vertex sequence, and every vertex of it comes from some face |
| SceneObjects.FlattenAppend | 3DViewer/Scene/include/SceneObject.h:63-70 | flattening the faces of two face lists one after the other gives the concatenation of the two flattenings |
| SceneObjects.FlattenLength | 3DViewer/Scene/include/SceneObject.h:63-70 | the produced vertex count equals the sum of the face degrees |
| SceneObjects.TriangulatedLength | 3DViewer/Scene/include/SceneObject.h:63-70 | for a fully triangulated mesh the vertex count is 3 × the face count |
| Scenes.FirstWithId | 3DViewer/Scene/src/Scene.cpp:28-36 | the position found holds an object with the id and no earlier object has it; none is found exactly when no object has the id |
| Scenes.ObjectWithId | 3DViewer/Scene/src/Scene.cpp:28-36 | the result, when not null, is an object of the list with the id and no earlier object has that id; it is null exactly when no object has the id |
| Scenes.FirstIndexOf | 3DViewer/Scene/src/Scene.cpp:45 | `std::find` by pointer: the position found holds the object and no earlier entry is it; none is found exactly when it is absent |
| Scenes.RemoveFirst | 3DViewer/Scene/src/Scene.cpp:45-47 | erasing a present object shortens the list by one, loses no other object and adds none; an absent object leaves the list unchanged |
| Scenes.RemoveFirstSpec | 3DViewer/Scene/src/Scene.cpp:45-47 | erasing a present object removes exactly its first occurrence: one element fewer, the multiset minus one copy, prefix and suffix kept in order; an absent object leaves the list unchanged |
| Scenes.Scene.constructor | 3DViewer/Scene/src/Scene.cpp:9-11 | a new scene has an empty list and no selection |
| Scenes.Scene.AddObjectOnScene | 3DViewer/Scene/src/Scene.cpp:3-7 | the list becomes the old list plus the object at the end, and the object is selected |
| Scenes.Scene.GetObjectByID | 3DViewer/Scene/src/Scene.cpp:28-36 | returns the first object of the list with the id, or null exactly when none has it; the scene is not modified |
| Scenes.Scene.HandleSceneItemChanged | 3DViewer/Scene/src/Scene.cpp:20-26 | a null item keeps the selection; otherwise the selection becomes the object with the item's id, null if absent; the list is not modified |
| Scenes.Scene.RemoveCurrentObjSelection | 3DViewer/Scene/src/Scene.cpp:38-50 | no selection: nothing changes; selection in the list: its first occurrence is erased and the selection cleared; selection not in the list: list and selection unchanged |
| Scenes.Scene.SetCurrentObjVisibility | 3DViewer/Scene/src/Scene.cpp:52-59 | no-op without a selection; otherwise only the selected object's visibility changes |
| Cameras.ClampPitch | 3DViewer/Renderer/src/Camera.cpp:40 | `qBound(-89, p, 89)` is in [−89, 89], is p when p is in range, and is the point of the range nearest to p |
| Cameras.ScrollZoom | 3DViewer/Renderer/src/Camera.cpp:54-61 | the zoom afterwards is in [1, 120] for any prior zoom and amount. From an in-range zoom it becomes zoom − 0.05 × amount when that stays in range, and the bound it overshoots (1 or 120) otherwise; a positive amount never widens it and a negative one never narrows it. An out-of-range zoom is only clamped |
| Cameras.MoveThenOpposite | 3DViewer/Renderer/src/Camera.cpp:20-30 | FORWARD then BACKWARD, BACKWARD then FORWARD, LEFT then RIGHT, or RIGHT then LEFT restores the position exactly |
| Cameras.Moved | 3DViewer/Renderer/src/Camera.cpp:20-30 | each key move displaces the position by exactly ± speed × 0.05 along front (forward/backward) or right (right/left), with no dependence on the frame time |
| Cameras.PitchAfter | 3DViewer/Renderer/src/Camera.cpp:32-40 | after any non-empty run of mouse movements the pitch is in [−89, 89], whatever the prior pitch and the offsets |
| Cameras.ZoomAfter | 3DViewer/Renderer/src/Camera.cpp:54-61 | after any non-empty run of wheel events the zoom is in [1, 120] |
| Cameras.ZoomMonotone | 3DViewer/Renderer/src/Camera.cpp:55-56 | from an in-range zoom, a run of positive wheel amounts never widens the zoom |
| Cameras.ZoomMonotoneWiden | 3DViewer/Renderer/src/Camera.cpp:55-56 | from an in-range zoom, a run of negative wheel amounts never narrows the zoom |
| Cameras.Camera.constructor | 3DViewer/Renderer/src/Camera.cpp:4-11 | yaw −90, pitch 0, speed 3, sensitivity 0.05, zoom 45, the given position, world-up (0, 1, 0), basis derived from the angles |
| Cameras.Camera.UpdateCameraVectors | 3DViewer/Renderer/src/Camera.cpp:63-72 | front, right and up become the basis derived from the current yaw and pitch |
| Cameras.Camera.ProcessKeyboard | 3DViewer/Renderer/src/Camera.cpp:20-30 | only the position changes, by one fixed step in the given direction; deltaTime has no effect |
| Cameras.Camera.ProcessMouseMovement | 3DViewer/Renderer/src/Camera.cpp:32-43 | yaw grows by exactly xOffset × sensitivity with no bound; pitch becomes the clamp of pitch + yOffset × sensitivity; the basis is re-derived |
| Cameras.Camera.Reset | 3DViewer/Renderer/src/Camera.cpp:45-52 | position (0, 0, 5), zoom 45, yaw −90, pitch 0, whatever the prior state (so a second reset changes nothing); speed and sensitivity untouched |
| Cameras.Camera.ProcessMouseScroll | 3DViewer/Renderer/src/Camera.cpp:54-61 | only the zoom changes, to the clamped scroll result |
| Renderers.ActionOf | 3DViewer/Renderer/src/OpenGLRenderer.cpp:125-143 | W and Escape (no `break`, falling through) give a forward move; S, A and D give backward, left and right; R gives a reset; every other key gives no action |
| Renderers.Offsets | 3DViewer/Renderer/src/OpenGLRenderer.cpp:161-169 | the first move after a release gives offsets (0, 0); otherwise xoffset = cur.x − last.x and yoffset = last.y − cur.y |
| Renderers.DragTelescopes | 3DViewer/Renderer/src/OpenGLRenderer.cpp:159-172 | the offsets of a run of left-button moves sum to the displacement from the drag origin to the final point, with y inverted |
| Renderers.FrameDeltas | 3DViewer/Renderer/src/OpenGLRenderer.cpp:21-24 | one frame delta per clock reading |
| Renderers.FrameDeltasSound | 3DViewer/Renderer/src/OpenGLRenderer.cpp:21-24 | with a non-decreasing clock no frame delta is negative, and the deltas sum to the time elapsed since the initial lastFrame |
| Renderers.OpenGLRenderer.constructor | 3DViewer/Renderer/include/OpenGLRenderer.h:19-25 | a fresh camera at (0, 0, 20); lastFrame = deltaTime = 0; the first-move flag false |
| Renderers.OpenGLRenderer.InitializeGL | 3DViewer/Renderer/src/OpenGLRenderer.cpp:13-19 | the last pointer position becomes the widget centre, so a drag before any release is measured from it |
| Renderers.OpenGLRenderer.PaintGL | 3DViewer/Renderer/src/OpenGLRenderer.cpp:21-24 | deltaTime = elapsed − old lastFrame and lastFrame = elapsed; deltaTime ≥ 0 when the clock has not gone back |
| Renderers.OpenGLRenderer.KeyPressEvent | 3DViewer/Renderer/src/OpenGLRenderer.cpp:124-145 | W/S/A/D move the camera forward/backward/left/right by one step, and Escape falls through into the forward move. R resets the camera. Any other key leaves the camera unchanged |
| Renderers.OpenGLRenderer.MouseReleaseEvent | 3DViewer/Renderer/src/OpenGLRenderer.cpp:152-156 | the first-move flag becomes true |
| Renderers.OpenGLRenderer.MouseMoveEvent | 3DViewer/Renderer/src/OpenGLRenderer.cpp:159-176 | without the left button, nothing changes. With it, the camera turns by the offsets from the drag origin, the last position becomes the current one, and the flag is cleared |
| Renderers.OpenGLRenderer.WheelEvent | 3DViewer/Renderer/src/OpenGLRenderer.cpp:178-183 | the integer wheel delta is passed unchanged to the camera's scroll; only the zoom changes |

## Left out

- CGAL loading, validation and triangulation (`CgalApi.cpp`): thin calls into the geometry library. A mesh reaches the model as an `Option<Mesh>`, where `None` stands for the null pointer.
- The CGAL test file: it checks library output on files on disk.
- Float rounding: coordinates, angles, zoom and times are exact reals. This includes `to_double` and the `float` casts in `makeObject`, and the `float` `lastFrame`.
- IEEE edge cases are not modelled. For an empty vertex list the dimensions are (−2 × FLT_MAX) × 100, where the float code overflows to −infinity. `GetObjectCenter` requires a non-empty list instead of dividing 0 by 0.
- `updateCameraVectors` trigonometry and normalisation: it is the parameter `orient` of the camera.
- `getViewMatrix`, projection set-up, shaders, the hard-coded cube, the renderer destructor and the GL calls of `paintGL`: rendering only.
- `SceneObject::release`, `draw` and `intializeBuffers`: they only delegate to the GPU. `release()` is still called in `removeCurrentObjSelection` even when the object is not in the list; this has no effect on the modelled state.
- `Scene::updateObjDetails` and the `Scene` destructor: Qt signals, number formatting and GPU release.
- `QApplication::quit()` in the Escape case: it asks the event loop to stop. The model keeps the key's fall-through into the forward move.
- `update()` redraw requests after each event, and the empty `mousePressEvent`: neither changes modelled state.
- `SceneObject::setVisible`: the code modelled calls it with the checkbox's `int` state (`Scene.cpp:58`) but defines it nowhere, and `SceneObject.h` declares neither it nor an `m_isActive` field. The model assumes its effect is to set an active flag to "state ≠ 0" (any Qt check state other than unchecked).
- UI glue (`3DViewer.cpp`, `main.cpp`): widget layout, the file dialog, signal wiring and start-up.
- `Camera::FitInWindow`, `reset(float)` and the drawing mode: they are declared in the headers but not defined or used in the code modelled.
- SceneObjects.IssuedIdsIncrease: only states distinctness below 2^32 objects, and only for ids drawn from one `IdCounter`: a single instance of it, passed to every `SceneObject` constructor, stands for the static `m_idCounter`, and nothing in the model stops a caller from creating a second one. After that the counter wraps to 0 (`NextId`) and ids repeat.
