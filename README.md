# VTK plot view: camera synchronisation and axis snap

A model of the camera bookkeeping of `VTKPlotView`, the Panel/Bokeh view that
shows a VTK.js scene. The renderer and the DOM are left out. Three pieces
are modelled and proved:

- **Axis snap** (`geometry.dfy`, module `Geometry`). The user clicks an axis of
  the orientation marker. The camera moves to `focal + direction * distance`,
  where `distance` is its distance to the focal point. The view-up is reset by
  `majorAxis`, which returns the signed unit vector along the larger of two
  components. Coordinates are `real`s. `Math.sqrt` is a parameter `sqrt`, and
  all that is assumed about it is that it returns the non-negative square root
  (`IsSqrt`).
- **Camera field bags** (`camera_state.dfy`, module `CameraState`). The live
  camera and the model's `camera` property are maps from field names to
  values. A snapshot removes `classHierarchy`, `vtkObject`, `vtkCamera` and
  `viewPlaneNormal`. Applying a bag overrides the camera's fields one by one.
- **The view** (`plot_view.dfy`, class `PlotView.VTKPlotView`). It has these
  fields:
  - the `setting` guard;
  - the live camera and the model camera;
  - counters for model publications, marker refreshes and render requests;
  - the actor list;
  - the `append` and `data` properties;
  - the payloads handed to the scene loader.

  The synchronous notifications are calls between methods. A camera setter
  that changes a field runs `GetCameraState` (`camera.onModified`). An
  assignment to the model's camera runs `SetCameraState` (the property's change
  signal). So the camera → model → camera cycle really happens in the model,
  and the contracts show that the `setting` flag cuts it: a pass started in
  one direction never publishes or applies in the other direction. The methods
  call each other recursively; each one's `decreases` clause ranks it by
  whether the flag is set.

Assumptions about code outside this model:

- `camera.set(state)` hands each field of `state` to its setter, in no
  particular order. So on success the result is the map override
  `camera + state`.
- A setter throws when given a value shaped differently from the one it holds
  (a number where the camera has a vector, say). The fields applied before
  the throw stay applied; nothing is rolled back.
- A camera setter fires `onModified` only when the value actually changes.
- Assigning the model's `camera` property fires its change signal
  synchronously, and neither the assignment nor any listener on that signal
  throws.
- A camera setter changes only its own field. In VTK.js, `setPosition` and
  `setFocalPoint` also recompute derived fields (`viewPlaneNormal`,
  `directionOfProjection`, `distance`); the model does not. A snapshot
  removes `viewPlaneNormal` but keeps the other derived fields. So after an
  orientation change the model publishes those fields with their old values,
  where the real camera would publish recomputed ones. The contracts that say
  "nothing else in the camera changes" rest on this assumption.
- The renderer's `removeActor(a)` drops every occurrence of `a` from its
  actor list and builds a new list. It does not splice the array that an
  earlier `getActors()` returned. `_delete_all_actors` (panel/models/vtk.ts:203)
  walks that array with `.map` while removing. If the array shrank in place,
  `.map` would skip actors and some would be left behind. `DeleteAllActors`
  takes a copy of the list (`listed`) and relies on this assumption.

Behaviour of the code worth noting:

- A camera sitting on its focal point (distance 0) is not an error. The snap
  leaves it on the focal point (`SnapDegenerate`).
- When `camera.set` throws, the exception leaves `_set_camera_state` right
  after the `finally`. The marker is not refreshed and no render is
  requested.
- `_get_camera_state` (panel/models/vtk.ts:147-158) releases `_setting`
  without a `finally`. If the assignment to the model's `camera` threw, the
  guard would stay set and every later synchronisation in either direction
  would be skipped. `_set_camera_state` does use a `finally`. Under the
  assumption above that the assignment never throws, the model's
  `GetCameraState` always restores the guard.
- The orientation handler does not test `_setting`. A setter call that
  changes the camera publishes a snapshot, so after the handler the model
  holds the new camera if any setter changed it. If no setter changed the
  camera, the model keeps its old value.
- When `direction` has several non-zero components, the last matching `if`
  sets the view-up. Only for a single-axis direction is the new view-up
  guaranteed to lie off the look axis (`SnappedViewUpAxis`).

## Model

| member | source | states |
|---|---|---|
| Geometry.MajorAxis | panel/models/vtk.ts:7-13 | result is a unit vector along idxA or idxB; idxA is chosen exactly when its magnitude is strictly larger (ties go to idxB); the chosen component dominates the pair; the sign is +1 exactly when that component is strictly positive (so a zero component gives -1) |
| Geometry.MajorAxisIdempotent | panel/models/vtk.ts:7-13 | applying majorAxis to its own result over the same pair returns that result, so repeated snaps keep the view-up |
| Geometry.Vec3.With | panel/models/vtk.ts:11 | the component written holds the new value and the other two components are unchanged |
| Geometry.SquaredDistanceZero | panel/models/vtk.ts:72-74 | the sum of squared coordinate differences is non-negative, and it is zero exactly when the two points coincide |
| Geometry.Distance | panel/models/vtk.ts:72-74 | the distance is non-negative, its square is the sum of the squared coordinate differences, and it is zero exactly when the two points coincide |
| Geometry.SnappedPosition | panel/models/vtk.ts:72-80 | the new position is the focal point when the direction is all zero or the camera sits on its focal point |
| Geometry.SnappedViewUp | panel/models/vtk.ts:82-90 | a direction with any non-zero component gives a unit vector along one axis; an all-zero direction keeps the old view-up |
| Geometry.Snap | panel/models/vtk.ts:66-90 | the focal point is never moved, and an all-zero direction keeps the view-up |
| Geometry.SnapScalesDistance | panel/models/vtk.ts:68-80 | the focal point is unchanged and the new squared distance to it is d·d times the squared length of direction, d being the old distance |
| Geometry.SnapPreservesDistance | panel/models/vtk.ts:68-80 | for a unit direction the camera's distance to the unchanged focal point is the same after the snap |
| Geometry.SnapDegenerate | panel/models/vtk.ts:72-80 | a camera on its focal point stays on it whatever the direction |
| Geometry.SnappedViewUpAxis | panel/models/vtk.ts:82-90 | for a direction along a single axis i the new view-up is a unit vector along one of the two other axes, with component i zero |
| Geometry.SnapZeroDirection | panel/models/vtk.ts:76-90 | an all-zero direction moves the camera onto the focal point and leaves the view-up unchanged |
| Geometry.SnapIdempotent | panel/models/vtk.ts:66-90 | snapping twice along the same unit direction gives the same pose as snapping once |
| Geometry.SnapToPlusX | panel/models/vtk.ts:66-90 | camera (0,0,10), focal point at the origin, view-up (0,1,0), direction +X: new position (10,0,0), view-up (0,1,0) |
| CameraState.Snapshot | panel/models/vtk.ts:150-154 | the snapshot has exactly the camera's keys minus the four internal ones, each with the camera's value |
| CameraState.SnapshotIdempotent | panel/models/vtk.ts:150-154 | a snapshot of a snapshot is the snapshot itself |
| CameraState.SnapshotKeepsPose | panel/models/vtk.ts:150-154 | position, focal point and view-up survive the snapshot with their values |
| CameraState.ApplyKeepsPose | panel/models/vtk.ts:164 | applying a bag none of whose fields is rejected keeps the camera's pose fields vectors |
| CameraState.PushSnapshotBack | panel/models/vtk.ts:147-173 | pushing a camera's own snapshot back onto it is accepted and leaves every field unchanged |
| PlotView.Without | panel/models/vtk.ts:203 | removing an actor drops exactly that actor (an element stays iff it was there and differs, and every other actor keeps its number of occurrences), shortens a list that held it and leaves any other list as it was |
| PlotView.VTKPlotView.constructor | panel/models/vtk.ts:15-24 | the view starts with the guard released, no marker, no actors, and nothing published, refreshed or rendered |
| PlotView.VTKPlotView.SetField | panel/models/vtk.ts:110 | a camera setter updates one field; when it changes the camera outside a pass, the model receives a snapshot of the new camera exactly once; inside a pass, or with no change, the model is untouched; the guard keeps its value |
| PlotView.VTKPlotView.GetCameraState | panel/models/vtk.ts:147-158 | guard released: the model's camera becomes the camera's fields minus the four internal keys, published once, and the camera stays unchanged even though the change signal runs the opposite direction; guard set: nothing changes; the guard has its old value on return |
| PlotView.VTKPlotView.SetCameraState | panel/models/vtk.ts:160-173 | guard set: camera, model, marker and renders unchanged. Guard released: the model's camera is applied to the camera, and the model is not republished by the re-entrant notifications. It throws exactly when some field is rejected, and then the camera is partly applied and nothing is refreshed or rendered. Otherwise the marker is refreshed iff it exists and exactly one render is requested. The guard is released on every path |
| PlotView.VTKPlotView.CameraSet | panel/models/vtk.ts:164 | the fields are applied one at a time with the guard held; it throws iff some field has the wrong shape; on success camera == old camera + state; on a throw the camera is partly applied; model and counters unchanged |
| PlotView.VTKPlotView.SetModelCamera | panel/models/vtk.ts:122 | an external write to the model's camera is applied to the live camera as above and is never published back |
| PlotView.VTKPlotView.OnOrientationChange | panel/models/vtk.ts:66-95 | the camera's position and view-up become those of the snapped pose and nothing else in the camera changes; marker refreshed and one render requested; the model holds a snapshot of the new camera whenever the camera moved, and is untouched if nothing was published |
| PlotView.VTKPlotView.ResetViewUp | panel/models/vtk.ts:82-90 | the three sequential `if`s leave the view-up equal to the last matching branch's majorAxis, or unchanged for an all-zero direction |
| PlotView.VTKPlotView.HasData | panel/models/vtk.ts:179 | a missing payload and the empty string are falsy (no data); any non-empty string is data |
| PlotView.VTKPlotView.RemoveActor | panel/models/vtk.ts:203 | the actor list loses exactly the removed actor |
| PlotView.VTKPlotView.DeleteAllActors | panel/models/vtk.ts:202-204 | removing every actor the renderer lists leaves no actor |
| PlotView.VTKPlotView.Plot | panel/models/vtk.ts:175-182 | without append the actor list is empty before loading, with append it is kept; with no data one render is requested and no load starts; otherwise the payload goes to the loader and nothing is rendered yet |
| PlotView.VTKPlotView.SetData | panel/models/vtk.ts:121 | a change of the data property re-plots under the same policy with the new payload |
| PlotView.VTKPlotView.OnSceneReady | panel/models/vtk.ts:190-195 | when the scene is ready the orientation marker exists and one render is requested |

## Left out

- Creating and configuring the VTK renderer, the interactor, the axes actor, the orientation marker widget and the widget manager (panel/models/vtk.ts:37-64, 98-117). These are calls into the VTK.js library. The marker is a flag, and the renderer is a render counter.
- Scene loading (panel/models/vtk.ts:183-199). `atob`, the zip access helper, the HTTP scene loader and the 100 ms debounce are asynchronous library calls. The model records the payload handed to the loader. `OnSceneReady` models only the body of the ready callback. The actors the loader adds are not modelled.
- The key-binding listeners attached on mouse enter and leave, and `_remove_default_key_binding` (panel/models/vtk.ts:123-139). This is DOM event plumbing.
- `render()` attaching the container, and the right-button `console.log` stub (panel/models/vtk.ts:113-115, 141-145). This is DOM output.
- The `VTKPlot` property declarations and their defaults (panel/models/vtk.ts:208-244). This is framework registration.
- Floating point. Coordinates are exact reals, and `Math.sqrt` is a parameter known only to return the non-negative square root. A direction component counts as set when it is non-zero; NaN is not modelled.
- The VTK.js implementations of `camera.set`, the camera setters and `onModified`, and the Bokeh property signals are not part of this model. They are replaced by the assumptions stated above: field-by-field override, a throw on a value of the wrong shape, notification only on change, and a synchronous change signal on every assignment.
- PlotView.VTKPlotView.OnOrientationChange: bounds the number of model publications (at most four: one setter call for the position and up to three for the view-up) rather than stating how many setter calls changed the camera.
- `clone` (panel/models/vtk.ts:150) is a shallow copy. The array-valued fields of the published state can therefore be the camera's own arrays, so a later in-place change to one would show through the other. The model treats a snapshot as an independent value; aliasing is not modelled.
- PlotView.VTKPlotView.GetCameraState: does not model an assignment to the model's `camera` that throws. With no `finally` in `_get_camera_state`, such a throw would leave `_setting` set; the model assumes it never happens.
- Derived camera fields. The recomputation of `directionOfProjection`, `distance` and the other fields VTK.js derives from the pose is not modelled (see the assumptions above), so the snapshot published after an orientation change holds their old values.
