/**
 * The view of the VTK plot: the live camera, the model's `camera` property and
 * the single `setting` flag that keeps the two synchronisation directions from
 * feeding each other, the axis snap run when an axis of the orientation marker
 * is clicked, and the actor bookkeeping of a re-plot.
 *
 * The renderer's and the model's notifications are synchronous callbacks; here
 * they are calls between the methods of VTKPlotView:
 *   - every camera setter that changes a field fires the camera's `onModified`
 *     callback, which runs GetCameraState;
 *   - every assignment to the model's `camera` property fires its change
 *     signal, which runs SetCameraState.
 * Render requests and orientation-marker refreshes are counted, and the scene
 * payloads handed to the (asynchronous) scene loader are recorded.
 */
module PlotView {
  import opened Geometry
  import opened CameraState

  datatype Option<T> = None | Some(value: T)

  /** An actor in the renderer's scene. */
  datatype Actor = Actor(id: nat)

  /**
   * The actor list after `removeActor(a)`: every occurrence of a is dropped,
   * and every other actor keeps its number of occurrences.
   */
  function Without(actors: seq<Actor>, a: Actor): (r: seq<Actor>)
    ensures forall x :: x in r <==> x in actors && x != a
    ensures a in actors ==> |r| < |actors|
    ensures a !in actors ==> r == actors
    ensures multiset(r) == multiset(actors)[a := 0]
  {
    if actors == [] then []
    else
      assert actors == [actors[0]] + actors[1..];
      if actors[0] == a then Without(actors[1..], a)
      else [actors[0]] + Without(actors[1..], a)
  }

  /** Helper: names a member of a non-empty list so the solver has a term to use. */
  lemma HeadIsMember(actors: seq<Actor>)
    ensures actors != [] ==> actors[0] in actors
  {
  }

  class VTKPlotView {
    /** `_setting`: a synchronisation pass is running. */
    var setting: bool
    /** The live camera's fields (`camera.get()`). */
    var camera: FieldBag
    /** The model's `camera` property. */
    var modelCamera: FieldBag
    /** How many times the view has assigned the model's `camera` property. */
    var exports: nat
    /** `_orientationWidget != null`. */
    var orientationWidget: bool
    /** How many times `updateMarkerOrientation()` was requested. */
    var markerUpdates: nat
    /** How many times `getRenderWindow().render()` was requested. */
    var renders: nat
    /** The renderer's actors. */
    var actors: seq<Actor>
    /** The model's `append` property. */
    var append: bool
    /** The model's `data` property (None for null or undefined). */
    var data: Option<string>
    /** The payloads handed to the scene loader, oldest first. */
    var loadRequests: seq<string>

    /** The live camera always has a position, a focal point and a view-up. */
    ghost predicate Valid()
      reads this
    {
      HasPose(camera)
    }

    /**
     * `!this.model.data` is false: there is a payload to load. A missing
     * payload and the empty string are both falsy.
     */
    predicate HasData()
      reads this
      ensures data.None? ==> !HasData()
      ensures data == Some("") ==> !HasData()
      ensures data.Some? && |data.value| > 0 ==> HasData()
    {
      data.Some? && data.value != ""
    }

    /** The view once its renderer exists, before any plot. */
    constructor (camera: FieldBag, modelCamera: FieldBag, append: bool, data: Option<string>)
      requires HasPose(camera)
      ensures Valid() && !setting
      ensures this.camera == camera && this.modelCamera == modelCamera
      ensures this.append == append && this.data == data
      ensures exports == 0 && !orientationWidget && markerUpdates == 0 && renders == 0
      ensures actors == [] && loadRequests == []
    {
      setting := false;
      this.camera := camera;
      this.modelCamera := modelCamera;
      exports := 0;
      orientationWidget := false;
      markerUpdates := 0;
      renders := 0;
      actors := [];
      this.append := append;
      this.data := data;
      loadRequests := [];
    }

    /**
     * One camera setter (`setPosition`, `setViewUp`, or the per-field setter
     * used by `camera.set`).  A setter that changes the field fires
     * `onModified`; outside a synchronisation pass that publishes a snapshot
     * of the new camera to the model.
     */
    method SetField(key: string, value: Field)
      requires Valid() && !Rejects(camera, key, value)
      modifies this`setting, this`camera, this`modelCamera, this`exports, this`markerUpdates, this`renders
      decreases if setting then 0 else 1, 1
      ensures Valid()
      ensures camera == old(camera)[key := value]
      ensures setting == old(setting) && markerUpdates == old(markerUpdates) && renders == old(renders)
      ensures old(setting) || camera == old(camera) ==>
                modelCamera == old(modelCamera) && exports == old(exports)
      ensures !old(setting) && camera != old(camera) ==>
                modelCamera == Snapshot(camera) && exports == old(exports) + 1
    {
      if key !in camera || camera[key] != value {
        camera := camera[key := value];
        GetCameraState();
      }
    }

    /**
     * `_get_camera_state` (camera to model).  Outside a pass it publishes the
     * camera's fields minus the four internal keys to the model; the model's
     * change signal then runs SetCameraState, which the flag turns into a
     * no-op.  Inside a pass it does nothing.  The flag is as before on return.
     */
    method GetCameraState()
      requires Valid()
      modifies this`setting, this`camera, this`modelCamera, this`exports, this`markerUpdates, this`renders
      decreases if setting then 0 else 1, 0
      ensures Valid()
      ensures setting == old(setting) && camera == old(camera)
      ensures markerUpdates == old(markerUpdates) && renders == old(renders)
      ensures old(setting) ==> modelCamera == old(modelCamera) && exports == old(exports)
      ensures !old(setting) ==> modelCamera == Snapshot(camera) && exports == old(exports) + 1
    {
      if !setting {
        setting := true;
        modelCamera := Snapshot(camera);
        exports := exports + 1;
        var threw := SetCameraState();
        setting := false;
      }
    }

    /**
     * `_set_camera_state` (model to camera).  Outside a pass it applies the
     * model's camera to the live camera; the `onModified` notifications this
     * fires find the flag set and publish nothing.  The flag is released
     * whether or not the camera throws; only when it does not throw is the
     * marker refreshed (if there is a marker) and one render requested.
     * Inside a pass it does nothing.
     */
    method SetCameraState() returns (threw: bool)
      requires Valid()
      modifies this`setting, this`camera, this`modelCamera, this`exports, this`markerUpdates, this`renders
      decreases if setting then 0 else 1, 0
      ensures Valid()
      ensures setting == old(setting)
      ensures modelCamera == old(modelCamera) && exports == old(exports)
      ensures old(setting) ==>
                !threw && camera == old(camera) &&
                markerUpdates == old(markerUpdates) && renders == old(renders)
      ensures !old(setting) ==> (threw <==> AnyRejected(old(camera), modelCamera))
      ensures !old(setting) && !threw ==>
                camera == old(camera) + modelCamera &&
                markerUpdates == old(markerUpdates) + (if orientationWidget then 1 else 0) &&
                renders == old(renders) + 1
      ensures threw ==>
                PartlyApplied(old(camera), modelCamera, camera) &&
                markerUpdates == old(markerUpdates) && renders == old(renders)
    {
      threw := false;
      if !setting {
        setting := true;
        threw := CameraSet(modelCamera);
        setting := false;
        if threw {
          return;
        }
        if orientationWidget {
          markerUpdates := markerUpdates + 1;
        }
        renders := renders + 1;
      }
    }

    /**
     * `camera.set(state)`: the fields of `state` are handed one at a time, in
     * no particular order, to their setters.  A setter given a value of the
     * wrong shape throws, leaving the fields applied so far in place.
     */
    method CameraSet(state: FieldBag) returns (threw: bool)
      requires Valid() && setting
      modifies this`setting, this`camera, this`modelCamera, this`exports, this`markerUpdates, this`renders
      decreases 0, 2
      ensures Valid() && setting
      ensures modelCamera == old(modelCamera) && exports == old(exports)
      ensures markerUpdates == old(markerUpdates) && renders == old(renders)
      ensures threw <==> AnyRejected(old(camera), state)
      ensures !threw ==> camera == old(camera) + state
      ensures threw ==> PartlyApplied(old(camera), state, camera)
    {
      var pending := state.Keys;
      while pending != {}
        invariant pending <= state.Keys
        invariant Valid() && setting
        invariant modelCamera == old(modelCamera) && exports == old(exports)
        invariant markerUpdates == old(markerUpdates) && renders == old(renders)
        invariant camera == old(camera) + map k | k in state.Keys - pending :: state[k]
        invariant forall k :: k in state.Keys - pending ==> !Rejects(old(camera), k, state[k])
        decreases pending
      {
        var key :| key in pending;
        assert key in camera ==> key in old(camera) && camera[key] == old(camera)[key];
        if Rejects(camera, key, state[key]) {
          return true;
        }
        SetField(key, state[key]);
        pending := pending - {key};
        assert camera == old(camera) + map k | k in state.Keys - pending :: state[k];
      }
      assert state.Keys - pending == state.Keys;
      return false;
    }

    /**
     * The model's `camera` property is assigned from outside the view; its
     * change signal runs SetCameraState.  The camera's notifications during
     * the apply publish nothing back.
     */
    method SetModelCamera(state: FieldBag) returns (threw: bool)
      requires Valid() && !setting
      modifies this`setting, this`camera, this`modelCamera, this`exports, this`markerUpdates, this`renders
      ensures Valid() && !setting
      ensures modelCamera == state && exports == old(exports)
      ensures threw <==> AnyRejected(old(camera), state)
      ensures !threw ==>
                camera == old(camera) + state &&
                markerUpdates == old(markerUpdates) + (if orientationWidget then 1 else 0) &&
                renders == old(renders) + 1
      ensures threw ==>
                PartlyApplied(old(camera), state, camera) &&
                markerUpdates == old(markerUpdates) && renders == old(renders)
    {
      modelCamera := state;
      threw := SetCameraState();
    }

    /**
     * The `onOrientationChange` handler: move the camera to
     * `focal + direction * distance`, reset the view-up by `majorAxis` over
     * the two axes other than each non-zero direction component (the last
     * one wins), refresh the marker and request one render.  The model ends
     * up holding a snapshot of the new camera whenever the camera moved.
     */
    method OnOrientationChange(direction: Vec3, sqrt: real -> real)
      requires Valid() && !setting && orientationWidget && IsSqrt(sqrt)
      modifies this`setting, this`camera, this`modelCamera, this`exports, this`markerUpdates, this`renders
      ensures Valid() && !setting
      ensures var after := Snap(old(PoseOf(camera)), direction, sqrt);
              camera == old(camera)[PositionKey := Vector(after.position)][ViewUpKey := Vector(after.viewUp)]
      ensures markerUpdates == old(markerUpdates) + 1 && renders == old(renders) + 1
      // one setter call for the position and up to three for the view-up
      ensures old(exports) <= exports <= old(exports) + 4
      ensures camera != old(camera) ==> exports > old(exports)
      ensures exports == old(exports) ==> modelCamera == old(modelCamera)
      ensures exports > old(exports) ==> modelCamera == Snapshot(camera)
    {
      var focalPoint := camera[FocalPointKey].v;
      var position := camera[PositionKey].v;
      var viewUp := camera[ViewUpKey].v;
      var distance := Distance(position, focalPoint, sqrt);
      var newPosition := Vec3(focalPoint.x + direction.x * distance,
                              focalPoint.y + direction.y * distance,
                              focalPoint.z + direction.z * distance);
      ghost var after := Snap(PoseOf(camera), direction, sqrt);
      assert after.position == SnappedPosition(Pose(position, focalPoint, viewUp), direction, sqrt) == newPosition;
      assert after == Pose(newPosition, focalPoint, SnappedViewUp(viewUp, direction));
      ghost var moved := camera[PositionKey := Vector(newPosition)];
      SetField(PositionKey, Vector(newPosition));
      assert camera == moved && camera[ViewUpKey] == Vector(viewUp);
      ResetViewUp(viewUp, direction);
      markerUpdates := markerUpdates + 1;
      renders := renders + 1;
    }

    /** The three `if (direction[i])` tests of the orientation handler. */
    method ResetViewUp(viewUp: Vec3, direction: Vec3)
      requires Valid() && !setting && camera[ViewUpKey] == Vector(viewUp)
      modifies this`setting, this`camera, this`modelCamera, this`exports, this`markerUpdates, this`renders
      ensures Valid() && !setting
      ensures camera == old(camera)[ViewUpKey := Vector(SnappedViewUp(viewUp, direction))]
      ensures markerUpdates == old(markerUpdates) && renders == old(renders)
      ensures old(exports) <= exports <= old(exports) + 3
      ensures camera != old(camera) ==> exports > old(exports)
      ensures exports == old(exports) ==> modelCamera == old(modelCamera)
      ensures exports > old(exports) ==> modelCamera == Snapshot(camera)
    {
      // the view-up the camera holds so far
      var up := viewUp;
      if direction.x != 0.0 {
        up := MajorAxis(viewUp, 1, 2);
        SetField(ViewUpKey, Vector(up));
      }
      assert camera == old(camera)[ViewUpKey := Vector(up)];
      if direction.y != 0.0 {
        up := MajorAxis(viewUp, 0, 2);
        SetField(ViewUpKey, Vector(up));
      }
      assert camera == old(camera)[ViewUpKey := Vector(up)];
      if direction.z != 0.0 {
        up := MajorAxis(viewUp, 0, 1);
        SetField(ViewUpKey, Vector(up));
      }
      assert up == SnappedViewUp(viewUp, direction);
    }

    /** `removeActor(a)`. */
    method RemoveActor(a: Actor)
      modifies this`actors
      ensures actors == Without(old(actors), a)
    {
      actors := Without(actors, a);
    }

    /** `_delete_all_actors`: remove every actor `getActors()` lists, one by one. */
    method DeleteAllActors()
      modifies this`actors
      ensures actors == []
    {
      // the array `getActors()` returned; `removeActor` does not shrink it in place
      var listed := actors;
      var i := 0;
      while i < |listed|
        invariant 0 <= i <= |listed|
        invariant forall x :: x in actors ==> x in listed[i..]
      {
        RemoveActor(listed[i]);
        i := i + 1;
      }
      assert listed[i..] == [];
      HeadIsMember(actors);
    }

    /**
     * `_plot`: without `append` every actor is removed first; with no data
     * one render is requested and nothing is loaded; otherwise the payload is
     * handed to the scene loader, which renders when it is ready.
     */
    method Plot()
      modifies this`actors, this`renders, this`loadRequests
      ensures actors == if append then old(actors) else []
      ensures HasData() ==> loadRequests == old(loadRequests) + [data.value] && renders == old(renders)
      ensures !HasData() ==> loadRequests == old(loadRequests) && renders == old(renders) + 1
    {
      if !append {
        DeleteAllActors();
      }
      if !HasData() {
        renders := renders + 1;
        return;
      }
      loadRequests := loadRequests + [data.value];
    }

    /** The model's `data` property changes; its change signal runs Plot. */
    method SetData(payload: Option<string>)
      modifies this`data, this`actors, this`renders, this`loadRequests
      ensures data == payload
      ensures actors == if append then old(actors) else []
      ensures HasData() ==> loadRequests == old(loadRequests) + [payload.value] && renders == old(renders)
      ensures !HasData() ==> loadRequests == old(loadRequests) && renders == old(renders) + 1
    {
      data := payload;
      Plot();
    }

    /**
     * The scene loader's ready callback (run after its debounce): create the
     * orientation marker the first time, then request one render.
     */
    method OnSceneReady()
      modifies this`orientationWidget, this`renders
      ensures orientationWidget
      ensures renders == old(renders) + 1
    {
      if !orientationWidget {
        orientationWidget := true;
      }
      renders := renders + 1;
    }
  }
}
