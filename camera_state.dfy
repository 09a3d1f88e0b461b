/**
 * The camera as a bag of named fields, as the renderer's `camera.get()` returns
 * it and as the model's `camera` property holds it, together with the two
 * operations the view performs on such bags: taking a serialisable snapshot
 * (four internal keys stripped) and applying a bag back onto the camera.
 */
module CameraState {
  import opened Geometry

  /** The value of one camera field. */
  datatype Field =
    | Number(n: real)            // viewAngle, parallelScale, ...
    | Numbers(ns: seq<real>)     // clippingRange, windowCenter, ...
    | Vector(v: Vec3)            // position, focalPoint, viewUp, ...
    | Flag(b: bool)              // parallelProjection, ...
    | Names(names: seq<string>)  // classHierarchy
    | Handle(id: nat)            // a reference to an engine object

  /** A camera's fields by name. */
  type FieldBag = map<string, Field>

  const PositionKey := "position"
  const FocalPointKey := "focalPoint"
  const ViewUpKey := "viewUp"

  /** The keys removed from a snapshot before it is published to the model. */
  const InternalKeys: set<string> := {"classHierarchy", "vtkObject", "vtkCamera", "viewPlaneNormal"}

  /** Two values of the same shape: a setter accepts a value shaped like the one it holds. */
  predicate SameShape(a: Field, b: Field) {
    (a.Number? && b.Number?) || (a.Numbers? && b.Numbers?) || (a.Vector? && b.Vector?) ||
    (a.Flag? && b.Flag?) || (a.Names? && b.Names?) || (a.Handle? && b.Handle?)
  }

  /** The bag holds the camera's pose as three vectors. */
  predicate HasPose(c: FieldBag) {
    PositionKey in c && c[PositionKey].Vector? &&
    FocalPointKey in c && c[FocalPointKey].Vector? &&
    ViewUpKey in c && c[ViewUpKey].Vector?
  }

  /** `getPosition()`, `getFocalPoint()` and `getViewUp()` together. */
  function PoseOf(c: FieldBag): Pose
    requires HasPose(c)
  {
    Pose(c[PositionKey].v, c[FocalPointKey].v, c[ViewUpKey].v)
  }

  /**
   * `clone(camera.get())` followed by deleting the four internal keys: every
   * other field keeps its value, and none of the internal keys is left.
   */
  function Snapshot(c: FieldBag): (s: FieldBag)
    ensures s.Keys == c.Keys - InternalKeys
    ensures forall k :: k in s ==> s[k] == c[k]
  {
    c - InternalKeys
  }

  /** Taking a snapshot of a snapshot changes nothing. */
  lemma SnapshotIdempotent(c: FieldBag)
    ensures Snapshot(Snapshot(c)) == Snapshot(c)
  {
  }

  /** The pose fields survive the snapshot unchanged. */
  lemma SnapshotKeepsPose(c: FieldBag)
    requires HasPose(c)
    ensures HasPose(Snapshot(c)) && PoseOf(Snapshot(c)) == PoseOf(c)
  {
  }

  /** The setter for `key` throws when given a value of another shape than the field it holds. */
  predicate Rejects(c: FieldBag, key: string, value: Field) {
    key in c && !SameShape(c[key], value)
  }

  /** Some field of `state` would be rejected by the camera `c`. */
  predicate AnyRejected(c: FieldBag, state: FieldBag) {
    exists k :: k in state && Rejects(c, k, state[k])
  }

  /**
   * `after` is `before` with some of the fields of `state` applied: no key is
   * lost, no key outside the two appears, and every field holds either its old
   * value or the value from `state`.
   */
  predicate PartlyApplied(before: FieldBag, state: FieldBag, after: FieldBag) {
    before.Keys <= after.Keys <= before.Keys + state.Keys &&
    forall k :: k in after ==>
      (k in state && after[k] == state[k]) || (k in before && after[k] == before[k])
  }

  /** Applying a bag no field of which is rejected keeps the pose fields vectors. */
  lemma ApplyKeepsPose(c: FieldBag, state: FieldBag)
    requires HasPose(c) && !AnyRejected(c, state)
    ensures HasPose(c + state)
  {
  }

  /**
   * Pushing a fresh snapshot straight back onto the camera it came from is
   * accepted and leaves every field as it was.
   */
  lemma PushSnapshotBack(c: FieldBag)
    ensures !AnyRejected(c, Snapshot(c))
    ensures c + Snapshot(c) == c
  {
  }
}
