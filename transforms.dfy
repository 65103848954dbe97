/**
 * Transforms of the test programs (tests/shared.h, tests/shadows.h): a
 * position, an Euler rotation and a scale, the default transform, and how
 * a transform is read from a scene description.
 */
module Transforms {
  import opened Common

  datatype Transform = Transform(position: Vec3, rotation: Vec3, scale: Vec3)

  /** Placed at the origin, not rotated, at unit scale. */
  function DefaultTransform(): (t: Transform)
    ensures t.position == ZERO_VEC3 && t.rotation == ZERO_VEC3
    ensures t.scale == Vec3(1.0, 1.0, 1.0)
  {
    Transform(ZERO_VEC3, ZERO_VEC3, Vec3(1.0, 1.0, 1.0))
  }

  /**
   * The three optional entries of a transform in a scene description,
   * already parsed to vectors; `None` when the key is absent.
   */
  datatype TransformData = TransformData(position: Option<Vec3>, rotation: Option<Vec3>, scale: Option<Vec3>)

  /** Starts from the default and replaces each property the data has. */
  function LoadTransform(data: TransformData): (t: Transform)
    ensures t.position == data.position.GetOr(DefaultTransform().position)
    ensures t.rotation == data.rotation.GetOr(DefaultTransform().rotation)
    ensures t.scale == data.scale.GetOr(DefaultTransform().scale)
  {
    var t := DefaultTransform();
    var t := if data.position.Some? then t.(position := data.position.value) else t;
    var t := if data.rotation.Some? then t.(rotation := data.rotation.value) else t;
    if data.scale.Some? then t.(scale := data.scale.value) else t
  }

  /** A description with none of the three keys yields the default transform. */
  lemma LoadTransformOfNothing()
    ensures LoadTransform(TransformData(None, None, None)) == DefaultTransform()
  {
  }

  /** Each key affects its own property only. */
  lemma LoadTransformIndependent(a: TransformData, b: TransformData)
    ensures a.position == b.position ==> LoadTransform(a).position == LoadTransform(b).position
    ensures a.rotation == b.rotation ==> LoadTransform(a).rotation == LoadTransform(b).rotation
    ensures a.scale == b.scale ==> LoadTransform(a).scale == LoadTransform(b).scale
  {
  }
}
