/**
 * The overdraw-quantification contract shared by every fur object:
 * cameras as the balancer sees them, the relative-height geometry and the
 * expected layer count formula.
 *
 * Floating-point values are modelled as `real`; the tangent of half the
 * vertical field of view is a camera parameter rather than computed.
 */
module Overdraw {
  import opened RealArith

  /** Identity of a camera (the engine compares camera references). */
  type CameraId = nat

  /** Identity of a registered fur object (the engine compares object references). */
  type ObjectId = nat

  datatype Camera = Camera(
    id: CameraId,
    aspect: real,            // width / height of the camera's viewport
    pixelHeight: real,
    orthographic: bool,
    orthographicSize: real,  // half of the vertical view span of an orthographic camera
    tanHalfFov: real         // tan(fieldOfView / 2) of a perspective camera
  )

  /**
   * What a registered object answers when the balancer asks it, at one
   * moment of a frame: its relative height under a camera and its fur length.
   */
  datatype Scene = Scene(
    relativeHeight: (ObjectId, Camera) -> real,
    furLength: ObjectId -> real
  )

  /** The world-space height the camera's view spans at `distance` from it. */
  function ViewHeight(camera: Camera, distance: real): (h: real) {
    if camera.orthographic then 2.0 * camera.orthographicSize
    else 2.0 * distance * camera.tanHalfFov
  }

  /**
   * The fraction of the camera's view height that an object of extent
   * `size` occupies at `distance`. The source divides without a guard, so
   * a zero view height (orthographic size 0, or distance 0 under a
   * perspective camera) is excluded here.
   */
  function DistanceToRelativeHeight(camera: Camera, distance: real, size: real): (r: real)
    requires ViewHeight(camera, distance) != 0.0
    ensures r * ViewHeight(camera, distance) == size
  {
    if camera.orthographic then size * 0.5 / camera.orthographicSize
    else size * 0.5 / (distance * camera.tanHalfFov)
  }

  /** Under an orthographic camera the distance plays no part. */
  lemma OrthographicIgnoresDistance(camera: Camera, d1: real, d2: real, size: real)
    requires camera.orthographic && camera.orthographicSize != 0.0
    ensures DistanceToRelativeHeight(camera, d1, size) == DistanceToRelativeHeight(camera, d2, size)
  {
  }

  /** Relative height grows linearly with the object's extent, in both branches. */
  lemma RelativeHeightLinearInSize(camera: Camera, distance: real, size: real, k: real)
    requires ViewHeight(camera, distance) != 0.0
    ensures DistanceToRelativeHeight(camera, distance, k * size) == k * DistanceToRelativeHeight(camera, distance, size)
  {
    var v := ViewHeight(camera, distance);
    var r1 := DistanceToRelativeHeight(camera, distance, k * size);
    var r2 := DistanceToRelativeHeight(camera, distance, size);
    assert r1 * v == k * (r2 * v);
    assert (r1 - k * r2) * v == 0.0;
  }

  /**
   * The number of shell layers an object would draw with no budget:
   * fur length times relative height times the camera's pixel height times
   * the quality multiplier.
   */
  function ExpectedLayerCount(furLength: real, camera: Camera, relativeHeight: real, quality: real): (e: real)
    ensures relativeHeight == 0.0 || furLength == 0.0 ==> e == 0.0
    ensures furLength >= 0.0 && relativeHeight >= 0.0 && camera.pixelHeight >= 0.0 && quality >= 0.0 ==> e >= 0.0
  {
    var e := furLength * relativeHeight * camera.pixelHeight * quality;
    assert furLength >= 0.0 && relativeHeight >= 0.0 && camera.pixelHeight >= 0.0 && quality >= 0.0 ==> e >= 0.0 by {
      if furLength >= 0.0 && relativeHeight >= 0.0 && camera.pixelHeight >= 0.0 && quality >= 0.0 {
        MulNonNegative(furLength, relativeHeight);
        MulNonNegative(furLength * relativeHeight, camera.pixelHeight);
        MulNonNegative(furLength * relativeHeight * camera.pixelHeight, quality);
      }
    }
    e
  }

  /** A larger relative height never lowers the expected layer count. */
  lemma ExpectedMonotoneInHeight(furLength: real, camera: Camera, h1: real, h2: real, quality: real)
    requires furLength >= 0.0 && camera.pixelHeight >= 0.0 && quality >= 0.0
    requires h1 <= h2
    ensures ExpectedLayerCount(furLength, camera, h1, quality) <= ExpectedLayerCount(furLength, camera, h2, quality)
  {
    var f := furLength;
    var p := camera.pixelHeight;
    MulNonNegative(f, h2 - h1);
    MulNonNegative(f * (h2 - h1), p);
    MulNonNegative(f * (h2 - h1) * p, quality);
    assert f * h2 * p * quality - f * h1 * p * quality == f * (h2 - h1) * p * quality;
  }

  /** A larger quality multiplier never lowers the expected layer count. */
  lemma ExpectedMonotoneInQuality(furLength: real, camera: Camera, relativeHeight: real, q1: real, q2: real)
    requires furLength >= 0.0 && relativeHeight >= 0.0 && camera.pixelHeight >= 0.0
    requires q1 <= q2
    ensures ExpectedLayerCount(furLength, camera, relativeHeight, q1) <= ExpectedLayerCount(furLength, camera, relativeHeight, q2)
  {
    var base := furLength * relativeHeight * camera.pixelHeight;
    MulNonNegative(furLength, relativeHeight);
    MulNonNegative(furLength * relativeHeight, camera.pixelHeight);
    MulNonNegative(base, q2 - q1);
    assert base * q2 - base * q1 == base * (q2 - q1);
  }
}
