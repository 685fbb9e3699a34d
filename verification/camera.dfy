/**
 * `convertTopicCameraStateToBCFState`: a three.js camera (y up) in BCF axes (z up). Every
 * vector goes through the same remap `[x, y, z] -> [x, -z, y]`; the up vector is the
 * normalised vector from the position to the target. Normalisation is floating-point
 * arithmetic and stays abstract: it is the parameter `normalize`.
 */
module Camera {
  import opened Core

  /** The viewer's camera: position, target, direction and the lens. */
  datatype TopicCameraState = TopicCameraState(position: Vec3, target: Vec3, direction: Vec3, fieldOfView: real, aspectRatio: real)

  /** The camera in BCF axes. */
  datatype BcfCameraState = BcfCameraState(direction: Vec3, position: Vec3, up: Vec3)

  /** BCF axes back to three.js axes: `(a, b, c) -> (a, c, -b)`. */
  function FromBcfAxes(v: Vec3): Vec3 {
    Vec3(v.x, v.z, -v.y)
  }

  /** three.js axes to BCF axes: `[x, y, z] -> [x, -z, y]`; it loses nothing, `FromBcfAxes` undoes it. */
  function ToBcfAxes(v: Vec3): (w: Vec3)
    ensures FromBcfAxes(w) == v
  {
    Vec3(v.x, -v.z, v.y)
  }

  /** The remap is onto: every BCF vector comes from the three.js vector `FromBcfAxes` gives. */
  lemma ToBcfAxesOnto(w: Vec3)
    ensures ToBcfAxes(FromBcfAxes(w)) == w
  {
  }

  /** `subVectors(target, position)`. */
  function Sub(a: Vec3, b: Vec3): Vec3 {
    Vec3(a.x - b.x, a.y - b.y, a.z - b.z)
  }

  /**
   * The BCF camera: direction and position remapped, and the up vector the remap of the
   * normalised difference between target and position.
   */
  function Convert(json: TopicCameraState, normalize: Vec3 -> Vec3): (s: BcfCameraState)
    ensures FromBcfAxes(s.direction) == json.direction
    ensures FromBcfAxes(s.position) == json.position
    ensures FromBcfAxes(s.up) == normalize(Sub(json.target, json.position))
  {
    var upVector := normalize(Sub(json.target, json.position));
    BcfCameraState(ToBcfAxes(json.direction), ToBcfAxes(json.position), ToBcfAxes(upVector))
  }

  /** The lens plays no part: two states that differ only in field of view and aspect ratio convert alike. */
  lemma ConvertIgnoresLens(a: TopicCameraState, b: TopicCameraState, normalize: Vec3 -> Vec3)
    requires a.position == b.position && a.target == b.target && a.direction == b.direction
    ensures Convert(a, normalize) == Convert(b, normalize)
  {
  }

  /** Position and direction can be read back from the result: two states that convert alike agree on both. */
  lemma ConvertKeepsPose(a: TopicCameraState, b: TopicCameraState, normalize: Vec3 -> Vec3)
    requires Convert(a, normalize) == Convert(b, normalize)
    ensures a.position == b.position && a.direction == b.direction
  {
    assert FromBcfAxes(Convert(a, normalize).position) == a.position;
    assert FromBcfAxes(Convert(b, normalize).position) == b.position;
  }

  /** The up vector depends on the target only through the offset from the position. */
  lemma UpFromOffset(a: TopicCameraState, b: TopicCameraState, normalize: Vec3 -> Vec3)
    requires Sub(a.target, a.position) == Sub(b.target, b.position)
    ensures Convert(a, normalize).up == Convert(b, normalize).up
  {
  }
}
