/** The SolAR data structures the map-update pipeline handles, reduced to what
    its control flow inspects: a map's number of cloud points, its coordinate
    system (floating or fixed by a parent transform) and its keyframe ids. */
module MapData {

  /** A nullable shared reference (`SRef<T>`): `None` stands for `nullptr`. */
  datatype Option<+T> = None | Some(value: T) {
    function GetOr(default: T): T {
      match this
      case Some(v) => v
      case None => default
    }
  }

  /** Keyframe identifiers are `uint32_t`. */
  newtype KeyframeId = x: int | 0 <= x < 0x1_0000_0000

  /** A keyframe; its pose and observations are floating-point data the
      pipeline only forwards, so only the identifier is kept. */
  datatype Keyframe = Keyframe(id: KeyframeId)

  /** A 3D similarity transform (`Transform3Df`). The matrix is not inspected
      by the pipeline; a token identifies it. */
  datatype Transform = Transform(token: int)

  const IdentityTransform: Transform := Transform(0)

  /** A map's coordinate system: floating (no known relation to the global
      frame yet) or fixed by its parent transform. */
  datatype CoordinateSystem = CoordinateSystem(floating: bool, parentTransform: Transform)

  /** Camera intrinsics and distortion (`CameraParameters`), as a token. */
  datatype CameraParameters = CameraParameters(token: int)

  /** The value a default-constructed `CameraParameters` holds. */
  const DefaultCameraParameters: CameraParameters := CameraParameters(0)

  /** A map: its point cloud (by size), coordinate system and keyframes in
      the order the keyframe collection hands them out. */
  datatype Map = Map(nbPoints: nat, coordinateSystem: CoordinateSystem, keyframes: seq<Keyframe>) {

    /** The map after `CoordinateSystem::setParentTransform(t)`. */
    function WithParentTransform(t: Transform): (m: Map)
      ensures m.coordinateSystem.parentTransform == t
      ensures m.coordinateSystem.floating == coordinateSystem.floating
      ensures m.nbPoints == nbPoints && m.keyframes == keyframes
    {
      this.(coordinateSystem := coordinateSystem.(parentTransform := t))
    }
  }

  /** The map a map manager holds when nothing could be loaded. */
  const EmptyMap: Map := Map(0, CoordinateSystem(false, IdentityTransform), [])

  /** The identifiers of a keyframe list, in the same order. */
  function KeyframeIds(kfs: seq<Keyframe>): (ids: seq<KeyframeId>)
    ensures |ids| == |kfs|
    ensures forall i :: 0 <= i < |kfs| ==> ids[i] == kfs[i].id
  {
    if kfs == [] then [] else [kfs[0].id] + KeyframeIds(kfs[1..])
  }
}
