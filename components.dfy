/** The injected components of the pipeline (map manager, overlap detector,
    map fusion, map update, bundler), seen only through their outcomes, and
    the trace of calls a worker step makes on them. */
module Components {
  import opened MapData

  /** What `IMapFusion::merge(localMap, globalMap, transform, ...)` leaves
      behind. Both maps are passed by shared reference and may be changed in
      place, so each outcome carries the global map as merge left it; a
      success also carries the local map as merge left it. Only the return
      code `_ERROR_` counts as a failure. */
  datatype MergeOutcome =
    | Merged(global: Map, local: Map)
    | NotMerged(global: Map)

  /** The behaviour of the collaborators during one worker step. Each is an
      arbitrary total function: the model assumes nothing about the geometry. */
  datatype Collaborators = Collaborators(
    /** `IOverlapDetector::detect(globalMap, localMap, transform, overlaps)`:
        the transform found, or `None` when the call does not succeed. */
    detect: (Map, Map) -> Option<Transform>,
    /** `IMapFusion::merge(localMap, globalMap, transform, nbMatches, error)`. */
    merge: (Map, Map, Transform) -> MergeOutcome,
    /** `IMapUpdate::update(globalMap, newKeyframeIds)`, in place. */
    update: (Map, seq<KeyframeId>) -> Map,
    /** `IBundler::setMap(globalMap)` then `bundleAdjustment(intrinsic, distortion)`, in place. */
    bundleAdjustment: (Map, CameraParameters) -> Map,
    /** `IMapManager::pointCloudPruning()` on the manager's (global) map. */
    pointCloudPruning: Map -> Map,
    /** `IMapManager::keyframePruning()` on the manager's (global) map. */
    keyframePruning: Map -> Map,
    /** `IMapManager::saveToFile()` on the manager's (global) map: whether
        the file was written. The pipeline ignores this return code. */
    saveToFile: Map -> bool)

  /** One call a worker step makes on a collaborator, with the arguments the
      control flow decides. */
  datatype Call =
    | SetMap
    | Detect
    | Merge(transform: Transform)
    | Update(newKeyframeIds: seq<KeyframeId>)
    | BundleAdjustment(camera: CameraParameters)
    | PointCloudPruning
    | KeyframePruning
    | SaveToFile
}
