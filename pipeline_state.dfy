/** The state of `PipelineMapUpdateProcessing` as a value, and each of its
    operations as a transition on that value. The class in module Pipeline
    is proved to perform exactly these transitions. */
module PipelineState {
  import opened MapData
  import opened Components

  /** `FrameworkReturnCode::_SUCCESS` and `FrameworkReturnCode::_ERROR_`. */
  datatype ReturnCode = Success | Error

  /** The `m_mapUpdateTask` pointer: no task yet, or the task created by the
      latest `start`, running or stopped. */
  datatype TaskState = NoTask | TaskRunning | TaskStopped

  /** The fields of the pipeline, plus the content of the map file. */
  datatype State = State(
    init: bool,                              // m_init
    cameraParametersSet: bool,               // m_setCameraParameters
    startedOK: bool,                         // m_startedOK
    stopFlag: bool,                          // m_stopFlag
    cameraParams: CameraParameters,          // m_cameraParams
    detectorCamera: Option<CameraParameters>, // parameters forwarded to the overlap detector
    updaterCamera: Option<CameraParameters>, // parameters forwarded to the map updater
    mapUpdateTask: TaskState,                // m_mapUpdateTask
    globalMap: Option<Map>,                  // m_globalMap, shared with the map manager
    inputMapBuffer: seq<Option<Map>>,        // m_inputMapBuffer, front first
    storedMap: Option<Map>)                  // the map file; None when there is none

  /** The return code of a facade operation and the state it leaves. */
  datatype Transition = Transition(rc: ReturnCode, next: State)

  /** The path a worker step took. */
  datatype StepOutcome =
    | Yielded         // stopped, not started or nothing queued
    | DroppedNull     // the popped entry was a null reference
    | NullGlobalMap   // the global map was never loaded: the source dereferences null here
    | Bootstrapped    // the global map had no points and was replaced
    | NoOverlap       // a floating map for which detection failed
    | MergeFailed     // fusion returned an error
    | Fused           // the map was fused, refined, pruned and saved

  /** The outcome, the collaborator calls made (in order) and the new state. */
  datatype StepResult = StepResult(outcome: StepOutcome, calls: seq<Call>, next: State)

  /** What every reachable state satisfies: the global map is loaded exactly
      when `init` has run, a started pipeline has created its task, and
      `m_setCameraParameters`, which no operation writes, stays false. */
  predicate Inv(s: State) {
    && (s.init <==> s.globalMap.Some?)
    && (s.startedOK ==> s.mapUpdateTask != NoTask)
    && !s.cameraParametersSet
  }

  /** A freshly constructed pipeline. `m_stopFlag` is not initialised in the
      header, so its value is a parameter; the map file present at that time
      is another. */
  function Initial(initialStopFlag: bool, persisted: Option<Map>): (s: State)
    ensures !s.init && !s.cameraParametersSet && !s.startedOK
    ensures s.stopFlag == initialStopFlag
    ensures s.globalMap == None && s.inputMapBuffer == [] && s.mapUpdateTask == NoTask
    ensures s.storedMap == persisted
    ensures Inv(s)
  {
    State(false, false, false, initialStopFlag, DefaultCameraParameters, None, None, NoTask, None, [], persisted)
  }

  /** `loadFromFile` then `getMap`: the file's map, or the manager's empty map
      when no file could be loaded. */
  function LoadedMap(storedMap: Option<Map>): (m: Map)
    ensures storedMap.Some? ==> m == storedMap.value
    ensures storedMap.None? ==> m.nbPoints == 0 && m.keyframes == []
  {
    storedMap.GetOr(EmptyMap)
  }

  /** `init`: loads the global map on the first call only, always clears
      both lifecycle flags, and always succeeds. */
  function Init(s: State): (r: Transition)
    ensures r.rc == Success
    ensures r.next.init && !r.next.stopFlag && !r.next.startedOK
    ensures !s.init ==> r.next.globalMap == Some(LoadedMap(s.storedMap))
    ensures s.init ==> r.next.globalMap == s.globalMap
    ensures r.next.(init := s.init, stopFlag := s.stopFlag, startedOK := s.startedOK, globalMap := s.globalMap) == s
    ensures Inv(s) ==> Inv(r.next)
  {
    var loaded := if s.init then s else s.(globalMap := Some(LoadedMap(s.storedMap)), init := true);
    Transition(Success, loaded.(stopFlag := false, startedOK := false))
  }

  /** `setCameraParameters`: stores the parameters, forwards them to the
      overlap detector and the map updater, and always succeeds. */
  function SetCameraParameters(s: State, p: CameraParameters): (r: Transition)
    ensures r.rc == Success
    ensures r.next.cameraParams == p && r.next.detectorCamera == Some(p) && r.next.updaterCamera == Some(p)
    ensures r.next.(cameraParams := s.cameraParams, detectorCamera := s.detectorCamera, updaterCamera := s.updaterCamera) == s
    ensures Inv(s) ==> Inv(r.next)
  {
    Transition(Success, s.(cameraParams := p, detectorCamera := Some(p), updaterCamera := Some(p)))
  }

  /** `start`: refused exactly when the stop flag is set; otherwise creates
      and starts the worker task and marks the pipeline started. */
  function Start(s: State): (r: Transition)
    ensures r.rc == Error <==> s.stopFlag
    ensures r.rc == Error ==> r.next == s
    ensures r.rc == Success ==> r.next.startedOK && r.next.mapUpdateTask == TaskRunning
    ensures r.next.(startedOK := s.startedOK, mapUpdateTask := s.mapUpdateTask) == s
    ensures Inv(s) ==> Inv(r.next)
  {
    if s.stopFlag then Transition(Error, s)
    else Transition(Success, s.(mapUpdateTask := TaskRunning, startedOK := true))
  }

  /** `stop`: always raises the stop flag and stops the task if there is
      one; reports an error exactly when the pipeline was never started, and
      leaves `m_startedOK` as it was. */
  function Stop(s: State): (r: Transition)
    ensures r.rc == Error <==> !s.startedOK
    ensures r.next.stopFlag && r.next.startedOK == s.startedOK
    ensures r.next.mapUpdateTask == if s.mapUpdateTask == NoTask then NoTask else TaskStopped
    ensures r.next.(stopFlag := s.stopFlag, mapUpdateTask := s.mapUpdateTask) == s
    ensures Inv(s) ==> Inv(r.next)
  {
    var stopped := s.(stopFlag := true,
                      mapUpdateTask := if s.mapUpdateTask != NoTask then TaskStopped else NoTask);
    if !s.startedOK then Transition(Error, stopped) else Transition(Success, stopped)
  }

  /** `mapUpdateRequest`: succeeds exactly when the pipeline is started and
      not stopped, and then appends the map to the back of the buffer;
      otherwise nothing changes. A null map is accepted like any other. */
  function MapUpdateRequest(s: State, local: Option<Map>): (r: Transition)
    ensures r.rc == Success <==> !s.stopFlag && s.startedOK
    ensures r.next.inputMapBuffer == if r.rc == Success then s.inputMapBuffer + [local] else s.inputMapBuffer
    ensures r.next.(inputMapBuffer := s.inputMapBuffer) == s
    ensures Inv(s) ==> Inv(r.next)
  {
    if s.stopFlag || !s.startedOK then Transition(Error, s)
    else Transition(Success, s.(inputMapBuffer := s.inputMapBuffer + [local]))
  }

  /** The opening test of `processMapUpdate`: the step only yields. */
  predicate WorkerIdle(s: State) {
    s.stopFlag || !s.startedOK || |s.inputMapBuffer| == 0
  }

  /** The map file after `saveToFile` on map `m`: the file holds `m` when
      the save succeeds and is left as it was when it fails. */
  function Saved(stored: Option<Map>, m: Map, c: Collaborators): (f: Option<Map>)
    ensures c.saveToFile(m) ==> f == Some(m)
    ensures !c.saveToFile(m) ==> f == stored
  {
    if c.saveToFile(m) then Some(m) else stored
  }

  /** The transform the local map is registered with: the one `detect` finds
      for a floating map, the parent transform of a fixed one. */
  function FoundTransform(global: Map, local: Map, c: Collaborators): Option<Transform> {
    if local.coordinateSystem.floating then c.detect(global, local)
    else Some(local.coordinateSystem.parentTransform)
  }

  /** The local map as handed to `merge`: a floating map has received the
      detected transform as its parent transform. */
  function Registered(local: Map, t: Transform): Map {
    if local.coordinateSystem.floating then local.WithParentTransform(t) else local
  }

  /** The head of the call trace on the fusion path: `detect` once for a
      floating map, then `merge` once with the transform found or the fixed
      parent one. */
  function RegistrationCalls(local: Map, t: Transform): (calls: seq<Call>)
    ensures |calls| == if local.coordinateSystem.floating then 2 else 1
    ensures local.coordinateSystem.floating ==> calls[0] == Detect
    ensures (Detect in calls) == local.coordinateSystem.floating
    ensures calls[|calls| - 1] == Merge(t)
    ensures forall i :: 0 <= i < |calls| ==> calls[i].Detect? || calls[i].Merge?
  {
    (if local.coordinateSystem.floating then [Detect] else []) + [Merge(t)]
  }

  /** The work after a successful merge: collect the new keyframe ids, run
      the map update, bundle adjustment and both prunings on the global map
      `merge` left, then save it. */
  function Commit(s1: State, merged: MergeOutcome, prefix: seq<Call>, c: Collaborators): (r: StepResult)
    requires merged.Merged?
    ensures r.outcome == Fused
    ensures |r.calls| == |prefix| + 5 && r.calls[..|prefix|] == prefix
    ensures r.calls[|prefix|].Update?
    ensures var ids := r.calls[|prefix|].newKeyframeIds;
      |ids| == |merged.local.keyframes| &&
      forall i :: 0 <= i < |ids| ==> ids[i] == merged.local.keyframes[i].id
    ensures r.calls[|prefix| + 1..] == [BundleAdjustment(s1.cameraParams), PointCloudPruning, KeyframePruning, SaveToFile]
    ensures var refined := c.keyframePruning(c.pointCloudPruning(
              c.bundleAdjustment(c.update(merged.global, r.calls[|prefix|].newKeyframeIds), s1.cameraParams)));
      r.next.globalMap == Some(refined) &&
      r.next.storedMap == (if c.saveToFile(refined) then Some(refined) else s1.storedMap)
    ensures r.next.(globalMap := s1.globalMap, storedMap := s1.storedMap) == s1
  {
    var ids := KeyframeIds(merged.local.keyframes);
    var updated := c.update(merged.global, ids);
    var adjusted := c.bundleAdjustment(updated, s1.cameraParams);
    var pruned := c.keyframePruning(c.pointCloudPruning(adjusted));
    StepResult(Fused,
               prefix + [Update(ids), BundleAdjustment(s1.cameraParams), PointCloudPruning, KeyframePruning, SaveToFile],
               s1.(globalMap := Some(pruned), storedMap := Saved(s1.storedMap, pruned, c)))
  }

  /** The fusion path of `processMapUpdate`, from the state `s1` in which the
      local map has already been popped. */
  function Fuse(s1: State, global: Map, local: Map, c: Collaborators): (r: StepResult)
    ensures r.outcome == NoOverlap || r.outcome == MergeFailed || r.outcome == Fused
    ensures |r.calls| > 0
    ensures (Detect in r.calls) <==> local.coordinateSystem.floating
    ensures r.outcome == NoOverlap <==> local.coordinateSystem.floating && c.detect(global, local).None?
    ensures r.outcome == NoOverlap ==> r.next == s1 && r.calls == [Detect]
    ensures !local.coordinateSystem.floating ==> r.calls[0] == Merge(local.coordinateSystem.parentTransform)
    ensures local.coordinateSystem.floating && r.outcome != NoOverlap ==>
      |r.calls| >= 2 && r.calls[..2] == [Detect, Merge(c.detect(global, local).value)]
    ensures r.outcome == MergeFailed ==>
      |r.calls| == (if local.coordinateSystem.floating then 2 else 1) && r.calls[|r.calls| - 1].Merge?
    ensures r.outcome == Fused ==>
      |r.calls| == (if local.coordinateSystem.floating then 7 else 6)
    ensures r.outcome != NoOverlap ==>
      var t := FoundTransform(global, local, c).value;
      var merged := c.merge(Registered(local, t), global, t);
      && (r.outcome == MergeFailed <==> merged.NotMerged?)
      && (merged.NotMerged? ==> r.next == s1.(globalMap := Some(merged.global)))
      && (merged.Merged? ==> r == Commit(s1, merged, RegistrationCalls(local, t), c))
    ensures SaveToFile in r.calls <==> r.outcome == Fused
  {
    match FoundTransform(global, local, c)
    case None => StepResult(NoOverlap, [Detect], s1)
    case Some(t) =>
      var prefix := RegistrationCalls(local, t);
      var merged := c.merge(Registered(local, t), global, t);
      if merged.NotMerged? then StepResult(MergeFailed, prefix, s1.(globalMap := Some(merged.global)))
      else Commit(s1, merged, prefix, c)
  }

  /** One run of the worker routine `processMapUpdate`. */
  function ProcessMapUpdate(s: State, c: Collaborators): (r: StepResult)
    ensures r.outcome == Yielded <==> WorkerIdle(s)
    ensures r.outcome == Yielded ==> r.next == s && r.calls == []
    ensures r.outcome != Yielded ==> |s.inputMapBuffer| > 0 && r.next.inputMapBuffer == s.inputMapBuffer[1..]
    ensures r.next.(inputMapBuffer := s.inputMapBuffer, globalMap := s.globalMap, storedMap := s.storedMap) == s
    ensures r.outcome == DroppedNull <==> !WorkerIdle(s) && s.inputMapBuffer[0].None?
    ensures r.outcome == NullGlobalMap <==> !WorkerIdle(s) && s.inputMapBuffer[0].Some? && s.globalMap.None?
    ensures r.outcome in {DroppedNull, NullGlobalMap, NoOverlap} ==>
      r.next.globalMap == s.globalMap && r.next.storedMap == s.storedMap
    ensures r.outcome in {DroppedNull, NullGlobalMap} ==> r.calls == []
    ensures r.outcome == Bootstrapped <==>
      !WorkerIdle(s) && s.inputMapBuffer[0].Some? && s.globalMap.Some? && s.globalMap.value.nbPoints == 0
    ensures r.outcome == Bootstrapped ==>
      r.next.globalMap == s.inputMapBuffer[0] &&
      r.next.storedMap == (if c.saveToFile(s.inputMapBuffer[0].value) then s.inputMapBuffer[0] else s.storedMap) &&
      r.calls == [SetMap, SaveToFile]
    ensures !WorkerIdle(s) && s.inputMapBuffer[0].Some? && s.globalMap.Some? && s.globalMap.value.nbPoints > 0 ==>
      r == Fuse(s.(inputMapBuffer := s.inputMapBuffer[1..]), s.globalMap.value, s.inputMapBuffer[0].value, c)
    ensures (Detect in r.calls) <==>
      r.outcome in {NoOverlap, MergeFailed, Fused} && s.inputMapBuffer[0].value.coordinateSystem.floating
    ensures SaveToFile in r.calls <==> r.outcome in {Bootstrapped, Fused}
    ensures SaveToFile in r.calls ==>
      r.calls[|r.calls| - 1] == SaveToFile && r.next.globalMap.Some? &&
      r.next.storedMap == (if c.saveToFile(r.next.globalMap.value) then r.next.globalMap else s.storedMap)
    ensures SaveToFile !in r.calls ==> r.next.storedMap == s.storedMap
    ensures s.globalMap.Some? ==> r.next.globalMap.Some?
    ensures Inv(s) ==> Inv(r.next)
  {
    if WorkerIdle(s) then StepResult(Yielded, [], s)
    else
      var s1 := s.(inputMapBuffer := s.inputMapBuffer[1..]);
      match s.inputMapBuffer[0]
      case None => StepResult(DroppedNull, [], s1)
      case Some(local) =>
        match s.globalMap
        case None => StepResult(NullGlobalMap, [], s1)
        case Some(global) =>
          if global.nbPoints == 0 then
            StepResult(Bootstrapped, [SetMap, SaveToFile], s1.(globalMap := Some(local), storedMap := Saved(s.storedMap, local, c)))
          else
            Fuse(s1, global, local, c)
  }
}
