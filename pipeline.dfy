/** `PipelineMapUpdateProcessing`: the facade of the map-update pipeline and
    its worker routine, over fields the methods update in place. Every
    method is proved to perform the transition of module PipelineState. */
module Pipeline {
  import opened MapData
  import opened Components
  import opened PipelineState

  /** The loop that turns the new keyframes into their identifiers, one
      `push_back` per keyframe. */
  method CollectNewKeyframeIds(newKeyframes: seq<Keyframe>) returns (newKeyframeIds: seq<KeyframeId>)
    ensures |newKeyframeIds| == |newKeyframes|
    ensures forall i :: 0 <= i < |newKeyframes| ==> newKeyframeIds[i] == newKeyframes[i].id
    ensures newKeyframeIds == KeyframeIds(newKeyframes)
  {
    newKeyframeIds := [];
    var k := 0;
    while k < |newKeyframes|
      invariant 0 <= k <= |newKeyframes|
      invariant |newKeyframeIds| == k
      invariant forall i :: 0 <= i < k ==> newKeyframeIds[i] == newKeyframes[i].id
    {
      newKeyframeIds := newKeyframeIds + [newKeyframes[k].id];
      k := k + 1;
    }
  }

  class PipelineMapUpdateProcessing {
    var init: bool
    var cameraParametersSet: bool
    var startedOK: bool
    var stopFlag: bool
    var cameraParams: CameraParameters
    /** The parameters last forwarded to the overlap detector and the map updater. */
    var detectorCamera: Option<CameraParameters>
    var updaterCamera: Option<CameraParameters>
    var mapUpdateTask: TaskState
    /** The global map; the same object as the map manager's current map. */
    var globalMap: Option<Map>
    /** The FIFO of submitted maps, front first. */
    var inputMapBuffer: seq<Option<Map>>
    /** The map file the map manager loads from and saves to. */
    var storedMap: Option<Map>

    /** The fields as one value. */
    function State(): State
      reads this
    {
      PipelineState.State(init, cameraParametersSet, startedOK, stopFlag, cameraParams,
                          detectorCamera, updaterCamera, mapUpdateTask, globalMap, inputMapBuffer, storedMap)
    }

    predicate Valid()
      reads this
    {
      Inv(State())
    }

    /** The constructor only wires the components; the flags start false. */
    constructor(initialStopFlag: bool, persisted: Option<Map>)
      ensures Valid()
      ensures State() == Initial(initialStopFlag, persisted)
    {
      init, cameraParametersSet, startedOK := false, false, false;
      stopFlag := initialStopFlag;
      cameraParams := DefaultCameraParameters;
      detectorCamera, updaterCamera := None, None;
      mapUpdateTask := NoTask;
      globalMap := None;
      inputMapBuffer := [];
      storedMap := persisted;
    }

    method Init() returns (rc: ReturnCode)
      requires Valid()
      modifies this
      ensures Valid()
      ensures Transition(rc, State()) == PipelineState.Init(old(State()))
      ensures rc == Success && !stopFlag && !startedOK
      ensures old(init) ==> globalMap == old(globalMap)
    {
      if !init {
        // loadFromFile, then getMap(m_globalMap)
        globalMap := Some(LoadedMap(storedMap));
        init := true;
      }
      stopFlag := false;
      startedOK := false;
      rc := Success;
    }

    method SetCameraParameters(p: CameraParameters) returns (rc: ReturnCode)
      requires Valid()
      modifies this
      ensures Valid()
      ensures Transition(rc, State()) == PipelineState.SetCameraParameters(old(State()), p)
    {
      cameraParams := p;
      detectorCamera := Some(p);
      updaterCamera := Some(p);
      rc := Success;
    }

    method Start() returns (rc: ReturnCode)
      requires Valid()
      modifies this
      ensures Valid()
      ensures Transition(rc, State()) == PipelineState.Start(old(State()))
      ensures rc == Error <==> old(stopFlag)
    {
      if stopFlag {
        return Error;
      }
      mapUpdateTask := TaskRunning;
      startedOK := true;
      rc := Success;
    }

    method Stop() returns (rc: ReturnCode)
      requires Valid()
      modifies this
      ensures Valid()
      ensures Transition(rc, State()) == PipelineState.Stop(old(State()))
      ensures stopFlag && startedOK == old(startedOK)
      ensures rc == Error <==> !old(startedOK)
    {
      stopFlag := true;
      if mapUpdateTask != NoTask {
        mapUpdateTask := TaskStopped;
      }
      if !startedOK {
        return Error;
      }
      rc := Success;
    }

    method MapUpdateRequest(local: Option<Map>) returns (rc: ReturnCode)
      requires Valid()
      modifies this
      ensures Valid()
      ensures Transition(rc, State()) == PipelineState.MapUpdateRequest(old(State()), local)
      ensures rc == Success <==> inputMapBuffer == old(inputMapBuffer) + [local]
      ensures rc == Error ==> inputMapBuffer == old(inputMapBuffer)
    {
      if stopFlag || !startedOK {
        return Error;
      }
      inputMapBuffer := inputMapBuffer + [local];
      rc := Success;
    }

    /** A `const` query: hands back the current global map. */
    method GetMapRequest() returns (rc: ReturnCode, map': Option<Map>)
      ensures rc == Success
      ensures map' == globalMap
    {
      map' := globalMap;
      rc := Success;
    }

    /** One invocation of `processMapUpdate` by the worker task, as one
        atomic step; `c` gives what the collaborators do during it. */
    method ProcessMapUpdate(c: Collaborators) returns (outcome: StepOutcome, calls: seq<Call>)
      requires Valid()
      modifies this
      ensures Valid()
      ensures StepResult(outcome, calls, State()) == PipelineState.ProcessMapUpdate(old(State()), c)
    {
      ghost var s := State();
      calls := [];
      if stopFlag || !startedOK || |inputMapBuffer| == 0 {
        return Yielded, calls;
      }
      var entry := inputMapBuffer[0];
      inputMapBuffer := inputMapBuffer[1..];
      ghost var s1 := State();
      if entry.None? {
        return DroppedNull, calls;
      }
      var local := entry.value;
      if globalMap.None? {
        return NullGlobalMap, calls;
      }
      var global := globalMap.value;
      if global.nbPoints == 0 {
        // setMap(map), getMap(m_globalMap), saveToFile()
        globalMap := Some(local);
        if c.saveToFile(local) {
          storedMap := Some(local);
        }
        return Bootstrapped, [SetMap, SaveToFile];
      }
      assert PipelineState.ProcessMapUpdate(s, c) == Fuse(s1, global, local, c);

      var submitted := local;
      var transform: Transform;
      if local.coordinateSystem.floating {
        var found := c.detect(global, local);
        if found.None? {
          return NoOverlap, [Detect];
        }
        transform := found.value;
        local := local.WithParentTransform(transform);
      } else {
        transform := local.coordinateSystem.parentTransform;
      }
      calls := RegistrationCalls(submitted, transform);

      var merged := c.merge(local, global, transform);
      if merged.NotMerged? {
        globalMap := Some(merged.global);
        return MergeFailed, calls;
      }
      assert Fuse(s1, global, submitted, c) == Commit(s1, merged, calls, c);

      var newKeyframeIds := CollectNewKeyframeIds(merged.local.keyframes);
      var updated := c.update(merged.global, newKeyframeIds);
      var adjusted := c.bundleAdjustment(updated, cameraParams);
      var pruned := c.keyframePruning(c.pointCloudPruning(adjusted));
      globalMap := Some(pruned);
      if c.saveToFile(pruned) {
        storedMap := globalMap;
      }
      calls := calls + [Update(newKeyframeIds), BundleAdjustment(cameraParams), PointCloudPruning, KeyframePruning, SaveToFile];
      outcome := Fused;
    }
  }
}
