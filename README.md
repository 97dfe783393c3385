# Map-update pipeline: a Dafny model of `PipelineMapUpdateProcessing`

This project models the SolAR map-update pipeline component
`PipelineMapUpdateProcessing` and proves properties about it. The component
is a facade with a lifecycle (`init`, `setCameraParameters`, `start`, `stop`),
a request that submits a local map (`mapUpdateRequest`), a query for the global
map (`getMapRequest`) and a first-in-first-out buffer of submitted maps. A
worker routine (`processMapUpdate`) drains that buffer one entry per call. For
each popped map the worker either initialises the global map from it
(bootstrap) or fuses it into the global map: it detects overlap, merges, runs
the map update and bundle adjustment, prunes, and saves the map file.

Layout:

- `map_data.dfy` (module `MapData`): the parts of SolAR's `Map`, `Keyframe`,
  `CoordinateSystem`, `Transform3Df` and `CameraParameters` that the control
  flow reads. A point cloud is kept only as its size. Transforms and camera
  parameters are opaque tokens. A nullable `SRef` is an `Option`.
- `components.dfy` (module `Components`): the injected components, seen only
  through their outcomes. `Collaborators` gives arbitrary total functions for
  `detect`, `merge`, `update`, bundle adjustment, the two prunings and the
  success of `saveToFile`.
  `Call` records, in order, which components a worker step calls and with
  which arguments.
- `pipeline_state.dfy` (module `PipelineState`): the component's fields as one
  value `State`, plus the state of the map file. Each operation is a pure
  transition on that value. The contracts of these transitions state the
  properties of the single operations.
- `pipeline.dfy` (module `Pipeline`): the class `PipelineMapUpdateProcessing`.
  Its fields are updated in place by its methods. Each method is proved to
  perform exactly its transition from `PipelineState`. Each method also keeps
  the class invariant `Valid()`. The keyframe-id loop is a method with loop
  invariants.
- `pipeline_runs.dfy` (module `PipelineRuns`): runs of many calls, as a
  sequence of `Op`s. The lemmas here cover several calls: the buffer is FIFO
  and loses or duplicates nothing, a stopped pipeline stays stopped until
  `init`, the invariant holds throughout, and when a null global map can be
  reached.

Modelling decisions:

- `m_stopFlag` is used by the code but is not declared in the header. Its
  initial value is a constructor parameter (`initialStopFlag`). If it starts
  false, `start` succeeds before `init`. The first worker step on a submitted
  map then dereferences the still-null global map
  (`PipelineRuns.BuiltRunnableDereferencesNull`). If it starts true, this can
  never happen (`PipelineRuns.BuiltStoppedNeverDereferencesNull`). The model
  records this case as the step outcome `NullGlobalMap`. In that outcome the
  popped entry is gone and nothing else has changed.
- `m_mapUpdateTask` is never initialised. The model takes it to start as "no
  task" (`NoTask`). `start` creates a running task. `stop` stops it, if a task
  exists.
- The map manager's `getMap` hands out its shared map. From `init` on,
  `m_globalMap` and the manager's current map are therefore one object, and
  the model keeps them as one value, `globalMap`. The map file is
  `storedMap`. `None` means no file could be loaded; then `init` takes the
  manager's empty map.
- `merge` receives both maps by shared reference and may change them in place.
  After a failed merge, the global map is whatever `merge` left; the model
  does not assume it is unchanged. After a successful merge, the new keyframe
  ids are read from the local map as `merge` left it. This matches line 163,
  which runs after the merge.
- For a floating map, `setParentTransform` is modelled as changing only the
  parent transform. Whether it also clears the floating flag is decided inside
  `CoordinateSystem`, and `CoordinateSystem` is not part of this model. The
  choice cannot change any result of the model: the registered map is passed
  only to `merge`, and `merge` is an arbitrary function of its arguments.
- `saveToFile` may fail, and both calls to it (lines 128 and 180) ignore its
  return code. A failed save leaves the map file as it was, while the global
  map has already moved on. A successful save writes the global map.
- The header declares `m_setCameraParameters`, but no operation ever writes it.
  It is false in every state (`PipelineState.Inv`).

What the code does where a reader might expect otherwise (the model follows
the code):

- `start` checks only the stop flag. Its warning "Must initialize before
  starting" (line 68) suggests a check that `init` ran, but `init` clears the
  stop flag and nothing else is tested. Whether camera parameters were set is
  not checked either.
- `init` does not start the worker. Each `start` creates a new task.
- `stop` returns an error when the pipeline was never started. It raises the
  stop flag in every case.
- The error bundle adjustment returns is only logged; nothing depends on it.
- The worker fuses into the in-memory global map; it does not reload the
  file first.
- The doc comment of `getMapRequest` (header line 93) promises `_ERROR_`
  when no global map is available. The code (lines 103-110) always returns
  `_SUCCESS`, also before `init`, when `m_globalMap` is still null.
- `getSubmapRequest` is declared (header lines 100-101) but has no
  implementation. There is no map reset operation.

## Model

| member | source | states |
|---|---|---|
| MapData.KeyframeIds | SolARPipeline_MapUpdate/src/PipelineMapUpdateProcessing.cpp:162-166 | the id list has the keyframe list's length and order, `ids[i] == keyframes[i].id` |
| MapData.Map.WithParentTransform | SolARPipeline_MapUpdate/src/PipelineMapUpdateProcessing.cpp:139 | setting the parent transform changes that transform only; points and keyframes are kept |
| PipelineState.Initial | SolARPipeline_MapUpdate/interfaces/PipelineMapUpdateProcessing.h:108-110 | a fresh pipeline has `m_init`, `m_setCameraParameters` and `m_startedOK` false, no global map, an empty buffer and no task, and satisfies the invariant |
| PipelineState.LoadedMap | SolARPipeline_MapUpdate/src/PipelineMapUpdateProcessing.cpp:44-45 | loading yields the file's map, or with no file an empty map (no points, no keyframes) |
| PipelineState.Init | SolARPipeline_MapUpdate/src/PipelineMapUpdateProcessing.cpp:40-53 | always succeeds; loads the global map on the first call only and leaves it untouched on later calls; always clears the stop and started flags; changes nothing else; keeps the invariant |
| PipelineState.SetCameraParameters | SolARPipeline_MapUpdate/src/PipelineMapUpdateProcessing.cpp:55-62 | always succeeds; stores the parameters and forwards them to the overlap detector and map updater; changes nothing else |
| PipelineState.Start | SolARPipeline_MapUpdate/src/PipelineMapUpdateProcessing.cpp:64-78 | fails exactly when the stop flag is set, and then changes nothing; on success the pipeline is started with a running task; changes nothing else |
| PipelineState.Stop | SolARPipeline_MapUpdate/src/PipelineMapUpdateProcessing.cpp:80-93 | always sets the stop flag and stops an existing task; fails exactly when the pipeline was not started; never clears `m_startedOK` |
| PipelineState.MapUpdateRequest | SolARPipeline_MapUpdate/src/PipelineMapUpdateProcessing.cpp:95-101 | succeeds exactly when started and not stopped, and then appends exactly that map to the back of the buffer; on error the buffer and all else are unchanged |
| PipelineState.Saved | SolARPipeline_MapUpdate/src/PipelineMapUpdateProcessing.cpp:128 | a save that succeeds leaves the file holding the map; one that fails leaves the file as it was (the same call ends line 180) |
| PipelineState.RegistrationCalls | SolARPipeline_MapUpdate/src/PipelineMapUpdateProcessing.cpp:132-153 | for a floating map the trace is `detect` then `merge` with the chosen transform; for a fixed map it is `merge` alone; each is called at most once |
| PipelineState.Commit | SolARPipeline_MapUpdate/src/PipelineMapUpdateProcessing.cpp:161-180 | after a merge: `update` gets the ids of the merged local map's keyframes in order, then bundle adjustment with the stored camera parameters, both prunings and the save, in that order; the new global map is exactly `keyframePruning(pointCloudPruning(bundleAdjustment(update(g, ids), camera)))` for the global map `g` merge left; the file holds that map when the save succeeds and is unchanged when it fails; nothing else changes |
| PipelineState.Fuse | SolARPipeline_MapUpdate/src/PipelineMapUpdateProcessing.cpp:132-156 | for a non-floating map `detect` is not called and `merge` gets its parent transform; a failed detection ends the step with both maps and the file unchanged; the merge gets the local map with the detected transform set; a failed merge makes one or two calls, keeps the global map merge left and leaves the file unchanged; a successful merge is followed by `Commit` on merge's result, for six or seven calls in all; only a full fusion saves |
| PipelineState.ProcessMapUpdate | SolARPipeline_MapUpdate/src/PipelineMapUpdateProcessing.cpp:112-130 | stopped, not started or empty buffer: nothing changes and nothing is called; otherwise exactly the front entry is removed; a null entry changes nothing else; an empty global map is replaced by the popped map, which is then saved, without `detect` or `merge`; a non-empty global map takes the `Fuse` path; the file changes only through a final, successful save of the global map; flags never change |
| Pipeline.CollectNewKeyframeIds | SolARPipeline_MapUpdate/src/PipelineMapUpdateProcessing.cpp:161-166 | the loop builds the id list in keyframe order, one id per keyframe |
| Pipeline.PipelineMapUpdateProcessing.constructor | SolARPipeline_MapUpdate/interfaces/PipelineMapUpdateProcessing.h:107-126 | builds the initial state with its flags false and an empty buffer |
| Pipeline.PipelineMapUpdateProcessing.Init | SolARPipeline_MapUpdate/src/PipelineMapUpdateProcessing.cpp:40-53 | performs `PipelineState.Init` on the fields; a second call keeps the global map |
| Pipeline.PipelineMapUpdateProcessing.SetCameraParameters | SolARPipeline_MapUpdate/src/PipelineMapUpdateProcessing.cpp:55-62 | performs `PipelineState.SetCameraParameters` on the fields |
| Pipeline.PipelineMapUpdateProcessing.Start | SolARPipeline_MapUpdate/src/PipelineMapUpdateProcessing.cpp:64-78 | performs `PipelineState.Start`; fails exactly when the stop flag was set |
| Pipeline.PipelineMapUpdateProcessing.Stop | SolARPipeline_MapUpdate/src/PipelineMapUpdateProcessing.cpp:80-93 | performs `PipelineState.Stop`; the stop flag ends up set and `m_startedOK` is kept |
| Pipeline.PipelineMapUpdateProcessing.MapUpdateRequest | SolARPipeline_MapUpdate/src/PipelineMapUpdateProcessing.cpp:95-101 | performs `PipelineState.MapUpdateRequest`; succeeds exactly when the map was enqueued at the back |
| Pipeline.PipelineMapUpdateProcessing.GetMapRequest | SolARPipeline_MapUpdate/src/PipelineMapUpdateProcessing.cpp:103-110 | always succeeds and returns the current global map, changing no state |
| Pipeline.PipelineMapUpdateProcessing.ProcessMapUpdate | SolARPipeline_MapUpdate/src/PipelineMapUpdateProcessing.cpp:112-181 | one worker step performs `PipelineState.ProcessMapUpdate` on the fields, and reports the path taken and the calls made |
| PipelineRuns.StepConservesEntries | SolARPipeline_MapUpdate/src/PipelineMapUpdateProcessing.cpp:95-119 | a single call appends the accepted map, removes the front entry, or leaves the buffer alone |
| PipelineRuns.FifoConservation | SolARPipeline_MapUpdate/interfaces/PipelineMapUpdateProcessing.h:125-126 | over any run, queued plus accepted entries equal consumed entries followed by the entries still queued |
| PipelineRuns.ConsumedInSubmissionOrder | SolARPipeline_MapUpdate/interfaces/PipelineMapUpdateProcessing.h:125-126 | the consumed entries are a prefix of the submitted ones: they come in submission order and each at most once |
| PipelineRuns.DrainInOrder | SolARPipeline_MapUpdate/src/PipelineMapUpdateProcessing.cpp:114-119 | in a running pipeline, `k` worker steps consume exactly the first `k` queued entries, one per step |
| PipelineRuns.StoppedStaysStopped | SolARPipeline_MapUpdate/src/PipelineMapUpdateProcessing.cpp:64-70 | once the stop flag is set and `init` is not called, it stays set, no map is accepted, and `start` fails |
| PipelineRuns.StartAfterStopFails | SolARPipeline_MapUpdate/src/PipelineMapUpdateProcessing.cpp:64-82 | `start` after `stop` fails, whatever happens in between, until `init` is called |
| PipelineRuns.InitReenablesStart | SolARPipeline_MapUpdate/src/PipelineMapUpdateProcessing.cpp:49-66 | `start` fails right after `stop`, and succeeds after a following `init` |
| PipelineRuns.InitUnstarts | SolARPipeline_MapUpdate/src/PipelineMapUpdateProcessing.cpp:49-98 | after `start` a request succeeds; after `start` then `init` it fails and queues nothing |
| PipelineRuns.SecondCallChangesNothing | SolARPipeline_MapUpdate/src/PipelineMapUpdateProcessing.cpp:40-93 | calling `init`, `start` or `stop` twice gives the same return code and state as calling it once |
| PipelineRuns.RunPreservesInv | SolARPipeline_MapUpdate/src/PipelineMapUpdateProcessing.cpp:40-130 | over any run, the global map exists exactly after `init`, a started pipeline has a task, and `m_setCameraParameters` stays false |
| PipelineRuns.OnlyWorkerWritesMaps | SolARPipeline_MapUpdate/src/PipelineMapUpdateProcessing.cpp:40-110 | once initialised, no sequence of facade calls changes the global map or the map file |
| PipelineRuns.RunKeepsLoadedBeforeRunnable | SolARPipeline_MapUpdate/src/PipelineMapUpdateProcessing.cpp:40-70 | if the invariant holds and the stop flag is set whenever no global map exists, then this stays true over any run |
| PipelineRuns.BuiltStoppedNeverDereferencesNull | SolARPipeline_MapUpdate/src/PipelineMapUpdateProcessing.cpp:114-124 | built with the stop flag set, no run reaches a worker step on a null global map |
| PipelineRuns.BuiltRunnableDereferencesNull | SolARPipeline_MapUpdate/src/PipelineMapUpdateProcessing.cpp:64-124 | built with the stop flag clear, `start` then a request lead to a worker step on a null global map |

## Left out

- Threading: `xpcf::DelegateTask`, its `start`, `stop` and `yield`, and the
  `m_mutex` declaration. Each `processMapUpdate` call is one atomic step, and
  the model lets a step run at any time, since its opening test decides
  whether anything happens. Tasks leaked by a repeated `start` are not
  modelled, and neither is the destructor's `delete`.
- The geometry inside the injected components: overlap detection, fusion,
  map update, bundle adjustment, pruning and the file format. Only their
  outcomes are modelled, as arbitrary functions. The overlap indices, the
  refined transform, the match count and both error values are only logged,
  and are left out.
- Transform matrices, camera intrinsics and distortion are floating-point
  values. They are opaque tokens here.
- Callers sharing objects with the pipeline: the pipeline holds the caller's
  `SRef`, so the caller sees the parent transform that detection writes into
  its map. The model passes maps by value.
- `getSubmapRequest`, `m_kfRetriever` and `m_nbKeyframeSubmap` are declared
  but have no implementation in the code.
- Logging, module registration, the gRPC server, the remote and test clients
  and the demo programs are outside the component.
