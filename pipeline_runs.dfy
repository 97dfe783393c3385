/** Sequences of facade calls and worker steps, and what holds across them:
    the input buffer is first-in-first-out and loses or duplicates nothing,
    a stopped pipeline stays stopped until `init`, and the state invariant
    holds throughout. */
module PipelineRuns {
  import opened MapData
  import opened Components
  import opened PipelineState

  /** One call on the pipeline: a facade operation, or one worker step with
      what its collaborators do. */
  datatype Op =
    | InitOp
    | SetCameraParametersOp(p: CameraParameters)
    | StartOp
    | StopOp
    | MapUpdateRequestOp(local: Option<Map>)
    | GetMapRequestOp
    | ProcessOp(c: Collaborators)

  function Apply(s: State, op: Op): State {
    match op
    case InitOp => Init(s).next
    case SetCameraParametersOp(p) => SetCameraParameters(s, p).next
    case StartOp => Start(s).next
    case StopOp => Stop(s).next
    case MapUpdateRequestOp(local) => MapUpdateRequest(s, local).next
    case GetMapRequestOp => s
    case ProcessOp(c) => ProcessMapUpdate(s, c).next
  }

  /** The state after performing `ops` in order. */
  function Run(s: State, ops: seq<Op>): State
    decreases |ops|
  {
    if ops == [] then s else Run(Apply(s, ops[0]), ops[1..])
  }

  /** The entry `op` appends to the buffer: the map of an accepted request. */
  function Enqueued(s: State, op: Op): seq<Option<Map>> {
    match op
    case MapUpdateRequestOp(local) => if MapUpdateRequest(s, local).rc == Success then [local] else []
    case _ => []
  }

  /** The entry `op` takes from the buffer: the front, for a worker step that
      does not yield. */
  function Dequeued(s: State, op: Op): seq<Option<Map>> {
    match op
    case ProcessOp(c) => if ProcessMapUpdate(s, c).outcome == Yielded then [] else [s.inputMapBuffer[0]]
    case _ => []
  }

  /** The entries accepted by the requests of a run, in order. */
  function Accepted(s: State, ops: seq<Op>): seq<Option<Map>>
    decreases |ops|
  {
    if ops == [] then [] else Enqueued(s, ops[0]) + Accepted(Apply(s, ops[0]), ops[1..])
  }

  /** The entries the worker steps of a run take from the buffer, in order. */
  function Consumed(s: State, ops: seq<Op>): seq<Option<Map>>
    decreases |ops|
  {
    if ops == [] then [] else Dequeued(s, ops[0]) + Consumed(Apply(s, ops[0]), ops[1..])
  }

  predicate NoInit(ops: seq<Op>) {
    forall i :: 0 <= i < |ops| ==> !ops[i].InitOp?
  }

  predicate NoWorkerStep(ops: seq<Op>) {
    forall i :: 0 <= i < |ops| ==> !ops[i].ProcessOp?
  }

  /** One operation either appends one entry, takes the front entry, or
      leaves the buffer alone. */
  lemma StepConservesEntries(s: State, op: Op)
    ensures s.inputMapBuffer + Enqueued(s, op) == Dequeued(s, op) + Apply(s, op).inputMapBuffer
  {
  }

  /** First in, first out, nothing lost or duplicated: what was queued plus
      what was accepted is exactly what the worker consumed followed by what
      is still queued. */
  lemma {:induction false} FifoConservation(s: State, ops: seq<Op>)
    ensures s.inputMapBuffer + Accepted(s, ops) == Consumed(s, ops) + Run(s, ops).inputMapBuffer
    decreases |ops|
  {
    if ops != [] {
      var s1 := Apply(s, ops[0]);
      StepConservesEntries(s, ops[0]);
      FifoConservation(s1, ops[1..]);
      var a, d := Enqueued(s, ops[0]), Dequeued(s, ops[0]);
      var acc, con := Accepted(s1, ops[1..]), Consumed(s1, ops[1..]);
      assert Accepted(s, ops) == a + acc;
      assert Consumed(s, ops) == d + con;
      assert Run(s, ops) == Run(s1, ops[1..]);
      SeqRegroup(s.inputMapBuffer, a, acc, d, s1.inputMapBuffer, con, Run(s1, ops[1..]).inputMapBuffer);
    }
  }

  /** Regrouping the two sides of one step of FifoConservation. */
  lemma SeqRegroup<T>(b: seq<T>, a: seq<T>, acc: seq<T>, d: seq<T>, b1: seq<T>, con: seq<T>, rest: seq<T>)
    requires b + a == d + b1
    requires b1 + acc == con + rest
    ensures b + (a + acc) == (d + con) + rest
  {
    calc {
      b + (a + acc);
      (b + a) + acc;
      (d + b1) + acc;
      d + (b1 + acc);
      d + (con + rest);
    }
  }

  /** Maps are consumed in submission order, each at most once: the consumed
      entries are a prefix of the queued-then-accepted ones. */
  lemma ConsumedInSubmissionOrder(s: State, ops: seq<Op>)
    ensures |Consumed(s, ops)| <= |s.inputMapBuffer| + |Accepted(s, ops)|
    ensures Consumed(s, ops) == (s.inputMapBuffer + Accepted(s, ops))[..|Consumed(s, ops)|]
  {
    FifoConservation(s, ops);
    var consumed := Consumed(s, ops);
    assert (consumed + Run(s, ops).inputMapBuffer)[..|consumed|] == consumed;
  }

  /** While the pipeline runs, `k` worker steps take exactly the first `k`
      queued entries, one per step. */
  lemma {:induction false} DrainInOrder(s: State, ops: seq<Op>)
    requires !s.stopFlag && s.startedOK
    requires forall i :: 0 <= i < |ops| ==> ops[i].ProcessOp?
    requires |ops| <= |s.inputMapBuffer|
    ensures Consumed(s, ops) == s.inputMapBuffer[..|ops|]
    ensures Run(s, ops).inputMapBuffer == s.inputMapBuffer[|ops|..]
    decreases |ops|
  {
    if ops != [] {
      var s1 := Apply(s, ops[0]);
      assert s1.inputMapBuffer == s.inputMapBuffer[1..];
      DrainInOrder(s1, ops[1..]);
      assert s.inputMapBuffer[..|ops|] == [s.inputMapBuffer[0]] + s1.inputMapBuffer[..|ops| - 1];
      assert s.inputMapBuffer[|ops|..] == s1.inputMapBuffer[|ops| - 1..];
    }
  }

  /** Once stopped, the pipeline accepts no map and cannot be started again
      until `init` is called. */
  lemma {:induction false} StoppedStaysStopped(s: State, ops: seq<Op>)
    requires s.stopFlag
    requires NoInit(ops)
    ensures Run(s, ops).stopFlag
    ensures Accepted(s, ops) == []
    ensures Start(Run(s, ops)).rc == Error
    decreases |ops|
  {
    if ops != [] {
      assert NoInit(ops[1..]) by {
        forall i | 0 <= i < |ops| - 1 ensures !ops[1..][i].InitOp? {
          assert ops[1..][i] == ops[i + 1];
        }
      }
      StoppedStaysStopped(Apply(s, ops[0]), ops[1..]);
    }
  }

  /** `start` after `stop` fails, whatever else happens in between, as long
      as `init` is not called. */
  lemma StartAfterStopFails(s: State, ops: seq<Op>)
    requires NoInit(ops)
    ensures Start(Run(Stop(s).next, ops)).rc == Error
  {
    StoppedStaysStopped(Stop(s).next, ops);
  }

  /** `init` re-enables `start` after a `stop`. */
  lemma InitReenablesStart(s: State)
    ensures Start(Stop(s).next).rc == Error
    ensures Start(Init(Stop(s).next).next).rc == Success
  {
  }

  /** `init` after `start` un-starts the pipeline: a request then fails and
      queues nothing. */
  lemma InitUnstarts(s: State, local: Option<Map>)
    requires Start(s).rc == Success
    ensures MapUpdateRequest(Start(s).next, local).rc == Success
    ensures var r := MapUpdateRequest(Init(Start(s).next).next, local);
      r.rc == Error && r.next.inputMapBuffer == s.inputMapBuffer
  {
  }

  /** Calling `init`, `start` or `stop` twice has the effect of calling it once. */
  lemma SecondCallChangesNothing(s: State)
    ensures Init(Init(s).next) == Init(s)
    ensures Start(Start(s).next) == Start(s)
    ensures Stop(Stop(s).next) == Stop(s)
  {
  }

  /** Every operation keeps the state invariant. */
  lemma {:induction false} RunPreservesInv(s: State, ops: seq<Op>)
    requires Inv(s)
    ensures Inv(Run(s, ops))
    decreases |ops|
  {
    if ops != [] {
      RunPreservesInv(Apply(s, ops[0]), ops[1..]);
    }
  }

  /** Once the pipeline is initialised, facade calls never change the global
      map or the map file: only worker steps do. */
  lemma {:induction false} OnlyWorkerWritesMaps(s: State, ops: seq<Op>)
    requires s.init
    requires NoWorkerStep(ops)
    ensures Run(s, ops).globalMap == s.globalMap
    ensures Run(s, ops).storedMap == s.storedMap
    decreases |ops|
  {
    if ops != [] {
      assert NoWorkerStep(ops[1..]) by {
        forall i | 0 <= i < |ops| - 1 ensures !ops[1..][i].ProcessOp? {
          assert ops[1..][i] == ops[i + 1];
        }
      }
      OnlyWorkerWritesMaps(Apply(s, ops[0]), ops[1..]);
    }
  }

  /** A reachable state in which the worker cannot run before the global map
      exists. */
  predicate LoadedBeforeRunnable(s: State) {
    Inv(s) && (s.globalMap.None? ==> s.stopFlag)
  }

  lemma StepKeepsLoadedBeforeRunnable(s: State, op: Op)
    requires LoadedBeforeRunnable(s)
    ensures LoadedBeforeRunnable(Apply(s, op))
  {
  }

  lemma {:induction false} RunKeepsLoadedBeforeRunnable(s: State, ops: seq<Op>)
    requires LoadedBeforeRunnable(s)
    ensures LoadedBeforeRunnable(Run(s, ops))
    decreases |ops|
  {
    if ops != [] {
      StepKeepsLoadedBeforeRunnable(s, ops[0]);
      RunKeepsLoadedBeforeRunnable(Apply(s, ops[0]), ops[1..]);
    }
  }

  /** Built with the stop flag raised, the pipeline never reaches the worker's
      dereference of a null global map, whatever is called. */
  lemma BuiltStoppedNeverDereferencesNull(persisted: Option<Map>, ops: seq<Op>, c: Collaborators)
    ensures ProcessMapUpdate(Run(Initial(true, persisted), ops), c).outcome != NullGlobalMap
  {
    RunKeepsLoadedBeforeRunnable(Initial(true, persisted), ops);
  }

  /** Built with the stop flag lowered, `start` succeeds before `init`, and
      the first worker step on a submitted map reaches the null global map. */
  lemma BuiltRunnableDereferencesNull(persisted: Option<Map>, m: Map, c: Collaborators)
    ensures var s := Run(Initial(false, persisted), [StartOp, MapUpdateRequestOp(Some(m))]);
      s.inputMapBuffer == [Some(m)] && ProcessMapUpdate(s, c).outcome == NullGlobalMap
  {
    var s0 := Initial(false, persisted);
    var s1 := Apply(s0, StartOp);
    var s2 := Apply(s1, MapUpdateRequestOp(Some(m)));
    assert Run(s0, [StartOp, MapUpdateRequestOp(Some(m))]) == Run(s1, [MapUpdateRequestOp(Some(m))]);
    assert Run(s1, [MapUpdateRequestOp(Some(m))]) == Run(s2, []);
  }
}
