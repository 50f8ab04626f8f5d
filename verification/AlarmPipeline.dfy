/**
  The alarm delta encoding on the pipeline: the update objects of one channel wait in the stream's
  queue and in the workers' queues of Pipeline, while the idle timer may flag them, and a path writes
  what the flag says at the moment at which it emits the update.
 */
module AlarmPipeline {
  import opened Basics
  import opened AlarmDelta
  import opened AlarmStatus
  import Batches
  import Pipeline
  import PipelineSafety
  import PipelineTheorems

  type PathId = Pipeline.PathId

  /** The pipeline, the channel's update objects and cache, and what path `p` has written. */
  datatype Joint = Joint(
    pipe: Pipeline.State,
    updates: seq<UpdateRec>,
    cached: int,
    outputs: seq<Output>,
    fault: bool)

  /** An event of the channel, its idle timer, or a step of the pipeline. */
  datatype Action = Event(message: Option<string>) | IdleTimer | Pipe(step: Pipeline.Action)

  ghost function Init(numWorkers: nat): Joint {
    Joint(Pipeline.Init(numWorkers), [], -1, [], false)
  }

  predicate Exists(s: Pipeline.State, p: PathId) {
    0 <= p.stream < |s.streams|
  }

  /** The stream is there, and no exception has ended the program. */
  predicate Running(s: Pipeline.State, p: PathId) {
    Exists(s, p) && !s.thrown
  }

  function Accepted(s: Pipeline.State, p: PathId): (us: seq<Batches.UpdateId>) {
    if Exists(s, p) then s.streams[p.stream].accepted else []
  }

  function Emitted(s: Pipeline.State, p: PathId): (us: seq<Batches.UpdateId>) {
    if p in s.paths then s.paths[p].emitted else []
  }

  /** The updates that the path has yet to emit, wherever they are. */
  function Waiting(s: Pipeline.State, p: PathId): (us: seq<Batches.UpdateId>) {
    if |Emitted(s, p)| <= |Accepted(s, p)| then Accepted(s, p)[|Emitted(s, p)|..] else []
  }

  /** The channel and the path as AlarmDelta sees them. */
  function View(j: Joint, p: PathId): AlarmDelta.State {
    AlarmDelta.State(j.updates, j.cached, Waiting(j.pipe, p), j.outputs, j.fault)
  }

  /** The client does to the objects what AlarmDelta says, and queues one of them on the stream. */
  ghost function Queued(j: Joint, p: PathId, t: AlarmDelta.State): Joint {
    Joint(if t.fault || t.cached < 0 then j.pipe
          else Pipeline.Apply(j.pipe, Pipeline.Enqueue(p.stream, Some(t.cached))),
          t.updates, t.cached, j.outputs, t.fault)
  }

  function OutputOf(updates: seq<UpdateRec>, u: Batches.UpdateId): Output {
    Output(u, if 0 <= u < |updates| && updates[u].flag then Status(updates[u].message) else NO_CHANGE)
  }

  /** A step of the pipeline; what the path emits in it is written as the flags are now. */
  ghost function DoPipe(j: Joint, p: PathId, step: Pipeline.Action): Joint {
    var pipe := Pipeline.Apply(j.pipe, step);
    var n, after := |Emitted(j.pipe, p)|, Emitted(pipe, p);
    j.(pipe := pipe, outputs := j.outputs + if n < |after| then [OutputOf(j.updates, after[n])] else [])
  }

  /** The channel's client alone queues updates on its stream. */
  predicate IsClients(step: Pipeline.Action, p: PathId) {
    step.Enqueue? && step.stream == p.stream && step.entry.Some?
  }

  ghost function Apply(j: Joint, p: PathId, a: Action): Joint {
    if j.fault then j else
    match a
    case Event(message) => if Running(j.pipe, p) then Queued(j, p, DoEmit(View(j, p), message)) else j
    case IdleTimer => if Running(j.pipe, p) then Queued(j, p, DoEmitCached(View(j, p))) else j
    case Pipe(step) => if IsClients(step, p) then j else DoPipe(j, p, step)
  }

  ghost function Run(numWorkers: nat, p: PathId, actions: seq<Action>): Joint {
    if actions == [] then Init(numWorkers)
    else Apply(Run(numWorkers, p, actions[..|actions| - 1]), p, actions[|actions| - 1])
  }

  /** What an action is for AlarmDelta. */
  ghost function StepsOf(j: Joint, p: PathId, a: Action): (steps: seq<Step>) {
    match a
    case Event(message) => if Running(j.pipe, p) then [Emit(message)] else []
    case IdleTimer => if Running(j.pipe, p) then [EmitCached] else []
    case Pipe(step) => if |Apply(j, p, a).outputs| > |j.outputs| then [Convert] else []
  }

  ghost function Steps(numWorkers: nat, p: PathId, actions: seq<Action>): (steps: seq<Step>) {
    if actions == [] then [] else
    var before := actions[..|actions| - 1];
    Steps(numWorkers, p, before) + StepsOf(Run(numWorkers, p, before), p, actions[|actions| - 1])
  }

  // What one step of the pipeline does to a path

  lemma AcceptedStays(s: Pipeline.State, p: PathId, step: Pipeline.Action)
    requires !IsClients(step, p)
    ensures Accepted(Pipeline.Apply(s, step), p) == Accepted(s, p)
  {
    hide Batches.Taken, Batches.Present, Batches.Batch, Pipeline.Bumped, Pipeline.PathsOf;
  }

  lemma SameEmitted(s: Pipeline.State, p: PathId, step: Pipeline.Action)
    requires !step.Emit? && !step.AddStream?
    ensures Emitted(Pipeline.Apply(s, step), p) == Emitted(s, p)
  {
    hide Batches.Taken, Batches.Present, Batches.Batch, Pipeline.PathsOf;
  }

  lemma NewStreamEmits(s: Pipeline.State, p: PathId, n: nat)
    requires PipelineSafety.Shape(s)
    ensures Emitted(Pipeline.DoAddStream(s, n), p) == Emitted(s, p)
  {
    if s.filler == Pipeline.Idle {
      PipelineSafety.AddStreamShape(s, n);
      hide PipelineSafety.Shape, Pipeline.PathsOf;
    }
  }

  lemma EmitGrows(s: Pipeline.State, p: PathId, k: int)
    ensures var before, after := Emitted(s, p), Emitted(Pipeline.DoEmit(s, k), p);
            after == before || (|after| == |before| + 1 && after[..|before|] == before)
  {
  }

  lemma EmittedGrows(s: Pipeline.State, p: PathId, step: Pipeline.Action)
    requires PipelineSafety.Shape(s)
    ensures var before, after := Emitted(s, p), Emitted(Pipeline.Apply(s, step), p);
            after == before || (|after| == |before| + 1 && after[..|before|] == before)
  {
    hide PipelineSafety.Shape, Emitted, Pipeline.DoAddStream, Pipeline.DoEmit, Pipeline.DoVisit;
    match step
    case Emit(k) => EmitGrows(s, p, k);
    case AddStream(n) => NewStreamEmits(s, p, n);
    case _ => SameEmitted(s, p, step);
  }

  /** A client's update goes to the end of what its stream accepted, and no path has emitted it. */
  lemma AcceptedGrows(s: Pipeline.State, p: PathId, u: Batches.UpdateId)
    requires Running(s, p)
    ensures var t := Pipeline.Apply(s, Pipeline.Enqueue(p.stream, Some(u)));
            Accepted(t, p) == Accepted(s, p) + [u] && Emitted(t, p) == Emitted(s, p)
  {
  }

  lemma ReachStep(s: Pipeline.State, step: Pipeline.Action)
    requires PipelineTheorems.Reachable(1, s)
    ensures PipelineTheorems.Reachable(1, Pipeline.Apply(s, step))
  {
    var actions :| s == Pipeline.Run(Pipeline.Init(1), actions);
    hide Pipeline.Apply;
    assert (actions + [step])[..|actions|] == actions;
    assert Pipeline.Apply(s, step) == Pipeline.Run(Pipeline.Init(1), actions + [step]);
  }

  // With one worker every run is one of AlarmDelta

  ghost predicate InOrder(s: Pipeline.State, p: PathId) {
    PipelineTheorems.Reachable(1, s) && Emitted(s, p) <= Accepted(s, p)
  }

  lemma ReachedInOrder(s: Pipeline.State, p: PathId)
    requires PipelineTheorems.Reachable(1, s)
    ensures InOrder(s, p) && PipelineSafety.Shape(s)
  {
    PipelineTheorems.ReachableInv(1, s);
    if p in s.paths {
      PipelineTheorems.InOrderWithOneWorker(s, p);
    }
  }

  /** Every update on the stream is one of the channel's objects. */
  ghost predicate Known(j: Joint, p: PathId) {
    && -1 <= j.cached < |j.updates|
    && forall i :: 0 <= i < |Accepted(j.pipe, p)| ==> 0 <= Accepted(j.pipe, p)[i] < |j.updates|
  }

  /** The joint run is in the state that AlarmDelta reaches with `steps`. */
  ghost predicate Simulates(j: Joint, p: PathId, steps: seq<Step>) {
    InOrder(j.pipe, p) && Known(j, p) && AlarmDelta.Run(steps) == View(j, p)
  }

  lemma OneStep(steps: seq<Step>, step: Step)
    ensures AlarmDelta.Run(steps + [step]) == AlarmDelta.Apply(AlarmDelta.Run(steps), step)
    ensures Messages(steps + [step]) == if step.Emit? then Messages(steps) + [step.message] else Messages(steps)
  {
    assert (steps + [step])[..|steps|] == steps;
  }

  /** An object that the client queues also goes to the end of AlarmDelta's queue. */
  lemma QueuedIs(j: Joint, p: PathId, t: AlarmDelta.State)
    requires InOrder(j.pipe, p) && Known(j, p) && Running(j.pipe, p) && |j.updates| <= |t.updates|
    requires -1 <= t.cached < |t.updates| && t.outputs == j.outputs
    requires t.queue == Waiting(j.pipe, p) + if t.fault || t.cached < 0 then [] else [t.cached]
    ensures var r := Queued(j, p, t); InOrder(r.pipe, p) && Known(r, p) && View(r, p) == t
  {
    if !t.fault && t.cached >= 0 {
      AcceptedGrows(j.pipe, p, t.cached);
      ReachStep(j.pipe, Pipeline.Enqueue(p.stream, Some(t.cached)));
    }
    hide Pipeline.Apply, PipelineTheorems.Reachable, Accepted, Emitted;
  }

  lemma EventSimulates(j: Joint, p: PathId, steps: seq<Step>, message: Option<string>)
    requires Simulates(j, p, steps) && Running(j.pipe, p) && !j.fault
    ensures Simulates(Queued(j, p, DoEmit(View(j, p), message)), p, steps + [Emit(message)])
  {
    hide Pipeline.Apply, InOrder, Waiting, Queued, Accepted;
    OneStep(steps, Emit(message));
    assert Waiting(j.pipe, p) + [] == Waiting(j.pipe, p);
    QueuedIs(j, p, DoEmit(View(j, p), message));
  }

  lemma TimerSimulates(j: Joint, p: PathId, steps: seq<Step>)
    requires Simulates(j, p, steps) && Running(j.pipe, p) && !j.fault
    ensures Simulates(Queued(j, p, DoEmitCached(View(j, p))), p, steps + [EmitCached])
  {
    hide Pipeline.Apply, InOrder, Waiting, Queued, Accepted;
    OneStep(steps, EmitCached);
    assert Waiting(j.pipe, p) + [] == Waiting(j.pipe, p);
    QueuedIs(j, p, DoEmitCached(View(j, p)));
  }

  /** The update that a path emits is the first of those it has yet to emit. */
  lemma EmitsFirst(s: Pipeline.State, t: Pipeline.State, p: PathId)
    requires InOrder(s, p) && InOrder(t, p) && Accepted(t, p) == Accepted(s, p)
    requires |Emitted(t, p)| == |Emitted(s, p)| + 1 && Emitted(t, p)[..|Emitted(s, p)|] == Emitted(s, p)
    ensures Waiting(s, p) == [Emitted(t, p)[|Emitted(s, p)|]] + Waiting(t, p)
    ensures Emitted(t, p)[|Emitted(s, p)|] == Accepted(s, p)[|Emitted(s, p)|]
  {
    hide PipelineTheorems.Reachable, Accepted, Emitted;
  }

  lemma KnownStays(j: Joint, r: Joint, p: PathId)
    requires Known(j, p) && Accepted(r.pipe, p) == Accepted(j.pipe, p)
    requires r.updates == j.updates && r.cached == j.cached
    ensures Known(r, p)
  {
    hide Accepted;
  }

  lemma NothingEmitted(j: Joint, p: PathId, step: Pipeline.Action)
    requires var t := Pipeline.Apply(j.pipe, step);
             Emitted(t, p) == Emitted(j.pipe, p) && Accepted(t, p) == Accepted(j.pipe, p)
    ensures var r := DoPipe(j, p, step); r.outputs == j.outputs && View(r, p) == View(j, p)
  {
    hide Pipeline.Apply, Emitted, Accepted;
  }

  lemma OneEmitted(j: Joint, p: PathId, step: Pipeline.Action)
    requires Known(j, p) && InOrder(j.pipe, p) && !j.fault
    requires var s, t := j.pipe, Pipeline.Apply(j.pipe, step);
             && InOrder(t, p) && Accepted(t, p) == Accepted(s, p)
             && |Emitted(t, p)| == |Emitted(s, p)| + 1 && Emitted(t, p)[..|Emitted(s, p)|] == Emitted(s, p)
    ensures var r := DoPipe(j, p, step);
            |r.outputs| == |j.outputs| + 1 && AlarmDelta.Apply(View(j, p), Convert) == View(r, p)
  {
    var t := Pipeline.Apply(j.pipe, step);
    var r, u := DoPipe(j, p, step), Emitted(t, p)[|Emitted(j.pipe, p)|];
    EmitsFirst(j.pipe, t, p);
    assert 0 <= u < |j.updates|;
    assert r == j.(pipe := t, outputs := j.outputs + [OutputOf(j.updates, u)]);
    hide *;
    Converts(j, p, u, Waiting(t, p));
    ViewIs(r, p);
  }

  lemma ViewIs(j: Joint, p: PathId)
    ensures View(j, p) == AlarmDelta.State(j.updates, j.cached, Waiting(j.pipe, p), j.outputs, j.fault)
  {
  }

  /** Converting the head of the queue in AlarmDelta writes what the path writes. */
  lemma Converts(j: Joint, p: PathId, u: Batches.UpdateId, rest: seq<Batches.UpdateId>)
    requires Waiting(j.pipe, p) == [u] + rest && 0 <= u < |j.updates| && !j.fault
    ensures AlarmDelta.Apply(View(j, p), Convert)
         == AlarmDelta.State(j.updates, j.cached, rest, j.outputs + [OutputOf(j.updates, u)], j.fault)
  {
    hide Waiting, Status;
    assert ([u] + rest)[1..] == rest;
  }

  lemma PipeSimulates(j: Joint, p: PathId, steps: seq<Step>, step: Pipeline.Action)
    requires Simulates(j, p, steps) && !j.fault && !IsClients(step, p)
    ensures var r := DoPipe(j, p, step);
            && |r.outputs| >= |j.outputs|
            && Simulates(r, p, if |r.outputs| > |j.outputs| then steps + [Convert] else steps)
  {
    var r := DoPipe(j, p, step);
    assert r.pipe == Pipeline.Apply(j.pipe, step) && r.updates == j.updates && r.cached == j.cached;
    assert InOrder(j.pipe, p) && Known(j, p) && PipelineTheorems.Reachable(1, j.pipe);
    SimulatesIs(r, p, steps);
    SimulatesIs(r, p, steps + [Convert]);
    SimulatesIs(j, p, steps);
    hide *;
    ReachedInOrder(j.pipe, p);
    ReachStep(j.pipe, step);
    ReachedInOrder(r.pipe, p);
    AcceptedStays(j.pipe, p, step);
    EmittedGrows(j.pipe, p, step);
    KnownStays(j, r, p);
    if Emitted(r.pipe, p) == Emitted(j.pipe, p) {
      NothingEmitted(j, p, step);
    } else {
      OneEmitted(j, p, step);
      OneStep(steps, Convert);
    }
  }

  lemma SimulatesIs(j: Joint, p: PathId, steps: seq<Step>)
    ensures Simulates(j, p, steps) <==> InOrder(j.pipe, p) && Known(j, p) && AlarmDelta.Run(steps) == View(j, p)
  {
  }

  lemma StepSimulates(j: Joint, p: PathId, steps: seq<Step>, a: Action)
    requires Simulates(j, p, steps)
    ensures Simulates(Apply(j, p, a), p, steps + StepsOf(j, p, a))
  {
    assert steps + [] == steps;
    hide Simulates, DoPipe, Queued, DoEmit, DoEmitCached, View, Running, IsClients;
    if j.fault {
      Stuck(j, p, steps, a);
    } else {
      match a
      case Event(message) => if Running(j.pipe, p) { EventSimulates(j, p, steps, message); }
      case IdleTimer => if Running(j.pipe, p) { TimerSimulates(j, p, steps); }
      case Pipe(step) => if !IsClients(step, p) { PipeSimulates(j, p, steps, step); }
    }
  }

  lemma Stuck(j: Joint, p: PathId, steps: seq<Step>, a: Action)
    requires Simulates(j, p, steps) && j.fault
    ensures Simulates(Apply(j, p, a), p, steps + StepsOf(j, p, a))
  {
    hide Pipeline.Apply, InOrder, Known, DoPipe, Queued, Waiting;
    assert steps + [] == steps;
    if StepsOf(j, p, a) != [] {
      OneStep(steps, StepsOf(j, p, a)[0]);
    }
  }

  lemma InitSimulates(p: PathId)
    ensures Simulates(Init(1), p, [])
  {
    assert Pipeline.Init(1) == Pipeline.Run(Pipeline.Init(1), []);
  }

  /**
    With one worker, every run of clients, idle timer, scheduler, worker and destructors is for each path
    a run of AlarmDelta, whose queue holds what the stream accepted and the path has not emitted.
   */
  lemma {:induction false} RunSimulates(p: PathId, actions: seq<Action>)
    ensures Simulates(Run(1, p, actions), p, Steps(1, p, actions))
  {
    hide Simulates, Apply, StepsOf, Init;
    if actions == [] {
      InitSimulates(p);
    } else {
      RunSimulates(p, actions[..|actions| - 1]);
      var before := actions[..|actions| - 1];
      StepSimulates(Run(1, p, before), p, Steps(1, p, before), actions[|actions| - 1]);
    }
  }

  // What it says

  /** Some run of the pipeline with so many workers leads to `j`, with these alarm messages coming in. */
  ghost predicate Reaches(numWorkers: nat, p: PathId, j: Joint, ms: seq<Option<string>>) {
    exists actions :: Run(numWorkers, p, actions) == j && Messages(Steps(numWorkers, p, actions)) == ms
  }

  /**
    With one worker, and the alarm field only going away after NO_ALARM, every message that a path writes
    leaves its reader with the exact status of the update, unless that status is NO_CHANGE itself; this
    holds whatever the idle timer flags while updates wait for the worker.
   */
  lemma ExactWithOneWorker(p: PathId, j: Joint, ms: seq<Option<string>>, k: int)
    requires Reaches(1, p, j, ms) && Sound(ms) && Quiet(ms) && 0 <= k < |j.outputs|
    ensures var u := j.outputs[k].update;
            && 0 <= u < |ms|
            && (Held(j.outputs[..k + 1]) == Some(Status(ms[u])) <==> Status(ms[u]) != NO_CHANGE)
  {
    hide *;
    var actions := ReachedBy(p, j, ms);
    ViewIs(j, p);
    FaultExactly(Steps(1, p, actions));
    DeltaIsExact(Steps(1, p, actions), k);
  }

  lemma ReachedBy(p: PathId, j: Joint, ms: seq<Option<string>>) returns (actions: seq<Action>)
    requires Reaches(1, p, j, ms)
    ensures AlarmDelta.Run(Steps(1, p, actions)) == View(j, p)
    ensures Messages(Steps(1, p, actions)) == ms
  {
    actions :| Run(1, p, actions) == j && Messages(Steps(1, p, actions)) == ms;
    hide Run, Steps;
    RunSimulates(p, actions);
  }
}
