/**
  How many workers the alarm delta encoding can have: the sequences of alarm messages of which no run of
  the pipeline loses a status, for one worker and for several.
 */
module AlarmWorkers {
  import opened Basics
  import opened AlarmDelta
  import opened AlarmStatus
  import opened AlarmPipeline
  import Batches
  import Pipeline
  import PipelineTheorems

  // Runs of a pipeline with one stream and one path

  const PATH: PathId := Pipeline.PathId(0, 0)

  const IDLE := Pipeline.Worker([], Pipeline.Empty, Pipeline.Testing, true)

  /** The stream's queue, what it accepted, the path's counter, what it emitted, and the workers. */
  datatype Small = Small(queue: seq<Option<int>>, accepted: seq<int>, transit: int, emitted: seq<int>,
                         ws: seq<Pipeline.Worker>)

  /** The pipeline between fills. */
  function PipeOf(c: Small): Pipeline.State {
    Pipeline.State(
      [Pipeline.StreamRec(c.queue, 1, c.accepted)],
      map[PATH := Pipeline.PathRec(c.transit, Pipeline.Live, c.emitted)],
      [0], 0, Pipeline.Idle, c.ws, false, false)
  }

  /** The packets of a worker in its drain loop, and the one in its hand. */
  function Draining(ps: seq<Batches.Packet<PathId>>, hand: Pipeline.Hand): Pipeline.Worker {
    Pipeline.Worker(ps, hand, Pipeline.Draining, true)
  }

  function InHand(u: int, sent: bool): Pipeline.Worker {
    Draining([], Pipeline.Holding(Batches.Packet(PATH, u, true), sent))
  }

  function With(c: Small, k: nat, w: Pipeline.Worker): Small
    requires k < |c.ws|
  {
    c.(ws := c.ws[k := w])
  }

  lemma OnePath()
    ensures Pipeline.PathsOf(0, 1) == [PATH]
  {
  }

  lemma Starts(n: nat)
    ensures Pipeline.Apply(Pipeline.Init(n), Pipeline.AddStream(1)) == PipeOf(Small([], [], 0, [], seq(n, _ => IDLE)))
  {
    OnePath();
    var t := Pipeline.Apply(Pipeline.Init(n), Pipeline.AddStream(1));
    assert t.paths == map[PATH := Pipeline.PathRec(0, Pipeline.Live, [])];
    assert t.workers == seq(n, _ => IDLE);
  }

  /** A worker takes as many entries as its budget says. */
  lemma {:induction false} TakesAll(q: seq<Option<int>>, n: nat)
    requires n <= |q| && forall i :: 0 <= i < n ==> q[i].Some?
    ensures Batches.Taken(q, 1, n, n) == n && |Batches.Present(q[..n])| == n
  {
    if n > 0 {
      TakesAll(q[1..], n - 1);
      assert q[..n][1..] == q[1..][..n - 1];
    }
  }

  /** What a worker holds after a fill with budget n. */
  function Packets(q: seq<Option<int>>, n: nat): (ps: seq<Batches.Packet<PathId>>)
    requires n <= |q|
  {
    Batches.Batch([PATH], Batches.Present(q[..n]))
  }

  lemma OnePacket(q: seq<Option<int>>, u: int)
    requires q != [] && q[0] == Some(u)
    ensures Packets(q, 1) == [Batches.Packet(PATH, u, true)]
  {
    assert q[..1] == [Some(u)] && [Some(u)][1..] == [] && Batches.Present([Some(u)]) == [u] + [];
    assert [u][..0] == [] && Batches.Plain([PATH], []) == [];
    assert Batches.Batch([PATH], [u]) == [] + Batches.Fan([PATH], u, true);
  }

  lemma Tests(c: Small, k: nat)
    requires k < |c.ws| && c.ws[k] == IDLE
    ensures Pipeline.Apply(PipeOf(c), Pipeline.TestRun(k)) == PipeOf(With(c, k, IDLE.(phase := Pipeline.Ready)))
  {
  }

  lemma Begins(c: Small, k: nat, n: nat)
    requires k < |c.ws| && c.ws[k] == IDLE.(phase := Pipeline.Ready) && n > 0
    ensures Pipeline.Apply(PipeOf(c), Pipeline.BeginFill(k, n))
         == PipeOf(With(c, k, IDLE.(phase := Pipeline.Filling))).(filler := Pipeline.Busy(k, 0, 0, n))
  {
  }

  lemma Visits(c: Small, k: nat, n: nat)
    requires k < |c.ws| && c.ws[k] == IDLE.(phase := Pipeline.Filling)
    requires 0 < n <= |c.queue| && 0 <= c.transit < UINT32_LIMIT - 1 && forall i :: 0 <= i < n ==> c.queue[i].Some?
    ensures Pipeline.Apply(PipeOf(c).(filler := Pipeline.Busy(k, 0, 0, n)), Pipeline.Visit(k, n))
         == PipeOf(With(c, k, Draining(Packets(c.queue, n), Pipeline.Empty).(phase := Pipeline.Moving))
                     .(queue := c.queue[n..], transit := c.transit + 1)).(filler := Pipeline.Busy(k, 0, 0, 0))
  {
    OnePath();
    TakesAll(c.queue, n);
    Batches.BatchLength([PATH], Batches.Present(c.queue[..n]));
    hide Batches.Taken, Batches.Present, Batches.Batch, Pipeline.PathsOf;
    var t := Pipeline.Apply(PipeOf(c).(filler := Pipeline.Busy(k, 0, 0, n)), Pipeline.Visit(k, n));
    assert t.paths == map[PATH := Pipeline.PathRec(c.transit + 1, Pipeline.Live, c.emitted)];
    assert [] + Packets(c.queue, n) == Packets(c.queue, n);
    assert t.streams == [Pipeline.StreamRec(c.queue[n..], 1, c.accepted)];
  }

  lemma Advances(c: Small, k: nat, ps: seq<Batches.Packet<PathId>>)
    requires k < |c.ws| && c.ws[k] == Draining(ps, Pipeline.Empty).(phase := Pipeline.Moving)
    ensures Pipeline.Apply(PipeOf(c).(filler := Pipeline.Busy(k, 0, 0, 0)), Pipeline.Advance(k))
         == PipeOf(With(c, k, Draining(ps, Pipeline.Empty)))
  {
  }

  lemma Takes(c: Small, k: nat, u: int)
    requires k < |c.ws| && c.ws[k] == Draining([Batches.Packet(PATH, u, true)], Pipeline.Empty)
    ensures Pipeline.Apply(PipeOf(c), Pipeline.Dequeue(k)) == PipeOf(With(c, k, InHand(u, false)))
  {
    assert c.ws[k].queue[1..] == [];
  }

  lemma Emits(c: Small, k: nat, u: int)
    requires k < |c.ws| && c.ws[k] == InHand(u, false)
    ensures Pipeline.Apply(PipeOf(c), Pipeline.Emit(k))
         == PipeOf(With(c, k, InHand(u, true)).(emitted := c.emitted + [u]))
  {
  }

  lemma Destroys(c: Small, k: nat, u: int)
    requires k < |c.ws| && c.ws[k] == InHand(u, true) && 0 < c.transit < UINT32_LIMIT
    ensures Pipeline.Apply(PipeOf(c), Pipeline.Destroy(k))
         == PipeOf(With(c, k, Draining([], Pipeline.Empty)).(transit := c.transit - 1))
  {
  }

  lemma Ends(c: Small, k: nat)
    requires k < |c.ws| && c.ws[k] == Draining([], Pipeline.Empty)
    ensures Pipeline.Apply(PipeOf(c), Pipeline.Dequeue(k)) == PipeOf(With(c, k, IDLE))
  {
  }

  // The same with the update objects

  lemma MessagesStep(steps: seq<Step>, more: seq<Step>)
    requires |more| <= 1
    ensures Messages(steps + more) ==
            if more != [] && more[0].Emit? then Messages(steps) + [more[0].message] else Messages(steps)
  {
    if more == [] {
      assert steps + more == steps;
    } else {
      assert more == [more[0]];
      OneStep(steps, more[0]);
    }
  }

  /** The message that an action brings, if any. */
  ghost function MessagesOfAction(j: Joint, p: PathId, a: AlarmPipeline.Action): (ms: seq<Option<string>>) {
    if a.Event? && Running(j.pipe, p) then [a.message] else []
  }

  lemma StepsAre(j: Joint, p: PathId, a: AlarmPipeline.Action)
    ensures var steps := StepsOf(j, p, a);
            && |steps| <= 1
            && MessagesOfAction(j, p, a) == if steps != [] && steps[0].Emit? then [steps[0].message] else []
  {
    hide AlarmPipeline.Apply;
  }

  lemma RunSnoc(n: nat, p: PathId, actions: seq<AlarmPipeline.Action>, a: AlarmPipeline.Action)
    ensures var j := AlarmPipeline.Run(n, p, actions);
            && AlarmPipeline.Run(n, p, actions + [a]) == AlarmPipeline.Apply(j, p, a)
            && Steps(n, p, actions + [a]) == Steps(n, p, actions) + StepsOf(j, p, a)
            && Messages(Steps(n, p, actions + [a])) == Messages(Steps(n, p, actions)) + MessagesOfAction(j, p, a)
  {
    var j, steps := AlarmPipeline.Run(n, p, actions), Steps(n, p, actions);
    assert (actions + [a])[..|actions|] == actions;
    hide AlarmPipeline.Apply, StepsOf, Messages, MessagesOfAction;
    assert Steps(n, p, actions + [a]) == steps + StepsOf(j, p, a);
    StepsAre(j, p, a);
    MessagesStep(steps, StepsOf(j, p, a));
    assert Messages(steps) + [] == Messages(steps);
  }

  lemma Extends(n: nat, p: PathId, j: Joint, ms: seq<Option<string>>, a: AlarmPipeline.Action)
    requires Reaches(n, p, j, ms)
    ensures Reaches(n, p, AlarmPipeline.Apply(j, p, a), ms + MessagesOfAction(j, p, a))
  {
    hide *;
    var actions := SomeRun(n, p, j, ms);
    RunSnoc(n, p, actions, a);
    RunReaches(n, p, actions + [a]);
  }

  lemma SomeRun(n: nat, p: PathId, j: Joint, ms: seq<Option<string>>) returns (actions: seq<AlarmPipeline.Action>)
    requires Reaches(n, p, j, ms)
    ensures AlarmPipeline.Run(n, p, actions) == j && Messages(Steps(n, p, actions)) == ms
  {
    hide AlarmPipeline.Run, Steps, Messages;
    actions :| AlarmPipeline.Run(n, p, actions) == j && Messages(Steps(n, p, actions)) == ms;
  }

  lemma RunReaches(n: nat, p: PathId, actions: seq<AlarmPipeline.Action>)
    ensures Reaches(n, p, AlarmPipeline.Run(n, p, actions), Messages(Steps(n, p, actions)))
  {
    hide AlarmPipeline.Run, Steps, Messages;
  }

  ghost predicate At(n: nat, j: Joint, c: Small, ms: seq<Option<string>>) {
    Reaches(n, PATH, j, ms) && !j.fault && j.pipe == PipeOf(c)
  }

  /** A step in which the path emits nothing. */
  lemma Quietly(n: nat, j: Joint, ms: seq<Option<string>>, step: Pipeline.Action, t: Pipeline.State)
    requires Reaches(n, PATH, j, ms) && !j.fault && !step.Enqueue?
    requires Pipeline.Apply(j.pipe, step) == t && Emitted(t, PATH) == Emitted(j.pipe, PATH)
    ensures Reaches(n, PATH, j.(pipe := t), ms)
  {
    hide Reaches, Pipeline.Apply, Emitted;
    Extends(n, PATH, j, ms, AlarmPipeline.Pipe(step));
    assert ms + [] == ms;
    assert j.outputs + [] == j.outputs;
    assert AlarmPipeline.Apply(j, PATH, AlarmPipeline.Pipe(step)) == j.(pipe := t);
  }

  /** An idle worker fetches n updates. */
  lemma Fetches(n: nat, j: Joint, c: Small, ms: seq<Option<string>>, k: nat, count: nat) returns (r: Joint, d: Small)
    requires At(n, j, c, ms) && k < |c.ws| && c.ws[k] == IDLE
    requires 0 < count <= |c.queue| && 0 <= c.transit < UINT32_LIMIT - 1
    requires forall i :: 0 <= i < count ==> c.queue[i].Some?
    ensures d == With(c, k, Draining(Packets(c.queue, count), Pipeline.Empty))
                   .(queue := c.queue[count..], transit := c.transit + 1)
    ensures r == j.(pipe := PipeOf(d)) && At(n, r, d, ms)
  {
    hide Reaches, Pipeline.Apply, Packets;
    var c1, c2 := With(c, k, IDLE.(phase := Pipeline.Ready)), With(c, k, IDLE.(phase := Pipeline.Filling));
    var busy := PipeOf(c2).(filler := Pipeline.Busy(k, 0, 0, count));
    Tests(c, k);
    Quietly(n, j, ms, Pipeline.TestRun(k), PipeOf(c1));
    Begins(c1, k, count);
    assert c1.ws[k := c2.ws[k]] == c2.ws;
    Quietly(n, j.(pipe := PipeOf(c1)), ms, Pipeline.BeginFill(k, count), busy);
    Visits(c2, k, count);
    d := With(c, k, Draining(Packets(c.queue, count), Pipeline.Empty)).(queue := c.queue[count..],
      transit := c.transit + 1);
    var c3 := With(c2, k, d.ws[k].(phase := Pipeline.Moving)).(queue := c.queue[count..], transit := c.transit + 1);
    var visited := PipeOf(c3).(filler := Pipeline.Busy(k, 0, 0, 0));
    Quietly(n, j.(pipe := busy), ms, Pipeline.Visit(k, count), visited);
    Advances(c3, k, Packets(c.queue, count));
    assert c3.ws[k := d.ws[k]] == d.ws;
    Quietly(n, j.(pipe := visited), ms, Pipeline.Advance(k), PipeOf(d));
    r := j.(pipe := PipeOf(d));
  }

  /** It takes the only packet it has, and the path emits its update. */
  lemma EmitsOne(n: nat, j: Joint, c: Small, ms: seq<Option<string>>, k: nat, u: int) returns (r: Joint, d: Small)
    requires At(n, j, c, ms) && k < |c.ws| && c.ws[k] == Draining([Batches.Packet(PATH, u, true)], Pipeline.Empty)
    ensures d == With(c, k, InHand(u, true)).(emitted := c.emitted + [u])
    ensures r == j.(pipe := PipeOf(d), outputs := j.outputs + [OutputOf(j.updates, u)]) && At(n, r, d, ms)
  {
    var c1 := With(c, k, InHand(u, false));
    d := With(c, k, InHand(u, true)).(emitted := c.emitted + [u]);
    assert c1.ws[k := InHand(u, true)] == d.ws;
    hide Reaches, Pipeline.Apply, Status;
    Takes(c, k, u);
    Quietly(n, j, ms, Pipeline.Dequeue(k), PipeOf(c1));
    Emits(c1, k, u);
    var j1 := j.(pipe := PipeOf(c1));
    Extends(n, PATH, j1, ms, AlarmPipeline.Pipe(Pipeline.Emit(k)));
    assert ms + [] == ms;
    r := j.(pipe := PipeOf(d), outputs := j.outputs + [OutputOf(j.updates, u)]);
    assert AlarmPipeline.Apply(j1, PATH, AlarmPipeline.Pipe(Pipeline.Emit(k))) == r;
  }

  /** An idle worker fetches the head of the queue, and the path emits it. */
  lemma ConvertsHead(n: nat, j: Joint, c: Small, ms: seq<Option<string>>, k: nat, u: int) returns (r: Joint, d: Small)
    requires At(n, j, c, ms) && k < |c.ws| && c.ws[k] == IDLE && 0 <= c.transit < UINT32_LIMIT - 1
    requires c.queue != [] && c.queue[0] == Some(u)
    ensures d == With(c, k, InHand(u, true))
                   .(queue := c.queue[1..], transit := c.transit + 1, emitted := c.emitted + [u])
    ensures r == j.(pipe := PipeOf(d), outputs := j.outputs + [OutputOf(j.updates, u)]) && At(n, r, d, ms)
  {
    hide At, Packets, OutputOf, PipeOf;
    OnePacket(c.queue, u);
    var j1, c1 := Fetches(n, j, c, ms, k, 1);
    r, d := EmitsOne(n, j1, c1, ms, k, u);
    assert c1.ws[k := InHand(u, true)] == c.ws[k := InHand(u, true)];
  }

  /** It destroys the packet and is idle again. */
  lemma EndsTurn(n: nat, j: Joint, c: Small, ms: seq<Option<string>>, k: nat, u: int) returns (r: Joint, d: Small)
    requires At(n, j, c, ms) && k < |c.ws| && c.ws[k] == InHand(u, true) && 0 < c.transit < UINT32_LIMIT
    ensures d == With(c, k, IDLE).(transit := c.transit - 1)
    ensures r == j.(pipe := PipeOf(d)) && At(n, r, d, ms)
  {
    hide Reaches, Pipeline.Apply;
    var c1 := With(c, k, Draining([], Pipeline.Empty)).(transit := c.transit - 1);
    d := With(c, k, IDLE).(transit := c.transit - 1);
    assert c1.ws[k := IDLE] == d.ws;
    Destroys(c, k, u);
    Quietly(n, j, ms, Pipeline.Destroy(k), PipeOf(c1));
    Ends(c1, k);
    Quietly(n, j.(pipe := PipeOf(c1)), ms, Pipeline.Dequeue(k), PipeOf(d));
    r := j.(pipe := PipeOf(d));
  }

  /** What the monitor and the client's queue make of another update. */
  lemma Arrived(j: Joint, c: Small, ms: seq<Option<string>>, message: Option<string>)
    requires !j.fault && j.pipe == PipeOf(c)
    requires j.cached == |ms| - 1 && MessagesOf(j.updates) == ms && Sound(ms + [message])
    ensures var id := |ms|;
            AlarmPipeline.Apply(j, PATH, Event(message))
            == Joint(PipeOf(c.(queue := c.queue + [Some(id)], accepted := c.accepted + [id])),
                     j.updates + [UpdateRec(message, NextFlag(ms, message))], id, j.outputs, false)
    ensures MessagesOfAction(j, PATH, Event(message)) == [message]
  {
    var id := |ms|;
    assert (ms + [message])[id] == message;
    assert ms != [] ==> (ms + [message])[id - 1] == ms[id - 1] == j.updates[id - 1].message;
    assert |j.updates| == |ms|;
    hide Pipeline.Apply, Waiting, MessagesOf, Sound;
    Queues(c, id);
    var before, updates := View(j, PATH), j.updates + [UpdateRec(message, NextFlag(ms, message))];
    assert DoEmit(before, message) == AlarmDelta.State(updates, id, before.queue + [id], j.outputs, false);
    hide View, DoEmit, NextFlag;
  }

  /** Another update comes in, of which the monitor knows the message before. */
  lemma Arrives(n: nat, j: Joint, c: Small, ms: seq<Option<string>>, message: Option<string>)
    returns (r: Joint, d: Small)
    requires At(n, j, c, ms) && j.cached == |ms| - 1 && MessagesOf(j.updates) == ms && Sound(ms + [message])
    ensures var id := |ms|;
            && d == c.(queue := c.queue + [Some(id)], accepted := c.accepted + [id])
            && r == Joint(PipeOf(d), j.updates + [UpdateRec(message, NextFlag(ms, message))], id, j.outputs, false)
    ensures At(n, r, d, ms + [message])
  {
    hide Reaches, AlarmPipeline.Apply, MessagesOf, MessagesOfAction, Sound, NextFlag, PipeOf;
    var id := |ms|;
    d := c.(queue := c.queue + [Some(id)], accepted := c.accepted + [id]);
    r := Joint(PipeOf(d), j.updates + [UpdateRec(message, NextFlag(ms, message))], id, j.outputs, false);
    Arrived(j, c, ms, message);
    Extends(n, PATH, j, ms, Event(message));
  }

  lemma Queues(c: Small, u: int)
    ensures Pipeline.Apply(PipeOf(c), Pipeline.Enqueue(0, Some(u)))
         == PipeOf(c.(queue := c.queue + [Some(u)], accepted := c.accepted + [u]))
  {
  }

  function Fresh(n: nat): Small {
    Small([], [], 0, [], seq(n, _ => IDLE))
  }

  lemma Begin(n: nat) returns (r: Joint)
    ensures At(n, r, Fresh(n), []) && r.updates == [] && r.outputs == [] && r.cached == -1
  {
    var start := AlarmPipeline.Init(n);
    assert AlarmPipeline.Run(n, PATH, []) == start && Messages(Steps(n, PATH, [])) == [];
    assert Emitted(start.pipe, PATH) == [] && Emitted(PipeOf(Fresh(n)), PATH) == [];
    Starts(n);
    r := start.(pipe := PipeOf(Fresh(n)));
    hide Pipeline.Apply, Emitted, AlarmPipeline.Run, Steps;
    Quietly(n, start, [], Pipeline.AddStream(1), PipeOf(Fresh(n)));
  }

  // Every update converted before the next one comes in

  /** Nothing waits, and the path has emitted the first `count` updates. */
  function Done(n: nat, ids: seq<int>): Small {
    Small([], ids, 0, ids, seq(n, _ => IDLE))
  }

  ghost predicate Eagerly(n: nat, j: Joint, ids: seq<int>, ms: seq<Option<string>>) {
    At(n, j, Done(n, ids), ms) && EagerState(View(j, PATH), ms)
  }

  /** The objects before and after a turn of the worker as states of AlarmDelta. */
  lemma EagerTurn(j: Joint, r: Joint, ms: seq<Option<string>>, message: Option<string>)
    requires EagerState(View(j, PATH), ms)
    requires var rec := UpdateRec(message, NextFlag(ms, message));
             && r.updates == j.updates + [rec] && r.cached == |ms| && !r.fault && Waiting(r.pipe, PATH) == []
             && r.outputs == j.outputs + [OutputOf(r.updates, |ms|)]
    ensures EagerState(View(r, PATH), ms + [message])
  {
    var rec := UpdateRec(message, NextFlag(ms, message));
    assert |j.updates| == |ms| && r.updates[|ms|] == rec;
    assert OutputOf(r.updates, |ms|) == Output(|ms|, Written(ms + [message], |ms|));
    hide EagerState, OutputOf, Written, Waiting, NextFlag;
    EagerSnoc(View(j, PATH), View(r, PATH), ms, message, rec);
  }

  lemma NoneWait(n: nat, ids: seq<int>)
    ensures Waiting(PipeOf(Done(n, ids)), PATH) == []
  {
  }

  lemma Round(n: nat, j: Joint, ids: seq<int>, ms: seq<Option<string>>, message: Option<string>) returns (r: Joint)
    requires n > 0 && Eagerly(n, j, ids, ms) && Sound(ms + [message])
    ensures Eagerly(n, r, ids + [|ms|], ms + [message])
  {
    var c, both, u := Done(n, ids), ms + [message], |ms|;
    assert MessagesOf(j.updates) == ms && j.cached == |ms| - 1;
    hide At, EagerState, Sound, OutputOf, MessagesOf, NextFlag, Packets, View, PipeOf, Written;
    var j1, c1 := Arrives(n, j, c, ms, message);
    var j2, c2 := ConvertsHead(n, j1, c1, both, 0, u);
    var c3;
    r, c3 := EndsTurn(n, j2, c2, both, 0, u);
    assert c3 == Done(n, ids + [u]) by {
      assert c1.queue[1..] == [];
      assert c3.ws == c.ws;
    }
    NoneWait(n, ids + [u]);
    hide Waiting, Done;
    EagerTurn(j, r, ms, message);
  }

  /** With a worker, every sequence of messages can be converted one by one. */
  lemma {:induction false} EagerReaches(n: nat, ms: seq<Option<string>>) returns (j: Joint, ids: seq<int>)
    requires n > 0 && Sound(ms)
    ensures Eagerly(n, j, ids, ms)
  {
    if ms == [] {
      j := Begin(n);
      ids := [];
      assert MessagesOf(j.updates) == [] && Waiting(j.pipe, PATH) == [];
    } else {
      var front, message := ms[..|ms| - 1], ms[|ms| - 1];
      assert Sound(front) && ms == front + [message];
      hide Eagerly, Sound;
      j, ids := EagerReaches(n, front);
      j := Round(n, j, ids, front, message);
      ids := ids + [|front|];
    }
  }

  /** No run of the pipeline with these messages loses a status on any path. */
  ghost predicate NeverLoses(n: nat, ms: seq<Option<string>>) {
    forall p, j :: Reaches(n, p, j, ms) ==> Lossless(View(j, p))
  }

  lemma NeverOneByOne(n: nat, ms: seq<Option<string>>)
    requires n > 0 && Sound(ms) && NeverLoses(n, ms)
    ensures Quiet(ms) && Plain(ms)
  {
    var j, ids := EagerReaches(n, ms);
    assert Reaches(n, PATH, j, ms) && EagerState(View(j, PATH), ms);
    assert Lossless(View(j, PATH));
    hide *;
    LosslessOnlyIf(View(j, PATH), ms);
  }

  /**
    The exact condition with one worker is that of the encoding itself: the wait in the worker's queue,
    and flags set during it, lose nothing more.
   */
  lemma OneWorkerExactly(ms: seq<Option<string>>)
    requires Sound(ms)
    ensures NeverLoses(1, ms) <==> Quiet(ms) && Plain(ms)
  {
    if Quiet(ms) && Plain(ms) {
      forall p, j | Reaches(1, p, j, ms) ensures Lossless(View(j, p)) {
        var actions := ReachedBy(p, j, ms);
        hide *;
        AlwaysCorrect(Steps(1, p, actions));
      }
    }
    if NeverLoses(1, ms) {
      hide *;
      NeverOneByOne(1, ms);
    }
  }

  // Several workers

  lemma ChangesSnoc(ms: seq<Option<string>>, message: Option<string>)
    requires Sound(ms + [message]) && AlwaysChanges(ms + [message])
    ensures Sound(ms) && AlwaysChanges(ms) && NextFlag(ms, message)
    ensures ms != [] && message.Some? ==> ms[|ms| - 1].Some?
  {
    var both := ms + [message];
    assert both[|ms|] == message && forall i :: 0 <= i < |ms| ==> both[i] == ms[i];
    if ms != [] {
      assert both[|ms| - 1] == ms[|ms| - 1];
    }
  }

  /** Every object has its flag, and every message that was written has its update's status. */
  ghost predicate AllFlagged(n: nat, p: PathId, j: Joint, ms: seq<Option<string>>) {
    && !j.fault && MessagesOf(j.updates) == ms && j.cached == |ms| - 1 && Known(j, p)
    && PipelineTheorems.Reachable(n, j.pipe)
    && (forall i :: 0 <= i < |j.updates| ==> j.updates[i].flag)
    && AllWritten(j.updates, j.outputs)
  }

  lemma ReachStepOf(n: nat, s: Pipeline.State, step: Pipeline.Action)
    requires PipelineTheorems.Reachable(n, s)
    ensures PipelineTheorems.Reachable(n, Pipeline.Apply(s, step))
  {
    var actions :| s == Pipeline.Run(Pipeline.Init(n), actions);
    hide Pipeline.Apply;
    assert (actions + [step])[..|actions|] == actions;
    assert Pipeline.Apply(s, step) == Pipeline.Run(Pipeline.Init(n), actions + [step]);
  }

  /** A path emits only what its stream accepted, with any number of workers. */
  lemma EmitsAccepted(n: nat, s: Pipeline.State, p: PathId, k: int)
    requires n < UINT32_LIMIT && PipelineTheorems.Reachable(n, s) && 0 <= k < |Emitted(s, p)|
    ensures Emitted(s, p)[k] in Accepted(s, p)
  {
    var u := s.paths[p].emitted[k];
    PipelineTheorems.ExactlyOnce(n, s, p, u);
    assert u in multiset(s.paths[p].emitted);
    assert u in multiset(s.streams[p.stream].accepted);
    hide PipelineTheorems.Reachable, Pipeline.Sum;
  }

  lemma FlaggedEvent(n: nat, p: PathId, j: Joint, ms: seq<Option<string>>, message: Option<string>)
    requires AllFlagged(n, p, j, ms) && Running(j.pipe, p)
    requires Sound(ms + [message]) && AlwaysChanges(ms + [message])
    ensures AllFlagged(n, p, Queued(j, p, DoEmit(View(j, p), message)), ms + [message])
  {
    ChangesSnoc(ms, message);
    AcceptedGrows(j.pipe, p, |ms|);
    ReachStepOf(n, j.pipe, Pipeline.Enqueue(p.stream, Some(|ms|)));
    assert ms != [] ==> ms[|ms| - 1] == j.updates[|ms| - 1].message;
    hide Pipeline.Apply, PipelineTheorems.Reachable, Waiting, Accepted, Sound, AlwaysChanges, AllWritten;
    var r := Queued(j, p, DoEmit(View(j, p), message));
    assert r.updates == j.updates + [UpdateRec(message, true)];
    WrittenStays(j.updates, r.updates, j.outputs);
    MessagesSnoc(j.updates, UpdateRec(message, true));
    hide MessagesOf;
  }

  lemma MessagesSnoc(updates: seq<UpdateRec>, r: UpdateRec)
    ensures MessagesOf(updates + [r]) == MessagesOf(updates) + [r.message]
  {
  }

  lemma WrittenStays(updates: seq<UpdateRec>, more: seq<UpdateRec>, outputs: seq<Output>)
    requires AllWritten(updates, outputs) && updates <= more
    ensures AllWritten(more, outputs)
  {
    hide Status;
  }

  lemma FlaggedTimer(n: nat, p: PathId, j: Joint, ms: seq<Option<string>>)
    requires AllFlagged(n, p, j, ms) && Running(j.pipe, p)
    ensures AllFlagged(n, p, Queued(j, p, DoEmitCached(View(j, p))), ms)
  {
    if j.cached >= 0 {
      AcceptedGrows(j.pipe, p, j.cached);
      ReachStepOf(n, j.pipe, Pipeline.Enqueue(p.stream, Some(j.cached)));
      assert j.updates[j.cached := j.updates[j.cached].(flag := true)] == j.updates;
    }
    hide Pipeline.Apply, PipelineTheorems.Reachable, Waiting, Accepted, Status, MessagesOf;
  }

  lemma WritesMore(updates: seq<UpdateRec>, outputs: seq<Output>, u: int)
    requires AllWritten(updates, outputs) && 0 <= u < |updates| && updates[u].flag
    ensures AllWritten(updates, outputs + [OutputOf(updates, u)])
  {
    hide Status;
  }

  /** What the path emits in this step is one of the channel's objects. */
  lemma EmitsKnown(n: nat, p: PathId, j: Joint, step: Pipeline.Action)
    requires n < UINT32_LIMIT && PipelineTheorems.Reachable(n, j.pipe) && Known(j, p) && !IsClients(step, p)
    ensures var r := DoPipe(j, p, step);
            && PipelineTheorems.Reachable(n, r.pipe) && Known(r, p)
            && (|Emitted(j.pipe, p)| < |Emitted(r.pipe, p)| ==>
                  0 <= Emitted(r.pipe, p)[|Emitted(j.pipe, p)|] < |j.updates|)
  {
    var r, count := DoPipe(j, p, step), |Emitted(j.pipe, p)|;
    ReachStepOf(n, j.pipe, step);
    AcceptedStays(j.pipe, p, step);
    hide Pipeline.Apply, PipelineTheorems.Reachable, Accepted, Emitted, Status;
    KnownStays(j, r, p);
    if count < |Emitted(r.pipe, p)| {
      EmitsAccepted(n, r.pipe, p, count);
    }
  }

  lemma FlaggedPipe(n: nat, p: PathId, j: Joint, ms: seq<Option<string>>, step: Pipeline.Action)
    requires n < UINT32_LIMIT && AllFlagged(n, p, j, ms) && !IsClients(step, p)
    ensures AllFlagged(n, p, DoPipe(j, p, step), ms)
  {
    var r, count := DoPipe(j, p, step), |Emitted(j.pipe, p)|;
    assert r == j.(pipe := r.pipe, outputs := r.outputs);
    hide PipelineTheorems.Reachable, Emitted, Accepted, Known, AllWritten, Pipeline.Apply, OutputOf, IsClients,
        MessagesOf;
    EmitsKnown(n, p, j, step);
    if count < |Emitted(r.pipe, p)| {
      WritesMore(j.updates, j.outputs, Emitted(r.pipe, p)[count]);
    } else {
      assert j.outputs + [] == j.outputs;
    }
  }

  lemma {:induction false} FlaggedRun(n: nat, p: PathId, actions: seq<AlarmPipeline.Action>)
    requires n < UINT32_LIMIT
    requires var ms := Messages(Steps(n, p, actions)); Sound(ms) && AlwaysChanges(ms)
    ensures AllFlagged(n, p, AlarmPipeline.Run(n, p, actions), Messages(Steps(n, p, actions)))
  {
    hide *;
    if actions == [] {
      FlaggedInit(n, p);
    } else {
      var before, a := actions[..|actions| - 1], actions[|actions| - 1];
      var j, ms := AlarmPipeline.Run(n, p, before), Messages(Steps(n, p, before));
      assert actions == before + [a];
      RunSnoc(n, p, before, a);
      FlaggedPrefix(ms, MessagesOfAction(j, p, a));
      FlaggedRun(n, p, before);
      FlaggedStep(n, p, j, ms, a);
    }
  }

  lemma FlaggedPrefix(ms: seq<Option<string>>, more: seq<Option<string>>)
    requires Sound(ms + more) && AlwaysChanges(ms + more)
    ensures Sound(ms) && AlwaysChanges(ms)
  {
    var both := ms + more;
    assert forall i :: 0 <= i < |ms| ==> both[i] == ms[i];
  }

  lemma FlaggedStep(n: nat, p: PathId, j: Joint, ms: seq<Option<string>>, a: AlarmPipeline.Action)
    requires n < UINT32_LIMIT && AllFlagged(n, p, j, ms)
    requires var more := ms + MessagesOfAction(j, p, a); Sound(more) && AlwaysChanges(more)
    ensures AllFlagged(n, p, AlarmPipeline.Apply(j, p, a), ms + MessagesOfAction(j, p, a))
  {
    hide AllFlagged, Queued, DoEmit, DoEmitCached, DoPipe, Sound, AlwaysChanges, View, Running, IsClients;
    NotFaulty(n, p, j, ms);
    assert ms + [] == ms;
    match a
    case Event(message) => if Running(j.pipe, p) { FlaggedEvent(n, p, j, ms, message); }
    case IdleTimer => if Running(j.pipe, p) { FlaggedTimer(n, p, j, ms); }
    case Pipe(step) => if !IsClients(step, p) { FlaggedPipe(n, p, j, ms, step); }
  }

  lemma NotFaulty(n: nat, p: PathId, j: Joint, ms: seq<Option<string>>)
    requires AllFlagged(n, p, j, ms)
    ensures !j.fault
  {
  }

  lemma FlaggedInit(n: nat, p: PathId)
    ensures AllFlagged(n, p, AlarmPipeline.Run(n, p, []), Messages(Steps(n, p, [])))
  {
    assert Pipeline.Init(n) == Pipeline.Run(Pipeline.Init(n), []);
  }

  // A loss with two workers

  /** So many updates wait in the stream's queue, and no worker has any. */
  ghost predicate AllWait(n: nat, j: Joint, c: Small, ms: seq<Option<string>>) {
    && At(n, j, c, ms) && j.cached == |ms| - 1 && MessagesOf(j.updates) == ms && j.outputs == []
    && c.transit == 0 && c.emitted == [] && c.ws == seq(n, _ => IDLE)
    && |c.queue| == |ms| && (forall i :: 0 <= i < |ms| ==> c.queue[i] == Some(i))
    && forall i :: 0 <= i < |ms| ==> j.updates[i].flag == NextFlag(ms[..i], ms[i])
  }

  lemma WaitSnoc(n: nat, j: Joint, c: Small, r: Joint, d: Small, ms: seq<Option<string>>, message: Option<string>)
    requires AllWait(n, j, c, ms) && At(n, r, d, ms + [message])
    requires d == c.(queue := c.queue + [Some(|ms|)], accepted := c.accepted + [|ms|])
    requires r == Joint(PipeOf(d), j.updates + [UpdateRec(message, NextFlag(ms, message))], |ms|, j.outputs, false)
    ensures AllWait(n, r, d, ms + [message])
  {
    hide At, NextFlag;
    var both := ms + [message];
    assert MessagesOf(r.updates) == both;
    forall i | 0 <= i < |both| ensures r.updates[i].flag == NextFlag(both[..i], both[i]) {
      assert both[..i] == ms[..i];
      assert i == |ms| ==> ms[..i] == ms;
    }
  }

  lemma {:induction false} AllArrive(n: nat, ms: seq<Option<string>>) returns (j: Joint, c: Small)
    requires Sound(ms)
    ensures AllWait(n, j, c, ms)
  {
    if ms == [] {
      j := Begin(n);
      c := Fresh(n);
      assert MessagesOf(j.updates) == [];
    } else {
      var front, message := ms[..|ms| - 1], ms[|ms| - 1];
      assert Sound(front) && ms == front + [message];
      hide Sound, At;
      var before, d := AllArrive(n, front);
      j, c := Arrives(n, before, d, front, message);
      hide AllWait;
      WaitSnoc(n, before, d, j, c, front, message);
    }
  }

  /** One worker fetches everything before update i, and a second one converts that update first. */
  lemma SecondIsFirst(n: nat, ms: seq<Option<string>>, i: int) returns (j: Joint)
    requires n >= 2 && Sound(ms) && 0 < i < |ms| && !NextFlag(ms[..i], ms[i])
    ensures Reaches(n, PATH, j, ms) && j.outputs == [Output(i, NO_CHANGE)]
  {
    hide Sound, NextFlag, Packets, OutputOf, MessagesOf, Reaches, AllWait, PipeOf, At;
    var start, c := AllArrive(n, ms);
    WaitFacts(n, start, c, ms, i);
    Unflagged(start.updates, i);
    var j1, c1 := Fetches(n, start, c, ms, 0, i);
    var c2;
    j, c2 := ConvertsHead(n, j1, c1, ms, 1, i);
    AtReaches(n, j, c2, ms);
  }

  lemma AtReaches(n: nat, j: Joint, c: Small, ms: seq<Option<string>>)
    requires At(n, j, c, ms)
    ensures Reaches(n, PATH, j, ms)
  {
  }

  lemma WaitFacts(n: nat, j: Joint, c: Small, ms: seq<Option<string>>, i: int)
    requires AllWait(n, j, c, ms) && n >= 2 && 0 < i < |ms| && !NextFlag(ms[..i], ms[i])
    ensures At(n, j, c, ms) && j.outputs == [] && c.transit == 0 && |c.queue| == |ms| && |c.ws| >= 2
    ensures c.ws[0] == IDLE && c.ws[1] == IDLE && c.queue[i..][0] == Some(i)
    ensures forall k :: 0 <= k < i ==> c.queue[k].Some?
    ensures |j.updates| == |ms| && !j.updates[i].flag
  {
    hide At, NextFlag;
  }

  lemma Unflagged(updates: seq<UpdateRec>, i: int)
    requires 0 <= i < |updates| && !updates[i].flag
    ensures OutputOf(updates, i) == Output(i, NO_CHANGE)
  {
  }

  /** A reader who has seen nothing but NO_CHANGE holds nothing. */
  lemma HoldsNothing(s: AlarmDelta.State, i: int)
    requires s.outputs == [Output(i, NO_CHANGE)]
    ensures !Lossless(s)
  {
    assert s.outputs[..0 + 1] == s.outputs && s.outputs[..0] == [];
    assert Held(s.outputs) == None;
    assert !Correct(s, 0);
  }

  /**
    With several workers the condition is much stronger: no run loses a status if and only if no message
    means NO_CHANGE and every message differs from the one before it, so that every update is flagged.
   */
  lemma SeveralWorkersExactly(n: nat, ms: seq<Option<string>>)
    requires 2 <= n < UINT32_LIMIT && Sound(ms)
    ensures NeverLoses(n, ms) <==> Plain(ms) && AlwaysChanges(ms)
  {
    if Plain(ms) && AlwaysChanges(ms) {
      forall p, j | Reaches(n, p, j, ms) ensures Lossless(View(j, p)) {
        var actions :| AlarmPipeline.Run(n, p, actions) == j && Messages(Steps(n, p, actions)) == ms;
        hide AlarmPipeline.Run, Steps, Plain, AlwaysChanges, Sound, Lossless;
        FlaggedRun(n, p, actions);
        WrittenIsLossless(View(j, p));
      }
    }
    if NeverLoses(n, ms) {
      NeverOneByOne(n, ms);
      forall i | 0 < i < |ms| ensures ms[i].Some? && ms[i] != ms[i - 1] {
        assert ms[..i] != [] && ms[..i][|ms[..i]| - 1] == ms[i - 1];
        hide Lossless, Sound, Plain, Quiet, Reaches;
        if !NextFlag(ms[..i], ms[i]) {
          var j := SecondIsFirst(n, ms, i);
          HoldsNothing(View(j, PATH), i);
        }
      }
    }
  }
}
