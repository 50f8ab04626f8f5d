/**
  What workers can still do: from a state in which no worker is about to use freed memory, a fill that can
  end is brought to its end, and every worker comes to the test of its run flag and can be joined.
 */
module PipelineProgress {
  import opened Basics
  import opened Batches
  import opened Pipeline
  import opened PipelineSafety
  import opened PipelineCounts
  import opened PipelineBounds
  import opened PipelineTheorems
  import Rotation

  // What every run keeps besides the invariant

  /** A fill began at a position, and a destructor is only past its wait if its stream is not registered. */
  ghost predicate Tidy(s: State) {
    && (s.filler.Busy? ==> s.filler.first >= 0)
    && forall p :: p in s.paths && s.paths[p].stage != Live ==> p.stream !in s.registry
  }

  lemma ApplyTidy(s: State, a: Action)
    requires Tidy(s) && Core(s)
    ensures Tidy(Apply(s, a))
  {
    CoreFacts(s);
    hide Core, WorkersOk, Counts, FillerOk, Tidy, DoAddStream, DoUnregister, DoEnqueue, DoTestRun, DoBeginFill, DoVisit,
        DoAdvance, DoDequeue, DoEmit, DoDestroy, DoStopWorker, DoReadTransit, DoFree;
    if !s.thrown {
      match a
      case AddStream(n) => AddTidy(s, n);
      case Unregister(i) => UnregisterTidy(s, i);
      case BeginFill(k, budget) => BeginTidy(s, k, budget);
      case Visit(k, snapshot) => VisitTidy(s, k, snapshot);
      case Emit(k) => DrainTidy(s, k);
      case Destroy(k) => DrainTidy(s, k);
      case ReadTransit(p) => StageTidy(s, p);
      case Free(p) => StageTidy(s, p);
      case _ => RestTidy(s, a);
    }
  }

  lemma UnregisterTidy(s: State, i: int)
    requires Tidy(s)
    ensures Tidy(DoUnregister(s, i))
  {
  }

  lemma BeginTidy(s: State, k: int, budget: nat)
    requires Tidy(s) && Shape(s)
    ensures Tidy(DoBeginFill(s, k, budget))
  {
    hide Distinct;
  }

  lemma VisitTidy(s: State, k: int, snapshot: nat)
    requires Tidy(s)
    ensures Tidy(DoVisit(s, k, snapshot))
  {
    hide Taken, Batch, Present, PathsOf;
  }

  lemma DrainTidy(s: State, k: int)
    requires Tidy(s)
    ensures Tidy(DoEmit(s, k)) && Tidy(DoDestroy(s, k))
  {
  }

  lemma StageTidy(s: State, p: PathId)
    requires Tidy(s)
    ensures Tidy(DoReadTransit(s, p)) && Tidy(DoFree(s, p))
  {
  }

  lemma RestTidy(s: State, a: Action)
    requires Tidy(s) && (a.Enqueue? || a.TestRun? || a.Advance? || a.Dequeue? || a.StopWorker?)
    ensures Tidy(Apply(s, a))
  {
    hide Rotation.Next;
  }

  lemma AddTidy(s: State, n: nat)
    requires Tidy(s) && Shape(s)
    ensures Tidy(DoAddStream(s, n))
  {
    PathsOfFacts(|s.streams|, n);
    hide PathsOf, Distinct;
  }

  lemma {:induction false} RunTidy(numWorkers: nat, actions: seq<Action>)
    ensures Tidy(Run(Init(numWorkers), actions))
  {
    if actions != [] {
      var before := Run(Init(numWorkers), actions[..|actions| - 1]);
      RunTidy(numWorkers, actions[..|actions| - 1]);
      RunKeeps(numWorkers, actions[..|actions| - 1]);
      InvIsCore(before);
      hide Core, Inv, Tidy, Apply;
      ApplyTidy(before, actions[|actions| - 1]);
    }
  }

  // Who still uses a path

  /** The packets that a worker has yet to emit, or whose mark it has yet to take off the path. */
  function Uses(w: Worker): seq<Packet<PathId>> {
    if w.hand.Holding? && w.hand.sent && !w.hand.packet.marked then w.queue else Line(w)
  }

  ghost predicate NoneFreed(s: State, ps: seq<Packet<PathId>>) {
    forall j :: 0 <= j < |ps| ==> !Dangling(s, ps[j].path)
  }

  /** No worker is going to use a path whose memory was given back. */
  ghost predicate Harmless(s: State) {
    forall k :: 0 <= k < |s.workers| ==> NoneFreed(s, Uses(s.workers[k]))
  }

  /** A step of a worker. */
  predicate Own(a: Action) {
    a.TestRun? || a.BeginFill? || a.Visit? || a.Advance? || a.Dequeue? || a.Emit? || a.Destroy?
  }

  lemma SameUses(s: State, t: State)
    requires SameHolding(s, t)
    ensures Harmless(t) <==> Harmless(s)
  {
    assert forall k :: 0 <= k < |s.workers| ==> Uses(t.workers[k]) == Uses(s.workers[k]);
    hide Uses;
    if Harmless(s) {
      assert forall k :: 0 <= k < |s.workers| ==> NoneFreed(s, Uses(s.workers[k]));
    }
    if Harmless(t) {
      assert forall k :: 0 <= k < |s.workers| ==> NoneFreed(t, Uses(t.workers[k]));
    }
  }

  /** A step of one worker in which no path comes or goes, and the worker uses no more than before. */
  lemma FewerUses(s: State, t: State, k: int, n: nat)
    requires Harmless(s) && 0 <= k < |s.workers| == |t.workers| && t.workers == s.workers[k := t.workers[k]]
    requires n <= |Uses(s.workers[k])| && Uses(t.workers[k]) == Uses(s.workers[k])[n..]
    requires forall p :: Dangling(t, p) == Dangling(s, p)
    ensures Harmless(t)
  {
    hide Uses, Dangling;
    assert NoneFreed(s, Uses(s.workers[k]));
    forall i | 0 <= i < |t.workers| ensures NoneFreed(t, Uses(t.workers[i])) {
      assert NoneFreed(s, Uses(s.workers[i]));
    }
  }

  lemma DequeueHarmless(s: State, k: int)
    requires Harmless(s)
    ensures Harmless(DoDequeue(s, k))
  {
    var t := DoDequeue(s, k);
    if t != s {
      assert t.workers == s.workers[k := t.workers[k]];
      if s.workers[k].queue != [] {
        assert [s.workers[k].queue[0]] + s.workers[k].queue[1..] == s.workers[k].queue;
      }
      assert Uses(t.workers[k]) == Uses(s.workers[k])[0..];
      hide Harmless, Uses;
      FewerUses(s, t, k, 0);
    }
  }

  lemma EmitHarmless(s: State, k: int)
    requires Harmless(s)
    ensures Harmless(DoEmit(s, k))
  {
    var t := DoEmit(s, k);
    if t.workers != s.workers {
      assert t.workers == s.workers[k := t.workers[k]];
      var n := if s.workers[k].hand.packet.marked then 0 else 1;
      assert Uses(t.workers[k]) == Uses(s.workers[k])[n..];
      hide Harmless, Uses;
      FewerUses(s, t, k, n);
    } else {
      hide Uses;
    }
  }

  lemma DestroyHarmless(s: State, k: int)
    requires Harmless(s)
    ensures Harmless(DoDestroy(s, k))
  {
    var t := DoDestroy(s, k);
    if t.workers != s.workers {
      assert t.workers == s.workers[k := t.workers[k]];
      var n := if s.workers[k].hand.packet.marked then 1 else 0;
      assert Uses(t.workers[k]) == Uses(s.workers[k])[n..];
      hide Harmless, Uses;
      FewerUses(s, t, k, n);
    } else {
      hide Uses;
    }
  }

  lemma VisitHarmless(s: State, k: int, snapshot: nat)
    requires Harmless(s) && Core(s) && Tidy(s)
    ensures Harmless(DoVisit(s, k, snapshot))
  {
    var t := DoVisit(s, k, snapshot);
    if CanVisit(s, k) {
      VisitUses(s, k, snapshot);
      hide *;
      MoreUses(s, t, k, Packed(s, snapshot));
    } else {
      NoVisit(s, k, snapshot);
      hide DoVisit, Core;
      assert SameHolding(s, t);
      SameUses(s, t);
    }
  }

  /** What the visit adds are packets for paths of a registered stream. */
  lemma VisitUses(s: State, k: int, snapshot: nat)
    requires Harmless(s) && Core(s) && Tidy(s) && CanVisit(s, k)
    ensures var t := DoVisit(s, k, snapshot);
            && |t.workers| == |s.workers| && t.workers == s.workers[k := t.workers[k]]
            && Uses(t.workers[k]) == Uses(s.workers[k]) + Packed(s, snapshot)
            && NoneFreed(s, Packed(s, snapshot)) && forall p :: Dangling(t, p) == Dangling(s, p)
  {
    VisitState(s, k, snapshot);
    VisitFacts(s, k);
    PackedPaths(s, k, snapshot);
    hide Core, DoVisit, Packed, Taking, Present, Covered, WorkersOk, Counts, Harmless;
  }

  lemma MoreUses(s: State, t: State, k: int, more: seq<Packet<PathId>>)
    requires Harmless(s) && 0 <= k < |s.workers| == |t.workers| && t.workers == s.workers[k := t.workers[k]]
    requires Uses(t.workers[k]) == Uses(s.workers[k]) + more && NoneFreed(s, more)
    requires forall p :: Dangling(t, p) == Dangling(s, p)
    ensures Harmless(t)
  {
    hide Uses, Dangling;
    assert NoneFreed(s, Uses(s.workers[k]));
    forall i | 0 <= i < |t.workers| ensures NoneFreed(t, Uses(t.workers[i])) {
      assert NoneFreed(s, Uses(s.workers[i]));
    }
  }

  /** The steps of workers and clients keep it so. */
  lemma StepHarmless(s: State, a: Action)
    requires Harmless(s) && Core(s) && Tidy(s) && May(a, ALL)
    ensures Harmless(Apply(s, a))
  {
    hide Harmless, Core, Tidy, SameHolding, DoEnqueue, DoTestRun, DoBeginFill, DoVisit, DoAdvance, DoDequeue, DoEmit,
        DoDestroy, DoStopWorker;
    SameUsesOf(s, a);
    match a
    case Visit(k, snapshot) => VisitHarmless(s, k, snapshot);
    case Dequeue(k) => DequeueHarmless(s, k);
    case Emit(k) => EmitHarmless(s, k);
    case Destroy(k) => DestroyHarmless(s, k);
    case _ =>
  }

  lemma SameUsesOf(s: State, a: Action)
    requires a.Enqueue? || a.TestRun? || a.BeginFill? || a.Advance? || a.StopWorker? || a.Visit? || a.Dequeue?
             || a.Emit? || a.Destroy?
    ensures a.Enqueue? || a.TestRun? || a.BeginFill? || a.Advance? || a.StopWorker? ==>
      (Harmless(Apply(s, a)) <==> Harmless(s))
  {
    hide Harmless, SameHolding, DoEnqueue, DoTestRun, DoBeginFill, DoAdvance, DoStopWorker, DoVisit, DoDequeue, DoEmit,
        DoDestroy;
    if s.thrown {
    } else if a.Enqueue? {
      EnqueueHolds(s, a.stream, a.entry);
      SameUses(s, DoEnqueue(s, a.stream, a.entry));
    } else if a.TestRun? {
      TestRunHolds(s, a.k);
      SameUses(s, DoTestRun(s, a.k));
    } else if a.BeginFill? {
      BeginHolds(s, a.k, a.budget);
      SameUses(s, DoBeginFill(s, a.k, a.budget));
    } else if a.Advance? {
      AdvanceHolds(s, a.k);
      SameUses(s, DoAdvance(s, a.k));
    } else if a.StopWorker? {
      StopHolds(s, a.k);
      SameUses(s, DoStopWorker(s, a.k));
    }
  }

  // Going on

  /** The program goes on, and no worker is about to fail. */
  ghost predicate Going(s: State) {
    Inv(s) && Tidy(s) && Harmless(s) && !s.thrown
  }

  /** What may happen besides the steps of workers that were told to run: clients' updates, and stops. */
  datatype Allowed = Allowed(clients: bool, stops: bool)

  const WORKERS := Allowed(false, false)
  const STOPS := Allowed(false, true)
  const ALL := Allowed(true, true)

  predicate May(a: Action, may: Allowed) {
    Own(a) || (may.clients && a.Enqueue?) || (may.stops && a.StopWorker?)
  }

  ghost predicate Steps(more: seq<Action>, may: Allowed) {
    forall i :: 0 <= i < |more| ==> May(more[i], may)
  }

  /** Such steps lead from s to t. */
  ghost predicate Leads(s: State, t: State, may: Allowed) {
    exists more :: Run(s, more) == t && Steps(more, may)
  }

  lemma LeadsNowhere(s: State, may: Allowed)
    ensures Leads(s, s, may)
  {
    NothingRun(s);
    hide Run;
    assert Steps([], may);
  }

  lemma LeadsOn(root: State, s: State, a: Action, may: Allowed)
    requires Leads(root, s, may) && May(a, may)
    ensures Leads(root, Apply(s, a), may)
  {
    hide Run, Apply;
    var more :| Run(root, more) == s && Steps(more, may);
    RunSnoc(root, more, a);
    assert Steps(more + [a], may);
  }

  lemma OneStep(root: State, s: State, a: Action, may: Allowed) returns (t: State)
    requires Leads(root, s, may) && Going(s) && May(a, may) && !Apply(s, a).thrown
    ensures t == Apply(s, a) && Leads(root, t, may) && Going(t)
  {
    InvIsCore(s);
    hide Inv, Core, Tidy, Harmless, Apply, Leads;
    LeadsOn(root, s, a, may);
    ApplyKeeps(s, a);
    ApplyTidy(s, a);
    StepHarmless(s, a);
    t := Apply(s, a);
  }

  // A worker outside the fill

  /** How many steps a worker outside the fill still takes at most until it tests its run flag. */
  function Rank(w: Worker): (n: nat) {
    match w.phase
    case Testing => 0
    case Draining => 1 + 3 * |w.queue| + if w.hand.Empty? then 0 else if w.hand.sent then 1 else 2
    case _ => 2
  }

  function NextStep(w: Worker, k: int): Action {
    match w.phase
    case Draining => if w.hand.Empty? then Dequeue(k) else if w.hand.sent then Destroy(k) else Emit(k)
    case _ => BeginFill(k, 0)
  }

  /** Nothing but this worker changes. */
  ghost predicate OnlyWorker(s: State, t: State, k: int) {
    && |t.workers| == |s.workers| && 0 <= k < |s.workers| && t.workers == s.workers[k := t.workers[k]]
    && t.registry == s.registry
  }

  lemma StepForward(s: State, k: int)
    requires Going(s) && s.filler == Idle && 0 <= k < |s.workers|
    requires s.workers[k].phase != Joined && s.workers[k].phase != Testing
    ensures var t := Apply(s, NextStep(s.workers[k], k));
            && !t.thrown && t.filler == Idle && OnlyWorker(s, t, k)
            && t.workers[k].phase != Joined && t.workers[k].doRun == s.workers[k].doRun
            && Rank(t.workers[k]) < Rank(s.workers[k])
  {
    WorkerFacts(s, k);
    hide Going;
    NextWorks(s, k);
  }

  /** What is known of a worker outside the fill. */
  lemma WorkerFacts(s: State, k: int)
    requires Going(s) && s.filler == Idle && 0 <= k < |s.workers|
    ensures PhaseOk(s.workers[k]) && !InFill(s.workers[k]) && !s.thrown
    ensures var hand := s.workers[k].hand;
            hand.Holding? && !(hand.sent && !hand.packet.marked) ==> !Dangling(s, hand.packet.path)
  {
    InvIsCore(s);
    var w := s.workers[k];
    assert WorkerOk(s.paths, w);
    assert NoneFreed(s, Uses(w));
    if w.hand.Holding? && !(w.hand.sent && !w.hand.packet.marked) {
      assert Uses(w)[0] == w.hand.packet;
    }
    hide Core, Inv, Tidy, Harmless;
  }

  lemma NextWorks(s: State, k: int)
    requires s.filler == Idle && 0 <= k < |s.workers| && !s.thrown
    requires s.workers[k].phase != Joined && s.workers[k].phase != Testing
    requires PhaseOk(s.workers[k]) && !InFill(s.workers[k])
    requires var hand := s.workers[k].hand;
             hand.Holding? && !(hand.sent && !hand.packet.marked) ==> !Dangling(s, hand.packet.path)
    ensures var t := Apply(s, NextStep(s.workers[k], k)); StepsForward(s, t, k)
  {
    hide Dangling, StepsForward, DoBeginFill, DoDequeue, DoEmit, DoDestroy;
    match s.workers[k].phase
    case Ready => BeginsNothing(s, k);
    case Draining =>
      if s.workers[k].hand.Empty? {
        Dequeues(s, k);
      } else if s.workers[k].hand.sent {
        Destroys(s, k);
      } else {
        EmitsIt(s, k);
      }
  }

  ghost predicate StepsForward(s: State, t: State, k: int) {
    && !t.thrown && t.filler == Idle && OnlyWorker(s, t, k)
    && t.workers[k].phase != Joined && t.workers[k].doRun == s.workers[k].doRun
    && Rank(t.workers[k]) < Rank(s.workers[k])
  }

  lemma BeginsNothing(s: State, k: int)
    requires s.filler == Idle && 0 <= k < |s.workers| && !s.thrown && s.workers[k].phase == Ready
    requires PhaseOk(s.workers[k])
    ensures StepsForward(s, DoBeginFill(s, k, 0), k)
  {
  }

  lemma Dequeues(s: State, k: int)
    requires s.filler == Idle && 0 <= k < |s.workers| && !s.thrown && s.workers[k].phase == Draining
    requires s.workers[k].hand.Empty?
    ensures StepsForward(s, DoDequeue(s, k), k)
  {
  }

  lemma EmitsIt(s: State, k: int)
    requires s.filler == Idle && 0 <= k < |s.workers| && !s.thrown && s.workers[k].phase == Draining
    requires var hand := s.workers[k].hand; hand.Holding? && !hand.sent && !Dangling(s, hand.packet.path)
    ensures StepsForward(s, DoEmit(s, k), k)
  {
  }

  lemma Destroys(s: State, k: int)
    requires s.filler == Idle && 0 <= k < |s.workers| && !s.thrown && s.workers[k].phase == Draining
    requires var hand := s.workers[k].hand;
             hand.Holding? && hand.sent && (hand.packet.marked ==> !Dangling(s, hand.packet.path))
    ensures StepsForward(s, DoDestroy(s, k), k)
  {
  }

  /** A worker outside the fill comes to the test of its run flag. */
  lemma {:induction false} ToTheTest(root: State, s: State, k: int, may: Allowed) returns (t: State)
    requires Leads(root, s, may) && Going(s) && s.filler == Idle && 0 <= k < |s.workers|
    requires s.workers[k].phase != Joined
    ensures Leads(root, t, may) && Going(t) && t.filler == Idle && OnlyWorker(s, t, k)
    ensures t.workers[k].phase == Testing && t.workers[k].doRun == s.workers[k].doRun
    decreases Rank(s.workers[k])
  {
    hide Leads, Going, Apply, Rank, NextStep;
    if s.workers[k].phase == Testing {
      t := s;
    } else {
      StepForward(s, k);
      NextIsOwn(s.workers[k], k);
      var u := OneStep(root, s, NextStep(s.workers[k], k), may);
      t := ToTheTest(root, u, k, may);
    }
  }

  lemma NextIsOwn(w: Worker, k: int)
    ensures Own(NextStep(w, k))
  {
  }

  /** It can be stopped then, and is joined. */
  lemma JoinOne(root: State, s: State, k: int, may: Allowed) returns (t: State)
    requires Leads(root, s, may) && Going(s) && s.filler == Idle && 0 <= k < |s.workers| && may.stops
    ensures Leads(root, t, may) && Going(t) && t.filler == Idle && OnlyWorker(s, t, k)
    ensures t.workers[k].phase == Joined
  {
    if s.workers[k].phase == Joined {
      t := s;
    } else {
      hide Leads, Going;
      var u := ToTheTest(root, s, k, may);
      GoingOn(u);
      StopsAndTests(u, k);
      hide Apply;
      var v := OneStep(root, u, StopWorker(k), may);
      t := OneStep(root, v, TestRun(k), may);
      OnlyTwice(s, u, t, k);
    }
  }

  lemma StopsAndTests(s: State, k: int)
    requires !s.thrown && 0 <= k < |s.workers| && s.workers[k].phase == Testing
    ensures !Apply(s, StopWorker(k)).thrown
    ensures var t := Apply(Apply(s, StopWorker(k)), TestRun(k));
            !t.thrown && t.filler == s.filler && OnlyWorker(s, t, k) && t.workers[k].phase == Joined
  {
  }

  lemma OnlyTwice(s: State, t: State, u: State, k: int)
    requires OnlyWorker(s, t, k) && OnlyWorker(t, u, k)
    ensures OnlyWorker(s, u, k)
  {
  }

  lemma {:induction false} JoinFrom(root: State, s: State, k: nat, may: Allowed) returns (t: State)
    requires Leads(root, s, may) && Going(s) && s.filler == Idle && k <= |s.workers|
    requires may.stops && forall i :: 0 <= i < k ==> s.workers[i].phase == Joined
    ensures Leads(root, t, may) && AllJoined(t)
    decreases |s.workers| - k
  {
    hide Leads, Going;
    if k == |s.workers| {
      t := s;
    } else {
      var u := JoinOne(root, s, k, may);
      t := JoinFrom(root, u, k + 1, may);
    }
  }

  // A worker inside the fill

  function NumPaths(s: State, id: int): int {
    if 0 <= id < |s.streams| then s.streams[id].numPaths else 0
  }

  /** How many packets it makes to take one update from each of these streams. */
  function PathSum(s: State, ids: seq<int>): (n: int) {
    if ids == [] then 0 else NumPaths(s, ids[0]) + PathSum(s, ids[1..])
  }

  ghost predicate Registered(s: State, ids: seq<int>) {
    forall i :: 0 <= i < |ids| ==> ids[i] in s.registry
  }

  /** The budget can be spent to the last packet on updates of the registered streams. */
  ghost predicate Payable(s: State, left: int) {
    exists ids :: Registered(s, ids) && PathSum(s, ids) == left
  }

  /** A visit that finds nothing in the queue. */
  lemma VisitNothing(s: State, k: int)
    requires Core(s) && !s.thrown && CanVisit(s, k)
    ensures var t := Apply(s, Visit(k, 0));
            && !t.thrown && t.streams == s.streams && t.registry == s.registry && t.cursor == s.cursor
            && t.filler == s.filler && |t.workers| == |s.workers| && t.workers[k].phase == Moving
  {
    VisitFacts(s, k);
    hide Core, CanVisit;
    var id := s.registry[s.cursor];
    var q := s.streams[id].queue;
    assert q[..0] == [] && q[0..] == q;
    assert Batch(PathsOf(id, s.streams[id].numPaths), []) == [];
    hide PathsOf, Bumped;
  }

  /** The cursor moves on. */
  lemma AdvanceOn(s: State, k: int)
    requires s.filler.Busy? && s.filler.worker == k && 0 <= k < |s.workers| && s.workers[k].phase == Moving && !s.thrown
    ensures var t, next := Apply(s, Advance(k)), Rotation.Next(s.cursor, |s.registry|);
            && !t.thrown && t.streams == s.streams && t.registry == s.registry && t.cursor == next
            && |t.workers| == |s.workers|
            && (if s.filler.left > 0 && next != s.filler.first then
                  && t.filler.Busy? && t.filler.worker == k && t.filler.first == s.filler.first
                  && t.filler.left == s.filler.left && t.workers[k].phase == Filling
                else
                  t.filler == Idle)
  {
  }

  /** In the middle of a fill, about to look at a stream that is there. */
  ghost predicate Visiting(s: State, k: int, first: int, left: int) {
    Going(s) && CanVisit(s, k) && s.filler.first == first && s.filler.left == left > 0
  }

  ghost predicate SameStreams(s: State, t: State) {
    t.streams == s.streams && t.registry == s.registry && |t.workers| == |s.workers|
  }

  /** One turn of the loop that finds nothing. */
  lemma EmptyTurn(root: State, s: State, k: int, first: int, left: int, may: Allowed) returns (t: State)
    requires Leads(root, s, may) && Visiting(s, k, first, left)
    ensures Leads(root, t, may) && Going(t) && SameStreams(s, t) && 0 <= s.cursor < |s.registry|
    ensures t.cursor == Rotation.Next(s.cursor, |s.registry|)
    ensures if t.cursor == first then t.filler == Idle else Visiting(t, k, first, left)
  {
    GoingVisit(s, k);
    VisitNothing(s, k);
    hide Leads, Going, Apply;
    var u := OneStep(root, s, Visit(k, 0), may);
    AdvanceOn(u, k);
    t := OneStep(root, u, Advance(k), may);
  }

  lemma GoingVisit(s: State, k: int)
    requires Going(s) && CanVisit(s, k)
    ensures 0 <= s.cursor < |s.registry| && 0 <= s.registry[s.cursor] < |s.streams| && !s.thrown
    ensures Core(s) && s.filler.left > 0 && s.streams[s.registry[s.cursor]].numPaths >= 0
  {
    InvIsCore(s);
    VisitFacts(s, k);
    hide Core;
  }

  /** How far the cursor is from a position, at least one turn away. */
  function Distance(cursor: int, target: int, n: int): int {
    if cursor < target then target - cursor else target + n - cursor
  }

  /** If the position where the fill began is still there, it ends after at most one more time around. */
  lemma {:induction false} ComesAround(root: State, s: State, k: int, first: int, left: int, may: Allowed)
    returns (t: State)
    requires Leads(root, s, may) && Visiting(s, k, first, left) && 0 <= first < |s.registry|
    ensures Leads(root, t, may) && Going(t) && t.filler == Idle && t.registry == s.registry
    decreases Distance(s.cursor, first, |s.registry|)
  {
    VisitingCursor(s, k, first, left);
    hide Leads, Going, CanVisit;
    var u := EmptyTurn(root, s, k, first, left, may);
    if u.cursor == first {
      t := u;
    } else {
      VisitingCursor(u, k, first, left);
      t := ComesAround(root, u, k, first, left, may);
    }
  }

  lemma VisitingCursor(s: State, k: int, first: int, left: int)
    requires Visiting(s, k, first, left)
    ensures 0 <= s.cursor < |s.registry| && 0 <= k < |s.workers| && left > 0
  {
    GoingVisit(s, k);
    hide Going;
  }

  /** Otherwise the fill goes around as long as there is budget. */
  lemma {:induction false} GoesTo(root: State, s: State, k: int, first: int, left: int, target: int, may: Allowed)
    returns (t: State)
    requires may.clients && Leads(root, s, may) && Visiting(s, k, first, left) && first >= |s.registry|
    requires 0 <= target < |s.registry|
    ensures Leads(root, t, may) && Visiting(t, k, first, left) && SameStreams(s, t) && t.cursor == target
    decreases if s.cursor == target then 0 else Distance(s.cursor, target, |s.registry|)
  {
    VisitingCursor(s, k, first, left);
    hide Leads, Visiting;
    if s.cursor == target {
      t := s;
    } else {
      var u := EmptyTurn(root, s, k, first, left, may);
      t := GoesTo(root, u, k, first, left, target, may);
    }
  }

  // Spending the budget

  /** The snapshot with which a call takes exactly one update. */
  lemma {:induction false} OneTaken(q: seq<Option<UpdateId>>, paths: nat, max: nat) returns (snapshot: nat)
    requires paths <= max && exists i :: 0 <= i < |q| && q[i].Some?
    ensures |Present(q[..Taken(q, paths, snapshot, max)])| == 1
  {
    if q[0].Some? {
      snapshot := 1;
      assert Taken(q, paths, 1, max) == 1 && q[..1] == [q[0]];
      assert Present([q[0]]) == [q[0].value] + Present([]);
    } else {
      var i :| 0 <= i < |q| && q[i].Some?;
      assert q[1..][i - 1] == q[i];
      var rest := OneTaken(q[1..], paths, max);
      snapshot := rest + 1;
      assert q[..Taken(q, paths, snapshot, max)][1..] == q[1..][..Taken(q[1..], paths, rest, max)];
    }
  }

  /** The same streams are registered, with the same numbers of paths. */
  ghost predicate SamePaths(s: State, t: State) {
    && t.registry == s.registry && |t.streams| == |s.streams| && |t.workers| == |s.workers|
    && forall i :: 0 <= i < |s.streams| ==> t.streams[i].numPaths == s.streams[i].numPaths
  }

  lemma {:induction false} SamePathSum(s: State, t: State, ids: seq<int>)
    requires SamePaths(s, t)
    ensures PathSum(t, ids) == PathSum(s, ids) && (Registered(t, ids) <==> Registered(s, ids))
  {
    if ids != [] {
      SamePathSum(s, t, ids[1..]);
    }
  }

  /** An update comes in on the stream that is visited next. */
  lemma UpdateComes(root: State, s: State, k: int, first: int, left: int, may: Allowed) returns (t: State)
    requires may.clients && Leads(root, s, may) && Visiting(s, k, first, left)
    ensures Leads(root, t, may) && Visiting(t, k, first, left) && SamePaths(s, t) && t.cursor == s.cursor
    ensures 0 <= t.cursor < |t.registry| && 0 <= t.registry[t.cursor] < |t.streams|
    ensures var q := t.streams[t.registry[t.cursor]].queue; exists i :: 0 <= i < |q| && q[i].Some?
  {
    GoingVisit(s, k);
    hide Leads, Going;
    var id := s.registry[s.cursor];
    var q := s.streams[id].queue + [Some(0)];
    t := OneStep(root, s, Enqueue(id, Some(0)), may);
    assert t.streams[id].queue == q && q[|q| - 1] == Some(0);
  }

  lemma NumberOfPaths(stream: int, n: int)
    requires n >= 0
    ensures |PathsOf(stream, n)| == n
  {
  }

  /** A visit that takes one update. */
  lemma VisitOne(s: State, k: int, snapshot: nat)
    requires Core(s) && !s.thrown && CanVisit(s, k) && |Taking(s, snapshot)| == 1
    ensures var t := Apply(s, Visit(k, snapshot));
            && !t.thrown && SamePaths(s, t) && t.cursor == s.cursor && 0 <= s.cursor < |s.registry|
            && 0 <= k < |t.workers| && t.workers[k].phase == Moving
            && t.filler == s.filler.(left := s.filler.left - NumPaths(s, s.registry[s.cursor]))
  {
    VisitFacts(s, k);
    VisitState(s, k, snapshot);
    var id := s.registry[s.cursor];
    NumberOfPaths(id, s.streams[id].numPaths);
    BatchLength(PathsOf(id, s.streams[id].numPaths), Taking(s, snapshot));
    assert |Packed(s, snapshot)| == NumPaths(s, id);
    hide Core, Taking, Packed, DoVisit, Present, PathsOf, Bumped, WorkersOk, Counts;
  }

  lemma TakingOne(s: State, k: int) returns (snapshot: nat)
    requires Going(s) && CanVisit(s, k) && 0 <= s.cursor < |s.registry| && 0 <= s.registry[s.cursor] < |s.streams|
    requires NumPaths(s, s.registry[s.cursor]) <= s.filler.left
    requires var q := s.streams[s.registry[s.cursor]].queue; exists i :: 0 <= i < |q| && q[i].Some?
    ensures Core(s) && |Taking(s, snapshot)| == 1
  {
    InvIsCore(s);
    VisitFacts(s, k);
    hide Core, Going, WorkersOk, Counts;
    var r := s.streams[s.registry[s.cursor]];
    snapshot := OneTaken(r.queue, r.numPaths, s.filler.left);
  }

  /** One update of a registered stream is paid for. */
  lemma PayOne(root: State, s: State, k: int, first: int, left: int, id: int, may: Allowed) returns (t: State)
    requires may.clients && Leads(root, s, may) && Visiting(s, k, first, left) && first >= |s.registry|
    requires id in s.registry && NumPaths(s, id) <= left
    ensures Leads(root, t, may) && Going(t) && SamePaths(s, t)
    ensures if left == NumPaths(s, id) then t.filler == Idle else Visiting(t, k, first, left - NumPaths(s, id))
  {
    hide Leads, Going, CanVisit, Taking, Apply, Visiting;
    var target :| 0 <= target < |s.registry| && s.registry[target] == id;
    VisitingWorker(s, k, first, left);
    var u := GoesTo(root, s, k, first, left, target, may);
    var v := UpdateComes(root, u, k, first, left, may);
    t := PayHere(root, v, k, first, left, may);
    SameAgain(s, v, t);
  }

  lemma SameAgain(s: State, t: State, u: State)
    requires SamePaths(s, t) && SamePaths(t, u)
    ensures SamePaths(s, u)
  {
  }

  /** With an update waiting on the stream under the cursor. */
  lemma PayHere(root: State, s: State, k: int, first: int, left: int, may: Allowed) returns (t: State)
    requires Leads(root, s, may) && Visiting(s, k, first, left) && first >= |s.registry|
    requires 0 <= s.cursor < |s.registry| && 0 <= s.registry[s.cursor] < |s.streams|
    requires var q := s.streams[s.registry[s.cursor]].queue; exists i :: 0 <= i < |q| && q[i].Some?
    requires NumPaths(s, s.registry[s.cursor]) <= left
    ensures Leads(root, t, may) && Going(t) && SamePaths(s, t)
    ensures var rest := left - NumPaths(s, s.registry[s.cursor]);
            if rest == 0 then t.filler == Idle else Visiting(t, k, first, rest)
  {
    VisitingWorker(s, k, first, left);
    hide Leads, Going, CanVisit, Taking, Apply;
    var snapshot := TakingOne(s, k);
    GoingOn(s);
    VisitOne(s, k, snapshot);
    var u := OneStep(root, s, Visit(k, snapshot), may);
    hide *;
    PayAdvance(root, u, k, first, may);
    SameFill(s, u);
    t := OneStep(root, u, Advance(k), may);
    SameAgain(s, u, t);
  }

  lemma SameFill(s: State, t: State)
    requires SamePaths(s, t)
    ensures t.registry == s.registry && |t.workers| == |s.workers|
  {
  }

  lemma PayAdvance(root: State, s: State, k: int, first: int, may: Allowed)
    requires Leads(root, s, may) && Going(s) && s.filler.Busy? && s.filler.worker == k && s.filler.first == first
    requires 0 <= k < |s.workers| && s.workers[k].phase == Moving && first >= |s.registry| > 0
    ensures var t := Apply(s, Advance(k));
            && !t.thrown && SamePaths(s, t)
            && (Going(t) ==> if s.filler.left == 0 then t.filler == Idle else Visiting(t, k, first, s.filler.left))
  {
    GoingOn(s);
    AdvanceOn(s, k);
    VisitingNow(Apply(s, Advance(k)), k);
    hide Leads, Going, CanVisit, Apply;
  }

  lemma VisitingWorker(s: State, k: int, first: int, left: int)
    requires Visiting(s, k, first, left)
    ensures 0 <= k < |s.workers| && s.filler.Busy? && s.filler.worker == k && s.filler.first == first
  {
    hide Going;
  }

  lemma GoingOn(s: State)
    requires Going(s)
    ensures !s.thrown && (s.filler.Busy? ==> s.filler.left >= 0)
  {
    InvIsCore(s);
    hide Inv, Tidy, Harmless, WorkersOk, Counts, Shape;
  }

  lemma VisitingNow(s: State, k: int)
    ensures CanVisit(s, k) <==>
      && s.filler.Busy? && s.filler.worker == k && 0 <= k < |s.workers|
      && s.workers[k].phase == Filling && s.cursor < |s.registry|
  {
  }

  lemma {:induction false} SumNotNegative(s: State, ids: seq<int>)
    requires Shape(s)
    ensures PathSum(s, ids) >= 0
  {
    if ids != [] {
      SumNotNegative(s, ids[1..]);
    }
  }

  lemma {:induction false} PayAll(root: State, s: State, k: int, first: int, left: int, ids: seq<int>, may: Allowed)
    returns (t: State)
    requires may.clients && Leads(root, s, may) && Visiting(s, k, first, left) && first >= |s.registry|
    requires Registered(s, ids) && PathSum(s, ids) == left
    ensures Leads(root, t, may) && Going(t) && t.filler == Idle && t.registry == s.registry
    decreases |ids|
  {
    VisitingCursor(s, k, first, left);
    assert Going(s);
    GoingShape(s);
    SumNotNegative(s, ids[1..]);
    assert ids[0] in s.registry && forall i :: 0 <= i < |ids| - 1 ==> ids[1..][i] == ids[i + 1];
    assert Registered(s, ids[1..]);
    hide Leads, Visiting, Going, Shape, SamePaths, NumPaths;
    if NumPaths(s, ids[0]) == 0 {
      t := PayAll(root, s, k, first, left, ids[1..], may);
    } else {
      var u := PayOne(root, s, k, first, left, ids[0], may);
      if left == NumPaths(s, ids[0]) {
        t := u;
      } else {
        SamePathSum(s, u, ids[1..]);
        SameRegistry(s, u);
        t := PayAll(root, u, k, first, left - NumPaths(s, ids[0]), ids[1..], may);
      }
    }
  }

  lemma SameRegistry(s: State, t: State)
    requires SamePaths(s, t)
    ensures t.registry == s.registry
  {
  }

  lemma GoingShape(s: State)
    requires Going(s)
    ensures Shape(s)
  {
    InvIsCore(s);
    hide Inv, Counts, WorkersOk;
  }

  // When everyone can still be joined

  /** Some continuation of the run ends with all threads joined. */
  ghost predicate CanEnd(s: State) {
    exists more :: AllJoined(Run(s, more))
  }

  /** The same, with nothing but stops and steps of the workers. */
  ghost predicate CanEndAlone(s: State) {
    exists more :: AllJoined(Run(s, more)) && Steps(more, STOPS)
  }

  /** From this position on, the fill finds a stream, and its beginning again or a use for all of its budget. */
  ghost predicate LoopEnds(s: State, cursor: int) {
    && cursor < |s.registry|
    && (s.filler.Busy? ==> s.filler.first < |s.registry| || Payable(s, s.filler.left))
  }

  /** A fill under way can end: before a visit, and between a visit and the move of the cursor. */
  ghost predicate FillEnds(s: State) {
    s.filler.Busy? ==>
      && 0 <= s.filler.worker < |s.workers|
      && if s.workers[s.filler.worker].phase == Filling then LoopEnds(s, s.cursor) else
         var next := Rotation.Next(s.cursor, |s.registry|);
         s.filler.left <= 0 || next == s.filler.first || LoopEnds(s, next)
  }

  // It is enough

  lemma FinishLoop(root: State, s: State, k: int, first: int, left: int, may: Allowed) returns (t: State)
    requires Leads(root, s, may) && Visiting(s, k, first, left) && LoopEnds(s, s.cursor)
    requires may.clients || first < |s.registry|
    ensures Leads(root, t, may) && Going(t) && t.filler == Idle && t.registry == s.registry
  {
    if first < |s.registry| {
      assert Tidy(s);
      hide Leads, Going, CanVisit;
      t := ComesAround(root, s, k, first, left, may);
    } else {
      var ids :| Registered(s, ids) && PathSum(s, ids) == left;
      hide Leads, Going, CanVisit, PathSum;
      t := PayAll(root, s, k, first, left, ids, may);
    }
  }

  lemma FinishFill(root: State, s: State, may: Allowed) returns (t: State)
    requires Leads(root, s, may) && Going(s) && FillEnds(s)
    requires may.clients || (s.filler.Busy? ==> s.filler.first < |s.registry|)
    ensures Leads(root, t, may) && Going(t) && t.filler == Idle && t.registry == s.registry
  {
    if s.filler == Idle {
      t := s;
    } else {
      var k := s.filler.worker;
      FillerFacts(s);
      VisitingNow(s, k);
      hide Leads, Going, CanVisit;
      if s.workers[k].phase == Filling {
        t := FinishLoop(root, s, k, s.filler.first, s.filler.left, may);
      } else {
        AdvanceOn(s, k);
        var u := OneStep(root, s, Advance(k), may);
        if u.filler == Idle {
          t := u;
        } else {
          VisitingNow(u, k);
          assert SamePaths(s, u);
          LoopStays(s, u);
          t := FinishLoop(root, u, k, u.filler.first, u.filler.left, may);
        }
      }
    }
  }

  lemma FillerFacts(s: State)
    requires Going(s) && s.filler.Busy?
    ensures !s.thrown && 0 <= s.filler.worker < |s.workers|
    ensures var phase := s.workers[s.filler.worker].phase;
            (phase == Filling && s.filler.left > 0) || phase == Moving
  {
    InvIsCore(s);
    hide Inv, Tidy, Harmless, WorkersOk, Counts, Shape;
  }

  lemma LoopStays(s: State, t: State)
    requires SamePaths(s, t) && s.filler.Busy? && t.filler.Busy?
    requires t.filler.first == s.filler.first && t.filler.left == s.filler.left
    ensures forall cursor :: LoopEnds(s, cursor) ==> LoopEnds(t, cursor)
  {
    if Payable(s, s.filler.left) {
      var ids :| Registered(s, ids) && PathSum(s, ids) == s.filler.left;
      SamePathSum(s, t, ids);
    }
  }

  lemma Joins(s: State, may: Allowed)
    requires Going(s) && FillEnds(s) && may.stops
    requires may.clients || (s.filler.Busy? ==> s.filler.first < |s.registry|)
    ensures CanEnd(s) && (!may.clients ==> CanEndAlone(s))
  {
    hide Going, FillEnds, AllJoined, Run;
    LeadsNowhere(s, may);
    var t := FinishFill(s, s, may);
    var u := JoinFrom(s, t, 0, may);
  }
}
