/**
  How the threads end: from which states all of them can still be joined, and why not from the others. A
  fill goes around until its budget is spent or it is back where it began; if that position is no longer
  there, only the budget is left.
 */
module PipelineShutdown {
  import opened Basics
  import opened Batches
  import opened Pipeline
  import opened PipelineSafety
  import opened PipelineCounts
  import opened PipelineBounds
  import opened PipelineTheorems
  import opened PipelineFlags
  import opened PipelineProgress
  import Rotation

  // Who was not stopped works on

  /**
    A worker that was never stopped, and whose program goes on, comes to the test of its flag again, and
    from there into the next fill.
   */
  lemma WorksOn(numWorkers: nat, actions: seq<Action>, k: int, budget: nat)
    requires 0 <= k < numWorkers && budget > 0 && StopWorker(k) !in actions
    requires var s := Run(Init(numWorkers), actions);
             !s.thrown && Harmless(s) && FillEnds(s) && s.registry != []
    ensures exists more ::
      var t := Run(Run(Init(numWorkers), actions), more + [TestRun(k)] + [BeginFill(k, budget)]);
      && Steps(more, Allowed(true, false)) && k < |t.workers| && t.workers[k].phase == Filling
      && t.filler.Busy? && t.filler.worker == k && t.filler.visits == 0 && t.filler.left == budget
  {
    var s := Run(Init(numWorkers), actions);
    RunKeeps(numWorkers, actions);
    RunTidy(numWorkers, actions);
    NeverJoined(numWorkers, actions, k);
    hide *;
    GoingIs(s);
    LeadsNowhere(s, Allowed(true, false));
    var t := FinishFill(s, s, Allowed(true, false));
    LeadsSize(s, t, Allowed(true, false), k);
    var u := ToTheTest(s, t, k, Allowed(true, false));
    var more := Way(s, u, Allowed(true, false));
    OnlyIs(t, u, k);
    GoingOn(u);
    LeadsSize(s, u, Allowed(true, false), k);
    EntersFill(u, k, budget);
    RunSnoc(s, more, TestRun(k));
    RunSnoc(s, more + [TestRun(k)], BeginFill(k, budget));
  }

  lemma NeverJoined(numWorkers: nat, actions: seq<Action>, k: int)
    requires 0 <= k < numWorkers && StopWorker(k) !in actions
    ensures var s := Run(Init(numWorkers), actions);
            k < |s.workers| && s.workers[k].phase != Joined && (!s.thrown ==> s.workers[k].doRun)
  {
    AllTold(numWorkers, actions, k);
    hide Run, TestsAt;
  }

  lemma GoingIs(s: State)
    ensures Going(s) <==> Inv(s) && Tidy(s) && Harmless(s) && !s.thrown
  {
    hide Inv, Tidy, Harmless;
  }

  lemma Way(s: State, t: State, may: Allowed) returns (more: seq<Action>)
    requires Leads(s, t, may)
    ensures Run(s, more) == t && Steps(more, may)
  {
    hide Run, Steps;
    more :| Run(s, more) == t && Steps(more, may);
  }

  /** Without stops nobody's flag changes, and nobody is joined. */
  lemma LeadsSize(s: State, t: State, may: Allowed, k: int)
    requires Leads(s, t, may) && !may.stops && 0 <= k < |s.workers|
    requires s.workers[k].phase != Joined && s.workers[k].doRun
    ensures k < |t.workers| && t.workers[k].phase != Joined && t.workers[k].doRun
  {
    hide Run;
    var more :| Run(s, more) == t && Steps(more, may);
    RunSize(s, more, may, k);
  }

  lemma {:induction false} RunSize(s: State, more: seq<Action>, may: Allowed, k: int)
    requires Steps(more, may) && !may.stops && 0 <= k < |s.workers|
    requires s.workers[k].phase != Joined && s.workers[k].doRun
    ensures var t := Run(s, more); k < |t.workers| && t.workers[k].phase != Joined && t.workers[k].doRun
  {
    hide Apply;
    if more != [] {
      var before, a := more[..|more| - 1], more[|more| - 1];
      assert forall i :: 0 <= i < |before| ==> before[i] == more[i];
      RunSize(s, before, may, k);
      SizeStep(Run(s, before), a);
      if !Run(s, before).thrown {
        FlagStep(Run(s, before), a, k);
      }
    }
  }

  lemma OnlyIs(s: State, t: State, k: int)
    requires OnlyWorker(s, t, k)
    ensures t.registry == s.registry
  {
  }

  lemma EntersFill(s: State, k: int, budget: nat)
    requires Going(s) && s.filler == Idle && 0 <= k < |s.workers| && s.workers[k].phase == Testing
    requires s.workers[k].doRun && s.registry != [] && budget > 0
    ensures var t := Apply(Apply(s, TestRun(k)), BeginFill(k, budget));
            && k < |t.workers| && t.workers[k].phase == Filling
            && t.filler.Busy? && t.filler.worker == k && t.filler.visits == 0 && t.filler.left == budget
  {
    InvIsCore(s);
    assert WorkerOk(s.paths, s.workers[k]) && PhaseOk(s.workers[k]);
    hide Core, Inv, Tidy, Harmless, WorkerOk;
  }

  // Nothing less is

  /** A thread that can no longer be joined. */
  ghost predicate Stuck(s: State) {
    s.thrown || !Harmless(s) || !FillEnds(s)
  }

  /** A use of memory that was given back stays ahead of the worker that has it ahead. */
  lemma HarmStays(s: State, a: Action)
    requires !Harmless(s) && Core(s)
    ensures !Harmless(Apply(s, a))
  {
    var k :| 0 <= k < |s.workers| && !NoneFreed(s, Uses(s.workers[k]));
    var j :| 0 <= j < |Uses(s.workers[k])| && Dangling(s, Uses(s.workers[k])[j].path);
    hide *;
    UsesKnown(s, k, j);
    DanglingStays(s, a, Uses(s.workers[k])[j].path);
    UseStays(s, a, k, j);
    HarmIs(Apply(s, a), k, Uses(s.workers[k])[j].path);
  }

  lemma HarmIs(s: State, k: int, p: PathId)
    requires 0 <= k < |s.workers| && Dangling(s, p)
    requires exists j :: 0 <= j < |Uses(s.workers[k])| && Uses(s.workers[k])[j].path == p
    ensures !Harmless(s)
  {
    hide Uses, Dangling;
    assert !NoneFreed(s, Uses(s.workers[k]));
  }

  lemma UsesKnown(s: State, k: int, j: int)
    requires Core(s) && 0 <= k < |s.workers| && 0 <= j < |Uses(s.workers[k])|
    ensures Uses(s.workers[k])[j].path in s.paths
  {
    var w := s.workers[k];
    assert WorkerOk(s.paths, w);
    if w.hand.Holding? && w.hand.sent && !w.hand.packet.marked {
      assert Line(w)[j + 1] == w.queue[j];
    }
    hide Core, Covered, PhaseOk;
  }

  lemma DanglingStays(s: State, a: Action, p: PathId)
    requires Core(s) && p in s.paths && Dangling(s, p)
    ensures Dangling(Apply(s, a), p)
  {
    assert 0 <= p.stream < |s.streams|;
    if s.thrown {
      hide *;
      SizeStep(s, a);
    } else if a.AddStream? || a.Visit? || a.Emit? || a.Destroy? || a.ReadTransit? || a.Free? {
      hide *;
      PathsDangling(s, a, p);
    } else {
      hide *;
      RestPaths(s, a);
      FreedIs(s, Apply(s, a), p);
    }
  }

  lemma PathsDangling(s: State, a: Action, p: PathId)
    requires p in s.paths && Dangling(s, p) && p.stream < |s.streams| && !s.thrown
    requires a.AddStream? || a.Visit? || a.Emit? || a.Destroy? || a.ReadTransit? || a.Free?
    ensures Dangling(Apply(s, a), p)
  {
    hide DoAddStream, DoVisit, DoEmit, DoDestroy, DoReadTransit, DoFree, Dangling;
    match a
    case AddStream(n) => AddDangling(s, n, p);
    case Visit(k, snapshot) => VisitDangling(s, k, snapshot, p);
    case Emit(k) => DrainDangling(s, k, p);
    case Destroy(k) => DrainDangling(s, k, p);
    case ReadTransit(q) => StageDangling(s, q, p);
    case Free(q) => StageDangling(s, q, p);
  }

  lemma FreedIs(s: State, t: State, p: PathId)
    ensures t.paths == s.paths ==> Dangling(t, p) == Dangling(s, p)
  {
  }

  lemma RestPaths(s: State, a: Action)
    requires !a.AddStream? && !a.Visit? && !a.Emit? && !a.Destroy? && !a.ReadTransit? && !a.Free?
    ensures Apply(s, a).paths == s.paths
  {
    hide Rotation.Next;
  }

  lemma AddDangling(s: State, n: nat, p: PathId)
    requires p in s.paths && Dangling(s, p) && p.stream < |s.streams|
    ensures Dangling(DoAddStream(s, n), p)
  {
    PathsOfFacts(|s.streams|, n);
    hide PathsOf;
  }

  lemma VisitDangling(s: State, k: int, snapshot: nat, p: PathId)
    requires Dangling(s, p)
    ensures Dangling(DoVisit(s, k, snapshot), p)
  {
    hide Taken, Batch, Present, PathsOf;
  }

  lemma DrainDangling(s: State, k: int, p: PathId)
    requires p in s.paths && Dangling(s, p)
    ensures Dangling(DoEmit(s, k), p) && Dangling(DoDestroy(s, k), p)
  {
  }

  lemma StageDangling(s: State, q: PathId, p: PathId)
    requires Dangling(s, p)
    ensures Dangling(DoReadTransit(s, q), p) && Dangling(DoFree(s, q), p)
  {
  }

  /** Worker k uses what it used and perhaps more, or all but a first path that it could use. */
  ghost predicate KeepsUses(s: State, t: State, k: int) {
    && 0 <= k < |s.workers| == |t.workers|
    && var before, after := Uses(s.workers[k]), Uses(t.workers[k]);
       before <= after || (before != [] && after == before[1..] && !Dangling(s, before[0].path))
  }

  lemma QuietKeepsUses(s: State, a: Action, k: int)
    requires 0 <= k < |s.workers| && !a.Visit? && !a.Dequeue? && !a.Emit? && !a.Destroy?
    ensures KeepsUses(s, Apply(s, a), k)
  {
    QuietHolds(s, a, k);
    hide Apply, Dangling;
  }

  lemma QuietHolds(s: State, a: Action, k: int)
    requires 0 <= k < |s.workers| && !a.Visit? && !a.Dequeue? && !a.Emit? && !a.Destroy?
    ensures var t := Apply(s, a);
            && |t.workers| == |s.workers|
            && t.workers[k].hand == s.workers[k].hand && t.workers[k].queue == s.workers[k].queue
  {
    if Aside(a) {
      AsideWorkers(s, a);
      hide Apply;
    } else {
      PhaseHolds(s, a, k);
      hide Apply;
    }
  }

  lemma PhaseHolds(s: State, a: Action, k: int)
    requires 0 <= k < |s.workers| && (a.TestRun? || a.BeginFill? || a.Advance? || a.StopWorker?)
    ensures var t := Apply(s, a);
            && |t.workers| == |s.workers|
            && t.workers[k].hand == s.workers[k].hand && t.workers[k].queue == s.workers[k].queue
  {
    hide Rotation.Next;
  }

  lemma DequeueKeepsUses(s: State, i: int, k: int)
    requires 0 <= k < |s.workers|
    ensures KeepsUses(s, DoDequeue(s, i), k)
  {
    var w := s.workers[k];
    if w.queue != [] {
      assert [w.queue[0]] + w.queue[1..] == w.queue;
    }
    hide Dangling;
  }

  lemma EmitKeepsUses(s: State, i: int, k: int)
    requires 0 <= k < |s.workers|
    ensures KeepsUses(s, DoEmit(s, i), k)
  {
    hide Dangling;
  }

  lemma DestroyKeepsUses(s: State, i: int, k: int)
    requires 0 <= k < |s.workers|
    ensures KeepsUses(s, DoDestroy(s, i), k)
  {
    hide Dangling;
  }

  lemma VisitKeepsUses(s: State, i: int, snapshot: nat, k: int)
    requires 0 <= k < |s.workers| && Core(s)
    ensures KeepsUses(s, DoVisit(s, i, snapshot), k)
  {
    assert WorkerOk(s.paths, s.workers[k]);
    hide Core, WorkerOk, Covered, PathsKnown, Dangling, Taken, Batch, Present, PathsOf, Bumped;
  }

  lemma StepKeepsUses(s: State, a: Action, k: int)
    requires 0 <= k < |s.workers| && Core(s)
    ensures KeepsUses(s, Apply(s, a), k)
  {
    hide Core, KeepsUses, DoVisit, DoDequeue, DoEmit, DoDestroy, DoAddStream, DoUnregister, DoEnqueue, DoTestRun,
        DoBeginFill, DoAdvance, DoStopWorker, DoReadTransit, DoFree;
    SameKeepsUses(s, k);
    if !s.thrown {
      match a
      case Visit(i, snapshot) => VisitKeepsUses(s, i, snapshot, k);
      case Dequeue(i) => DequeueKeepsUses(s, i, k);
      case Emit(i) => EmitKeepsUses(s, i, k);
      case Destroy(i) => DestroyKeepsUses(s, i, k);
      case _ => QuietKeepsUses(s, a, k);
    }
  }

  lemma SameKeepsUses(s: State, k: int)
    requires 0 <= k < |s.workers|
    ensures KeepsUses(s, s, k)
  {
    hide Uses;
  }

  lemma UseStays(s: State, a: Action, k: int, j: int)
    requires Core(s) && 0 <= k < |s.workers| && 0 <= j < |Uses(s.workers[k])|
    requires Dangling(s, Uses(s.workers[k])[j].path)
    ensures k < |Apply(s, a).workers|
    ensures exists j' :: 0 <= j' < |Uses(Apply(s, a).workers[k])|
                         && Uses(Apply(s, a).workers[k])[j'].path == Uses(s.workers[k])[j].path
  {
    hide *;
    StepKeepsUses(s, a, k);
    KeepsUse(s, Apply(s, a), k, j);
  }

  lemma KeepsUse(s: State, t: State, k: int, j: int)
    requires KeepsUses(s, t, k) && 0 <= j < |Uses(s.workers[k])| && Dangling(s, Uses(s.workers[k])[j].path)
    ensures k < |t.workers|
    ensures exists j' :: 0 <= j' < |Uses(t.workers[k])|
                         && Uses(t.workers[k])[j'].path == Uses(s.workers[k])[j].path
  {
    hide Uses, Dangling;
    var before, after := Uses(s.workers[k]), Uses(t.workers[k]);
    if before <= after {
      assert after[j].path == before[j].path;
    } else {
      assert after[j - 1].path == before[j].path;
    }
  }

  // A fill that cannot end

  ghost predicate NeverPaid(s: State, left: int) {
    forall ids :: Registered(s, ids) ==> PathSum(s, ids) != left
  }

  /** Fewer streams, with the same numbers of paths, cannot pay more. */
  lemma FewerPay(s: State, t: State, left: int)
    requires NeverPaid(s, left) && (forall i :: 0 <= i < |t.registry| ==> t.registry[i] in s.registry)
    requires |t.streams| == |s.streams|
    requires forall i :: 0 <= i < |s.streams| ==> t.streams[i].numPaths == s.streams[i].numPaths
    ensures NeverPaid(t, left)
  {
    hide Registered, PathSum;
    forall ids | Registered(t, ids) ensures PathSum(t, ids) != left {
      WereRegistered(s, t, ids);
      SameSum(s, t, ids);
    }
  }

  lemma WereRegistered(s: State, t: State, ids: seq<int>)
    requires Registered(t, ids) && forall i :: 0 <= i < |t.registry| ==> t.registry[i] in s.registry
    ensures Registered(s, ids)
  {
    forall i | 0 <= i < |ids| ensures ids[i] in s.registry {
      assert ids[i] in t.registry;
      IndexOf(t.registry, ids[i]);
    }
  }

  lemma IndexOf(xs: seq<int>, x: int)
    requires x in xs
    ensures exists m :: 0 <= m < |xs| && xs[m] == x
  {
  }

  lemma {:induction false} SameSum(s: State, t: State, ids: seq<int>)
    requires |t.streams| == |s.streams|
    requires forall i :: 0 <= i < |s.streams| ==> t.streams[i].numPaths == s.streams[i].numPaths
    ensures PathSum(t, ids) == PathSum(s, ids)
  {
    if ids != [] {
      SameSum(s, t, ids[1..]);
    }
  }

  /** Paying for some updates of one stream does not make the rest payable. */
  lemma {:induction false} PartlyPaid(s: State, id: int, count: nat, left: int)
    requires NeverPaid(s, left) && id in s.registry
    ensures NeverPaid(s, left - count * NumPaths(s, id))
  {
    if count > 0 {
      PartlyPaid(s, id, count - 1, left);
      var before := left - (count - 1) * NumPaths(s, id);
      forall ids | Registered(s, ids) ensures PathSum(s, ids) != before - NumPaths(s, id) {
        assert ([id] + ids)[1..] == ids;
        assert Registered(s, [id] + ids);
        assert PathSum(s, [id] + ids) == NumPaths(s, id) + PathSum(s, ids);
      }
    }
  }

  /** The fill goes on for ever, or looks past the end. */
  ghost predicate Endless(s: State) {
    && s.filler.Busy? && 0 <= s.filler.worker < |s.workers|
    && if s.workers[s.filler.worker].phase == Filling then EndlessFrom(s, s.cursor)
       else s.filler.left > 0 && Rotation.Next(s.cursor, |s.registry|) != s.filler.first
            && EndlessFrom(s, Rotation.Next(s.cursor, |s.registry|))
  }

  ghost predicate EndlessFrom(s: State, cursor: int) {
    s.filler.Busy? && (cursor >= |s.registry| || (s.filler.first >= |s.registry| && NeverPaid(s, s.filler.left)))
  }

  lemma EndlessIs(s: State)
    requires s.filler.Busy? ==> 0 <= s.filler.worker < |s.workers|
    ensures !FillEnds(s) <==> Endless(s)
  {
    hide Registered, PathSum;
  }

  lemma UnregisterEndless(s: State, i: int)
    requires Endless(s) && Shape(s)
    ensures Endless(DoUnregister(s, i))
  {
    var t := DoUnregister(s, i);
    if t != s && NeverPaid(s, s.filler.left) {
      FewerPay(s, t, s.filler.left);
    }
    hide NeverPaid, Distinct;
  }

  lemma AdvanceEndless(s: State, k: int)
    requires Endless(s) && FillerOk(s)
    ensures Endless(DoAdvance(s, k))
  {
    var t := DoAdvance(s, k);
    if t != s && NeverPaid(s, s.filler.left) {
      FewerPay(s, t, s.filler.left);
    }
    hide NeverPaid, Rotation.Next;
  }

  /** A step that leaves the fill, its worker and the registry alone. */
  lemma RestEndless(s: State, t: State)
    requires Endless(s) && t.filler == s.filler && t.registry == s.registry && t.cursor == s.cursor
    requires |t.workers| == |s.workers| && |t.streams| == |s.streams|
    requires t.workers[s.filler.worker].phase == s.workers[s.filler.worker].phase
    requires forall i :: 0 <= i < |s.streams| ==> t.streams[i].numPaths == s.streams[i].numPaths
    ensures Endless(t)
  {
    if NeverPaid(s, s.filler.left) {
      FewerPay(s, t, s.filler.left);
    }
    hide NeverPaid, Rotation.Next;
  }

  lemma VisitEndless(s: State, k: int, snapshot: nat)
    requires Endless(s) && Core(s)
    ensures DoVisit(s, k, snapshot).thrown || Endless(DoVisit(s, k, snapshot))
  {
    var t := DoVisit(s, k, snapshot);
    if CanVisit(s, k) {
      VisitFacts(s, k);
      VisitState(s, k, snapshot);
      var id := s.registry[s.cursor];
      BatchLength(PathsOf(id, s.streams[id].numPaths), Taking(s, snapshot));
      NumberOfPaths(id, s.streams[id].numPaths);
      assert |Packed(s, snapshot)| == |Taking(s, snapshot)| * NumPaths(s, id);
      PartlyPaid(s, id, |Taking(s, snapshot)|, s.filler.left);
      hide Core, DoVisit, Taking, Packed, Present, PathsOf, Bumped, WorkersOk, Counts;
      NothingLeft(s, t.filler.left);
      FewerPay(s, t, t.filler.left);
      hide NeverPaid, NumPaths;
    } else {
      NoVisit(s, k, snapshot);
    }
  }

  lemma NothingLeft(s: State, left: int)
    requires NeverPaid(s, left)
    ensures left != 0
  {
    assert Registered(s, []) && PathSum(s, []) == 0;
  }

  lemma StepEndless(s: State, a: Action)
    requires Endless(s) && Core(s) && !s.thrown
    ensures Apply(s, a).thrown || Endless(Apply(s, a))
  {
    CoreFacts(s);
    hide Core, Counts, WorkersOk, Endless, DoUnregister, DoVisit, DoAdvance;
    match a
    case Unregister(i) => UnregisterEndless(s, i);
    case Visit(k, snapshot) => VisitEndless(s, k, snapshot);
    case Advance(k) => AdvanceEndless(s, k);
    case _ =>
      RestOf(s, a);
      RestEndless(s, Apply(s, a));
  }

  lemma RestOf(s: State, a: Action)
    requires Endless(s) && FillerOk(s) && !s.thrown && !a.Unregister? && !a.Visit? && !a.Advance?
    ensures var t := Apply(s, a);
            && t.filler == s.filler && t.registry == s.registry && t.cursor == s.cursor
            && |t.workers| == |s.workers| && |t.streams| == |s.streams|
            && t.workers[s.filler.worker].phase == s.workers[s.filler.worker].phase
            && forall i :: 0 <= i < |s.streams| ==> t.streams[i].numPaths == s.streams[i].numPaths
  {
    EndlessWorker(s);
    hide Endless;
    if Aside(a) {
      AsideWorkers(s, a);
      AsideRest(s, a);
    } else {
      WorkerRest(s, a);
    }
    hide Apply, FillerOk;
  }

  lemma AsideRest(s: State, a: Action)
    requires Aside(a) && !a.Unregister? && s.filler.Busy?
    ensures var t := Apply(s, a);
            && t.filler == s.filler && t.registry == s.registry && t.cursor == s.cursor && |t.streams| == |s.streams|
            && forall i :: 0 <= i < |s.streams| ==> t.streams[i].numPaths == s.streams[i].numPaths
  {
    hide PathsOf;
  }

  /** The fill is left alone, and the worker in it stays where it is. */
  ghost predicate SameFill(s: State, t: State) {
    && t.filler == s.filler && t.registry == s.registry && t.cursor == s.cursor && t.streams == s.streams
    && |t.workers| == |s.workers| && s.filler.Busy? && 0 <= s.filler.worker < |s.workers|
    && t.workers[s.filler.worker].phase == s.workers[s.filler.worker].phase
  }

  lemma DrainRest(s: State, a: Action)
    requires FillerOk(s) && s.filler.Busy? && (a.Dequeue? || a.Emit? || a.Destroy?)
    ensures SameFill(s, Apply(s, a))
  {
    hide Dangling;
  }

  lemma PhaseRest(s: State, a: Action)
    requires FillerOk(s) && s.filler.Busy? && (a.TestRun? || a.BeginFill? || a.StopWorker?)
    ensures SameFill(s, Apply(s, a))
  {
  }

  lemma WorkerRest(s: State, a: Action)
    requires FillerOk(s) && s.filler.Busy? && !Aside(a) && !a.Visit? && !a.Advance?
    ensures SameFill(s, Apply(s, a))
  {
    hide Apply, FillerOk, SameFill;
    if a.Dequeue? || a.Emit? || a.Destroy? {
      DrainRest(s, a);
    } else {
      PhaseRest(s, a);
    }
  }

  lemma StuckStays(s: State, a: Action)
    requires Stuck(s) && Core(s)
    ensures Stuck(Apply(s, a))
  {
    var t := Apply(s, a);
    SizeStep(s, a);
    CoreFacts(s);
    hide Core, WorkersOk, Counts, Shape, Apply, Harmless, FillEnds, Endless;
    if !s.thrown {
      if !Harmless(s) {
        HarmStays(s, a);
      } else {
        EndlessIs(s);
        StepEndless(s, a);
        if !t.thrown {
          EndlessWorker(t);
          EndlessIs(t);
        }
      }
    }
  }

  lemma EndlessWorker(s: State)
    ensures Endless(s) ==> s.filler.Busy? && 0 <= s.filler.worker < |s.workers|
  {
    hide EndlessFrom, Rotation.Next;
  }

  lemma {:induction false} StuckForEver(s: State, more: seq<Action>)
    requires Stuck(s) && Inv(s)
    ensures Stuck(Run(s, more)) && Inv(Run(s, more))
  {
    hide Inv, Apply, Stuck;
    if more != [] {
      var t := Run(s, more[..|more| - 1]);
      StuckForEver(s, more[..|more| - 1]);
      ApplyKeeps(t, more[|more| - 1]);
      InvIsCore(t);
      StuckStays(t, more[|more| - 1]);
    }
  }

  lemma NotStuck(s: State)
    requires AllJoined(s) && Inv(s)
    ensures !Stuck(s)
  {
    InvIsCore(s);
    JoinedFacts(s);
    forall k | 0 <= k < |s.workers| ensures Uses(s.workers[k]) == [] {
    }
    hide Inv, Core;
  }

  /**
    From a reachable state all threads can still be joined if and only if the program has not ended, no
    worker is about to use memory that was given back, and a fill that is under way can end: the position
    where it began is still there, or the budget can be spent to the last packet.
   */
  lemma JoinsExactly(numWorkers: nat, s: State)
    requires Reachable(numWorkers, s)
    ensures CanEnd(s) <==> !s.thrown && Harmless(s) && FillEnds(s)
  {
    ReachableInv(numWorkers, s);
    var actions :| s == Run(Init(numWorkers), actions);
    RunTidy(numWorkers, actions);
    hide Inv, Tidy, Harmless, FillEnds, Run;
    if !Stuck(s) {
      Joins(s, ALL);
    } else {
      forall more ensures !AllJoined(Run(s, more)) {
        StuckForEver(s, more);
        if AllJoined(Run(s, more)) {
          NotStuck(Run(s, more));
        }
      }
    }
  }

  /** Without a removal in the middle of a fill they always can, and the workers need no client for it. */
  lemma EveryThreadJoins(numWorkers: nat, s: State)
    requires numWorkers < UINT32_LIMIT && ReachableCalmly(numWorkers, s)
    ensures CanEndAlone(s)
  {
    var actions :| s == Run(Init(numWorkers), actions) && Calm(Init(numWorkers), actions);
    RunSolo(numWorkers, actions);
    CalmFits(numWorkers, actions);
    RunSound(numWorkers, actions);
    RunKeeps(numWorkers, actions);
    RunTidy(numWorkers, actions);
    hide Calm, Run, Fits, Fitting;
    SoloEnds(s);
    SoundHarmless(s);
    hide Inv, Core, Sound, Solo, Tidy, Harmless, FillEnds;
    assert Going(s);
    Joins(s, STOPS);
  }

  lemma SoloEnds(s: State)
    requires Solo(s)
    ensures FillEnds(s) && (s.filler.Busy? ==> s.filler.first < |s.registry|) && !s.thrown
  {
    hide OneMarkEach, Payable;
  }

  lemma SoundHarmless(s: State)
    requires Core(s) && Sound(s)
    ensures Harmless(s)
  {
    forall k, j | 0 <= k < |s.workers| && 0 <= j < |Uses(s.workers[k])|
      ensures !Dangling(s, Uses(s.workers[k])[j].path)
    {
      UsesAreLine(s.workers[k], j);
      hide Core, Sound, Uses, Line;
      var i :| 0 <= i < |Line(s.workers[k])| && Line(s.workers[k])[i] == Uses(s.workers[k])[j];
      PacketIsLive(s, k, i);
    }
  }

  lemma UsesAreLine(w: Worker, j: int)
    requires 0 <= j < |Uses(w)|
    ensures exists i :: 0 <= i < |Line(w)| && Line(w)[i] == Uses(w)[j]
  {
    if w.hand.Holding? && w.hand.sent && !w.hand.packet.marked {
      assert Line(w)[j + 1] == Uses(w)[j];
    } else {
      assert Line(w)[j] == Uses(w)[j];
    }
  }

  /** As long as the marks fit, with removals at any time, only a fill stands in the way. */
  lemma JoinsWhileMarksFit(numWorkers: nat, s: State)
    requires ReachableFitting(numWorkers, s)
    ensures CanEnd(s) <==> !s.thrown && FillEnds(s)
  {
    FittingSound(numWorkers, s);
    SoundHarmless(s);
    hide Harmless, FillEnds, Sound, Core, Fits;
    JoinsExactly(numWorkers, s);
  }

  // A fill that never ends

  /** Two workers, a stream with two paths and one without any, and what matters of the rest. */
  ghost predicate Scene(s: State, registry: seq<int>, cursor: int, filler: Filler, first: Phase, second: Phase) {
    && !s.thrown && !s.fault && s.registry == registry && s.cursor == cursor && s.filler == filler
    && |s.workers| == 2 && s.workers[0].phase == first && s.workers[1].phase == second
    && s.workers[0].doRun && s.workers[1].doRun && s.workers[1].queue == []
    && (first != Moving && first != Draining ==> s.workers[0].queue == [])
    && |s.streams| == 2 && s.streams[0].numPaths == 2 && s.streams[1].numPaths == 0
  }

  lemma SceneStarts()
    ensures var s := Apply(Apply(Apply(Init(2), AddStream(2)), AddStream(0)), Enqueue(0, Some(7)));
            Scene(s, [0, 1], 0, Idle, Testing, Testing) && s.streams[0].queue == [Some(7)]
  {
    hide PathsOf;
  }

  lemma SceneBegins(s: State)
    requires Scene(s, [0, 1], 0, Idle, Testing, Testing)
    ensures var t := Apply(Apply(s, TestRun(0)), BeginFill(0, 2));
            Scene(t, [0, 1], 0, Busy(0, 0, 0, 2), Filling, Testing) && t.streams == s.streams
  {
  }

  lemma SceneVisits(s: State)
    requires Core(s) && Scene(s, [0, 1], 0, Busy(0, 0, 0, 2), Filling, Testing) && s.streams[0].queue == [Some(7)]
    ensures Scene(Apply(s, Visit(0, 1)), [0, 1], 0, Busy(0, 0, 0, 0), Moving, Testing)
  {
    VisitFacts(s, 0);
    assert Taken([], 2, 0, 0) == 0;
    assert Taken([Some(7)], 2, 1, 2) == 1 && [Some(7)][..1] == [Some(7)];
    assert Present([Some(7)]) == [7] + Present([]);
    assert |Taking(s, 1)| == 1;
    VisitOne(s, 0, 1);
    VisitOthers(s);
    hide Core, Taking, Taken, Present, Apply;
  }

  lemma VisitOthers(s: State)
    requires Scene(s, [0, 1], 0, Busy(0, 0, 0, 2), Filling, Testing)
    ensures var t := Apply(s, Visit(0, 1)); |t.workers| == 2 && t.workers[1] == s.workers[1] && t.fault == s.fault
    ensures var t := Apply(s, Visit(0, 1)); t.registry == s.registry && t.workers[0].doRun == s.workers[0].doRun
  {
    hide Taken, Present, Batch, PathsOf, Bumped;
  }

  lemma SceneMovesOn(s: State)
    requires Scene(s, [0, 1], 0, Busy(0, 0, 0, 0), Moving, Testing)
    ensures var t := Apply(Apply(Apply(s, Advance(0)), TestRun(1)), BeginFill(1, 1));
            Scene(t, [0, 1], 1, Busy(1, 1, 0, 1), Draining, Filling)
  {
  }

  lemma SceneEnds(s: State)
    requires Core(s) && Scene(s, [0, 1], 1, Busy(1, 1, 0, 1), Draining, Filling)
    ensures var t := Apply(Apply(s, Visit(1, 0)), Unregister(1));
            && !t.thrown && !t.fault && t.registry == [0] && t.cursor == 1 && t.filler == Busy(1, 1, 0, 1)
            && |t.workers| == 2 && t.workers[1].phase == Moving && |t.streams| == 2 && t.streams[0].numPaths == 2
  {
    VisitNothing(s, 1);
    VisitFault(s, 1);
    hide Core, DoVisit;
  }

  lemma VisitFault(s: State, k: int)
    ensures Apply(s, Visit(k, 0)).fault == s.fault
  {
    hide Taken, Present, Batch, PathsOf, Bumped;
  }

  /** Any number of updates makes an even number of packets. */
  lemma {:induction false} EvenSum(s: State, ids: seq<int>)
    requires Registered(s, ids) && s.registry == [0] && |s.streams| == 2 && s.streams[0].numPaths == 2
    ensures PathSum(s, ids) == 2 * |ids|
  {
    if ids != [] {
      EvenSum(s, ids[1..]);
    }
  }

  /**
    A run without a fault in which a stream is removed in the middle of a fill, and the thread that fills
    can never be joined: the stream where the fill began is gone, and a budget of one packet cannot be
    spent on a stream with two paths.
   */
  lemma FillNeverEnds()
    ensures var s := Run(Init(2), [AddStream(2), AddStream(0), Enqueue(0, Some(7)), TestRun(0), BeginFill(0, 2),
                                   Visit(0, 1), Advance(0), TestRun(1), BeginFill(1, 1), Visit(1, 0), Unregister(1)]);
            !s.thrown && !s.fault && !CanEnd(s)
  {
    hide *;
    var a := [AddStream(2), AddStream(0), Enqueue(0, Some(7)), TestRun(0), BeginFill(0, 2), Visit(0, 1), Advance(0),
              TestRun(1), BeginFill(1, 1), Visit(1, 0), Unregister(1)];
    NothingRun(Init(2));
    assert a[..0] == [] && a[..11] == a;
    RunAt(a, 1);
    RunAt(a, 2);
    RunAt(a, 3);
    SceneStarts();
    RunAt(a, 4);
    RunAt(a, 5);
    SceneBegins(Run(Init(2), a[..3]));
    ReachedCore(a[..5]);
    RunAt(a, 6);
    SceneVisits(Run(Init(2), a[..5]));
    RunAt(a, 7);
    RunAt(a, 8);
    RunAt(a, 9);
    SceneMovesOn(Run(Init(2), a[..6]));
    ReachedCore(a[..9]);
    RunAt(a, 10);
    RunAt(a, 11);
    SceneEnds(Run(Init(2), a[..9]));
    EndlessScene(Run(Init(2), a));
    ReachedBy(2, a);
    JoinsExactly(2, Run(Init(2), a));
  }

  lemma RunAt(actions: seq<Action>, n: nat)
    requires 0 < n <= |actions|
    ensures Run(Init(2), actions[..n]) == Apply(Run(Init(2), actions[..n - 1]), actions[n - 1])
  {
    assert actions[..n] == actions[..n - 1] + [actions[n - 1]];
    RunSnoc(Init(2), actions[..n - 1], actions[n - 1]);
    hide *;
  }

  lemma ReachedCore(actions: seq<Action>)
    ensures Core(Run(Init(2), actions))
  {
    RunKeeps(2, actions);
    InvIsCore(Run(Init(2), actions));
    hide Core;
  }

  lemma ReachedBy(numWorkers: nat, actions: seq<Action>)
    ensures Reachable(numWorkers, Run(Init(numWorkers), actions))
  {
    hide Run;
  }

  lemma EndlessScene(s: State)
    requires s.registry == [0] && s.cursor == 1 && s.filler == Busy(1, 1, 0, 1) && |s.workers| == 2
    requires s.workers[1].phase == Moving && |s.streams| == 2 && s.streams[0].numPaths == 2
    ensures !FillEnds(s)
  {
    forall ids | Registered(s, ids) ensures PathSum(s, ids) != 1 {
      EvenSum(s, ids);
    }
  }
}
