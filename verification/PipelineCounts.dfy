/**
  The counters as reference counts: as long as no path has 2^32 marks at once, a counter that reads zero
  means that no packet is left, and so no path is used after its memory was given back.
 */
module PipelineCounts {
  import opened Basics
  import opened Batches
  import opened Pipeline
  import opened PipelineSafety

  /** No path has so many marks that its counter has come around. */
  ghost predicate Fits(s: State) {
    forall p :: Sum(MarksOf(p), s.workers) < UINT32_LIMIT
  }

  /** The marks fit in every state of the run. */
  ghost predicate Fitting(s: State, actions: seq<Action>) {
    Fits(Run(s, actions)) && (actions == [] || Fitting(s, actions[..|actions| - 1]))
  }

  /** A path past its destructor's wait is out of the registry and has no mark. */
  ghost predicate Retired(s: State) {
    forall p :: p in s.paths && s.paths[p].stage != Live ==>
      p.stream !in s.registry && Sum(MarksOf(p), s.workers) == 0
  }

  ghost predicate Sound(s: State) {
    !s.fault && Retired(s)
  }

  /** Whoever has no marks before a step has none after it, and nobody retires or comes back in it. */
  lemma StaysRetired(s: State, s': State)
    requires Sound(s) && !s'.fault
    requires forall p :: p in s'.paths && s'.paths[p].stage != Live ==>
      && p in s.paths && s.paths[p].stage != Live
      && (p.stream !in s.registry ==> p.stream !in s'.registry)
      && Sum(MarksOf(p), s'.workers) <= Sum(MarksOf(p), s.workers)
    ensures Sound(s')
  {
    hide Sum;
  }

  /** A packet in some worker's line points at a path whose destructor waits. */
  lemma PacketIsLive(s: State, k: int, j: int)
    requires Core(s) && Sound(s) && 0 <= k < |s.workers| && 0 <= j < |Line(s.workers[k])|
    ensures !Dangling(s, Line(s.workers[k])[j].path)
  {
    PacketIsMarked(s, k, j);
    hide Line, Sum, WorkerOk;
  }

  lemma HandIsLine(w: Worker)
    requires w.hand.Holding?
    ensures |Line(w)| > 0 && Line(w)[0] == w.hand.packet
  {
  }

  lemma EmitSound(s: State, k: int)
    requires Core(s) && Sound(s)
    ensures Sound(DoEmit(s, k))
  {
    if 0 <= k < |s.workers| && s.workers[k].hand.Holding? && !s.workers[k].hand.sent {
      HandIsLine(s.workers[k]);
      PacketIsLive(s, k, 0);
      assert CanEmit(s, k);
      EmitShape(s, k);
      forall p | p in s.paths
        ensures s.paths[p].stage == DoEmit(s, k).paths[p].stage
        ensures Sum(MarksOf(p), DoEmit(s, k).workers) == Sum(MarksOf(p), s.workers)
      {
        EmitMarks(s, k, p);
      }
      NoNewFault(s, k);
      hide DoEmit, Core, Sum, Line, Retired, Dangling;
      StaysRetired(s, DoEmit(s, k));
    }
  }

  lemma EmitMarks(s: State, k: int, p: PathId)
    requires Core(s) && CanEmit(s, k) && p in s.paths
    ensures var s' := DoEmit(s, k);
            && p in s'.paths && s'.paths[p].stage == s.paths[p].stage && s'.registry == s.registry
            && Sum(MarksOf(p), s'.workers) == Sum(MarksOf(p), s.workers)
  {
    EmitState(s, k);
    EmitLine(s, k, p);
    hide Core, DoEmit, Sum, Unsent, UpdatesFor;
    SumUpdate(MarksOf(p), s.workers, k, DoEmit(s, k).workers[k]);
    MarksWeigh(s.workers[k], p);
    MarksWeigh(DoEmit(s, k).workers[k], p);
  }

  lemma NoNewFault(s: State, k: int)
    requires CanEmit(s, k)
    ensures DoEmit(s, k).fault == s.fault && DoEmit(s, k).registry == s.registry
  {
  }

  lemma DestroySound(s: State, k: int)
    requires Core(s) && Sound(s)
    ensures Sound(DoDestroy(s, k))
  {
    if 0 <= k < |s.workers| && s.workers[k].hand.Holding? && s.workers[k].hand.sent {
      HandIsLine(s.workers[k]);
      PacketIsLive(s, k, 0);
      assert CanDestroy(s, k);
      DestroyShape(s, k);
      forall p | p in s.paths
        ensures s.paths[p].stage == DoDestroy(s, k).paths[p].stage
        ensures Sum(MarksOf(p), DoDestroy(s, k).workers) <= Sum(MarksOf(p), s.workers)
      {
        DestroyMarks(s, k, p);
      }
      NoFaultEither(s, k);
      hide DoDestroy, Core, Sum, Line, Retired, Dangling;
      StaysRetired(s, DoDestroy(s, k));
    }
  }

  lemma DestroyMarks(s: State, k: int, p: PathId)
    requires CanDestroy(s, k) && p in s.paths
    ensures var s' := DoDestroy(s, k);
            && p in s'.paths && s'.paths[p].stage == s.paths[p].stage
            && Sum(MarksOf(p), s'.workers) <= Sum(MarksOf(p), s.workers)
  {
    DestroyState(s, k);
    hide DoDestroy, Sum, Unsent;
    SumUpdate(MarksOf(p), s.workers, k, DoDestroy(s, k).workers[k]);
    MarksWeigh(s.workers[k], p);
    MarksWeigh(DoDestroy(s, k).workers[k], p);
  }

  lemma NoFaultEither(s: State, k: int)
    requires CanDestroy(s, k)
    ensures DoDestroy(s, k).fault == s.fault && DoDestroy(s, k).registry == s.registry
  {
  }

  lemma VisitSound(s: State, k: int, snapshot: nat)
    requires Core(s) && Sound(s)
    ensures Sound(DoVisit(s, k, snapshot))
  {
    if CanVisit(s, k) {
      var s' := DoVisit(s, k, snapshot);
      VisitState(s, k, snapshot);
      VisitFacts(s, k);
      assert s.registry[s.cursor] in s.registry;
      forall p | p in s.paths && s.paths[p].stage != Live
        ensures Sum(MarksOf(p), s'.workers) == Sum(MarksOf(p), s.workers)
      {
        VisitCountOf(s, k, snapshot, s'.workers[k], p);
      }
      hide DoVisit, Core, Sum, Retired, Taking, Packed, Present, WorkersOk, Counts;
      StaysRetired(s, s');
    } else {
      NoVisit(s, k, snapshot);
      hide DoVisit;
      StaysRetired(s, DoVisit(s, k, snapshot));
    }
  }

  /** A step that changes at most one worker's place in its loop. */
  lemma QuietSound(s: State, s': State)
    requires Sound(s) && s'.paths == s.paths && s'.registry == s.registry && s'.fault == s.fault
    requires |s'.workers| == |s.workers|
    requires forall k :: 0 <= k < |s.workers| ==> Line(s'.workers[k]) == Line(s.workers[k])
    ensures Sound(s')
  {
    forall p ensures Sum(MarksOf(p), s'.workers) == Sum(MarksOf(p), s.workers) {
      SameMarks(s.workers, s'.workers, p);
    }
    hide Sum, Line, Retired;
    StaysRetired(s, s');
  }

  lemma {:induction false} SameMarks(ws: seq<Worker>, ws': seq<Worker>, p: PathId)
    requires |ws| == |ws'| && forall k :: 0 <= k < |ws| ==> Line(ws'[k]) == Line(ws[k])
    ensures Sum(MarksOf(p), ws') == Sum(MarksOf(p), ws)
  {
    hide Line, MarksFor;
    if ws != [] {
      MarksWeigh(ws[0], p);
      MarksWeigh(ws'[0], p);
      SameMarks(ws[1..], ws'[1..], p);
    }
  }

  lemma DequeueLines(s: State, k: int)
    ensures var s' := DoDequeue(s, k);
            && s'.paths == s.paths && s'.registry == s.registry && s'.fault == s.fault
            && |s'.workers| == |s.workers|
            && forall i :: 0 <= i < |s.workers| ==> Line(s'.workers[i]) == Line(s.workers[i])
  {
    if 0 <= k < |s.workers| && s.workers[k].queue != [] {
      assert [s.workers[k].queue[0]] + s.workers[k].queue[1..] == s.workers[k].queue;
    }
  }

  lemma AddStreamSound(s: State, n: nat)
    requires Core(s) && Sound(s)
    ensures Sound(DoAddStream(s, n))
  {
    if s.filler == Idle {
      AddStreamShape(s, n);
      SameWorkers(s, n);
      hide Sum, PathsOf, Retired;
      StaysRetired(s, DoAddStream(s, n));
    }
  }

  /** While the marks fit, a counter that reads zero means that there is no mark. */
  lemma ZeroMeansNone(s: State, p: PathId)
    requires Counts(s) && Fits(s) && p in s.paths
    ensures s.paths[p].transit == Sum(MarksOf(p), s.workers)
  {
    var n := Sum(MarksOf(p), s.workers);
    assert n < UINT32_LIMIT && s.paths[p].transit == n % UINT32_LIMIT;
    hide Sum;
  }

  lemma ReadSound(s: State, p: PathId)
    requires Counts(s) && Sound(s) && Fits(s)
    ensures Sound(DoReadTransit(s, p))
  {
    hide Sum, Counts, Fits;
    if p in s.paths {
      ZeroMeansNone(s, p);
    }
  }

  /** Every worker holds what it held, and paths and registry are as they were. */
  ghost predicate SameHolding(s: State, s': State) {
    && s'.paths == s.paths && s'.registry == s.registry && s'.fault == s.fault && |s'.workers| == |s.workers|
    && forall k :: 0 <= k < |s.workers| ==>
         s'.workers[k].hand == s.workers[k].hand && s'.workers[k].queue == s.workers[k].queue
  }

  lemma TestRunHolds(s: State, k: int)
    ensures SameHolding(s, DoTestRun(s, k))
  {
  }

  lemma BeginHolds(s: State, k: int, budget: nat)
    ensures SameHolding(s, DoBeginFill(s, k, budget))
  {
  }

  lemma AdvanceHolds(s: State, k: int)
    ensures SameHolding(s, DoAdvance(s, k))
  {
  }

  lemma StopHolds(s: State, k: int)
    ensures SameHolding(s, DoStopWorker(s, k))
  {
  }

  lemma EnqueueHolds(s: State, id: int, entry: Option<UpdateId>)
    ensures SameHolding(s, DoEnqueue(s, id, entry))
  {
  }

  /** A step after which every worker holds the same packets. */
  lemma PhaseSound(s: State, s': State)
    requires Sound(s) && SameHolding(s, s')
    ensures Sound(s')
  {
    assert forall k :: 0 <= k < |s.workers| ==> Line(s'.workers[k]) == Line(s.workers[k]);
    hide Line, Sound;
    QuietSound(s, s');
  }

  lemma ApplySound(s: State, a: Action)
    requires Core(s) && Sound(s) && (a.ReadTransit? ==> Fits(s))
    ensures Sound(Apply(s, a))
  {
    CoreFacts(s);
    hide Core, Counts, Shape, WorkersOk, FillerOk, Sound, Fits, SameHolding, DoAddStream, DoUnregister, DoEnqueue,
        DoTestRun, DoBeginFill, DoVisit, DoAdvance, DoDequeue, DoEmit, DoDestroy, DoStopWorker, DoReadTransit, DoFree,
        Line, Sum;
    match a
    case AddStream(n) => AddStreamSound(s, n);
    case Unregister(i) => UnregisterSound(s, i);
    case Enqueue(id, entry) =>
      EnqueueHolds(s, id, entry);
      PhaseSound(s, DoEnqueue(s, id, entry));
    case TestRun(k) =>
      TestRunHolds(s, k);
      PhaseSound(s, DoTestRun(s, k));
    case BeginFill(k, budget) =>
      BeginHolds(s, k, budget);
      PhaseSound(s, DoBeginFill(s, k, budget));
    case Visit(k, snapshot) => VisitSound(s, k, snapshot);
    case Advance(k) =>
      AdvanceHolds(s, k);
      PhaseSound(s, DoAdvance(s, k));
    case Dequeue(k) =>
      DequeueLines(s, k);
      QuietSound(s, DoDequeue(s, k));
    case Emit(k) => EmitSound(s, k);
    case Destroy(k) => DestroySound(s, k);
    case StopWorker(k) =>
      StopHolds(s, k);
      PhaseSound(s, DoStopWorker(s, k));
    case ReadTransit(p) => ReadSound(s, p);
    case Free(p) => FreeSound(s, p);
  }

  lemma UnregisterSound(s: State, i: int)
    requires Sound(s)
    ensures Sound(DoUnregister(s, i))
  {
    hide Sum;
  }

  lemma FreeSound(s: State, p: PathId)
    requires Sound(s)
    ensures Sound(DoFree(s, p))
  {
    hide Sum;
  }

  lemma {:induction false} RunSound(numWorkers: nat, actions: seq<Action>)
    requires Fitting(Init(numWorkers), actions)
    ensures Core(Run(Init(numWorkers), actions)) && Sound(Run(Init(numWorkers), actions))
  {
    RunKeeps(numWorkers, actions);
    InvIsCore(Run(Init(numWorkers), actions));
    if actions == [] {
      InitSound(numWorkers);
    } else {
      var before := actions[..|actions| - 1];
      RunSound(numWorkers, before);
      assert Fits(Run(Init(numWorkers), before));
      hide Core, Sound, Apply, Fits, Fitting;
      ApplySound(Run(Init(numWorkers), before), actions[|actions| - 1]);
    }
  }

  lemma InvIsCore(s: State)
    requires Inv(s)
    ensures Core(s)
  {
  }

  lemma InitSound(numWorkers: nat)
    ensures Sound(Run(Init(numWorkers), []))
  {
  }
}
