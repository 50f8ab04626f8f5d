/**
  When the marks fit into the counters: in every run in which no stream is removed in the middle of a
  fill, and in every run in which the workers together cannot hold 2^32 packets.
 */
module PipelineBounds {
  import opened Basics
  import opened Batches
  import opened Pipeline
  import opened PipelineSafety
  import opened PipelineCounts
  import Rotation

  // Runs without a removal in the middle of a fill

  ghost predicate Calm(s: State, actions: seq<Action>) {
    actions == [] ||
    (Calm(s, actions[..|actions| - 1])
     && (actions[|actions| - 1].Unregister? ==> Run(s, actions[..|actions| - 1]).filler == Idle))
  }

  ghost predicate OneMarkAtMost(ps: seq<Packet<PathId>>) {
    forall p :: MarksFor(ps, p) <= 1
  }

  /** The position that visit number v looks at. */
  function Position(first: int, v: int, n: int): int {
    if first + v < n then first + v else first + v - n
  }

  ghost predicate NoneOf(ps: seq<Packet<PathId>>, stream: int) {
    forall j :: 0 <= j < |ps| ==> ps[j].path.stream != stream
  }

  /** The cursor is where the visits have led it. */
  ghost predicate Turning(s: State) {
    s.filler.Busy? ==>
      var n := |s.registry|;
      && 0 <= s.filler.first < n && 0 <= s.filler.visits < n
      && s.cursor == Position(s.filler.first, s.filler.visits, n)
  }

  /** The number of the next visit. */
  ghost function NextVisit(s: State): int
    requires s.filler.Busy? && 0 <= s.filler.worker < |s.workers|
  {
    if s.workers[s.filler.worker].phase == Moving then s.filler.visits + 1 else s.filler.visits
  }

  /** While a worker fills, it holds nothing of the streams it has yet to visit. */
  ghost predicate NothingAhead(s: State) {
    s.filler.Busy? ==>
      && 0 <= s.filler.worker < |s.workers|
      && forall v :: NextVisit(s) <= v < |s.registry| && 0 <= Position(s.filler.first, v, |s.registry|) < |s.registry|
           ==> NoneOf(s.workers[s.filler.worker].queue, s.registry[Position(s.filler.first, v, |s.registry|)])
  }

  ghost predicate OneMarkEach(s: State) {
    forall k :: 0 <= k < |s.workers| ==> OneMarkAtMost(Line(s.workers[k]))
  }

  ghost predicate Solo(s: State) {
    !s.thrown && Turning(s) && NothingAhead(s) && OneMarkEach(s)
  }

  lemma {:induction false} NoneNoMarks(ps: seq<Packet<PathId>>, p: PathId)
    requires NoneOf(ps, p.stream)
    ensures MarksFor(ps, p) == 0
  {
    if ps != [] {
      assert forall j :: 0 <= j < |ps| - 1 ==> ps[1..][j] == ps[j + 1];
      NoneNoMarks(ps[1..], p);
    }
  }

  lemma OneMarkTail(ps: seq<Packet<PathId>>)
    requires ps != [] && OneMarkAtMost(ps)
    ensures OneMarkAtMost(ps[1..])
  {
    forall p ensures MarksFor(ps[1..], p) <= 1 {
      assert MarksFor(ps, p) <= 1;
    }
  }

  /** A step in which no worker gets a packet, and nobody starts or goes on with a fill. */
  lemma SoloStays(s: State, s': State)
    requires Solo(s) && !s'.thrown && |s'.workers| == |s.workers|
    requires s'.filler == s.filler && s'.cursor == s.cursor
    requires s.filler.Busy? ==>
      && s'.registry == s.registry && 0 <= s.filler.worker < |s.workers|
      && s'.workers[s.filler.worker].queue == s.workers[s.filler.worker].queue
      && s'.workers[s.filler.worker].phase == s.workers[s.filler.worker].phase
    requires forall k :: 0 <= k < |s.workers| ==>
      Line(s'.workers[k]) == Line(s.workers[k])
      || (Line(s.workers[k]) != [] && Line(s'.workers[k]) == Line(s.workers[k])[1..])
    ensures Solo(s')
  {
    hide Line;
    forall k | 0 <= k < |s.workers| ensures OneMarkAtMost(Line(s'.workers[k])) {
      assert OneMarkAtMost(Line(s.workers[k]));
      if Line(s'.workers[k]) != Line(s.workers[k]) {
        OneMarkTail(Line(s.workers[k]));
      }
    }
    hide OneMarkAtMost, NoneOf, Position;
  }

  lemma BeginSolo(s: State, k: int, budget: nat)
    requires Core(s) && Solo(s)
    ensures Solo(DoBeginFill(s, k, budget))
  {
    var s' := DoBeginFill(s, k, budget);
    BeginHolds(s, k, budget);
    assert 0 <= k < |s.workers| && s.workers[k].phase == Ready ==> PhaseOk(s.workers[k]);
    assert forall i :: 0 <= i < |s.workers| ==> Line(s'.workers[i]) == Line(s.workers[i]);
    hide WorkersOk, Counts, Line, OneMarkAtMost;
    BeginNothingAhead(s, k, budget);
    assert OneMarkEach(s');
  }

  lemma BeginNothingAhead(s: State, k: int, budget: nat)
    requires Core(s) && Solo(s)
    ensures Turning(DoBeginFill(s, k, budget)) && NothingAhead(DoBeginFill(s, k, budget))
    ensures !DoBeginFill(s, k, budget).thrown
  {
    var s' := DoBeginFill(s, k, budget);
    hide WorkersOk, Counts, Line, OneMarkAtMost;
    if s' != s && s'.filler.Busy? && s.filler.Busy? {
      assert InFill(s.workers[s.filler.worker]);
      assert s'.workers[s.filler.worker] == s.workers[s.filler.worker];
    }
  }

  lemma VisitSolo(s: State, k: int, snapshot: nat)
    requires Core(s) && Solo(s)
    ensures Solo(DoVisit(s, k, snapshot))
  {
    if s.filler.Busy? && s.filler.worker == k && 0 <= k < |s.workers| && s.workers[k].phase == Filling {
      var s' := DoVisit(s, k, snapshot);
      assert CanVisit(s, k);
      VisitState(s, k, snapshot);
      VisitFacts(s, k);
      hide DoVisit, WorkersOk, Counts, Packed, Taking, Present, Bumped;
      VisitOneMark(s, k, snapshot);
      VisitNothingAhead(s, k, snapshot);
      hide Line, OneMarkAtMost, NoneOf;
      assert OneMarkEach(s');
    } else {
      NoVisit(s, k, snapshot);
      VisitThrows(s, k, snapshot);
    }
  }

  lemma VisitThrows(s: State, k: int, snapshot: nat)
    ensures DoVisit(s, k, snapshot).thrown && !s.thrown ==>
      s.filler.Busy? && s.filler.worker == k && 0 <= k < |s.workers| && s.workers[k].phase == Filling
  {
    hide Taken, Batch, Present, PathsOf, Bumped;
  }

  lemma VisitOneMark(s: State, k: int, snapshot: nat)
    requires Core(s) && Solo(s) && CanVisit(s, k)
    ensures OneMarkAtMost(s.workers[k].queue + Packed(s, snapshot))
  {
    VisitFacts(s, k);
    var queue, batch, id := s.workers[k].queue, Packed(s, snapshot), s.registry[s.cursor];
    assert OneMarkAtMost(Line(s.workers[k])) && Line(s.workers[k]) == queue;
    assert NoneOf(queue, id) by {
      assert s.cursor == Position(s.filler.first, s.filler.visits, |s.registry|);
    }
    hide Packed, Taking, NothingAhead, Turning, WorkersOk, Counts, Shape, FillerOk;
    forall p ensures MarksFor(queue + batch, p) <= 1 {
      MarksForConcat(queue, batch, p);
      PackedFor(s, k, snapshot, p);
      if p.stream == id {
        NoneNoMarks(queue, p);
      }
      assert MarksFor(queue, p) <= 1;
    }
  }

  lemma VisitNothingAhead(s: State, k: int, snapshot: nat)
    requires Core(s) && Solo(s) && CanVisit(s, k)
    ensures forall v :: s.filler.visits + 1 <= v < |s.registry| ==>
      NoneOf(s.workers[k].queue + Packed(s, snapshot), s.registry[Position(s.filler.first, v, |s.registry|)])
  {
    var n, f, v0 := |s.registry|, s.filler.first, s.filler.visits;
    var batch := Packed(s, snapshot);
    PackedPaths(s, k, snapshot);
    assert Distinct(s.registry);
    hide Packed, Taking, WorkersOk, Counts, OneMarkEach;
    forall v | v0 + 1 <= v < n
      ensures NoneOf(s.workers[k].queue + batch, s.registry[Position(f, v, n)])
    {
      assert Position(f, v, n) != Position(f, v0, n) == s.cursor;
      assert NoneOf(s.workers[k].queue, s.registry[Position(f, v, n)]);
      assert s.registry[Position(f, v, n)] != s.registry[s.cursor];
    }
  }

  lemma AdvanceSolo(s: State, k: int)
    requires Core(s) && Solo(s)
    ensures Solo(DoAdvance(s, k))
  {
    var s' := DoAdvance(s, k);
    AdvanceHolds(s, k);
    assert forall i :: 0 <= i < |s.workers| ==> Line(s'.workers[i]) == Line(s.workers[i]);
    hide WorkersOk, Counts, Line, OneMarkAtMost, NoneOf, Shape;
    assert OneMarkEach(s');
  }

  lemma OtherLines(s: State, s': State)
    requires SameHolding(s, s')
    ensures forall k :: 0 <= k < |s.workers| ==> Line(s'.workers[k]) == Line(s.workers[k])
  {
  }

  /** A worker in its fill is not touched by the steps of others, nor by those of its own drain loop. */
  lemma FillerOnly(s: State, k: int)
    requires Core(s) && 0 <= k < |s.workers| && !InFill(s.workers[k])
    ensures s.filler.Busy? ==> s.filler.worker != k && 0 <= s.filler.worker < |s.workers|
  {
  }

  lemma EmitSolo(s: State, k: int)
    requires Core(s) && Solo(s)
    ensures Solo(DoEmit(s, k))
  {
    if CanEmit(s, k) {
      var s' := DoEmit(s, k);
      EmitState(s, k);
      NotInFill(s, k);
      FillerOnly(s, k);
      hide DoEmit, Core, Line, Unsent, UpdatesFor, Solo;
      SoloStays(s, s');
    }
  }

  lemma NotInFill(s: State, k: int)
    requires Core(s) && 0 <= k < |s.workers| && s.workers[k].hand.Holding?
    ensures !InFill(s.workers[k])
  {
    assert PhaseOk(s.workers[k]);
  }

  lemma DestroySolo(s: State, k: int)
    requires Core(s) && Solo(s)
    ensures Solo(DoDestroy(s, k))
  {
    if CanDestroy(s, k) {
      var s' := DoDestroy(s, k);
      DestroyShape(s, k);
      NotInFill(s, k);
      FillerOnly(s, k);
      DropsFirst(s.workers[k]);
      DestroyEnds(s, k);
      hide DoDestroy, Core, Line, Solo;
      SoloStays(s, s');
    }
  }

  lemma DropsFirst(w: Worker)
    requires w.hand.Holding?
    ensures Line(w) != [] && Line(w.(hand := Empty)) == Line(w)[1..]
  {
  }

  lemma DestroyEnds(s: State, k: int)
    ensures DoDestroy(s, k).thrown == s.thrown
  {
  }

  lemma DequeueSolo(s: State, k: int)
    requires Core(s) && Solo(s)
    ensures Solo(DoDequeue(s, k))
  {
    DequeueLines(s, k);
    if 0 <= k < |s.workers| && s.workers[k].phase == Draining {
      FillerOnly(s, k);
      hide Core, Line, Solo;
      SoloStays(s, DoDequeue(s, k));
    }
  }

  lemma TestRunSolo(s: State, k: int)
    requires Core(s) && Solo(s)
    ensures Solo(DoTestRun(s, k))
  {
    TestRunHolds(s, k);
    OtherLines(s, DoTestRun(s, k));
    if 0 <= k < |s.workers| && s.workers[k].phase == Testing {
      FillerOnly(s, k);
      hide Core, Line, Solo;
      SoloStays(s, DoTestRun(s, k));
    }
  }

  lemma StopSolo(s: State, k: int)
    requires Core(s) && Solo(s)
    ensures Solo(DoStopWorker(s, k))
  {
    StopHolds(s, k);
    OtherLines(s, DoStopWorker(s, k));
    assert s.filler.Busy? ==> 0 <= s.filler.worker < |s.workers|;
    hide Core, Line, Solo;
    SoloStays(s, DoStopWorker(s, k));
  }

  lemma AddStreamSolo(s: State, n: nat)
    requires Solo(s)
    ensures Solo(DoAddStream(s, n))
  {
    assert !s.thrown;
    hide PathsOf, Line, Solo;
    if s.filler == Idle {
      SoloStays(s, DoAddStream(s, n));
    }
  }

  /** The other actions touch neither workers nor scheduler. */
  lemma OthersSolo(s: State, s': State)
    requires Solo(s) && s'.workers == s.workers && s'.filler == s.filler && s'.cursor == s.cursor && !s'.thrown
    requires s.filler.Busy? ==> s'.registry == s.registry && 0 <= s.filler.worker < |s.workers|
    ensures Solo(s')
  {
    hide Solo, Line;
    SoloStays(s, s');
  }

  lemma FillerWorker(s: State)
    requires Core(s)
    ensures s.filler.Busy? ==> 0 <= s.filler.worker < |s.workers|
  {
  }

  lemma ApplySolo(s: State, a: Action)
    requires Core(s) && Solo(s) && (a.Unregister? ==> s.filler == Idle)
    ensures Solo(Apply(s, a))
  {
    FillerWorker(s);
    assert !s.thrown;
    hide Core, Solo, DoAddStream, DoTestRun, DoBeginFill, DoVisit, DoAdvance, DoDequeue, DoEmit, DoDestroy,
        DoStopWorker;
    match a
    case AddStream(n) => AddStreamSolo(s, n);
    case Unregister(i) => OthersSolo(s, DoUnregister(s, i));
    case Enqueue(id, entry) => OthersSolo(s, DoEnqueue(s, id, entry));
    case TestRun(k) => TestRunSolo(s, k);
    case BeginFill(k, budget) => BeginSolo(s, k, budget);
    case Visit(k, snapshot) => VisitSolo(s, k, snapshot);
    case Advance(k) => AdvanceSolo(s, k);
    case Dequeue(k) => DequeueSolo(s, k);
    case Emit(k) => EmitSolo(s, k);
    case Destroy(k) => DestroySolo(s, k);
    case StopWorker(k) => StopSolo(s, k);
    case ReadTransit(p) => OthersSolo(s, DoReadTransit(s, p));
    case Free(p) => OthersSolo(s, DoFree(s, p));
  }

  lemma {:induction false} RunSolo(numWorkers: nat, actions: seq<Action>)
    requires Calm(Init(numWorkers), actions)
    ensures Solo(Run(Init(numWorkers), actions))
  {
    hide Solo, Core, Apply;
    if actions == [] {
      InitSolo(numWorkers);
    } else {
      var before := actions[..|actions| - 1];
      RunSolo(numWorkers, before);
      RunKeeps(numWorkers, before);
      InvIsCore(Run(Init(numWorkers), before));
      ApplySolo(Run(Init(numWorkers), before), actions[|actions| - 1]);
    }
  }

  lemma InitSolo(numWorkers: nat)
    ensures Solo(Init(numWorkers))
  {
  }

  /** With one mark at most in every worker, no path has more marks than there are workers. */
  lemma SoloBound(s: State, p: PathId)
    requires Solo(s)
    ensures Sum(MarksOf(p), s.workers) <= |s.workers|
  {
    forall w | w in s.workers ensures Weigh(MarksOf(p), w) <= 1 {
      var k :| 0 <= k < |s.workers| && s.workers[k] == w;
      assert OneMarkAtMost(Line(s.workers[k]));
    }
    SumBound(MarksOf(p), s.workers);
  }

  lemma SoloFits(s: State)
    requires Solo(s) && |s.workers| < UINT32_LIMIT
    ensures Fits(s)
  {
    forall p ensures Sum(MarksOf(p), s.workers) < UINT32_LIMIT {
      SoloBound(s, p);
    }
    hide Sum, Solo;
  }

  lemma {:induction false} WorkersStay(numWorkers: nat, actions: seq<Action>)
    ensures |Run(Init(numWorkers), actions).workers| == numWorkers
  {
    hide Apply;
    if actions != [] {
      WorkersStay(numWorkers, actions[..|actions| - 1]);
      WorkersStayStep(Run(Init(numWorkers), actions[..|actions| - 1]), actions[|actions| - 1]);
    }
  }

  lemma WorkersStayStep(s: State, a: Action)
    ensures |Apply(s, a).workers| == |s.workers|
  {
    hide Batch, Taken, Present, PathsOf, Bumped, Dangling;
  }

  /** Without a removal in the middle of a fill, the marks fit. */
  lemma {:induction false} CalmFits(numWorkers: nat, actions: seq<Action>)
    requires numWorkers < UINT32_LIMIT && Calm(Init(numWorkers), actions)
    ensures Fitting(Init(numWorkers), actions)
  {
    RunSolo(numWorkers, actions);
    WorkersStay(numWorkers, actions);
    hide Solo, Fits, Run;
    SoloFits(Run(Init(numWorkers), actions));
    if actions != [] {
      CalmFits(numWorkers, actions[..|actions| - 1]);
    }
  }

  // Runs in which the workers cannot hold that many packets

  /** No fill of the run has a larger budget. */
  ghost predicate WithinBudget(actions: seq<Action>, budget: nat) {
    forall i :: 0 <= i < |actions| && actions[i].BeginFill? ==> actions[i].budget <= budget
  }

  /** No worker holds more packets than the budget, counting what a fill may still give it. */
  ghost predicate Slim(s: State, budget: nat) {
    && (forall k :: 0 <= k < |s.workers| ==> |Line(s.workers[k])| <= budget)
    && (s.filler.Busy? ==>
          && 0 <= s.filler.worker < |s.workers|
          && |Line(s.workers[s.filler.worker])| + s.filler.left <= budget)
  }

  /** The fill under way, if any, was under way before, with the same budget left. */
  ghost predicate SameFill(s: State, s': State) {
    s'.filler.Busy? ==> s.filler.Busy? && s'.filler.worker == s.filler.worker && s'.filler.left == s.filler.left
  }

  /** A step in which nobody gets a packet. */
  lemma SlimStays(s: State, s': State, budget: nat)
    requires Slim(s, budget) && |s'.workers| == |s.workers|
    requires SameFill(s, s')
    requires forall k :: 0 <= k < |s.workers| ==> |Line(s'.workers[k])| <= |Line(s.workers[k])|
    ensures Slim(s', budget)
  {
    hide Line;
  }

  lemma BeginSlim(s: State, k: int, given: nat, budget: nat)
    requires Core(s) && Slim(s, budget) && given <= budget
    ensures Slim(DoBeginFill(s, k, given), budget)
  {
    var s' := DoBeginFill(s, k, given);
    BeginHolds(s, k, given);
    OtherLines(s, s');
    assert 0 <= k < |s.workers| && s.workers[k].phase == Ready ==> Line(s.workers[k]) == [] by {
      if 0 <= k < |s.workers| && s.workers[k].phase == Ready {
        assert PhaseOk(s.workers[k]);
      }
    }
    hide Core, Line;
  }

  lemma VisitSlim(s: State, k: int, snapshot: nat, budget: nat)
    requires Core(s) && Slim(s, budget)
    ensures Slim(DoVisit(s, k, snapshot), budget)
  {
    if CanVisit(s, k) {
      var s' := DoVisit(s, k, snapshot);
      VisitState(s, k, snapshot);
      VisitFacts(s, k);
      hide DoVisit, Core, Packed, Taking, Present, Bumped;
      assert |Line(s'.workers[k])| == |Line(s.workers[k])| + |Packed(s, snapshot)|;
      hide Line;
    } else {
      NoVisit(s, k, snapshot);
      hide Line;
    }
  }

  lemma EmitSlim(s: State, k: int, budget: nat)
    requires Core(s) && Slim(s, budget)
    ensures Slim(DoEmit(s, k), budget)
  {
    if CanEmit(s, k) {
      EmitState(s, k);
      hide DoEmit, Core, Line, Unsent, UpdatesFor, Slim;
      SlimStays(s, DoEmit(s, k), budget);
    } else {
      hide Core, Line;
    }
  }

  lemma DestroySlim(s: State, k: int, budget: nat)
    requires Core(s) && Slim(s, budget)
    ensures Slim(DoDestroy(s, k), budget)
  {
    if CanDestroy(s, k) {
      DestroyShape(s, k);
      DropsFirst(s.workers[k]);
      hide DoDestroy, Core, Line, Slim;
      SlimStays(s, DoDestroy(s, k), budget);
    } else {
      hide Core, Line;
    }
  }

  lemma DequeueSlim(s: State, k: int, budget: nat)
    requires Slim(s, budget)
    ensures Slim(DoDequeue(s, k), budget)
  {
    DequeueLines(s, k);
    hide Line, Slim;
    SlimStays(s, DoDequeue(s, k), budget);
  }

  lemma HoldingSlim(s: State, s': State, budget: nat)
    requires Slim(s, budget) && SameHolding(s, s')
    requires SameFill(s, s')
    ensures Slim(s', budget)
  {
    OtherLines(s, s');
    hide Line, Slim;
    SlimStays(s, s', budget);
  }

  lemma AdvanceFiller(s: State, k: int)
    ensures SameFill(s, DoAdvance(s, k))
  {
  }

  lemma AddStreamKeepsWorkers(s: State, n: nat)
    ensures DoAddStream(s, n).workers == s.workers && DoAddStream(s, n).filler == s.filler
  {
  }

  lemma ApplySlim(s: State, a: Action, budget: nat)
    requires Core(s) && Slim(s, budget) && (a.BeginFill? ==> a.budget <= budget)
    ensures Slim(Apply(s, a), budget)
  {
    hide Core, Slim, Line, SameHolding, DoAddStream, DoBeginFill, DoVisit, DoAdvance, DoDequeue, DoEmit, DoDestroy;
    match a
    case AddStream(n) =>
      AddStreamKeepsWorkers(s, n);
      SlimStays(s, DoAddStream(s, n), budget);
    case Unregister(i) => SlimStays(s, DoUnregister(s, i), budget);
    case Enqueue(id, entry) => SlimStays(s, DoEnqueue(s, id, entry), budget);
    case TestRun(k) =>
      TestRunHolds(s, k);
      HoldingSlim(s, DoTestRun(s, k), budget);
    case BeginFill(k, given) => BeginSlim(s, k, given, budget);
    case Visit(k, snapshot) => VisitSlim(s, k, snapshot, budget);
    case Advance(k) =>
      AdvanceHolds(s, k);
      AdvanceFiller(s, k);
      HoldingSlim(s, DoAdvance(s, k), budget);
    case Dequeue(k) => DequeueSlim(s, k, budget);
    case Emit(k) => EmitSlim(s, k, budget);
    case Destroy(k) => DestroySlim(s, k, budget);
    case StopWorker(k) =>
      StopHolds(s, k);
      HoldingSlim(s, DoStopWorker(s, k), budget);
    case ReadTransit(p) => SlimStays(s, DoReadTransit(s, p), budget);
    case Free(p) => SlimStays(s, DoFree(s, p), budget);
  }

  lemma InitSlim(numWorkers: nat, budget: nat)
    ensures Slim(Init(numWorkers), budget)
  {
  }

  lemma {:induction false} RunSlim(numWorkers: nat, actions: seq<Action>, budget: nat)
    requires WithinBudget(actions, budget)
    ensures Slim(Run(Init(numWorkers), actions), budget)
  {
    hide Slim, Core, Apply;
    if actions == [] {
      InitSlim(numWorkers, budget);
    } else {
      var before := actions[..|actions| - 1];
      assert WithinBudget(before, budget) by {
        assert forall i :: 0 <= i < |before| ==> before[i] == actions[i];
      }
      RunSlim(numWorkers, before, budget);
      RunKeeps(numWorkers, before);
      InvIsCore(Run(Init(numWorkers), before));
      ApplySlim(Run(Init(numWorkers), before), actions[|actions| - 1], budget);
    }
  }

  lemma {:induction false} MarksWithin(ps: seq<Packet<PathId>>, p: PathId)
    ensures MarksFor(ps, p) <= |ps|
  {
    if ps != [] {
      MarksWithin(ps[1..], p);
    }
  }

  lemma {:induction false} SumWithin(ws: seq<Worker>, p: PathId, budget: nat)
    requires forall k :: 0 <= k < |ws| ==> |Line(ws[k])| <= budget
    ensures Sum(MarksOf(p), ws) <= |ws| * budget
  {
    hide Line, MarksFor;
    if ws != [] {
      MarksWeigh(ws[0], p);
      MarksWithin(Line(ws[0]), p);
      SumWithin(ws[1..], p, budget);
      assert |ws| * budget == (|ws| - 1) * budget + budget;
    }
  }

  /** If the workers' budgets together stay below 2^32, the marks fit, whenever streams are removed. */
  lemma {:induction false} BudgetFits(numWorkers: nat, actions: seq<Action>, budget: nat)
    requires WithinBudget(actions, budget) && numWorkers * budget < UINT32_LIMIT
    ensures Fitting(Init(numWorkers), actions)
  {
    var s := Run(Init(numWorkers), actions);
    RunSlim(numWorkers, actions, budget);
    WorkersStay(numWorkers, actions);
    forall p ensures Sum(MarksOf(p), s.workers) < UINT32_LIMIT {
      SumWithin(s.workers, p, budget);
    }
    hide Slim, Run, Sum;
    if actions != [] {
      var before := actions[..|actions| - 1];
      assert forall i :: 0 <= i < |before| ==> before[i] == actions[i];
      BudgetFits(numWorkers, before, budget);
    }
  }

  // A removal in the middle of a fill

  lemma RunSnoc(s: State, actions: seq<Action>, a: Action)
    ensures Run(s, actions + [a]) == Apply(Run(s, actions), a)
  {
    assert (actions + [a])[..|actions|] == actions;
    hide Apply;
  }

  /** One worker and two streams without paths, of which some are still registered. */
  function Little(registry: seq<int>, cursor: int, filler: Filler, phase: Phase): State {
    State([StreamRec([], 0, []), StreamRec([], 0, [])], map[], registry, cursor, filler,
          [Worker([], Empty, phase, true)], false, false)
  }

  lemma LittleStart()
    ensures Apply(Apply(Init(1), AddStream(0)), AddStream(0)) == Little([0, 1], 0, Idle, Testing)
  {
    assert (map p | p in PathsOf(0, 0) :: PathRec(0, Live, [])) == map[];
    assert (map p | p in PathsOf(1, 0) :: PathRec(0, Live, [])) == map[];
    assert Apply(Init(1), AddStream(0)).streams == [StreamRec([], 0, [])];
    assert Apply(Init(1), AddStream(0)).registry == [0];
    assert Init(1).workers == [Worker([], Empty, Testing, true)];
  }

  lemma LittleVisit()
    ensures Apply(Little([0, 1], 0, Busy(0, 0, 0, 1), Filling), Visit(0, 0))
         == Little([0, 1], 0, Busy(0, 0, 0, 1), Moving)
  {
    var s, q: seq<Option<UpdateId>> := Little([0, 1], 0, Busy(0, 0, 0, 1), Filling), [];
    var t := DoVisit(s, 0, 0);
    assert Taken(q, 0, 0, 1) == 0 && q[..0] == q && q[0..] == q && Present(q) == [];
    assert Batch(PathsOf(0, 0), []) == [];
    assert t.paths == map[];
    var none: seq<Packet<PathId>> := [];
    assert none + none == none && s.workers[0].queue == none;
    assert t.workers[0] == Worker(none, Empty, Moving, true) && |t.workers| == 1;
    assert t.streams == s.streams;
  }

  lemma LittleSteps()
    ensures Apply(Little([0, 1], 0, Idle, Testing), TestRun(0)) == Little([0, 1], 0, Idle, Ready)
    ensures Apply(Little([0, 1], 0, Idle, Ready), BeginFill(0, 1)) == Little([0, 1], 0, Busy(0, 0, 0, 1), Filling)
    ensures Apply(Little([0, 1], 0, Busy(0, 0, 0, 1), Moving), Advance(0))
         == Little([0, 1], 1, Busy(0, 0, 1, 1), Filling)
    ensures Apply(Little([0, 1], 1, Busy(0, 0, 1, 1), Filling), Unregister(1))
         == Little([0], 1, Busy(0, 0, 1, 1), Filling)
  {
  }

  lemma LittleThrows()
    ensures Apply(Little([0], 1, Busy(0, 0, 1, 1), Filling), Visit(0, 0)).thrown
  {
  }

  /** Two streams, and the second one goes after the first one was visited: the fill looks for it and throws. */
  lemma RemovalThrows()
    ensures var before := [AddStream(0), AddStream(0), TestRun(0), BeginFill(0, 1), Visit(0, 0), Advance(0)];
            Run(Init(1), before + [Unregister(1)] + [Visit(0, 0)]).thrown
  {
    hide *;
    LittleStart();
    LittleSteps();
    LittleVisit();
    LittleThrows();
    var a0: seq<Action> := [];
    var a1 := a0 + [AddStream(0)];
    var a2 := a1 + [AddStream(0)];
    var a3 := a2 + [TestRun(0)];
    var a4 := a3 + [BeginFill(0, 1)];
    var a5 := a4 + [Visit(0, 0)];
    var a6 := a5 + [Advance(0)];
    NothingRun(Init(1));
    RunSnoc(Init(1), a0, AddStream(0));
    RunSnoc(Init(1), a1, AddStream(0));
    RunSnoc(Init(1), a2, TestRun(0));
    RunSnoc(Init(1), a3, BeginFill(0, 1));
    RunSnoc(Init(1), a4, Visit(0, 0));
    RunSnoc(Init(1), a5, Advance(0));
    RunSnoc(Init(1), a6, Unregister(1));
    RunSnoc(Init(1), a6 + [Unregister(1)], Visit(0, 0));
    assert a6 == [AddStream(0), AddStream(0), TestRun(0), BeginFill(0, 1), Visit(0, 0), Advance(0)];
  }

  lemma NothingRun(s: State)
    ensures Run(s, []) == s
  {
  }
}
