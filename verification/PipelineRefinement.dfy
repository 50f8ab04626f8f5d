/**
  The interleaved pipeline and the specification of one fill: a `fill` that nothing interrupts is a
  run of the pipeline whose result is what Rotation says.
 */
module PipelineRefinement {
  import opened Basics
  import opened Batches
  import opened Rotation
  import opened Pipeline
  import opened PipelineSafety
  import opened PipelineCounts
  import opened PipelineBounds

  /** The registered streams as the specification of `fill` sees them. */
  ghost function View(s: State): (ss: seq<StreamState<PathId>>)
    requires Shape(s)
    ensures |ss| == |s.registry|
  {
    seq(|s.registry|, i requires 0 <= i < |s.registry| =>
      StreamState(s.streams[s.registry[i]].queue, PathsOf(s.registry[i], s.streams[s.registry[i]].numPaths)))
  }

  /** The exact size of the queue under the cursor. */
  ghost function Size(s: State): (n: nat)
    requires Core(s) && s.filler.Busy? && s.cursor < |s.registry|
  {
    |s.streams[s.registry[s.cursor]].queue|
  }

  /** Worker k is about to visit a stream, in a fill that nothing has disturbed. */
  ghost predicate AtTurn(s: State, k: int) {
    Inv(s) && CanVisit(s, k) && Turning(s) && !s.thrown
  }

  /** One turn of the loop: the visit and the move of the cursor. */
  ghost function Turn(s: State, k: int): State
    requires Core(s) && CanVisit(s, k)
  {
    DoAdvance(DoVisit(s, k, Size(s)), k)
  }

  lemma TurnKeeps(s: State, k: int)
    requires AtTurn(s, k)
    ensures Core(s) && s.filler.Busy? && s.cursor < |s.registry| && CanVisit(s, k)
    ensures Inv(Turn(s, k)) && !Turn(s, k).thrown
    ensures !DoVisit(s, k, Size(s)).thrown
  {
    InvIsCore(s);
    VisitKeeps(s, k, Size(s));
    VisitState(s, k, Size(s));
    hide Inv, Core, DoVisit, Packed, Taking, Present, Bumped;
    AdvanceKeeps(DoVisit(s, k, Size(s)), k);
  }

  /** What the visit does, spelled out. */
  lemma VisitQueues(s: State, k: int)
    requires Core(s) && CanVisit(s, k) && 0 <= s.cursor < |s.registry| && 0 <= s.registry[s.cursor] < |s.streams|
    requires s.streams[s.registry[s.cursor]].numPaths >= 0 && s.filler.left >= 0
    ensures var t, id, left := DoVisit(s, k, Size(s)), s.registry[s.cursor], s.filler.left;
            var r := s.streams[id];
            var n := Taken(r.queue, r.numPaths, |r.queue|, left);
            var batch := Batch(PathsOf(id, r.numPaths), Present(r.queue[..n]));
            && t.registry == s.registry && t.cursor == s.cursor && 0 <= k < |s.workers| == |t.workers|
            && t.streams == s.streams[id := r.(queue := r.queue[n..])]
            && t.workers[k].queue == s.workers[k].queue + batch && t.workers[k].phase == Moving
            && t.filler == Busy(k, s.filler.first, s.filler.visits, left - |batch|)
  {
    hide Batch, Taken, Bumped, PathsOf, Present, Core;
  }

  lemma RegistryIs(s: State)
    requires Shape(s)
    ensures forall i, j :: 0 <= i < j < |s.registry| ==> s.registry[i] != s.registry[j]
    ensures forall i :: 0 <= i < |s.registry| ==> 0 <= s.registry[i] < |s.streams|
    ensures s.cursor >= 0
  {
  }

  /** A new queue of the stream under the cursor is all that changes in the view. */
  lemma ViewUpdate(s: State, t: State, queue: seq<Option<UpdateId>>)
    requires Shape(s) && Shape(t) && 0 <= s.cursor < |s.registry| && t.registry == s.registry
    requires var id := s.registry[s.cursor];
             0 <= id < |s.streams| && t.streams == s.streams[id := s.streams[id].(queue := queue)]
    ensures View(t) == View(s)[s.cursor := StreamState(queue, View(s)[s.cursor].paths)]
  {
    RegistryIs(s);
    hide Shape, PathsOf;
    forall i | 0 <= i < |s.registry| && i != s.cursor ensures View(t)[i] == View(s)[i] {
      assert s.registry[i] != s.registry[s.cursor];
    }
  }

  lemma ViewAt(s: State, i: int)
    requires Shape(s) && 0 <= i < |s.registry|
    ensures 0 <= s.registry[i] < |s.streams| && s.streams[s.registry[i]].numPaths >= 0
    ensures var r := s.streams[s.registry[i]];
            && View(s)[i] == StreamState(r.queue, PathsOf(s.registry[i], r.numPaths))
            && |View(s)[i].paths| == r.numPaths
  {
    hide PathsOf;
    PathsOfLength(s.registry[i], s.streams[s.registry[i]].numPaths);
  }

  /** What the visit does to the streams. */
  lemma VisitIsTake(s: State, k: int)
    requires Core(s) && CanVisit(s, k) && 0 <= s.cursor < |s.registry| && Shape(DoVisit(s, k, Size(s))) && Shape(s)
    ensures var t, st, left := DoVisit(s, k, Size(s)), View(s)[s.cursor], s.filler.left;
            && left >= 0
            && var batch := Batch(st.paths, Takes(st, left));
               && t.registry == s.registry && 0 <= k < |s.workers| == |t.workers| && t.cursor == s.cursor
               && View(t) == View(s)[s.cursor := Rest(st, left)]
               && t.workers[k].queue == s.workers[k].queue + batch && t.workers[k].phase == Moving
               && t.filler == Busy(k, s.filler.first, s.filler.visits, left - |batch|)
  {
    var t, r := DoVisit(s, k, Size(s)), s.streams[s.registry[s.cursor]];
    VisitFacts(s, k);
    ViewAt(s, s.cursor);
    hide Core, Shape, CanVisit, DoVisit, View, Size, Batch, Taken, PathsOf, Present, WorkersOk, Counts;
    VisitQueues(s, k);
    ViewUpdate(s, t, r.queue[Taken(r.queue, r.numPaths, |r.queue|, s.filler.left)..]);
  }

  lemma PathsOfLength(stream: int, n: int)
    requires n >= 0
    ensures |PathsOf(stream, n)| == n
  {
  }

  lemma SameView(s: State, t: State)
    requires Shape(s) && Shape(t) && t.streams == s.streams && t.registry == s.registry
    ensures View(t) == View(s)
  {
    hide PathsOf;
  }

  /** The end of a turn: the loop ends if the budget is spent or the cursor has come around. */
  lemma AdvanceIs(s: State, k: int)
    requires s.filler.Busy? && s.filler.worker == k && 0 <= k < |s.workers| && s.workers[k].phase == Moving
    requires Turning(s)
    ensures var t := DoAdvance(s, k);
            var last := s.filler.left <= 0 || s.filler.visits + 1 == |s.registry|;
            && t.registry == s.registry && t.streams == s.streams && |t.workers| == |s.workers|
            && t.workers[k].queue == s.workers[k].queue
            && t.cursor == Next(s.cursor, |s.registry|) && Turning(t)
            && (if last then t.filler == Idle
                else t.filler == Busy(k, s.filler.first, s.filler.visits + 1, s.filler.left)
                     && t.workers[k].phase == Filling)
  {
  }

  /** One turn is one step of the specification. */
  lemma TurnIsStep(s: State, k: int)
    requires AtTurn(s, k)
    ensures Core(s) && Shape(s) && Core(Turn(s, k)) && Shape(Turn(s, k)) && 0 <= s.cursor < |s.registry|
    ensures var t, st, left := Turn(s, k), View(s)[s.cursor], s.filler.left;
            && left >= 0
            && var batch := Batch(st.paths, Takes(st, left));
               var last := left - |batch| <= 0 || s.filler.visits + 1 == |s.registry|;
               && t.registry == s.registry && 0 <= k < |s.workers| == |t.workers|
               && View(t) == View(s)[s.cursor := Rest(st, left)]
               && t.cursor == Next(s.cursor, |s.registry|) && Turning(t)
               && t.workers[k].queue == s.workers[k].queue + batch
               && (if last then t.filler == Idle
                   else t.filler == Busy(k, s.filler.first, s.filler.visits + 1, left - |batch|)
                        && t.workers[k].phase == Filling)
  {
    hide *;
    TurnShapes(s, k);
    VisitIsTake(s, k);
    TurnIs(s, k);
    TurningOn(s, k);
    AdvanceIs(DoVisit(s, k, Size(s)), k);
    SameView(DoVisit(s, k, Size(s)), Turn(s, k));
  }

  lemma TurnIs(s: State, k: int)
    requires Core(s) && CanVisit(s, k) && s.filler.Busy? && s.cursor < |s.registry|
    ensures Turn(s, k) == DoAdvance(DoVisit(s, k, Size(s)), k)
  {
    hide Core, CanVisit, DoVisit, DoAdvance, Size;
  }

  /** In between, the cursor and the registry are still what they were. */
  lemma TurningOn(s: State, k: int)
    requires AtTurn(s, k) && Core(s) && s.filler.Busy? && s.cursor < |s.registry|
    requires var t := DoVisit(s, k, Size(s));
             && t.registry == s.registry && t.cursor == s.cursor
             && t.filler.Busy? && t.filler.first == s.filler.first && t.filler.visits == s.filler.visits
    ensures Turning(DoVisit(s, k, Size(s)))
  {
    hide Core, Inv, CanVisit, DoVisit, Size;
  }

  /** The invariants of the states before, in and after a turn. */
  lemma TurnShapes(s: State, k: int)
    requires AtTurn(s, k)
    ensures Core(s) && Shape(s) && CanVisit(s, k) && s.filler.Busy? && 0 <= s.cursor < |s.registry|
    ensures Core(Turn(s, k)) && Shape(Turn(s, k)) && Shape(DoVisit(s, k, Size(s)))
  {
    InvIsCore(s);
    assert CanVisit(s, k);
    TurnKeeps(s, k);
    hide *;
    InvIsCore(Turn(s, k));
    VisitFacts(s, k);
    VisitCore(s, k, Size(s));
    ShapeOf(s);
    ShapeOf(DoVisit(s, k, Size(s)));
    ShapeOf(Turn(s, k));
  }

  /** What a worker that is inside `fill` does when nobody else moves: at most n more turns. */
  ghost function Turns(s: State, k: int, n: nat): (t: State)
    requires Inv(s) && Turning(s) && !s.thrown
    ensures Inv(t)
    decreases n
  {
    if n == 0 || !CanVisit(s, k) then s else
    TurnKeeps(s, k);
    TurnIsStep(s, k);
    Turns(Turn(s, k), k, n - 1)
  }

  /** A fill that set out from `s` has ended in `t`, with the result `r`. */
  ghost predicate Filled(s: State, k: int, t: State, r: FillResult<PathId>) {
    && Inv(t) && View(t) == r.streams && t.cursor == r.cursor && t.filler == Idle && t.registry == s.registry
    && 0 <= k < |s.workers| && k < |t.workers| && t.workers[k].queue == s.workers[k].queue + r.packets
  }

  /** Where the loop of `fill` is: n turns may follow, on the streams `ss`. */
  ghost predicate Inside(s: State, k: int, n: nat, ss: seq<StreamState<PathId>>) {
    && AtTurn(s, k) && View(s) == ss && 0 <= s.cursor < |ss|
    && n == |s.registry| - s.filler.visits && n > 0 && s.filler.left > 0
  }

  /** A worker inside `fill`, left alone, does what the specification says. */
  lemma {:induction false} TurnsAreFill(s: State, k: int, n: nat, ss: seq<StreamState<PathId>>)
    requires Inside(s, k, n, ss)
    ensures Inv(s) && Turning(s) && !s.thrown
    ensures Filled(s, k, Turns(s, k, n), FillFrom(ss, s.cursor, n, s.filler.left))
    decreases n
  {
    hide *;
    var t := TurnOnce(s, k, n, ss);
    var left, st := s.filler.left, ss[s.cursor];
    var batch, ss' := Batch(st.paths, Takes(st, left)), ss[s.cursor := Rest(st, left)];
    FillFromStep(ss, s.cursor, n, left);
    if t.filler == Idle {
      FillFromStop(ss', t.cursor, n - 1, left - |batch|);
      FilledAtOnce(s, k, t, batch, ss', FillFrom(ss, s.cursor, n, left));
    } else {
      TurnsAreFill(t, k, n - 1, ss');
      FilledLater(s, k, t, Turns(t, k, n - 1), batch, FillFrom(ss', t.cursor, n - 1, left - |batch|), FillFrom(ss,
          s.cursor, n, left));
    }
  }

  lemma TurnOnce(s: State, k: int, n: nat, ss: seq<StreamState<PathId>>) returns (t: State)
    requires Inside(s, k, n, ss)
    ensures Inv(s) && Turning(s) && !s.thrown
    ensures s.filler.Busy? && 0 <= s.cursor < |ss| && s.filler.left > 0 && n > 0
    ensures var st, left := ss[s.cursor], s.filler.left;
            var batch, ss' := Batch(st.paths, Takes(st, left)), ss[s.cursor := Rest(st, left)];
            && Inv(t) && Turning(t) && !t.thrown && Turns(s, k, n) == Turns(t, k, n - 1)
            && 0 <= k < |s.workers| && k < |t.workers| && t.workers[k].queue == s.workers[k].queue + batch
            && t.cursor == Next(s.cursor, |ss|) && t.registry == s.registry
            && (if t.filler == Idle then
                  View(t) == ss' && Turns(t, k, n - 1) == t && (n - 1 == 0 || left - |batch| <= 0)
                else
                  Inside(t, k, n - 1, ss') && t.filler.left == left - |batch|)
  {
    InvIsCore(s);
    TurnKeeps(s, k);
    TurnIsStep(s, k);
    t := Turn(s, k);
    StepOf(s, k, n);
    hide Inv, Core, Shape, Turn, View, Turns, Batch, Takes, Rest, Size;
    assert |ss| == |s.registry|;
    if t.filler == Idle {
      NoMoreTurns(t, k, n - 1);
    } else {
      TurnCursor(t);
    }
  }

  lemma TurnCursor(s: State)
    requires Turning(s) && s.filler.Busy?
    ensures 0 <= s.cursor < |s.registry| && 0 <= s.filler.visits < |s.registry|
  {
  }

  lemma FilledAtOnce(s: State, k: int, t: State, batch: seq<Packet<PathId>>, ss: seq<StreamState<PathId>>,
      r: FillResult<PathId>)
    requires Inv(t) && View(t) == ss && t.filler == Idle && t.registry == s.registry
    requires 0 <= k < |s.workers| && k < |t.workers| && t.workers[k].queue == s.workers[k].queue + batch
    requires r.streams == ss && r.packets == batch + [] && r.cursor == t.cursor
    ensures Filled(s, k, t, r)
  {
    hide Inv, View;
    assert batch + [] == batch;
  }

  lemma Associates(a: seq<Packet<PathId>>, b: seq<Packet<PathId>>, c: seq<Packet<PathId>>)
    ensures a + b + c == a + (b + c)
  {
  }

  lemma FilledLater(s: State, k: int, t: State, u: State, batch: seq<Packet<PathId>>, r: FillResult<PathId>,
      whole: FillResult<PathId>)
    requires Filled(t, k, u, r) && t.registry == s.registry
    requires 0 <= k < |s.workers| && k < |t.workers| && t.workers[k].queue == s.workers[k].queue + batch
    requires whole.streams == r.streams && whole.packets == batch + r.packets && whole.cursor == r.cursor
    ensures Filled(s, k, u, whole)
  {
    hide Inv, View;
    Associates(s.workers[k].queue, batch, r.packets);
  }

  lemma ShapeOf(s: State)
    requires Core(s)
    ensures Shape(s)
  {
  }

  lemma StepOf(s: State, k: int, n: nat)
    requires AtTurn(s, k) && n > 0 && Core(s) && Inv(Turn(s, k)) && Turning(Turn(s, k)) && !Turn(s, k).thrown
    ensures Inv(s) && Turning(s) && !s.thrown
    ensures Turns(s, k, n) == Turns(Turn(s, k), k, n - 1)
  {
    hide Turn, Inv, Core, Turning;
  }

  lemma NoMoreTurns(s: State, k: int, n: nat)
    requires Inv(s) && s.filler == Idle && Turning(s) && !s.thrown
    ensures Turns(s, k, n) == s
  {
    hide Inv;
  }

  // The same as a run

  ghost function FillActions(s: State, k: int, n: nat): (actions: seq<Action>)
    requires Inv(s) && Turning(s) && !s.thrown
    decreases n
  {
    if n == 0 || !CanVisit(s, k) then [] else
    TurnKeeps(s, k);
    TurnIsStep(s, k);
    [Visit(k, Size(s))] + ([Advance(k)] + FillActions(Turn(s, k), k, n - 1))
  }

  lemma {:induction false} RunCons(s: State, a: Action, more: seq<Action>)
    ensures Run(s, [a] + more) == Run(Apply(s, a), more)
  {
    hide Apply;
    if more == [] {
      assert [a] + more == [a] && [a][..0] == [];
      assert Run(s, [a][..0]) == s;
    } else {
      RunCons(s, a, more[..|more| - 1]);
      assert ([a] + more)[..|[a] + more| - 1] == [a] + more[..|more| - 1];
    }
  }

  lemma {:induction false} FillIsRun(s: State, k: int, n: nat)
    requires Inv(s) && Turning(s) && !s.thrown
    ensures Turns(s, k, n) == Run(s, FillActions(s, k, n))
    decreases n
  {
    hide *;
    if n > 0 && CanVisit(s, k) {
      InvIsCore(s);
      AtTurnIs(s, k);
      TurnKeeps(s, k);
      TurnIsStep(s, k);
      var t := Turn(s, k);
      FillIsRun(t, k, n - 1);
      TurnIsRun(s, k, FillActions(t, k, n - 1));
      StepOf(s, k, n);
      ActionsOf(s, k, n);
    } else {
      NothingRun(s);
      NoActions(s, k, n);
    }
  }

  lemma AtTurnIs(s: State, k: int)
    requires Inv(s) && CanVisit(s, k) && Turning(s) && !s.thrown
    ensures AtTurn(s, k)
  {
    hide Inv;
  }

  lemma ActionsOf(s: State, k: int, n: nat)
    requires AtTurn(s, k) && n > 0 && Core(s) && Inv(Turn(s, k)) && Turning(Turn(s, k)) && !Turn(s, k).thrown
    ensures s.filler.Busy? && s.cursor < |s.registry|
    ensures FillActions(s, k, n) == [Visit(k, Size(s))] + ([Advance(k)] + FillActions(Turn(s, k), k, n - 1))
  {
    hide Turn, Inv, Core, Turning, Size;
  }

  lemma NoActions(s: State, k: int, n: nat)
    requires Inv(s) && Turning(s) && !s.thrown && (n == 0 || !CanVisit(s, k))
    ensures FillActions(s, k, n) == [] && Turns(s, k, n) == s
  {
    hide Inv, Turning, CanVisit;
  }

  lemma TurnIsRun(s: State, k: int, more: seq<Action>)
    requires Core(s) && CanVisit(s, k) && s.filler.Busy? && s.cursor < |s.registry|
    requires !s.thrown && !DoVisit(s, k, Size(s)).thrown
    ensures Run(s, [Visit(k, Size(s))] + ([Advance(k)] + more)) == Run(Turn(s, k), more)
  {
    ApplyVisit(s, k, Size(s));
    ApplyAdvance(DoVisit(s, k, Size(s)), k);
    hide Core, DoVisit, DoAdvance, Run, Apply, Size;
    RunCons(s, Visit(k, Size(s)), [Advance(k)] + more);
    RunCons(DoVisit(s, k, Size(s)), Advance(k), more);
  }

  lemma ApplyVisit(s: State, k: int, snapshot: nat)
    requires !s.thrown
    ensures Apply(s, Visit(k, snapshot)) == DoVisit(s, k, snapshot)
  {
    hide DoVisit;
  }

  lemma ApplyAdvance(s: State, k: int)
    requires !s.thrown
    ensures Apply(s, Advance(k)) == DoAdvance(s, k)
  {
    hide DoAdvance;
  }

  lemma BeginsInside(s: State, k: int, budget: nat)
    requires Inv(s) && 0 <= k < |s.workers| && s.workers[k].phase == Ready && s.filler == Idle && !s.thrown
    requires s.registry != [] && budget > 0
    ensures Shape(s)
    ensures var t := DoBeginFill(s, k, budget);
            && Inside(t, k, |s.registry|, View(s))
            && t.cursor == (if s.cursor >= |s.registry| then 0 else s.cursor) && t.filler.left == budget
            && t.workers[k].queue == [] && t.registry == s.registry
  {
    assert WorkerOk(s.paths, s.workers[k]);
    BeginFillKeeps(s, k, budget);
    var t := DoBeginFill(s, k, budget);
    assert t.streams == s.streams && t.registry == s.registry;
    InvIsCore(s);
    InvIsCore(t);
    ShapeOf(s);
    ShapeOf(t);
    SameView(s, t);
    assert s.cursor >= 0;
    hide Inv, Core, Shape, View;
  }

  /**
    A worker that begins to fill and is left alone until it is done: a run of the pipeline that takes
    from the streams' queues, appends to the worker's queue and moves the cursor as specified.
   */
  lemma UninterruptedFill(s: State, k: int, budget: nat)
    requires Inv(s) && 0 <= k < |s.workers| && s.workers[k].phase == Ready && s.filler == Idle && !s.thrown
    requires s.registry != [] && budget > 0
    ensures exists actions ::
      var t := Run(s, [BeginFill(k, budget)] + actions);
      var r := Rotation.Fill(View(s), s.cursor, budget);
      && Inv(t) && View(t) == r.streams && t.cursor == r.cursor && t.filler == Idle
      && k < |t.workers| && t.workers[k].queue == r.packets
  {
    var t, n := DoBeginFill(s, k, budget), |s.registry|;
    BeginsInside(s, k, budget);
    assert Rotation.Fill(View(s), s.cursor, budget) == FillFrom(View(s), t.cursor, n, budget);
    hide *;
    TurnsAreFill(t, k, n, View(s));
    FilledFacts(t, k, Turns(t, k, n), FillFrom(View(s), t.cursor, n, budget));
    FillIsRun(t, k, n);
    RunCons(s, BeginFill(k, budget), FillActions(t, k, n));
    ApplyBegin(s, k, budget);
  }

  lemma ApplyBegin(s: State, k: int, budget: nat)
    requires !s.thrown
    ensures Apply(s, BeginFill(k, budget)) == DoBeginFill(s, k, budget)
  {
    hide DoBeginFill;
  }

  lemma FilledFacts(s: State, k: int, t: State, r: FillResult<PathId>)
    requires Filled(s, k, t, r) && s.workers[k].queue == []
    ensures Inv(t) && Shape(t) && View(t) == r.streams && t.cursor == r.cursor && t.filler == Idle
    ensures 0 <= k < |t.workers| && t.workers[k].queue == r.packets
  {
    InvIsCore(t);
    ShapeOf(t);
    assert [] + r.packets == r.packets;
    hide Inv, Core, View;
  }
}
