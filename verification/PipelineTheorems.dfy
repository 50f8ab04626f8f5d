/** What the invariants say about every run of the pipeline. */
module PipelineTheorems {
  import opened Basics
  import opened Batches
  import opened Pipeline
  import opened PipelineSafety
  import opened PipelineCounts
  import opened PipelineBounds

  /** `s` is reachable: some list of actions leads there from the start. */
  ghost predicate Reachable(numWorkers: nat, s: State) {
    exists actions :: s == Run(Init(numWorkers), actions)
  }

  /** Some run leads there in which no path ever has 2^32 marks at once. */
  ghost predicate ReachableFitting(numWorkers: nat, s: State) {
    exists actions :: s == Run(Init(numWorkers), actions) && Fitting(Init(numWorkers), actions)
  }

  /** Some run leads there in which no stream is removed in the middle of a fill. */
  ghost predicate ReachableCalmly(numWorkers: nat, s: State) {
    exists actions :: s == Run(Init(numWorkers), actions) && Calm(Init(numWorkers), actions)
  }

  /** No worker holds a packet for this path, in its hand or in its queue. */
  ghost predicate Unreferenced(s: State, p: PathId) {
    forall k, j :: 0 <= k < |s.workers| && 0 <= j < |Line(s.workers[k])| ==> Line(s.workers[k])[j].path != p
  }

  lemma ReachableInv(numWorkers: nat, s: State)
    requires Reachable(numWorkers, s)
    ensures Inv(s)
  {
    var actions :| s == Run(Init(numWorkers), actions);
    RunKeeps(numWorkers, actions);
  }

  lemma FittingSound(numWorkers: nat, s: State)
    requires ReachableFitting(numWorkers, s)
    ensures Reachable(numWorkers, s) && Core(s) && Sound(s) && Fits(s)
  {
    var actions :| s == Run(Init(numWorkers), actions) && Fitting(Init(numWorkers), actions);
    RunSound(numWorkers, actions);
    hide Core, Sound, Fits, Run;
  }

  /**
    The marks of a run fit if no stream is removed in the middle of a fill, and also if the budgets of the
    workers together stay below 2^32.
   */
  lemma FitsIf(numWorkers: nat, actions: seq<Action>)
    ensures numWorkers < UINT32_LIMIT && Calm(Init(numWorkers), actions) ==>
      ReachableFitting(numWorkers, Run(Init(numWorkers), actions))
    ensures forall budget: nat :: WithinBudget(actions, budget) && numWorkers * budget < UINT32_LIMIT ==>
      ReachableFitting(numWorkers, Run(Init(numWorkers), actions))
  {
    hide Run, Calm, WithinBudget, Fitting;
    if numWorkers < UINT32_LIMIT && Calm(Init(numWorkers), actions) {
      CalmFits(numWorkers, actions);
    }
    forall budget: nat | WithinBudget(actions, budget) && numWorkers * budget < UINT32_LIMIT
      ensures ReachableFitting(numWorkers, Run(Init(numWorkers), actions))
    {
      BudgetFits(numWorkers, actions, budget);
    }
  }

  /**
    The batched count, in every reachable state, whenever streams are removed: it is the number of marked
    packets up to the wrap-around, and while the marks fit it is that number, and zero exactly when no
    packet for the path is left anywhere.
   */
  lemma TransitIsExact(numWorkers: nat, s: State, p: PathId)
    requires Reachable(numWorkers, s) && p in s.paths
    ensures s.paths[p].transit == Sum(MarksOf(p), s.workers) % UINT32_LIMIT
    ensures Sum(MarksOf(p), s.workers) == 0 <==> Unreferenced(s, p)
    ensures Fits(s) ==> s.paths[p].transit == Sum(MarksOf(p), s.workers)
    ensures Fits(s) ==> (s.paths[p].transit == 0 <==> Unreferenced(s, p))
  {
    ReachableInv(numWorkers, s);
    MarksMeanPackets(s, p);
    assert Counts(s);
    hide Inv, Reachable, Sum, Unreferenced, Fits;
    if Fits(s) {
      ZeroMeansNone(s, p);
    }
  }

  lemma MarksMeanPackets(s: State, p: PathId)
    requires Core(s)
    ensures Sum(MarksOf(p), s.workers) == 0 <==> Unreferenced(s, p)
  {
    assert WorkersOk(s);
    hide Core, Sum;
    if Sum(MarksOf(p), s.workers) == 0 {
      forall k, j | 0 <= k < |s.workers| && 0 <= j < |Line(s.workers[k])| ensures Line(s.workers[k])[j].path != p {
        PacketIsMarked(s, k, j);
      }
    } else {
      SumZero(MarksOf(p), s.workers);
      var k :| 0 <= k < |s.workers| && Weigh(MarksOf(p), s.workers[k]) != 0;
      MarkedPacket(Line(s.workers[k]), p);
    }
  }

  lemma {:induction false} MarkedPacket(ps: seq<Packet<PathId>>, p: PathId)
    requires MarksFor(ps, p) != 0
    ensures exists j :: 0 <= j < |ps| && ps[j].path == p
  {
    if ps[0].path != p {
      MarkedPacket(ps[1..], p);
      var j :| 0 <= j < |ps[1..]| && ps[1..][j].path == p;
      assert ps[j + 1].path == p;
    }
  }

  /**
    Without a removal in the middle of a fill, a count never exceeds the number of workers, and the
    scheduler never looks past the end of the registry.
   */
  lemma TransitInCalmRuns(numWorkers: nat, s: State, p: PathId)
    requires numWorkers < UINT32_LIMIT && ReachableCalmly(numWorkers, s)
    ensures !s.thrown && Fits(s)
    ensures p in s.paths ==> 0 <= s.paths[p].transit <= numWorkers
  {
    var actions :| s == Run(Init(numWorkers), actions) && Calm(Init(numWorkers), actions);
    RunSolo(numWorkers, actions);
    WorkersStay(numWorkers, actions);
    SoloFits(s);
    SoloBound(s, p);
    hide Solo, Fits, Calm, Run, Sum;
    if p in s.paths {
      TransitIsExact(numWorkers, s, p);
    }
  }

  /** Every packet a worker holds is at or before a marked packet for its path, in the worker's order. */
  lemma EveryPacketIsCovered(numWorkers: nat, s: State, k: int)
    requires Reachable(numWorkers, s) && 0 <= k < |s.workers|
    ensures Covered(Line(s.workers[k]))
  {
    ReachableInv(numWorkers, s);
    assert WorkerOk(s.paths, s.workers[k]);
  }

  /** While the marks fit, nobody has used a path whose memory was given back. */
  lemma NoFault(numWorkers: nat, s: State)
    requires ReachableFitting(numWorkers, s)
    ensures !s.fault
  {
    FittingSound(numWorkers, s);
  }

  /**
    A destructor that has read zero leaves no packet behind that points at its path, then or at any
    later point of the run; nor has anybody used a path whose memory was given back.
   */
  lemma NoDanglingPath(numWorkers: nat, s: State, p: PathId)
    requires ReachableFitting(numWorkers, s)
    requires p in s.paths && s.paths[p].stage != Live
    ensures Unreferenced(s, p) && !s.fault
  {
    FittingSound(numWorkers, s);
    hide Core, Unreferenced, Sum, Reachable, ReachableFitting, Fits;
    MarksMeanPackets(s, p);
  }

  /**
    Exactly once: an update accepted once by a stream is, for each of the stream's paths, in exactly
    one of the stream's queue, one unsent packet of one worker, and the path's emitted list.
   */
  lemma ExactlyOnce(numWorkers: nat, s: State, p: PathId, u: UpdateId)
    requires Reachable(numWorkers, s) && p in s.paths
    ensures 0 <= p.stream < |s.streams|
    ensures var r := s.streams[p.stream];
            multiset(r.accepted)[u] ==
              multiset(Present(r.queue))[u] + Sum(PendingOf(p, u), s.workers) + multiset(s.paths[p].emitted)[u]
  {
    ReachableInv(numWorkers, s);
    assert AccountOf(s, p, u);
  }

  /** With one worker, the emitted list of every path is a prefix of what its stream accepted. */
  lemma InOrderWithOneWorker(s: State, p: PathId)
    requires Reachable(1, s) && p in s.paths
    ensures 0 <= p.stream < |s.streams| && s.paths[p].emitted <= s.streams[p.stream].accepted
  {
    ReachableInv(1, s);
    var actions :| s == Run(Init(1), actions);
    WorkersStay(1, actions);
    assert OrderOf(s, p);
  }

  // Shutdown

  ghost predicate AllJoined(s: State) {
    forall k :: 0 <= k < |s.workers| ==> s.workers[k].phase == Joined
  }

  /** A worker that is about to test do_run, or has been joined, has nothing left to emit. */
  lemma EmptyAtTheTest(numWorkers: nat, s: State, k: int)
    requires Reachable(numWorkers, s) && 0 <= k < |s.workers|
    requires s.workers[k].phase == Testing || s.workers[k].phase == Joined
    ensures Line(s.workers[k]) == []
  {
    ReachableInv(numWorkers, s);
    assert WorkerOk(s.paths, s.workers[k]);
  }

  /** Once all are joined, no action starts a worker again. */
  lemma {:induction false} JoinedStays(s: State, more: seq<Action>)
    requires AllJoined(s) && Inv(s)
    ensures AllJoined(Run(s, more)) && Inv(Run(s, more))
  {
    hide Inv, Apply, AllJoined;
    if more != [] {
      JoinedStays(s, more[..|more| - 1]);
      var t := Run(s, more[..|more| - 1]);
      ApplyKeeps(t, more[|more| - 1]);
      InvIsCore(t);
      JoinedStep(t, more[|more| - 1]);
    }
  }

  /** Nobody is in a fill, and no worker has a packet. */
  lemma JoinedFacts(s: State)
    requires AllJoined(s) && Core(s)
    ensures s.filler == Idle && !s.thrown
    ensures forall k :: 0 <= k < |s.workers| ==> Line(s.workers[k]) == [] && s.workers[k].hand == Empty
  {
    forall k | 0 <= k < |s.workers| ensures Line(s.workers[k]) == [] && s.workers[k].hand == Empty {
      assert WorkerOk(s.paths, s.workers[k]);
    }
  }

  lemma JoinedStep(s: State, a: Action)
    requires AllJoined(s) && Core(s)
    ensures AllJoined(Apply(s, a))
  {
    JoinedFacts(s);
    hide Core, Line, PathsOf;
  }

  /**
    Once all workers have joined, every counter is zero for the rest of the run, so the destructor
    of any path out of the registry goes on at its first look.
   */
  lemma ShutdownNeverWaits(numWorkers: nat, s: State, more: seq<Action>, p: PathId)
    requires Reachable(numWorkers, s) && AllJoined(s)
    requires p in Run(s, more).paths
    ensures var t := Run(s, more);
            && t.paths[p].transit == 0
            && (t.paths[p].stage == Live && p.stream !in t.registry ==>
                  Apply(t, ReadTransit(p)) == t.(paths := t.paths[p := t.paths[p].(stage := Released)]))
  {
    ReachableInv(numWorkers, s);
    hide Inv, Run, Reachable, AllJoined, Core, Line;
    JoinedStays(s, more);
    InvIsCore(Run(s, more));
    JoinedFacts(Run(s, more));
    JoinedZero(Run(s, more), p);
  }

  lemma JoinedZero(s: State, p: PathId)
    requires Core(s) && AllJoined(s) && p in s.paths
    ensures s.paths[p].transit == 0
  {
    JoinedFacts(s);
    forall k | 0 <= k < |s.workers| ensures Weigh(MarksOf(p), s.workers[k]) == 0 {
    }
    assert s.paths[p].transit == Sum(MarksOf(p), s.workers) % UINT32_LIMIT;
    hide Core;
    SumZero(MarksOf(p), s.workers);
  }

  /** clearStreams: one stream after the other leaves the registry. */
  function ClearActions(n: nat): (actions: seq<Action>) {
    if n == 0 then [] else ClearActions(n - 1) + [Unregister(0)]
  }

  lemma ReadGoesOn(s: State, p: PathId)
    requires p in s.paths && s.paths[p].transit == 0 && p.stream !in s.registry && !s.thrown
    ensures var t := Apply(Apply(s, ReadTransit(p)), Free(p)); p in t.paths && t.paths[p].stage == Freed
  {
  }

  /** After the join, clearStreams empties the registry, and then every path can be destroyed. */
  lemma CleanShutdown(numWorkers: nat, s: State, p: PathId)
    requires Reachable(numWorkers, s) && AllJoined(s) && p in s.paths
    ensures var t := Run(s, ClearActions(|s.registry|));
            && t.registry == [] && t.paths == s.paths
            && var u := Apply(Apply(t, ReadTransit(p)), Free(p)); p in u.paths && u.paths[p].stage == Freed
  {
    ReachableInv(numWorkers, s);
    InvIsCore(s);
    hide Inv, Run, Reachable, AllJoined, Apply, Core, Line;
    JoinedFacts(s);
    JoinedZero(s, p);
    Clearing(s, |s.registry|);
    var t := Run(s, ClearActions(|s.registry|));
    assert t.registry == [];
    ReadGoesOn(t, p);
  }

  lemma {:induction false} Clearing(s: State, n: nat)
    requires !s.thrown && n <= |s.registry|
    ensures Run(s, ClearActions(n)) == s.(registry := s.registry[n..])
  {
    if n == 0 {
      assert s.registry[0..] == s.registry;
    } else {
      Clearing(s, n - 1);
      ClearLength(n - 1);
      var actions := ClearActions(n);
      assert actions[..|actions| - 1] == ClearActions(n - 1);
      assert Run(s, actions) == DoUnregister(s.(registry := s.registry[n - 1..]), 0);
      hide Run, Apply, ClearActions;
      assert s.registry[n - 1..][..0] + s.registry[n - 1..][1..] == s.registry[n..];
    }
  }

  lemma {:induction false} ClearLength(n: nat)
    ensures |ClearActions(n)| == n
  {
    if n > 0 {
      ClearLength(n - 1);
    }
  }
}
