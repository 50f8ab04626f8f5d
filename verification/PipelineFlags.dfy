/** When a worker's thread has ended: exactly if it looked at its run flag after it had been stopped. */
module PipelineFlags {
  import opened Batches
  import opened Pipeline
  import opened PipelineBounds
  import Rotation

  /** A StopWorker for worker k is among the first n actions. */
  ghost predicate StoppedBefore(actions: seq<Action>, k: int, n: int) {
    exists i :: 0 <= i < n && i < |actions| && actions[i] == StopWorker(k)
  }

  /** At action j the worker looks at its run flag, in a program that has not ended. */
  ghost predicate TestsAt(numWorkers: nat, actions: seq<Action>, k: int, j: int) {
    && 0 <= j < |actions| && actions[j] == TestRun(k)
    && var s := Run(Init(numWorkers), actions[..j]);
       !s.thrown && 0 <= k < |s.workers| && s.workers[k].phase == Testing
  }

  ghost predicate JoinedAt(numWorkers: nat, actions: seq<Action>, k: int, j: int) {
    TestsAt(numWorkers, actions, k, j) && StoppedBefore(actions, k, j)
  }

  ghost predicate Told(numWorkers: nat, actions: seq<Action>, k: int) {
    var s := Run(Init(numWorkers), actions);
    && |s.workers| == numWorkers
    && (0 <= k < numWorkers ==>
          && (s.workers[k].phase == Joined <==> exists j :: JoinedAt(numWorkers, actions, k, j))
          && (!s.thrown ==> (s.workers[k].doRun <==> !StoppedBefore(actions, k, |actions|))))
  }

  lemma StoppedSnoc(before: seq<Action>, a: Action, k: int)
    ensures StoppedBefore(before + [a], k, |before| + 1) <==> StoppedBefore(before, k, |before|) || a == StopWorker(k)
    ensures forall n :: n <= |before| ==> (StoppedBefore(before + [a], k, n) <==> StoppedBefore(before, k, n))
  {
    var all := before + [a];
    assert all[|before|] == a;
    forall n | n <= |before| ensures StoppedBefore(all, k, n) <==> StoppedBefore(before, k, n) {
      assert forall i :: 0 <= i < n ==> all[i] == before[i];
    }
    if StoppedBefore(before, k, |before|) {
      var i :| 0 <= i < |before| && before[i] == StopWorker(k);
      assert all[i] == StopWorker(k);
    }
  }

  lemma JoinedSnoc(numWorkers: nat, before: seq<Action>, a: Action, k: int, j: int)
    ensures JoinedAt(numWorkers, before + [a], k, j) <==>
      JoinedAt(numWorkers, before, k, j) ||
      (j == |before| && a == TestRun(k) && StoppedBefore(before, k, |before|)
       && var s := Run(Init(numWorkers), before);
          !s.thrown && 0 <= k < |s.workers| && s.workers[k].phase == Testing)
  {
    var all := before + [a];
    StoppedSnoc(before, a, k);
    hide Run, StoppedBefore;
    if 0 <= j < |before| {
      assert all[..j] == before[..j] && all[j] == before[j];
    } else if j == |before| {
      assert all[..j] == before && all[j] == a;
    }
  }

  /** What a step does to the run flags and to who is joined. */
  ghost predicate Flags(s: State, t: State, a: Action, k: int) {
    && |t.workers| == |s.workers| && 0 <= k < |s.workers|
    && t.workers[k].doRun == (s.workers[k].doRun && a != StopWorker(k))
    && (t.workers[k].phase == Joined <==>
          s.workers[k].phase == Joined
          || (a == TestRun(k) && s.workers[k].phase == Testing && !s.workers[k].doRun))
  }

  /** A step that is not one of a worker's. */
  predicate Aside(a: Action) {
    a.AddStream? || a.Unregister? || a.Enqueue? || a.ReadTransit? || a.Free?
  }

  lemma AsideWorkers(s: State, a: Action)
    requires Aside(a)
    ensures Apply(s, a).workers == s.workers
  {
    hide PathsOf;
  }

  lemma FillFlags(s: State, a: Action, k: int)
    requires 0 <= k < |s.workers| && (a.BeginFill? || a.Visit? || a.Advance?)
    ensures Flags(s, Apply(s, a), a, k)
  {
    hide Taken, Batch, Present, PathsOf, Bumped, Rotation.Next;
  }

  lemma DrainFlags(s: State, a: Action, k: int)
    requires 0 <= k < |s.workers| && (a.Dequeue? || a.Emit? || a.Destroy?)
    ensures Flags(s, Apply(s, a), a, k)
  {
    hide Dangling;
  }

  lemma TestFlags(s: State, a: Action, k: int)
    requires 0 <= k < |s.workers| && (a.TestRun? || a.StopWorker?) && !s.thrown
    ensures Flags(s, Apply(s, a), a, k)
  {
  }

  lemma FlagStep(s: State, a: Action, k: int)
    requires !s.thrown && 0 <= k < |s.workers|
    ensures Flags(s, Apply(s, a), a, k)
  {
    hide Apply, Flags;
    if Aside(a) {
      AsideWorkers(s, a);
      AsideFlags(s, Apply(s, a), a, k);
    } else if a.BeginFill? || a.Visit? || a.Advance? {
      FillFlags(s, a, k);
    } else if a.TestRun? || a.StopWorker? {
      TestFlags(s, a, k);
    } else {
      DrainFlags(s, a, k);
    }
  }

  lemma AsideFlags(s: State, t: State, a: Action, k: int)
    requires 0 <= k < |s.workers| && t.workers == s.workers && Aside(a)
    ensures Flags(s, t, a, k)
  {
  }

  lemma SizeStep(s: State, a: Action)
    ensures |Apply(s, a).workers| == |s.workers|
    ensures s.thrown ==> Apply(s, a) == s
  {
    if s.thrown {
      hide *;
      EndedStays(s, a);
    } else if Aside(a) {
      AsideWorkers(s, a);
      hide Apply;
    } else {
      hide Taken, Batch, Present, PathsOf, Bumped, Rotation.Next, DoAddStream, DoUnregister, DoEnqueue, DoReadTransit,
          DoFree;
    }
  }

  lemma EndedStays(s: State, a: Action)
    requires s.thrown
    ensures Apply(s, a) == s
  {
  }

  lemma {:induction false} AllTold(numWorkers: nat, actions: seq<Action>, k: int)
    ensures Told(numWorkers, actions, k)
  {
    hide Apply, StoppedBefore, JoinedAt;
    if actions == [] {
      NobodyJoined(numWorkers, k);
    } else {
      var before, a := actions[..|actions| - 1], actions[|actions| - 1];
      AllTold(numWorkers, before, k);
      assert actions == before + [a];
      var s := Run(Init(numWorkers), before);
      assert Run(Init(numWorkers), actions) == Apply(s, a);
      SizeStep(s, a);
      hide *;
      ToldStep(numWorkers, before, a, k);
    }
  }

  lemma NobodyJoined(numWorkers: nat, k: int)
    ensures Told(numWorkers, [], k)
  {
  }

  lemma ToldStep(numWorkers: nat, before: seq<Action>, a: Action, k: int)
    requires Told(numWorkers, before, k)
    ensures Told(numWorkers, before + [a], k)
  {
    var s, n := Run(Init(numWorkers), before), |before|;
    var now := a == TestRun(k) && StoppedBefore(before, k, n) && !s.thrown && 0 <= k < |s.workers|
               && s.workers[k].phase == Testing;
    RunSnoc(Init(numWorkers), before, a);
    StoppedSnoc(before, a, k);
    forall j
      ensures JoinedAt(numWorkers, before + [a], k, j) <==> JoinedAt(numWorkers, before, k, j) || (j == n && now)
    {
      JoinedSnoc(numWorkers, before, a, k, j);
    }
    hide Run, Apply, StoppedBefore, JoinedAt;
    SizeStep(s, a);
    assert (exists j :: JoinedAt(numWorkers, before + [a], k, j))
           <==> (exists j :: JoinedAt(numWorkers, before, k, j)) || now by {
      if now {
        assert JoinedAt(numWorkers, before + [a], k, n);
      }
    }
    if !s.thrown && 0 <= k < numWorkers {
      FlagStep(s, a, k);
    }
  }

  /**
    A worker is joined exactly if, in the run, it looked at its run flag after it had been stopped; so a
    worker that was never stopped is never joined.
   */
  lemma JoinedExactly(numWorkers: nat, actions: seq<Action>, k: int)
    requires 0 <= k < numWorkers
    ensures var s := Run(Init(numWorkers), actions);
            && |s.workers| == numWorkers
            && (s.workers[k].phase == Joined <==>
                  exists i, j :: 0 <= i < j < |actions|
                                 && TestsAt(numWorkers, actions, k, j) && actions[i] == StopWorker(k))
  {
    AllTold(numWorkers, actions, k);
    hide Run, TestsAt;
    if exists i, j :: 0 <= i < j < |actions| && TestsAt(numWorkers, actions, k, j) && actions[i] == StopWorker(k) {
      var i, j :| 0 <= i < j < |actions| && TestsAt(numWorkers, actions, k, j) && actions[i] == StopWorker(k);
      assert StoppedBefore(actions, k, j);
      assert JoinedAt(numWorkers, actions, k, j);
    }
    if exists j :: JoinedAt(numWorkers, actions, k, j) {
      var j :| JoinedAt(numWorkers, actions, k, j);
      TestsInside(numWorkers, actions, k, j);
      var i :| 0 <= i < j && i < |actions| && actions[i] == StopWorker(k);
    }
  }

  lemma TestsInside(numWorkers: nat, actions: seq<Action>, k: int, j: int)
    requires TestsAt(numWorkers, actions, k, j)
    ensures 0 <= j < |actions|
  {
    hide Run;
  }
}
