/**
  What the idle timer is for: the latest update of a channel is queued again, and whatever is written for
  it from then on carries its status, because a reader takes it as the first value of a log.
 */
module AlarmTimer {
  import opened Basics
  import opened AlarmDelta
  import opened AlarmStatus
  import AlarmPipeline
  import Pipeline

  /** Update `id` is flagged, and since the first n messages all that was written for it is its status. */
  ghost predicate Refreshed(s: State, id: int, message: Option<string>, n: int) {
    && 0 <= id < |s.updates| && s.updates[id] == UpdateRec(message, true) && 0 <= n <= |s.outputs|
    && forall k :: n <= k < |s.outputs| && s.outputs[k].update == id ==> s.outputs[k].status == Status(message)
  }

  lemma StaysRefreshed(s: State, step: Step, id: int, message: Option<string>, n: int)
    requires Refreshed(s, id, message, n)
    ensures Refreshed(Apply(s, step), id, message, n)
  {
    hide Status;
  }

  /** What is converted or waits stays the start of what is converted or waits. */
  lemma HistoryStays(s: State, step: Step)
    ensures History(s) <= History(Apply(s, step)) && s.outputs <= Apply(s, step).outputs
  {
    hide Status;
  }

  lemma {:induction false} RunOn(steps: seq<Step>, more: seq<Step>, id: int, message: Option<string>, n: int)
    requires Refreshed(Run(steps), id, message, n)
    ensures Refreshed(Run(steps + more), id, message, n)
    ensures History(Run(steps)) <= History(Run(steps + more)) && Run(steps).outputs <= Run(steps + more).outputs
  {
    hide Apply, Refreshed, History;
    if more == [] {
      assert steps + more == steps;
    } else {
      var before, step := more[..|more| - 1], more[|more| - 1];
      RunOn(steps, before, id, message, n);
      assert (steps + more)[..|steps + more| - 1] == steps + before;
      StaysRefreshed(Run(steps + before), step, id, message, n);
      HistoryStays(Run(steps + before), step);
    }
  }

  /** What the timer does to the channel. */
  lemma TimerQueues(s: State)
    requires Inv(s) && !s.fault && s.updates != []
    ensures var t, id := Apply(s, EmitCached), |s.updates| - 1;
            && t == s.(updates := t.updates, queue := s.queue + [id]) && |t.updates| == |s.updates|
            && Refreshed(t, id, s.updates[id].message, |s.outputs|) && History(t) == History(s) + [id]
  {
    hide Climbs, Flagged, Sound, Quiet, MessagesOf, Status, Held;
  }

  lemma OneMore(steps: seq<Step>, step: Step)
    ensures Run(steps + [step]) == Apply(Run(steps), step)
  {
    assert (steps + [step])[..|steps|] == steps;
    hide Apply;
  }

  lemma MessageOf(steps: seq<Step>)
    requires !Run(steps).fault
    ensures var s, ms := Run(steps), Messages(steps);
            Inv(s) && |s.updates| == |ms| && forall i :: 0 <= i < |ms| ==> s.updates[i].message == ms[i]
  {
    RunKeeps(steps);
    hide Inv, Run, Messages, Sound;
  }

  /** The output that an id in the history becomes. */
  lemma Becomes(s: State, i: int)
    requires 0 <= i < |History(s)|
    ensures i < |s.outputs| ==> s.outputs[i].update == History(s)[i]
  {
  }

  /**
    After any run without a fault, the timer queues the latest update behind what waits. The message that
    this becomes, and every other one that is written for this update from then on, has the status of the
    latest alarm message, whatever else happens. Before the first update the timer does nothing.
   */
  lemma TimerIsWritten(steps: seq<Step>, more: seq<Step>)
    requires !Run(steps).fault
    ensures Messages(steps) == [] ==> Run(steps + [EmitCached]) == Run(steps)
    ensures Messages(steps) != [] ==>
      var s, queued, t := Run(steps), Run(steps + [EmitCached]), Run(steps + [EmitCached] + more);
      var id := |Messages(steps)| - 1;
      var status := Status(Messages(steps)[id]);
      && queued.queue == s.queue + [id] && queued.outputs == s.outputs <= t.outputs && !queued.fault
      && (forall k :: |s.outputs| <= k < |t.outputs| && t.outputs[k].update == id ==> t.outputs[k].status == status)
      && (|t.outputs| > |s.outputs| + |s.queue| ==> t.outputs[|s.outputs| + |s.queue|] == Output(id, status))
  {
    var s, ms := Run(steps), Messages(steps);
    MessageOf(steps);
    OneMore(steps, EmitCached);
    if ms == [] {
      NothingCached(s);
    } else {
      TimerQueues(s);
      hide Run, Messages, Apply, Status, Inv, History;
      var id, n := |ms| - 1, |s.outputs|;
      RunOn(steps + [EmitCached], more, id, ms[id], n);
      var queued, t := Run(steps + [EmitCached]), Run(steps + [EmitCached] + more);
      HistoryLength(s);
      assert History(queued)[n + |s.queue|] == id;
      Becomes(t, n + |s.queue|);
    }
  }

  lemma HistoryLength(s: State)
    ensures |History(s)| == |s.outputs| + |s.queue|
  {
  }

  lemma NothingCached(s: State)
    requires Inv(s) && s.updates == []
    ensures Apply(s, EmitCached) == s
  {
    hide Climbs, Flagged, Sound, Quiet, MessagesOf, Status, Held;
  }

  // On the pipeline

  lemma {:induction false} StepsPrefix(p: Pipeline.PathId, actions: seq<AlarmPipeline.Action>,
      more: seq<AlarmPipeline.Action>) returns (steps: seq<Step>)
    ensures AlarmPipeline.Steps(1, p, actions + more) == AlarmPipeline.Steps(1, p, actions) + steps
  {
    hide AlarmPipeline.StepsOf, AlarmPipeline.Run;
    if more == [] {
      assert actions + more == actions;
      steps := [];
      assert AlarmPipeline.Steps(1, p, actions) + [] == AlarmPipeline.Steps(1, p, actions);
    } else {
      var before, all := more[..|more| - 1], actions + more;
      assert all[..|all| - 1] == actions + before;
      var rest := StepsPrefix(p, actions, before);
      var last := AlarmPipeline.StepsOf(AlarmPipeline.Run(1, p, actions + before), p, more[|more| - 1]);
      steps := rest + last;
      assert AlarmPipeline.Steps(1, p, actions) + rest + last == AlarmPipeline.Steps(1, p, actions) + (rest + last);
    }
  }

  lemma TimerStep(p: Pipeline.PathId, actions: seq<AlarmPipeline.Action>)
    requires AlarmPipeline.Running(AlarmPipeline.Run(1, p, actions).pipe, p)
    ensures AlarmPipeline.Steps(1, p, actions + [AlarmPipeline.IdleTimer])
         == AlarmPipeline.Steps(1, p, actions) + [EmitCached]
  {
    assert (actions + [AlarmPipeline.IdleTimer])[..|actions|] == actions;
    hide AlarmPipeline.Run;
  }

  lemma Simulated(p: Pipeline.PathId, actions: seq<AlarmPipeline.Action>)
    ensures var j, s := AlarmPipeline.Run(1, p, actions), Run(AlarmPipeline.Steps(1, p, actions));
            && s.outputs == j.outputs && s.fault == j.fault && s.queue == AlarmPipeline.Waiting(j.pipe, p)
  {
    AlarmPipeline.RunSimulates(p, actions);
    hide Run, AlarmPipeline.Run, AlarmPipeline.Steps, AlarmPipeline.InOrder, AlarmPipeline.Known, AlarmPipeline.Waiting;
  }

  /** The same on the pipeline with one worker, on which other updates, removals and destructors go on. */
  lemma TimerIsWrittenByPath(p: Pipeline.PathId, actions: seq<AlarmPipeline.Action>, more: seq<AlarmPipeline.Action>)
    requires var j := AlarmPipeline.Run(1, p, actions); !j.fault && AlarmPipeline.Running(j.pipe, p)
    requires Messages(AlarmPipeline.Steps(1, p, actions)) != []
    ensures var ms := Messages(AlarmPipeline.Steps(1, p, actions));
            var timer := actions + [AlarmPipeline.IdleTimer];
            var j, queued := AlarmPipeline.Run(1, p, actions), AlarmPipeline.Run(1, p, timer);
            var t := AlarmPipeline.Run(1, p, timer + more);
            var id, n, waiting := |ms| - 1, |j.outputs|, AlarmPipeline.Waiting(j.pipe, p);
            && AlarmPipeline.Waiting(queued.pipe, p) == waiting + [id] && queued.outputs == j.outputs <= t.outputs
            && (forall k :: n <= k < |t.outputs| && t.outputs[k].update == id ==> t.outputs[k].status == Status(ms[id]))
            && (|t.outputs| > n + |waiting| ==> t.outputs[n + |waiting|] == Output(id, Status(ms[id])))
  {
    hide *;
    var timer := actions + [AlarmPipeline.IdleTimer];
    var rest := StepsPrefix(p, timer, more);
    TimerStep(p, actions);
    Simulated(p, actions);
    Simulated(p, timer);
    Simulated(p, timer + more);
    TimerIsWritten(AlarmPipeline.Steps(1, p, actions), rest);
  }
}
