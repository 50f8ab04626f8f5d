/**
  The alarm delta encoding when the idle timer has a queue of its own: the library keeps the order of
  each producing thread, but not the order between the client and the timer.
 */
module AlarmTwoQueues {
  import opened Basics
  import opened AlarmDelta
  import opened AlarmStatus

  /** The channel, with what the client has queued, and what the timer has queued. */
  datatype Two = Two(main: AlarmDelta.State, timer: seq<int>)

  datatype Action = Event(message: Option<string>) | Timer | TakeClient | TakeTimer

  const START := Two(INIT, [])

  /** The timer flags the cached object and queues it. */
  function DoTimer(s: Two): Two {
    var t := DoEmitCached(s.main.(queue := s.timer));
    Two(t.(queue := s.main.queue), t.queue)
  }

  /** The worker converts what comes first in the timer's queue. */
  function DoTakeTimer(s: Two): Two {
    var t := DoConvert(s.main.(queue := s.timer));
    Two(t.(queue := s.main.queue), t.queue)
  }

  function Apply(s: Two, a: Action): Two {
    if s.main.fault then s else
    match a
    case Event(message) => s.(main := DoEmit(s.main, message))
    case Timer => DoTimer(s)
    case TakeClient => s.(main := DoConvert(s.main))
    case TakeTimer => DoTakeTimer(s)
  }

  function Run(actions: seq<Action>): Two {
    if actions == [] then START else Apply(Run(actions[..|actions| - 1]), actions[|actions| - 1])
  }

  /** The messages of the events. */
  function EventsOf(actions: seq<Action>): (ms: seq<Option<string>>) {
    if actions == [] then [] else
    var before, last := EventsOf(actions[..|actions| - 1]), actions[|actions| - 1];
    if last.Event? then before + [last.message] else before
  }

  ghost predicate Reaches(s: Two, ms: seq<Option<string>>) {
    exists actions :: Run(actions) == s && EventsOf(actions) == ms
  }

  /** No interleaving of the client, the timer and the worker loses a status. */
  ghost predicate NeverLoses(ms: seq<Option<string>>) {
    forall s :: Reaches(s, ms) ==> Lossless(s.main)
  }

  /** All messages mean the same. */
  ghost predicate Uniform(ms: seq<Option<string>>) {
    forall i, j :: 0 <= i < |ms| && 0 <= j < |ms| ==> Status(ms[i]) == Status(ms[j])
  }

  lemma Extends(s: Two, ms: seq<Option<string>>, a: Action)
    requires Reaches(s, ms)
    ensures Reaches(Apply(s, a), if a.Event? then ms + [a.message] else ms)
  {
    hide Run, EventsOf, Apply;
    var actions :| Run(actions) == s && EventsOf(actions) == ms;
    OneMore(actions, a);
  }

  lemma OneMore(actions: seq<Action>, a: Action)
    ensures Run(actions + [a]) == Apply(Run(actions), a)
    ensures EventsOf(actions + [a]) == if a.Event? then EventsOf(actions) + [a.message] else EventsOf(actions)
  {
    hide Apply;
    assert (actions + [a])[..|actions|] == actions;
  }

  // What every run keeps

  /** A message that was written without a status is for an update that came in without its flag. */
  ghost predicate WrittenOk(ms: seq<Option<string>>, o: Output) {
    && 0 <= o.update < |ms|
    && (o.status == Status(ms[o.update]) || (o.status == NO_CHANGE && !NextFlag(ms[..o.update], ms[o.update])))
  }

  ghost predicate ObjectsOk(updates: seq<UpdateRec>, ms: seq<Option<string>>) {
    && |updates| == |ms|
    && forall i :: 0 <= i < |ms| ==>
         updates[i].message == ms[i] && (NextFlag(ms[..i], ms[i]) ==> updates[i].flag)
  }

  /** The client's queue has the last updates in order. */
  ghost predicate InTurn(queue: seq<int>, n: nat) {
    |queue| <= n && forall k :: 0 <= k < |queue| ==> queue[k] == n - |queue| + k
  }

  ghost predicate Kept(s: Two, ms: seq<Option<string>>) {
    && !s.main.fault && s.main.cached == |ms| - 1
    && ObjectsOk(s.main.updates, ms) && InTurn(s.main.queue, |ms|)
    && (forall k :: 0 <= k < |s.timer| ==> 0 <= s.timer[k] < |ms| && s.main.updates[s.timer[k]].flag)
    && (forall k :: 0 <= k < |s.main.outputs| ==> WrittenOk(ms, s.main.outputs[k]))
    && (if s.main.outputs == [] then |s.main.queue| == |ms|
        else s.main.outputs[0].status == Status(ms[s.main.outputs[0].update]))
  }

  lemma WrittenStays(ms: seq<Option<string>>, message: Option<string>, o: Output)
    requires WrittenOk(ms, o)
    ensures WrittenOk(ms + [message], o) && (ms + [message])[o.update] == ms[o.update]
  {
    var both := ms + [message];
    assert both[o.update] == ms[o.update] && both[..o.update] == ms[..o.update];
  }

  lemma ObjectsSnoc(updates: seq<UpdateRec>, ms: seq<Option<string>>, message: Option<string>)
    requires ObjectsOk(updates, ms)
    ensures ObjectsOk(updates + [UpdateRec(message, NextFlag(ms, message))], ms + [message])
  {
    hide NextFlag;
    var both := ms + [message];
    forall i | 0 <= i < |both| ensures both[..i] == ms[..i] {
    }
    assert ms[..|ms|] == ms;
  }

  lemma EventIs(s: AlarmDelta.State, ms: seq<Option<string>>, message: Option<string>)
    requires !s.fault && s.cached == |ms| - 1 && ObjectsOk(s.updates, ms) && Sound(ms + [message])
    ensures DoEmit(s, message)
         == AlarmDelta.State(s.updates + [UpdateRec(message, NextFlag(ms, message))], |ms|, s.queue + [|ms|], s.outputs,
                             false)
  {
    var both := ms + [message];
    assert both[|ms|] == message && (ms != [] ==> both[|ms| - 1] == ms[|ms| - 1]);
  }

  lemma EventKeeps(s: Two, ms: seq<Option<string>>, message: Option<string>)
    requires Kept(s, ms) && Sound(ms + [message])
    ensures Kept(Apply(s, Event(message)), ms + [message])
  {
    EventIs(s.main, ms, message);
    ObjectsSnoc(s.main.updates, ms, message);
    forall k | 0 <= k < |s.main.outputs|
      ensures WrittenOk(ms + [message], s.main.outputs[k])
      ensures (ms + [message])[s.main.outputs[k].update] == ms[s.main.outputs[k].update]
    {
      WrittenStays(ms, message, s.main.outputs[k]);
    }
    hide DoEmit, ObjectsOk, WrittenOk, NextFlag, Status, Sound;
  }

  lemma TimerKeeps(s: Two, ms: seq<Option<string>>)
    requires Kept(s, ms)
    ensures Kept(Apply(s, Timer), ms)
  {
    hide WrittenOk, NextFlag, Status;
  }

  /** What the worker writes for an update that may or may not be flagged. */
  lemma Writes(updates: seq<UpdateRec>, ms: seq<Option<string>>, id: int)
    requires ObjectsOk(updates, ms) && 0 <= id < |ms|
    ensures var u := updates[id];
            WrittenOk(ms, Output(id, if u.flag then Status(u.message) else NO_CHANGE))
  {
    hide NextFlag, Status;
  }

  lemma FirstFlag(ms: seq<Option<string>>)
    requires ms != []
    ensures NextFlag(ms[..0], ms[0])
  {
  }

  lemma TakeClientKeeps(s: Two, ms: seq<Option<string>>)
    requires Kept(s, ms)
    ensures Kept(Apply(s, TakeClient), ms)
  {
    if s.main.queue != [] {
      Writes(s.main.updates, ms, s.main.queue[0]);
      FirstFlag(ms);
    }
    hide WrittenOk, NextFlag, Status;
  }

  lemma TakeTimerKeeps(s: Two, ms: seq<Option<string>>)
    requires Kept(s, ms)
    ensures Kept(Apply(s, TakeTimer), ms)
  {
    if s.timer != [] {
      Writes(s.main.updates, ms, s.timer[0]);
    }
    hide WrittenOk, NextFlag, Status;
  }

  lemma SoundFront(ms: seq<Option<string>>, message: Option<string>)
    requires Sound(ms + [message])
    ensures Sound(ms)
  {
    var both := ms + [message];
    assert forall i :: 0 <= i < |ms| ==> both[i] == ms[i];
  }

  lemma {:induction false} RunKeeps(actions: seq<Action>)
    requires Sound(EventsOf(actions))
    ensures Kept(Run(actions), EventsOf(actions))
  {
    hide Apply, Kept, Sound;
    if actions == [] {
      StartOk();
    } else {
      var before, a := actions[..|actions| - 1], actions[|actions| - 1];
      if a.Event? {
        SoundFront(EventsOf(before), a.message);
      }
      RunKeeps(before);
      match a
      case Event(message) => EventKeeps(Run(before), EventsOf(before), message);
      case Timer => TimerKeeps(Run(before), EventsOf(before));
      case TakeClient => TakeClientKeeps(Run(before), EventsOf(before));
      case TakeTimer => TakeTimerKeeps(Run(before), EventsOf(before));
    }
  }

  lemma StartOk()
    ensures Kept(START, [])
  {
  }

  // Enough

  /** All that was written says what the updates mean, if all of them came in with their flag. */
  lemma ChangesWritten(s: Two, ms: seq<Option<string>>)
    requires Kept(s, ms) && AlwaysChanges(ms)
    ensures AllWritten(s.main.updates, s.main.outputs) && MessagesOf(s.main.updates) == ms
  {
    forall i | 0 <= i < |ms| ensures NextFlag(ms[..i], ms[i]) {
      assert i > 0 ==> ms[..i][|ms[..i]| - 1] == ms[i - 1];
    }
    forall k | 0 <= k < |s.main.outputs|
      ensures 0 <= s.main.outputs[k].update < |s.main.updates|
      ensures s.main.outputs[k].status == Status(s.main.updates[s.main.outputs[k].update].message)
    {
      assert WrittenOk(ms, s.main.outputs[k]);
    }
    hide NextFlag, Status, WrittenOk;
  }

  /** If all messages mean the same, the reader holds that from the first message on. */
  lemma {:induction false} UniformHeld(s: Two, ms: seq<Option<string>>, k: int)
    requires Kept(s, ms) && Uniform(ms) && Plain(ms) && 0 <= k < |s.main.outputs|
    ensures 0 <= s.main.outputs[k].update < |ms|
    ensures Held(s.main.outputs[..k + 1]) == Some(Status(ms[s.main.outputs[k].update]))
  {
    hide Kept, Status, Held, Uniform, Plain;
    var outputs := s.main.outputs;
    UniformWritten(s, ms, k);
    assert outputs[..k + 1] == outputs[..k] + [outputs[k]];
    HeldSnoc(outputs[..k], outputs[k]);
    if k > 0 {
      UniformHeld(s, ms, k - 1);
      UniformWritten(s, ms, k - 1);
    } else {
      FirstWritten(s, ms);
    }
  }

  lemma UniformWritten(s: Two, ms: seq<Option<string>>, k: int)
    requires Kept(s, ms) && Uniform(ms) && Plain(ms) && 0 <= k < |s.main.outputs|
    ensures |ms| > 0 && 0 <= s.main.outputs[k].update < |ms| && Status(ms[0]) != NO_CHANGE
    ensures Status(ms[s.main.outputs[k].update]) == Status(ms[0])
    ensures s.main.outputs[k].status == NO_CHANGE || s.main.outputs[k].status == Status(ms[0])
  {
    assert WrittenOk(ms, s.main.outputs[k]);
    hide Kept, Status;
  }

  lemma FirstWritten(s: Two, ms: seq<Option<string>>)
    requires Kept(s, ms) && s.main.outputs != []
    ensures 0 <= s.main.outputs[0].update < |ms|
    ensures s.main.outputs[0].status == Status(ms[s.main.outputs[0].update])
  {
    assert WrittenOk(ms, s.main.outputs[0]);
  }

  lemma UniformLossless(s: Two, ms: seq<Option<string>>)
    requires Kept(s, ms) && Uniform(ms) && Plain(ms)
    ensures Lossless(s.main)
  {
    forall k | 0 <= k < |s.main.outputs| ensures Correct(s.main, k) {
      UniformHeld(s, ms, k);
      assert s.main.updates[s.main.outputs[k].update].message == ms[s.main.outputs[k].update];
    }
  }

  // Needed

  /**
    All events have come in, and the timer has fired once, after event j, if j is an event; nothing has
    been converted.
   */
  ghost predicate Waiting(s: Two, ms: seq<Option<string>>, j: int) {
    && Reaches(s, ms) && !s.main.fault && s.main.cached == |ms| - 1 && s.main.outputs == []
    && |s.main.updates| == |ms| && |s.main.queue| == |ms|
    && (forall i :: 0 <= i < |ms| ==> s.main.queue[i] == i)
    && (forall i :: 0 <= i < |ms| ==>
          s.main.updates[i] == UpdateRec(ms[i], NextFlag(ms[..i], ms[i]) || i == j))
    && s.timer == if 0 <= j < |ms| then [j] else []
  }

  lemma WaitingObjects(s: Two, ms: seq<Option<string>>, j: int)
    requires Waiting(s, ms, j)
    ensures ObjectsOk(s.main.updates, ms)
  {
    hide NextFlag;
  }

  /** The objects of the first events are as they were. */
  lemma OldObjects(updates: seq<UpdateRec>, ms: seq<Option<string>>, j: int, message: Option<string>, flag: bool)
    requires |updates| == |ms| && flag == (NextFlag(ms, message) || |ms| == j)
    requires forall i :: 0 <= i < |ms| ==> updates[i] == UpdateRec(ms[i], NextFlag(ms[..i], ms[i]) || i == j)
    ensures var both, more := ms + [message], updates + [UpdateRec(message, flag)];
            forall i :: 0 <= i < |both| ==> more[i] == UpdateRec(both[i], NextFlag(both[..i], both[i]) || i == j)
  {
    hide NextFlag;
    var both := ms + [message];
    forall i | 0 <= i < |both| ensures both[..i] == ms[..i] {
    }
    assert ms[..|ms|] == ms;
  }

  lemma ArriveOne(s: Two, ms: seq<Option<string>>, j: int, message: Option<string>) returns (t: Two)
    requires Waiting(s, ms, j) && Sound(ms + [message])
    ensures Waiting(t, ms + [message], j)
  {
    var both, flag := ms + [message], NextFlag(ms, message);
    WaitingObjects(s, ms, j);
    EventIs(s.main, ms, message);
    OldObjects(s.main.updates, ms, j, message, flag || |ms| == j);
    hide Reaches, DoEmit, NextFlag, Sound, ObjectsOk;
    Extends(s, ms, Event(message));
    t := Apply(s, Event(message));
    if j == |ms| {
      Extends(t, both, Timer);
      t := Apply(t, Timer);
      assert t.main.updates == s.main.updates + [UpdateRec(message, true)];
    } else {
      assert t.main.updates == s.main.updates + [UpdateRec(message, flag)];
    }
  }

  lemma {:induction false} Arrive(ms: seq<Option<string>>, j: int) returns (s: Two)
    requires Sound(ms)
    ensures Waiting(s, ms, j)
  {
    if ms == [] {
      s := START;
      assert Run([]) == START && EventsOf([]) == [];
    } else {
      var front, message := ms[..|ms| - 1], ms[|ms| - 1];
      assert ms == front + [message];
      SoundFront(front, message);
      hide Waiting, Sound;
      s := Arrive(front, j);
      s := ArriveOne(s, front, j, message);
    }
  }

  /** The worker has taken the first n updates from the client's queue. */
  ghost predicate Taken(s: Two, t: Two, ms: seq<Option<string>>, n: nat) {
    && n <= |ms| == |s.main.queue| && Reaches(t, ms) && !t.main.fault
    && t.main.updates == s.main.updates && t.timer == s.timer && t.main.queue == s.main.queue[n..]
    && |t.main.outputs| == n && forall i :: 0 <= i < n ==> t.main.outputs[i].update == i
  }

  lemma {:induction false} Take(s: Two, ms: seq<Option<string>>, j: int, n: nat) returns (t: Two)
    requires Waiting(s, ms, j) && n <= |ms|
    ensures Taken(s, t, ms, n)
  {
    if n == 0 {
      t := s;
    } else {
      var before := Take(s, ms, j, n - 1);
      Extends(before, ms, TakeClient);
      hide Reaches, Status;
      t := Apply(before, TakeClient);
    }
  }

  /** An update that means NO_CHANGE is never held. */
  lemma NeedsPlain(ms: seq<Option<string>>, i: int)
    requires Sound(ms) && NeverLoses(ms) && 0 <= i < |ms|
    ensures Status(ms[i]) != NO_CHANGE
  {
    hide Sound, Status;
    var s := Arrive(ms, -1);
    var t := Take(s, ms, -1, i + 1);
    assert Lossless(t.main) && Correct(t.main, i);
    assert t.main.updates[i].message == ms[i];
  }

  /** The timer's update j is converted between updates i - 1 and i. */
  lemma TimerBetween(ms: seq<Option<string>>, i: int, j: int) returns (t: Two)
    requires Sound(ms) && 0 < i < |ms| && 0 <= j < |ms| && i != j && !NextFlag(ms[..i], ms[i])
    ensures Reaches(t, ms) && |t.main.outputs| == i + 2 && i < |t.main.updates| && t.main.updates[i].message == ms[i]
    ensures t.main.outputs[i] == Output(j, Status(ms[j])) && t.main.outputs[i + 1] == Output(i, NO_CHANGE)
  {
    hide Sound, Status, NextFlag;
    var s := Arrive(ms, j);
    var t0 := Take(s, ms, j, i);
    assert s.main.updates[j] == UpdateRec(ms[j], true) && s.main.updates[i] == UpdateRec(ms[i], false);
    assert t0.main.queue[0] == i && t0.timer == [j];
    Extends(t0, ms, TakeTimer);
    var t1 := Apply(t0, TakeTimer);
    Extends(t1, ms, TakeClient);
    hide Reaches;
    t := Apply(t1, TakeClient);
  }

  lemma HoldsOther(s: AlarmDelta.State, k: int, status: int)
    requires 0 < k < |s.outputs| && s.outputs[k].status == NO_CHANGE
    requires s.outputs[k - 1].status == status != NO_CHANGE && Correct(s, k)
    ensures Status(s.updates[s.outputs[k].update].message) == status
  {
    assert s.outputs[..k + 1] == s.outputs[..k] + [s.outputs[k]];
    assert s.outputs[..k] == s.outputs[..k - 1] + [s.outputs[k - 1]];
    HeldSnoc(s.outputs[..k], s.outputs[k]);
    HeldSnoc(s.outputs[..k - 1], s.outputs[k - 1]);
    hide Status, Held;
  }

  lemma NeedsSame(ms: seq<Option<string>>, i: int, j: int)
    requires Sound(ms) && NeverLoses(ms) && 0 < i < |ms| && 0 <= j < |ms| && !NextFlag(ms[..i], ms[i])
    ensures Status(ms[j]) == Status(ms[i])
  {
    NeedsPlain(ms, j);
    hide Sound, Status, NextFlag;
    if i != j {
      var t := TimerBetween(ms, i, j);
      assert Lossless(t.main) && Correct(t.main, i + 1);
      HoldsOther(t.main, i + 1, Status(ms[j]));
    }
  }

  lemma Enough(ms: seq<Option<string>>, s: Two)
    requires Sound(ms) && Reaches(s, ms) && Plain(ms) && (AlwaysChanges(ms) || Uniform(ms))
    ensures Lossless(s.main)
  {
    var actions :| Run(actions) == s && EventsOf(actions) == ms;
    hide *;
    RunKeeps(actions);
    if AlwaysChanges(ms) {
      ChangesWritten(s, ms);
      WrittenIsLossless(s.main);
    } else {
      UniformLossless(s, ms);
    }
  }

  /** An update that came in without its flag forces all messages to mean the same. */
  lemma NeedsUniform(ms: seq<Option<string>>, i: int)
    requires Sound(ms) && NeverLoses(ms) && 0 < i < |ms| && !NextFlag(ms[..i], ms[i])
    ensures Uniform(ms)
  {
    forall j | 0 <= j < |ms| ensures Status(ms[j]) == Status(ms[i]) {
      hide *;
      NeedsSame(ms, i, j);
    }
    hide Status;
  }

  lemma NotChanging(ms: seq<Option<string>>) returns (i: int)
    requires !AlwaysChanges(ms)
    ensures 0 < i < |ms| && !NextFlag(ms[..i], ms[i])
  {
    i :| 0 < i < |ms| && !(ms[i].Some? && ms[i] != ms[i - 1]);
    assert ms[..i][|ms[..i]| - 1] == ms[i - 1];
  }

  lemma AllPlain(ms: seq<Option<string>>)
    requires Sound(ms) && NeverLoses(ms)
    ensures Plain(ms)
  {
    forall i | 0 <= i < |ms| ensures Status(ms[i]) != NO_CHANGE {
      hide *;
      NeedsPlain(ms, i);
    }
  }

  /**
    The exact condition when the order between the client and the timer is not kept: no message means
    NO_CHANGE, and either every message differs from the one before it or all mean the same. Otherwise the
    timer's copy of an update with another status can be converted just before one without its flag.
   */
  lemma TwoQueuesExactly(ms: seq<Option<string>>)
    requires Sound(ms)
    ensures NeverLoses(ms) <==> Plain(ms) && (AlwaysChanges(ms) || Uniform(ms))
  {
    hide Sound, Plain, AlwaysChanges, Uniform, Lossless, Reaches, NextFlag;
    if Plain(ms) && (AlwaysChanges(ms) || Uniform(ms)) {
      forall s | Reaches(s, ms) ensures Lossless(s.main) {
        Enough(ms, s);
      }
    }
    if NeverLoses(ms) {
      AllPlain(ms);
      if !AlwaysChanges(ms) {
        var i := NotChanging(ms);
        NeedsUniform(ms, i);
      }
    }
  }

  /** For instance, an alarm that sets in and then stays is lost if the timer queues the time before it. */
  lemma AlarmSetsIn()
    ensures !NeverLoses([Some("NO_ALARM"), Some("HIHI_ALARM"), Some("HIHI_ALARM")])
  {
    var ms: seq<Option<string>> := [Some("NO_ALARM"), Some("HIHI_ALARM"), Some("HIHI_ALARM")];
    assert StatusNames()[3] == "HIHI";
    StatusRoundTrip(3);
    assert ms[2] == ms[2 - 1] && Status(ms[0]) == NO_ALARM && Status(ms[1]) == 3;
    TwoQueuesExactly(ms);
  }
}
