/**
  The alarm delta encoding: src/EpicsClient/EpicsClientMonitor.cpp flags an update whose alarm
  message differs from the cached one, and the f142 converter writes a status only if it is flagged.
 */
module AlarmDelta {
  import opened Basics
  import opened AlarmStatus

  /** An update object: its alarm message (None without an alarm field) and its mutable flag. */
  datatype UpdateRec = UpdateRec(message: Option<string>, flag: bool)

  /** A message to Kafka; without a status in it, a reader finds the default NO_CHANGE. */
  datatype Output = Output(update: int, status: int)

  /**
    The monitor of one channel and one converter. Update objects are numbered in the order in which
    they come in; `cached` is -1 without a cached update. `fault` records that the alarm message of
    a cached update without alarm field was asked for, which dereferences a null pointer.
   */
  datatype State = State(updates: seq<UpdateRec>, cached: int, queue: seq<int>, outputs: seq<Output>, fault: bool)

  datatype Step = Emit(message: Option<string>) | EmitCached | Convert

  const INIT := State([], -1, [], [], false)

  function DoEmit(s: State, message: Option<string>): State {
    if 0 <= s.cached < |s.updates| && message.Some? && s.updates[s.cached].message.None? then s.(fault := true)
    else
      var flag := !(0 <= s.cached < |s.updates|) || (message.Some? && message != s.updates[s.cached].message);
      var id := |s.updates|;
      s.(updates := s.updates + [UpdateRec(message, flag)], cached := id, queue := s.queue + [id])
  }

  /** The idle timer: flags the cached object, which may still be in the queue, and queues it again. */
  function DoEmitCached(s: State): State {
    if !(0 <= s.cached < |s.updates|) then s else
    s.(updates := s.updates[s.cached := s.updates[s.cached].(flag := true)], queue := s.queue + [s.cached])
  }

  function DoConvert(s: State): State {
    if s.queue == [] || !(0 <= s.queue[0] < |s.updates|) then s else
    var u := s.updates[s.queue[0]];
    s.(queue := s.queue[1..],
       outputs := s.outputs + [Output(s.queue[0], if u.flag then Status(u.message) else NO_CHANGE)])
  }

  function Apply(s: State, step: Step): State {
    if s.fault then s else
    match step
    case Emit(message) => DoEmit(s, message)
    case EmitCached => DoEmitCached(s)
    case Convert => DoConvert(s)
  }

  function Run(steps: seq<Step>): State {
    if steps == [] then INIT else Apply(Run(steps[..|steps| - 1]), steps[|steps| - 1])
  }

  /** The messages of the updates that come in during these steps. */
  function Messages(steps: seq<Step>): (ms: seq<Option<string>>) {
    if steps == [] then [] else
    var before, last := Messages(steps[..|steps| - 1]), steps[|steps| - 1];
    if last.Emit? then before + [last.message] else before
  }

  /** The status held by a reader who keeps the last one other than NO_CHANGE. */
  function Held(outputs: seq<Output>): (status: Option<int>)
    ensures status != Some(NO_CHANGE)
  {
    if outputs == [] then None else
    var last := outputs[|outputs| - 1];
    if last.status != NO_CHANGE then Some(last.status) else Held(outputs[..|outputs| - 1])
  }

  /** After message number k, the reader holds the status of the update that the message is for. */
  ghost predicate Correct(s: State, k: int)
    requires 0 <= k < |s.outputs|
  {
    0 <= s.outputs[k].update < |s.updates| &&
    Held(s.outputs[..k + 1]) == Some(Status(s.updates[s.outputs[k].update].message))
  }

  ghost predicate Lossless(s: State) {
    forall k :: 0 <= k < |s.outputs| ==> Correct(s, k)
  }

  // Conditions on the messages alone

  /** No update with an alarm field comes after one without. */
  ghost predicate Sound(ms: seq<Option<string>>) {
    forall i :: 0 < i < |ms| ==> !(ms[i - 1].None? && ms[i].Some?)
  }

  /** The alarm field goes away only after a message that means NO_ALARM. */
  ghost predicate Quiet(ms: seq<Option<string>>) {
    forall i :: 0 < i < |ms| && ms[i - 1].Some? && ms[i].None? ==> Status(ms[i - 1]) == NO_ALARM
  }

  ghost predicate Plain(ms: seq<Option<string>>) {
    forall i :: 0 <= i < |ms| ==> Status(ms[i]) != NO_CHANGE
  }

  // The invariant

  /** Ids run up from 0, each one the same as or one above the id before it. */
  ghost predicate Climbs(ids: seq<int>) {
    && (ids != [] ==> ids[0] == 0)
    && forall i :: 0 < i < |ids| ==> ids[i - 1] <= ids[i] <= ids[i - 1] + 1
  }

  function Ids(outputs: seq<Output>): (ids: seq<int>)
    ensures |ids| == |outputs|
    ensures forall i :: 0 <= i < |ids| ==> ids[i] == outputs[i].update
  {
    seq(|outputs|, i requires 0 <= i < |outputs| => outputs[i].update)
  }

  function MessagesOf(updates: seq<UpdateRec>): (ms: seq<Option<string>>)
    ensures |ms| == |updates|
    ensures forall i :: 0 <= i < |ms| ==> ms[i] == updates[i].message
  {
    seq(|updates|, i requires 0 <= i < |updates| => updates[i].message)
  }

  /** An update that is not flagged has the message of the one before it, or no alarm field. */
  ghost predicate Flagged(updates: seq<UpdateRec>) {
    && (updates != [] ==> updates[0].flag)
    && forall i :: 0 < i < |updates| && !updates[i].flag ==>
         updates[i].message.None? || updates[i].message == updates[i - 1].message
  }

  /** All ids so far, converted and waiting. */
  function History(s: State): (ids: seq<int>) {
    Ids(s.outputs) + s.queue
  }

  ghost predicate Consistent(s: State) {
    && s.cached == |s.updates| - 1
    && Climbs(History(s))
    && (if s.updates == [] then History(s) == [] else History(s) != [] && History(s)[|History(s)| - 1] == s.cached)
    && Flagged(s.updates)
    && Sound(MessagesOf(s.updates))
  }

  /** Message k is correct unless its update means NO_CHANGE, which no reader ever holds. */
  ghost predicate Exact(s: State, k: int)
    requires 0 <= k < |s.outputs|
  {
    && 0 <= s.outputs[k].update < |s.updates|
    && (Correct(s, k) <==> Status(s.updates[s.outputs[k].update].message) != NO_CHANGE)
  }

  ghost predicate Inv(s: State) {
    && Consistent(s)
    && (Quiet(MessagesOf(s.updates)) ==> forall k :: 0 <= k < |s.outputs| ==> Exact(s, k))
  }

  lemma EmitKeeps(s: State, message: Option<string>)
    requires Inv(s) && !s.fault
    ensures Inv(DoEmit(s, message))
    ensures DoEmit(s, message).fault <==> !Sound(MessagesOf(s.updates) + [message])
    ensures !DoEmit(s, message).fault ==> MessagesOf(DoEmit(s, message).updates) == MessagesOf(s.updates) + [message]
  {
    var t := DoEmit(s, message);
    var ms := MessagesOf(s.updates);
    SoundSnoc(ms, message);
    assert s.updates != [] ==> ms[|ms| - 1] == s.updates[s.cached].message;
    assert s.cached == |s.updates| - 1 && Sound(ms);
    if t.fault {
      assert History(t) == History(s);
    } else {
      assert t.updates == s.updates + [t.updates[|s.updates|]];
      ConsistentSnoc(s, t);
    }
    hide *;
    SamePrefix(s, t);
    InvIs(t);
  }

  lemma InvIs(s: State)
    ensures Inv(s) <==>
      Consistent(s) && (Quiet(MessagesOf(s.updates)) ==> forall k :: 0 <= k < |s.outputs| ==> Exact(s, k))
  {
  }

  lemma ConsistentSnoc(s: State, t: State)
    requires Consistent(s) && t.outputs == s.outputs && t.queue == s.queue + [|s.updates|] && t.cached == |s.updates|
    requires |t.updates| == |s.updates| + 1 && t.updates == s.updates + [t.updates[|s.updates|]]
    requires var u := t.updates[|s.updates|];
             && Sound(MessagesOf(s.updates) + [u.message])
             && if s.updates == [] then u.flag
                else u.flag || u.message.None? || u.message == s.updates[|s.updates| - 1].message
    ensures Consistent(t) && MessagesOf(t.updates) == MessagesOf(s.updates) + [t.updates[|s.updates|].message]
  {
    assert History(t) == History(s) + [t.cached];
    assert MessagesOf(t.updates) == MessagesOf(s.updates) + [t.updates[|s.updates|].message];
    FlaggedSnoc(s.updates, t.updates[|s.updates|]);
    hide Sound, Flagged, History, MessagesOf;
    ClimbsSnoc(History(s), t.cached);
  }

  lemma SoundSnoc(ms: seq<Option<string>>, message: Option<string>)
    requires Sound(ms)
    ensures Sound(ms + [message]) <==> ms == [] || ms[|ms| - 1].Some? || message.None?
  {
    var both := ms + [message];
    if ms != [] && ms[|ms| - 1].None? && message.Some? {
      assert both[|ms| - 1].None? && both[|ms|].Some?;
    }
  }

  lemma FlaggedSnoc(updates: seq<UpdateRec>, u: UpdateRec)
    requires Flagged(updates)
    requires if updates == [] then u.flag
             else u.flag || u.message.None? || u.message == updates[|updates| - 1].message
    ensures Flagged(updates + [u])
  {
  }

  lemma ClimbsSnoc(ids: seq<int>, id: int)
    requires Climbs(ids)
    requires if ids == [] then id == 0 else ids[|ids| - 1] <= id <= ids[|ids| - 1] + 1
    ensures Climbs(ids + [id])
  {
  }

  lemma EmitCachedKeeps(s: State)
    requires Inv(s)
    ensures Inv(DoEmitCached(s))
    ensures MessagesOf(DoEmitCached(s).updates) == MessagesOf(s.updates)
  {
    var t := DoEmitCached(s);
    hide Status, Held;
    if t != s {
      assert History(t) == History(s) + [t.cached];
      assert MessagesOf(t.updates) == MessagesOf(s.updates);
      SamePrefix(s, t);
    }
  }

  /** With the same outputs and no message of an old update changed, the same outputs are exact. */
  lemma SamePrefix(s: State, t: State)
    requires Inv(s) && t.outputs == s.outputs && MessagesOf(s.updates) <= MessagesOf(t.updates)
    ensures Quiet(MessagesOf(t.updates)) ==> forall k :: 0 <= k < |t.outputs| ==> Exact(t, k)
  {
    hide Status, Held;
    if Quiet(MessagesOf(t.updates)) {
      var ms := MessagesOf(t.updates);
      assert forall i :: 0 <= i < |s.updates| ==> MessagesOf(s.updates)[i] == ms[i];
      assert Quiet(MessagesOf(s.updates));
      forall k | 0 <= k < |t.outputs| ensures Exact(t, k) {
        assert Exact(s, k);
        assert ms[s.outputs[k].update] == MessagesOf(s.updates)[s.outputs[k].update];
      }
    }
  }

  lemma ConvertKeeps(s: State)
    requires Inv(s)
    ensures Inv(DoConvert(s))
    ensures MessagesOf(DoConvert(s).updates) == MessagesOf(s.updates)
  {
    hide *;
    InvIs(s);
    InvIs(DoConvert(s));
    ConvertConsistent(s);
    if Quiet(MessagesOf(s.updates)) {
      forall k | 0 <= k < |DoConvert(s).outputs| ensures Exact(DoConvert(s), k) {
        if k < |s.outputs| {
          ConvertStaysExact(s, k);
        } else {
          ConvertedOne(s);
          ConvertExact(s);
        }
      }
    }
  }

  lemma ConvertConsistent(s: State)
    requires Consistent(s)
    ensures Consistent(DoConvert(s)) && DoConvert(s).updates == s.updates
  {
    hide Climbs, Flagged, Sound, Status, MessagesOf, Ids;
    ConvertHistory(s);
    hide History;
  }

  lemma ConvertHistory(s: State)
    ensures History(DoConvert(s)) == History(s)
  {
    hide Status;
  }

  lemma ConvertStaysExact(s: State, k: int)
    requires 0 <= k < |s.outputs| && Exact(s, k)
    ensures k < |DoConvert(s).outputs| && Exact(DoConvert(s), k)
  {
    assert DoConvert(s).outputs[..k + 1] == s.outputs[..k + 1];
    hide Held, Status;
  }

  lemma ConvertedOne(s: State)
    ensures |s.outputs| <= |DoConvert(s).outputs| <= |s.outputs| + 1
    ensures |s.outputs| < |DoConvert(s).outputs| ==> s.queue != [] && DoConvert(s) != s
  {
    hide Status;
  }

  lemma ConvertExact(s: State)
    requires Inv(s) && Quiet(MessagesOf(s.updates)) && s.queue != [] && DoConvert(s) != s
    ensures var t := DoConvert(s); |t.outputs| == |s.outputs| + 1 && Exact(t, |s.outputs|)
  {
    var t, n := DoConvert(s), |s.outputs|;
    var id := s.queue[0];
    hide Status, Held, Inv, Quiet, MessagesOf, Exact;
    assert t == s.(queue := s.queue[1..], outputs := s.outputs + [t.outputs[n]]) && t.outputs[..n + 1] == t.outputs;
    assert t.outputs[n] == Output(id, if s.updates[id].flag then Status(s.updates[id].message) else NO_CHANGE);
    if !s.updates[id].flag {
      UnflaggedSame(s);
    }
    hide *;
    HeldSnoc(s.outputs, t.outputs[n]);
    LastExact(s);
    ExactIs(t, n);
  }

  /** An update about to be converted without its flag means what the one converted before it means. */
  lemma UnflaggedSame(s: State)
    requires Inv(s) && Quiet(MessagesOf(s.updates)) && s.queue != [] && 0 <= s.queue[0] < |s.updates|
    requires !s.updates[s.queue[0]].flag
    ensures s.outputs != [] && 0 <= s.outputs[|s.outputs| - 1].update < |s.updates|
    ensures Status(s.updates[s.queue[0]].message) == Status(s.updates[s.outputs[|s.outputs| - 1].update].message)
  {
    Neighbours(s);
    assert Flagged(s.updates) && Sound(MessagesOf(s.updates)) && s.outputs != [];
    LastExact(s);
    hide Status, Held, Inv, MessagesOf, History;
    if s.queue[0] == s.outputs[|s.outputs| - 1].update + 1 {
      SameStatus(s, s.queue[0]);
    }
  }

  lemma ExactIs(s: State, k: int)
    requires 0 <= k < |s.outputs| && 0 <= s.outputs[k].update < |s.updates|
    ensures Exact(s, k) <==>
      var status := Status(s.updates[s.outputs[k].update].message);
      (Held(s.outputs[..k + 1]) == Some(status) <==> status != NO_CHANGE)
  {
    hide Status, Held;
  }

  lemma HeldSnoc(outputs: seq<Output>, o: Output)
    ensures Held(outputs + [o]) == if o.status != NO_CHANGE then Some(o.status) else Held(outputs)
  {
    assert (outputs + [o])[..|outputs|] == outputs;
  }

  lemma LastExact(s: State)
    requires Inv(s) && Quiet(MessagesOf(s.updates))
    ensures s.outputs != [] ==>
      var u := s.outputs[|s.outputs| - 1].update;
      && 0 <= u < |s.updates|
      && (Held(s.outputs) == Some(Status(s.updates[u].message)) <==> Status(s.updates[u].message) != NO_CHANGE)
  {
    if s.outputs != [] {
      assert Exact(s, |s.outputs| - 1) && s.outputs[..|s.outputs| - 1 + 1] == s.outputs;
    }
  }

  /** The id to convert next is the last one converted or the one above it. */
  lemma Neighbours(s: State)
    requires Consistent(s) && s.queue != []
    ensures s.outputs == [] ==> s.queue[0] == 0
    ensures s.outputs != [] ==>
      var prev := s.outputs[|s.outputs| - 1].update; prev <= s.queue[0] <= prev + 1
  {
    var n := |s.outputs|;
    assert History(s)[n] == s.queue[0];
    if n > 0 {
      assert History(s)[n - 1] == s.outputs[n - 1].update;
    }
  }

  /** An update that is not flagged means what the update before it means. */
  lemma SameStatus(s: State, i: int)
    requires Flagged(s.updates) && Sound(MessagesOf(s.updates)) && Quiet(MessagesOf(s.updates))
    requires 0 < i < |s.updates| && !s.updates[i].flag
    ensures Status(s.updates[i].message) == Status(s.updates[i - 1].message)
  {
    var ms := MessagesOf(s.updates);
    assert ms[i] == s.updates[i].message && ms[i - 1] == s.updates[i - 1].message;
  }

  lemma {:induction false} RunKeeps(steps: seq<Step>)
    ensures var s := Run(steps);
            && Inv(s)
            && (s.fault <==> !Sound(Messages(steps)))
            && (!s.fault ==> MessagesOf(s.updates) == Messages(steps))
  {
    hide Inv, DoEmit, DoEmitCached, DoConvert, Sound;
    if steps == [] {
      RunStart();
    } else {
      var before, step := steps[..|steps| - 1], steps[|steps| - 1];
      RunKeeps(before);
      var s := Run(before);
      if s.fault {
        SoundPrefix(Messages(before), Messages(steps));
      } else {
        match step
        case Emit(message) => EmitKeeps(s, message);
        case EmitCached => EmitCachedKeeps(s); NoFault(s);
        case Convert => ConvertKeeps(s); NoFault(s);
      }
    }
  }

  lemma NoFault(s: State)
    ensures DoEmitCached(s).fault == s.fault && DoConvert(s).fault == s.fault
  {
  }

  lemma RunStart()
    ensures Inv(INIT) && Sound([]) && MessagesOf(INIT.updates) == []
  {
  }

  lemma SoundPrefix(a: seq<Option<string>>, b: seq<Option<string>>)
    requires !Sound(a) && a <= b
    ensures !Sound(b)
  {
    var i :| 0 < i < |a| && a[i - 1].None? && a[i].Some?;
    assert b[i - 1] == a[i - 1] && b[i] == a[i];
  }

  /** The monitor follows a null pointer exactly if an alarm field appears after an update without one. */
  lemma FaultExactly(steps: seq<Step>)
    ensures Run(steps).fault <==> !Sound(Messages(steps))
  {
    RunKeeps(steps);
  }

  /**
    In every run in which the alarm field only goes away after NO_ALARM (all the more if all or none
    of the updates have it), every message leaves the reader with the exact status of its update,
    unless that status is NO_CHANGE itself.
   */
  lemma DeltaIsExact(steps: seq<Step>, k: int)
    requires !Run(steps).fault && Quiet(Messages(steps))
    requires 0 <= k < |Run(steps).outputs|
    ensures var s := Run(steps); var u := s.outputs[k].update;
            && 0 <= u < |Messages(steps)|
            && (Held(s.outputs[..k + 1]) == Some(Status(Messages(steps)[u]))
                <==> Status(Messages(steps)[u]) != NO_CHANGE)
  {
    RunKeeps(steps);
    assert Exact(Run(steps), k);
  }

  // The converse: a schedule that shows every loss

  /** Every update is converted before the next one comes in. */
  function Eager(ms: seq<Option<string>>): (steps: seq<Step>)
    ensures |steps| == 2 * |ms|
  {
    if ms == [] then [] else Eager(ms[..|ms| - 1]) + [Emit(ms[|ms| - 1]), Convert]
  }

  /** What the message for update i says when every update is converted before the next one. */
  function Written(ms: seq<Option<string>>, i: int): (status: int)
    requires 0 <= i < |ms|
  {
    if i == 0 || (ms[i].Some? && ms[i] != ms[i - 1]) then Status(ms[i]) else NO_CHANGE
  }

  ghost predicate EagerState(s: State, ms: seq<Option<string>>) {
    && !s.fault && s.queue == [] && s.cached == |ms| - 1
    && MessagesOf(s.updates) == ms && |s.outputs| == |ms|
    && forall i :: 0 <= i < |ms| ==> s.outputs[i] == Output(i, Written(ms, i))
  }

  /** The flag of the update that comes in after the updates with these messages. */
  predicate NextFlag(ms: seq<Option<string>>, message: Option<string>) {
    ms == [] || (message.Some? && message != ms[|ms| - 1])
  }

  lemma EagerEmits(s: State, ms: seq<Option<string>>, message: Option<string>)
    requires EagerState(s, ms) && Sound(ms + [message])
    ensures |s.updates| == |ms|
    ensures Apply(s, Emit(message))
         == State(s.updates + [UpdateRec(message, NextFlag(ms, message))], |ms|, [|ms|], s.outputs, false)
  {
    var n, both := |ms|, ms + [message];
    hide Written, Status;
    assert both[n] == message && (n > 0 ==> both[n - 1] == ms[n - 1] == s.updates[n - 1].message);
  }

  lemma EagerConverts(t: State, ms: seq<Option<string>>, message: Option<string>)
    requires |t.updates| == |ms| + 1 && t.updates[|ms|] == UpdateRec(message, NextFlag(ms, message))
    requires t.queue == [|ms|] && !t.fault
    ensures Apply(t, Convert) == t.(queue := [], outputs := t.outputs + [Output(|ms|, Written(ms + [message], |ms|))])
  {
    hide Status;
  }

  lemma EagerSnoc(s: State, u: State, ms: seq<Option<string>>, message: Option<string>, r: UpdateRec)
    requires EagerState(s, ms) && r.message == message
    requires u == State(s.updates + [r], |ms|, [], s.outputs + [Output(|ms|, Written(ms + [message], |ms|))], false)
    ensures EagerState(u, ms + [message])
  {
    var n, both := |ms|, ms + [message];
    hide Status;
    assert MessagesOf(u.updates) == both;
    forall i | 0 <= i < n ensures Written(both, i) == Written(ms, i) {
      assert both[i] == ms[i] && (i > 0 ==> both[i - 1] == ms[i - 1]);
    }
    hide MessagesOf, Written;
  }

  lemma EagerStep(s: State, ms: seq<Option<string>>, message: Option<string>)
    requires EagerState(s, ms) && Sound(ms + [message])
    ensures EagerState(Apply(Apply(s, Emit(message)), Convert), ms + [message])
  {
    hide *;
    EagerEmits(s, ms, message);
    EagerConverts(Apply(s, Emit(message)), ms, message);
    EagerSnoc(s, Apply(Apply(s, Emit(message)), Convert), ms, message, UpdateRec(message, NextFlag(ms, message)));
  }

  lemma RunTwo(steps: seq<Step>, message: Option<string>)
    ensures Run(steps + [Emit(message), Convert]) == Apply(Apply(Run(steps), Emit(message)), Convert)
    ensures Messages(steps + [Emit(message), Convert]) == Messages(steps) + [message]
  {
    var all := steps + [Emit(message), Convert];
    var most := all[..|all| - 1];
    assert most == steps + [Emit(message)] && most[..|most| - 1] == steps;
    assert Messages(most) == Messages(steps) + [message];
    hide Apply;
    assert Run(most) == Apply(Run(steps), Emit(message));
  }

  lemma {:induction false} EagerRun(ms: seq<Option<string>>)
    requires Sound(ms)
    ensures Messages(Eager(ms)) == ms && EagerState(Run(Eager(ms)), ms)
  {
    if ms == [] {
      assert MessagesOf(INIT.updates) == [];
    } else {
      var front, message := ms[..|ms| - 1], ms[|ms| - 1];
      assert Eager(ms) == Eager(front) + [Emit(message), Convert];
      assert Sound(front) && ms == front + [message];
      hide EagerState, Apply, Status, Sound, Run, Messages, Eager;
      EagerRun(front);
      RunTwo(Eager(front), message);
      EagerStep(Run(Eager(front)), front, message);
    }
  }

  /** Whatever the schedule, no status is lost. */
  ghost predicate AlwaysLossless(ms: seq<Option<string>>) {
    forall steps :: Messages(steps) == ms ==> Lossless(Run(steps))
  }

  /**
    The exact condition, for every sequence of alarm messages in which no alarm field comes after an
    update without one (on the others the monitor follows a null pointer, see FaultExactly): no schedule
    of the client, the idle timer and the converter loses a status if and only if no message means
    NO_CHANGE and the alarm field goes away only after a message that means NO_ALARM.
   */
  lemma LosslessExactly(ms: seq<Option<string>>)
    requires Sound(ms)
    ensures AlwaysLossless(ms) <==> Quiet(ms) && Plain(ms)
  {
    if Quiet(ms) && Plain(ms) {
      forall steps | Messages(steps) == ms ensures Lossless(Run(steps)) {
        AlwaysCorrect(steps);
      }
    }
    if AlwaysLossless(ms) {
      EagerRun(ms);
      assert Lossless(Run(Eager(ms)));
      LosslessOnlyIf(Run(Eager(ms)), ms);
    }
  }

  lemma AlwaysCorrect(steps: seq<Step>)
    requires Sound(Messages(steps)) && Quiet(Messages(steps)) && Plain(Messages(steps))
    ensures Lossless(Run(steps))
  {
    RunKeeps(steps);
    var s := Run(steps);
    forall k | 0 <= k < |s.outputs| ensures Correct(s, k) {
      assert Exact(s, k);
      assert Messages(steps)[s.outputs[k].update] == s.updates[s.outputs[k].update].message;
    }
  }

  lemma LosslessOnlyIf(s: State, ms: seq<Option<string>>)
    requires EagerState(s, ms) && Lossless(s)
    ensures Quiet(ms) && Plain(ms)
  {
    hide EagerState, Lossless, Status;
    forall i | 0 <= i < |ms| ensures Status(ms[i]) != NO_CHANGE {
      HeldAt(s, ms, i);
    }
    forall i | 0 < i < |ms| && ms[i - 1].Some? && ms[i].None? ensures Status(ms[i - 1]) == NO_ALARM {
      AlarmGone(s, ms, i);
    }
  }

  /** Without a status in message i, its reader still holds that of message i - 1. */
  lemma AlarmGone(s: State, ms: seq<Option<string>>, i: int)
    requires EagerState(s, ms) && Lossless(s) && 0 < i < |ms| && ms[i].None?
    ensures Status(ms[i - 1]) == NO_ALARM
  {
    assert |s.outputs| == |ms| && s.outputs[i].status == NO_CHANGE && Status(ms[i]) == NO_ALARM;
    hide *;
    HeldAt(s, ms, i - 1);
    HeldAt(s, ms, i);
    FrontAndLast(s.outputs, i);
    HeldSnoc(s.outputs[..i], s.outputs[i]);
  }

  lemma FrontAndLast(outputs: seq<Output>, i: int)
    requires 0 < i < |outputs|
    ensures outputs[..i + 1] == outputs[..i] + [outputs[i]] && outputs[..i] == outputs[..i - 1 + 1]
  {
  }

  lemma HeldAt(s: State, ms: seq<Option<string>>, i: int)
    requires EagerState(s, ms) && Lossless(s) && 0 <= i < |ms|
    ensures |s.outputs| == |ms|
    ensures Held(s.outputs[..i + 1]) == Some(Status(ms[i]))
  {
    assert Correct(s, i) && s.outputs[i].update == i;
    assert MessagesOf(s.updates)[i] == s.updates[i].message;
  }

  /** In particular nothing is lost if all updates have an alarm field, or none has. */
  lemma LosslessIfUniform(ms: seq<Option<string>>)
    requires Plain(ms)
    requires (forall i :: 0 <= i < |ms| ==> ms[i].Some?) || (forall i :: 0 <= i < |ms| ==> ms[i].None?)
    ensures AlwaysLossless(ms)
  {
    LosslessExactly(ms);
  }

  /** A status that is lost: the alarm field of a channel in HIHI alarm goes away. */
  lemma AlarmFieldGoesAway()
    ensures !AlwaysLossless([Some("HIHI_ALARM"), None])
  {
    var ms: seq<Option<string>> := [Some("HIHI_ALARM"), None];
    assert StatusNames()[3] == "HIHI";
    StatusRoundTrip(3);
    assert Status(ms[0]) == 3;
    assert Sound(ms) && ms[1 - 1].Some? && ms[1].None?;
    LosslessExactly(ms);
  }

  // When every update is flagged

  /** Every message after the first differs from the one before it. */
  ghost predicate AlwaysChanges(ms: seq<Option<string>>) {
    forall i :: 0 < i < |ms| ==> ms[i].Some? && ms[i] != ms[i - 1]
  }

  /** Every message that was written has its update's status. */
  ghost predicate AllWritten(updates: seq<UpdateRec>, outputs: seq<Output>) {
    forall k :: 0 <= k < |outputs| ==>
      0 <= outputs[k].update < |updates| && outputs[k].status == Status(updates[outputs[k].update].message)
  }

  lemma WrittenIsLossless(s: State)
    requires AllWritten(s.updates, s.outputs) && Plain(MessagesOf(s.updates))
    ensures Lossless(s)
  {
    forall k | 0 <= k < |s.outputs| ensures Correct(s, k) {
      var u := s.outputs[k].update;
      assert MessagesOf(s.updates)[u] == s.updates[u].message;
      assert s.outputs[..k + 1] == s.outputs[..k] + [s.outputs[k]];
      HeldSnoc(s.outputs[..k], s.outputs[k]);
    }
  }

  // The objects

  class EpicsPVUpdate {
    const message: Option<string>
    var alarmStatusChanged: bool

    constructor (message: Option<string>)
      ensures this.message == message && !alarmStatusChanged
    {
      this.message, alarmStatusChanged := message, false;
    }
  }

  /** The FIFO queue between the monitor and the conversion. */
  class UpdateQueue {
    var items: seq<EpicsPVUpdate>

    constructor ()
      ensures items == []
    {
      items := [];
    }

    method Enqueue(update: EpicsPVUpdate)
      modifies this
      ensures items == old(items) + [update]
    {
      items := items + [update];
    }
  }

  /** The objects, in the order in which they came in, are in the state `s`. */
  ghost predicate Models(objects: seq<EpicsPVUpdate>, cached: EpicsPVUpdate?, items: seq<EpicsPVUpdate>, s: State)
    reads objects
  {
    && |objects| == |s.updates| && Distinct(objects)
    && (forall i :: 0 <= i < |objects| ==>
          objects[i].message == s.updates[i].message && objects[i].alarmStatusChanged == s.updates[i].flag)
    && (if s.cached == -1 then cached == null else 0 <= s.cached < |objects| && cached == objects[s.cached])
    && |items| == |s.queue|
    && forall k :: 0 <= k < |items| ==> 0 <= s.queue[k] < |objects| && items[k] == objects[s.queue[k]]
  }

  /** What the transition system does, read off the objects. */
  lemma EmitIs(objects: seq<EpicsPVUpdate>, cached: EpicsPVUpdate?, items: seq<EpicsPVUpdate>, s: State,
      message: Option<string>)
    requires Models(objects, cached, items, s) && !s.fault
    ensures var t := Apply(s, Step.Emit(message));
            var missing := cached != null && message.Some? && cached.message.None?;
            var flag := cached == null || (message.Some? && message != cached.message);
            t == if missing then s.(fault := true) else
                 s.(updates := s.updates + [UpdateRec(message, flag)], cached := |objects|,
                    queue := s.queue + [|objects|])
  {
  }

  /** Another object. */
  lemma ModelsOneMore(objects: seq<EpicsPVUpdate>, cached: EpicsPVUpdate?, items: seq<EpicsPVUpdate>, s: State,
      update: EpicsPVUpdate)
    requires Models(objects, cached, items, s) && update !in objects
    ensures Models(objects + [update], update, items + [update],
      s.(updates := s.updates + [UpdateRec(update.message, update.alarmStatusChanged)], cached := |objects|,
         queue := s.queue + [|objects|]))
  {
  }

  lemma ModelsFault(objects: seq<EpicsPVUpdate>, cached: EpicsPVUpdate?, items: seq<EpicsPVUpdate>, s: State)
    requires Models(objects, cached, items, s)
    ensures Models(objects, cached, items, s.(fault := true))
  {
  }

  class EpicsClientMonitor {
    var cachedUpdate: EpicsPVUpdate?
    const emitQueue: UpdateQueue

    constructor ()
      ensures cachedUpdate == null && emitQueue.items == [] && fresh(emitQueue)
      ensures Models([], cachedUpdate, emitQueue.items, INIT)
    {
      cachedUpdate := null;
      emitQueue := new UpdateQueue();
    }

    /** None stands for following the null pointer of a missing alarm field. */
    method AlarmMessageChanged(update: EpicsPVUpdate) returns (changed: Option<bool>)
      requires cachedUpdate != null
      ensures changed == if update.message.None? then Some(false)
                         else if cachedUpdate.message.None? then None
                         else Some(update.message != cachedUpdate.message)
    {
      if update.message.None? {
        return Some(false);
      }
      if cachedUpdate.message.None? {
        return None;
      }
      return Some(update.message.value != cachedUpdate.message.value);
    }

    /** The update is a new object with its flag off, as the client makes one for every event. */
    method Emit(update: EpicsPVUpdate, ghost objects: seq<EpicsPVUpdate>, ghost s: State) returns (ok: bool)
      requires Models(objects, cachedUpdate, emitQueue.items, s) && !s.fault
      requires update !in objects && !update.alarmStatusChanged
      modifies `cachedUpdate, emitQueue, update
      ensures var t := Apply(s, Step.Emit(update.message));
              && ok == !t.fault
              && Models(if ok then objects + [update] else objects, cachedUpdate, emitQueue.items, t)
    {
      hide Models, Apply;
      ghost var cached, items := cachedUpdate, emitQueue.items;
      EmitIs(objects, cached, items, s, update.message);
      if cachedUpdate == null {
        update.alarmStatusChanged := true;
      } else {
        var changed := AlarmMessageChanged(update);
        if changed.None? {
          ModelsFault(objects, cached, items, s);
          return false;
        }
        if changed.value {
          update.alarmStatusChanged := true;
        }
      }
      cachedUpdate := update;
      EmitWithoutCaching(update);
      ModelsOneMore(objects, cached, items, s, update);
      return true;
    }

    method EmitCachedValue(ghost objects: seq<EpicsPVUpdate>, ghost s: State)
      requires Models(objects, cachedUpdate, emitQueue.items, s) && !s.fault
      modifies emitQueue, cachedUpdate
      ensures cachedUpdate == old(cachedUpdate)
      ensures Models(objects, cachedUpdate, emitQueue.items, Apply(s, EmitCached))
    {
      if cachedUpdate != null {
        cachedUpdate.alarmStatusChanged := true;
        EmitWithoutCaching(cachedUpdate);
      }
    }

    method EmitWithoutCaching(update: EpicsPVUpdate)
      modifies emitQueue
      ensures emitQueue.items == old(emitQueue.items) + [update]
    {
      emitQueue.Enqueue(update);
    }
  }

  /** The f142 converter's part: the status goes into the message only for a flagged update. */
  method CreateStatus(update: EpicsPVUpdate) returns (status: int)
    ensures status == if update.alarmStatusChanged then Status(update.message) else NO_CHANGE
  {
    status := NO_CHANGE;
    if update.alarmStatusChanged {
      status := GetAlarmStatus(update.message);
    }
  }

  /** The worker converts the update at the head of the queue. */
  method ConvertNext(monitor: EpicsClientMonitor, ghost objects: seq<EpicsPVUpdate>, ghost s: State)
      returns (status: Option<int>)
    requires Models(objects, monitor.cachedUpdate, monitor.emitQueue.items, s) && !s.fault
    modifies monitor.emitQueue
    ensures Models(objects, monitor.cachedUpdate, monitor.emitQueue.items, Apply(s, Convert))
    ensures status == None <==> s.queue == []
    ensures status.Some? ==> Apply(s, Convert).outputs == s.outputs + [Output(s.queue[0], status.value)]
  {
    hide Status;
    if monitor.emitQueue.items == [] {
      return None;
    }
    var update := monitor.emitQueue.items[0];
    assert update == objects[s.queue[0]];
    monitor.emitQueue.items := monitor.emitQueue.items[1..];
    var value := CreateStatus(update);
    return Some(value);
  }
}
