/**
  The stop flag of src/Forwarder.cpp, raised from several threads without a lock: every raise is a
  load and a compare-and-exchange that may fail for no reason, tried until one succeeds.
 */
module StopFlag {
  /** RUN is 0, STOP is 1, STOP_DUE_TO_SIGNAL is 2, and 3 is both. */
  type Flag = bv2

  const RUN: Flag := 0
  const STOP: Flag := 1
  const STOP_DUE_TO_SIGNAL: Flag := 2

  datatype Phase = Start | Loaded(seen: Flag) | Done

  /** One call of raiseForwardingFlag; `failures` counts the exchanges that failed for a reason. */
  datatype Raiser = Raiser(bits: Flag, phase: Phase, failures: int)

  datatype State = State(flag: Flag, raisers: seq<Raiser>)

  datatype Action = Call(bits: Flag) | Load(k: int) | Exchange(k: int, spurious: bool)

  const INIT := State(RUN, [])

  function Apply(s: State, a: Action): State {
    match a
    case Call(bits) => s.(raisers := s.raisers + [Raiser(bits, Start, 0)])
    case Load(k) =>
      if !(0 <= k < |s.raisers|) || s.raisers[k].phase != Start then s else
      s.(raisers := s.raisers[k := s.raisers[k].(phase := Loaded(s.flag))])
    case Exchange(k, spurious) =>
      if !(0 <= k < |s.raisers|) || !s.raisers[k].phase.Loaded? then s else
      var r := s.raisers[k];
      if s.flag == r.phase.seen && !spurious then
        State(r.phase.seen | r.bits, s.raisers[k := r.(phase := Done)])
      else
        s.(raisers := s.raisers[k := r.(phase := Start, failures := if s.flag == r.phase.seen then r.failures
            else r.failures + 1)])
  }

  ghost function Run(s: State, actions: seq<Action>): State {
    if actions == [] then s else Apply(Run(s, actions[..|actions| - 1]), actions[|actions| - 1])
  }

  /** The bits of all completed calls. */
  ghost function Raised(raisers: seq<Raiser>): Flag {
    if raisers == [] then 0 else (if raisers[0].phase == Done then raisers[0].bits else 0) | Raised(raisers[1..])
  }

  function Ones(f: Flag): (n: int)
    ensures 0 <= n <= 2
  {
    match f
    case 0 => 0
    case 1 => 1
    case 2 => 1
    case _ => 2
  }

  /** Every bit of `a` is in `b`. */
  predicate Within(a: Flag, b: Flag) {
    a | b == b
  }

  lemma WithinOnes(a: Flag, b: Flag)
    requires Within(a, b)
    ensures Ones(a) <= Ones(b) && (a != b ==> Ones(a) < Ones(b))
  {
  }

  lemma WithinTrans(a: Flag, b: Flag, c: Flag)
    requires Within(a, b)
    ensures Within(a, b | c)
  {
  }

  lemma {:induction false} RaisedUpdate(raisers: seq<Raiser>, k: int, r: Raiser)
    requires 0 <= k < |raisers| && raisers[k].phase != Done
    ensures Raised(raisers[k := r]) == Raised(raisers) | if r.phase == Done then r.bits else 0
  {
    if k == 0 {
      assert raisers[k := r][1..] == raisers[1..];
    } else {
      RaisedUpdate(raisers[1..], k - 1, r);
      assert raisers[k := r][1..] == raisers[1..][k - 1 := r];
    }
  }

  lemma {:induction false} RaisedSnoc(raisers: seq<Raiser>, r: Raiser)
    requires r.phase != Done
    ensures Raised(raisers + [r]) == Raised(raisers)
  {
    if raisers == [] {
      assert (raisers + [r])[1..] == [];
    } else {
      RaisedSnoc(raisers[1..], r);
      assert (raisers + [r])[1..] == raisers[1..] + [r];
    }
  }

  /** A call fails for a reason only if the flag gained a bit since it loaded it. */
  ghost predicate RaiserOk(r: Raiser, flag: Flag) {
    && 0 <= r.failures
    && match r.phase
       case Start => r.failures <= Ones(flag)
       case Loaded(seen) => Within(seen, flag) && r.failures <= Ones(seen)
       case Done => r.failures <= 2
  }

  ghost predicate Inv(s: State) {
    && s.flag == Raised(s.raisers)
    && forall k :: 0 <= k < |s.raisers| ==> RaiserOk(s.raisers[k], s.flag)
  }

  lemma RaiserStays(r: Raiser, flag: Flag, more: Flag)
    requires RaiserOk(r, flag)
    ensures RaiserOk(r, flag | more)
  {
    assert Within(flag, flag | more);
    WithinOnes(flag, flag | more);
    if r.phase.Loaded? {
      WithinTrans(r.phase.seen, flag, more);
    }
  }

  lemma ApplyKeeps(s: State, a: Action)
    requires Inv(s)
    ensures Inv(Apply(s, a)) && Within(s.flag, Apply(s, a).flag)
  {
    var t := Apply(s, a);
    match a {
      case Call(bits) =>
        RaisedSnoc(s.raisers, Raiser(bits, Start, 0));
      case Load(k) =>
        if t != s {
          RaisedUpdate(s.raisers, k, t.raisers[k]);
          assert RaiserOk(s.raisers[k], s.flag);
        }
      case Exchange(k, spurious) =>
        if t != s {
          RaisedUpdate(s.raisers, k, t.raisers[k]);
          assert RaiserOk(s.raisers[k], s.flag);
          WithinOnes(s.raisers[k].phase.seen, s.flag);
          forall i | 0 <= i < |t.raisers| ensures RaiserOk(t.raisers[i], t.flag) {
            assert RaiserOk(s.raisers[i], s.flag);
            RaiserStays(s.raisers[i], s.flag, s.raisers[k].bits);
          }
        }
    }
  }

  lemma {:induction false} RunKeeps(s: State, actions: seq<Action>)
    requires Inv(s)
    ensures Inv(Run(s, actions)) && Within(s.flag, Run(s, actions).flag)
  {
    hide Inv, Apply;
    if actions != [] {
      RunKeeps(s, actions[..|actions| - 1]);
      ApplyKeeps(Run(s, actions[..|actions| - 1]), actions[|actions| - 1]);
    }
  }

  // What it says

  lemma InitOk()
    ensures Inv(INIT)
  {
  }

  /** In every interleaving, the flag is the OR of what all completed calls raised. */
  lemma FlagIsWhatWasRaised(actions: seq<Action>)
    ensures var s := Run(INIT, actions); s.flag == Raised(s.raisers)
  {
    InitOk();
    RunKeeps(INIT, actions);
  }

  /** No bit is ever cleared; in particular RUN is never entered again. */
  lemma NoBitIsLost(before: seq<Action>, after: seq<Action>)
    ensures var s, t := Run(INIT, before), Run(Run(INIT, before), after);
            Within(s.flag, t.flag) && (s.flag != RUN ==> t.flag != RUN)
  {
    InitOk();
    RunKeeps(INIT, before);
    RunKeeps(Run(INIT, before), after);
  }

  /** A call fails for a reason at most twice, however many calls run beside it. */
  lemma FewFailures(actions: seq<Action>, k: int)
    requires 0 <= k < |Run(INIT, actions).raisers|
    ensures 0 <= Run(INIT, actions).raisers[k].failures <= 2
  {
    InitOk();
    RunKeeps(INIT, actions);
    assert RaiserOk(Run(INIT, actions).raisers[k], Run(INIT, actions).flag);
  }

  lemma {:induction false} RaisedHas(raisers: seq<Raiser>, k: int)
    requires 0 <= k < |raisers| && raisers[k].phase == Done
    ensures Within(raisers[k].bits, Raised(raisers))
  {
    if k > 0 {
      RaisedHas(raisers[1..], k - 1);
    }
  }

  lemma {:induction false} RaisedFrom(raisers: seq<Raiser>, mask: Flag)
    requires Raised(raisers) & mask != 0
    ensures exists k :: 0 <= k < |raisers| && raisers[k].phase == Done && raisers[k].bits & mask != 0
  {
    if raisers[0].phase != Done || raisers[0].bits & mask == 0 {
      RaisedFrom(raisers[1..], mask);
      var k :| 0 <= k < |raisers[1..]| && raisers[1..][k].phase == Done && raisers[1..][k].bits & mask != 0;
      assert raisers[k + 1].phase == Done && raisers[k + 1].bits & mask != 0;
    }
  }

  /** A load sees one of the bits in `mask` exactly when a call that raises such a bit has completed. */
  lemma BitsSeenExactly(actions: seq<Action>, mask: Flag)
    ensures var s := Run(INIT, actions);
            s.flag & mask != 0 <==>
            exists k :: 0 <= k < |s.raisers| && s.raisers[k].phase == Done && s.raisers[k].bits & mask != 0
  {
    FlagIsWhatWasRaised(actions);
    var s := Run(INIT, actions);
    hide Run;
    if s.flag & mask != 0 {
      RaisedFrom(s.raisers, mask);
    }
    if k :| 0 <= k < |s.raisers| && s.raisers[k].phase == Done && s.raisers[k].bits & mask != 0 {
      RaisedHas(s.raisers, k);
    }
  }

  ghost predicate Completed(s: State, mask: Flag) {
    exists k :: 0 <= k < |s.raisers| && s.raisers[k].phase == Done && s.raisers[k].bits & mask != 0
  }

  /**
    The main loop ends exactly if a call that raises STOP, which is 1, or STOP_DUE_TO_SIGNAL, which is 2, has
    completed, and a signal is reported after it exactly if one that raises STOP_DUE_TO_SIGNAL has.
   */
  lemma MainLoopEndsExactly(actions: seq<Action>)
    ensures var s := Run(INIT, actions);
            && (s.flag != 0 <==> Completed(s, 1) || Completed(s, 2))
            && (s.flag & 2 != 0 <==> Completed(s, 2))
  {
    BitsSeenExactly(actions, 1);
    BitsSeenExactly(actions, 2);
    BothBits(Run(INIT, actions).flag);
    hide Run;
  }

  lemma BothBits(f: Flag)
    ensures f == 0 <==> f & 1 == 0 && f & 2 == 0
  {
  }

  // The retry loop

  /** What the other threads raise between a load and an exchange, and whether the exchange fails for no reason. */
  datatype Interference = Interference(bits: Flag, spurious: bool)

  ghost function Others(script: seq<Interference>): Flag {
    if script == [] then 0 else Others(script[..|script| - 1]) | script[|script| - 1].bits
  }

  class AtomicFlag {
    var value: Flag

    constructor ()
      ensures value == RUN
    {
      value := RUN;
    }

    /** compare_exchange_weak, after what the other threads do first. */
    method CompareExchangeWeak(seen: Flag, desired: Flag, other: Interference) returns (ok: bool)
      modifies this
      ensures ok <==> old(value) | other.bits == seen && !other.spurious
      ensures value == if ok then desired else old(value) | other.bits
    {
      value := value | other.bits;
      ok := value == seen && !other.spurious;
      if ok {
        value := desired;
      }
    }

    /**
      raiseForwardingFlag: the loop ends because the exchanges do not fail for no reason for ever.
      `script` is what the other threads do during it; it is quiet in the end.
     */
    method Raise(bits: Flag, script: seq<Interference>) returns (failures: nat, ghost turns: nat)
      modifies this
      ensures turns <= |script| && value == old(value) | Others(script[..turns]) | bits
      ensures failures <= 2
    {
      failures := 0;
      ghost var start := value;
      var i := 0;
      assert script[..0] == [];
      while i < |script|
        invariant 0 <= i <= |script|
        invariant value == start | Others(script[..i])
        invariant failures <= Ones(value)
      {
        var seen := value;
        var desired := seen | bits;
        var ok := CompareExchangeWeak(seen, desired, script[i]);
        assert script[..i + 1][..i] == script[..i];
        assert Others(script[..i + 1]) == Others(script[..i]) | script[i].bits;
        if ok {
          assert seen | bits == start | Others(script[..i + 1]) | bits;
          return failures, i + 1;
        }
        assert Within(seen, value);
        WithinOnes(seen, value);
        if value != seen {
          failures := failures + 1;
        }
        i := i + 1;
      }
      assert script[..i] == script;
      var last := CompareExchangeWeak(value, value | bits, Interference(0, false));
      return failures, i;
    }
  }
}
