/**
  The counters of the Kafka producer read off a run: every answer that was counted, every report and every
  message of KafkaOutput is on the counter for it, and on no other.
 */
module KafkaCounters {
  import opened Basics
  import opened KafkaLedger

  /** The messages that were made, in order. */
  ghost function Makes(actions: seq<Action>): (makes: seq<Action>)
    ensures forall i :: 0 <= i < |makes| ==> makes[i].Make?
  {
    if actions == [] then [] else
    var before, x := actions[..|actions| - 1], actions[|actions| - 1];
    if x.Make? && Happens(actions, |before|, x) then Makes(before) + [x] else Makes(before)
  }

  /** The library has given this answer to the attempt. */
  ghost predicate Offered(actions: seq<Action>, id: int, code: Code) {
    exists i :: Happens(actions, i, Offer(id, code))
  }

  datatype Quantity = Answers(code: Code) | AnsweredBytes | Reports(ok: bool) | Outputs | OutputSizes

  /** What an action that happened after these adds to the quantity. */
  ghost function Adds(before: seq<Action>, x: Action, what: Quantity): (n: int) {
    match what
    case Answers(code) => if x.Settle? && Offered(before, x.id, code) then 1 else 0
    case AnsweredBytes =>
      if x.Settle? && Offered(before, x.id, NoError) && 0 <= x.id < |Makes(before)|
      then Makes(before)[x.id].size % UINT32_LIMIT else 0
    case Reports(ok) => if x.Report? && x.ok == ok then 1 else 0
    case Outputs =>
      if x.Finish? && Offered(before, x.id, NoError) && 0 <= x.id < |Makes(before)| && Makes(before)[x.id].toOutput
      then 1 else 0
    case OutputSizes =>
      if x.Finish? && Offered(before, x.id, NoError) && 0 <= x.id < |Makes(before)| && Makes(before)[x.id].toOutput
      then Makes(before)[x.id].size else 0
  }

  ghost function Total(actions: seq<Action>, what: Quantity): (n: int) {
    if actions == [] then 0 else
    var before, x := actions[..|actions| - 1], actions[|actions| - 1];
    Total(before, what) + if Happens(actions, |before|, x) then Adds(before, x, what) else 0
  }

  // What the messages tell

  /** The library's answer to the attempt is this one. */
  predicate Coded(m: Message, code: Code) {
    m.call != Made && m.call.code == code
  }

  ghost predicate MessageTells(actions: seq<Action>, id: int, m: Message) {
    && 0 <= id < |Makes(actions)| && m.size == Makes(actions)[id].size && m.toOutput == Makes(actions)[id].toOutput
    && forall code :: Offered(actions, id, code) <==> Coded(m, code)
  }

  ghost predicate AllTell(actions: seq<Action>) {
    var ms := Run(EMPTY, actions).messages;
    && |ms| == |Makes(actions)| && (forall id :: 0 <= id < |ms| ==> MessageTells(actions, id, ms[id]))
    && forall id, code :: !(0 <= id < |ms|) ==> !Offered(actions, id, code)
  }

  lemma OfferedSnoc(before: seq<Action>, x: Action, id: int, code: Code)
    ensures Offered(before + [x], id, code) <==>
      Offered(before, id, code) || (x == Offer(id, code) && Apply(Run(EMPTY, before), x) != Run(EMPTY, before))
  {
    hide Apply, Run, Happens;
    var all, n := before + [x], |before|;
    forall i
      ensures Happens(all, i, Offer(id, code)) <==>
        Happens(before, i, Offer(id, code))
        || (i == n && x == Offer(id, code) && Apply(Run(EMPTY, before), x) != Run(EMPTY, before))
    {
      HappensSnoc(before, x, i, Offer(id, code));
    }
    if Offered(before, id, code) {
      var i :| Happens(before, i, Offer(id, code));
      assert Happens(all, i, Offer(id, code));
    }
    if x == Offer(id, code) && Apply(Run(EMPTY, before), x) != Run(EMPTY, before) {
      assert Happens(all, n, Offer(id, code));
    }
  }

  lemma MakesSnoc(before: seq<Action>, x: Action)
    ensures var now := Apply(Run(EMPTY, before), x) != Run(EMPTY, before);
            Makes(before + [x]) == if x.Make? && now then Makes(before) + [x] else Makes(before)
  {
    assert (before + [x])[..|before|] == before;
    hide Apply, Run;
  }

  lemma TotalSnoc(before: seq<Action>, x: Action, what: Quantity)
    ensures var now := Apply(Run(EMPTY, before), x) != Run(EMPTY, before);
            Total(before + [x], what) == Total(before, what) + if now then Adds(before, x, what) else 0
  {
    assert (before + [x])[..|before|] == before;
    hide Apply, Run, Adds;
  }

  /** What a step does to the messages, besides reports and counts. */
  lemma NewMessage(l: Ledger, x: Action)
    ensures var t := Apply(l, x); var now := t != l;
            && |t.messages| == |l.messages| + (if x.Make? && now then 1 else 0)
            && (x.Make? && now ==>
                  var m := t.messages[|l.messages|]; m.size == x.size && m.toOutput == x.toOutput && m.call == Made)
  {
    hide Settled;
  }

  lemma CallStep(l: Ledger, x: Action, id: int, code: Code)
    requires 0 <= id < |l.messages|
    ensures id < |Apply(l, x).messages|
    ensures var m, m' := l.messages[id], Apply(l, x).messages[id];
            && m'.size == m.size && m'.toOutput == m.toOutput
            && (Coded(m', code) <==> Coded(m, code) || (Apply(l, x) != l && x == Offer(id, code)))
  {
    hide Settled;
  }

  lemma OfferIsInside(l: Ledger, x: Action)
    ensures x.Offer? && Apply(l, x) != l ==> 0 <= x.id < |l.messages|
  {
  }

  lemma {:induction false} EveryoneTells(actions: seq<Action>)
    ensures AllTell(actions)
  {
    if actions == [] {
      NobodyTells();
    } else {
      var before, x := actions[..|actions| - 1], actions[|actions| - 1];
      EveryoneTells(before);
      assert actions == before + [x];
      hide *;
      TellsStep(before, x);
    }
  }

  lemma NobodyTells()
    ensures AllTell([])
  {
  }

  lemma TellsStep(before: seq<Action>, x: Action)
    requires AllTell(before)
    ensures AllTell(before + [x])
  {
    var l, actions := Run(EMPTY, before), before + [x];
    RunSnoc(before, x);
    MakesSnoc(before, x);
    NewMessage(l, x);
    OfferIsInside(l, x);
    hide Apply, Run, Offered, Makes;
    forall id, code
      ensures Offered(actions, id, code) <==> Offered(before, id, code) || (x == Offer(id, code) && Apply(l, x) != l)
    {
      OfferedSnoc(before, x, id, code);
    }
    forall id | 0 <= id < |Apply(l, x).messages| ensures MessageTells(actions, id, Apply(l, x).messages[id]) {
      if id < |l.messages| {
        OldTells(before, x, id);
      }
    }
  }

  lemma OldTells(before: seq<Action>, x: Action, id: int)
    requires AllTell(before) && 0 <= id < |Run(EMPTY, before).messages|
    ensures var t := Apply(Run(EMPTY, before), x);
            id < |t.messages| && MessageTells(before + [x], id, t.messages[id])
  {
    hide *;
    var l := Run(EMPTY, before);
    TellsAt(before, id);
    MakesSnoc(before, x);
    CallStep(l, x, id, NoError);
    forall code
      ensures Offered(before + [x], id, code) <==>
        Offered(before, id, code) || (x == Offer(id, code) && Apply(l, x) != l)
      ensures Coded(Apply(l, x).messages[id], code) <==>
        Coded(l.messages[id], code) || (x == Offer(id, code) && Apply(l, x) != l)
    {
      OfferedSnoc(before, x, id, code);
      CallStep(l, x, id, code);
    }
    TellsAgain(before, x, id, l.messages[id], Apply(l, x).messages[id], Apply(l, x) != l);
  }

  lemma TellsAt(actions: seq<Action>, id: int)
    requires AllTell(actions) && 0 <= id < |Run(EMPTY, actions).messages|
    ensures MessageTells(actions, id, Run(EMPTY, actions).messages[id])
  {
    hide Run, MessageTells;
  }

  lemma TellsAgain(before: seq<Action>, x: Action, id: int, m: Message, m': Message, now: bool)
    requires MessageTells(before, id, m) && m'.size == m.size && m'.toOutput == m.toOutput
    requires Makes(before + [x]) == if x.Make? && now then Makes(before) + [x] else Makes(before)
    requires forall code ::
      Offered(before + [x], id, code) <==> Offered(before, id, code) || (x == Offer(id, code) && now)
    requires forall code :: Coded(m', code) <==> Coded(m, code) || (x == Offer(id, code) && now)
    ensures MessageTells(before + [x], id, m')
  {
    hide Makes, Offered, Coded;
  }

  // What the counters say

  ghost predicate Right(s: Stats, actions: seq<Action>) {
    && s.produced == Total(actions, Answers(NoError)) % UINT64_LIMIT
    && s.producedBytes == Total(actions, AnsweredBytes) % UINT64_LIMIT
    && s.queueFull == Total(actions, Answers(QueueFull)) % UINT32_LIMIT
    && s.tooLarge == Total(actions, Answers(TooLarge)) % UINT64_LIMIT
    && s.fail == Total(actions, Answers(OtherError)) % UINT32_LIMIT
    && s.callback == Total(actions, Reports(true)) % UINT64_LIMIT
    && s.callbackFail == Total(actions, Reports(false)) % UINT64_LIMIT
    && s.outputMessages == Total(actions, Outputs) % UINT64_LIMIT
    && s.outputBytes == Total(actions, OutputSizes) % UINT64_LIMIT
  }

  /** What a step adds to each counter, up to its wrap-around. */
  ghost predicate Grows(s: Stats, t: Stats, before: seq<Action>, x: Action, now: bool) {
    && t.produced == (s.produced + if now then Adds(before, x, Answers(NoError)) else 0) % UINT64_LIMIT
    && t.producedBytes == (s.producedBytes + if now then Adds(before, x, AnsweredBytes) else 0) % UINT64_LIMIT
    && t.queueFull == (s.queueFull + if now then Adds(before, x, Answers(QueueFull)) else 0) % UINT32_LIMIT
    && t.tooLarge == (s.tooLarge + if now then Adds(before, x, Answers(TooLarge)) else 0) % UINT64_LIMIT
    && t.fail == (s.fail + if now then Adds(before, x, Answers(OtherError)) else 0) % UINT32_LIMIT
    && t.callback == (s.callback + if now then Adds(before, x, Reports(true)) else 0) % UINT64_LIMIT
    && t.callbackFail == (s.callbackFail + if now then Adds(before, x, Reports(false)) else 0) % UINT64_LIMIT
    && t.outputMessages == (s.outputMessages + if now then Adds(before, x, Outputs) else 0) % UINT64_LIMIT
    && t.outputBytes == (s.outputBytes + if now then Adds(before, x, OutputSizes) else 0) % UINT64_LIMIT
  }

  ghost predicate InRange(s: Stats) {
    && 0 <= s.produced < UINT64_LIMIT && 0 <= s.producedBytes < UINT64_LIMIT
    && 0 <= s.queueFull < UINT32_LIMIT && 0 <= s.tooLarge < UINT64_LIMIT && 0 <= s.fail < UINT32_LIMIT
    && 0 <= s.callback < UINT64_LIMIT && 0 <= s.callbackFail < UINT64_LIMIT
    && 0 <= s.outputMessages < UINT64_LIMIT && 0 <= s.outputBytes < UINT64_LIMIT
  }

  lemma RightInRange(s: Stats, actions: seq<Action>)
    requires Right(s, actions)
    ensures InRange(s)
  {
    hide Total;
  }

  /** The answer to a message that is there, and what the message is. */
  lemma TellsCode(before: seq<Action>, id: int, l: Ledger)
    requires l == Run(EMPTY, before) && AllTell(before)
    ensures 0 <= id < |l.messages| ==>
      && |Makes(before)| == |l.messages|
      && l.messages[id].size == Makes(before)[id].size && l.messages[id].toOutput == Makes(before)[id].toOutput
      && forall code :: Offered(before, id, code) <==> Coded(l.messages[id], code)
  {
    hide Run, Offered, Makes;
    if 0 <= id < |l.messages| {
      assert MessageTells(before, id, l.messages[id]);
    }
  }

  lemma SettleAdds(before: seq<Action>, id: int, code: Code)
    requires AllTell(before)
    requires var ms := Run(EMPTY, before).messages;
             0 <= id < |ms| && ms[id].call == Answered(code)
    ensures forall c :: Adds(before, Settle(id), Answers(c)) == if c == code then 1 else 0
    ensures Adds(before, Settle(id), AnsweredBytes)
         == if code == NoError then Run(EMPTY, before).messages[id].size % UINT32_LIMIT else 0
    ensures forall ok :: Adds(before, Settle(id), Reports(ok)) == 0
    ensures Adds(before, Settle(id), Outputs) == Adds(before, Settle(id), OutputSizes) == 0
  {
    TellsCode(before, id, Run(EMPTY, before));
    hide Run, Offered, Makes, AllTell;
  }

  lemma SettleGrows(before: seq<Action>, id: int)
    requires AllTell(before) && InRange(Run(EMPTY, before).stats)
    ensures var l := Run(EMPTY, before);
            Grows(l.stats, DoSettle(l, id).stats, before, Settle(id), DoSettle(l, id) != l)
  {
    var l := Run(EMPTY, before);
    hide Run, Adds, AllTell;
    if 0 <= id < |l.messages| && l.messages[id].call.Answered? {
      SettleAdds(before, id, l.messages[id].call.code);
    }
  }

  lemma FinishAdds(before: seq<Action>, id: int, code: Code)
    requires AllTell(before)
    requires var ms := Run(EMPTY, before).messages;
             0 <= id < |ms| && ms[id].call == Counted(code)
    ensures forall c :: Adds(before, Finish(id), Answers(c)) == 0
    ensures Adds(before, Finish(id), AnsweredBytes) == 0
    ensures forall ok :: Adds(before, Finish(id), Reports(ok)) == 0
    ensures var m := Run(EMPTY, before).messages[id]; var out := code == NoError && m.toOutput;
            && Adds(before, Finish(id), Outputs) == (if out then 1 else 0)
            && Adds(before, Finish(id), OutputSizes) == (if out then m.size else 0)
  {
    TellsCode(before, id, Run(EMPTY, before));
    hide Run, Offered, Makes, AllTell;
  }

  lemma FinishGrows(before: seq<Action>, id: int)
    requires AllTell(before) && InRange(Run(EMPTY, before).stats)
    ensures var l := Run(EMPTY, before);
            Grows(l.stats, DoFinish(l, id).stats, before, Finish(id), DoFinish(l, id) != l)
  {
    var l := Run(EMPTY, before);
    hide Run, Adds, AllTell;
    if 0 <= id < |l.messages| && l.messages[id].call.Counted? {
      FinishAdds(before, id, l.messages[id].call.code);
    }
  }

  lemma RestGrows(before: seq<Action>, x: Action)
    requires InRange(Run(EMPTY, before).stats) && !x.Settle? && !x.Finish?
    ensures var l := Run(EMPTY, before);
            Grows(l.stats, Apply(l, x).stats, before, x, Apply(l, x) != l)
  {
    hide Run, Offered, Makes;
  }

  lemma StepGrows(before: seq<Action>, x: Action)
    requires AllTell(before) && InRange(Run(EMPTY, before).stats)
    ensures var l := Run(EMPTY, before);
            Grows(l.stats, Apply(l, x).stats, before, x, Apply(l, x) != l)
  {
    hide Run, AllTell, Grows, InRange, DoSettle, DoFinish, DoMake, DoOffer, DoReport;
    match x
    case Settle(id) => SettleGrows(before, id);
    case Finish(id) => FinishGrows(before, id);
    case _ => RestGrows(before, x);
  }

  lemma OneRight(a: int, total: int, n: int, limit: int)
    requires (limit == UINT32_LIMIT || limit == UINT64_LIMIT) && a == total % limit
    ensures (a + n) % limit == (total + n) % limit
  {
    Wraps(total, n, limit);
  }

  lemma GrowsRight(s: Stats, t: Stats, before: seq<Action>, x: Action, now: bool)
    requires Right(s, before) && Grows(s, t, before, x, now)
    requires forall what :: Total(before + [x], what) == Total(before, what) + if now then Adds(before, x, what) else 0
    ensures Right(t, before + [x])
  {
    hide Total, Adds;
    OneRight(s.produced, Total(before, Answers(NoError)), if now then Adds(before, x, Answers(NoError)) else 0,
             UINT64_LIMIT);
    OneRight(s.producedBytes, Total(before, AnsweredBytes), if now then Adds(before, x, AnsweredBytes) else 0,
             UINT64_LIMIT);
    OneRight(s.queueFull, Total(before, Answers(QueueFull)), if now then Adds(before, x, Answers(QueueFull)) else 0,
             UINT32_LIMIT);
    OneRight(s.tooLarge, Total(before, Answers(TooLarge)), if now then Adds(before, x, Answers(TooLarge)) else 0,
             UINT64_LIMIT);
    OneRight(s.fail, Total(before, Answers(OtherError)), if now then Adds(before, x, Answers(OtherError)) else 0,
             UINT32_LIMIT);
    OneRight(s.callback, Total(before, Reports(true)), if now then Adds(before, x, Reports(true)) else 0,
             UINT64_LIMIT);
    OneRight(s.callbackFail, Total(before, Reports(false)), if now then Adds(before, x, Reports(false)) else 0,
             UINT64_LIMIT);
    OneRight(s.outputMessages, Total(before, Outputs), if now then Adds(before, x, Outputs) else 0, UINT64_LIMIT);
    OneRight(s.outputBytes, Total(before, OutputSizes), if now then Adds(before, x, OutputSizes) else 0, UINT64_LIMIT);
  }

  /**
    Over every run: each counter is the number of answers, reports or messages of its own kind that the run
    shows, or the sum of their sizes, up to the width of the counter.
   */
  lemma {:induction false} CountersOfRun(actions: seq<Action>)
    ensures Right(Run(EMPTY, actions).stats, actions)
  {
    if actions != [] {
      var before, x := actions[..|actions| - 1], actions[|actions| - 1];
      CountersOfRun(before);
      assert actions == before + [x];
      hide *;
      var l := Run(EMPTY, before);
      EveryoneTells(before);
      RightInRange(l.stats, before);
      StepGrows(before, x);
      RunSnoc(before, x);
      forall what ensures Total(before + [x], what) ==
        Total(before, what) + if Apply(l, x) != l then Adds(before, x, what) else 0
      {
        TotalSnoc(before, x, what);
      }
      GrowsRight(l.stats, Apply(l, x).stats, before, x, Apply(l, x) != l);
    }
  }
}
