/**
  Who owns a Kafka message, who frees it, and what the counters on both sides say: the calls of
  ProducerTopic::produce, the delivery callback and KafkaOutput::emit as one transition system.
 */
module KafkaLedger {
  import opened Basics

  /** What the library answers to an attempt to queue a message. */
  datatype Code = NoError | QueueFull | TooLarge | OtherError

  /** Where a call is: the message made, the library's answer there, that counted, the caller done. */
  datatype Call = Made | Answered(code: Code) | Counted(code: Code) | Returned(code: Code)

  /** The delivery report on a message. */
  datatype Outcome = Unreported | Success | Failure

  /**
    `size` is the size of the data, which the field Size keeps in 32 bits; `toOutput` says that the
    message goes through KafkaOutput; `owned` that a unique_ptr owns it, `held` that the library has
    it; `frees` counts the deletions. `early` records that the delivery report came between the
    library's answer and its count, from another thread's poll, and `stale` that the call has read the
    message's size after its deletion.
   */
  datatype Message = Message(size: int, toOutput: bool, call: Call, owned: bool, held: bool, report: Outcome,
    frees: int, early: bool, stale: bool)

  datatype Stats = Stats(
    produced: int,
    producedBytes: int,
    totalMessages: int,
    queueFull: int,
    tooLarge: int,
    fail: int,
    callback: int,
    callbackFail: int,
    outputMessages: int,
    outputBytes: int)

  datatype Ledger = Ledger(messages: seq<Message>, stats: Stats)

  datatype Action =
    | Make(size: int, toOutput: bool)
    | Offer(id: int, code: Code)
    | Settle(id: int)
    | Finish(id: int)
    | Report(id: int, ok: bool)

  const EMPTY := Ledger([], Stats(0, 0, 0, 0, 0, 0, 0, 0, 0, 0))

  function Plus64(a: int, n: int): int {
    (a + n) % UINT64_LIMIT
  }

  function Count32(a: int): int {
    (a + 1) % UINT32_LIMIT
  }

  function DoMake(l: Ledger, size: int, toOutput: bool): Ledger {
    if !(0 <= size < UINT64_LIMIT) then l else
    l.(messages := l.messages + [Message(size, toOutput, Made, true, false, Unreported, 0, false, false)])
  }

  /** The library takes the message, without owning it, exactly if it answers without an error. */
  function DoOffer(l: Ledger, id: int, code: Code): Ledger {
    if !(0 <= id < |l.messages|) || l.messages[id].call != Made then l else
    l.(messages := l.messages[id := l.messages[id].(call := Answered(code), held := code == NoError)])
  }

  function Settled(s: Stats, m: Message, code: Code): Stats {
    match code
    case NoError =>
      s.(produced := Plus64(s.produced, 1),
         producedBytes := Plus64(s.producedBytes, m.size % UINT32_LIMIT),
         totalMessages := Plus64(s.totalMessages, 1))
    case QueueFull => s.(queueFull := Count32(s.queueFull))
    case TooLarge => s.(tooLarge := Plus64(s.tooLarge, 1))
    case OtherError => s.(fail := Count32(s.fail))
  }

  /**
    The switch over the answer: counts it, and lets the message go if the library took it. The size is
    read through the pointer only in that case.
   */
  function DoSettle(l: Ledger, id: int): Ledger {
    if !(0 <= id < |l.messages|) || !l.messages[id].call.Answered? then l else
    var m := l.messages[id];
    var code := m.call.code;
    Ledger(l.messages[id := m.(call := Counted(code),
                               owned := m.owned && code != NoError,
                               stale := m.stale || (code == NoError && m.frees > 0))],
           Settled(l.stats, m, code))
  }

  /** The caller: counts a message that the library took, and deletes one that it still owns. */
  function DoFinish(l: Ledger, id: int): Ledger {
    if !(0 <= id < |l.messages|) || !l.messages[id].call.Counted? then l else
    var m := l.messages[id];
    Ledger(l.messages[id := m.(call := Returned(m.call.code), owned := false,
                               frees := if m.owned then m.frees + 1 else m.frees)],
           if m.call.code == NoError && m.toOutput then
             l.stats.(outputMessages := Plus64(l.stats.outputMessages, 1),
                 outputBytes := Plus64(l.stats.outputBytes, m.size))
           else l.stats)
  }

  /** The delivery callback; the library reports once on each message it has, at any time. */
  function DoReport(l: Ledger, id: int, ok: bool): Ledger {
    if !(0 <= id < |l.messages|) || !l.messages[id].held then l else
    var m := l.messages[id];
    Ledger(l.messages[id := m.(held := false, report := if ok then Success else Failure, frees := m.frees + 1,
                               early := m.early || m.call.Answered?)],
           if ok then l.stats.(callback := Plus64(l.stats.callback, 1))
           else l.stats.(callbackFail := Plus64(l.stats.callbackFail, 1)))
  }

  function Apply(l: Ledger, a: Action): Ledger {
    match a
    case Make(size, toOutput) => DoMake(l, size, toOutput)
    case Offer(id, code) => DoOffer(l, id, code)
    case Settle(id) => DoSettle(l, id)
    case Finish(id) => DoFinish(l, id)
    case Report(id, ok) => DoReport(l, id, ok)
  }

  function Run(l: Ledger, actions: seq<Action>): Ledger {
    if actions == [] then l else Apply(Run(l, actions[..|actions| - 1]), actions[|actions| - 1])
  }

  lemma {:induction false} RunConcat(l: Ledger, a: seq<Action>, b: seq<Action>)
    ensures Run(l, a + b) == Run(Run(l, a), b)
  {
    hide Apply;
    if b == [] {
      assert a + b == a;
    } else {
      RunConcat(l, a, b[..|b| - 1]);
      assert (a + b)[..|a + b| - 1] == a + b[..|b| - 1];
    }
  }

  lemma RunOne(l: Ledger, a: Action)
    ensures Run(l, [a]) == Apply(l, a)
  {
    assert [a][..0] == [];
  }

  // What the counters count

  datatype Kind = Produced | Bytes | Full | Large | Fail | Delivered | Undelivered | OutputMessages | OutputBytes
    | InFlight | Ahead | Open | Outside | OutsideBytes | CutOff

  /** The call got this answer and counted it. */
  predicate Got(m: Message, code: Code) {
    m.call == Counted(code) || m.call == Returned(code)
  }

  /** KafkaOutput has counted the message. */
  predicate CountedByOutput(m: Message) {
    m.call == Returned(NoError) && m.toOutput
  }

  function Weigh(kind: Kind, m: Message): (n: int) {
    match kind
    case Produced => if Got(m, NoError) then 1 else 0
    case Bytes => if Got(m, NoError) then m.size % UINT32_LIMIT else 0
    case Full => if Got(m, QueueFull) then 1 else 0
    case Large => if Got(m, TooLarge) then 1 else 0
    case Fail => if Got(m, OtherError) then 1 else 0
    case Delivered => if m.report == Success then 1 else 0
    case Undelivered => if m.report == Failure then 1 else 0
    case OutputMessages => if CountedByOutput(m) then 1 else 0
    case OutputBytes => if CountedByOutput(m) then m.size else 0
    case InFlight => if Got(m, NoError) && m.held then 1 else 0
    case Ahead => if m.call.Answered? && m.report != Unreported then 1 else 0
    case Open => if m.call.Made? || m.call.Answered? then 1 else 0
    case Outside => if Got(m, NoError) && !CountedByOutput(m) then 1 else 0
    case OutsideBytes => if Got(m, NoError) && !CountedByOutput(m) then m.size % UINT32_LIMIT else 0
    case CutOff => if CountedByOutput(m) then m.size - m.size % UINT32_LIMIT else 0
  }

  function Tally(kind: Kind, ms: seq<Message>): (n: int) {
    if ms == [] then 0 else Weigh(kind, ms[0]) + Tally(kind, ms[1..])
  }

  lemma {:induction false} TallyUpdate(kind: Kind, ms: seq<Message>, i: int, m: Message)
    requires 0 <= i < |ms|
    ensures Tally(kind, ms[i := m]) == Tally(kind, ms) - Weigh(kind, ms[i]) + Weigh(kind, m)
  {
    hide Weigh;
    if i == 0 {
      assert ms[i := m][1..] == ms[1..];
    } else {
      TallyUpdate(kind, ms[1..], i - 1, m);
      assert ms[i := m][1..] == ms[1..][i - 1 := m];
    }
  }

  lemma {:induction false} TallySnoc(kind: Kind, ms: seq<Message>, m: Message)
    ensures Tally(kind, ms + [m]) == Tally(kind, ms) + Weigh(kind, m)
  {
    hide Weigh;
    if ms == [] {
      assert (ms + [m])[1..] == [];
    } else {
      TallySnoc(kind, ms[1..], m);
      assert (ms + [m])[1..] == ms[1..] + [m];
    }
  }

  function Limit(kind: Kind): (n: int)
    ensures n == UINT32_LIMIT || n == UINT64_LIMIT
  {
    if kind == Full || kind == Fail then UINT32_LIMIT else UINT64_LIMIT
  }

  /** The counter that a kind is counted in; some kinds are not counted anywhere. */
  function Counter(s: Stats, kind: Kind): Option<int> {
    match kind
    case Produced => Some(s.produced)
    case Bytes => Some(s.producedBytes)
    case Full => Some(s.queueFull)
    case Large => Some(s.tooLarge)
    case Fail => Some(s.fail)
    case Delivered => Some(s.callback)
    case Undelivered => Some(s.callbackFail)
    case OutputMessages => Some(s.outputMessages)
    case OutputBytes => Some(s.outputBytes)
    case InFlight => None
    case Ahead => None
    case Open => None
    case Outside => None
    case OutsideBytes => None
    case CutOff => None
  }

  /** The counter of a kind is right, up to the wrap-around of its type. */
  ghost predicate Counts(l: Ledger, kind: Kind) {
    Counter(l.stats, kind).Some? ==> Counter(l.stats, kind).value == Tally(kind, l.messages) % Limit(kind)
  }

  ghost predicate MessageOk(m: Message) {
    && 0 <= m.size < UINT64_LIMIT
    && match m.call
       case Made => m.owned && Untouched(m) && m.frees == 0
       case Answered(code) =>
         && m.owned
         && (code != NoError ==> Untouched(m) && m.frees == 0)
         && (code == NoError ==> Accepted(m) && m.early == !m.held && !m.stale)
       case Counted(code) =>
         && m.owned == (code != NoError)
         && (code != NoError ==> Untouched(m) && m.frees == 0)
         && (code == NoError ==> Accepted(m) && m.stale == m.early)
       case Returned(code) =>
         && !m.owned
         && (code != NoError ==> Untouched(m) && m.frees == 1)
         && (code == NoError ==> Accepted(m) && m.stale == m.early)
  }

  /** The library never had the message. */
  ghost predicate Untouched(m: Message) {
    !m.held && m.report == Unreported && !m.early && !m.stale
  }

  /** The library has the message, or has reported on it. */
  ghost predicate Accepted(m: Message) {
    && m.held == m.report.Unreported?
    && m.frees == (if m.held then 0 else 1)
    && (m.early ==> !m.held)
  }

  ghost predicate Inv(l: Ledger) {
    && (forall i :: 0 <= i < |l.messages| ==> MessageOk(l.messages[i]))
    && (forall kind :: Counts(l, kind))
    && l.stats.totalMessages == l.stats.produced
  }

  lemma Wraps64(t: int, d: int)
    ensures (t % 0x1_0000_0000_0000_0000 + d) % 0x1_0000_0000_0000_0000 == (t + d) % 0x1_0000_0000_0000_0000
  {
    var q := t / 0x1_0000_0000_0000_0000;
    assert t == q * 0x1_0000_0000_0000_0000 + t % 0x1_0000_0000_0000_0000;
  }

  lemma Wraps(t: int, d: int, limit: int)
    requires limit == UINT32_LIMIT || limit == UINT64_LIMIT
    ensures (t % limit + d) % limit == (t + d) % limit
  {
    Wraps32(t, d);
    Wraps64(t, d);
  }

  /** The counter of a kind changes by what the change of message `id` weighs. */
  ghost predicate Moves(l: Ledger, t: Ledger, id: int, kind: Kind)
    requires 0 <= id < |l.messages| && id < |t.messages|
  {
    Counter(l.stats, kind).Some? ==>
      && Counter(t.stats, kind).Some?
      && Counter(t.stats, kind).value ==
           (Counter(l.stats, kind).value + Weigh(kind, t.messages[id]) - Weigh(kind, l.messages[id])) % Limit(kind)
  }

  /** A step changes message `id`, and each counter by what the change weighs. */
  lemma CountsStep(l: Ledger, t: Ledger, id: int, kind: Kind)
    requires Counts(l, kind) && 0 <= id < |l.messages| && |t.messages| == |l.messages|
    requires t.messages == l.messages[id := t.messages[id]]
    requires Moves(l, t, id, kind)
    ensures Counts(t, kind)
  {
    hide Weigh, Limit, Tally, Counter;
    TallyUpdate(kind, l.messages, id, t.messages[id]);
    SameCounters(l.stats, t.stats, kind);
    if Counter(l.stats, kind).Some? {
      WrapsBy(Counter(l.stats, kind).value, Counter(t.stats, kind).value, Tally(kind, l.messages),
        Weigh(kind, t.messages[id]), Weigh(kind, l.messages[id]), Limit(kind));
    }
  }

  /** A counter that is right up to the wrap-around stays so if it changes as the sum does. */
  lemma WrapsBy(before: int, after: int, t: int, w': int, w: int, limit: int)
    requires limit == UINT32_LIMIT || limit == UINT64_LIMIT
    requires before == t % limit && after == (before + w' - w) % limit
    ensures after == (t + w' - w) % limit
  {
    Wraps(t, w' - w, limit);
  }

  lemma SameCounters(a: Stats, b: Stats, kind: Kind)
    ensures Counter(a, kind).Some? == Counter(b, kind).Some?
  {
  }

  lemma SettleKeeps(l: Ledger, id: int)
    requires Inv(l)
    ensures Inv(DoSettle(l, id))
  {
    var t := DoSettle(l, id);
    if t != l {
      assert MessageOk(l.messages[id]);
      assert MessageOk(t.messages[id]);
      assert t.messages == l.messages[id := t.messages[id]];
      hide Moves, Weigh, Tally;
      forall kind ensures Counts(t, kind) {
        assert Counts(l, kind);
        SettleCount(l, id, kind);
        CountsStep(l, t, id, kind);
      }
      hide MessageOk, Counts;
    }
  }

  lemma CounterInRange(l: Ledger, kind: Kind)
    requires Counts(l, kind) && Counter(l.stats, kind).Some?
    ensures Counter(l.stats, kind).value % Limit(kind) == Counter(l.stats, kind).value
  {
    Wraps(Tally(kind, l.messages), 0, Limit(kind));
  }

  lemma SettleCount(l: Ledger, id: int, kind: Kind)
    requires Counts(l, kind) && DoSettle(l, id) != l && 0 <= id < |l.messages| && MessageOk(l.messages[id])
    ensures var t := DoSettle(l, id);
            id < |t.messages| && Moves(l, t, id, kind)
  {
    hide Counts, Tally;
    if Counter(l.stats, kind).Some? {
      CounterInRange(l, kind);
    }
  }

  lemma FinishKeeps(l: Ledger, id: int)
    requires Inv(l)
    ensures Inv(DoFinish(l, id))
  {
    var t := DoFinish(l, id);
    if t != l {
      assert MessageOk(l.messages[id]);
      assert MessageOk(t.messages[id]);
      assert t.messages == l.messages[id := t.messages[id]];
      hide Moves, Weigh, Tally;
      forall kind ensures Counts(t, kind) {
        assert Counts(l, kind);
        FinishCount(l, id, kind);
        CountsStep(l, t, id, kind);
      }
      hide MessageOk, Counts;
    }
  }

  lemma FinishCount(l: Ledger, id: int, kind: Kind)
    requires Counts(l, kind) && DoFinish(l, id) != l && 0 <= id < |l.messages| && MessageOk(l.messages[id])
    ensures var t := DoFinish(l, id);
            id < |t.messages| && Moves(l, t, id, kind)
  {
    hide Counts, Tally;
    if Counter(l.stats, kind).Some? {
      CounterInRange(l, kind);
    }
  }

  lemma ReportKeeps(l: Ledger, id: int, ok: bool)
    requires Inv(l)
    ensures Inv(DoReport(l, id, ok))
  {
    var t := DoReport(l, id, ok);
    if t != l {
      assert MessageOk(l.messages[id]);
      assert MessageOk(t.messages[id]);
      assert t.messages == l.messages[id := t.messages[id]];
      hide Moves, Weigh, Tally;
      forall kind ensures Counts(t, kind) {
        assert Counts(l, kind);
        ReportCount(l, id, ok, kind);
        CountsStep(l, t, id, kind);
      }
      hide MessageOk, Counts;
    }
  }

  lemma ReportCount(l: Ledger, id: int, ok: bool, kind: Kind)
    requires Counts(l, kind) && DoReport(l, id, ok) != l && 0 <= id < |l.messages| && MessageOk(l.messages[id])
    ensures var t := DoReport(l, id, ok);
            id < |t.messages| && Moves(l, t, id, kind)
  {
    hide Counts, Tally;
    if Counter(l.stats, kind).Some? {
      CounterInRange(l, kind);
    }
  }

  lemma OfferKeeps(l: Ledger, id: int, code: Code)
    requires Inv(l)
    ensures Inv(DoOffer(l, id, code))
  {
    var t := DoOffer(l, id, code);
    if t != l {
      assert MessageOk(l.messages[id]);
      assert MessageOk(t.messages[id]);
      assert t.messages == l.messages[id := t.messages[id]];
      hide Moves, Weigh, Tally;
      forall kind ensures Counts(t, kind) {
        assert Counts(l, kind);
        OfferCount(l, id, code, kind);
        CountsStep(l, t, id, kind);
      }
      hide MessageOk, Counts;
    }
  }

  lemma OfferCount(l: Ledger, id: int, code: Code, kind: Kind)
    requires Counts(l, kind) && DoOffer(l, id, code) != l && 0 <= id < |l.messages| && MessageOk(l.messages[id])
    ensures var t := DoOffer(l, id, code);
            id < |t.messages| && Moves(l, t, id, kind)
  {
    hide Counts, Tally;
    if Counter(l.stats, kind).Some? {
      CounterInRange(l, kind);
    }
  }

  lemma MakeKeeps(l: Ledger, size: int, toOutput: bool)
    requires Inv(l)
    ensures Inv(DoMake(l, size, toOutput))
  {
    var t := DoMake(l, size, toOutput);
    if t != l {
      assert MessageOk(t.messages[|l.messages|]);
      forall kind ensures Counts(t, kind) {
        assert Counts(l, kind);
        TallySnoc(kind, l.messages, t.messages[|l.messages|]);
      }
      hide MessageOk, Counts;
    }
  }

  lemma {:induction false} RunKeeps(l: Ledger, actions: seq<Action>)
    requires Inv(l)
    ensures Inv(Run(l, actions))
  {
    hide Inv, DoMake, DoOffer, DoSettle, DoFinish, DoReport;
    if actions != [] {
      var before, action := Run(l, actions[..|actions| - 1]), actions[|actions| - 1];
      RunKeeps(l, actions[..|actions| - 1]);
      match action
      case Make(size, toOutput) => MakeKeeps(before, size, toOutput);
      case Offer(id, code) => OfferKeeps(before, id, code);
      case Settle(id) => SettleKeeps(before, id);
      case Finish(id) => FinishKeeps(before, id);
      case Report(id, ok) => ReportKeeps(before, id, ok);
    }
  }

  lemma EmptyOk()
    ensures Inv(EMPTY)
  {
    assert forall kind :: Tally(kind, []) == 0;
  }

  // What it says

  /**
    Over every run, with reports at any time: no message is deleted twice or while the library has it,
    and one is deleted exactly when its call has returned with an error or its delivery report has come.
    While a unique_ptr still points at a message, it is deleted only by a report that comes before the
    call has counted the library's answer.
   */
  lemma FreedExactlyOnce(actions: seq<Action>, id: int)
    requires 0 <= id < |Run(EMPTY, actions).messages|
    ensures var m := Run(EMPTY, actions).messages[id];
            && 0 <= m.frees <= 1
            && (m.held ==> m.frees == 0)
            && (m.frees == 1 <==> (m.call.Returned? && m.call.code != NoError) || m.report != Unreported)
            && (m.frees == 0 && m.call.Returned? ==> m.held)
            && (m.owned && m.frees == 1 <==> m.call == Answered(NoError) && m.report != Unreported)
  {
    EmptyOk();
    RunKeeps(EMPTY, actions);
    assert MessageOk(Run(EMPTY, actions).messages[id]);
  }

  // When the size of a deleted message is read

  /** Action number i of the run is this one, and it was enabled. */
  ghost predicate Happens(actions: seq<Action>, i: int, a: Action) {
    && 0 <= i < |actions| && actions[i] == a
    && Apply(Run(EMPTY, actions[..i]), a) != Run(EMPTY, actions[..i])
  }

  ghost predicate Reported(actions: seq<Action>, i: int, id: int) {
    exists ok :: Happens(actions, i, Report(id, ok))
  }

  /** The library took the message at i, reported on it at j, and the answer was counted at k. */
  ghost predicate ReportedBetween(actions: seq<Action>, id: int, i: int, j: int, k: int) {
    && i < j < k
    && Happens(actions, i, Offer(id, NoError)) && Reported(actions, j, id) && Happens(actions, k, Settle(id))
  }

  /** What has happened to a message so far, read off the run. */
  ghost predicate Told(actions: seq<Action>, id: int, m: Message) {
    && (m.call != Made && m.call.code == NoError <==> exists i :: Happens(actions, i, Offer(id, NoError)))
    && (m.report != Unreported <==> exists j :: Reported(actions, j, id))
    && (m.stale <==> exists i, j, k :: ReportedBetween(actions, id, i, j, k))
  }

  lemma HappensSnoc(before: seq<Action>, x: Action, i: int, a: Action)
    ensures Happens(before + [x], i, a) <==>
      Happens(before, i, a) || (i == |before| && x == a && Apply(Run(EMPTY, before), x) != Run(EMPTY, before))
  {
    hide Apply, Run;
    if 0 <= i < |before| {
      assert (before + [x])[..i] == before[..i];
    } else if i == |before| {
      assert (before + [x])[..i] == before;
    }
  }

  lemma RunSnoc(before: seq<Action>, x: Action)
    ensures Run(EMPTY, before + [x]) == Apply(Run(EMPTY, before), x)
  {
    assert (before + [x])[..|before|] == before;
    hide Apply;
  }

  /** Messages are only ever added. */
  lemma MoreMessages(l: Ledger, x: Action)
    ensures |l.messages| <= |Apply(l, x).messages| <= |l.messages| + 1
    ensures |Apply(l, x).messages| > |l.messages| ==> x.Make? && Apply(l, x).messages[|l.messages|].call == Made
    ensures |Apply(l, x).messages| > |l.messages| ==> Apply(l, x).messages[|l.messages|].report == Unreported
    ensures |Apply(l, x).messages| > |l.messages| ==> !Apply(l, x).messages[|l.messages|].stale
  {
    hide Settled;
  }

  /** Nothing happens to a message that is not there yet. */
  lemma Absent(l: Ledger, id: int, x: Action)
    requires |l.messages| <= id
    ensures x == Settle(id) || x == Offer(id, NoError) || (x.Report? && x.id == id) ==> Apply(l, x) == l
  {
  }

  lemma {:induction false} NotYet(actions: seq<Action>, id: int)
    requires |Run(EMPTY, actions).messages| <= id
    ensures forall i :: !Happens(actions, i, Offer(id, NoError)) && !Reported(actions, i, id)
    ensures forall i :: !Happens(actions, i, Settle(id))
  {
    hide Apply, Run;
    if actions != [] {
      var before, x := actions[..|actions| - 1], actions[|actions| - 1];
      assert actions == before + [x];
      RunSnoc(before, x);
      MoreMessages(Run(EMPTY, before), x);
      NotYet(before, id);
      Absent(Run(EMPTY, before), id, x);
      forall i
        ensures !Happens(actions, i, Offer(id, NoError)) && !Happens(actions, i, Settle(id))
        ensures !Reported(actions, i, id)
      {
        HappensSnoc(before, x, i, Offer(id, NoError));
        HappensSnoc(before, x, i, Settle(id));
        forall ok ensures !Happens(actions, i, Report(id, ok)) {
          HappensSnoc(before, x, i, Report(id, ok));
          assert Happens(before, i, Report(id, ok)) ==> Reported(before, i, id);
        }
      }
    }
  }

  /** What an action does to a message that is there. */
  lemma MessageStep(l: Ledger, id: int, x: Action)
    requires 0 <= id < |l.messages| && MessageOk(l.messages[id])
    ensures id < |Apply(l, x).messages|
    ensures var m, m' := l.messages[id], Apply(l, x).messages[id];
            var now := Apply(l, x) != l;
            && (m'.call != Made && m'.call.code == NoError <==>
                  (m.call != Made && m.call.code == NoError) || (now && x == Offer(id, NoError)))
            && (m'.report != Unreported <==> m.report != Unreported || (now && x.Report? && x.id == id))
            && (m'.stale <==> m.stale || (now && x == Settle(id) && m.report != Unreported))
  {
    hide Settled;
    var m := l.messages[id];
    assert m.call.Answered? && m.report != Unreported ==> m.call.code == NoError && m.frees > 0;
    match x
    case Make(size, toOutput) =>
    case Offer(i, code) =>
    case Settle(i) =>
    case Finish(i) =>
    case Report(i, ok) =>
  }

  lemma HeldIsAccepted(m: Message)
    requires MessageOk(m) && m.held
    ensures m.call != Made && m.call.code == NoError
  {
  }

  /** A report comes after the library took the message. */
  lemma OfferedBefore(actions: seq<Action>, id: int, j: int)
    requires Reported(actions, j, id)
    requires forall m :: 0 <= id < |Run(EMPTY, actions[..j]).messages| && m == Run(EMPTY, actions[..j]).messages[id] ==>
               Told(actions[..j], id, m) && MessageOk(m)
    ensures exists i :: i < j && Happens(actions, i, Offer(id, NoError))
  {
    var before := actions[..j];
    var l := Run(EMPTY, before);
    var ok :| Happens(actions, j, Report(id, ok));
    assert 0 <= id < |l.messages| && l.messages[id].held;
    var m := l.messages[id];
    HeldIsAccepted(m);
    hide Apply, Run, MessageOk;
    assert Told(before, id, m);
    var i :| Happens(before, i, Offer(id, NoError));
    assert actions[..i] == before[..i] && actions[i] == before[i];
    assert Happens(actions, i, Offer(id, NoError));
  }

  lemma ToldSnoc(before: seq<Action>, x: Action, id: int, m: Message, m': Message)
    requires Told(before, id, m)
    requires forall j :: Reported(before, j, id) ==> exists i :: i < j && Happens(before, i, Offer(id, NoError))
    requires var now := Apply(Run(EMPTY, before), x) != Run(EMPTY, before);
             && (m'.call != Made && m'.call.code == NoError <==>
                   (m.call != Made && m.call.code == NoError) || (now && x == Offer(id, NoError)))
             && (m'.report != Unreported <==> m.report != Unreported || (now && x.Report? && x.id == id))
             && (m'.stale <==> m.stale || (now && x == Settle(id) && m.report != Unreported))
    ensures Told(before + [x], id, m')
  {
    hide Apply, Run, Happens;
    var n, actions := |before|, before + [x];
    var now := Apply(Run(EMPTY, before), x) != Run(EMPTY, before);
    forall i, a ensures Happens(actions, i, a) <==> Happens(before, i, a) || (i == n && x == a && now) {
      HappensSnoc(before, x, i, a);
    }
    forall i, a | Happens(before, i, a) ensures 0 <= i < n {
      HappensWithin(before, i, a);
    }
    assert now && x == Offer(id, NoError) ==> Happens(actions, n, Offer(id, NoError));
    assert now && x.Report? && x.id == id ==> Happens(actions, n, Report(id, x.ok));
    forall j
      ensures Reported(actions, j, id) <==> Reported(before, j, id) || (j == n && now && x.Report? && x.id == id)
    {
    }
    forall i, j, k
      ensures ReportedBetween(actions, id, i, j, k) <==>
        ReportedBetween(before, id, i, j, k)
        || (k == n && now && x == Settle(id) && i < j && Happens(before, i, Offer(id, NoError))
            && Reported(before, j, id))
    {
    }
    hide ReportedBetween, Reported;
    if now && x == Settle(id) && m.report != Unreported {
      var j :| Reported(before, j, id);
      var i :| i < j && Happens(before, i, Offer(id, NoError));
      assert ReportedBetween(actions, id, i, j, n);
    }
    assert (exists i, j, k :: ReportedBetween(actions, id, i, j, k)) <==>
      (exists i, j, k :: ReportedBetween(before, id, i, j, k))
      || (now && x == Settle(id) && exists j :: Reported(before, j, id)) by {
      if i, j, k :| ReportedBetween(before, id, i, j, k) {
        assert ReportedBetween(actions, id, i, j, k);
      }
    }
    assert now && x.Report? && x.id == id ==> Reported(actions, n, id);
    assert (exists j :: Reported(actions, j, id)) <==>
      (exists j :: Reported(before, j, id)) || (now && x.Report? && x.id == id) by {
      if j :| Reported(before, j, id) {
        assert Reported(actions, j, id);
      }
    }
    assert (exists i :: Happens(actions, i, Offer(id, NoError))) <==>
      (exists i :: Happens(before, i, Offer(id, NoError))) || (now && x == Offer(id, NoError));
  }

  lemma HappensWithin(actions: seq<Action>, i: int, a: Action)
    requires Happens(actions, i, a)
    ensures 0 <= i < |actions|
  {
  }
  /** Every message tells what has happened to it. */
  lemma {:induction false} AllTold(actions: seq<Action>, id: int)
    requires 0 <= id < |Run(EMPTY, actions).messages|
    ensures Told(actions, id, Run(EMPTY, actions).messages[id])
    decreases |actions|
  {
    var before, x := actions[..|actions| - 1], actions[|actions| - 1];
    var l := Run(EMPTY, before);
    assert actions == before + [x];
    hide *;
    EmptyOk();
    RunKeeps(EMPTY, before);
    RunSnoc(before, x);
    MoreMessages(l, x);
    if id < |l.messages| {
      AllTold(before, id);
      ReportsAfterOffers(before, id);
      MessageIs(l, id);
      MessageStep(l, id, x);
      ToldSnoc(before, x, id, l.messages[id], Apply(l, x).messages[id]);
    } else {
      NotYet(before, id);
      NewTold(before, x, id, Apply(l, x).messages[id]);
    }
  }

  lemma MessageIs(l: Ledger, id: int)
    requires Inv(l) && 0 <= id < |l.messages|
    ensures MessageOk(l.messages[id])
  {
  }

  lemma ReportsAfterOffers(actions: seq<Action>, id: int)
    ensures forall j :: Reported(actions, j, id) ==> exists i :: i < j && Happens(actions, i, Offer(id, NoError))
    decreases |actions|, 0
  {
    forall j | Reported(actions, j, id) ensures exists i :: i < j && Happens(actions, i, Offer(id, NoError)) {
      assert 0 <= j < |actions|;
      var l := Run(EMPTY, actions[..j]);
      hide *;
      if 0 <= id < |l.messages| {
        AllTold(actions[..j], id);
        EmptyOk();
        RunKeeps(EMPTY, actions[..j]);
        MessageIs(l, id);
      }
      OfferedBefore(actions, id, j);
    }
  }

  /** Nothing has happened to a message that was made just now. */
  lemma NewTold(before: seq<Action>, x: Action, id: int, m: Message)
    requires x.Make? && m.call == Made && m.report == Unreported && !m.stale
    requires forall i :: !Happens(before, i, Offer(id, NoError)) && !Reported(before, i, id)
    requires forall i :: !Happens(before, i, Settle(id))
    ensures Told(before + [x], id, m)
  {
    hide Apply, Run, Happens;
    forall i, a ensures Happens(before + [x], i, a) ==> Happens(before, i, a) || x == a {
      HappensSnoc(before, x, i, a);
    }
    forall j, ok ensures !Happens(before + [x], j, Report(id, ok)) {
      assert Happens(before, j, Report(id, ok)) ==> Reported(before, j, id);
    }
  }

  /**
    The call reads the size of a deleted message exactly if, in the run, the delivery report came after the
    library took the message and before the call counted the answer.
   */
  lemma StaleExactly(actions: seq<Action>, id: int)
    requires 0 <= id < |Run(EMPTY, actions).messages|
    ensures Run(EMPTY, actions).messages[id].stale <==>
      exists i, j, k :: ReportedBetween(actions, id, i, j, k)
  {
    AllTold(actions, id);
    hide Run, ReportedBetween;
  }

  /** Such a read happens: the report comes before the count. */
  lemma StaleHappens(size: int)
    requires 0 <= size < UINT64_LIMIT
    ensures var l := Run(EMPTY, [Make(size, false), Offer(0, NoError), Report(0, true), Settle(0)]);
            |l.messages| == 1 && l.messages[0].stale && l.messages[0].frees == 1
  {
    var actions := [Make(size, false), Offer(0, NoError), Report(0, true), Settle(0)];
    assert actions[..3][..2] == actions[..2] && actions[..2][..1] == actions[..1] && actions[..1][..0] == [];
    assert Run(EMPTY, actions[..1]) == DoMake(EMPTY, size, false);
    assert Run(EMPTY, actions[..2]) == DoOffer(DoMake(EMPTY, size, false), 0, NoError);
    assert Run(EMPTY, actions[..3]) == DoReport(DoOffer(DoMake(EMPTY, size, false), 0, NoError), 0, true);
  }

  lemma WeighsSomething(kind: Kind, m: Message)
    requires MessageOk(m)
    ensures 0 <= Weigh(kind, m)
  {
    match kind
    case OutputBytes =>
    case Bytes =>
    case CutOff =>
    case OutsideBytes =>
    case _ =>
  }

  lemma PartitionOne(m: Message)
    requires MessageOk(m)
    ensures Weigh(Produced, m) + Weigh(Full, m) + Weigh(Large, m) + Weigh(Fail, m) + Weigh(Open, m) == 1
    ensures Weigh(Produced, m) + Weigh(Ahead, m) == Weigh(Delivered, m) + Weigh(Undelivered, m) + Weigh(InFlight, m)
    ensures Weigh(Ahead, m) <= Weigh(Open, m)
    ensures forall kind :: 0 <= Weigh(kind, m)
  {
    forall kind ensures 0 <= Weigh(kind, m) {
      WeighsSomething(kind, m);
    }
    match m.call
    case Made =>
    case Answered(code) =>
    case Counted(code) => assert Got(m, code);
    case Returned(code) => assert Got(m, code);
  }

  lemma {:induction false} Partition(ms: seq<Message>)
    requires forall i :: 0 <= i < |ms| ==> MessageOk(ms[i])
    ensures |ms| == Tally(Produced, ms) + Tally(Full, ms) + Tally(Large, ms) + Tally(Fail, ms) + Tally(Open, ms)
    ensures Tally(Produced, ms) + Tally(Ahead, ms)
         == Tally(Delivered, ms) + Tally(Undelivered, ms) + Tally(InFlight, ms)
    ensures Tally(Ahead, ms) <= Tally(Open, ms)
    ensures forall kind :: 0 <= Tally(kind, ms)
  {
    hide Weigh, MessageOk;
    if ms != [] {
      Partition(ms[1..]);
      PartitionOne(ms[0]);
    }
  }

  /** No counter of an answer has wrapped around. */
  ghost predicate NoneWrapped(ms: seq<Message>) {
    && Tally(Produced, ms) < UINT64_LIMIT && Tally(Full, ms) < UINT32_LIMIT
    && Tally(Large, ms) < UINT64_LIMIT && Tally(Fail, ms) < UINT32_LIMIT
  }

  /** How often a 64-bit counter has come around. */
  function Rounds(count: int): int {
    count / UINT64_LIMIT
  }

  /** The counter of accepted messages and those of reports have come around equally often. */
  ghost predicate EquallyWrapped(ms: seq<Message>) {
    Rounds(Tally(Produced, ms)) == Rounds(Tally(Delivered, ms)) + Rounds(Tally(Undelivered, ms))
  }

  /**
    Conservation over every run. Calls whose answer is not counted yet are open; those of them on which
    the report has come already are ahead. Two of the counters have 32 bits, so the attempts are
    accounted for modulo 2^32, and plainly exactly if none of the counters has wrapped around; the
    reports modulo 2^64, and plainly exactly if both sides have wrapped around equally often.
   */
  lemma Conservation(actions: seq<Action>)
    ensures var l := Run(EMPTY, actions);
            var s, ms := l.stats, l.messages;
            var flight, ahead, open := Tally(InFlight, ms), Tally(Ahead, ms), Tally(Open, ms);
            && s.totalMessages == s.produced && 0 <= ahead <= open && 0 <= flight
            && |ms| % UINT32_LIMIT == (s.produced + s.queueFull + s.tooLarge + s.fail + open) % UINT32_LIMIT
            && (|ms| == s.produced + s.queueFull + s.tooLarge + s.fail + open <==> NoneWrapped(ms))
            && (s.produced + ahead) % UINT64_LIMIT == (s.callback + s.callbackFail + flight) % UINT64_LIMIT
            && (s.produced + ahead == s.callback + s.callbackFail + flight <==> EquallyWrapped(ms))
  {
    hide *;
    EmptyOk();
    RunKeeps(EMPTY, actions);
    var l := Run(EMPTY, actions);
    TotalIsProduced(l);
    AttemptsOf(l);
    DeliveriesOf(l);
  }

  lemma TotalIsProduced(l: Ledger)
    requires Inv(l)
    ensures l.stats.totalMessages == l.stats.produced
    ensures 0 <= Tally(Ahead, l.messages) <= Tally(Open, l.messages) && 0 <= Tally(InFlight, l.messages)
  {
    assert forall i :: 0 <= i < |l.messages| ==> MessageOk(l.messages[i]);
    hide MessageOk, Tally, Counts;
    Partition(l.messages);
  }

  lemma AttemptsOf(l: Ledger)
    requires Inv(l)
    ensures var s, ms, open := l.stats, l.messages, Tally(Open, l.messages);
            && |ms| % UINT32_LIMIT == (s.produced + s.queueFull + s.tooLarge + s.fail + open) % UINT32_LIMIT
            && (|ms| == s.produced + s.queueFull + s.tooLarge + s.fail + open <==> NoneWrapped(ms))
  {
    var ms := l.messages;
    assert forall i :: 0 <= i < |ms| ==> MessageOk(ms[i]);
    hide Inv, Tally, MessageOk;
    CounterValues(l);
    Partition(ms);
    Attempts(|ms|, Tally(Produced, ms), Tally(Full, ms), Tally(Large, ms), Tally(Fail, ms), Tally(Open, ms), l.stats);
  }

  lemma DeliveriesOf(l: Ledger)
    requires Inv(l)
    ensures var s, ms := l.stats, l.messages;
            var flight, ahead := Tally(InFlight, ms), Tally(Ahead, ms);
            && (s.produced + ahead) % UINT64_LIMIT == (s.callback + s.callbackFail + flight) % UINT64_LIMIT
            && (s.produced + ahead == s.callback + s.callbackFail + flight <==> EquallyWrapped(ms))
  {
    hide *;
    var ms := l.messages;
    ReportCounters(l);
    EquallyIs(ms);
    Deliveries(Tally(Produced, ms), Tally(Ahead, ms), Tally(Delivered, ms), Tally(Undelivered, ms), Tally(InFlight, ms),
               l.stats);
  }

  lemma EquallyIs(ms: seq<Message>)
    ensures EquallyWrapped(ms) <==>
      Rounds(Tally(Produced, ms)) == Rounds(Tally(Delivered, ms)) + Rounds(Tally(Undelivered, ms))
  {
    hide Rounds, Tally;
  }

  lemma ReportCounters(l: Ledger)
    requires Inv(l)
    ensures var ms := l.messages;
            && 0 <= Tally(Produced, ms) && 0 <= Tally(Delivered, ms) && 0 <= Tally(Undelivered, ms)
            && Tally(Produced, ms) + Tally(Ahead, ms)
                 == Tally(Delivered, ms) + Tally(Undelivered, ms) + Tally(InFlight, ms)
            && l.stats.produced == Tally(Produced, ms) % UINT64_LIMIT
            && l.stats.callback == Tally(Delivered, ms) % UINT64_LIMIT
            && l.stats.callbackFail == Tally(Undelivered, ms) % UINT64_LIMIT
  {
    var ms := l.messages;
    assert forall i :: 0 <= i < |ms| ==> MessageOk(ms[i]);
    hide Inv, Tally, MessageOk;
    CounterValues(l);
    Partition(ms);
  }

  lemma Attempts(n: int, produced: int, full: int, large: int, fail: int, open: int, s: Stats)
    requires 0 <= produced && 0 <= full && 0 <= large && 0 <= fail
    requires n == produced + full + large + fail + open
    requires s.produced == produced % UINT64_LIMIT && s.queueFull == full % UINT32_LIMIT
    requires s.tooLarge == large % UINT64_LIMIT && s.fail == fail % UINT32_LIMIT
    ensures n % UINT32_LIMIT == (s.produced + s.queueFull + s.tooLarge + s.fail + open) % UINT32_LIMIT
    ensures n == s.produced + s.queueFull + s.tooLarge + s.fail + open <==>
      produced < UINT64_LIMIT && full < UINT32_LIMIT && large < UINT64_LIMIT && fail < UINT32_LIMIT
  {
    var a := Rounds64(produced);
    var b := Rounds32(full);
    var c := Rounds64(large);
    var d := Rounds32(fail);
    var rounds := a * 0x1_0000_0000 + b + c * 0x1_0000_0000 + d;
    var counted := s.produced + s.queueFull + s.tooLarge + s.fail + open;
    assert n == counted + rounds * 0x1_0000_0000;
    Shift32(counted, rounds);
  }

  lemma Rounds64(t: int) returns (k: int)
    requires 0 <= t
    ensures t == t % UINT64_LIMIT + k * 0x1_0000_0000_0000_0000 && k == t / UINT64_LIMIT
    ensures k >= 0 && (k == 0 <==> t < UINT64_LIMIT)
  {
    k := t / 0x1_0000_0000_0000_0000;
  }

  lemma Rounds32(t: int) returns (k: int)
    requires 0 <= t
    ensures t == t % UINT32_LIMIT + k * 0x1_0000_0000
    ensures k >= 0 && (k == 0 <==> t < UINT32_LIMIT)
  {
    k := t / 0x1_0000_0000;
  }

  lemma Shift32(t: int, k: int)
    ensures (t + k * 0x1_0000_0000) % 0x1_0000_0000 == t % 0x1_0000_0000
  {
    var q := t / 0x1_0000_0000;
    assert t + k * 0x1_0000_0000 == (q + k) * 0x1_0000_0000 + t % 0x1_0000_0000;
  }

  lemma Deliveries(produced: int, ahead: int, good: int, bad: int, flight: int, s: Stats)
    requires 0 <= produced && 0 <= good && 0 <= bad && produced + ahead == good + bad + flight
    requires s.produced == produced % UINT64_LIMIT
    requires s.callback == good % UINT64_LIMIT && s.callbackFail == bad % UINT64_LIMIT
    ensures (s.produced + ahead) % UINT64_LIMIT == (s.callback + s.callbackFail + flight) % UINT64_LIMIT
    ensures s.produced + ahead == s.callback + s.callbackFail + flight <==>
      Rounds(produced) == Rounds(good) + Rounds(bad)
  {
    var a := Rounds64(produced);
    var b := Rounds64(good);
    var c := Rounds64(bad);
    SumWraps(good, bad, flight);
    Wraps64(produced, ahead);
  }

  lemma CounterValues(l: Ledger)
    requires Inv(l)
    ensures l.stats.produced == Tally(Produced, l.messages) % UINT64_LIMIT
    ensures l.stats.producedBytes == Tally(Bytes, l.messages) % UINT64_LIMIT
    ensures l.stats.queueFull == Tally(Full, l.messages) % UINT32_LIMIT
    ensures l.stats.tooLarge == Tally(Large, l.messages) % UINT64_LIMIT
    ensures l.stats.fail == Tally(Fail, l.messages) % UINT32_LIMIT
    ensures l.stats.callback == Tally(Delivered, l.messages) % UINT64_LIMIT
    ensures l.stats.callbackFail == Tally(Undelivered, l.messages) % UINT64_LIMIT
    ensures l.stats.outputMessages == Tally(OutputMessages, l.messages) % UINT64_LIMIT
    ensures l.stats.outputBytes == Tally(OutputBytes, l.messages) % UINT64_LIMIT
  {
    hide Tally, MessageOk;
    assert Counts(l, Produced) && Counts(l, Bytes) && Counts(l, Full) && Counts(l, Large) && Counts(l, Fail);
    assert Counts(l, Delivered) && Counts(l, Undelivered) && Counts(l, OutputMessages) && Counts(l, OutputBytes);
  }

  lemma SumWraps(a: int, b: int, c: int)
    ensures (a % UINT64_LIMIT + b % UINT64_LIMIT + c) % UINT64_LIMIT == (a + b + c) % UINT64_LIMIT
  {
    Wraps64(a, b % UINT64_LIMIT + c);
    Wraps64(b, a + c);
  }

  /** All accepted messages have been counted by KafkaOutput. */
  ghost predicate AllOutput(ms: seq<Message>) {
    forall i :: 0 <= i < |ms| && Got(ms[i], NoError) ==> CountedByOutput(ms[i])
  }

  /** No message that KafkaOutput has counted is too large for the 32-bit Size. */
  ghost predicate OutputFits(ms: seq<Message>) {
    forall i :: 0 <= i < |ms| && CountedByOutput(ms[i]) ==> ms[i].size < UINT32_LIMIT
  }

  lemma OutputOne(m: Message)
    requires MessageOk(m)
    ensures Weigh(Produced, m) == Weigh(OutputMessages, m) + Weigh(Outside, m)
    ensures Weigh(Bytes, m) + Weigh(CutOff, m) == Weigh(OutputBytes, m) + Weigh(OutsideBytes, m)
    ensures Weigh(CutOff, m) == 0 <==> (CountedByOutput(m) ==> m.size < UINT32_LIMIT)
    ensures Weigh(Outside, m) == 0 <==> (Got(m, NoError) ==> CountedByOutput(m))
    ensures Weigh(Outside, m) == 0 ==> Weigh(OutsideBytes, m) == 0
    ensures 0 <= Weigh(CutOff, m) <= Weigh(OutputBytes, m) && 0 <= Weigh(Outside, m) && 0 <= Weigh(OutsideBytes, m)
  {
  }

  lemma {:induction false} OutputPartition(ms: seq<Message>)
    requires forall i :: 0 <= i < |ms| ==> MessageOk(ms[i])
    ensures Tally(Produced, ms) == Tally(OutputMessages, ms) + Tally(Outside, ms)
    ensures Tally(Bytes, ms) + Tally(CutOff, ms) == Tally(OutputBytes, ms) + Tally(OutsideBytes, ms)
    ensures 0 <= Tally(CutOff, ms) <= Tally(OutputBytes, ms) && (Tally(CutOff, ms) == 0 <==> OutputFits(ms))
    ensures 0 <= Tally(Outside, ms) && (Tally(Outside, ms) == 0 <==> AllOutput(ms))
    ensures 0 <= Tally(OutsideBytes, ms) && (Tally(Outside, ms) == 0 ==> Tally(OutsideBytes, ms) == 0)
  {
    hide Weigh, MessageOk;
    if ms != [] {
      var m, rest := ms[0], ms[1..];
      assert forall i :: 0 <= i < |rest| ==> rest[i] == ms[i + 1];
      assert forall i :: 0 < i < |ms| ==> ms[i] == rest[i - 1];
      OutputPartition(rest);
      OutputOne(m);
      hide Got, CountedByOutput;
    }
  }

  /**
    The global totals of KafkaOutput against the counters of the producer, over every run. `Outside` are
    the accepted messages that KafkaOutput has not counted: connection status messages, which do not go
    through it, and calls between their count and their return. `CutOff` is what the 32-bit Size cuts off
    the sizes of the others. The message counts agree plainly if nothing is outside, and the byte counts,
    with what is outside, exactly if no message that went through is too large for Size.
   */
  lemma OutputTotals(actions: seq<Action>)
    ensures var l := Run(EMPTY, actions);
            var s, ms := l.stats, l.messages;
            var outside, bytes, cut := Tally(Outside, ms), Tally(OutsideBytes, ms), Tally(CutOff, ms);
            && 0 <= outside && 0 <= bytes && 0 <= cut <= Tally(OutputBytes, ms)
            && (s.outputMessages + outside) % UINT64_LIMIT == s.produced
            && (s.outputMessages == s.produced <==> outside % UINT64_LIMIT == 0)
            && (outside == 0 <==> AllOutput(ms)) && (outside == 0 ==> bytes == 0)
            && (s.outputBytes + bytes) % UINT64_LIMIT == (s.producedBytes + cut) % UINT64_LIMIT
            && ((s.outputBytes + bytes) % UINT64_LIMIT == s.producedBytes <==> cut % UINT64_LIMIT == 0)
            && (cut == 0 <==> OutputFits(ms))
  {
    hide *;
    EmptyOk();
    RunKeeps(EMPTY, actions);
    OutputTotalsOf(Run(EMPTY, actions));
  }

  lemma OutputTotalsOf(l: Ledger)
    requires Inv(l)
    ensures var s, ms := l.stats, l.messages;
            var outside, bytes, cut := Tally(Outside, ms), Tally(OutsideBytes, ms), Tally(CutOff, ms);
            && 0 <= outside && 0 <= bytes && 0 <= cut <= Tally(OutputBytes, ms)
            && (s.outputMessages + outside) % UINT64_LIMIT == s.produced
            && (s.outputMessages == s.produced <==> outside % UINT64_LIMIT == 0)
            && (outside == 0 <==> AllOutput(ms)) && (outside == 0 ==> bytes == 0)
            && (s.outputBytes + bytes) % UINT64_LIMIT == (s.producedBytes + cut) % UINT64_LIMIT
            && ((s.outputBytes + bytes) % UINT64_LIMIT == s.producedBytes <==> cut % UINT64_LIMIT == 0)
            && (cut == 0 <==> OutputFits(ms))
  {
    hide *;
    var ms := l.messages;
    AllMessagesOk(l);
    CounterValues(l);
    OutputPartition(ms);
    MessagesAgree(Tally(OutputMessages, ms), Tally(Outside, ms), Tally(Produced, ms), l.stats.outputMessages,
                  l.stats.produced);
    BytesAgree(Tally(OutputBytes, ms), Tally(OutsideBytes, ms), Tally(Bytes, ms), Tally(CutOff, ms),
               l.stats.outputBytes, l.stats.producedBytes);
  }

  lemma AllMessagesOk(l: Ledger)
    requires Inv(l)
    ensures forall i :: 0 <= i < |l.messages| ==> MessageOk(l.messages[i])
  {
  }

  lemma MessagesAgree(a: int, b: int, c: int, x: int, y: int)
    requires a + b == c && x == a % UINT64_LIMIT && y == c % UINT64_LIMIT
    ensures (x + b) % UINT64_LIMIT == y && (x == y <==> b % UINT64_LIMIT == 0)
  {
    Wraps64(a, b);
    SameRest(a, c, b);
  }

  lemma BytesAgree(a: int, b: int, c: int, d: int, x: int, y: int)
    requires a + b == c + d && x == a % UINT64_LIMIT && y == c % UINT64_LIMIT
    ensures (x + b) % UINT64_LIMIT == (y + d) % UINT64_LIMIT
    ensures (x + b) % UINT64_LIMIT == y <==> d % UINT64_LIMIT == 0
  {
    Wraps64(a, b);
    Wraps64(c, d);
    SameRest(c, a + b, d);
  }

  lemma SameRest(a: int, b: int, d: int)
    requires a + d == b
    ensures a % UINT64_LIMIT == b % UINT64_LIMIT <==> d % UINT64_LIMIT == 0
  {
    var q, k := a / 0x1_0000_0000_0000_0000, b / 0x1_0000_0000_0000_0000;
    var e := d / 0x1_0000_0000_0000_0000;
    assert a == q * 0x1_0000_0000_0000_0000 + a % 0x1_0000_0000_0000_0000;
    assert b == k * 0x1_0000_0000_0000_0000 + b % 0x1_0000_0000_0000_0000;
    assert d == e * 0x1_0000_0000_0000_0000 + d % 0x1_0000_0000_0000_0000;
  }
}
