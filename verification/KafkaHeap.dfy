/**
  The objects of src/KafkaW and src/KafkaOutput.cpp, with messages that are really handed over and
  deleted, proved against the transition system of KafkaLedger.
 */
module KafkaHeap {
  import opened Basics
  import opened KafkaLedger

  /** A heap-allocated message. `frees` counts how often it was deleted. */
  class ProducerMessage {
    const size: int
    const toOutput: bool
    var frees: int

    constructor (size: int, toOutput: bool)
      ensures this.size == size && this.toOutput == toOutput && frees == 0
    {
      this.size, this.toOutput, frees := size, toOutput, 0;
    }

    method Delete()
      modifies this
      ensures frees == old(frees) + 1
    {
      frees := frees + 1;
    }
  }

  /** An event that a poll serves: the report on the message at this place of the library's queue. */
  datatype Delivery = Delivery(position: nat, ok: bool)

  /** The global totals of src/Forwarder.cpp. */
  class Totals {
    var messages: int
    var bytes: int

    constructor ()
      ensures messages == 0 && bytes == 0
    {
      messages, bytes := 0, 0;
    }
  }

  function Without(q: seq<ProducerMessage>, k: nat): (r: seq<ProducerMessage>)
    requires k < |q|
    ensures |r| == |q| - 1
  {
    q[..k] + q[k + 1..]
  }

  lemma WithoutOne(q: seq<ProducerMessage>, k: nat)
    requires k < |q| && Distinct(q)
    ensures Distinct(Without(q, k))
    ensures forall m :: m in Without(q, k) <==> m in q && m != q[k]
  {
    forall m ensures m in Without(q, k) <==> m in q && m != q[k] {
      if m in q && m != q[k] {
        var j :| 0 <= j < |q| && q[j] == m;
        assert m == Without(q, k)[if j < k then j else j - 1];
      }
      if m in Without(q, k) {
        var j :| 0 <= j < |Without(q, k)| && Without(q, k)[j] == m;
        assert m == q[if j < k then j else j + 1];
      }
    }
  }

  /** The messages, in the order in which they were made, and the library's queue are as the ledger says. */
  ghost predicate Shows(objects: seq<ProducerMessage>, queue: seq<ProducerMessage>, ms: seq<Message>)
    reads objects
  {
    && |objects| == |ms| && Distinct(objects) && Distinct(queue)
    && (forall i :: 0 <= i < |objects| ==>
          && objects[i].frees == ms[i].frees && objects[i].size == ms[i].size
          && objects[i].toOutput == ms[i].toOutput
          && (objects[i] in queue <==> ms[i].held))
    && forall k :: 0 <= k < |queue| ==> queue[k] in objects
  }

  /** The number of a message. */
  ghost function IndexOf(objects: seq<ProducerMessage>, m: ProducerMessage): (i: int)
    ensures m in objects ==> 0 <= i < |objects| && objects[i] == m
  {
    if objects == [] then 0 else if objects[0] == m then 0 else 1 + IndexOf(objects[1..], m)
  }

  /** The reports that the library makes for these events, and the queue after them. */
  ghost function ReportsFor(objects: seq<ProducerMessage>, queue: seq<ProducerMessage>, events: seq<Delivery>)
    : (r: (seq<Action>, seq<ProducerMessage>))
    decreases |events|
  {
    if events == [] then ([], queue)
    else if events[0].position < |queue| then
      var rest := ReportsFor(objects, Without(queue, events[0].position), events[1..]);
      ([Report(IndexOf(objects, queue[events[0].position]), events[0].ok)] + rest.0, rest.1)
    else ReportsFor(objects, queue, events[1..])
  }

  lemma {:induction false} ReportsForAre(objects: seq<ProducerMessage>, queue: seq<ProducerMessage>,
      events: seq<Delivery>)
    ensures var r := ReportsFor(objects, queue, events); Reports(r.0) && |r.0| + |r.1| == |queue|
    ensures events != [] && events[0].position < |queue| ==> ReportsFor(objects, queue, events).0 != []
    decreases |events|
  {
    hide Without;
    if events != [] {
      if events[0].position < |queue| {
        ReportsForAre(objects, Without(queue, events[0].position), events[1..]);
      } else {
        ReportsForAre(objects, queue, events[1..]);
      }
    }
  }

  /** The reports of several polls, which end when the queue is empty. */
  ghost function ReportsOfPolls(objects: seq<ProducerMessage>, queue: seq<ProducerMessage>,
      polls: seq<seq<Delivery>>): (r: (seq<Action>, seq<ProducerMessage>))
    decreases |polls|
  {
    if polls == [] || queue == [] then ([], queue) else
    var first := ReportsFor(objects, queue, polls[0]);
    var rest := ReportsOfPolls(objects, first.1, polls[1..]);
    (first.0 + rest.0, rest.1)
  }

  /** The polls empty the queue if every one serves a message and there are at least as many polls as messages. */
  lemma {:induction false} PollsEmpty(objects: seq<ProducerMessage>, queue: seq<ProducerMessage>,
      polls: seq<seq<Delivery>>)
    ensures Reports(ReportsOfPolls(objects, queue, polls).0)
    ensures |queue| <= |polls| && (forall i :: 0 <= i < |polls| ==> polls[i] != [] && polls[i][0].position == 0)
      ==> ReportsOfPolls(objects, queue, polls).1 == []
    decreases |polls|
  {
    hide ReportsFor;
    if polls != [] && queue != [] {
      ReportsForAre(objects, queue, polls[0]);
      assert forall i :: 0 <= i < |polls| - 1 ==> polls[1..][i] == polls[i + 1];
      PollsEmpty(objects, ReportsFor(objects, queue, polls[0]).1, polls[1..]);
    }
  }

  lemma OneByOne(objects: seq<ProducerMessage>, queue: seq<ProducerMessage>, poll: seq<Delivery>)
    requires queue != [] && |poll| == 1 && poll[0].position == 0
    ensures |ReportsFor(objects, queue, poll).1| == |queue| - 1
  {
    assert poll[1..] == [];
    hide Without;
  }

  /** Polls that serve one message each leave the rest. */
  lemma {:induction false} PollsOneByOne(objects: seq<ProducerMessage>, queue: seq<ProducerMessage>,
      polls: seq<seq<Delivery>>)
    requires forall i :: 0 <= i < |polls| ==> |polls[i]| == 1 && polls[i][0].position == 0
    ensures |ReportsOfPolls(objects, queue, polls).1| == if |queue| <= |polls| then 0 else |queue| - |polls|
    decreases |polls|
  {
    if polls != [] && queue != [] {
      OneByOne(objects, queue, polls[0]);
      hide ReportsFor;
      assert forall i :: 0 <= i < |polls| - 1 ==> polls[1..][i] == polls[i + 1];
      PollsOneByOne(objects, ReportsFor(objects, queue, polls[0]).1, polls[1..]);
    }
  }

  /** One event of a poll. */
  lemma ReportsStep(objects: seq<ProducerMessage>, queue: seq<ProducerMessage>, events: seq<Delivery>, i: int)
    requires 0 <= i < |events|
    ensures ReportsFor(objects, queue, events[i..]) ==
            if events[i].position < |queue| then
              var rest := ReportsFor(objects, Without(queue, events[i].position), events[i + 1..]);
              ([Report(IndexOf(objects, queue[events[i].position]), events[i].ok)] + rest.0, rest.1)
            else ReportsFor(objects, queue, events[i + 1..])
  {
    hide Without, IndexOf;
    assert events[i..][0] == events[i] && events[i..][1..] == events[i + 1..];
  }

  lemma ReportsEnd(objects: seq<ProducerMessage>, queue: seq<ProducerMessage>, actions: seq<Action>)
    ensures ReportsFor(objects, queue, []) == ([], queue) && actions + [] == actions && [] + actions == actions
  {
  }

  lemma QueuedIs(objects: seq<ProducerMessage>, queue: seq<ProducerMessage>, ms: seq<Message>, k: int)
    requires Shows(objects, queue, ms) && 0 <= k < |queue|
    ensures var id := IndexOf(objects, queue[k]); 0 <= id < |objects| && objects[id] == queue[k]
  {
  }

  ghost predicate Reports(actions: seq<Action>) {
    forall i :: 0 <= i < |actions| ==> actions[i].Report?
  }

  class Producer {
    /** What the library has accepted and not yet reported on. */
    var outQueue: seq<ProducerMessage>
    var produced: int
    var producedBytes: int
    var totalMessages: int
    var queueFull: int
    var tooLarge: int
    var fail: int
    var callback: int
    var callbackFail: int
    var pollServed: int
    var outQueueLength: int

    constructor ()
      ensures outQueue == [] && pollServed == 0 && outQueueLength == 0
      ensures produced == 0 && producedBytes == 0 && totalMessages == 0 && queueFull == 0 && tooLarge == 0 && fail == 0
      ensures callback == 0 && callbackFail == 0
    {
      outQueue := [];
      produced, producedBytes, totalMessages, queueFull, tooLarge, fail := 0, 0, 0, 0, 0, 0;
      callback, callbackFail, pollServed, outQueueLength := 0, 0, 0, 0;
    }

    ghost function Counters(totals: Totals): Stats
      reads this, totals
    {
      Stats(produced, producedBytes, totalMessages, queueFull, tooLarge, fail, callback, callbackFail,
            totals.messages, totals.bytes)
    }

    ghost predicate Models(objects: seq<ProducerMessage>, totals: Totals, l: Ledger)
      reads this, totals, objects
    {
      Shows(objects, outQueue, l.messages) && Counters(totals) == l.stats
    }

    /** The delivery callback: counts the report and deletes the message. */
    method DeliveryCallback(message: ProducerMessage, ok: bool)
      modifies `callback, `callbackFail, message
      ensures callback == if ok then Plus64(old(callback), 1) else old(callback)
      ensures callbackFail == if ok then old(callbackFail) else Plus64(old(callbackFail), 1)
      ensures message.frees == old(message.frees) + 1
    {
      if ok {
        callback := Plus64(callback, 1);
      } else {
        callbackFail := Plus64(callbackFail, 1);
      }
      message.Delete();
    }

    /** The library serves one event: it forgets a message and reports on it. */
    method Serve(d: Delivery, ghost id: int, ghost objects: seq<ProducerMessage>, ghost totals: Totals, ghost l: Ledger)
      requires Models(objects, totals, l)
      requires d.position < |outQueue| && 0 <= id < |objects| && objects[id] == outQueue[d.position]
      modifies this, objects
      ensures outQueue == Without(old(outQueue), d.position)
      ensures pollServed == old(pollServed) && outQueueLength == old(outQueueLength)
      ensures Models(objects, totals, DoReport(l, id, d.ok))
    {
      var message := outQueue[d.position];
      WithoutOne(outQueue, d.position);
      outQueue := Without(outQueue, d.position);
      hide Without, Plus64;
      DeliveryCallback(message, d.ok);
    }

    /** A poll of the library, which serves some events, each for a message that it has. */
    method LibraryPoll(events: seq<Delivery>, ghost objects: seq<ProducerMessage>, ghost totals: Totals,
        ghost l: Ledger)
      returns (served: nat, ghost actions: seq<Action>)
      requires Models(objects, totals, l)
      modifies this, objects
      ensures (actions, outQueue) == ReportsFor(objects, old(outQueue), events)
      ensures Models(objects, totals, Run(l, actions))
      ensures Reports(actions) && served == |actions|
      ensures pollServed == old(pollServed) && outQueueLength == old(outQueueLength)
    {
      hide Apply, Shows, Without, ReportsFor, IndexOf, Reports, DoReport, Run;
      ghost var queue := outQueue;
      served, actions := 0, [];
      var i := 0;
      RunNothing(l);
      ReportsEnd(objects, queue, ReportsFor(objects, queue, events).0);
      assert events[0..] == events;
      while i < |events|
        invariant 0 <= i <= |events|
        invariant Models(objects, totals, Run(l, actions))
        invariant Reports(actions) && served == |actions|
        invariant var later := ReportsFor(objects, outQueue, events[i..]);
                  ReportsFor(objects, queue, events) == (actions + later.0, later.1)
        invariant pollServed == old(pollServed) && outQueueLength == old(outQueueLength)
      {
        ReportsStep(objects, outQueue, events, i);
        if events[i].position < |outQueue| {
          QueuedIs(objects, outQueue, Run(l, actions).messages, events[i].position);
          ghost var id := IndexOf(objects, outQueue[events[i].position]);
          Serve(events[i], id, objects, totals, Run(l, actions));
          Regroup(actions, Report(id, events[i].ok), ReportsFor(objects, outQueue, events[i + 1..]).0);
          actions := NextReport(l, actions, id, events[i].ok);
          served := served + 1;
        }
        i := i + 1;
      }
      assert events[i..] == [];
      ReportsEnd(objects, outQueue, actions);
    }

    /** Producer::poll. */
    method Poll(events: seq<Delivery>, ghost objects: seq<ProducerMessage>, ghost totals: Totals, ghost l: Ledger)
      returns (ghost actions: seq<Action>)
      requires Models(objects, totals, l)
      modifies this, objects
      ensures (actions, outQueue) == ReportsFor(objects, old(outQueue), events)
      ensures Models(objects, totals, Run(l, actions))
      ensures pollServed == Plus64(old(pollServed), |actions|) && outQueueLength == |outQueue| % UINT32_LIMIT
    {
      hide Plus64, Apply, Shows, ReportsFor;
      var served;
      served, actions := LibraryPoll(events, objects, totals, l);
      pollServed := Plus64(pollServed, served);
      outQueueLength := |outQueue| % UINT32_LIMIT;
    }

    /**
      The destructor polls until the queue is empty, but no more than 80 times; `polls` are
      the events that the library serves. Of the messages whose calls have returned, it leaves
      undeleted exactly those that are still in the queue.
     */
    method Destroy(polls: seq<seq<Delivery>>, ghost objects: seq<ProducerMessage>, ghost totals: Totals,
        ghost l: Ledger)
      returns (ghost reports: seq<Action>)
      requires Models(objects, totals, l) && Inv(l) && |polls| == 80
      modifies this, objects
      ensures (reports, outQueue) == ReportsOfPolls(objects, old(outQueue), polls)
      ensures Models(objects, totals, Run(l, reports)) && Inv(Run(l, reports))
      ensures forall i :: 0 <= i < |objects| && Run(l, reports).messages[i].call.Returned? ==>
        objects[i].frees == if objects[i] in outQueue then 0 else 1
      ensures (forall i :: 0 <= i < |polls| ==> |polls[i]| == 1 && polls[i][0].position == 0) ==>
        |outQueue| == if |old(outQueue)| <= 80 then 0 else |old(outQueue)| - 80
    {
      hide Apply, Distinct, Inv, ReportsFor;
      if forall i :: 0 <= i < |polls| ==> |polls[i]| == 1 && polls[i][0].position == 0 {
        PollsOneByOne(objects, outQueue, polls);
      }
      ghost var queue := outQueue;
      reports := [];
      RunNothing(l);
      var i := 0;
      assert polls[0..] == polls && reports + ReportsOfPolls(objects, queue, polls).0 == ReportsOfPolls(objects,
          queue, polls).0;
      while i < 80
        invariant 0 <= i <= 80
        invariant Models(objects, totals, Run(l, reports))
        invariant var later := ReportsOfPolls(objects, outQueue, polls[i..]);
                  ReportsOfPolls(objects, queue, polls) == (reports + later.0, later.1)
      {
        if |outQueue| == 0 {
          break;
        }
        assert polls[i..][0] == polls[i] && polls[i..][1..] == polls[i + 1..];
        var served;
        ghost var more;
        served, more := LibraryPoll(polls[i], objects, totals, Run(l, reports));
        RunConcat(l, reports, more);
        RegroupAll(reports, more, ReportsOfPolls(objects, outQueue, polls[i + 1..]).0);
        reports := reports + more;
        i := i + 1;
      }
      assert reports + [] == reports;
      RunKeeps(l, reports);
      forall k | 0 <= k < |objects| && Run(l, reports).messages[k].call.Returned?
        ensures objects[k].frees == if objects[k] in outQueue then 0 else 1
      {
        DeletedOrQueued(objects, outQueue, Run(l, reports), k);
      }
    }
  }

  lemma Regroup(a: seq<Action>, x: Action, b: seq<Action>)
    ensures a + ([x] + b) == a + [x] + b
  {
  }

  lemma RegroupAll(a: seq<Action>, b: seq<Action>, c: seq<Action>)
    ensures a + (b + c) == a + b + c
  {
  }

  lemma RunNothing(l: Ledger)
    ensures Run(l, []) == l && Reports([])
  {
  }

  /** Reports leave a message alone that the library does not have. */
  lemma {:induction false} ReportsLeave(l: Ledger, actions: seq<Action>, id: int)
    requires Reports(actions) && 0 <= id < |l.messages| && !l.messages[id].held
    ensures var t := Run(l, actions); |t.messages| == |l.messages| && t.messages[id] == l.messages[id]
  {
    if actions != [] {
      var before := actions[..|actions| - 1];
      assert forall i :: 0 <= i < |before| ==> before[i] == actions[i];
      ReportsLeave(l, before, id);
      assert actions[|actions| - 1].Report?;
    }
  }

  /** Once its call has returned, a message has been deleted unless it is still in the queue. */
  lemma DeletedOrQueued(objects: seq<ProducerMessage>, queue: seq<ProducerMessage>, l: Ledger, i: int)
    requires Shows(objects, queue, l.messages) && Inv(l) && 0 <= i < |objects| && l.messages[i].call.Returned?
    ensures objects[i].frees == if objects[i] in queue then 0 else 1
  {
    assert MessageOk(l.messages[i]);
  }

  lemma NextReport(l: Ledger, actions: seq<Action>, id: int, ok: bool) returns (more: seq<Action>)
    requires Reports(actions)
    ensures more == actions + [Report(id, ok)] && Reports(more)
    ensures Run(l, more) == DoReport(Run(l, actions), id, ok)
  {
    more := actions + [Report(id, ok)];
    RunConcat(l, actions, [Report(id, ok)]);
    RunOne(Run(l, actions), Report(id, ok));
  }

  class ProducerTopic {
    const kafkaProducer: Producer

    constructor (producer: Producer)
      ensures kafkaProducer == producer
    {
      kafkaProducer := producer;
    }

    /** Producer::produce: the library may take the message. */
    method Offer(message: ProducerMessage, code: Code, ghost id: int,
                 ghost objects: seq<ProducerMessage>, ghost totals: Totals, ghost l: Ledger)
      requires kafkaProducer.Models(objects, totals, l)
      requires 0 <= id < |objects| && objects[id] == message && l.messages[id].call == Made && !l.messages[id].held
      modifies kafkaProducer`outQueue
      ensures kafkaProducer.Models(objects, totals, DoOffer(l, id, code))
    {
      if code == NoError {
        ghost var queue := kafkaProducer.outQueue;
        kafkaProducer.outQueue := kafkaProducer.outQueue + [message];
        assert message !in queue;
      }
    }

    /** The switch of ProducerTopic::produce over the library's answer. */
    method Count(message: ProducerMessage, code: Code, ghost id: int,
                 ghost objects: seq<ProducerMessage>, ghost totals: Totals, ghost l: Ledger)
      returns (r: int)
      requires kafkaProducer.Models(objects, totals, l)
      requires 0 <= id < |objects| && objects[id] == message && l.messages[id].call == Answered(code)
      requires 0 <= message.size < UINT64_LIMIT
      modifies kafkaProducer
      ensures r == if code == NoError then 0 else 1
      ensures kafkaProducer.Models(objects, totals, DoSettle(l, id))
    {
      match code {
        case NoError =>
          kafkaProducer.produced := Plus64(kafkaProducer.produced, 1);
          kafkaProducer.producedBytes := Plus64(kafkaProducer.producedBytes, message.size % UINT32_LIMIT);
          kafkaProducer.totalMessages := Plus64(kafkaProducer.totalMessages, 1);
          return 0;
        case QueueFull =>
          kafkaProducer.queueFull := Count32(kafkaProducer.queueFull);
        case TooLarge =>
          kafkaProducer.tooLarge := Plus64(kafkaProducer.tooLarge, 1);
        case OtherError =>
          kafkaProducer.fail := Count32(kafkaProducer.fail);
      }
      return 1;
    }

    /**
      ProducerTopic::produce, which polls first. What is left in the caller's unique_ptr is null
      exactly if the library took the message.
     */
    method Produce(message: ProducerMessage, code: Code, events: seq<Delivery>, ghost id: int,
                   ghost objects: seq<ProducerMessage>, ghost totals: Totals, ghost l: Ledger)
      returns (r: int, left: ProducerMessage?, ghost reports: seq<Action>)
      requires kafkaProducer.Models(objects, totals, l) && 0 <= message.size < UINT64_LIMIT
      requires 0 <= id < |objects| && objects[id] == message && l.messages[id].call == Made && !l.messages[id].held
      modifies kafkaProducer, objects
      ensures r == (if code == NoError then 0 else 1) && left == if code == NoError then null else message
      ensures reports == ReportsFor(objects, old(kafkaProducer.outQueue), events).0
      ensures var t := Run(l, reports + [Action.Offer(id, code), Settle(id)]);
              && kafkaProducer.Models(objects, totals, t)
              && |t.messages| == |l.messages| && t.messages[id].call == Counted(code)
              && t.messages[id].owned == (l.messages[id].owned && code != NoError)
    {
      assert |objects| == |l.messages|;
      hide Apply, Shows, ReportsFor;
      var served;
      served, reports := kafkaProducer.LibraryPoll(events, objects, totals, l);
      ReportsLeave(l, reports, id);
      Offer(message, code, id, objects, totals, Run(l, reports));
      OfferAnswers(Run(l, reports), id, code);
      r := Count(message, code, id, objects, totals, DoOffer(Run(l, reports), id, code));
      left := if code == NoError then null else message;
      OfferAndSettle(l, reports, id, code);
      Settles(Run(l, reports), id, code);
    }

    /** The overloads of `produce` that copy their data into a message of their own. */
    method ProduceData(size: int, code: Code, events: seq<Delivery>,
                       ghost objects: seq<ProducerMessage>, ghost totals: Totals, ghost l: Ledger)
      returns (r: int, ghost made: ProducerMessage, ghost actions: seq<Action>)
      requires kafkaProducer.Models(objects, totals, l) && 0 <= size < UINT64_LIMIT
      modifies kafkaProducer, objects
      ensures fresh(made) && r == if code == NoError then 0 else 1
      ensures kafkaProducer.Models(objects + [made], totals, Run(l, actions))
      ensures var id := |objects|;
              actions == [Make(size, false)] + (ReportsFor(objects + [made], old(kafkaProducer.outQueue), events).0
                           + [Action.Offer(id, code), Settle(id), Finish(id)])
    {
      var message := new ProducerMessage(size, false);
      made := message;
      ghost var id, t := |objects|, DoMake(l, size, false);
      hide Apply, Shows, ReportsFor, DoMake, DoFinish, Run;
      MakeShows(objects, kafkaProducer.outQueue, l, message);
      var left;
      ghost var reports;
      r, left, reports := Produce(message, code, events, id, objects + [message], totals, t);
      ghost var before := reports + [Action.Offer(id, code), Settle(id)];
      FinishPlain(left, message, code, id, objects + [message], totals, Run(t, before));
      actions := WholeRun(l, size, reports, id, code);
    }

    /** The end of the unique_ptr of those overloads, which deletes what is left in it. */
    method FinishPlain(left: ProducerMessage?, message: ProducerMessage, code: Code, ghost id: int,
                       ghost objects: seq<ProducerMessage>, ghost totals: Totals, ghost l: Ledger)
      requires kafkaProducer.Models(objects, totals, l) && !message.toOutput
      requires 0 <= id < |objects| && objects[id] == message && l.messages[id].call == Counted(code)
      requires (left == null) == (code == NoError) && (left != null ==> left == message)
      requires l.messages[id].owned == (code != NoError)
      modifies message
      ensures kafkaProducer.Models(objects, totals, DoFinish(l, id))
    {
      if left != null {
        left.Delete();
      }
    }
  }

  lemma MakeShows(objects: seq<ProducerMessage>, queue: seq<ProducerMessage>, l: Ledger, m: ProducerMessage)
    requires Shows(objects, queue, l.messages) && 0 <= m.size < UINT64_LIMIT
    requires m !in objects && m.frees == 0 && !m.toOutput
    ensures var t := DoMake(l, m.size, false);
            && Shows(objects + [m], queue, t.messages) && t.stats == l.stats
            && |objects| == |l.messages| && |t.messages| == |l.messages| + 1
            && t.messages[|l.messages|].call == Made && !t.messages[|l.messages|].held && t.messages[|l.messages|].owned
  {
    assert m !in queue;
  }

  lemma RunMake(l: Ledger, size: int)
    ensures Run(l, [Make(size, false)]) == DoMake(l, size, false)
  {
    RunOne(l, Make(size, false));
  }

  lemma RunFinish(l: Ledger, before: seq<Action>, id: int)
    ensures Run(l, before + [Finish(id)]) == DoFinish(Run(l, before), id)
  {
    RunConcat(l, before, [Finish(id)]);
    RunOne(Run(l, before), Finish(id));
  }

  /** The whole life of a copied message as one run. */
  lemma WholeRun(l: Ledger, size: int, reports: seq<Action>, id: int, code: Code) returns (actions: seq<Action>)
    ensures actions == [Make(size, false)] + (reports + [Offer(id, code), Settle(id), Finish(id)])
    ensures Run(l, actions) == DoFinish(Run(DoMake(l, size, false), reports + [Offer(id, code), Settle(id)]), id)
  {
    hide *;
    var rest := reports + [Offer(id, code), Settle(id), Finish(id)];
    actions := [Make(size, false)] + rest;
    RunConcat(l, [Make(size, false)], rest);
    RunMake(l, size);
    assert rest == reports + [Offer(id, code), Settle(id)] + [Finish(id)];
    RunFinish(DoMake(l, size, false), reports + [Offer(id, code), Settle(id)], id);
  }

  lemma OfferAnswers(l: Ledger, id: int, code: Code)
    requires 0 <= id < |l.messages| && l.messages[id].call == Made
    ensures |DoOffer(l, id, code).messages| == |l.messages| && DoOffer(l, id, code).messages[id].call == Answered(code)
  {
  }

  lemma OfferAndSettle(l: Ledger, reports: seq<Action>, id: int, code: Code)
    ensures Run(l, reports + [Offer(id, code), Settle(id)]) == DoSettle(DoOffer(Run(l, reports), id, code), id)
  {
    var all := reports + [Offer(id, code), Settle(id)];
    var most := all[..|all| - 1];
    assert most == reports + [Offer(id, code)] && most[..|most| - 1] == reports;
    hide DoOffer, DoSettle;
    assert Run(l, most) == DoOffer(Run(l, reports), id, code);
  }

  lemma Settles(l: Ledger, id: int, code: Code)
    requires 0 <= id < |l.messages| && l.messages[id].call == Made
    ensures var t := DoSettle(DoOffer(l, id, code), id);
            && |t.messages| == |l.messages|
            && t.messages[id].call == Counted(code) && t.messages[id].owned == (l.messages[id].owned && code != NoError)
  {
    hide Settled;
  }

  class KafkaOutput {
    const output: ProducerTopic

    constructor (topic: ProducerTopic)
      ensures output == topic
    {
      output := topic;
    }

    /** The end of `emit`: the global totals, and the unique_ptr that deletes what is left in it. */
    method Finish(left: ProducerMessage?, message: ProducerMessage, size: int, totals: Totals, code: Code,
        ghost id: int,
                  ghost objects: seq<ProducerMessage>, ghost l: Ledger)
      requires output.kafkaProducer.Models(objects, totals, l) && message.toOutput
          && message.size == size
      requires 0 <= id < |objects| && objects[id] == message && l.messages[id].call == Counted(code)
      requires (left == null) == (code == NoError) && (left != null ==> left == message)
      requires l.messages[id].owned == (code != NoError)
      modifies totals, message
      ensures output.kafkaProducer.Models(objects, totals, DoFinish(l, id))
    {
      if code == NoError {
        totals.messages := Plus64(totals.messages, 1);
        totals.bytes := Plus64(totals.bytes, size);
      }
      if left != null {
        left.Delete();
      }
    }

    /** `emit`: an empty flat buffer is refused, anything else is produced and deleted or handed over. */
    method Emit(message: ProducerMessage?, totals: Totals, code: Code, events: seq<Delivery>, ghost id: int,
                ghost objects: seq<ProducerMessage>, ghost l: Ledger)
      returns (x: int, ghost actions: seq<Action>)
      requires output.kafkaProducer.Models(objects, totals, l)
      requires message != null ==>
        && message.toOutput && 0 <= message.size < UINT64_LIMIT && 0 <= id < |objects| && objects[id] == message
        && l.messages[id].call == Made && !l.messages[id].held && l.messages[id].owned
      modifies output.kafkaProducer, objects, totals
      ensures x == if message == null then -1024 else if code == NoError then 0 else 1
      ensures output.kafkaProducer.Models(objects, totals, Run(l, actions))
      ensures actions == if message == null then []
                         else ReportsFor(objects, old(output.kafkaProducer.outQueue), events).0
                              + [Action.Offer(id, code), Settle(id), Action.Finish(id)]
    {
      hide Apply, Shows, ReportsFor;
      if message == null {
        return -1024, [];
      }
      var r, left;
      ghost var reports;
      r, left, reports := output.Produce(message, code, events, id, objects, totals, l);
      ghost var before := reports + [Action.Offer(id, code), Settle(id)];
      Finish(left, message, message.size, totals, code, id, objects, Run(l, before));
      x := r;
      RunFinish(l, before, id);
      actions := before + [Action.Finish(id)];
      assert actions == reports + [Action.Offer(id, code), Settle(id), Action.Finish(id)];
    }
  }
}
