/**
  The objects of src/Stream.cpp and src/ConversionWorker.cpp with their loops, proved against
  the pure specification of module Batches.
 */
module ConversionHeap {
  import opened Basics
  import opened Batches
  import opened Rotation

  class ConversionPath {
    const topic: string
    const schema: string
    var transit: uint32
    /** The updates handed to `emit`, in call order. */
    var emitted: seq<UpdateId>

    constructor (topic: string, schema: string)
      ensures this.topic == topic && this.schema == schema
      ensures transit == 0 && emitted == []
    {
      this.topic, this.schema := topic, schema;
      transit, emitted := 0, [];
    }

    method Emit(update: UpdateId)
      modifies this`emitted
      ensures emitted == old(emitted) + [update]
    {
      emitted := emitted + [update];
    }
  }

  class ConversionWorkPacket {
    const path: ConversionPath
    const update: UpdateId
    var stream: Stream?

    constructor (path: ConversionPath, update: UpdateId)
      ensures this.path == path && this.update == update && stream == null
    {
      this.path, this.update, stream := path, update, null;
    }

    /** The destructor: a marked packet takes its mark off the path's counter. */
    method Destroy()
      modifies path`transit
      ensures path.transit == Minus32(old(path.transit), if stream != null then 1 else 0)
    {
      if stream != null {
        path.transit := Minus32(path.transit, 1);
      }
    }
  }

  /** `items` are packet objects with the values `ps`. */
  ghost predicate Shows(items: seq<ConversionWorkPacket>, ps: seq<Packet<ConversionPath>>)
    reads items
  {
    && |items| == |ps|
    && forall i :: 0 <= i < |items| ==>
         items[i].path == ps[i].path && items[i].update == ps[i].update && (items[i].stream != null) == ps[i].marked
  }

  /** `added` are the unmarked packets of `us`, and `last` those of its last update. */
  ghost predicate Collected(paths: seq<ConversionPath>, us: seq<UpdateId>,
                            added: seq<ConversionWorkPacket>, last: seq<ConversionWorkPacket>)
    reads added
  {
    && Distinct(added)
    && Shows(added, Plain(paths, us))
    && (us != [] ==> |last| == |paths| <= |added| && last == added[|added| - |last|..])
  }

  /** What Shows says of all but the marks. */
  ghost predicate SameContents(items: seq<ConversionWorkPacket>, ps: seq<Packet<ConversionPath>>) {
    |items| == |ps| && forall i :: 0 <= i < |items| ==> items[i].path == ps[i].path && items[i].update == ps[i].update
  }

  /** The latest fan ends the packets, one packet for each path, and nothing before it is marked. */
  lemma LastFan(paths: seq<ConversionPath>, us: seq<UpdateId>, added: seq<ConversionWorkPacket>,
      last: seq<ConversionWorkPacket>)
    requires Collected(paths, us, added, last) && added != []
    ensures us != [] && Distinct(added) && SameContents(added, Plain(paths, us))
    ensures |last| == |paths| <= |added| && last == added[|added| - |last|..]
    ensures forall i :: 0 <= i < |last| ==> last[i].path == paths[i]
    ensures forall i :: 0 <= i < |added| - |last| ==> added[i].stream == null
  {
    PlainEnd(paths, us);
    hide Plain, Distinct;
    forall i | 0 <= i < |last| ensures last[i].path == paths[i] {
      LastAt(added, |added| - |last|, i);
    }
  }

  lemma LastAt(added: seq<ConversionWorkPacket>, k: int, i: int)
    requires 0 <= k <= k + i < |added|
    ensures added[k..][i] == added[k + i]
  {
  }

  /** The end of a list of different packets, and what comes before it. */
  lemma DistinctEnd(added: seq<ConversionWorkPacket>, k: int)
    requires Distinct(added) && 0 <= k <= |added|
    ensures Distinct(added[k..])
    ensures forall i :: 0 <= i < k ==> added[i] !in added[k..]
  {
  }

  /** No packet is marked yet, and the end is one packet for each path. */
  lemma PlainEnd(paths: seq<ConversionPath>, us: seq<UpdateId>)
    ensures us == [] ==> Plain(paths, us) == []
    ensures forall i :: 0 <= i < |Plain(paths, us)| ==> !Plain(paths, us)[i].marked
    ensures us != [] ==>
      var k := |Plain(paths, us)| - |paths|;
      && 0 <= k && forall i :: 0 <= i < |paths| ==> Plain(paths, us)[k + i].path == paths[i]
  {
    if us != [] {
      PlainEnd(paths, us[..|us| - 1]);
    }
  }

  /** Marking the end of the packets makes a batch of them. */
  lemma BatchEnd(paths: seq<ConversionPath>, us: seq<UpdateId>)
    requires us != []
    ensures var k := |Plain(paths, us)| - |paths|;
            && 0 <= k && |Batch(paths, us)| == |Plain(paths, us)|
            && forall i :: 0 <= i < |Plain(paths, us)| ==>
                 Batch(paths, us)[i] == Plain(paths, us)[i].(marked := i >= k)
  {
    var front := Plain(paths, us[..|us| - 1]);
    PlainEnd(paths, us[..|us| - 1]);
    assert Plain(paths, us) == front + Fan(paths, us[|us| - 1], false);
    assert Batch(paths, us) == front + Fan(paths, us[|us| - 1], true);
    hide Plain, Batch;
  }

  /** With the end of its packets marked, the list shows the batch. */
  lemma MarkedBatch(paths: seq<ConversionPath>, us: seq<UpdateId>, added: seq<ConversionWorkPacket>)
    requires us != [] && SameContents(added, Plain(paths, us)) && |paths| <= |added|
    requires forall i :: 0 <= i < |added| ==> (added[i].stream != null <==> i >= |added| - |paths|)
    ensures Shows(added, Batch(paths, us))
  {
    hide Plain, Batch;
    BatchEnd(paths, us);
  }

  lemma NothingQueued(paths: seq<ConversionPath>, us: seq<UpdateId>, added: seq<ConversionWorkPacket>,
      last: seq<ConversionWorkPacket>)
    requires Collected(paths, us, added, last) && added == []
    ensures Shows(added, Batch(paths, us)) && (us == [] || paths == [])
  {
  }

  lemma NothingCollected(paths: seq<ConversionPath>)
    ensures Collected(paths, [], [], [])
  {
  }

  lemma CollectNull(paths: seq<ConversionPath>, us: seq<UpdateId>, added: seq<ConversionWorkPacket>,
      last: seq<ConversionWorkPacket>)
    requires Collected(paths, us, added, last)
    ensures Collected(paths, Join(us, None), added + [], last)
  {
    assert added + [] == added;
  }

  lemma CollectFan(paths: seq<ConversionPath>, us: seq<UpdateId>, u: UpdateId,
                   added: seq<ConversionWorkPacket>, last: seq<ConversionWorkPacket>, fan: seq<ConversionWorkPacket>)
    requires Collected(paths, us, added, last)
    requires Distinct(fan) && Shows(fan, Fan(paths, u, false))
    requires forall i, j :: 0 <= i < |added| && 0 <= j < |fan| ==> added[i] != fan[j]
    ensures Collected(paths, Join(us, Some(u)), added + fan, fan)
  {
    assert (us + [u])[..|us|] == us;
    assert Plain(paths, us + [u]) == Plain(paths, us) + Fan(paths, u, false);
    ShowsAppend(added, Plain(paths, us), fan, Fan(paths, u, false));
    hide Plain, Fan, Shows;
  }

  /** A FIFO queue of packets with one producer and one consumer. */
  class PacketQueue {
    var items: seq<ConversionWorkPacket>

    constructor ()
      ensures items == []
    {
      items := [];
    }

    method Enqueue(packet: ConversionWorkPacket)
      modifies this
      ensures items == old(items) + [packet]
    {
      items := items + [packet];
    }

    method TryDequeue() returns (packet: Option<ConversionWorkPacket>)
      modifies this
      ensures old(items) == [] ==> packet == None && items == []
      ensures old(items) != [] ==> packet == Some(old(items)[0]) && items == old(items)[1..]
    {
      if items == [] {
        packet := None;
      } else {
        packet := Some(items[0]);
        items := items[1..];
      }
    }
  }

  class Stream {
    var conversionPaths: seq<ConversionPath>
    var outputQueue: seq<Option<UpdateId>>

    /** No two paths of a stream have both the same topic and the same schema. */
    ghost predicate Valid()
      reads this`conversionPaths
    {
      forall i, j :: 0 <= i < j < |conversionPaths| ==>
        !(conversionPaths[i].topic == conversionPaths[j].topic &&
          conversionPaths[i].schema == conversionPaths[j].schema)
    }

    ghost function State(): (s: StreamState<ConversionPath>)
      reads this
    {
      StreamState(outputQueue, conversionPaths)
    }

    constructor ()
      ensures Valid() && conversionPaths == [] && outputQueue == []
    {
      conversionPaths, outputQueue := [], [];
    }

    /** Rejects a path whose topic and schema another path of this stream already has. */
    method AddConverter(path: ConversionPath) returns (code: int)
      requires Valid()
      modifies this`conversionPaths
      ensures Valid()
      ensures code == 0 <==> forall p :: p in old(conversionPaths) ==> p.topic != path.topic || p.schema != path.schema
      ensures code == 0 ==> conversionPaths == old(conversionPaths) + [path]
      ensures code != 0 ==> code == 1 && conversionPaths == old(conversionPaths)
    {
      var i := 0;
      while i < |conversionPaths|
        invariant 0 <= i <= |conversionPaths|
        invariant forall p :: p in conversionPaths[..i] ==> p.topic != path.topic || p.schema != path.schema
      {
        if conversionPaths[i].topic == path.topic && conversionPaths[i].schema == path.schema {
          return 1;
        }
        i := i + 1;
      }
      assert conversionPaths[..i] == conversionPaths;
      conversionPaths := conversionPaths + [path];
      return 0;
    }

    /** The inner loop: one packet per path for one update. */
    method FanOut(queue: PacketQueue, update: UpdateId) returns (last: seq<ConversionWorkPacket>)
      modifies queue
      ensures queue.items == old(queue.items) + last
      ensures forall i :: 0 <= i < |last| ==> fresh(last[i])
      ensures Distinct(last) && Shows(last, Fan(conversionPaths, update, false))
    {
      last := [];
      var id := 0;
      while id < |conversionPaths|
        invariant 0 <= id <= |conversionPaths| && |last| == id
        invariant queue.items == old(queue.items) + last
        invariant forall i :: 0 <= i < |last| ==> fresh(last[i])
        invariant Distinct(last) && Shows(last, Fan(conversionPaths, update, false)[..id])
      {
        var packet := new ConversionWorkPacket(conversionPaths[id], update);
        last := last + [packet];
        queue.Enqueue(packet);
        id := id + 1;
      }
    }

    /** The closing loop: marks the last packet of every path and counts the mark. */
    method MarkLast(last: seq<ConversionWorkPacket>)
      requires Valid() && |last| == |conversionPaths| && Distinct(last)
      requires forall i :: 0 <= i < |last| ==> last[i].path == conversionPaths[i]
      modifies last, conversionPaths`transit
      ensures forall i :: 0 <= i < |last| ==> last[i].stream == this
      ensures forall p :: p in conversionPaths ==> p.transit == Plus32(old(p.transit), 1)
    {
      var i := 0;
      while i < |conversionPaths|
        invariant 0 <= i <= |conversionPaths|
        invariant forall k :: 0 <= k < i ==> last[k].stream == this
        invariant forall k :: 0 <= k < i ==> conversionPaths[k].transit == Plus32(old(conversionPaths[k].transit), 1)
        invariant forall k :: i <= k < |conversionPaths| ==>
          conversionPaths[k].transit == old(conversionPaths[k].transit)
      {
        last[i].stream := this;
        conversionPaths[i].transit := Plus32(conversionPaths[i].transit, 1);
        i := i + 1;
      }
    }

    /** The body of the outer loop: takes one queue entry and fans it out unless it is null. */
    method TakeOne(queue: PacketQueue, last: seq<ConversionWorkPacket>, ghost us: seq<UpdateId>,
                   ghost added: seq<ConversionWorkPacket>)
      returns (numNew: nat, last': seq<ConversionWorkPacket>, ghost new': seq<ConversionWorkPacket>)
      requires outputQueue != [] && Collected(conversionPaths, us, added, last)
      modifies this`outputQueue, queue
      ensures outputQueue == old(outputQueue)[1..]
      ensures queue.items == old(queue.items) + new'
      ensures numNew == |new'| == if old(outputQueue)[0].Some? then |conversionPaths| else 0
      ensures forall i :: 0 <= i < |new'| ==> fresh(new'[i])
      ensures Collected(conversionPaths, Join(us, old(outputQueue)[0]), added + new', last')
    {
      hide Collected, Join, Plain, Fan, Distinct;
      var update := outputQueue[0];
      outputQueue := outputQueue[1..];
      if update.None? {
        CollectNull(conversionPaths, us, added, last);
        return 0, last, [];
      }
      last' := FanOut(queue, update.value);
      CollectFan(conversionPaths, us, update.value, added, last, last');
      return |last'|, last', last';
    }

    /**
      The outer loop: dequeues while another full fan fits, skips null updates and fans out the
      others. `last` holds the packets of the latest fan.
     */
    method Collect(queue: PacketQueue, snapshot: nat, max: nat)
      returns (numQueued: nat, last: seq<ConversionWorkPacket>, ghost added: seq<ConversionWorkPacket>)
      modifies this`outputQueue, queue
      ensures var taken := Take(old(outputQueue), |conversionPaths|, snapshot, max);
              outputQueue == taken.1 && Collected(conversionPaths, taken.0, added, last)
      ensures numQueued == |added| <= max
      ensures queue.items == old(queue.items) + added
      ensures forall i :: 0 <= i < |added| ==> fresh(added[i])
    {
      hide Collected, Take;
      NothingCollected(conversionPaths);
      var numDequeued: nat := 0;
      numQueued, last, added := 0, [], [];
      ghost var us: seq<UpdateId> := [];
      ghost var taken := Take(outputQueue, |conversionPaths|, snapshot, max);
      while numDequeued < snapshot && max - numQueued >= |conversionPaths|
        invariant numDequeued <= snapshot
        invariant numQueued == |added| <= max
        invariant var later := Take(outputQueue, |conversionPaths|, snapshot - numDequeued, max - numQueued);
                  taken.0 == us + later.0 && taken.1 == later.1
        invariant queue.items == old(queue.items) + added
        invariant forall i :: 0 <= i < |added| ==> fresh(added[i])
        invariant Collected(conversionPaths, us, added, last)
      {
        if outputQueue == [] {
          break;
        }
        ghost var update := outputQueue[0];
        assert outputQueue == [update] + outputQueue[1..];
        var numNew, next;
        ghost var new';
        numNew, next, new' := TakeOne(queue, last, us, added);
        TakeStep(us, update, outputQueue, |conversionPaths|, snapshot - numDequeued, max - |added|);
        us := Join(us, update);
        added, last, numQueued := added + new', next, numQueued + numNew;
        numDequeued := numDequeued + 1;
      }
      TakeStop(us, outputQueue, |conversionPaths|, snapshot - numDequeued, max - numQueued);
    }

    /** Marks the packets of the latest fan, if there is one, which makes the packets a batch. */
    method Close(numQueued: nat, last: seq<ConversionWorkPacket>, ghost added: seq<ConversionWorkPacket>,
                 ghost us: seq<UpdateId>)
      requires Valid() && Collected(conversionPaths, us, added, last)
      requires numQueued == |added|
      modifies added, conversionPaths`transit
      ensures Shows(added, Batch(conversionPaths, us))
      ensures forall p :: p in conversionPaths ==> p.transit == if us == [] then old(p.transit)
          else Plus32(old(p.transit), 1)
    {
      hide Collected, Shows, Plain, Batch, Distinct;
      if numQueued > 0 {
        LastFan(conversionPaths, us, added, last);
        DistinctEnd(added, |added| - |last|);
        MarkLast(last);
        forall i | 0 <= i < |added| ensures added[i].stream != null <==> i >= |added| - |last| {
          if i >= |added| - |last| {
            LastAt(added, |added| - |last|, i - (|added| - |last|));
          }
        }
        MarkedBatch(conversionPaths, us, added);
      } else {
        NothingQueued(conversionPaths, us, added, last);
      }
    }

    /**
      Takes the longest affordable prefix of the queue and appends its product with the paths.
      `snapshot` is the queue size read at the start, which the queue library only approximates.
     */
    method FillConversionQueue(queue: PacketQueue, snapshot: nat, max: nat)
      returns (numQueued: nat, ghost added: seq<ConversionWorkPacket>)
      requires Valid()
      modifies this`outputQueue, queue, conversionPaths`transit
      ensures Valid()
      ensures var n := Taken(old(outputQueue), |conversionPaths|, snapshot, max);
              var us := Present(old(outputQueue)[..n]);
              && outputQueue == old(outputQueue)[n..]
              && Shows(added, Batch(conversionPaths, us))
              && numQueued == |us| * |conversionPaths| <= max
              && forall p :: p in conversionPaths ==> p.transit == if us == [] then old(p.transit)
                  else Plus32(old(p.transit), 1)
      ensures queue.items == old(queue.items) + added
      ensures forall i :: 0 <= i < |added| ==> fresh(added[i])
    {
      ghost var q := outputQueue;
      ghost var us := Present(q[..Taken(q, |conversionPaths|, snapshot, max)]);
      TakeIsPrefix(q, |conversionPaths|, snapshot, max);
      var last;
      numQueued, last, added := Collect(queue, snapshot, max);
      PlainLength(conversionPaths, us);
      Close(numQueued, last, added, us);
    }
  }

  // The scheduler

  /** The registered streams: distinct objects that share no path; `paths` are all their paths. */
  ghost predicate ValidStreams(streams: seq<Stream>, paths: set<ConversionPath>)
    reads streams`conversionPaths
  {
    && (forall i :: 0 <= i < |streams| ==> forall p :: p in streams[i].conversionPaths ==> p in paths)
    && (forall p :: p in paths ==> exists i :: 0 <= i < |streams| && p in streams[i].conversionPaths)
    && Distinct(streams)
    && (forall i :: 0 <= i < |streams| ==> streams[i].Valid())
    && forall i, j :: 0 <= i < j < |streams| ==>
         forall p :: p in streams[i].conversionPaths ==> p !in streams[j].conversionPaths
  }

  /** The streams are in the states `ss`. */
  ghost predicate InStates(streams: seq<Stream>, ss: seq<StreamState<ConversionPath>>)
    reads streams
  {
    && |ss| == |streams|
    && forall i :: 0 <= i < |streams| ==> streams[i].State() == ss[i]
  }

  lemma ShowsLength(a: seq<ConversionWorkPacket>, ps: seq<Packet<ConversionPath>>)
    requires Shows(a, ps)
    ensures |a| == |ps|
  {
  }

  /** What is `done` plus what the loop has yet to do, from here, makes up the result `r`. */
  ghost predicate Ahead(r: FillResult<ConversionPath>, done: seq<Packet<ConversionPath>>,
                        ss: seq<StreamState<ConversionPath>>, cursor: int, k: nat, left: int)
  {
    && 0 <= cursor < |ss|
    && var now := FillFrom(ss, cursor, k, left);
       r.streams == now.streams && r.cursor == now.cursor && r.packets == done + now.packets
  }

  lemma AheadStart(ss: seq<StreamState<ConversionPath>>, cursor: int, k: nat, left: int)
    requires 0 <= cursor < |ss|
    ensures Ahead(FillFrom(ss, cursor, k, left), [], ss, cursor, k, left)
  {
  }

  lemma FillStep(ss: seq<StreamState<ConversionPath>>, cursor: int, k: nat, left: nat)
    requires 0 <= cursor < |ss| && k > 0 && left > 0
    ensures var batch := Batch(ss[cursor].paths, Takes(ss[cursor], left));
            var now, rest := FillFrom(ss, cursor, k, left),
              FillFrom(ss[cursor := Rest(ss[cursor], left)], Next(cursor, |ss|), k - 1, left - |batch|);
            && 0 <= Next(cursor, |ss|) < |ss|
            && now.streams == rest.streams && now.cursor == rest.cursor && now.packets == batch + rest.packets
  {
    hide Batch, Takes, Rest;
  }

  lemma AheadStep(r: FillResult<ConversionPath>, done: seq<Packet<ConversionPath>>,
                  ss: seq<StreamState<ConversionPath>>, cursor: int, k: nat, left: nat)
    requires Ahead(r, done, ss, cursor, k, left) && k > 0 && left > 0
    ensures 0 <= cursor < |ss|
    ensures var batch := Batch(ss[cursor].paths, Takes(ss[cursor], left));
            Ahead(r, done + batch, ss[cursor := Rest(ss[cursor], left)], Next(cursor, |ss|), k - 1, left - |batch|)
  {
    hide FillFrom, Batch, Takes, Rest, Next;
    FillStep(ss, cursor, k, left);
  }

  lemma AheadEnd(r: FillResult<ConversionPath>, done: seq<Packet<ConversionPath>>,
                 ss: seq<StreamState<ConversionPath>>, cursor: int, k: nat, left: int)
    requires Ahead(r, done, ss, cursor, k, left) && (k == 0 || left <= 0)
    ensures r.streams == ss && r.cursor == cursor && r.packets == done
  {
  }

  lemma ShowsAppend(a: seq<ConversionWorkPacket>, ps: seq<Packet<ConversionPath>>,
                    b: seq<ConversionWorkPacket>, qs: seq<Packet<ConversionPath>>)
    requires Shows(a, ps) && Shows(b, qs)
    ensures Shows(a + b, ps + qs)
  {
  }

  lemma AddMarks(t: uint32, done: seq<Packet<ConversionPath>>, paths: seq<ConversionPath>, us: seq<UpdateId>,
      p: ConversionPath)
    requires Distinct(paths)
    ensures Plus32(t, MarksFor(done + Batch(paths, us), p)) ==
            if p in paths && us != [] then Plus32(Plus32(t, MarksFor(done, p)), 1) else Plus32(t, MarksFor(done, p))
  {
    hide *;
    BatchFor(paths, us, p);
    MarksForConcat(done, Batch(paths, us), p);
    PlusTwice(t, MarksFor(done, p));
  }

  lemma PlusTwice(t: uint32, n: nat)
    ensures Plus32(Plus32(t, n), 1) == Plus32(t, n + 1)
  {
    Wraps32(t + n, 1);
  }

  /** The counters before a call. */
  ghost function Transits(paths: set<ConversionPath>): (m: map<ConversionPath, uint32>)
    reads paths`transit
  {
    map p | p in paths :: p.transit
  }

  /** Since `start`, every path has counted its marks among `done`. */
  ghost predicate Counted(ps: set<ConversionPath>, start: map<ConversionPath, uint32>,
      done: seq<Packet<ConversionPath>>)
    reads ps`transit
  {
    forall p :: p in ps ==> p in start && p.transit == Plus32(start[p], MarksFor(done, p))
  }

  lemma NothingDone(paths: set<ConversionPath>)
    ensures Shows([], []) && Counted(paths, Transits(paths), [])
  {
  }

  /** Paths that differ in topic or schema are different objects. */
  lemma DistinctPaths(stream: Stream)
    requires stream.Valid()
    ensures Distinct(stream.conversionPaths)
  {
  }

  /**
    Where the loop of fill is: the result it will have, the counters and the cursor it started
    with, the states of the streams and the packets so far, and the visits left.
   */
  datatype Trail = Trail(result: FillResult<ConversionPath>, start: map<ConversionPath, uint32>, first: int,
                         states: seq<StreamState<ConversionPath>>, done: seq<Packet<ConversionPath>>, k: int)

  ghost predicate OnTrail(streams: seq<Stream>, paths: set<ConversionPath>, t: Trail, cursor: int, left: int,
                          added: seq<ConversionWorkPacket>)
    reads streams, paths, added
  {
    var n := |streams|;
    && ValidStreams(streams, paths) && InStates(streams, t.states)
    && 0 <= cursor < n && 0 <= t.first < n && 0 <= t.k <= n
    && (if t.k == 0 then cursor == t.first else t.k == n - Offset(t.first, cursor, n))
    && Ahead(t.result, t.done, t.states, cursor, t.k, left)
    && Shows(added, t.done) && Counted(paths, t.start, t.done)
  }

  /** The trail on which `fill` sets out from the position `cursor`. */
  ghost function Departure(paths: set<ConversionPath>, cursor: int, ss: seq<StreamState<ConversionPath>>,
      left: int): (t: Trail)
    requires 0 <= cursor < |ss|
    reads paths`transit
    ensures t.first == cursor && t.k == |ss|
  {
    Trail(FillFrom(ss, cursor, |ss|, left), Transits(paths), cursor, ss, [], |ss|)
  }

  lemma TrailStart(streams: seq<Stream>, paths: set<ConversionPath>, cursor: int, ss: seq<StreamState<ConversionPath>>,
                   left: int)
    requires ValidStreams(streams, paths) && InStates(streams, ss) && 0 <= cursor < |streams|
    ensures |ss| == |streams| && OnTrail(streams, paths, Departure(paths, cursor, ss, left), cursor, left, [])
  {
    assert |ss| == |streams|;
    hide FillFrom, Shows, Counted, ValidStreams, Transits, InStates, Ahead;
    NothingDone(paths);
    AheadStart(ss, cursor, |streams|, left);
  }

  /** The streams, the cursor, the new packets and the counters are as the result `r` says. */
  ghost predicate Arrived(streams: seq<Stream>, paths: set<ConversionPath>, start: map<ConversionPath, uint32>,
                          r: FillResult<ConversionPath>, cursor: int, added: seq<ConversionWorkPacket>)
    reads streams, paths, added
  {
    && InStates(streams, r.streams) && cursor == r.cursor
    && Shows(added, r.packets) && Counted(paths, start, r.packets)
  }

  lemma TrailEnd(streams: seq<Stream>, paths: set<ConversionPath>, t: Trail, cursor: int, left: int,
                 added: seq<ConversionWorkPacket>)
    requires OnTrail(streams, paths, t, cursor, left, added) && (t.k == 0 || left <= 0)
    ensures Arrived(streams, paths, t.start, t.result, cursor, added)
  {
    AheadEnd(t.result, t.done, t.states, cursor, t.k, left);
  }

  lemma NothingToFill(streams: seq<Stream>, paths: set<ConversionPath>, cursor: nat,
      ss: seq<StreamState<ConversionPath>>,
                      nfm: nat)
    requires InStates(streams, ss) && streams == []
    ensures Arrived(streams, paths, Transits(paths), Rotation.Fill(ss, cursor, nfm), cursor, [])
  {
    NothingDone(paths);
  }

  lemma DepartureIsFill(paths: set<ConversionPath>, sid: nat, ss: seq<StreamState<ConversionPath>>, nfm: nat)
    requires ss != []
    ensures var t := Departure(paths, if sid >= |ss| then 0 else sid, ss, nfm);
            t.result == Rotation.Fill(ss, sid, nfm) && t.start == Transits(paths)
  {
    hide FillFrom, Transits;
  }

  class ConversionScheduler {
    var sid: int

    constructor ()
      ensures sid == 0
    {
      sid := 0;
    }

    /** One visit of the loop: fills from the stream under the cursor and moves on. */
    method FillOne(streams: seq<Stream>, ghost paths: set<ConversionPath>, queue: PacketQueue, left: nat)
      returns (n1: nat, ghost added: seq<ConversionWorkPacket>)
      requires ValidStreams(streams, paths) && 0 <= sid < |streams|
      modifies this, queue, streams`outputQueue, paths`transit
      ensures sid == Next(old(sid), |streams|)
      ensures var st := old(streams[sid].State());
              && streams[old(sid)].State() == Rest(st, left)
              && Shows(added, Batch(st.paths, Takes(st, left)))
              && n1 == |added| == |Batch(st.paths, Takes(st, left))| <= left
              && forall p :: p in paths ==>
                   p.transit ==
                     if p in st.paths && Takes(st, left) != [] then Plus32(old(p.transit), 1) else old(p.transit)
      ensures forall i :: 0 <= i < |streams| && i != old(sid) ==> streams[i].State() == old(streams[i].State())
      ensures queue.items == old(queue.items) + added
      ensures forall i :: 0 <= i < |added| ==> fresh(added[i])
    {
      hide Batch, Taken, Present, Plus32, Shows;
      var stream := streams[sid];
      ghost var st := stream.State();
      n1, added := stream.FillConversionQueue(queue, |stream.outputQueue|, left);
      BatchLength(st.paths, Takes(st, left));
      assert n1 == |added| by {
        ShowsLength(added, Batch(st.paths, Takes(st, left)));
      }
      sid := sid + 1;
      if sid >= |streams| {
        sid := 0;
      }
    }

    /** One turn of the loop, with what all turns together have added so far. */
    method Turn(streams: seq<Stream>, ghost paths: set<ConversionPath>, queue: PacketQueue, left: nat,
                ghost t: Trail, ghost added: seq<ConversionWorkPacket>)
      returns (n1: nat, ghost new': seq<ConversionWorkPacket>, ghost t': Trail)
      requires OnTrail(streams, paths, t, sid, left, added) && t.k > 0 && left > 0
      modifies this, queue, streams`outputQueue, paths`transit
      ensures OnTrail(streams, paths, t', sid, left - n1, added + new') && n1 == |new'| <= left
      ensures t'.k == t.k - 1 && t'.first == t.first && t'.result == t.result && t'.start == t.start
      ensures sid == t.first <==> t'.k == 0
      ensures queue.items == old(queue.items) + new'
      ensures forall i :: 0 <= i < |new'| ==> fresh(new'[i])
    {
      hide Batch, Takes, Rest, Shows, MarksFor, Plus32, FillFrom, Ahead, Taken;
      ghost var st, n := t.states[sid], |streams|;
      ghost var us := Takes(st, left);
      DistinctPaths(streams[sid]);
      AheadStep(t.result, t.done, t.states, sid, t.k, left);
      t' := t.(states := t.states[sid := Rest(st, left)], done := t.done + Batch(st.paths, us), k := t.k - 1);
      n1, new' := FillOne(streams, paths, queue, left);
      ShowsAppend(added, t.done, new', Batch(st.paths, us));
      forall p | p in paths
        ensures p.transit == Plus32(t.start[p], MarksFor(t'.done, p))
      {
        AddMarks(t.start[p], t.done, st.paths, us, p);
      }
    }

    /** The loop of fill, which ends when the cursor is back where it started. */
    method FillLoop(streams: seq<Stream>, ghost paths: set<ConversionPath>, queue: PacketQueue, nfm: nat,
        ghost t0: Trail)
      returns (nfc: nat, ghost added: seq<ConversionWorkPacket>)
      requires OnTrail(streams, paths, t0, sid, nfm, []) && t0.first == sid && t0.k > 0
      modifies this, queue, streams`outputQueue, paths`transit
      ensures Arrived(streams, paths, t0.start, t0.result, sid, added)
      ensures nfc == |added| <= nfm
      ensures queue.items == old(queue.items) + added
      ensures forall i :: 0 <= i < |added| ==> fresh(added[i])
    {
      hide *;
      nfc, added := 0, [];
      var sid0 := sid;
      ghost var t := t0;
      while nfc < nfm
        invariant 0 <= nfc == |added| <= nfm
        invariant OnTrail(streams, paths, t, sid, nfm - nfc, added) && t.k > 0
        invariant t.first == sid0 && t.result == t0.result && t.start == t0.start
        invariant queue.items == old(queue.items) + added
        invariant forall i :: 0 <= i < |added| ==> fresh(added[i])
        decreases t.k
      {
        var n1;
        ghost var new';
        n1, new', t := Turn(streams, paths, queue, nfm - nfc, t, added);
        nfc, added := nfc + n1, added + new';
        if sid == sid0 {
          break;
        }
      }
      TrailEnd(streams, paths, t, sid, nfm - nfc, added);
    }

    /** fill: from the cursor on, at most one visit per stream until the budget is used up. */
    method Fill(streams: seq<Stream>, ghost paths: set<ConversionPath>, queue: PacketQueue, nfm: nat,
                ghost ss: seq<StreamState<ConversionPath>>)
      returns (nfc: nat, ghost added: seq<ConversionWorkPacket>)
      requires ValidStreams(streams, paths) && sid >= 0 && InStates(streams, ss)
      modifies this, queue, streams`outputQueue, paths`transit
      ensures Arrived(streams, paths, old(Transits(paths)), Rotation.Fill(ss, old(sid), nfm), sid, added)
      ensures nfc == |added| <= nfm
      ensures queue.items == old(queue.items) + added
      ensures forall i :: 0 <= i < |added| ==> fresh(added[i])
    {
      hide *;
      if |streams| == 0 {
        NothingToFill(streams, paths, sid, ss, nfm);
        return 0, [];
      }
      ghost var sid0 := sid;
      if sid >= |streams| {
        sid := 0;
      }
      TrailStart(streams, paths, sid, ss, nfm);
      DepartureIsFill(paths, sid0, ss, nfm);
      nfc, added := FillLoop(streams, paths, queue, nfm, Departure(paths, sid, ss, nfm));
    }
  }

  // The worker

  /** What every path had emitted before. */
  ghost function Emissions(paths: set<ConversionPath>): (m: map<ConversionPath, seq<UpdateId>>)
    reads paths`emitted
  {
    map p | p in paths :: p.emitted
  }

  /** Since `start` and `before`, every path has emitted the updates of `done` and lost their marks. */
  ghost predicate Drained(paths: set<ConversionPath>, start: map<ConversionPath, uint32>,
                          before: map<ConversionPath, seq<UpdateId>>, done: seq<Packet<ConversionPath>>)
    reads paths`transit, paths`emitted
  {
    forall p :: p in paths ==>
      && p in start && p in before
      && p.transit == Minus32(start[p], MarksFor(done, p)) && p.emitted == before[p] + UpdatesFor(done, p)
  }

  lemma NothingDrained(paths: set<ConversionPath>)
    ensures Drained(paths, Transits(paths), Emissions(paths), [])
  {
  }

  lemma MinusTwice(t: uint32, n: nat)
    ensures Minus32(Minus32(t, n), 0) == Minus32(t, n)
    ensures Minus32(Minus32(t, n), 1) == Minus32(t, n + 1)
  {
  }

  lemma PlusMinus(t: uint32, n: nat)
    ensures Minus32(Plus32(t, n), n) == t && Plus32(t, 0) == t
  {
  }

  lemma NoMarks(p: ConversionPath)
    ensures MarksFor([], p) == 0
  {
  }

  lemma DoneOne(done: seq<Packet<ConversionPath>>, packet: Packet<ConversionPath>, p: ConversionPath)
    ensures UpdatesFor(done + [packet], p) == UpdatesFor(done, p) + if packet.path == p then [packet.update] else []
    ensures MarksFor(done + [packet], p) == MarksFor(done, p) + if packet.path == p && packet.marked then 1 else 0
  {
    UpdatesForConcat(done, [packet], p);
    MarksForConcat(done, [packet], p);
    assert [packet][1..] == [];
  }

  /** What one turn of a worker's loop does to the streams, and the packets it emits. */
  ghost function PassResult(ss: seq<StreamState<ConversionPath>>, sid: nat, nfm: nat, ps: seq<Packet<ConversionPath>>)
    : (r: FillResult<ConversionPath>)
  {
    if ps == [] then Rotation.Fill(ss, sid, nfm) else FillResult(ss, ps, sid, [])
  }

  lemma PassWithin(streams: seq<Stream>, paths: set<ConversionPath>, ss: seq<StreamState<ConversionPath>>,
      sid: nat, nfm: nat,
                   ps: seq<Packet<ConversionPath>>)
    requires ValidStreams(streams, paths) && InStates(streams, ss) && Within(ps, paths)
    ensures Within(PassResult(ss, sid, nfm, ps).packets, paths)
  {
    forall i | 0 <= i < |ss| ensures forall p :: p in ss[i].paths ==> p in paths {
      assert streams[i].State() == ss[i];
    }
    assert PathsIn(ss, paths);
    hide PathsIn, Within, FillFrom, InStates, ValidStreams;
    WithinNone(paths);
    if ss != [] {
      FillFromWithin(ss, if sid >= |ss| then 0 else sid, |ss|, nfm, paths);
    }
  }

  lemma StatesApart(streams: seq<Stream>, paths: set<ConversionPath>, ss: seq<StreamState<ConversionPath>>)
    requires ValidStreams(streams, paths) && InStates(streams, ss)
    ensures Apart(ss)
    ensures |ss| == |streams| && forall i :: 0 <= i < |ss| ==> streams[i].conversionPaths == ss[i].paths
  {
    forall i | 0 <= i < |ss| ensures ss[i].paths == streams[i].conversionPaths && Distinct(ss[i].paths) {
      assert streams[i].State() == ss[i];
      DistinctPaths(streams[i]);
    }
  }

  lemma Moved(ss: seq<StreamState<ConversionPath>>, sid: nat, nfm: nat, i: int, p: ConversionPath,
      before: seq<UpdateId>)
    requires Apart(ss) && 0 <= i < |ss| && p in ss[i].paths
    ensures var r := Rotation.Fill(ss, sid, nfm);
            |r.streams| == |ss| && before + UpdatesFor(r.packets, p) + Present(r.streams[i].queue) == before
                + Present(ss[i].queue)
  {
    hide *;
    FillConserves(ss, sid, nfm, i, p);
    var r := Rotation.Fill(ss, sid, nfm);
    assert before + UpdatesFor(r.packets, p) + Present(r.streams[i].queue)
        == before + (UpdatesFor(r.packets, p) + Present(r.streams[i].queue));
  }

  lemma AllMoved(streams: seq<Stream>, paths: set<ConversionPath>, ss: seq<StreamState<ConversionPath>>,
                 r: FillResult<ConversionPath>, sid: nat, nfm: nat, before: map<ConversionPath, seq<UpdateId>>)
    requires ValidStreams(streams, paths) && InStates(streams, r.streams) && Apart(ss)
    requires |ss| == |streams| && forall j :: 0 <= j < |ss| ==> streams[j].conversionPaths == ss[j].paths
    requires r == Rotation.Fill(ss, sid, nfm)
    requires forall p :: p in paths ==> p in before && p.emitted == before[p] + UpdatesFor(r.packets, p)
    ensures forall i :: 0 <= i < |streams| ==> forall p :: p in streams[i].conversionPaths ==>
      p in paths && p.emitted + Present(streams[i].outputQueue) == before[p] + Present(ss[i].queue)
  {
    forall i, p | 0 <= i < |streams| && p in streams[i].conversionPaths
      ensures p in paths && p.emitted + Present(streams[i].outputQueue) == before[p] + Present(ss[i].queue)
    {
      assert p in paths && streams[i].State() == r.streams[i];
      hide ValidStreams, InStates, Rotation.Fill, Apart, UpdatesFor, Present;
      Moved(ss, sid, nfm, i, p, before[p]);
    }
  }

  /** The packet at the head of the queue, and what is left without it. */
  lemma DrainStep(items: seq<ConversionWorkPacket>, paths: set<ConversionPath>, done: seq<Packet<ConversionPath>>,
                  rest: seq<Packet<ConversionPath>>)
    requires Shows(items, rest) && Within(rest, paths) && items != []
    ensures rest != [] && items[0].path in paths
    ensures rest[0] == Packet(items[0].path, items[0].update, items[0].stream != null)
    ensures Shows(items[1..], rest[1..]) && Within(rest[1..], paths)
    ensures done + rest == done + [rest[0]] + rest[1..]
  {
  }

  class ConversionWorker {
    const queue: PacketQueue
    const scheduler: ConversionScheduler
    var doRun: bool

    constructor (scheduler: ConversionScheduler)
      ensures this.scheduler == scheduler && fresh(queue) && queue.items == [] && !doRun
    {
      this.scheduler := scheduler;
      queue := new PacketQueue();
      doRun := false;
    }

    /** One packet: hands its update to its path and destroys it. */
    static method Finish(packet: ConversionWorkPacket, ghost paths: set<ConversionPath>,
                         ghost start: map<ConversionPath, uint32>, ghost before: map<ConversionPath, seq<UpdateId>>,
                         ghost done: seq<Packet<ConversionPath>>)
      returns (ghost value: Packet<ConversionPath>)
      requires packet.path in paths && Drained(paths, start, before, done)
      modifies packet.path
      ensures value == Packet(packet.path, packet.update, packet.stream != null)
      ensures Drained(paths, start, before, done + [value])
    {
      hide UpdatesFor, MarksFor, Minus32;
      value := Packet(packet.path, packet.update, packet.stream != null);
      packet.path.Emit(packet.update);
      packet.Destroy();
      forall p | p in paths
        ensures p.transit == Minus32(start[p], MarksFor(done + [value], p))
            && p.emitted == before[p] + UpdatesFor(done + [value], p)
      {
        DoneOne(done, value, p);
        MinusTwice(start[p], MarksFor(done, p));
        assert before[p] + UpdatesFor(done, p) + [value.update] == before[p] + (UpdatesFor(done, p) + [value.update]);
      }
    }

    /** The drain loop of run: empties the queue, emitting and destroying every packet. */
    method Drain(ghost paths: set<ConversionPath>, ghost ps: seq<Packet<ConversionPath>>)
      requires Shows(queue.items, ps) && Within(ps, paths)
      modifies queue, paths
      ensures queue.items == []
      ensures Drained(paths, old(Transits(paths)), old(Emissions(paths)), ps)
    {
      hide Shows, Within, Drained, Transits, Emissions, UpdatesFor, MarksFor, Minus32;
      ghost var start, before := Transits(paths), Emissions(paths);
      ghost var done, rest: seq<Packet<ConversionPath>> := [], ps;
      NothingDrained(paths);
      assert ps == done + rest;
      while true
        invariant ps == done + rest
        invariant Shows(queue.items, rest) && Within(rest, paths)
        invariant Drained(paths, start, before, done)
        decreases |rest|
      {
        ShowsLength(queue.items, rest);
        if queue.items != [] {
          DrainStep(queue.items, paths, done, rest);
        }
        var packet := queue.TryDequeue();
        if packet.None? {
          assert done + rest == done;
          break;
        }
        ghost var value := Finish(packet.value, paths, start, before, done);
        done, rest := done + [value], rest[1..];
      }
    }

    /** The head of run's loop: a worker whose queue is empty asks the scheduler to fill it. */
    method Refill(streams: seq<Stream>, ghost paths: set<ConversionPath>, nfm: nat,
                  ghost ss: seq<StreamState<ConversionPath>>, ghost ps: seq<Packet<ConversionPath>>)
      requires ValidStreams(streams, paths) && InStates(streams, ss) && scheduler.sid >= 0
      requires Shows(queue.items, ps)
      modifies queue, scheduler, streams`outputQueue, paths`transit
      ensures var r := PassResult(ss, old(scheduler.sid), nfm, ps);
              InStates(streams, r.streams) && scheduler.sid == r.cursor && Shows(queue.items, r.packets)
      ensures var r := PassResult(ss, old(scheduler.sid), nfm, ps);
              Counted(paths, old(Transits(paths)), if ps == [] then r.packets else [])
    {
      hide Rotation.Fill, FillFrom, ValidStreams, InStates, Shows, Counted, Transits;
      ShowsLength(queue.items, ps);
      NothingDone(paths);
      if |queue.items| == 0 {
        ghost var empty := queue.items;
        var nfc;
        ghost var added;
        nfc, added := scheduler.Fill(streams, paths, queue, nfm, ss);
        assert empty + added == added;
      }
    }

    /**
      One turn of the loop in run: a worker whose queue is empty fills it, and then drains it. A turn
      that starts on an empty queue leaves every counter as it was, and moves updates from the
      streams' queues to the paths' emissions in order, without losing or doubling one.
     */
    method Pass(streams: seq<Stream>, ghost paths: set<ConversionPath>, nfm: nat,
                ghost ss: seq<StreamState<ConversionPath>>, ghost ps: seq<Packet<ConversionPath>>)
      requires ValidStreams(streams, paths) && InStates(streams, ss) && scheduler.sid >= 0
      requires Shows(queue.items, ps) && Within(ps, paths)
      modifies queue, scheduler, paths, streams`outputQueue
      ensures queue.items == []
      ensures var r := PassResult(ss, old(scheduler.sid), nfm, ps);
              && InStates(streams, r.streams) && scheduler.sid == r.cursor
              && forall p :: p in paths ==> p.emitted == old(p.emitted) + UpdatesFor(r.packets, p)
      ensures forall p :: p in paths ==>
        p.transit == if ps == [] then old(p.transit) else Minus32(old(p.transit), MarksFor(ps, p))
      ensures ps == [] ==> forall i :: 0 <= i < |streams| ==> forall p :: p in streams[i].conversionPaths ==>
        p in paths && p.emitted + Present(streams[i].outputQueue) == old(p.emitted) + Present(ss[i].queue)
    {
      hide Rotation.Fill, FillFrom, ValidStreams, InStates, Shows, Within, UpdatesFor, MarksFor, Present, Minus32,
          Plus32, Apart, Distinct;
      ghost var before, sid0 := Emissions(paths), scheduler.sid;
      ghost var r := PassResult(ss, sid0, nfm, ps);
      PassWithin(streams, paths, ss, sid0, nfm, ps);
      StatesApart(streams, paths, ss);
      Refill(streams, paths, nfm, ss, ps);
      ghost var filled := Transits(paths);
      Drain(paths, r.packets);
      forall p | p in paths
        ensures p.transit == if ps == [] then old(p.transit) else Minus32(old(p.transit), MarksFor(ps, p))
      {
        PlusMinus(old(p.transit), MarksFor(r.packets, p));
        NoMarks(p);
      }
      if ps == [] {
        AllMoved(streams, paths, ss, r, sid0, nfm, before);
      }
    }
  }
}
