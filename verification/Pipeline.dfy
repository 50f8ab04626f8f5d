/**
  The conversion pipeline as a transition system: EPICS clients, any number of conversion
  workers, the shared scheduler and the destructors of the conversion paths interleave freely.
 */
module Pipeline {
  import opened Basics
  import opened Batches
  import Rotation

  /** Path number `index` of stream number `stream`. */
  datatype PathId = PathId(stream: int, index: int)

  /** Of a path's destructor: not past its wait, past its wait, memory given back. */
  datatype Stage = Live | Released | Freed

  /** `accepted` are all non-null updates ever queued on the stream. */
  datatype StreamRec = StreamRec(queue: seq<Option<UpdateId>>, numPaths: int, accepted: seq<UpdateId>)

  datatype PathRec = PathRec(transit: int, stage: Stage, emitted: seq<UpdateId>)

  /** The packet a worker has dequeued and not yet destroyed; `sent` once its path has emitted it. */
  datatype Hand = Empty | Holding(packet: Packet<PathId>, sent: bool)

  /**
    At the test of do_run, before the fill, inside the fill before and after a call of
    fillConversionQueue, in the drain loop, thread joined.
   */
  datatype Phase = Testing | Ready | Filling | Moving | Draining | Joined

  datatype Worker = Worker(queue: seq<Packet<PathId>>, hand: Hand, phase: Phase, doRun: bool)

  /** Who holds the scheduler: the worker, the first position, the visits completed, the budget left. */
  datatype Filler = Idle | Busy(worker: int, first: int, visits: int, left: int)

  /**
    `fault` records the use of a path whose memory was given back; `thrown` that the scheduler looked for a
    stream past the end of the registry, which ends the program.
   */
  datatype State = State(
    streams: seq<StreamRec>,
    paths: map<PathId, PathRec>,
    registry: seq<int>,
    cursor: int,
    filler: Filler,
    workers: seq<Worker>,
    fault: bool,
    thrown: bool)

  datatype Action =
    | AddStream(numPaths: nat)
    | Unregister(position: int)
    | Enqueue(stream: int, entry: Option<UpdateId>)
    | TestRun(k: int)
    | BeginFill(k: int, budget: nat)
    | Visit(k: int, snapshot: nat)
    | Advance(k: int)
    | Dequeue(k: int)
    | Emit(k: int)
    | Destroy(k: int)
    | StopWorker(k: int)
    | ReadTransit(path: PathId)
    | Free(path: PathId)

  ghost function Init(numWorkers: nat): State {
    State([], map[], [], 0, Idle, seq(numWorkers, _ => Worker([], Empty, Testing, true)), false,
          false)
  }

  function PathsOf(stream: int, n: int): (ps: seq<PathId>) {
    if n <= 0 then [] else seq(n, i => PathId(stream, i))
  }

  // The steps. An action that is not enabled leaves the state as it is.

  function WithWorker(s: State, k: int, w: Worker): State
    requires 0 <= k < |s.workers|
  {
    s.(workers := s.workers[k := w])
  }

  /** addMapping: a new stream with its complete list of paths. */
  ghost function DoAddStream(s: State, n: nat): State {
    if s.filler != Idle then s else
    var id := |s.streams|;
    s.(streams := s.streams + [StreamRec([], n, [])],
       registry := s.registry + [id],
       paths := s.paths + map p | p in PathsOf(id, n) :: PathRec(0, Live, []))
  }

  /** stopChannel, clearStreams or checkStreamStatus erases one stream, also in the middle of a fill. */
  function DoUnregister(s: State, i: int): State {
    if !(0 <= i < |s.registry|) then s else
    s.(registry := s.registry[..i] + s.registry[i + 1..])
  }

  /** A client queues an update, registered or not. */
  function DoEnqueue(s: State, id: int, entry: Option<UpdateId>): State {
    if !(0 <= id < |s.streams|) then s else
    var r := s.streams[id];
    s.(streams := s.streams[id := r.(queue := r.queue + [entry], accepted := Join(r.accepted, entry))])
  }

  function DoTestRun(s: State, k: int): State {
    if !(0 <= k < |s.workers|) || s.workers[k].phase != Testing then s else
    WithWorker(s, k, s.workers[k].(phase := if s.workers[k].doRun then Ready else Joined))
  }

  /** The head of `fill`: only called on an empty queue, and only one worker at a time. */
  function DoBeginFill(s: State, k: int, budget: nat): State {
    if !(0 <= k < |s.workers|) || s.workers[k].phase != Ready then s else
    var w := s.workers[k];
    if w.queue != [] then WithWorker(s, k, w.(phase := Draining))
    else if s.filler != Idle then s
    else if s.registry == [] then WithWorker(s, k, w.(phase := Draining))
    else
      var first := if s.cursor >= |s.registry| then 0 else s.cursor;
      if budget == 0 then WithWorker(s, k, w.(phase := Draining)).(cursor := first)
      else WithWorker(s, k, w.(phase := Filling)).(cursor := first, filler := Busy(k, first, 0, budget))
  }

  /** In the loop of `fill`: fillConversionQueue on the stream under the cursor. */
  ghost function DoVisit(s: State, k: int, snapshot: nat): State {
    if !(0 <= k < |s.workers|) || !s.filler.Busy? || s.filler.worker != k || s.workers[k].phase != Filling
       || s.cursor < 0 || s.filler.left < 0 then s
    else if s.cursor >= |s.registry| then s.(thrown := true)
    else if !(0 <= s.registry[s.cursor] < |s.streams|) || s.streams[s.registry[s.cursor]].numPaths < 0 then s else
    var id := s.registry[s.cursor];
    var r := s.streams[id];
    var n := Taken(r.queue, r.numPaths, snapshot, s.filler.left);
    var us := Present(r.queue[..n]);
    var batch := Batch(PathsOf(id, r.numPaths), us);
    var w := s.workers[k].(queue := s.workers[k].queue + batch, phase := Moving);
    s.(streams := s.streams[id := r.(queue := r.queue[n..])],
       paths := Bumped(s.paths, id, us != []),
       filler := Busy(k, s.filler.first, s.filler.visits, s.filler.left - |batch|),
       workers := s.workers[k := w])
  }

  /** The end of the turn: the cursor moves on, and the loop may end. */
  function DoAdvance(s: State, k: int): State {
    if !(0 <= k < |s.workers|) || !s.filler.Busy? || s.filler.worker != k || s.workers[k].phase != Moving then s else
    var cursor := Rotation.Next(s.cursor, |s.registry|);
    var more := s.filler.left > 0 && cursor != s.filler.first;
    WithWorker(s, k, s.workers[k].(phase := if more then Filling else Draining))
      .(cursor := cursor,
        filler := if more then Busy(k, s.filler.first, s.filler.visits + 1, s.filler.left) else Idle)
  }

  /** Every path of the stream counts the mark it got. */
  ghost function Bumped(paths: map<PathId, PathRec>, id: int, marked: bool): map<PathId, PathRec> {
    map p | p in paths ::
      if p.stream == id && marked then paths[p].(transit := (paths[p].transit + 1) % UINT32_LIMIT) else paths[p]
  }

  /** The drain loop takes the next packet, or ends on an empty queue. */
  function DoDequeue(s: State, k: int): State {
    if !(0 <= k < |s.workers|) || s.workers[k].phase != Draining || s.workers[k].hand != Empty then s else
    var w := s.workers[k];
    if w.queue == [] then WithWorker(s, k, w.(phase := Testing))
    else WithWorker(s, k, w.(queue := w.queue[1..], hand := Holding(w.queue[0], false)))
  }

  function Dangling(s: State, p: PathId): bool {
    p !in s.paths || s.paths[p].stage == Freed
  }

  function DoEmit(s: State, k: int): State {
    if !(0 <= k < |s.workers|) || !s.workers[k].hand.Holding? || s.workers[k].hand.sent then s else
    var w := s.workers[k];
    var p := w.hand.packet.path;
    if Dangling(s, p) then s.(fault := true) else
    WithWorker(s, k, w.(hand := Holding(w.hand.packet, true)))
      .(paths := s.paths[p := s.paths[p].(emitted := s.paths[p].emitted + [w.hand.packet.update])])
  }

  /** The packet's destructor, which takes a mark off the path. */
  function DoDestroy(s: State, k: int): State {
    if !(0 <= k < |s.workers|) || !s.workers[k].hand.Holding? || !s.workers[k].hand.sent then s else
    var w := s.workers[k];
    var p := w.hand.packet.path;
    if !w.hand.packet.marked then WithWorker(s, k, w.(hand := Empty))
    else if Dangling(s, p) then s.(fault := true)
    else WithWorker(s, k, w.(hand := Empty))
           .(paths := s.paths[p := s.paths[p].(transit := (s.paths[p].transit - 1) % UINT32_LIMIT)])
  }

  function DoStopWorker(s: State, k: int): State {
    if !(0 <= k < |s.workers|) then s else WithWorker(s, k, s.workers[k].(doRun := false))
  }

  /** The path's destructor loads the counter; it goes on only if it reads zero. */
  function DoReadTransit(s: State, p: PathId): State {
    if p !in s.paths || p.stream in s.registry || s.paths[p].stage != Live || s.paths[p].transit != 0 then s else
    s.(paths := s.paths[p := s.paths[p].(stage := Released)])
  }

  function DoFree(s: State, p: PathId): State {
    if p !in s.paths || s.paths[p].stage != Released then s else
    s.(paths := s.paths[p := s.paths[p].(stage := Freed)])
  }

  ghost function Apply(s: State, a: Action): State {
    if s.thrown then s else
    match a
    case AddStream(n) => DoAddStream(s, n)
    case Unregister(i) => DoUnregister(s, i)
    case Enqueue(id, entry) => DoEnqueue(s, id, entry)
    case TestRun(k) => DoTestRun(s, k)
    case BeginFill(k, budget) => DoBeginFill(s, k, budget)
    case Visit(k, snapshot) => DoVisit(s, k, snapshot)
    case Advance(k) => DoAdvance(s, k)
    case Dequeue(k) => DoDequeue(s, k)
    case Emit(k) => DoEmit(s, k)
    case Destroy(k) => DoDestroy(s, k)
    case StopWorker(k) => DoStopWorker(s, k)
    case ReadTransit(p) => DoReadTransit(s, p)
    case Free(p) => DoFree(s, p)
  }

  /** The state after any list of actions, in any interleaving. */
  ghost function Run(s: State, actions: seq<Action>): State {
    if actions == [] then s else Apply(Run(s, actions[..|actions| - 1]), actions[|actions| - 1])
  }

  // What a worker holds

  /** A worker's packets, oldest first: the one in its hand, then its queue. */
  function Line(w: Worker): seq<Packet<PathId>> {
    if w.hand.Holding? then [w.hand.packet] + w.queue else w.queue
  }

  /** The packets a worker has not yet emitted, oldest first. */
  function Unsent(w: Worker): seq<Packet<PathId>> {
    if w.hand.Holding? && !w.hand.sent then [w.hand.packet] + w.queue else w.queue
  }

  /** What is summed over the workers: marks for a path, or pending copies of an update. */
  datatype Tally = MarksOf(path: PathId) | PendingOf(path: PathId, update: UpdateId)

  ghost function Weigh(t: Tally, w: Worker): (n: nat) {
    match t
    case MarksOf(p) => MarksFor(Line(w), p)
    case PendingOf(p, u) => multiset(UpdatesFor(Unsent(w), p))[u]
  }

  ghost function Sum(t: Tally, ws: seq<Worker>): (n: nat) {
    if ws == [] then 0 else Weigh(t, ws[0]) + Sum(t, ws[1..])
  }

  lemma {:induction false} SumUpdate(t: Tally, ws: seq<Worker>, k: int, w: Worker)
    requires 0 <= k < |ws|
    ensures Sum(t, ws[k := w]) + Weigh(t, ws[k]) == Sum(t, ws) + Weigh(t, w)
  {
    if k == 0 {
      assert ws[k := w][1..] == ws[1..];
    } else {
      SumUpdate(t, ws[1..], k - 1, w);
      assert ws[k := w][1..] == ws[1..][k - 1 := w];
    }
  }

  lemma {:induction false} SumBound(t: Tally, ws: seq<Worker>)
    requires forall w :: w in ws ==> Weigh(t, w) <= 1
    ensures Sum(t, ws) <= |ws|
  {
    if ws != [] {
      SumBound(t, ws[1..]);
    }
  }

  lemma {:induction false} SumZero(t: Tally, ws: seq<Worker>)
    ensures Sum(t, ws) == 0 <==> forall i :: 0 <= i < |ws| ==> Weigh(t, ws[i]) == 0
  {
    if ws != [] {
      SumZero(t, ws[1..]);
      assert forall i :: 0 < i < |ws| ==> ws[i] == ws[1..][i - 1];
      assert forall i :: 0 <= i < |ws| - 1 ==> ws[1..][i] == ws[i + 1];
    }
  }
}
