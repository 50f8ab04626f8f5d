/**
  What every step of the pipeline keeps, with streams removed at any time: every packet is covered by a
  mark, the counters count the marks up to the width of their type, and no update is lost or doubled.
 */
module PipelineSafety {
  import opened Basics
  import opened Batches
  import opened Pipeline
  import Rotation

  ghost predicate Shape(s: State) {
    && s.cursor >= 0
    && Distinct(s.registry)
    && (forall i :: 0 <= i < |s.registry| ==> 0 <= s.registry[i] < |s.streams|)
    && (forall i :: 0 <= i < |s.streams| ==> s.streams[i].numPaths >= 0)
    && (forall p :: p in s.paths <==> 0 <= p.stream < |s.streams| && 0 <= p.index < s.streams[p.stream].numPaths)
  }

  ghost predicate PathsKnown(paths: map<PathId, PathRec>, ps: seq<Packet<PathId>>) {
    forall j :: 0 <= j < |ps| ==> ps[j].path in paths
  }

  /** Outside the fill and the drain loop a worker holds nothing. */
  ghost predicate PhaseOk(w: Worker) {
    && (w.phase == Testing || w.phase == Ready || w.phase == Joined ==> w.queue == [] && w.hand == Empty)
    && (w.phase == Filling || w.phase == Moving ==> w.hand == Empty)
  }

  ghost predicate WorkerOk(paths: map<PathId, PathRec>, w: Worker) {
    && PhaseOk(w)
    && PathsKnown(paths, Line(w))
    && Covered(Line(w))
  }

  ghost predicate WorkersOk(s: State) {
    forall k :: 0 <= k < |s.workers| ==> WorkerOk(s.paths, s.workers[k])
  }

  ghost predicate InFill(w: Worker) {
    w.phase == Filling || w.phase == Moving
  }

  /** A worker inside `fill` holds the scheduler, and has budget left when it goes to a stream. */
  ghost predicate FillerOk(s: State) {
    && (s.thrown ==> s.filler.Busy?)
    && (forall k :: 0 <= k < |s.workers| && InFill(s.workers[k]) ==> s.filler.Busy? && s.filler.worker == k)
    && (s.filler.Busy? ==>
          && 0 <= s.filler.worker < |s.workers| && InFill(s.workers[s.filler.worker])
          && s.filler.left >= 0 && (s.workers[s.filler.worker].phase == Filling ==> s.filler.left > 0))
  }

  /** The counter of a path is the number of its marked packets, up to the wrap-around of its type. */
  ghost predicate Counts(s: State) {
    forall p :: p in s.paths ==> s.paths[p].transit == Sum(MarksOf(p), s.workers) % UINT32_LIMIT
  }

  /** Every accepted update is queued, pending in one worker, or emitted, with multiplicity. */
  ghost predicate AccountOf(s: State, p: PathId, u: UpdateId) {
    && p in s.paths && 0 <= p.stream < |s.streams|
    && multiset(s.streams[p.stream].accepted)[u] ==
         multiset(Present(s.streams[p.stream].queue))[u] + Sum(PendingOf(p, u), s.workers)
             + multiset(s.paths[p].emitted)[u]
  }

  ghost predicate Accounts(s: State) {
    forall p, u :: p in s.paths ==> AccountOf(s, p, u)
  }

  /** With one worker: what is emitted, then pending, then queued is what was accepted, in order. */
  ghost predicate OrderOf(s: State, p: PathId) {
    && p in s.paths && 0 <= p.stream < |s.streams| && |s.workers| == 1
    && s.streams[p.stream].accepted ==
         s.paths[p].emitted + UpdatesFor(Unsent(s.workers[0]), p) + Present(s.streams[p.stream].queue)
  }

  ghost predicate Ordered(s: State) {
    |s.workers| == 1 ==> forall p :: p in s.paths ==> OrderOf(s, p)
  }

  /** Marks, counters, phases and stages fit together. */
  ghost predicate Core(s: State) {
    Shape(s) && WorkersOk(s) && FillerOk(s) && Counts(s)
  }

  ghost predicate Inv(s: State) {
    Core(s) && Accounts(s) && Ordered(s)
  }

  // Small facts

  lemma PathsOfFacts(stream: int, n: int)
    ensures Distinct(PathsOf(stream, n))
    ensures forall p: PathId :: p in PathsOf(stream, n) <==> p.stream == stream && 0 <= p.index < n
  {
    forall p: PathId | p.stream == stream && 0 <= p.index < n ensures p in PathsOf(stream, n) {
      assert PathsOf(stream, n)[p.index] == p;
    }
  }

  /** A packet in some worker's line means that its path has a mark. */
  lemma PacketIsMarked(s: State, k: int, j: int)
    requires WorkersOk(s) && 0 <= k < |s.workers| && 0 <= j < |Line(s.workers[k])|
    ensures var p := Line(s.workers[k])[j].path;
            p in s.paths && Sum(MarksOf(p), s.workers) > 0
  {
    var p := Line(s.workers[k])[j].path;
    assert WorkerOk(s.paths, s.workers[k]);
    SumZero(MarksOf(p), s.workers);
    if Weigh(MarksOf(p), s.workers[k]) == 0 {
      NoMarksNoPackets(Line(s.workers[k]), p, j);
    }
  }

  /** Replacing a worker by one with the same packets changes no tally. */
  lemma SameTallies(ws: seq<Worker>, k: int, w: Worker)
    requires 0 <= k < |ws| && Line(w) == Line(ws[k]) && Unsent(w) == Unsent(ws[k])
    ensures forall t :: Sum(t, ws[k := w]) == Sum(t, ws)
  {
    forall t ensures Sum(t, ws[k := w]) == Sum(t, ws) {
      SumUpdate(t, ws, k, w);
    }
  }

  // The steps that only move one worker between phases

  lemma QuietStep(s: State, k: int, w: Worker, cursor: int, filler: Filler)
    requires Inv(s) && 0 <= k < |s.workers| && cursor >= 0
    requires Line(w) == Line(s.workers[k]) && Unsent(w) == Unsent(s.workers[k]) && PhaseOk(w)
    requires FillerOk(s.(workers := s.workers[k := w], cursor := cursor, filler := filler))
    ensures Inv(s.(workers := s.workers[k := w], cursor := cursor, filler := filler))
  {
    var s' := s.(workers := s.workers[k := w], cursor := cursor, filler := filler);
    SameTallies(s.workers, k, w);
    forall p, u | p in s'.paths ensures AccountOf(s', p, u) {
      assert AccountOf(s, p, u);
    }
    if |s.workers| == 1 {
      forall p | p in s'.paths ensures OrderOf(s', p) {
        assert OrderOf(s, p);
      }
    }
  }

  lemma TestRunKeeps(s: State, k: int)
    requires Inv(s)
    ensures Inv(DoTestRun(s, k))
  {
    if 0 <= k < |s.workers| && s.workers[k].phase == Testing {
      QuietStep(s, k, s.workers[k].(phase := if s.workers[k].doRun then Ready else Joined), s.cursor, s.filler);
    }
  }

  lemma StopWorkerKeeps(s: State, k: int)
    requires Inv(s)
    ensures Inv(DoStopWorker(s, k))
  {
    if 0 <= k < |s.workers| {
      QuietStep(s, k, s.workers[k].(doRun := false), s.cursor, s.filler);
    }
  }

  lemma BeginFillKeeps(s: State, k: int, budget: nat)
    requires Inv(s) && !s.thrown
    ensures Inv(DoBeginFill(s, k, budget))
  {
    hide Accounts, Ordered, Counts, Covered, PathsKnown;
    if 0 <= k < |s.workers| && s.workers[k].phase == Ready && s.filler == Idle {
      var w := s.workers[k];
      assert PhaseOk(w);
      var first := if s.cursor >= |s.registry| then 0 else s.cursor;
      if s.registry == [] {
        QuietStep(s, k, w.(phase := Draining), s.cursor, Idle);
      } else if budget == 0 {
        QuietStep(s, k, w.(phase := Draining), first, Idle);
      } else {
        QuietStep(s, k, w.(phase := Filling), first, Busy(k, first, 0, budget));
      }
    }
  }

  lemma DequeueKeeps(s: State, k: int)
    requires Inv(s)
    ensures Inv(DoDequeue(s, k))
  {
    hide Accounts, Ordered, Counts, Covered, PathsKnown;
    if 0 <= k < |s.workers| && s.workers[k].phase == Draining && s.workers[k].hand == Empty {
      var w := s.workers[k];
      if w.queue == [] {
        QuietStep(s, k, w.(phase := Testing), s.cursor, s.filler);
      } else {
        assert [w.queue[0]] + w.queue[1..] == w.queue;
        QuietStep(s, k, w.(queue := w.queue[1..], hand := Holding(w.queue[0], false)), s.cursor, s.filler);
      }
    }
  }

  lemma AdvanceKeeps(s: State, k: int)
    requires Inv(s) && !s.thrown
    ensures Inv(DoAdvance(s, k))
  {
    hide Accounts, Ordered, Counts, Covered, PathsKnown;
    if 0 <= k < |s.workers| && s.filler.Busy? && s.filler.worker == k && s.workers[k].phase == Moving {
      var cursor := Rotation.Next(s.cursor, |s.registry|);
      var more := s.filler.left > 0 && cursor != s.filler.first;
      assert PhaseOk(s.workers[k]);
      QuietStep(s, k, s.workers[k].(phase := if more then Filling else Draining), cursor,
                if more then Busy(k, s.filler.first, s.filler.visits + 1, s.filler.left) else Idle);
    }
  }

  /** A step that changes one worker's hand and the records of known paths. */
  lemma ReplaceCore(s: State, k: int, w: Worker, paths: map<PathId, PathRec>)
    requires Core(s) && 0 <= k < |s.workers|
    requires w.phase == s.workers[k].phase && w.queue == s.workers[k].queue
    requires WorkerOk(s.paths, w)
    requires paths.Keys == s.paths.Keys
    requires Counts(s.(workers := s.workers[k := w], paths := paths))
    ensures Core(s.(workers := s.workers[k := w], paths := paths))
  {
    hide Covered, Counts, PhaseOk;
    var s' := s.(workers := s.workers[k := w], paths := paths);
    assert Shape(s') && FillerOk(s');
    forall i | 0 <= i < |s'.workers| ensures WorkerOk(s'.paths, s'.workers[i]) {
      assert WorkerOk(s.paths, s.workers[i]);
    }
  }

  /** A counter changes as the number of marks in worker k does. */
  ghost predicate Follows(s: State, k: int, w: Worker, paths: map<PathId, PathRec>, q: PathId) {
    && 0 <= k < |s.workers| && q in s.paths && q in paths
    && paths[q].transit ==
         (s.paths[q].transit + MarksFor(Line(w), q) - MarksFor(Line(s.workers[k]), q)) % UINT32_LIMIT
  }

  lemma CountsFollow(s: State, k: int, w: Worker, paths: map<PathId, PathRec>)
    requires Counts(s) && 0 <= k < |s.workers| && paths.Keys == s.paths.Keys
    requires forall q :: q in paths ==> Follows(s, k, w, paths, q)
    ensures Counts(s.(workers := s.workers[k := w], paths := paths))
  {
    hide Sum, MarksFor, Line;
    forall q | q in paths ensures paths[q].transit == Sum(MarksOf(q), s.workers[k := w]) % UINT32_LIMIT {
      SumUpdate(MarksOf(q), s.workers, k, w);
      MarksWeigh(s.workers[k], q);
      MarksWeigh(w, q);
      Wraps32(Sum(MarksOf(q), s.workers), MarksFor(Line(w), q) - MarksFor(Line(s.workers[k]), q));
    }
  }

  lemma MarksWeigh(w: Worker, q: PathId)
    ensures Weigh(MarksOf(q), w) == MarksFor(Line(w), q)
  {
  }

  lemma CounterRange(s: State, p: PathId)
    requires Counts(s) && p in s.paths
    ensures 0 <= s.paths[p].transit < UINT32_LIMIT && s.paths[p].transit % UINT32_LIMIT == s.paths[p].transit
  {
    hide Sum;
  }

  // The steps of the drain loop's body

  ghost predicate CanEmit(s: State, k: int) {
    0 <= k < |s.workers| && s.workers[k].hand.Holding? && !s.workers[k].hand.sent
    && !Dangling(s, s.workers[k].hand.packet.path)
  }

  lemma EmitState(s: State, k: int)
    requires Core(s) && CanEmit(s, k)
    ensures var w := s.workers[k];
            var p, u := w.hand.packet.path, w.hand.packet.update;
            var w' := w.(hand := Holding(w.hand.packet, true));
            && p in s.paths
            && DoEmit(s, k) == s.(workers := s.workers[k := w'],
                                  paths := s.paths[p := s.paths[p].(emitted := s.paths[p].emitted + [u])])
            && Line(w') == Line(w)
            && forall q :: UpdatesFor(Unsent(w), q) == if q == p then [u] + UpdatesFor(Unsent(w'), q)
                else UpdatesFor(Unsent(w'), q)
  {
    var w := s.workers[k];
    assert Unsent(w)[0] == w.hand.packet && Unsent(w)[1..] == w.queue;
    hide Core;
  }

  lemma EmitCount(s: State, k: int, q: PathId)
    requires Core(s) && CanEmit(s, k) && q in s.paths
    ensures var s' := DoEmit(s, k);
            k < |s'.workers| && Follows(s, k, s'.workers[k], s'.paths, q)
  {
    EmitLine(s, k, q);
    assert Counts(s);
    hide *;
    SameFollows(s, k, DoEmit(s, k).workers[k], DoEmit(s, k).paths, q);
  }

  lemma EmitLine(s: State, k: int, q: PathId)
    requires Core(s) && CanEmit(s, k) && q in s.paths
    ensures var s' := DoEmit(s, k);
            && 0 <= k < |s.workers| == |s'.workers| && q in s'.paths
            && Line(s'.workers[k]) == Line(s.workers[k]) && s'.paths[q].transit == s.paths[q].transit
  {
    EmitState(s, k);
    hide DoEmit, Core, Unsent, UpdatesFor, Line;
  }

  lemma SameFollows(s: State, k: int, w: Worker, paths: map<PathId, PathRec>, q: PathId)
    requires Counts(s) && 0 <= k < |s.workers| && Line(w) == Line(s.workers[k])
    requires q in s.paths && q in paths && paths[q].transit == s.paths[q].transit
    ensures Follows(s, k, w, paths, q)
  {
    CounterRange(s, q);
    hide Line, MarksFor, Counts;
  }

  lemma EmitShape(s: State, k: int)
    requires Core(s) && CanEmit(s, k)
    ensures var s' := DoEmit(s, k);
            && 0 <= k < |s.workers| == |s'.workers|
            && s' == s.(workers := s.workers[k := s'.workers[k]], paths := s'.paths)
            && s'.workers[k].queue == s.workers[k].queue && s'.workers[k].phase == s.workers[k].phase
            && WorkerOk(s.paths, s'.workers[k]) && s'.paths.Keys == s.paths.Keys
  {
    EmitState(s, k);
    assert WorkerOk(s.paths, s.workers[k]);
    hide DoEmit, Counts, Shape, FillerOk, Covered, Unsent, UpdatesFor;
  }

  lemma EmitCore(s: State, k: int)
    requires Core(s) && CanEmit(s, k)
    ensures Core(DoEmit(s, k))
  {
    hide *;
    CoreFacts(s);
    EmitShape(s, k);
    var s' := DoEmit(s, k);
    forall q | q in s.paths ensures Follows(s, k, s'.workers[k], s'.paths, q) {
      EmitCount(s, k, q);
    }
    CountsFollow(s, k, s'.workers[k], s'.paths);
    ReplaceCore(s, k, s'.workers[k], s'.paths);
  }

  lemma PendingWeigh(w: Worker, q: PathId, v: UpdateId)
    ensures Weigh(PendingOf(q, v), w) == multiset(UpdatesFor(Unsent(w), q))[v]
  {
  }

  /** What an emission changes for one path: its update is emitted and no longer pending. */
  lemma EmitFor(s: State, k: int, q: PathId)
    requires Core(s) && CanEmit(s, k) && q in s.paths
    ensures var s', p, u := DoEmit(s, k), s.workers[k].hand.packet.path, s.workers[k].hand.packet.update;
            && |s'.workers| == |s.workers| && s'.workers == s.workers[k := s'.workers[k]]
            && s'.streams == s.streams && q in s'.paths
            && UpdatesFor(Unsent(s.workers[k]), q)
                 == (if q == p then [u] else []) + UpdatesFor(Unsent(s'.workers[k]), q)
            && s'.paths[q].emitted == s.paths[q].emitted + if q == p then [u] else []
  {
    EmitState(s, k);
    hide Core, DoEmit, Unsent, UpdatesFor, Line;
  }

  lemma Moved(emitted: seq<UpdateId>, one: seq<UpdateId>, pending: seq<UpdateId>, v: UpdateId)
    ensures multiset(one + pending)[v] + multiset(emitted)[v] == multiset(pending)[v] + multiset(emitted + one)[v]
  {
  }

  lemma AccountIs(s: State, p: PathId, u: UpdateId)
    ensures AccountOf(s, p, u) <==>
      && p in s.paths && 0 <= p.stream < |s.streams|
      && multiset(s.streams[p.stream].accepted)[u] ==
           multiset(Present(s.streams[p.stream].queue))[u] + Sum(PendingOf(p, u), s.workers)
               + multiset(s.paths[p].emitted)[u]
  {
    hide Present, Sum;
  }

  lemma EmitAccountOf(s: State, k: int, q: PathId, v: UpdateId)
    requires Core(s) && CanEmit(s, k) && AccountOf(s, q, v)
    ensures AccountOf(DoEmit(s, k), q, v)
  {
    var s', p, u := DoEmit(s, k), s.workers[k].hand.packet.path, s.workers[k].hand.packet.update;
    hide *;
    AccountIs(s, q, v);
    AccountIs(s', q, v);
    EmitFor(s, k, q);
    SumUpdate(PendingOf(q, v), s.workers, k, s'.workers[k]);
    PendingWeigh(s.workers[k], q, v);
    PendingWeigh(s'.workers[k], q, v);
    Moved(s.paths[q].emitted, if q == p then [u] else [], UpdatesFor(Unsent(s'.workers[k]), q), v);
  }

  lemma EmitAccounts(s: State, k: int)
    requires Core(s) && CanEmit(s, k) && Accounts(s)
    ensures Accounts(DoEmit(s, k))
  {
    EmitShape(s, k);
    hide DoEmit, AccountOf, Core;
    forall q, v | q in DoEmit(s, k).paths ensures AccountOf(DoEmit(s, k), q, v) {
      EmitAccountOf(s, k, q, v);
    }
  }

  lemma MoveAcross(emitted: seq<UpdateId>, u: UpdateId, pending: seq<UpdateId>)
    ensures emitted + ([u] + pending) == emitted + [u] + pending
  {
  }

  lemma EmitOrdered(s: State, k: int)
    requires Core(s) && CanEmit(s, k) && Ordered(s)
    ensures Ordered(DoEmit(s, k))
  {
    EmitState(s, k);
    hide Core, DoEmit, UpdatesFor, Present;
    var s' := DoEmit(s, k);
    if |s.workers| == 1 {
      forall q | q in s'.paths ensures OrderOf(s', q) {
        assert OrderOf(s, q);
        MoveAcross(s.paths[q].emitted, s.workers[k].hand.packet.update, UpdatesFor(Unsent(s'.workers[0]), q));
      }
    }
  }

  ghost predicate CanDestroy(s: State, k: int) {
    0 <= k < |s.workers| && s.workers[k].hand.Holding? && s.workers[k].hand.sent
    && (s.workers[k].hand.packet.marked ==> !Dangling(s, s.workers[k].hand.packet.path))
  }

  lemma DestroyState(s: State, k: int)
    requires CanDestroy(s, k)
    ensures var w := s.workers[k];
            var p := w.hand.packet.path;
            var w' := w.(hand := Empty);
            && (w.hand.packet.marked ==> p in s.paths)
            && DoDestroy(s, k) == s.(workers := s.workers[k := w'],
                 paths := if w.hand.packet.marked
                          then s.paths[p := s.paths[p].(transit := (s.paths[p].transit - 1) % UINT32_LIMIT)]
                          else s.paths)
            && Unsent(w') == Unsent(w)
            && forall q :: MarksFor(Line(w), q) == (if q == p
                && w.hand.packet.marked then 1 else 0) + MarksFor(Line(w'), q)
  {
    var w := s.workers[k];
    assert Line(w)[0] == w.hand.packet && Line(w)[1..] == w.queue;
  }

  lemma DestroyWorkerOk(s: State, k: int)
    requires Core(s) && CanDestroy(s, k)
    ensures WorkerOk(s.paths, s.workers[k].(hand := Empty))
  {
    var w := s.workers[k];
    assert WorkerOk(s.paths, w);
    assert Line(w)[1..] == w.queue;
    hide Counts, Shape, FillerOk;
    CoveredTail(Line(w));
    forall j | 0 <= j < |w.queue| ensures w.queue[j].path in s.paths {
      assert w.queue[j] == Line(w)[j + 1];
    }
  }

  /** A counter changes as the number of marks in the worker's line does. */
  lemma DestroyCount(s: State, k: int, q: PathId)
    requires Counts(s) && CanDestroy(s, k) && q in s.paths
    ensures var s' := DoDestroy(s, k);
            k < |s'.workers| && Follows(s, k, s'.workers[k], s'.paths, q)
  {
    DestroyState(s, k);
    CounterRange(s, q);
    hide DoDestroy, MarksFor, Line, Counts, Unsent;
  }

  lemma DestroyCore(s: State, k: int)
    requires Core(s) && CanDestroy(s, k)
    ensures Core(DoDestroy(s, k))
  {
    hide *;
    CoreFacts(s);
    DestroyShape(s, k);
    DestroyWorkerOk(s, k);
    var s' := DoDestroy(s, k);
    forall q | q in s.paths ensures Follows(s, k, s'.workers[k], s'.paths, q) {
      DestroyCount(s, k, q);
    }
    CountsFollow(s, k, s'.workers[k], s'.paths);
    ReplaceCore(s, k, s'.workers[k], s'.paths);
  }

  lemma CoreFacts(s: State)
    ensures Core(s) <==> Shape(s) && WorkersOk(s) && FillerOk(s) && Counts(s)
  {
    hide Shape, WorkersOk, FillerOk, Counts;
  }

  lemma DestroyShape(s: State, k: int)
    requires CanDestroy(s, k)
    ensures var s' := DoDestroy(s, k);
            && 0 <= k < |s.workers| == |s'.workers|
            && s' == s.(workers := s.workers[k := s'.workers[k]], paths := s'.paths)
            && s'.workers[k] == s.workers[k].(hand := Empty) && s'.paths.Keys == s.paths.Keys
  {
    DestroyState(s, k);
    hide DoDestroy, MarksFor, Line, Unsent;
  }

  lemma DestroyHistory(s: State, k: int)
    requires CanDestroy(s, k) && Accounts(s) && Ordered(s)
    ensures Accounts(DoDestroy(s, k)) && Ordered(DoDestroy(s, k))
  {
    DestroyState(s, k);
    var s' := DoDestroy(s, k);
    hide DoDestroy, MarksFor, Line;
    SameUnsent(s, s', k);
  }

  /** History is kept by a step after which a worker still has to send the same updates. */
  lemma SameUnsent(s: State, s': State, k: int)
    requires Accounts(s) && Ordered(s)
    requires 0 <= k < |s.workers| == |s'.workers| && s'.workers == s.workers[k := s'.workers[k]]
    requires Unsent(s'.workers[k]) == Unsent(s.workers[k]) && s'.streams == s.streams
    requires forall q :: q in s'.paths ==> q in s.paths && s'.paths[q].emitted == s.paths[q].emitted
    ensures Accounts(s') && Ordered(s')
  {
    forall q, v | q in s'.paths ensures AccountOf(s', q, v) {
      assert AccountOf(s, q, v);
      SumUpdate(PendingOf(q, v), s.workers, k, s'.workers[k]);
    }
    hide Sum, Unsent, UpdatesFor, Present;
    if |s.workers| == 1 {
      forall q | q in s'.paths ensures OrderOf(s', q) {
        assert OrderOf(s, q);
      }
    }
  }

  // The steps of the registry, the clients and the destructors

  lemma AddStreamShape(s: State, n: nat)
    requires Shape(s) && s.filler == Idle
    ensures var s' := DoAddStream(s, n);
            && Shape(s')
            && (forall p :: p in s.paths ==> p in s'.paths && s'.paths[p] == s.paths[p])
            && (forall p :: p in s'.paths && p !in s.paths ==>
                  s'.paths[p] == PathRec(0, Live, []) && p.stream == |s.streams|)
  {
    PathsOfFacts(|s.streams|, n);
  }

  lemma AddStreamCore(s: State, n: nat)
    requires Core(s) && s.filler == Idle
    ensures Core(DoAddStream(s, n))
  {
    AddStreamShape(s, n);
    hide Shape, PathsOf;
    var s' := DoAddStream(s, n);
    forall k | 0 <= k < |s.workers| ensures WorkerOk(s'.paths, s.workers[k]) {
      hide Covered;
      assert WorkerOk(s.paths, s.workers[k]);
    }
    hide WorkerOk;
    forall q | q in s'.paths ensures s'.paths[q].transit == Sum(MarksOf(q), s'.workers) % UINT32_LIMIT {
      if q !in s.paths {
        NobodyHolds(s, q);
      }
    }
  }

  /** What a new stream changes for the history of one path. */
  lemma AddStreamFacts(s: State, n: nat, q: PathId)
    requires Core(s) && s.filler == Idle && q in DoAddStream(s, n).paths
    ensures var s' := DoAddStream(s, n);
            && s'.workers == s.workers
            && (q in s.paths ==> s'.paths[q] == s.paths[q])
            && (q in s.paths && 0 <= q.stream < |s.streams| ==>
                  q.stream < |s'.streams| && s'.streams[q.stream] == s.streams[q.stream])
            && (q !in s.paths ==>
                  && s'.paths[q].emitted == [] && q.stream == |s.streams| < |s'.streams|
                  && s'.streams[q.stream] == StreamRec([], n, []))
  {
    AddStreamShape(s, n);
    hide Core, PathsOf, Shape;
  }

  lemma AddStreamHistory(s: State, n: nat)
    requires Inv(s) && s.filler == Idle
    ensures Accounts(DoAddStream(s, n)) && Ordered(DoAddStream(s, n))
  {
    var s' := DoAddStream(s, n);
    hide Core, DoAddStream, Sum, Unsent, UpdatesFor;
    assert |s'.workers| == |s.workers| by {
      SameWorkers(s, n);
    }
    forall q, v | q in s'.paths ensures AccountOf(s', q, v) {
      AddStreamFacts(s, n, q);
      if q in s.paths {
        assert AccountOf(s, q, v);
      } else {
        NobodyHolds(s, q);
      }
    }
    if |s.workers| == 1 {
      forall q | q in s'.paths ensures OrderOf(s', q) {
        AddStreamFacts(s, n, q);
        if q in s.paths {
          assert OrderOf(s, q);
        } else {
          NobodyHolds(s, q);
        }
      }
    }
  }

  lemma SameWorkers(s: State, n: nat)
    ensures DoAddStream(s, n).workers == s.workers
  {
  }

  /** No worker holds a packet for a path that does not exist yet. */
  lemma NobodyHolds(s: State, q: PathId)
    requires Core(s) && q !in s.paths
    ensures Sum(MarksOf(q), s.workers) == 0
    ensures forall v :: Sum(PendingOf(q, v), s.workers) == 0
    ensures forall i :: 0 <= i < |s.workers| ==> UpdatesFor(Unsent(s.workers[i]), q) == []
  {
    forall i | 0 <= i < |s.workers|
      ensures MarksFor(Line(s.workers[i]), q) == 0 && UpdatesFor(Unsent(s.workers[i]), q) == []
    {
      var w := s.workers[i];
      assert WorkerOk(s.paths, w);
      NoPacketsNothing(Line(w), q);
      assert w.hand.Holding? ==> Line(w)[1..] == w.queue;
    }
    SumZero(MarksOf(q), s.workers);
    forall v ensures Sum(PendingOf(q, v), s.workers) == 0 {
      SumZero(PendingOf(q, v), s.workers);
    }
  }

  lemma {:induction false} NoPacketsNothing(ps: seq<Packet<PathId>>, q: PathId)
    requires forall j :: 0 <= j < |ps| ==> ps[j].path != q
    ensures MarksFor(ps, q) == 0 && UpdatesFor(ps, q) == []
  {
    if ps != [] {
      assert forall j :: 0 <= j < |ps| - 1 ==> ps[1..][j] == ps[j + 1];
      NoPacketsNothing(ps[1..], q);
    }
  }

  lemma UnregisterCore(s: State, i: int)
    requires Core(s) && 0 <= i < |s.registry|
    ensures Core(DoUnregister(s, i))
  {
    var s' := DoUnregister(s, i);
    assert forall j :: 0 <= j < |s'.registry| ==> s'.registry[j] == s.registry[if j < i then j else j + 1];
    hide Sum, WorkerOk;
  }

  lemma EnqueueCore(s: State, id: int, entry: Option<UpdateId>)
    requires Core(s) && 0 <= id < |s.streams|
    ensures Core(DoEnqueue(s, id, entry))
  {
    hide Sum, WorkerOk;
  }

  /** History is kept by a step that changes neither workers nor emitted lists nor numbers of queued updates. */
  lemma SameHistory(s: State, s': State)
    requires Accounts(s) && Ordered(s)
    requires s'.workers == s.workers && s'.streams == s.streams
    requires forall q :: q in s'.paths ==> q in s.paths && s'.paths[q].emitted == s.paths[q].emitted
    ensures Accounts(s') && Ordered(s')
  {
    forall q, v | q in s'.paths ensures AccountOf(s', q, v) {
      assert AccountOf(s, q, v);
    }
    if |s.workers| == 1 {
      forall q | q in s'.paths ensures OrderOf(s', q) {
        assert OrderOf(s, q);
      }
    }
  }

  lemma EnqueueHistory(s: State, id: int, entry: Option<UpdateId>)
    requires Accounts(s) && Ordered(s) && 0 <= id < |s.streams|
    ensures Accounts(DoEnqueue(s, id, entry)) && Ordered(DoEnqueue(s, id, entry))
  {
    var s' := DoEnqueue(s, id, entry);
    var r := s.streams[id];
    assert Present(r.queue + [entry]) == Join(Present(r.queue), entry) by {
      PresentConcat(r.queue, [entry]);
      PresentOne(entry);
    }
    forall q, v | q in s'.paths ensures AccountOf(s', q, v) {
      assert AccountOf(s, q, v);
    }
    if |s.workers| == 1 {
      forall q | q in s'.paths ensures OrderOf(s', q) {
        assert OrderOf(s, q);
      }
    }
  }

  /** A change of a path's stage alone. */
  lemma StageCore(s: State, p: PathId, stage: Stage)
    requires Core(s) && p in s.paths
    ensures Core(s.(paths := s.paths[p := s.paths[p].(stage := stage)]))
  {
    hide Covered, PhaseOk, Sum, Line;
    var s' := s.(paths := s.paths[p := s.paths[p].(stage := stage)]);
    forall k | 0 <= k < |s.workers| ensures WorkerOk(s'.paths, s.workers[k]) {
      assert WorkerOk(s.paths, s.workers[k]);
    }
  }

  // One turn of the loop in `fill`

  /** Worker k is about to call fillConversionQueue, and the stream is there. */
  ghost predicate CanVisit(s: State, k: int) {
    && s.filler.Busy? && s.filler.worker == k && 0 <= k < |s.workers| && s.workers[k].phase == Filling
    && s.cursor < |s.registry|
  }

  /** What a visit takes from the stream under the cursor. */
  ghost function Taking(s: State, snapshot: nat): (us: seq<UpdateId>)
    requires Core(s) && s.filler.Busy? && s.cursor < |s.registry|
  {
    var r := s.streams[s.registry[s.cursor]];
    Present(r.queue[..Taken(r.queue, r.numPaths, snapshot, s.filler.left)])
  }

  /** The packets a visit appends to the worker's queue. */
  ghost function Packed(s: State, snapshot: nat): (ps: seq<Packet<PathId>>)
    requires Core(s) && s.filler.Busy? && s.cursor < |s.registry|
  {
    var id := s.registry[s.cursor];
    Batch(PathsOf(id, s.streams[id].numPaths), Taking(s, snapshot))
  }

  ghost predicate PathOfStream(s: State, id: int, p: PathId) {
    0 <= id < |s.streams| && p in PathsOf(id, s.streams[id].numPaths)
  }

  /** What the batch holds for each path. */
  lemma PackedFor(s: State, k: int, snapshot: nat, p: PathId)
    requires Core(s) && CanVisit(s, k)
    ensures var id := s.registry[s.cursor];
            && (p in s.paths && p.stream == id <==> PathOfStream(s, id, p))
            && UpdatesFor(Packed(s, snapshot), p) == (if PathOfStream(s, id, p) then Taking(s, snapshot) else [])
            && MarksFor(Packed(s, snapshot), p) ==
                 (if PathOfStream(s, id, p) && Taking(s, snapshot) != [] then 1 else 0)
  {
    var id := s.registry[s.cursor];
    PathsOfFacts(id, s.streams[id].numPaths);
    BatchFor(PathsOf(id, s.streams[id].numPaths), Taking(s, snapshot), p);
  }

  lemma PackedPaths(s: State, k: int, snapshot: nat)
    requires Core(s) && CanVisit(s, k)
    ensures PathsKnown(s.paths, Packed(s, snapshot)) && Covered(Packed(s, snapshot))
    ensures forall j :: 0 <= j < |Packed(s, snapshot)| ==> Packed(s, snapshot)[j].path.stream == s.registry[s.cursor]
  {
    var id := s.registry[s.cursor];
    var paths := PathsOf(id, s.streams[id].numPaths);
    PathsOfFacts(id, s.streams[id].numPaths);
    BatchCovered(paths, Taking(s, snapshot));
    forall j | 0 <= j < |Packed(s, snapshot)| ensures Packed(s, snapshot)[j].path in paths {
      BatchPath(paths, Taking(s, snapshot), j);
    }
  }

  lemma VisitWorkerOk(s: State, k: int, snapshot: nat)
    requires Core(s) && CanVisit(s, k)
    ensures WorkerOk(s.paths, s.workers[k].(queue := s.workers[k].queue + Packed(s, snapshot), phase := Moving))
  {
    var w, batch := s.workers[k], Packed(s, snapshot);
    assert WorkerOk(s.paths, w) && Line(w) == w.queue;
    PackedPaths(s, k, snapshot);
    hide Shape, Counts, FillerOk, Packed, WorkersOk;
    CoveredConcat(w.queue, batch);
  }

  lemma VisitFacts(s: State, k: int)
    requires Core(s) && CanVisit(s, k)
    ensures 0 <= k < |s.workers| && 0 <= s.cursor < |s.registry| && 0 <= s.registry[s.cursor] < |s.streams|
    ensures s.workers[k].phase == Filling && s.workers[k].hand == Empty && s.filler.left > 0
    ensures s.streams[s.registry[s.cursor]].numPaths >= 0
    ensures WorkersOk(s) && Counts(s)
  {
    assert WorkerOk(s.paths, s.workers[k]);
  }

  lemma LongerLine(ws: seq<Worker>, k: int, w: Worker, batch: seq<Packet<PathId>>, p: PathId)
    requires 0 <= k < |ws| && Line(w) == Line(ws[k]) + batch
    ensures Sum(MarksOf(p), ws[k := w]) == Sum(MarksOf(p), ws) + MarksFor(batch, p)
  {
    MarksForConcat(Line(ws[k]), batch, p);
    SumUpdate(MarksOf(p), ws, k, w);
  }

  lemma VisitCountOf(s: State, k: int, snapshot: nat, w: Worker, p: PathId)
    requires Core(s) && CanVisit(s, k) && p in s.paths
    requires w.hand == s.workers[k].hand && w.queue == s.workers[k].queue + Packed(s, snapshot)
    ensures var marked := p.stream == s.registry[s.cursor] && Taking(s, snapshot) != [];
            Sum(MarksOf(p), s.workers[k := w]) == Sum(MarksOf(p), s.workers) + if marked then 1 else 0
  {
    VisitFacts(s, k);
    PackedFor(s, k, snapshot, p);
    hide Core, PathOfStream, Packed, Taking, Sum, MarksFor, UpdatesFor, WorkersOk, Counts;
    LongerLine(s.workers, k, w, Packed(s, snapshot), p);
  }

  /** The counters of the visited stream's paths go up by the mark that each of them got. */
  lemma BumpedCounts(s: State, ws: seq<Worker>, id: int, marked: bool)
    requires Counts(s)
    requires forall p :: p in s.paths ==>
               Sum(MarksOf(p), ws) == Sum(MarksOf(p), s.workers) + if p.stream == id && marked then 1 else 0
    ensures Counts(s.(workers := ws, paths := Bumped(s.paths, id, marked)))
  {
    hide Sum;
    forall p | p in s.paths
      ensures (s.paths[p].transit + 1) % UINT32_LIMIT == (Sum(MarksOf(p), s.workers) + 1) % UINT32_LIMIT
    {
      Wraps32(Sum(MarksOf(p), s.workers), 1);
    }
  }

  lemma VisitCounts(s: State, k: int, snapshot: nat, w: Worker)
    requires Core(s) && CanVisit(s, k)
    requires w.hand == s.workers[k].hand && w.queue == s.workers[k].queue + Packed(s, snapshot)
    ensures Counts(s.(workers := s.workers[k := w],
                      paths := Bumped(s.paths, s.registry[s.cursor], Taking(s, snapshot) != [])))
  {
    VisitFacts(s, k);
    assert s.filler.Busy? && s.cursor < |s.registry|;
    hide *;
    forall p | p in s.paths
      ensures Sum(MarksOf(p), s.workers[k := w]) == Sum(MarksOf(p), s.workers) +
        if p.stream == s.registry[s.cursor] && Taking(s, snapshot) != [] then 1 else 0
    {
      VisitCountOf(s, k, snapshot, w, p);
    }
    BumpedCounts(s, s.workers[k := w], s.registry[s.cursor], Taking(s, snapshot) != []);
  }

  lemma VisitState(s: State, k: int, snapshot: nat)
    requires Core(s) && CanVisit(s, k)
    ensures var id := s.registry[s.cursor];
            var s' := DoVisit(s, k, snapshot);
            var w' := s.workers[k].(queue := s.workers[k].queue + Packed(s, snapshot), phase := Moving);
            && 0 <= id < |s.streams| && s.workers[k].hand == Empty
            && |s'.streams| == |s.streams| && |Packed(s, snapshot)| <= s.filler.left
            && s' == s.(workers := s.workers[k := w'], streams := s.streams[id := s'.streams[id]],
                        paths := Bumped(s.paths, id, Taking(s, snapshot) != []),
                        filler := s.filler.(left := s.filler.left - |Packed(s, snapshot)|))
            && s'.streams[id].numPaths == s.streams[id].numPaths && s'.streams[id].accepted == s.streams[id].accepted
            && Present(s.streams[id].queue) == Taking(s, snapshot) + Present(s'.streams[id].queue)
  {
    VisitFacts(s, k);
    hide WorkersOk, Counts, Bumped, Shape, FillerOk;
    var id := s.registry[s.cursor];
    var r := s.streams[id];
    var n := Taken(r.queue, r.numPaths, snapshot, s.filler.left);
    VisitBudget(id, r.numPaths, r.queue, snapshot, s.filler.left);
    hide Batch, Taken, Present, PathsOf;
    assert Taking(s, snapshot) == Present(r.queue[..n]);
    assert r.queue == r.queue[..n] + r.queue[n..];
    PresentConcat(r.queue[..n], r.queue[n..]);
  }

  /** A visit stays within its budget. */
  lemma VisitBudget(id: int, numPaths: nat, queue: seq<Option<UpdateId>>, snapshot: nat, left: nat)
    ensures |Batch(PathsOf(id, numPaths), Present(queue[..Taken(queue, numPaths, snapshot, left)]))| <= left
  {
    var n := Taken(queue, numPaths, snapshot, left);
    BatchLength(PathsOf(id, numPaths), Present(queue[..n]));
    TakenIsLongest(queue, numPaths, snapshot, left);
    hide Batch, Taken, Present;
  }

  lemma VisitCore(s: State, k: int, snapshot: nat)
    requires Core(s) && CanVisit(s, k)
    ensures Core(DoVisit(s, k, snapshot))
  {
    VisitState(s, k, snapshot);
    VisitWorkerOk(s, k, snapshot);
    VisitFacts(s, k);
    hide DoVisit, Taking, Packed, Sum, Covered, PhaseOk, Line, Present, InFill;
    var s' := DoVisit(s, k, snapshot);
    VisitCounts(s, k, snapshot, s'.workers[k]);
    hide Counts;
    assert Counts(s') by {
      SameCounts(s.(workers := s'.workers, paths := s'.paths), s');
    }
    VisitRest(s, s', k);
  }

  lemma SameCounts(s: State, s': State)
    requires Counts(s) && s'.paths == s.paths && s'.workers == s.workers
    ensures Counts(s')
  {
  }

  /** Shape, workers and scheduler after a visit. */
  lemma VisitRest(s: State, s': State, k: int)
    requires Core(s) && CanVisit(s, k)
    requires |s'.workers| == |s.workers|
    requires s' == s.(workers := s.workers[k := s'.workers[k]], streams := s'.streams, paths := s'.paths,
                      filler := s'.filler)
    requires s'.paths.Keys == s.paths.Keys && |s'.streams| == |s.streams|
    requires forall i :: 0 <= i < |s.streams| ==> s'.streams[i].numPaths == s.streams[i].numPaths
    requires WorkerOk(s.paths, s'.workers[k]) && s'.workers[k].phase == Moving
    requires s'.filler.Busy? && s'.filler.worker == k && s'.filler.left >= 0
    ensures Shape(s') && WorkersOk(s') && FillerOk(s')
  {
    hide Covered, PhaseOk, Counts, Line;
    forall i | 0 <= i < |s'.workers| ensures WorkerOk(s'.paths, s'.workers[i]) {
      assert i != k ==> WorkerOk(s.paths, s.workers[i]);
    }
    hide WorkerOk;
  }

  lemma VisitUnsent(s: State, k: int, snapshot: nat, p: PathId)
    requires Core(s) && CanVisit(s, k) && p in s.paths
    ensures UpdatesFor(Unsent(DoVisit(s, k, snapshot).workers[k]), p) ==
              if p.stream == s.registry[s.cursor] then UpdatesFor(Unsent(s.workers[k]), p) + Taking(s, snapshot)
              else UpdatesFor(Unsent(s.workers[k]), p)
  {
    VisitState(s, k, snapshot);
    PackedFor(s, k, snapshot, p);
    hide DoVisit, Core, Taking, Packed, Present, MarksFor;
    UpdatesForConcat(s.workers[k].queue, Packed(s, snapshot), p);
  }

  /** History is kept when queued updates of one stream become pending in one worker, in order. */
  lemma MovedHistory(s: State, s': State, k: int, id: int, us: seq<UpdateId>)
    requires Accounts(s) && Ordered(s)
    requires 0 <= k < |s.workers| && |s'.workers| == |s.workers| && s'.workers == s.workers[k := s'.workers[k]]
    requires 0 <= id < |s.streams| && |s'.streams| == |s.streams| && s'.streams == s.streams[id := s'.streams[id]]
    requires Present(s.streams[id].queue) == us + Present(s'.streams[id].queue)
    requires s'.streams[id].accepted == s.streams[id].accepted
    requires s'.paths.Keys == s.paths.Keys
    requires forall p :: p in s'.paths ==>
               && s'.paths[p].emitted == s.paths[p].emitted
               && UpdatesFor(Unsent(s'.workers[k]), p) ==
                    if p.stream == id then UpdatesFor(Unsent(s.workers[k]), p) + us
                        else UpdatesFor(Unsent(s.workers[k]), p)
    ensures Accounts(s') && Ordered(s')
  {
    hide Present, UpdatesFor, Sum, Unsent, Line;
    assert Accounts(s') by {
      forall p, v | p in s'.paths ensures AccountOf(s', p, v) {
        assert AccountOf(s, p, v);
        SumUpdate(PendingOf(p, v), s.workers, k, s'.workers[k]);
      }
    }
    if |s.workers| == 1 {
      forall p | p in s'.paths ensures OrderOf(s', p) {
        assert OrderOf(s, p);
        MoveBack(s.paths[p].emitted, UpdatesFor(Unsent(s.workers[k]), p), us, Present(s'.streams[id].queue));
      }
    }
  }

  lemma MoveBack(emitted: seq<UpdateId>, pending: seq<UpdateId>, us: seq<UpdateId>, queued: seq<UpdateId>)
    ensures emitted + pending + (us + queued) == emitted + (pending + us) + queued
  {
  }

  lemma VisitHistory(s: State, k: int, snapshot: nat)
    requires Inv(s) && CanVisit(s, k)
    ensures Accounts(DoVisit(s, k, snapshot)) && Ordered(DoVisit(s, k, snapshot))
  {
    VisitState(s, k, snapshot);
    var s', id := DoVisit(s, k, snapshot), s.registry[s.cursor];
    forall p | p in s'.paths
      ensures UpdatesFor(Unsent(s'.workers[k]), p) ==
                if p.stream == id then UpdatesFor(Unsent(s.workers[k]), p) + Taking(s, snapshot)
                else UpdatesFor(Unsent(s.workers[k]), p)
    {
      VisitUnsent(s, k, snapshot, p);
    }
    hide Core, DoVisit, Taking, Packed, Present, UpdatesFor, Accounts, Ordered, Unsent, Bumped;
    MovedHistory(s, s', k, id, Taking(s, snapshot));
  }

  // Every step of every run

  lemma AddStreamKeeps(s: State, n: nat)
    requires Inv(s)
    ensures Inv(DoAddStream(s, n))
  {
    hide Core, Accounts, Ordered;
    if s.filler == Idle {
      AddStreamCore(s, n);
      AddStreamHistory(s, n);
    }
  }

  lemma UnregisterKeeps(s: State, i: int)
    requires Inv(s)
    ensures Inv(DoUnregister(s, i))
  {
    hide Core, Accounts, Ordered;
    if 0 <= i < |s.registry| {
      UnregisterCore(s, i);
      SameHistory(s, DoUnregister(s, i));
    }
  }

  lemma EnqueueKeeps(s: State, id: int, entry: Option<UpdateId>)
    requires Inv(s)
    ensures Inv(DoEnqueue(s, id, entry))
  {
    hide Core, Accounts, Ordered;
    if 0 <= id < |s.streams| {
      EnqueueCore(s, id, entry);
      EnqueueHistory(s, id, entry);
    }
  }

  lemma VisitKeeps(s: State, k: int, snapshot: nat)
    requires Inv(s)
    ensures Inv(DoVisit(s, k, snapshot))
  {
    if CanVisit(s, k) {
      hide Core, Accounts, Ordered;
      VisitCore(s, k, snapshot);
      VisitHistory(s, k, snapshot);
    } else {
      NoVisit(s, k, snapshot);
      SameExceptEnds(s, DoVisit(s, k, snapshot));
    }
  }

  lemma NoVisit(s: State, k: int, snapshot: nat)
    requires Core(s) && !CanVisit(s, k)
    ensures DoVisit(s, k, snapshot) == s || (s.filler.Busy? && DoVisit(s, k, snapshot) == s.(thrown := true))
  {
    hide Taken, Batch, Present, PathsOf, Bumped;
  }

  /** The records of faults and exceptions are not part of the invariant. */
  lemma SameExceptEnds(s: State, s': State)
    requires Inv(s) && s' == s.(fault := s'.fault, thrown := s'.thrown)
    requires s'.thrown ==> s.thrown || s.filler.Busy?
    ensures Inv(s')
  {
    forall p, u | p in s'.paths ensures AccountOf(s', p, u) {
      assert AccountOf(s, p, u);
    }
    hide Core;
    if |s.workers| == 1 {
      forall p | p in s'.paths ensures OrderOf(s', p) {
        assert OrderOf(s, p);
      }
    }
    SameCore(s, s');
  }

  lemma SameCore(s: State, s': State)
    requires Core(s) && s' == s.(fault := s'.fault, thrown := s'.thrown)
    requires s'.thrown ==> s.thrown || s.filler.Busy?
    ensures Core(s')
  {
    hide WorkerOk, Sum;
  }

  lemma EmitKeeps(s: State, k: int)
    requires Inv(s)
    ensures Inv(DoEmit(s, k))
  {
    hide Core, Accounts, Ordered;
    if CanEmit(s, k) {
      EmitCore(s, k);
      EmitAccounts(s, k);
      EmitOrdered(s, k);
    } else {
      SameExceptEnds(s, DoEmit(s, k));
    }
  }

  lemma DestroyKeeps(s: State, k: int)
    requires Inv(s)
    ensures Inv(DoDestroy(s, k))
  {
    hide Core, Accounts, Ordered;
    if CanDestroy(s, k) {
      DestroyCore(s, k);
      DestroyHistory(s, k);
    } else {
      SameExceptEnds(s, DoDestroy(s, k));
    }
  }

  lemma ReadTransitKeeps(s: State, p: PathId)
    requires Inv(s)
    ensures Inv(DoReadTransit(s, p))
  {
    hide Core, Accounts, Ordered;
    if p in s.paths && p.stream !in s.registry && s.paths[p].transit == 0 && s.paths[p].stage == Live {
      StageCore(s, p, Released);
      SameHistory(s, DoReadTransit(s, p));
    }
  }

  lemma FreeKeeps(s: State, p: PathId)
    requires Inv(s)
    ensures Inv(DoFree(s, p))
  {
    hide Core, Accounts, Ordered;
    if p in s.paths && s.paths[p].stage == Released {
      StageCore(s, p, Freed);
      SameHistory(s, DoFree(s, p));
    }
  }

  lemma ApplyKeeps(s: State, a: Action)
    requires Inv(s)
    ensures Inv(Apply(s, a))
  {
    hide Inv;
    if s.thrown {
      return;
    }
    match a
    case AddStream(n) => AddStreamKeeps(s, n);
    case Unregister(i) => UnregisterKeeps(s, i);
    case Enqueue(id, entry) => EnqueueKeeps(s, id, entry);
    case TestRun(k) => TestRunKeeps(s, k);
    case BeginFill(k, budget) => BeginFillKeeps(s, k, budget);
    case Visit(k, snapshot) => VisitKeeps(s, k, snapshot);
    case Advance(k) => AdvanceKeeps(s, k);
    case Dequeue(k) => DequeueKeeps(s, k);
    case Emit(k) => EmitKeeps(s, k);
    case Destroy(k) => DestroyKeeps(s, k);
    case StopWorker(k) => StopWorkerKeeps(s, k);
    case ReadTransit(p) => ReadTransitKeeps(s, p);
    case Free(p) => FreeKeeps(s, p);
  }

  /** In every reachable state, with any number of workers and any interleaving. */
  lemma {:induction false} RunKeeps(numWorkers: nat, actions: seq<Action>)
    ensures Inv(Run(Init(numWorkers), actions))
  {
    if actions == [] {
      InitHolds(numWorkers);
    } else {
      RunKeeps(numWorkers, actions[..|actions| - 1]);
      ApplyKeeps(Run(Init(numWorkers), actions[..|actions| - 1]), actions[|actions| - 1]);
    }
  }

  lemma InitHolds(numWorkers: nat)
    ensures Inv(Init(numWorkers))
  {
  }
}
