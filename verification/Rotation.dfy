/**
  The pure specification of ConversionScheduler::fill: which streams one call visits, what it
  queues, and how the cursor moves over any number of calls.
 */
module Rotation {
  import opened Basics
  import opened Batches

  /** `visits` are the positions looked at, in order. */
  datatype FillResult<P> = FillResult(streams: seq<StreamState<P>>, packets: seq<Packet<P>>, cursor: int,
      visits: seq<int>)

  function Next(position: int, n: int): int {
    if position + 1 >= n then 0 else position + 1
  }

  /** How many steps the cursor needs from `first` to `position`. */
  function Offset(first: int, position: int, n: int): int {
    if position >= first then position - first else position - first + n
  }

  /** What one visit takes from a stream. */
  ghost function Takes<P>(st: StreamState<P>, left: int): (us: seq<UpdateId>) {
    if left < 0 then [] else Present(st.queue[..Taken(st.queue, |st.paths|, |st.queue|, left)])
  }

  ghost function Rest<P>(st: StreamState<P>, left: int): (r: StreamState<P>) {
    if left < 0 then st else st.(queue := st.queue[Taken(st.queue, |st.paths|, |st.queue|, left)..])
  }

  /** The loop: at most k more visits, `left` more packets. */
  ghost function FillFrom<P>(ss: seq<StreamState<P>>, cursor: int, k: nat, left: int): (r: FillResult<P>)
    requires 0 <= cursor < |ss|
    ensures |r.streams| == |ss|
    decreases k
  {
    if k == 0 || left <= 0 then FillResult(ss, [], cursor, []) else
    var batch := Batch(ss[cursor].paths, Takes(ss[cursor], left));
    var r := FillFrom(ss[cursor := Rest(ss[cursor], left)], Next(cursor, |ss|), k - 1, left - |batch|);
    FillResult(r.streams, batch + r.packets, r.cursor, [cursor] + r.visits)
  }

  /** One call of `fill` with the budget `nfm`. */
  ghost function Fill<P>(ss: seq<StreamState<P>>, sid: int, nfm: nat): (r: FillResult<P>)
    requires sid >= 0
  {
    if ss == [] then FillResult(ss, [], sid, [])
    else FillFrom(ss, if sid >= |ss| then 0 else sid, |ss|, nfm)
  }

  // The budget

  /** One visit stays within the budget, and leaves entries behind only if no other fan fits. */
  lemma VisitBudget<P>(st: StreamState<P>, left: nat)
    ensures var batch := Batch(st.paths, Takes(st, left));
            && |batch| <= left
            && Rest(st, left).paths == st.paths
            && (Rest(st, left).queue != [] ==> left - |batch| < |st.paths|)
  {
    LeftBehind(st.queue, |st.paths|, |st.queue|, left);
    BatchLength(st.paths, Takes(st, left));
  }

  lemma {:induction false} FillFromBudget<P>(ss: seq<StreamState<P>>, cursor: int, k: nat, left: nat)
    requires 0 <= cursor < |ss|
    ensures |FillFrom(ss, cursor, k, left).packets| <= left
    decreases k
  {
    hide Batch, Takes, Rest;
    if k > 0 && left > 0 {
      VisitBudget(ss[cursor], left);
      var batch := Batch(ss[cursor].paths, Takes(ss[cursor], left));
      FillFromBudget(ss[cursor := Rest(ss[cursor], left)], Next(cursor, |ss|), k - 1, left - |batch|);
    }
  }

  /** `fill` never queues more packets than its budget. */
  lemma FillBudget<P>(ss: seq<StreamState<P>>, sid: nat, nfm: nat)
    ensures |Fill(ss, sid, nfm).packets| <= nfm
  {
    if ss != [] {
      FillFromBudget(ss, if sid >= |ss| then 0 else sid, |ss|, nfm);
    }
  }

  // The visits

  /** Positions further away than the visits left are neither visited nor changed. */
  lemma {:induction false} Untouched<P>(ss: seq<StreamState<P>>, cursor: int, k: nat, left: int, i: int)
    requires 0 <= cursor < |ss| && 0 <= i < |ss| && Offset(cursor, i, |ss|) >= k
    ensures FillFrom(ss, cursor, k, left).streams[i] == ss[i]
    ensures i !in FillFrom(ss, cursor, k, left).visits
    decreases k
  {
    hide Batch, Takes, Rest;
    if k > 0 && left > 0 {
      var batch := Batch(ss[cursor].paths, Takes(ss[cursor], left));
      Untouched(ss[cursor := Rest(ss[cursor], left)], Next(cursor, |ss|), k - 1, left - |batch|, i);
    }
  }

  ghost predicate Cyclic(vs: seq<int>, n: int) {
    && (forall i :: 0 <= i < |vs| ==> 0 <= vs[i] < n)
    && forall i :: 0 <= i < |vs| - 1 ==> vs[i + 1] == Next(vs[i], n)
  }

  /** The visits run in strict cyclic order from the cursor, which ends behind the last one. */
  lemma {:induction false} FillFromVisits<P>(ss: seq<StreamState<P>>, cursor: int, k: nat, left: int)
    requires 0 <= cursor < |ss|
    ensures var r := FillFrom(ss, cursor, k, left);
            && Cyclic(r.visits, |ss|) && |r.visits| <= k
            && (r.visits != [] ==> r.visits[0] == cursor && r.cursor == Next(r.visits[|r.visits| - 1], |ss|))
            && (r.visits == [] ==> r.cursor == cursor)
            && 0 <= r.cursor < |ss|
            && (left > |r.packets| ==> |r.visits| == k)
    decreases k
  {
    hide Batch, Takes, Rest;
    if k > 0 && left > 0 {
      var batch := Batch(ss[cursor].paths, Takes(ss[cursor], left));
      FillFromVisits(ss[cursor := Rest(ss[cursor], left)], Next(cursor, |ss|), k - 1, left - |batch|);
    }
  }

  lemma {:induction false} FillFromDistinct<P>(ss: seq<StreamState<P>>, cursor: int, k: nat, left: int)
    requires 0 <= cursor < |ss| && k <= |ss|
    ensures Distinct(FillFrom(ss, cursor, k, left).visits)
    decreases k
  {
    hide Batch, Takes, Rest;
    if k > 0 && left > 0 {
      var batch := Batch(ss[cursor].paths, Takes(ss[cursor], left));
      var ss' := ss[cursor := Rest(ss[cursor], left)];
      FillFromDistinct(ss', Next(cursor, |ss|), k - 1, left - |batch|);
      Untouched(ss', Next(cursor, |ss|), k - 1, left - |batch|, cursor);
      var r := FillFrom(ss', Next(cursor, |ss|), k - 1, left - |batch|);
      assert forall i :: 0 <= i < |r.visits| ==> r.visits[i] in r.visits;
    }
  }

  /** Work conservation: what a visited stream still holds could not be paid for any more. */
  lemma {:induction false} FillFromWork<P>(ss: seq<StreamState<P>>, cursor: int, k: nat, left: nat, i: int)
    requires 0 <= cursor < |ss| && k <= |ss|
    requires i in FillFrom(ss, cursor, k, left).visits
    ensures 0 <= i < |ss|
    ensures var r := FillFrom(ss, cursor, k, left);
            r.streams[i].queue == [] || left - |r.packets| < |r.streams[i].paths|
    decreases k
  {
    hide Batch, Takes, Rest;
    var batch := Batch(ss[cursor].paths, Takes(ss[cursor], left));
    var ss', cursor', left' := ss[cursor := Rest(ss[cursor], left)], Next(cursor, |ss|), left - |batch|;
    VisitBudget(ss[cursor], left);
    if i == cursor {
      Untouched(ss', cursor', k - 1, left', cursor);
    } else {
      FillFromWork(ss', cursor', k - 1, left', i);
    }
  }

  /**
    One call of `fill`: it begins where the last one ended, if there is a stream, and goes on in cyclic
    order; no stream is visited twice; every visited stream is left empty or has more
    paths than the budget left; and if budget is left, every stream was visited.
   */
  lemma FillIsWorkConserving<P>(ss: seq<StreamState<P>>, sid: nat, nfm: nat)
    ensures var r := Fill(ss, sid, nfm);
            && |r.streams| == |ss|
            && Distinct(r.visits) && Cyclic(r.visits, |ss|)
            && (ss != [] && nfm > 0 ==> r.visits != [] && r.visits[0] == if sid < |ss| then sid else 0)
            && (forall i :: i in r.visits ==> 0 <= i < |ss|)
            && (forall i :: i in r.visits ==>
                  r.streams[i].queue == [] || nfm - |r.packets| < |r.streams[i].paths|)
            && (forall i :: 0 <= i < |ss| && i !in r.visits ==> r.streams[i] == ss[i])
            && (|r.packets| < nfm ==> |r.visits| == |ss| && forall i :: 0 <= i < |ss| ==> i in r.visits)
  {
    if ss != [] {
      var first := if sid >= |ss| then 0 else sid;
      var r := Fill(ss, sid, nfm);
      FillFromVisits(ss, first, |ss|, nfm);
      FillFromDistinct(ss, first, |ss|, nfm);
      forall i | i in r.visits
        ensures 0 <= i < |ss| && (r.streams[i].queue == [] || nfm - |r.packets| < |r.streams[i].paths|)
      {
        FillFromWork(ss, first, |ss|, nfm, i);
      }
      forall i | 0 <= i < |ss| && i !in r.visits ensures r.streams[i] == ss[i] {
        Unvisited(ss, first, |ss|, nfm, i);
      }
      if |r.packets| < nfm {
        AllVisited(r.visits, |ss|);
      }
    }
  }

  lemma {:induction false} Unvisited<P>(ss: seq<StreamState<P>>, cursor: int, k: nat, left: int, i: int)
    requires 0 <= cursor < |ss| && 0 <= i < |ss|
    requires i !in FillFrom(ss, cursor, k, left).visits
    ensures FillFrom(ss, cursor, k, left).streams[i] == ss[i]
    decreases k
  {
    hide Batch, Takes, Rest;
    if k > 0 && left > 0 {
      var batch := Batch(ss[cursor].paths, Takes(ss[cursor], left));
      var ss' := ss[cursor := Rest(ss[cursor], left)];
      var r := FillFrom(ss', Next(cursor, |ss|), k - 1, left - |batch|);
      assert FillFrom(ss, cursor, k, left).visits == [cursor] + r.visits;
      Unvisited(ss', Next(cursor, |ss|), k - 1, left - |batch|, i);
    }
  }

  // What a call moves

  /** No path occurs twice: neither within one stream nor in two streams. */
  ghost predicate Apart<P>(ss: seq<StreamState<P>>) {
    && (forall i :: 0 <= i < |ss| ==> Distinct(ss[i].paths))
    && forall i, j :: 0 <= i < j < |ss| ==> forall p :: p in ss[i].paths ==> p !in ss[j].paths
  }

  lemma ApartAfter<P>(ss: seq<StreamState<P>>, cursor: int, left: int)
    requires Apart(ss) && 0 <= cursor < |ss|
    ensures Apart(ss[cursor := Rest(ss[cursor], left)])
  {
    var ss' := ss[cursor := Rest(ss[cursor], left)];
    assert forall i :: 0 <= i < |ss| ==> ss'[i].paths == ss[i].paths;
  }

  lemma VisitConserves<P>(st: StreamState<P>, left: int, p: P)
    requires Distinct(st.paths)
    ensures UpdatesFor(Batch(st.paths, Takes(st, left)), p) == if p in st.paths then Takes(st, left) else []
    ensures Present(st.queue) == Takes(st, left) + Present(Rest(st, left).queue)
    ensures Rest(st, left).paths == st.paths
  {
    BatchFor(st.paths, Takes(st, left), p);
    if left >= 0 {
      var n := Taken(st.queue, |st.paths|, |st.queue|, left);
      PresentConcat(st.queue[..n], st.queue[n..]);
      assert st.queue == st.queue[..n] + st.queue[n..];
    }
  }

  lemma OnePlace<P>(ss: seq<StreamState<P>>, i: int, j: int, p: P)
    requires Apart(ss) && 0 <= i < |ss| && 0 <= j < |ss| && p in ss[i].paths
    ensures p in ss[j].paths <==> i == j
    ensures Distinct(ss[j].paths)
  {
  }

  lemma NextInRange(position: int, n: int)
    requires 0 <= position < n
    ensures 0 <= Next(position, n) < n
  {
  }

  lemma FillFromStep<P>(ss: seq<StreamState<P>>, cursor: int, k: nat, left: int)
    requires 0 <= cursor < |ss| && k > 0 && left > 0
    ensures 0 <= Next(cursor, |ss|) < |ss|
    ensures var batch := Batch(ss[cursor].paths, Takes(ss[cursor], left));
            var r := FillFrom(ss[cursor := Rest(ss[cursor], left)], Next(cursor, |ss|), k - 1, left - |batch|);
            var now := FillFrom(ss, cursor, k, left);
            now.packets == batch + r.packets && now.streams == r.streams && now.cursor == r.cursor
  {
  }

  lemma NothingFor<P>(p: P)
    ensures UpdatesFor([], p) == []
  {
  }

  lemma FillFromStop<P>(ss: seq<StreamState<P>>, cursor: int, k: nat, left: int)
    requires 0 <= cursor < |ss| && (k == 0 || left <= 0)
    ensures FillFrom(ss, cursor, k, left) == FillResult(ss, [], cursor, [])
  {
  }

  /**
    Conservation: for every path, what its stream's queue held before a call is what the call's
    packets carry to that path followed by what the queue still holds.
   */
  lemma {:induction false} FillFromConserves<P>(ss: seq<StreamState<P>>, cursor: int, k: nat, left: int, i: int, p: P)
    requires Apart(ss) && 0 <= cursor < |ss| && 0 <= i < |ss| && p in ss[i].paths
    ensures var r := FillFrom(ss, cursor, k, left);
            Present(ss[i].queue) == UpdatesFor(r.packets, p) + Present(r.streams[i].queue)
    decreases k
  {
    hide *;
    if k > 0 && left > 0 {
      var st := ss[cursor];
      var batch, ss' := Batch(st.paths, Takes(st, left)), ss[cursor := Rest(st, left)];
      NextInRange(cursor, |ss|);
      var r := FillFrom(ss', Next(cursor, |ss|), k - 1, left - |batch|);
      FillFromStep(ss, cursor, k, left);
      ApartAfter(ss, cursor, left);
      OnePlace(ss, i, cursor, p);
      VisitConserves(st, left, p);
      FillFromConserves(ss', Next(cursor, |ss|), k - 1, left - |batch|, i, p);
      UpdatesForConcat(batch, r.packets, p);
    } else {
      FillFromStop(ss, cursor, k, left);
      NothingFor(p);
    }
  }

  lemma FillConserves<P>(ss: seq<StreamState<P>>, sid: nat, nfm: nat, i: int, p: P)
    requires Apart(ss) && 0 <= i < |ss| && p in ss[i].paths
    ensures |Fill(ss, sid, nfm).streams| == |ss|
    ensures var r := Fill(ss, sid, nfm);
            Present(ss[i].queue) == UpdatesFor(r.packets, p) + Present(r.streams[i].queue)
  {
    FillFromConserves(ss, if sid >= |ss| then 0 else sid, |ss|, nfm, i, p);
  }

  lemma RestPaths<P>(st: StreamState<P>, left: int)
    ensures Rest(st, left).paths == st.paths
  {
  }

  /** Every packet is for one of these paths. */
  ghost predicate Within<P>(ps: seq<Packet<P>>, all: set<P>) {
    forall i :: 0 <= i < |ps| ==> ps[i].path in all
  }

  ghost predicate PathsIn<P>(ss: seq<StreamState<P>>, all: set<P>) {
    forall i :: 0 <= i < |ss| ==> forall p :: p in ss[i].paths ==> p in all
  }

  lemma PathsInAfter<P>(ss: seq<StreamState<P>>, cursor: int, left: int, all: set<P>)
    requires PathsIn(ss, all) && 0 <= cursor < |ss|
    ensures PathsIn(ss[cursor := Rest(ss[cursor], left)], all)
  {
    RestPaths(ss[cursor], left);
  }

  lemma BatchWithin<P>(ss: seq<StreamState<P>>, cursor: int, us: seq<UpdateId>, all: set<P>)
    requires PathsIn(ss, all) && 0 <= cursor < |ss|
    ensures Within(Batch(ss[cursor].paths, us), all)
  {
    forall j | 0 <= j < |Batch(ss[cursor].paths, us)| ensures Batch(ss[cursor].paths, us)[j].path in all {
      BatchPath(ss[cursor].paths, us, j);
    }
  }

  lemma WithinConcat<P>(a: seq<Packet<P>>, b: seq<Packet<P>>, all: set<P>)
    requires Within(a, all) && Within(b, all)
    ensures Within(a + b, all)
  {
  }

  lemma WithinNone<P>(all: set<P>)
    ensures Within<P>([], all)
  {
  }

  /** A call only makes packets for paths of the streams it was given. */
  lemma {:induction false} FillFromWithin<P>(ss: seq<StreamState<P>>, cursor: int, k: nat, left: int, all: set<P>)
    requires 0 <= cursor < |ss| && PathsIn(ss, all)
    ensures Within(FillFrom(ss, cursor, k, left).packets, all)
    decreases k
  {
    hide *;
    WithinNone(all);
    if k > 0 && left > 0 {
      var us := Takes(ss[cursor], left);
      FillFromStep(ss, cursor, k, left);
      PathsInAfter(ss, cursor, left, all);
      BatchWithin(ss, cursor, us, all);
      var ss', left' := ss[cursor := Rest(ss[cursor], left)], left - |Batch(ss[cursor].paths, us)|;
      FillFromWithin(ss', Next(cursor, |ss|), k - 1, left', all);
      WithinConcat(Batch(ss[cursor].paths, us), FillFrom(ss', Next(cursor, |ss|), k - 1, left').packets, all);
    } else {
      FillFromStop(ss, cursor, k, left);
    }
  }

  // Strict cyclic order and fairness

  ghost function Count(vs: seq<int>, x: int): (n: nat) {
    if vs == [] then 0 else (if vs[0] == x then 1 else 0) + Count(vs[1..], x)
  }

  /**
    In strict cyclic order from `first`, a position that comes up no later than another one has been
    visited as often, or once more.
   */
  lemma {:induction false} CyclicCount(vs: seq<int>, n: int, first: int, x: int, y: int)
    requires Cyclic(vs, n) && 0 <= first < n && (vs != [] ==> vs[0] == first)
    requires 0 <= x < n && 0 <= y < n && Offset(first, x, n) <= Offset(first, y, n)
    ensures Count(vs, y) <= Count(vs, x) <= Count(vs, y) + 1
    decreases |vs|
  {
    if vs != [] {
      assert forall i :: 0 <= i < |vs| - 1 ==> vs[1..][i] == vs[i + 1];
      if x == first && y != first {
        CyclicCount(vs[1..], n, Next(first, n), y, x);
      } else {
        CyclicCount(vs[1..], n, Next(first, n), x, y);
      }
    }
  }

  /** The visit that comes `i` after the first one. */
  lemma {:induction false} CyclicAt(vs: seq<int>, n: int, i: int)
    requires Cyclic(vs, n) && 0 <= i < |vs| && i < n
    ensures vs[i] == if vs[0] + i < n then vs[0] + i else vs[0] + i - n
  {
    if i > 0 {
      CyclicAt(vs, n, i - 1);
      assert vs[i - 1 + 1] == Next(vs[i - 1], n);
    }
  }

  lemma AllVisited(vs: seq<int>, n: int)
    requires Cyclic(vs, n) && |vs| == n
    ensures forall i :: 0 <= i < n ==> i in vs
  {
    forall x | 0 <= x < n ensures x in vs {
      CyclicAt(vs, n, Offset(vs[0], x, n));
    }
  }

  /** A call: the streams as it finds them, and its budget. */
  datatype Call<P> = Call(streams: seq<StreamState<P>>, budget: nat)

  /** All visits of a run of calls, and the cursor after it. */
  ghost function RunVisits<P>(calls: seq<Call<P>>, sid: int): (r: (seq<int>, int))
    requires sid >= 0
    ensures r.1 >= 0
  {
    if calls == [] then ([], sid) else
    var done := RunVisits(calls[..|calls| - 1], sid);
    var call := calls[|calls| - 1];
    if call.streams != [] then
      FillFromVisits(call.streams, if done.1 >= |call.streams| then 0 else done.1, |call.streams|, call.budget);
      var r := Fill(call.streams, done.1, call.budget);
      (done.0 + r.visits, r.cursor)
    else done
  }

  lemma NoVisits(n: int)
    ensures Cyclic([], n)
  {
  }

  lemma CyclicAppend(a: seq<int>, b: seq<int>, n: int)
    requires Cyclic(a, n) && Cyclic(b, n)
    requires a != [] && b != [] ==> b[0] == Next(a[|a| - 1], n)
    ensures Cyclic(a + b, n)
  {
  }

  lemma {:induction false} RunCyclic<P>(calls: seq<Call<P>>, n: int, sid: int)
    requires 0 <= sid < n && forall i :: 0 <= i < |calls| ==> |calls[i].streams| == n
    ensures var r := RunVisits(calls, sid);
            && Cyclic(r.0, n) && 0 <= r.1 < n
            && (r.0 != [] ==> r.0[0] == sid && r.1 == Next(r.0[|r.0| - 1], n))
            && (r.0 == [] ==> r.1 == sid)
  {
    hide FillFrom, Cyclic;
    if calls != [] {
      RunCyclic(calls[..|calls| - 1], n, sid);
      var done, call := RunVisits(calls[..|calls| - 1], sid), calls[|calls| - 1];
      FillFromVisits(call.streams, done.1, n, call.budget);
      CyclicAppend(done.0, Fill(call.streams, done.1, call.budget).visits, n);
    } else {
      NoVisits(n);
    }
  }

  /**
    Over any run of calls on n streams, whatever the queues and budgets, the visits are in strict
    cyclic order, so no stream is visited more than once more often than another.
   */
  lemma RotationIsFair<P>(calls: seq<Call<P>>, n: int, sid: int, x: int, y: int)
    requires 0 <= sid < n && forall i :: 0 <= i < |calls| ==> |calls[i].streams| == n
    requires 0 <= x < n && 0 <= y < n
    ensures var vs := RunVisits(calls, sid).0;
            Cyclic(vs, n) && Count(vs, x) <= Count(vs, y) + 1
  {
    RunCyclic(calls, n, sid);
    var vs := RunVisits(calls, sid).0;
    if Offset(sid, x, n) <= Offset(sid, y, n) {
      CyclicCount(vs, n, sid, x, y);
    } else {
      CyclicCount(vs, n, sid, y, x);
    }
  }
}
