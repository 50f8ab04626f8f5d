/**
  The pure specification of one batch: which entries of a stream's queue a call of
  Stream::fillConversionQueue takes, and which packets it appends to a worker's queue.

  The type parameter P stands for a conversion path: a heap object in the class layer
  (ConversionHeap) and a path identity in the transition system (Pipeline).
 */
module Batches {
  import opened Basics

  /** The identity of one EPICS update object. */
  type UpdateId = int

  /** A ConversionWorkPacket; `marked` says that its `stream` pointer is set. */
  datatype Packet<P> = Packet(path: P, update: UpdateId, marked: bool)

  /** A stream: its queue (None is a null update) and its conversion paths. */
  datatype StreamState<P> = StreamState(queue: seq<Option<UpdateId>>, paths: seq<P>)

  /** The non-null updates of a queue, in order. */
  function Present(q: seq<Option<UpdateId>>): (us: seq<UpdateId>)
  {
    if q == [] then []
    else if q[0].Some? then [q[0].value] + Present(q[1..])
    else Present(q[1..])
  }

  /** How many queue entries one call takes, given the queue size it read at its start. */
  function Taken(q: seq<Option<UpdateId>>, paths: nat, snapshot: nat, max: nat): (n: nat)
    ensures n <= |q| && n <= snapshot
  {
    if q == [] || snapshot == 0 || max < paths then 0
    else 1 + Taken(q[1..], paths, snapshot - 1, if q[0].Some? then max - paths else max)
  }

  function Join(us: seq<UpdateId>, entry: Option<UpdateId>): (r: seq<UpdateId>) {
    if entry.Some? then us + [entry.value] else us
  }

  /** The non-null updates one call takes, and the entries it leaves in the queue. */
  function Take(q: seq<Option<UpdateId>>, paths: nat, snapshot: nat, max: nat)
    : (r: (seq<UpdateId>, seq<Option<UpdateId>>))
  {
    if q == [] || snapshot == 0 || max < paths then ([], q)
    else if q[0].None? then Take(q[1..], paths, snapshot - 1, max)
    else var later := Take(q[1..], paths, snapshot - 1, max - paths); ([q[0].value] + later.0, later.1)
  }

  /** One step of the loop: the entry just taken moves from what is to come to what was taken. */
  lemma TakeStep(us: seq<UpdateId>, entry: Option<UpdateId>, rest: seq<Option<UpdateId>>, paths: nat,
      snapshot: nat, max: nat)
    requires snapshot > 0 && paths <= max
    ensures var later := Take([entry] + rest, paths, snapshot, max);
            var later' := Take(rest, paths, snapshot - 1, if entry.Some? then max - paths else max);
            us + later.0 == Join(us, entry) + later'.0 && later.1 == later'.1
  {
    assert ([entry] + rest)[1..] == rest;
  }

  lemma TakeStop(us: seq<UpdateId>, q: seq<Option<UpdateId>>, paths: nat, snapshot: nat, max: nat)
    requires q == [] || snapshot == 0 || max < paths
    ensures var later := Take(q, paths, snapshot, max);
            us + later.0 == us && later.1 == q
  {
  }

  lemma {:induction false} TakeIsPrefix(q: seq<Option<UpdateId>>, paths: nat, snapshot: nat, max: nat)
    ensures var n := Taken(q, paths, snapshot, max);
            Take(q, paths, snapshot, max) == (Present(q[..n]), q[n..])
  {
    var n := Taken(q, paths, snapshot, max);
    assert q[..0] == [] && q[0..] == q;
    if q != [] && snapshot != 0 && max >= paths {
      TakeIsPrefix(q[1..], paths, snapshot - 1, if q[0].Some? then max - paths else max);
      assert q[..n][1..] == q[1..][..n - 1] && q[1..][n - 1..] == q[n..];
    }
  }

  /** One packet per path for one update. */
  function Fan<P>(paths: seq<P>, u: UpdateId, marked: bool): (ps: seq<Packet<P>>)
    ensures |ps| == |paths|
  {
    seq(|paths|, i requires 0 <= i < |paths| => Packet(paths[i], u, marked))
  }

  /** The product of updates and paths, update by update, before anything is marked. */
  function Plain<P>(paths: seq<P>, us: seq<UpdateId>): (ps: seq<Packet<P>>) {
    if us == [] then []
    else Plain(paths, us[..|us| - 1]) + Fan(paths, us[|us| - 1], false)
  }

  /** The product of updates and paths with the last packet of every path marked. */
  function Batch<P>(paths: seq<P>, us: seq<UpdateId>): (ps: seq<Packet<P>>) {
    if us == [] then []
    else Plain(paths, us[..|us| - 1]) + Fan(paths, us[|us| - 1], true)
  }

  /** The updates that a list of packets carries for one path, in order. */
  ghost function UpdatesFor<P>(ps: seq<Packet<P>>, p: P): (us: seq<UpdateId>) {
    if ps == [] then []
    else if ps[0].path == p then [ps[0].update] + UpdatesFor(ps[1..], p)
    else UpdatesFor(ps[1..], p)
  }

  /** The number of marked packets for one path. */
  ghost function MarksFor<P>(ps: seq<Packet<P>>, p: P): (n: nat) {
    if ps == [] then 0
    else (if ps[0].path == p && ps[0].marked then 1 else 0) + MarksFor(ps[1..], p)
  }

  /** Some packet at or after position i is a marked one for the path of packet i. */
  ghost predicate MarkFollows<P>(ps: seq<Packet<P>>, i: int)
    requires 0 <= i < |ps|
  {
    exists j :: i <= j < |ps| && ps[j].path == ps[i].path && ps[j].marked
  }

  /** Every packet is at or before a marked packet for its path. */
  ghost predicate Covered<P>(ps: seq<Packet<P>>) {
    forall i :: 0 <= i < |ps| ==> MarkFollows(ps, i)
  }

  // Concatenation

  lemma {:induction false} PresentConcat(a: seq<Option<UpdateId>>, b: seq<Option<UpdateId>>)
    ensures Present(a + b) == Present(a) + Present(b)
  {
    if a == [] {
      assert a + b == b;
    } else {
      PresentConcat(a[1..], b);
      assert (a + b)[1..] == a[1..] + b;
    }
  }

  lemma {:induction false} UpdatesForConcat<P>(a: seq<Packet<P>>, b: seq<Packet<P>>, p: P)
    ensures UpdatesFor(a + b, p) == UpdatesFor(a, p) + UpdatesFor(b, p)
  {
    if a == [] {
      assert a + b == b;
    } else {
      UpdatesForConcat(a[1..], b, p);
      assert (a + b)[0] == a[0] && (a + b)[1..] == a[1..] + b;
      assert [a[0].update] + (UpdatesFor(a[1..], p) + UpdatesFor(b, p)) == [a[0].update] + UpdatesFor(a[1..], p)
          + UpdatesFor(b, p);
    }
  }

  lemma {:induction false} MarksForConcat<P>(a: seq<Packet<P>>, b: seq<Packet<P>>, p: P)
    ensures MarksFor(a + b, p) == MarksFor(a, p) + MarksFor(b, p)
  {
    if a == [] {
      assert a + b == b;
    } else {
      MarksForConcat(a[1..], b, p);
      assert (a + b)[1..] == a[1..] + b;
    }
  }

  lemma CoveredConcat<P>(a: seq<Packet<P>>, b: seq<Packet<P>>)
    requires Covered(a) && Covered(b)
    ensures Covered(a + b)
  {
    forall i | 0 <= i < |a + b| ensures MarkFollows(a + b, i) {
      if i < |a| {
        assert MarkFollows(a, i);
        var j :| i <= j < |a| && a[j].path == a[i].path && a[j].marked;
        assert (a + b)[j] == a[j];
      } else {
        assert MarkFollows(b, i - |a|);
        var j :| i - |a| <= j < |b| && b[j].path == b[i - |a|].path && b[j].marked;
        assert (a + b)[|a| + j] == b[j];
      }
    }
  }

  /** Destroying the oldest packet keeps the cover. */
  lemma CoveredTail<P>(ps: seq<Packet<P>>)
    requires Covered(ps) && ps != []
    ensures Covered(ps[1..])
  {
    forall i | 0 <= i < |ps| - 1 ensures MarkFollows(ps[1..], i) {
      assert MarkFollows(ps, i + 1);
      var j :| i + 1 <= j < |ps| && ps[j].path == ps[i + 1].path && ps[j].marked;
      assert ps[1..][j - 1] == ps[j];
    }
  }

  /** In a covered list, no mark for a path means no packet for it. */
  lemma NoMarksNoPackets<P>(ps: seq<Packet<P>>, p: P, i: int)
    requires Covered(ps) && MarksFor(ps, p) == 0
    requires 0 <= i < |ps|
    ensures ps[i].path != p
  {
    if ps[i].path == p {
      assert MarkFollows(ps, i);
      var j :| i <= j < |ps| && ps[j].path == ps[i].path && ps[j].marked;
      MarkCounts(ps, p, j);
    }
  }

  lemma {:induction false} MarkCounts<P>(ps: seq<Packet<P>>, p: P, j: int)
    requires 0 <= j < |ps| && ps[j].path == p && ps[j].marked
    ensures MarksFor(ps, p) >= 1
  {
    if j > 0 {
      MarkCounts(ps[1..], p, j - 1);
    }
  }

  // What one batch holds for each path

  lemma {:induction false} FanFor<P>(paths: seq<P>, u: UpdateId, marked: bool, p: P)
    requires Distinct(paths)
    ensures UpdatesFor(Fan(paths, u, marked), p) == if p in paths then [u] else []
    ensures MarksFor(Fan(paths, u, marked), p) == if p in paths && marked then 1 else 0
  {
    if paths != [] {
      FanFor(paths[1..], u, marked, p);
      assert Fan(paths, u, marked)[1..] == Fan(paths[1..], u, marked);
      assert p in paths <==> p == paths[0] || p in paths[1..];
    }
  }

  lemma {:induction false} PlainFor<P>(paths: seq<P>, us: seq<UpdateId>, p: P)
    requires Distinct(paths)
    ensures UpdatesFor(Plain(paths, us), p) == if p in paths then us else []
    ensures MarksFor(Plain(paths, us), p) == 0
  {
    if us != [] {
      var front, u := us[..|us| - 1], us[|us| - 1];
      assert Plain(paths, us) == Plain(paths, front) + Fan(paths, u, false);
      assert us == front + [u];
      hide *;
      PlainFor(paths, front, p);
      FanFor(paths, u, false, p);
      UpdatesForConcat(Plain(paths, front), Fan(paths, u, false), p);
      MarksForConcat(Plain(paths, front), Fan(paths, u, false), p);
    }
  }

  /** Every path gets every update once, in order, and exactly one mark if there is an update. */
  lemma BatchFor<P>(paths: seq<P>, us: seq<UpdateId>, p: P)
    requires Distinct(paths)
    ensures UpdatesFor(Batch(paths, us), p) == if p in paths then us else []
    ensures MarksFor(Batch(paths, us), p) == if p in paths && us != [] then 1 else 0
  {
    if us != [] {
      var front, u := us[..|us| - 1], us[|us| - 1];
      assert Batch(paths, us) == Plain(paths, front) + Fan(paths, u, true);
      assert us == front + [u];
      hide *;
      PlainFor(paths, front, p);
      FanFor(paths, u, true, p);
      UpdatesForConcat(Plain(paths, front), Fan(paths, u, true), p);
      MarksForConcat(Plain(paths, front), Fan(paths, u, true), p);
    } else {
      assert Batch(paths, us) == [];
    }
  }

  lemma {:induction false} PlainLength<P>(paths: seq<P>, us: seq<UpdateId>)
    ensures |Plain(paths, us)| == |us| * |paths|
  {
    if us != [] {
      PlainLength(paths, us[..|us| - 1]);
      assert |us| * |paths| == (|us| - 1) * |paths| + |paths|;
    }
  }

  /** A batch holds updates times paths packets. */
  lemma BatchLength<P>(paths: seq<P>, us: seq<UpdateId>)
    ensures |Batch(paths, us)| == |us| * |paths|
  {
    if us != [] {
      PlainLength(paths, us[..|us| - 1]);
      assert |us| * |paths| == (|us| - 1) * |paths| + |paths|;
    }
  }

  lemma {:induction false} PlainAt<P>(paths: seq<P>, us: seq<UpdateId>, j: nat, i: nat)
    requires j < |us| && i < |paths|
    ensures j * |paths| + i < |Plain(paths, us)|
    ensures Plain(paths, us)[j * |paths| + i] == Packet(paths[i], us[j], false)
  {
    var front := us[..|us| - 1];
    PlainLength(paths, front);
    if j < |front| {
      PlainAt(paths, front, j, i);
    } else {
      assert |Plain(paths, front)| == j * |paths|;
    }
  }

  /** Where each packet is: update by update, for each of them path by path, and the last update's are marked. */
  lemma BatchAt<P>(paths: seq<P>, us: seq<UpdateId>, j: nat, i: nat)
    requires j < |us| && i < |paths|
    ensures j * |paths| + i < |Batch(paths, us)|
    ensures Batch(paths, us)[j * |paths| + i] == Packet(paths[i], us[j], j == |us| - 1)
  {
    var front := us[..|us| - 1];
    PlainLength(paths, front);
    if j < |front| {
      PlainAt(paths, front, j, i);
    } else {
      assert |Plain(paths, front)| == j * |paths|;
    }
  }

  lemma {:induction false} PlainPath<P>(paths: seq<P>, us: seq<UpdateId>, i: int)
    requires 0 <= i < |Plain(paths, us)|
    ensures Plain(paths, us)[i].path in paths
  {
    var front := Plain(paths, us[..|us| - 1]);
    if i < |front| {
      PlainPath(paths, us[..|us| - 1], i);
    } else {
      assert Plain(paths, us)[i] == Fan(paths, us[|us| - 1], false)[i - |front|];
    }
  }

  /** Every packet of a batch is at or before the marked packet for its path. */
  lemma BatchCovered<P>(paths: seq<P>, us: seq<UpdateId>)
    ensures Covered(Batch(paths, us))
  {
    if us != [] {
      var front, u := us[..|us| - 1], us[|us| - 1];
      var plain, last := Plain(paths, front), Fan(paths, u, true);
      forall i | 0 <= i < |plain + last| ensures MarkFollows(plain + last, i) {
        if i < |plain| {
          PlainPath(paths, front, i);
          var k :| 0 <= k < |paths| && paths[k] == plain[i].path;
          assert (plain + last)[|plain| + k] == last[k];
        } else {
          assert (plain + last)[i] == last[i - |plain|];
        }
      }
    }
  }

  lemma BatchPath<P>(paths: seq<P>, us: seq<UpdateId>, i: int)
    requires 0 <= i < |Batch(paths, us)|
    ensures Batch(paths, us)[i].path in paths
  {
    var front := Plain(paths, us[..|us| - 1]);
    if i < |front| {
      PlainPath(paths, us[..|us| - 1], i);
    } else {
      assert Batch(paths, us)[i] == Fan(paths, us[|us| - 1], true)[i - |front|];
    }
  }

  // Which entries a call takes

  /** A prefix whose next entry can still be paid for: all its packets and one more fan fit. */
  ghost predicate Affordable(q: seq<Option<UpdateId>>, paths: nat, max: nat, k: nat)
    requires k <= |q|
  {
    |Present(q[..k])| * paths + paths <= max
  }

  /** Taking the first entry shifts every later affordability question by one. */
  lemma AffordableShift(q: seq<Option<UpdateId>>, paths: nat, max: nat, k: nat)
    requires q != [] && 1 <= k <= |q| && paths <= max
    ensures var max' := if q[0].Some? then max - paths else max;
            && (Affordable(q, paths, max, k) <==> Affordable(q[1..], paths, max', k - 1))
            && |Present(q[..k])| * paths - max == |Present(q[1..][..k - 1])| * paths - max'
  {
    var rest := q[1..][..k - 1];
    assert q[..k][1..] == rest;
    if q[0].Some? {
      assert |Present(q[..k])| == 1 + |Present(rest)|;
      assert (1 + |Present(rest)|) * paths == |Present(rest)| * paths + paths;
    }
  }

  /**
    The taken entries are the longest affordable prefix within the snapshot: every taken entry
    could be paid for when it was taken, and the first entry left behind could not.
   */
  lemma {:induction false} TakenIsLongest(q: seq<Option<UpdateId>>, paths: nat, snapshot: nat, max: nat)
    ensures var n := Taken(q, paths, snapshot, max);
            && (forall k: nat :: k < n ==> Affordable(q, paths, max, k))
            && (n < |q| && n < snapshot ==> !Affordable(q, paths, max, n))
            && |Present(q[..n])| * paths <= max
  {
    var n := Taken(q, paths, snapshot, max);
    assert q[..0] == [];
    if q != [] && snapshot != 0 && max >= paths {
      TakenIsLongest(q[1..], paths, snapshot - 1, if q[0].Some? then max - paths else max);
      AffordableShift(q, paths, max, n);
      forall k: nat | k < n ensures Affordable(q, paths, max, k) {
        if k != 0 {
          AffordableShift(q, paths, max, k);
        }
      }
    }
  }

  lemma PresentOne(x: Option<UpdateId>)
    ensures Present([x]) == if x.Some? then [x.value] else []
  {
    assert [x][1..] == [];
  }

  /** Entries left behind within the snapshot mean that the budget left is below one fan. */
  lemma LeftBehind(q: seq<Option<UpdateId>>, paths: nat, snapshot: nat, max: nat)
    ensures var n := Taken(q, paths, snapshot, max);
            var cost := |Present(q[..n])| * paths;
            && cost <= max
            && (n < |q| && n < snapshot ==> max - cost < paths)
  {
    TakenIsLongest(q, paths, snapshot, max);
  }
}
