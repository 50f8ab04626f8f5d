/**
  Nanosecond timestamps: the split in src/EpicsClient/EpicsClientRandom.cpp, the recombination in
  src/schemas/f142/f142.cpp, and the chopper timestamps of src/schemas/tdc_time/TdcTime.cpp.
 */
module Timestamps {
  import opened Basics

  const NANOS: int := 1_000_000_000

  type int32 = x: int | -0x8000_0000 <= x < 0x8000_0000
  type int64 = x: int | -0x8000_0000_0000_0000 <= x < 0x8000_0000_0000_0000
  type uint64 = x: int | 0 <= x < 0x1_0000_0000_0000_0000

  /** A conversion to uint64_t. */
  function ToUint64(x: int): (r: uint64) {
    x % UINT64_LIMIT
  }

  /** A conversion of an unsigned value to int64_t. */
  function ToInt64(x: uint64): (r: int64) {
    if x < INT64_LIMIT then x else x - UINT64_LIMIT
  }

  /** A conversion of an unsigned value to int32_t, which keeps the low 32 bits. */
  function ToInt32(x: uint64): (r: int32) {
    var low := x % UINT32_LIMIT; if low < INT32_LIMIT then low else low - UINT32_LIMIT
  }

  datatype Stamp = Stamp(seconds: int64, nanoseconds: int32)

  /** The time stamp fields of a generated update. */
  method SplitStamp(current: uint64) returns (stamp: Stamp)
    ensures stamp == Split(current)
    ensures 0 <= stamp.seconds && 0 <= stamp.nanoseconds < 1_000_000_000
    ensures stamp.seconds * 1_000_000_000 + stamp.nanoseconds == current
  {
    hide ToUint64, ToInt64, ToInt32;
    var seconds := current / NANOS;
    assert current == seconds * NANOS + current % NANOS;
    Fits(seconds * NANOS);
    Fits(current - seconds * NANOS);
    Fits(seconds);
    var component := ToUint64(current - ToUint64(seconds * NANOS));
    stamp := Stamp(ToInt64(seconds), ToInt32(component));
  }

  /** The conversions keep values that fit. */
  lemma Fits(x: uint64)
    ensures ToUint64(x) == x && (x < INT64_LIMIT ==> ToInt64(x) == x) && (x < INT32_LIMIT ==> ToInt32(x) == x)
  {
  }

  function Split(t: uint64): (stamp: Stamp)
    ensures 0 <= stamp.seconds && 0 <= stamp.nanoseconds < NANOS
    ensures stamp.seconds * NANOS + stamp.nanoseconds == t
  {
    Stamp(t / NANOS, t % NANOS)
  }

  /** The time stamp field of an f142 message. */
  function Recombine(stamp: Stamp): (t: uint64) {
    ToUint64(ToUint64(ToUint64(stamp.seconds) * NANOS) + ToUint64(stamp.nanoseconds))
  }

  lemma Wrap64(a: int, b: int)
    ensures ToUint64(ToUint64(a) + b) == ToUint64(a + b)
  {
  }

  lemma Shift64(x: int, k: int)
    ensures ToUint64(x + k * 0x1_0000_0000_0000_0000) == ToUint64(x)
  {
    var q := x / 0x1_0000_0000_0000_0000;
    assert x + k * 0x1_0000_0000_0000_0000 == (q + k) * 0x1_0000_0000_0000_0000 + ToUint64(x);
  }

  lemma Scale64(a: int)
    ensures ToUint64(ToUint64(a) * NANOS) == ToUint64(a * NANOS)
  {
    var q := a / 0x1_0000_0000_0000_0000;
    assert a == q * 0x1_0000_0000_0000_0000 + ToUint64(a);
    Shift64(ToUint64(a) * NANOS, q * NANOS);
    hide ToUint64;
  }

  /** What comes out is the exact number of nanoseconds, up to the wrap-around of 64 bits. */
  lemma RecombineIs(stamp: Stamp)
    ensures Recombine(stamp) == ToUint64(stamp.seconds * NANOS + stamp.nanoseconds)
  {
    Scale64(stamp.seconds);
    Wrap64(stamp.seconds * NANOS, ToUint64(stamp.nanoseconds));
    Wrap64(stamp.nanoseconds, stamp.seconds * NANOS);
  }

  /** Every 64-bit count of nanoseconds survives the split and the recombination, without overflow. */
  lemma SplitThenRecombine(t: uint64)
    ensures Recombine(Split(t)) == t
  {
    RecombineIs(Split(t));
  }

  /** The other way round exactly the normalized stamps that fit survive. */
  lemma RecombineThenSplit(stamp: Stamp)
    ensures Split(Recombine(stamp)) == stamp <==>
      0 <= stamp.seconds && 0 <= stamp.nanoseconds < NANOS && stamp.seconds * NANOS + stamp.nanoseconds < UINT64_LIMIT
  {
    RecombineIs(stamp);
    var exact, t := stamp.seconds * NANOS + stamp.nanoseconds, Recombine(stamp);
    if 0 <= exact < UINT64_LIMIT {
      assert t == exact;
    }
    hide Recombine, ToUint64;
    if 0 <= stamp.nanoseconds < NANOS {
      SplitIsUnique(Split(t), stamp, t);
    }
  }

  lemma SplitIsUnique(a: Stamp, b: Stamp, t: int)
    requires 0 <= a.nanoseconds < NANOS && 0 <= b.nanoseconds < NANOS && a.seconds * NANOS + a.nanoseconds == t
    ensures b.seconds * NANOS + b.nanoseconds == t <==> a == b
  {
  }

  // Chopper timestamps

  /** The exact value of `seconds * 1000000000L + nanoseconds`, computed in int64_t. */
  function Exact(seconds: int32, nanoseconds: int32): (v: int64)
  {
    seconds * NANOS + nanoseconds
  }

  function Pair(seconds: int32, nanoseconds: int32): (t: uint64) {
    ToUint64(Exact(seconds, nanoseconds))
  }

  /** Seconds and nanoseconds of a time after the epoch. */
  predicate Normal(seconds: int32, nanoseconds: int32) {
    0 <= seconds && 0 <= nanoseconds < NANOS
  }

  /** Two pairs collide only if they stand for the same number of nanoseconds. */
  lemma PairsCollide(s: int32, n: int32, s': int32, n': int32)
    ensures Pair(s, n) == Pair(s', n') <==> s * 1_000_000_000 + n == s' * 1_000_000_000 + n'
  {
  }

  /** On normal pairs the order of the timestamps is the lexicographic order, strictly. */
  lemma PairsInOrder(s: int32, n: int32, s': int32, n': int32)
    requires Normal(s, n) && Normal(s', n')
    ensures Pair(s, n) < Pair(s', n') <==> s < s' || (s == s' && n < n')
    ensures Pair(s, n) == Pair(s', n') <==> s == s' && n == n'
  {
    assert Pair(s, n) == s * NANOS + n && Pair(s', n') == s' * NANOS + n';
  }

  /** The timestamps of two pairs compare as the pairs do lexicographically. */
  ghost predicate InOrder(s: int32, n: int32, s': int32, n': int32) {
    && (Pair(s, n) < Pair(s', n') <==> s < s' || (s == s' && n < n'))
    && (Pair(s', n') < Pair(s, n) <==> s' < s || (s' == s && n' < n))
  }

  /**
    The exact condition for a pair to be in its place among the normal pairs: it is normal itself, or
    has too many nanoseconds but the largest number of seconds that there is.
   */
  lemma InOrderExactly(s: int32, n: int32)
    ensures (forall s', n' :: Normal(s', n') ==> InOrder(s, n, s', n')) <==>
      Normal(s, n) || (s == 0x7fff_ffff && n >= NANOS)
  {
    forall s': int32, n': int32 | Normal(s', n') ensures Pair(s', n') == s' * NANOS + n' {
    }
    if Normal(s, n) || (s == 0x7fff_ffff && n >= NANOS) {
      assert Pair(s, n) == s * NANOS + n;
    } else if s < 0 || (s == 0 && n < 0) {
      assert !InOrder(s, n, 0, 0);
    } else if n < 0 && s * NANOS + n < 0 {
      assert !InOrder(s, n, s, 0);
    } else if n < 0 {
      assert !InOrder(s, n, s - 1, NANOS - 1);
    } else {
      assert !InOrder(s, n, s + 1, 0);
    }
  }

  /** A timestamp gives its seconds and nanoseconds back exactly if they were normal. */
  lemma PairRoundTrip(s: int32, n: int32)
    ensures (Pair(s, n) / NANOS == s && Pair(s, n) % NANOS == n) <==> Normal(s, n)
  {
    var t := Pair(s, n);
    if Normal(s, n) {
      assert t == s * NANOS + n;
    }
    assert t == t / NANOS * NANOS + t % NANOS && 0 <= t % NANOS < NANOS && 0 <= t / NANOS;
  }

  /** Outside of that, pairs do collide, and a time before the epoch comes after all others. */
  lemma NotNormal()
    ensures Pair(0, NANOS) == Pair(1, 0)
    ensures Pair(-1, 0) > Pair(1, 0)
  {
  }

  function Pairs(values: seq<int32>): (ts: seq<uint64>)
    requires |values| % 2 == 0
    ensures |ts| == |values| / 2
    ensures forall k :: 0 <= k < |ts| ==> ts[k] == Pair(values[2 * k], values[2 * k + 1])
  {
    seq(|values| / 2, k requires 0 <= k < |values| / 2 => Pair(values[2 * k], values[2 * k + 1]))
  }

  /** None for an odd number of elements, for which the source throws. */
  method CalcTimestamps(values: seq<int32>) returns (r: Option<seq<uint64>>)
    ensures r == if |values| % 2 != 0 then None else Some(Pairs(values))
    ensures |values| % 2 == 0 ==> r.Some? && 2 * |r.value| == |values| && forall k :: 0 <= k < |r.value| ==>
              r.value[k] == (values[2 * k] * 1_000_000_000 + values[2 * k + 1]) % UINT64_LIMIT
  {
    if |values| % 2 != 0 {
      return None;
    }
    var vector: seq<uint64> := [];
    var i := 0;
    while i < |values|
      invariant 0 <= i <= |values| && i % 2 == 0
      invariant vector == Pairs(values)[..i / 2]
    {
      assert Pairs(values)[i / 2] == Pair(values[i], values[i + 1]) by {
        assert 2 * (i / 2) == i;
      }
      assert Pairs(values)[..i / 2 + 1] == Pairs(values)[..i / 2] + [Pairs(values)[i / 2]];
      var seconds: int, nanoseconds: int := values[i], values[i + 1];
      vector := vector + [ToUint64(seconds * 1_000_000_000 + nanoseconds)];
      i := i + 2;
      assert i / 2 == (i - 2) / 2 + 1;
    }
    assert Pairs(values)[..i / 2] == Pairs(values);
    return Some(vector);
  }

  /** An update for the converter: its structure ID, whether its elements are ints, and the array. */
  datatype Update = Update(channel: string, structure: string, ints: bool, values: seq<int32>)

  datatype Message = Message(name: string, timestamps: seq<uint64>, sequence: uint64)

  const EXPECTED_STRUCTURE := "epics:nt/NTScalarArray:1.0"

  /** The updates that become a message. */
  predicate Accepted(u: Update) {
    u.structure == EXPECTED_STRUCTURE && u.ints && |u.values| % 2 == 0 && u.values != []
  }

  /**
    The arrays that become a message: NTScalarArray of ints, with at least one pair and no element left over.
   */
  lemma AcceptedExactly(u: Update)
    ensures Accepted(u) <==>
      u.structure == "epics:nt/NTScalarArray:1.0" && u.ints && |u.values| > 0 && 2 * (|u.values| / 2) == |u.values|
  {
  }

  /** The converters share one sequence counter. */
  class Converter {
    var sequenceNumber: uint64

    constructor ()
      ensures sequenceNumber == 0
    {
      sequenceNumber := 0;
    }

    method GenerateFlatbuffer(name: string, timestamps: seq<uint64>) returns (message: Message)
      modifies this
      ensures message == Message(name, timestamps, old(sequenceNumber))
      ensures sequenceNumber == ToUint64(old(sequenceNumber) + 1)
    {
      message := Message(name, timestamps, sequenceNumber);
      sequenceNumber := ToUint64(sequenceNumber + 1);
    }

    /** A rejected update makes no message and uses up no sequence number. */
    method Create(u: Update) returns (message: Option<Message>)
      modifies this
      ensures message == if Accepted(u) then Some(Message(u.channel, Pairs(u.values), old(sequenceNumber))) else None
      ensures message.Some? <==>
        u.structure == "epics:nt/NTScalarArray:1.0" && u.ints && |u.values| > 0 && |u.values| % 2 == 0
      ensures sequenceNumber == if Accepted(u) then ToUint64(old(sequenceNumber) + 1) else old(sequenceNumber)
    {
      if u.structure != EXPECTED_STRUCTURE || !u.ints {
        return None;
      }
      var timestamps := CalcTimestamps(u.values);
      if timestamps.None? || timestamps.value == [] {
        return None;
      }
      var made := GenerateFlatbuffer(u.channel, timestamps.value);
      return Some(made);
    }

    /** Any run of updates. */
    method CreateAll(us: seq<Update>) returns (messages: seq<Message>)
      modifies this
      ensures messages == Messages(us, old(sequenceNumber))
      ensures sequenceNumber == ToUint64(old(sequenceNumber) + |messages|)
    {
      hide Pairs, Accepted, ToUint64;
      messages := [];
      ghost var first := sequenceNumber;
      Fits64(first);
      var i := 0;
      assert us[..0] == [];
      while i < |us|
        invariant 0 <= i <= |us|
        invariant messages == Messages(us[..i], first)
        invariant sequenceNumber == ToUint64(first + |messages|)
      {
        var message := Create(us[i]);
        assert us[..i + 1][..i] == us[..i];
        Next64(first, |messages|);
        if message.Some? {
          messages := messages + [message.value];
        }
        i := i + 1;
      }
      assert us[..i] == us;
    }
  }

  lemma Fits64(a: uint64)
    ensures ToUint64(a + 0) == a
  {
  }

  lemma Next64(a: int, n: nat)
    ensures ToUint64(ToUint64(a + n) + 1) == ToUint64(a + (n + 1))
  {
  }

  /** The messages that a run of updates makes. */
  function Messages(us: seq<Update>, first: uint64): (ms: seq<Message>)
    ensures |ms| <= |us|
  {
    if us == [] then [] else
    var ms, u := Messages(us[..|us| - 1], first), us[|us| - 1];
    if Accepted(u) then ms + [Message(u.channel, Pairs(u.values), ToUint64(first + |ms|))] else ms
  }

  function AcceptedOf(us: seq<Update>): (r: seq<Update>) {
    if us == [] then [] else
    if Accepted(us[|us| - 1]) then AcceptedOf(us[..|us| - 1]) + [us[|us| - 1]] else AcceptedOf(us[..|us| - 1])
  }

  /** One message per accepted update, in order, with consecutive sequence numbers across rejected ones. */
  lemma {:induction false} SequenceIsConsecutive(us: seq<Update>, first: uint64)
    ensures var ms, accepted := Messages(us, first), AcceptedOf(us);
            && |ms| == |accepted|
            && forall k :: 0 <= k < |ms| ==>
                 && Accepted(accepted[k])
                 && ms[k] == Message(accepted[k].channel, Pairs(accepted[k].values), ToUint64(first + k))
  {
    hide Accepted, Pairs, ToUint64;
    if us != [] {
      SequenceIsConsecutive(us[..|us| - 1], first);
    }
  }
}
