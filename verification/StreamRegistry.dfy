/**
  The vector of streams of src/Streams.cpp, which is used as a map from channel names to streams in
  the order of insertion.
 */
module StreamRegistry {
  import opened Basics

  /** A registered stream: its channel, and the stream object that the pointer stands for. */
  datatype Entry = Entry(channel: string, id: int)

  /** The reference: a map that remembers the order in which its keys came in. */
  datatype OrderedMap = OrderedMap(keys: seq<string>, ids: map<string, int>)

  function Keep(keys: seq<string>, gone: set<string>): (r: seq<string>) {
    if keys == [] then []
    else if keys[0] in gone then Keep(keys[1..], gone)
    else [keys[0]] + Keep(keys[1..], gone)
  }

  function Put(m: OrderedMap, key: string, id: int): OrderedMap {
    if key in m.ids then m else OrderedMap(m.keys + [key], m.ids[key := id])
  }

  function Drop(m: OrderedMap, gone: set<string>): OrderedMap {
    OrderedMap(Keep(m.keys, gone), m.ids - gone)
  }

  // The vector as such a map

  function Channels(entries: seq<Entry>): (keys: seq<string>)
    ensures |keys| == |entries|
    ensures forall i :: 0 <= i < |keys| ==> keys[i] == entries[i].channel
  {
    seq(|entries|, i requires 0 <= i < |entries| => entries[i].channel)
  }

  /** The entry for a channel: the first one. */
  function Lookup(entries: seq<Entry>, channel: string): (id: Option<int>) {
    if entries == [] then None
    else if entries[0].channel == channel then Some(entries[0].id)
    else Lookup(entries[1..], channel)
  }

  function Ids(entries: seq<Entry>): (m: map<string, int>) {
    if entries == [] then map[] else Ids(entries[1..])[entries[0].channel := entries[0].id]
  }

  ghost function AsMap(entries: seq<Entry>): OrderedMap {
    OrderedMap(Channels(entries), Ids(entries))
  }

  ghost predicate Valid(entries: seq<Entry>) {
    Distinct(Channels(entries))
  }

  /** What is left when the streams of these channels are gone. */
  function Remaining(entries: seq<Entry>, gone: set<string>): (r: seq<Entry>) {
    if entries == [] then []
    else if entries[0].channel in gone then Remaining(entries[1..], gone)
    else [entries[0]] + Remaining(entries[1..], gone)
  }

  /** The streams of these channels. */
  function Gone(entries: seq<Entry>, gone: set<string>): (r: seq<Entry>) {
    if entries == [] then []
    else if entries[0].channel in gone then [entries[0]] + Gone(entries[1..], gone)
    else Gone(entries[1..], gone)
  }

  lemma {:induction false} LookupAgrees(entries: seq<Entry>, channel: string)
    ensures Lookup(entries, channel) == if channel in Ids(entries) then Some(Ids(entries)[channel]) else None
    ensures channel in Ids(entries) <==> channel in Channels(entries)
  {
    if entries != [] {
      LookupAgrees(entries[1..], channel);
      assert Channels(entries) == [entries[0].channel] + Channels(entries[1..]);
    }
  }

  /** Adding a stream whose channel is not there puts it at the end of the map. */
  lemma {:induction false} AddRefines(entries: seq<Entry>, channel: string, id: int)
    requires Valid(entries) && Lookup(entries, channel) == None
    ensures Valid(entries + [Entry(channel, id)])
    ensures AsMap(entries + [Entry(channel, id)]) == Put(AsMap(entries), channel, id)
  {
    LookupAgrees(entries, channel);
    assert Channels(entries + [Entry(channel, id)]) == Channels(entries) + [channel];
    IdsSnoc(entries, Entry(channel, id));
  }

  lemma {:induction false} IdsSnoc(entries: seq<Entry>, e: Entry)
    requires e.channel !in Ids(entries)
    ensures Ids(entries + [e]) == Ids(entries)[e.channel := e.id]
  {
    if entries == [] {
      assert entries + [e] == [e] && [e][1..] == [];
    } else {
      IdsSnoc(entries[1..], e);
      assert (entries + [e])[1..] == entries[1..] + [e];
    }
  }

  lemma {:induction false} RemainingKeys(entries: seq<Entry>, gone: set<string>)
    ensures Channels(Remaining(entries, gone)) == Keep(Channels(entries), gone)
  {
    if entries != [] {
      RemainingKeys(entries[1..], gone);
      var rest := Remaining(entries[1..], gone);
      assert Channels(entries)[1..] == Channels(entries[1..]);
      assert Channels([entries[0]] + rest) == [entries[0].channel] + Channels(rest);
    }
  }

  lemma {:induction false} KeepDistinct(keys: seq<string>, gone: set<string>)
    requires Distinct(keys)
    ensures Distinct(Keep(keys, gone))
    ensures forall k :: k in Keep(keys, gone) <==> k in keys && k !in gone
  {
    if keys != [] {
      KeepDistinct(keys[1..], gone);
    }
  }

  lemma MapMinus(m: map<string, int>, key: string, id: int, gone: set<string>)
    ensures m[key := id] - gone == if key in gone then m - gone else (m - gone)[key := id]
  {
  }

  lemma {:induction false} RemainingIds(entries: seq<Entry>, gone: set<string>)
    ensures Ids(Remaining(entries, gone)) == Ids(entries) - gone
  {
    if entries != [] {
      RemainingIds(entries[1..], gone);
      MapMinus(Ids(entries[1..]), entries[0].channel, entries[0].id, gone);
      var rest := Remaining(entries[1..], gone);
      assert ([entries[0]] + rest)[1..] == rest;
    }
  }

  /** Removing streams removes their keys; the others keep their order and their streams. */
  lemma RemoveRefines(entries: seq<Entry>, gone: set<string>)
    requires Valid(entries)
    ensures Valid(Remaining(entries, gone))
    ensures AsMap(Remaining(entries, gone)) == Drop(AsMap(entries), gone)
  {
    RemainingKeys(entries, gone);
    RemainingIds(entries, gone);
    KeepDistinct(Channels(entries), gone);
    hide Remaining, Keep, Channels, Ids, Distinct;
  }

  lemma {:induction false} LastId(entries: seq<Entry>)
    requires entries != []
    ensures var e := entries[|entries| - 1];
            Valid(entries) ==> e.channel in Ids(entries) && Ids(entries)[e.channel] == e.id
  {
    if Valid(entries) {
      var most, e := entries[..|entries| - 1], entries[|entries| - 1];
      assert entries == most + [e] && Channels(entries) == Channels(most) + [e.channel];
      LookupAgrees(most, e.channel);
      IdsSnoc(most, e);
    }
  }

  class Streams {
    var streamPointers: seq<Entry>

    constructor ()
      ensures streamPointers == []
    {
      streamPointers := [];
    }

    method Size() returns (n: nat)
      ensures n == |AsMap(streamPointers).keys|
    {
      n := |streamPointers|;
    }

    /** The last stream, if there is one: the map's last key and its stream. */
    method Back() returns (e: Option<Entry>)
      ensures e == None <==> AsMap(streamPointers).keys == []
      ensures e.Some? ==>
        var m := AsMap(streamPointers);
        && e.value.channel == m.keys[|m.keys| - 1]
        && (Valid(streamPointers) ==> e.value.channel in m.ids && m.ids[e.value.channel] == e.value.id)
    {
      if streamPointers == [] {
        return None;
      }
      LastId(streamPointers);
      return Some(streamPointers[|streamPointers| - 1]);
    }

    method Add(e: Entry)
      modifies this
      ensures streamPointers == old(streamPointers) + [e]
    {
      streamPointers := streamPointers + [e];
    }

    method GetStreamByChannelName(channel: string) returns (id: Option<int>)
      ensures id == Lookup(streamPointers, channel)
    {
      var i := 0;
      while i < |streamPointers|
        invariant 0 <= i <= |streamPointers|
        invariant Lookup(streamPointers, channel) == Lookup(streamPointers[i..], channel)
      {
        if streamPointers[i].channel == channel {
          return Some(streamPointers[i].id);
        }
        assert streamPointers[i..][1..] == streamPointers[i + 1..];
        i := i + 1;
      }
      return None;
    }

    /** `erase(remove_if(...))`: keeps the entries that are not gone, in order. */
    method EraseIf(gone: set<string>) returns (removed: seq<Entry>)
      modifies this
      ensures streamPointers == Remaining(old(streamPointers), gone)
      ensures removed == Gone(old(streamPointers), gone)
    {
      var all := streamPointers;
      var kept := [];
      removed := [];
      var i := 0;
      while i < |all|
        invariant 0 <= i <= |all| && streamPointers == all
        invariant kept + Remaining(all[i..], gone) == Remaining(all, gone)
        invariant removed + Gone(all[i..], gone) == Gone(all, gone)
      {
        assert all[i..][1..] == all[i + 1..];
        if all[i].channel in gone {
          removed := removed + [all[i]];
        } else {
          kept := kept + [all[i]];
        }
        i := i + 1;
      }
      streamPointers := kept;
    }

    method StopChannel(channel: string) returns (removed: seq<Entry>)
      modifies this
      ensures streamPointers == Remaining(old(streamPointers), {channel})
          && removed == Gone(old(streamPointers), {channel})
    {
      removed := EraseIf({channel});
    }

    method ClearStreams() returns (removed: seq<Entry>)
      modifies this
      ensures streamPointers == [] && removed == old(streamPointers)
    {
      removed := streamPointers;
      streamPointers := [];
    }

    /** `failed` are the channels whose clients report an error. */
    method CheckStreamStatus(failed: set<string>) returns (removed: seq<Entry>)
      modifies this
      ensures streamPointers == Remaining(old(streamPointers), failed) && removed == Gone(old(streamPointers), failed)
    {
      if streamPointers == [] {
        return [];
      }
      removed := EraseIf(failed);
    }
  }
}
