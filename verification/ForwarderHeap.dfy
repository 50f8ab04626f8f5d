/** The Forwarder object of src/Forwarder.cpp: its methods, proved against the steps of Mappings. */
module ForwarderHeap {
  import opened Basics
  import opened StreamRegistry
  import opened Uri
  import opened Mappings
  import StopFlag

  class Forwarder {
    const config: Config
    const streams: Streams
    const runFlag: StopFlag.AtomicFlag
    /** The conversion paths of every stream, and the unregistered streams that are still referenced. */
    var paths: seq<seq<Path>>
    var retained: seq<int>
    /** The weak pointers to the converters. */
    var converters: map<string, int>
    var instances: seq<Instance>

    ghost function State(): State
      reads this, streams
    {
      Mappings.State(streams.streamPointers, paths, retained, converters, instances)
    }

    constructor (config: Config)
      ensures this.config == config && State() == INIT && fresh(streams) && fresh(runFlag)
      ensures runFlag.value == StopFlag.RUN
    {
      this.config := config;
      streams := new Streams();
      runFlag := new StopFlag.AtomicFlag();
      paths, retained, converters, instances := [], [], map[], [];
    }

    /** `lock()` on the weak pointer: the instance if some path of a live stream uses it. */
    method Lock(name: string) returns (instance: Option<int>)
      ensures instance == if name in converters && LiveInstance(State(), converters[name])
          then Some(converters[name]) else None
    {
      if name !in converters {
        return None;
      }
      var c := converters[name];
      var s := Mappings.State(streams.streamPointers, paths, retained, converters, instances);
      return if LiveInstance(s, c) then Some(c) else None;
    }

    /** Finds or creates the converter for a path. */
    method GetConverter(c: ConverterSettings) returns (instance: int)
      requires WeakOk(State())
      modifies this
      ensures (State(), instance) == PickConverter(old(State()), c)
    {
      hide LiveInstance, WeakOk;
      if c.name != "" {
        var shared := Lock(c.name);
        if shared.Some? {
          return shared.value;
        }
      }
      instance := |instances|;
      instances := instances + [Instance(c.schema, c.name)];
      if c.name != "" {
        converters := converters[c.name := instance];
      }
    }

    /** Stream::addConverter on stream `id`: 1 for a path that the stream has already. */
    method AddConverter(id: int, path: Path) returns (code: int)
      requires 0 <= id < |paths|
      modifies `paths
      ensures State() == WithPath(old(State()), id, path)
      ensures code == if HasPath(old(paths)[id], path.topic, path.schema) then 1 else 0
    {
      var i := 0;
      while i < |paths[id]|
        invariant 0 <= i <= |paths[id]| && paths == old(paths)
        invariant forall k :: 0 <= k < i ==> !(paths[id][k].topic == path.topic && paths[id][k].schema == path.schema)
      {
        if paths[id][i].topic == path.topic && paths[id][i].schema == path.schema {
          return 1;
        }
        i := i + 1;
      }
      paths := paths[id := paths[id] + [path]];
      return 0;
    }

    /**
      createTopicURI: the broker's host and port, replaced by what the topic says. NoHost becomes a
      MappingAddException, PortOutOfRange does not.
     */
    method CreateTopicURI(topic: string) returns (uri: UriValue, r: ParseResult)
      ensures (uri, r) == ParseInto(UriValue(config.broker.hostPort, config.broker.port, ""), topic)
      ensures r == NoHost <==> !exists p :: Cut(p, topic)
      ensures r == PortOutOfRange <==> HasLargePort(topic)
    {
      hide ParseInto, Cut, HasLargePort;
      ParseFailsExactly(UriValue(config.broker.hostPort, config.broker.port, ""), topic);
      var topicUri := new URI();
      if config.broker.hostPort != "" {
        topicUri.hostPort := config.broker.hostPort;
      }
      if config.broker.port != 0 {
        topicUri.port := config.broker.port;
      }
      r := topicUri.Parse(topic);
      uri := topicUri.State();
    }

    method PushConverterToStream(c: ConverterSettings, id: int) returns (r: AddResult)
      requires WeakOk(State()) && 0 <= id < |paths|
      modifies this
      ensures (State(), r) == DoPush(config, old(State()), c, id)
    {
      hide LiveInstance, WeakOk, ParseInto, PickConverter, HasPath;
      if c.schema !in config.schemas {
        return UnknownSchema;
      }
      var uri, parsed := CreateTopicURI(c.topic);
      if parsed != Parsed {
        return ResultOf(parsed);
      }
      var instance := GetConverter(c);
      if uri.topic in config.refused {
        return TopicRefused;
      }
      var code := AddConverter(id, Path(uri.topic, instances[instance].schema, instance, c.name));
      return Added;
    }

    /** addStream; None if the channel has a stream already. */
    method AddStream(channel: string, clientOk: bool) returns (id: Option<int>, r: AddResult)
      modifies this, streams
      ensures r == if Lookup(old(streams.streamPointers), channel).Some? then AlreadyExists
                   else if !clientOk then ClientFailed else Added
      ensures r != Added ==> id == None && State() == old(State())
      ensures r == Added ==> id == Some(|old(paths)|) && State() == WithStream(old(State()), channel)
    {
      var found := streams.GetStreamByChannelName(channel);
      if found.Some? {
        return None, AlreadyExists;
      }
      if !clientOk {
        return None, ClientFailed;
      }
      id := Some(|paths|);
      paths := paths + [[]];
      streams.Add(Entry(channel, id.value));
      r := Added;
    }

    /** The topic of the connection status producer, if the mapping has a converter. */
    method ConnectionStatusTopic(m: StreamSettings) returns (r: AddResult)
      ensures r == StatusTopic(config, m)
    {
      if |m.converters| > 0 {
        var uri := new URI();
        var parsed := uri.Parse(m.converters[0].topic);
        if parsed != Parsed {
          return ResultOf(parsed);
        }
        if uri.topic in config.refused {
          return TopicRefused;
        }
      }
      return Added;
    }

    method AddMapping(m: StreamSettings, clientOk: bool) returns (r: AddResult)
      requires WeakOk(State())
      modifies this, streams
      ensures (State(), r) == DoAdd(config, old(State()), m, clientOk)
    {
      hide LiveInstance, WeakOk, ParseInto, DoPush, Lookup, StatusTopic;
      ghost var s := State();
      var id;
      id, r := AddStream(m.name, clientOk);
      if r != Added {
        return;
      }
      SameWeak(s, State());
      r := ConnectionStatusTopic(m);
      if r != Added {
        return;
      }
      r := PushConverters(m.converters, id.value);
    }

    /** The loop over the converters of a mapping, which the first failure ends. */
    method PushConverters(cs: seq<ConverterSettings>, id: int) returns (r: AddResult)
      requires WeakOk(State()) && 0 <= id < |paths|
      modifies this
      ensures (State(), r) == PushAll(config, old(State()), cs, id)
    {
      hide WeakOk, DoPush;
      var i := 0;
      assert cs[0..] == cs;
      while i < |cs|
        invariant 0 <= i <= |cs| && WeakOk(State()) && |paths| == |old(paths)|
        invariant PushAll(config, State(), cs[i..], id) == PushAll(config, old(State()), cs, id)
      {
        assert cs[i..][0] == cs[i] && cs[i..][1..] == cs[i + 1..];
        r := PushConverterToStream(cs[i], id);
        if r != Added {
          return;
        }
        i := i + 1;
      }
      return Added;
    }

    /** handleCommandAdd, once the command has been parsed: the first failure ends the loop. */
    method AddMappings(ms: seq<StreamSettings>, clients: set<string>) returns (r: AddResult)
      requires WeakOk(State())
      modifies this, streams
      ensures (State(), r) == AddAll(config, old(State()), ms, clients)
    {
      hide WeakOk, DoAdd;
      var i := 0;
      assert ms[0..] == ms;
      while i < |ms|
        invariant 0 <= i <= |ms| && WeakOk(State())
        invariant AddAll(config, State(), ms[i..], clients) == AddAll(config, old(State()), ms, clients)
      {
        assert ms[i..][0] == ms[i] && ms[i..][1..] == ms[i + 1..];
        r := AddMapping(ms[i], ms[i].name in clients);
        if r != Added {
          return;
        }
        i := i + 1;
      }
      return Added;
    }

    /** The loop of the constructor over the configured streams, which skips those that fail. */
    method AddConfigured(ms: seq<StreamSettings>, clients: set<string>)
      requires WeakOk(State())
      modifies this, streams
      ensures State() == AddEach(config, old(State()), ms, clients)
    {
      hide WeakOk, DoAdd;
      var i := 0;
      assert ms[0..] == ms;
      while i < |ms|
        invariant 0 <= i <= |ms| && WeakOk(State())
        invariant AddEach(config, State(), ms[i..], clients) == AddEach(config, old(State()), ms, clients)
      {
        assert ms[i..][0] == ms[i] && ms[i..][1..] == ms[i + 1..];
        var r := AddMapping(ms[i], ms[i].name in clients);
        i := i + 1;
      }
    }

    method StopChannel(channel: string)
      modifies this, streams
      ensures State() == DoRemove(old(State()), {channel})
    {
      var removed := streams.StopChannel(channel);
      retained := retained + IdsOf(removed);
    }

    method StopAll()
      modifies this, streams
      ensures State() == DoRemove(old(State()), set e | e in old(streams.streamPointers) :: e.channel)
    {
      AllGone(streams.streamPointers, set e | e in streams.streamPointers :: e.channel);
      var removed := streams.ClearStreams();
      retained := retained + IdsOf(removed);
    }

    method CheckStreamStatus(failed: set<string>)
      modifies this, streams
      ensures State() == DoRemove(old(State()), failed)
    {
      var removed := streams.CheckStreamStatus(failed);
      retained := retained + IdsOf(removed);
    }
  }

  lemma SameWeak(s: State, t: State)
    requires WeakOk(s) && t.weak == s.weak && t.instances == s.instances
    ensures WeakOk(t)
  {
  }

  lemma {:induction false} AllGone(entries: seq<Entry>, gone: set<string>)
    requires forall e :: e in entries ==> e.channel in gone
    ensures Remaining(entries, gone) == [] && Gone(entries, gone) == entries
  {
    if entries != [] {
      AllGone(entries[1..], gone);
    }
  }
}
