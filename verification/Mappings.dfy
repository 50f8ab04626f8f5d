/**
  Mappings and shared converters: addMapping, addStream and pushConverterToStream of
  src/Forwarder.cpp with Stream::addConverter, as a transition system over streams, conversion paths,
  converter instances and the map of weak pointers to them.
 */
module Mappings {
  import opened Basics
  import opened StreamRegistry
  import opened Uri

  datatype ConverterSettings = ConverterSettings(schema: string, topic: string, name: string)

  datatype StreamSettings = StreamSettings(name: string, protocol: string, converters: seq<ConverterSettings>)

  /** A converter instance, and the name it was created under, which may be empty. */
  datatype Instance = Instance(schema: string, name: string)

  /** A conversion path: its topic, the schema of its converter, the converter and the name asked for. */
  datatype Path = Path(topic: string, schema: string, converter: int, name: string)

  /**
    `paths` are the conversion paths of every stream ever made; `retained` are streams that are no
    longer registered but that someone still has a pointer to; `weak` maps names to instances.
   */
  datatype State = State(
    registry: seq<Entry>,
    paths: seq<seq<Path>>,
    retained: seq<int>,
    weak: map<string, int>,
    instances: seq<Instance>)

  /** The known schemas, the first broker, and the topics that cannot be created. */
  datatype Config = Config(schemas: set<string>, broker: UriValue, refused: set<string>)

  datatype AddResult = Added | AlreadyExists | ClientFailed | UnknownSchema | BadTopic | PortTooLarge | TopicRefused

  /** The failures that leave addMapping as a MappingAddException; PortTooLarge leaves it as an out_of_range. */
  predicate MappingAddException(r: AddResult) {
    r != Added && r != PortTooLarge
  }

  const INIT := State([], [], [], map[], [])

  // Who uses a converter

  predicate Uses(ps: seq<Path>, c: int) {
    exists k :: 0 <= k < |ps| && ps[k].converter == c
  }

  predicate Registered(entries: seq<Entry>, id: int) {
    exists k :: 0 <= k < |entries| && entries[k].id == id
  }

  /** Someone has a pointer to the stream. */
  predicate LiveStream(s: State, id: int) {
    0 <= id < |s.paths| && (id in s.retained || Registered(s.registry, id))
  }

  /** Some path of a live stream uses the converter: the weak pointer to it has not expired. */
  predicate LiveInstance(s: State, c: int) {
    exists id :: 0 <= id < |s.paths| && LiveStream(s, id) && Uses(s.paths[id], c)
  }

  // The operations

  /** The weak map points at instances that were created under their names. */
  ghost predicate WeakOk(s: State) {
    forall n :: n in s.weak ==> 0 <= s.weak[n] < |s.instances| && s.instances[s.weak[n]].name == n
  }

  /** The instance for a new path: the one that the name points at if it is live, or a new one. */
  function PickConverter(s: State, c: ConverterSettings): (r: (State, int))
    requires WeakOk(s)
    ensures 0 <= r.1 < |r.0.instances| && r.0.instances[r.1].name == c.name
    ensures WeakOk(r.0) && r.0.paths == s.paths && r.0.registry == s.registry && r.0.retained == s.retained
  {
    if c.name != "" && c.name in s.weak && LiveInstance(s, s.weak[c.name]) then (s, s.weak[c.name])
    else
      var id := |s.instances|;
      (s.(instances := s.instances + [Instance(c.schema, c.name)],
          weak := if c.name != "" then s.weak[c.name := id] else s.weak), id)
  }

  function ResultOf(r: ParseResult): AddResult {
    match r case Parsed => Added case NoHost => BadTopic case PortOutOfRange => PortTooLarge
  }

  /** The duplicate check of Stream::addConverter. */
  predicate HasPath(ps: seq<Path>, topic: string, schema: string) {
    exists k :: 0 <= k < |ps| && ps[k].topic == topic && ps[k].schema == schema
  }

  function DoPush(cfg: Config, s: State, c: ConverterSettings, id: int): (r: (State, AddResult))
    requires WeakOk(s) && 0 <= id < |s.paths|
    ensures WeakOk(r.0) && |r.0.paths| == |s.paths|
  {
    if c.schema !in cfg.schemas then (s, UnknownSchema) else
    var uri := ParseInto(UriValue(cfg.broker.hostPort, cfg.broker.port, ""), c.topic);
    if uri.1 != Parsed then (s, ResultOf(uri.1)) else
    var picked := PickConverter(s, c);
    if uri.0.topic in cfg.refused then (picked.0, TopicRefused) else
    (WithPath(picked.0, id, Path(uri.0.topic, picked.0.instances[picked.1].schema, picked.1, c.name)), Added)
  }

  /** Stream::addConverter. */
  function WithPath(s: State, id: int, path: Path): (r: State)
    requires 0 <= id < |s.paths|
    ensures r == s.(paths := r.paths) && |r.paths| == |s.paths|
  {
    if HasPath(s.paths[id], path.topic, path.schema) then s else s.(paths := s.paths[id := s.paths[id] + [path]])
  }

  /** The loop over the converters, which an exception ends. */
  function PushAll(cfg: Config, s: State, cs: seq<ConverterSettings>, id: int): (r: (State, AddResult))
    requires WeakOk(s) && 0 <= id < |s.paths|
    ensures WeakOk(r.0) && |r.0.paths| == |s.paths|
    decreases |cs|
  {
    if cs == [] then (s, Added) else
    var first := DoPush(cfg, s, cs[0], id);
    if first.1 != Added then first else PushAll(cfg, first.0, cs[1..], id)
  }

  /** The topic for the connection status: the first converter's, parsed without a broker. */
  function StatusTopic(cfg: Config, m: StreamSettings): AddResult {
    if m.converters == [] then Added else
    var uri := ParseInto(UriValue("", 0, ""), m.converters[0].topic);
    if uri.1 != Parsed then ResultOf(uri.1) else if uri.0.topic in cfg.refused then TopicRefused else Added
  }

  function WithStream(s: State, channel: string): State {
    s.(registry := s.registry + [Entry(channel, |s.paths|)], paths := s.paths + [[]])
  }

  /** addMapping: from the moment the stream is in the registry, a failure leaves it there. */
  function DoAdd(cfg: Config, s: State, m: StreamSettings, clientOk: bool): (r: (State, AddResult))
    requires WeakOk(s)
    ensures WeakOk(r.0)
  {
    if Lookup(s.registry, m.name).Some? then (s, AlreadyExists)
    else if !clientOk then (s, ClientFailed)
    else
      var t := WithStream(s, m.name);
      var status := StatusTopic(cfg, m);
      if status != Added then (t, status) else PushAll(cfg, t, m.converters, |s.paths|)
  }

  function IdsOf(entries: seq<Entry>): (ids: seq<int>)
    ensures |ids| == |entries|
    ensures forall i :: 0 <= i < |ids| ==> ids[i] == entries[i].id
  {
    seq(|entries|, i requires 0 <= i < |entries| => entries[i].id)
  }

  /** Streams leave the registry; their pointers may live on in a worker. */
  function DoRemove(s: State, gone: set<string>): State {
    s.(registry := Remaining(s.registry, gone), retained := s.retained + IdsOf(Gone(s.registry, gone)))
  }

  /** The last pointer to a stream goes, and its paths with it. */
  function DoRelease(s: State, k: int): State {
    if !(0 <= k < |s.retained|) then s else s.(retained := s.retained[..k] + s.retained[k + 1..])
  }

  /** addStream: the part of a mapping up to the moment when its stream is registered. */
  function DoRegister(s: State, channel: string, clientOk: bool): State {
    if Lookup(s.registry, channel).Some? || !clientOk then s else WithStream(s, channel)
  }

  /** One converter of a mapping; whoever pushes it has a pointer to the stream, registered or not. */
  function DoPushLive(cfg: Config, s: State, c: ConverterSettings, id: int): State
    requires WeakOk(s)
  {
    if LiveStream(s, id) then DoPush(cfg, s, c, id).0 else s
  }

  /**
    `Add` is a mapping that nothing interrupts; `Register` and `Push` are its parts, between which other
    threads may remove streams and release pointers.
   */
  datatype Action =
    | Add(mapping: StreamSettings, clientOk: bool)
    | Register(channel: string, clientOk: bool)
    | Push(converter: ConverterSettings, id: int)
    | Stop(channel: string)
    | StopAll
    | Check(failed: set<string>)
    | Release(k: int)

  function Apply(cfg: Config, s: State, a: Action): (r: State)
    requires WeakOk(s)
    ensures WeakOk(r)
  {
    match a
    case Add(m, clientOk) => DoAdd(cfg, s, m, clientOk).0
    case Register(channel, clientOk) => DoRegister(s, channel, clientOk)
    case Push(c, id) => DoPushLive(cfg, s, c, id)
    case Stop(channel) => DoRemove(s, {channel})
    case StopAll => DoRemove(s, set e | e in s.registry :: e.channel)
    case Check(failed) => DoRemove(s, failed)
    case Release(k) => DoRelease(s, k)
  }

  function Run(cfg: Config, actions: seq<Action>): (r: State)
    ensures WeakOk(r)
  {
    if actions == [] then INIT else Apply(cfg, Run(cfg, actions[..|actions| - 1]), actions[|actions| - 1])
  }

  // The invariant

  ghost predicate PathOk(s: State, p: Path) {
    0 <= p.converter < |s.instances| && s.instances[p.converter] == Instance(p.schema, p.name)
  }

  ghost predicate PathsOk(s: State) {
    forall id, k :: 0 <= id < |s.paths| && 0 <= k < |s.paths[id]| ==> PathOk(s, s.paths[id][k])
  }

  /** A live instance with a name is the one that the weak map points at. */
  ghost predicate Shared(s: State) {
    forall c :: 0 <= c < |s.instances| && s.instances[c].name != "" && LiveInstance(s, c) ==>
      s.instances[c].name in s.weak && s.weak[s.instances[c].name] == c
  }

  ghost predicate EntriesOk(s: State) {
    && StreamRegistry.Valid(s.registry)
    && forall k :: 0 <= k < |s.registry| ==> 0 <= s.registry[k].id < |s.paths|
  }

  ghost predicate Inv(s: State) {
    EntriesOk(s) && WeakOk(s) && PathsOk(s) && Shared(s)
  }

  // Every operation keeps it

  lemma LiveSame(s: State, t: State, c: int)
    requires t.paths == s.paths && t.registry == s.registry && t.retained == s.retained
    ensures LiveInstance(t, c) == LiveInstance(s, c)
  {
    assert forall id :: LiveStream(t, id) == LiveStream(s, id);
  }

  /** What the picked converter keeps; it is live in the old state, or new, or unnamed. */
  lemma PickKeeps(s: State, c: ConverterSettings)
    requires Inv(s)
    ensures var r := PickConverter(s, c);
            && Inv(r.0)
            && (c.name != "" ==> c.name in r.0.weak && r.0.weak[c.name] == r.1)
  {
    var r := PickConverter(s, c);
    forall x ensures LiveInstance(r.0, x) == LiveInstance(s, x) {
      LiveSame(s, r.0, x);
    }
    NotLive(s);
    hide LiveInstance, StreamRegistry.Valid;
  }

  /** An instance that does not exist yet is not live. */
  lemma NotLive(s: State)
    requires PathsOk(s)
    ensures !LiveInstance(s, |s.instances|)
  {
    forall id | 0 <= id < |s.paths| ensures !Uses(s.paths[id], |s.instances|) {
      assert forall k :: 0 <= k < |s.paths[id]| ==> PathOk(s, s.paths[id][k]);
    }
  }

  /** A new path makes no converter live but its own. */
  lemma WithPathLive(s: State, id: int, path: Path, c: int)
    requires 0 <= id < |s.paths| && LiveInstance(WithPath(s, id, path), c)
    ensures c == path.converter || LiveInstance(s, c)
  {
    var t := WithPath(s, id, path);
    if t != s {
      var i :| 0 <= i < |t.paths| && LiveStream(t, i) && Uses(t.paths[i], c);
      var k :| 0 <= k < |t.paths[i]| && t.paths[i][k].converter == c;
      assert LiveStream(s, i);
      if i == id && k == |s.paths[id]| {
        assert c == path.converter;
      } else {
        assert s.paths[i][k].converter == c;
        assert Uses(s.paths[i], c);
      }
    }
  }

  lemma WithPathKeeps(s: State, id: int, path: Path)
    requires Inv(s) && 0 <= id < |s.paths| && PathOk(s, path)
    requires path.name != "" ==> path.name in s.weak && s.weak[path.name] == path.converter
    ensures Inv(WithPath(s, id, path))
  {
    var t := WithPath(s, id, path);
    if t != s {
      forall c | LiveInstance(t, c) ensures c == path.converter || LiveInstance(s, c) {
        WithPathLive(s, id, path, c);
      }
      hide LiveInstance, StreamRegistry.Valid;
    }
  }

  lemma PushKeeps(cfg: Config, s: State, c: ConverterSettings, id: int)
    requires Inv(s) && 0 <= id < |s.paths|
    ensures var t := DoPush(cfg, s, c, id).0; Inv(t) && t.registry == s.registry && t.retained == s.retained
  {
    PickKeeps(s, c);
    var picked := PickConverter(s, c);
    var uri := ParseInto(UriValue(cfg.broker.hostPort, cfg.broker.port, ""), c.topic);
    hide Inv, WeakOk, ParseInto;
    WithPathKeeps(picked.0, id, Path(uri.0.topic, picked.0.instances[picked.1].schema, picked.1, c.name));
    hide PickConverter, WithPath;
  }

  lemma {:induction false} PushAllKeeps(cfg: Config, s: State, cs: seq<ConverterSettings>, id: int)
    requires Inv(s) && 0 <= id < |s.paths|
    ensures var t := PushAll(cfg, s, cs, id).0; Inv(t) && t.registry == s.registry && t.retained == s.retained
    decreases |cs|
  {
    hide Inv, DoPush, WeakOk;
    if cs != [] {
      PushKeeps(cfg, s, cs[0], id);
      WeakOf(s);
      if DoPush(cfg, s, cs[0], id).1 == Added {
        PushAllKeeps(cfg, DoPush(cfg, s, cs[0], id).0, cs[1..], id);
      }
    }
  }

  lemma WeakOf(s: State)
    requires Inv(s)
    ensures WeakOk(s)
  {
  }

  lemma WithStreamKeeps(s: State, channel: string)
    requires Inv(s) && Lookup(s.registry, channel) == None
    ensures Inv(WithStream(s, channel))
  {
    var t := WithStream(s, channel);
    AddRefines(s.registry, channel, |s.paths|);
    forall c | LiveInstance(t, c) ensures LiveInstance(s, c) {
      var i :| 0 <= i < |t.paths| && LiveStream(t, i) && Uses(t.paths[i], c);
      assert i < |s.paths|;
      assert Registered(t.registry, i) ==> Registered(s.registry, i);
      assert LiveStream(s, i);
    }
    hide LiveInstance, StreamRegistry.Valid, Lookup;
  }

  lemma AddKeeps(cfg: Config, s: State, m: StreamSettings, clientOk: bool)
    requires Inv(s)
    ensures Inv(DoAdd(cfg, s, m, clientOk).0)
  {
    hide Inv, WeakOk, PushAll, StatusTopic, Lookup;
    WeakOf(s);
    if Lookup(s.registry, m.name).None? {
      WithStreamKeeps(s, m.name);
      WeakOf(WithStream(s, m.name));
      PushAllKeeps(cfg, WithStream(s, m.name), m.converters, |s.paths|);
    }
  }

  lemma {:induction false} RemainingOrGone(entries: seq<Entry>, gone: set<string>, e: Entry)
    ensures e in entries <==> e in Remaining(entries, gone) || e in Gone(entries, gone)
  {
    if entries != [] {
      RemainingOrGone(entries[1..], gone, e);
    }
  }

  lemma RegisteredHas(entries: seq<Entry>, id: int)
    ensures Registered(entries, id) <==> exists e :: e in entries && e.id == id
  {
  }

  /** Whoever had a pointer to a stream before it left the registry still has it. */
  lemma RemoveLive(s: State, gone: set<string>, id: int)
    ensures LiveStream(DoRemove(s, gone), id) <==> LiveStream(s, id)
  {
    var t := DoRemove(s, gone);
    var out := Gone(s.registry, gone);
    forall e ensures e in s.registry <==> e in t.registry || e in out {
      RemainingOrGone(s.registry, gone, e);
    }
    assert id in IdsOf(out) <==> exists e :: e in out && e.id == id by {
      if e :| e in out && e.id == id {
        var k :| 0 <= k < |out| && out[k] == e;
        assert IdsOf(out)[k] == id;
      }
    }
    RegisteredHas(s.registry, id);
    RegisteredHas(t.registry, id);
    hide Remaining, Gone, Registered;
  }

  lemma RemoveKeeps(s: State, gone: set<string>)
    requires Inv(s)
    ensures Inv(DoRemove(s, gone))
  {
    var t := DoRemove(s, gone);
    RemoveRefines(s.registry, gone);
    forall c | LiveInstance(t, c) ensures LiveInstance(s, c) {
      var i :| 0 <= i < |t.paths| && LiveStream(t, i) && Uses(t.paths[i], c);
      RemoveLive(s, gone, i);
    }
    forall k | 0 <= k < |t.registry| ensures 0 <= t.registry[k].id < |t.paths| {
      RemainingOrGone(s.registry, gone, t.registry[k]);
      assert t.registry[k] in s.registry;
    }
    hide LiveInstance, StreamRegistry.Valid, Remaining, Gone;
  }

  lemma ReleaseKeeps(s: State, k: int)
    requires Inv(s)
    ensures Inv(DoRelease(s, k))
  {
    var t := DoRelease(s, k);
    forall c | LiveInstance(t, c) ensures LiveInstance(s, c) {
      var i :| 0 <= i < |t.paths| && LiveStream(t, i) && Uses(t.paths[i], c);
      assert i in t.retained ==> i in s.retained;
      assert LiveStream(s, i);
    }
    hide LiveInstance, StreamRegistry.Valid;
  }

  lemma LiveIds(s: State, id: int)
    requires LiveStream(s, id)
    ensures 0 <= id < |s.paths|
  {
  }

  lemma RegisterKeeps(s: State, channel: string, clientOk: bool)
    requires Inv(s)
    ensures Inv(DoRegister(s, channel, clientOk))
  {
    hide Inv, WithStream, Lookup;
    if Lookup(s.registry, channel).None? {
      WithStreamKeeps(s, channel);
    }
  }

  lemma ApplyKeeps(cfg: Config, s: State, a: Action)
    requires Inv(s)
    ensures WeakOk(s) && Inv(Apply(cfg, s, a))
  {
    WeakOf(s);
    hide Inv, WeakOk, DoAdd, DoRemove, DoRelease, DoPush, LiveStream, Lookup, WithStream;
    match a
    case Add(m, clientOk) => AddKeeps(cfg, s, m, clientOk);
    case Register(channel, clientOk) => RegisterKeeps(s, channel, clientOk);
    case Push(c, id) =>
      if LiveStream(s, id) {
        LiveIds(s, id);
        PushKeeps(cfg, s, c, id);
      }
    case Stop(channel) => RemoveKeeps(s, {channel});
    case StopAll => RemoveKeeps(s, set e | e in s.registry :: e.channel);
    case Check(failed) => RemoveKeeps(s, failed);
    case Release(k) => ReleaseKeeps(s, k);
  }

  lemma {:induction false} RunKeeps(cfg: Config, actions: seq<Action>)
    ensures Inv(Run(cfg, actions))
  {
    hide Inv, Apply;
    if actions == [] {
      InitOk();
    } else {
      RunKeeps(cfg, actions[..|actions| - 1]);
      ApplyKeeps(cfg, Run(cfg, actions[..|actions| - 1]), actions[|actions| - 1]);
    }
  }

  lemma InitOk()
    ensures Inv(INIT)
  {
  }

  // What it says

  /**
    In every reachable state, at most one live instance was created under a name, the weak map points
    at it, and so all paths of live streams that asked for the name share it.
   */
  lemma OneLivePerName(cfg: Config, actions: seq<Action>, c: int, d: int)
    requires var s := Run(cfg, actions);
             && 0 <= c < |s.instances| && 0 <= d < |s.instances|
             && LiveInstance(s, c) && LiveInstance(s, d)
             && s.instances[c].name == s.instances[d].name != ""
    ensures c == d
    ensures var s := Run(cfg, actions); s.instances[c].name in s.weak && s.weak[s.instances[c].name] == c
  {
    RunKeeps(cfg, actions);
  }

  lemma SameNameSameConverter(cfg: Config, actions: seq<Action>, i: int, j: int, k: int, l: int)
    requires var s := Run(cfg, actions);
             && 0 <= i < |s.paths| && LiveStream(s, i) && 0 <= j < |s.paths[i]|
             && 0 <= k < |s.paths| && LiveStream(s, k) && 0 <= l < |s.paths[k]|
             && s.paths[i][j].name == s.paths[k][l].name != ""
    ensures var s := Run(cfg, actions);
            s.paths[i][j].converter == s.paths[k][l].converter && s.paths[i][j].schema == s.paths[k][l].schema
  {
    RunKeeps(cfg, actions);
    var s := Run(cfg, actions);
    assert PathOk(s, s.paths[i][j]) && PathOk(s, s.paths[k][l]);
    assert Uses(s.paths[i], s.paths[i][j].converter) && Uses(s.paths[k], s.paths[k][l].converter);
    OneLivePerName(cfg, actions, s.paths[i][j].converter, s.paths[k][l].converter);
  }

  /**
    A new path gets the schema asked for exactly if its name does not belong to a live instance of
    another schema.
   */
  lemma SchemaAsAsked(cfg: Config, s: State, c: ConverterSettings, id: int)
    requires Inv(s) && WeakOk(s) && 0 <= id < |s.paths|
    requires var r := DoPush(cfg, s, c, id); r.1 == Added && |r.0.paths[id]| > |s.paths[id]|
    ensures var paths := DoPush(cfg, s, c, id).0.paths[id];
            paths[|paths| - 1].schema == c.schema <==>
            !(c.name != "" && c.name in s.weak && LiveInstance(s, s.weak[c.name])
                && s.instances[s.weak[c.name]].schema != c.schema)
  {
    hide LiveInstance, ParseInto, Inv;
  }

  /**
    A topic that cannot be parsed makes a MappingAddException exactly if it cannot be cut into
    well-formed parts, and an out_of_range exactly if it can be cut so that its port is 2^31 or more.
   */
  lemma UnusableTopicExactly(cfg: Config, s: State, c: ConverterSettings, id: int)
    requires WeakOk(s) && 0 <= id < |s.paths| && c.schema in cfg.schemas
    ensures var r := DoPush(cfg, s, c, id).1;
            && (r == BadTopic <==> !exists p :: Cut(p, c.topic))
            && (r == PortTooLarge <==> HasLargePort(c.topic))
            && (r == BadTopic || r == PortTooLarge ==> (MappingAddException(r) <==> !HasLargePort(c.topic)))
  {
    hide ParseInto, Cut, HasLargePort, PickConverter, WithPath, WeakOk;
    ParseFailsExactly(UriValue(cfg.broker.hostPort, cfg.broker.port, ""), c.topic);
  }

  /**
    Why a converter is not pushed, in the order in which the source finds out: its schema is unknown, its
    topic cannot be parsed, or Kafka refuses the topic. Only in the last case may a converter be made.
   */
  lemma PushFailsExactly(cfg: Config, s: State, c: ConverterSettings, id: int)
    requires WeakOk(s) && 0 <= id < |s.paths|
    ensures var t, r := DoPush(cfg, s, c, id).0, DoPush(cfg, s, c, id).1;
            var uri := ParseInto(UriValue(cfg.broker.hostPort, cfg.broker.port, ""), c.topic);
            && (r == UnknownSchema <==> c.schema !in cfg.schemas)
            && (r == BadTopic || r == PortTooLarge <==> c.schema in cfg.schemas && uri.1 != Parsed)
            && (r == TopicRefused <==> c.schema in cfg.schemas && uri.1 == Parsed && uri.0.topic in cfg.refused)
            && (r == Added <==> c.schema in cfg.schemas && uri.1 == Parsed && uri.0.topic !in cfg.refused)
            && (r != Added ==> t.paths == s.paths) && (r != Added && r != TopicRefused ==> t == s)
  {
    hide ParseInto, PickConverter, WithPath, WeakOk;
  }

  /**
    Why a mapping fails before its stream is made: the channel is registered, or else its client cannot be
    made; nothing has changed then. After that the topic of the first converter, read without a broker,
    decides first, because the connection status goes there: no converter is pushed if it is not good.
   */
  lemma AddFailsExactly(cfg: Config, s: State, m: StreamSettings, clientOk: bool)
    requires WeakOk(s)
    ensures var t, r := DoAdd(cfg, s, m, clientOk).0, DoAdd(cfg, s, m, clientOk).1;
            && (r == AlreadyExists <==> m.name in StreamRegistry.Channels(s.registry))
            && (r == ClientFailed <==> m.name !in StreamRegistry.Channels(s.registry) && !clientOk)
            && (r == AlreadyExists || r == ClientFailed ==> t == s)
            && (m.name !in StreamRegistry.Channels(s.registry) && clientOk && m.converters != [] ==>
                  var uri := ParseInto(UriValue("", 0, ""), m.converters[0].topic);
                  && (uri.1 == NoHost ==> (t, r) == (WithStream(s, m.name), BadTopic))
                  && (uri.1 == PortOutOfRange ==> (t, r) == (WithStream(s, m.name), PortTooLarge))
                  && (uri.1 == Parsed && uri.0.topic in cfg.refused ==>
                        (t, r) == (WithStream(s, m.name), TopicRefused)))
  {
    assert WeakOk(WithStream(s, m.name));
    hide ParseInto, PushAll, WeakOk;
    LookupIsIn(s.registry, m.name);
    PushResult(cfg, WithStream(s, m.name), m.converters, |s.paths|);
  }

  lemma {:induction false} LookupIsIn(entries: seq<Entry>, channel: string)
    ensures Lookup(entries, channel).Some? <==> channel in StreamRegistry.Channels(entries)
  {
    if entries != [] {
      LookupIsIn(entries[1..], channel);
      assert StreamRegistry.Channels(entries) == [entries[0].channel] + StreamRegistry.Channels(entries[1..]);
    }
  }

  /** Names in the registry are pairwise distinct, whatever was added, stopped or found in error. */
  lemma NamesDistinct(cfg: Config, actions: seq<Action>)
    ensures StreamRegistry.Valid(Run(cfg, actions).registry)
  {
    RunKeeps(cfg, actions);
  }

  /** The registry as an ordered map: what every operation does to it. */
  function Spec(m: OrderedMap, a: Action, next: int): OrderedMap {
    match a
    case Add(mapping, clientOk) => if clientOk then Put(m, mapping.name, next) else m
    case Register(channel, clientOk) => if clientOk then Put(m, channel, next) else m
    case Push(c, id) => m
    case Stop(channel) => Drop(m, {channel})
    case StopAll => Drop(m, m.ids.Keys)
    case Check(failed) => Drop(m, failed)
    case Release(k) => m
  }

  lemma {:induction false} KeysAreChannels(entries: seq<Entry>)
    ensures Ids(entries).Keys == set e | e in entries :: e.channel
  {
    if entries != [] {
      KeysAreChannels(entries[1..]);
      assert entries == [entries[0]] + entries[1..];
      assert (set e | e in entries :: e.channel) == (set e | e in entries[1..] :: e.channel) + {entries[0].channel};
    }
  }

  lemma AddIsPut(cfg: Config, s: State, m: StreamSettings, clientOk: bool)
    requires Inv(s) && WeakOk(s)
    ensures AsMap(DoAdd(cfg, s, m, clientOk).0.registry) ==
            if clientOk then Put(AsMap(s.registry), m.name, |s.paths|) else AsMap(s.registry)
  {
    LookupAgrees(s.registry, m.name);
    if Lookup(s.registry, m.name).None? {
      AddRefines(s.registry, m.name, |s.paths|);
      WithStreamKeeps(s, m.name);
      PushAllKeeps(cfg, WithStream(s, m.name), m.converters, |s.paths|);
    }
    hide Inv, WeakOk, PushAll, StatusTopic, Lookup, Ids, Channels;
  }

  lemma RegisterIsPut(s: State, channel: string, clientOk: bool)
    requires Inv(s)
    ensures AsMap(DoRegister(s, channel, clientOk).registry) ==
            if clientOk then Put(AsMap(s.registry), channel, |s.paths|) else AsMap(s.registry)
  {
    LookupAgrees(s.registry, channel);
    if Lookup(s.registry, channel).None? {
      AddRefines(s.registry, channel, |s.paths|);
    }
    hide Lookup, Ids, Channels, StreamRegistry.Valid;
  }

  /** The vector refines the ordered map, step by step. */
  lemma RegistryRefinesMap(cfg: Config, actions: seq<Action>, a: Action)
    ensures var s := Run(cfg, actions);
            AsMap(Apply(cfg, s, a).registry) == Spec(AsMap(s.registry), a, |s.paths|)
  {
    RunKeeps(cfg, actions);
    var s := Run(cfg, actions);
    hide Run, DoAdd, DoPush;
    match a
    case Add(m, clientOk) => AddIsPut(cfg, s, m, clientOk);
    case Register(channel, clientOk) => RegisterIsPut(s, channel, clientOk);
    case Push(c, id) =>
      if LiveStream(s, id) {
        PushKeeps(cfg, s, c, id);
      }
    case Stop(channel) => RemoveRefines(s.registry, {channel});
    case StopAll =>
      RemoveRefines(s.registry, set e | e in s.registry :: e.channel);
      KeysAreChannels(s.registry);
    case Check(failed) => RemoveRefines(s.registry, failed);
    case Release(k) =>
  }

  // A mapping is a run of its parts

  /** The pushes that the loop over the converters tries: up to the first that fails. */
  function Tried(cfg: Config, s: State, cs: seq<ConverterSettings>, id: int): (actions: seq<Action>)
    requires WeakOk(s) && 0 <= id < |s.paths|
    decreases |cs|
  {
    if cs == [] then [] else
    var first := DoPush(cfg, s, cs[0], id);
    [Push(cs[0], id)] + if first.1 != Added then [] else Tried(cfg, first.0, cs[1..], id)
  }

  function PartsOf(cfg: Config, s: State, m: StreamSettings, clientOk: bool): (actions: seq<Action>)
    requires WeakOk(s)
  {
    [Register(m.name, clientOk)] +
    if Lookup(s.registry, m.name).Some? || !clientOk || StatusTopic(cfg, m) != Added then []
    else Tried(cfg, WithStream(s, m.name), m.converters, |s.paths|)
  }

  function RunFrom(cfg: Config, s: State, actions: seq<Action>): (t: State)
    requires WeakOk(s)
    ensures WeakOk(t)
    decreases |actions|
  {
    if actions == [] then s else RunFrom(cfg, Apply(cfg, s, actions[0]), actions[1..])
  }

  lemma {:induction false} RunAppend(cfg: Config, before: seq<Action>, more: seq<Action>)
    ensures Run(cfg, before + more) == RunFrom(cfg, Run(cfg, before), more)
    decreases |more|
  {
    hide Apply, WeakOk;
    if more == [] {
      assert before + more == before;
    } else {
      RunAppend(cfg, before + [more[0]], more[1..]);
      assert before + [more[0]] + more[1..] == before + more;
      assert (before + [more[0]])[..|before|] == before;
    }
  }

  lemma PushStays(cfg: Config, s: State, c: ConverterSettings, id: int)
    requires WeakOk(s) && 0 <= id < |s.paths| && Registered(s.registry, id)
    ensures var t := DoPush(cfg, s, c, id).0;
            Apply(cfg, s, Push(c, id)) == t && 0 <= id < |t.paths| && Registered(t.registry, id)
  {
    PushChangesOne(cfg, s, c, id);
    hide DoPush, WeakOk;
  }

  lemma {:induction false} TriedIsPushAll(cfg: Config, s: State, cs: seq<ConverterSettings>, id: int)
    requires WeakOk(s) && 0 <= id < |s.paths| && Registered(s.registry, id)
    ensures RunFrom(cfg, s, Tried(cfg, s, cs, id)) == PushAll(cfg, s, cs, id).0
    decreases |cs|
  {
    hide DoPush, WeakOk, Apply, Registered;
    if cs != [] {
      var first := DoPush(cfg, s, cs[0], id);
      PushStays(cfg, s, cs[0], id);
      var rest := if first.1 != Added then [] else Tried(cfg, first.0, cs[1..], id);
      assert ([Push(cs[0], id)] + rest)[1..] == rest;
      if first.1 == Added {
        TriedIsPushAll(cfg, first.0, cs[1..], id);
      }
    }
  }

  lemma RegisterIs(cfg: Config, s: State, channel: string, clientOk: bool)
    requires WeakOk(s)
    ensures var t := WithStream(s, channel);
            && |t.paths| == |s.paths| + 1 && Registered(t.registry, |s.paths|)
            && Apply(cfg, s, Register(channel, clientOk)) ==
                 if Lookup(s.registry, channel).Some? || !clientOk then s else t
  {
    var t := WithStream(s, channel);
    assert t.registry[|s.registry|].id == |s.paths|;
  }

  /** A mapping that nothing interrupts is the run of its parts, so every run of parts covers it. */
  lemma AddIsRun(cfg: Config, before: seq<Action>, m: StreamSettings, clientOk: bool)
    ensures var s := Run(cfg, before);
            Run(cfg, before + PartsOf(cfg, s, m, clientOk)) == Run(cfg, before + [Add(m, clientOk)])
  {
    var s := Run(cfg, before);
    var parts := PartsOf(cfg, s, m, clientOk);
    RunAppend(cfg, before, parts);
    assert (before + [Add(m, clientOk)])[..|before|] == before;
    RegisterIs(cfg, s, m.name, clientOk);
    assert parts[0] == Register(m.name, clientOk);
    assert Run(cfg, before + [Add(m, clientOk)]) == DoAdd(cfg, s, m, clientOk).0;
    hide Run, Apply, WeakOk, Lookup, StatusTopic, WithStream, PushAll, Registered;
    if Lookup(s.registry, m.name).None? && clientOk && StatusTopic(cfg, m) == Added {
      TriedIsPushAll(cfg, WithStream(s, m.name), m.converters, |s.paths|);
      assert parts[1..] == Tried(cfg, WithStream(s, m.name), m.converters, |s.paths|);
    } else {
      assert parts[1..] == [];
    }
  }

  // Lists of mappings

  /** An add command: the first mapping that fails ends it. `clients` are the channels whose client can be made. */
  function AddAll(cfg: Config, s: State, ms: seq<StreamSettings>, clients: set<string>): (r: (State, AddResult))
    requires WeakOk(s)
    ensures WeakOk(r.0)
    decreases |ms|
  {
    if ms == [] then (s, Added) else
    var first := DoAdd(cfg, s, ms[0], ms[0].name in clients);
    if first.1 != Added then first else AddAll(cfg, first.0, ms[1..], clients)
  }

  /** The start of the program: a mapping that fails is skipped. */
  function AddEach(cfg: Config, s: State, ms: seq<StreamSettings>, clients: set<string>): (t: State)
    requires WeakOk(s)
    ensures WeakOk(t)
    decreases |ms|
  {
    if ms == [] then s else AddEach(cfg, DoAdd(cfg, s, ms[0], ms[0].name in clients).0, ms[1..], clients)
  }

  /** How many mappings at the start of the list succeed. */
  function Succeeding(cfg: Config, s: State, ms: seq<StreamSettings>, clients: set<string>): (n: nat)
    requires WeakOk(s)
    ensures n <= |ms|
    decreases |ms|
  {
    if ms == [] || DoAdd(cfg, s, ms[0], ms[0].name in clients).1 != Added then 0
    else 1 + Succeeding(cfg, DoAdd(cfg, s, ms[0], ms[0].name in clients).0, ms[1..], clients)
  }

  /** An add command tries the mappings up to the first that fails, and none after it. */
  lemma {:induction false} AddAllStops(cfg: Config, s: State, ms: seq<StreamSettings>, clients: set<string>)
    requires WeakOk(s)
    ensures var n, r := Succeeding(cfg, s, ms, clients), AddAll(cfg, s, ms, clients);
            && (r.1 == Added <==> n == |ms|)
            && r.0 == AddEach(cfg, s, if n < |ms| then ms[..n + 1] else ms, clients)
            && (n < |ms| ==> r == DoAdd(cfg, AddEach(cfg, s, ms[..n], clients), ms[n], ms[n].name in clients))
    decreases |ms|
  {
    hide DoAdd, WeakOk;
    if ms != [] {
      var first := DoAdd(cfg, s, ms[0], ms[0].name in clients);
      var n := Succeeding(cfg, s, ms, clients);
      if first.1 == Added {
        AddAllStops(cfg, first.0, ms[1..], clients);
        if n < |ms| {
          assert ms[..n + 1][1..] == ms[1..][..n] && ms[..n][1..] == ms[1..][..n - 1] && ms[1..][n - 1] == ms[n];
        }
      } else {
        assert ms[..0] == [] && ms[..1] == [ms[0]] && [ms[0]][1..] == [];
        assert AddEach(cfg, first.0, [], clients) == first.0;
      }
    }
  }

  /** Existing streams keep their paths, and the registry only grows at its end. */
  ghost predicate Extends(s: State, t: State) {
    && |s.paths| <= |t.paths| && (forall id :: 0 <= id < |s.paths| ==> t.paths[id] == s.paths[id])
    && s.registry <= t.registry && t.retained == s.retained
  }

  lemma PushChangesOne(cfg: Config, s: State, c: ConverterSettings, id: int)
    requires WeakOk(s) && 0 <= id < |s.paths|
    ensures var t := DoPush(cfg, s, c, id).0;
            && t.registry == s.registry && t.retained == s.retained
            && s.paths[id] <= t.paths[id] && forall i :: 0 <= i < |s.paths| && i != id ==> t.paths[i] == s.paths[i]
  {
    hide LiveInstance, ParseInto, WeakOk;
  }

  lemma {:induction false} PushAllChangesOne(cfg: Config, s: State, cs: seq<ConverterSettings>, id: int)
    requires WeakOk(s) && 0 <= id < |s.paths|
    ensures var t := PushAll(cfg, s, cs, id).0;
            && t.registry == s.registry && t.retained == s.retained
            && s.paths[id] <= t.paths[id] && forall i :: 0 <= i < |s.paths| && i != id ==> t.paths[i] == s.paths[i]
    decreases |cs|
  {
    hide DoPush, WeakOk;
    if cs != [] {
      PushChangesOne(cfg, s, cs[0], id);
      if DoPush(cfg, s, cs[0], id).1 == Added {
        PushAllChangesOne(cfg, DoPush(cfg, s, cs[0], id).0, cs[1..], id);
      }
    }
  }

  /**
    One mapping leaves all other streams as they are. Its stream is in the registry afterwards, at the
    end, unless the channel was there or its client could not be made; that is also so if it fails.
   */
  lemma AddExtends(cfg: Config, s: State, m: StreamSettings, clientOk: bool)
    requires WeakOk(s)
    ensures var r := DoAdd(cfg, s, m, clientOk);
            && Extends(s, r.0)
            && r.0.registry == (if Early(r.1) then s.registry else s.registry + [Entry(m.name, |s.paths|)])
            && (Early(r.1) ==> r.0 == s)
  {
    PushResult(cfg, WithStream(s, m.name), m.converters, |s.paths|);
    PushAllChangesOne(cfg, WithStream(s, m.name), m.converters, |s.paths|);
    hide PushAll, ParseInto, Lookup, WeakOk;
  }

  /**
    The mappings at the start of the program: exactly the old channels and those that could be reached are
    registered afterwards, whatever fails before or after them.
   */
  lemma {:induction false} AddEachRegisters(cfg: Config, s: State, ms: seq<StreamSettings>, clients: set<string>,
      channel: string)
    requires WeakOk(s)
    ensures channel in StreamRegistry.Channels(AddEach(cfg, s, ms, clients).registry) <==>
      || channel in StreamRegistry.Channels(s.registry)
      || (channel in clients && exists i :: 0 <= i < |ms| && ms[i].name == channel)
    decreases |ms|
  {
    hide WeakOk, DoAdd, StreamRegistry.Channels;
    if ms != [] {
      var t := DoAdd(cfg, s, ms[0], ms[0].name in clients).0;
      AddRegisters(cfg, s, ms[0], ms[0].name in clients, channel);
      AddEachRegisters(cfg, t, ms[1..], clients, channel);
      assert forall i :: 0 < i < |ms| ==> ms[i] == ms[1..][i - 1];
      assert forall i :: 0 <= i < |ms| - 1 ==> ms[1..][i] == ms[i + 1];
    }
  }

  lemma AddRegisters(cfg: Config, s: State, m: StreamSettings, clientOk: bool, channel: string)
    requires WeakOk(s)
    ensures channel in StreamRegistry.Channels(DoAdd(cfg, s, m, clientOk).0.registry) <==>
      channel in StreamRegistry.Channels(s.registry) || (clientOk && m.name == channel)
  {
    AddExtends(cfg, s, m, clientOk);
    AddFailsExactly(cfg, s, m, clientOk);
    hide WeakOk, DoAdd, ParseInto;
    var entry := Entry(m.name, |s.paths|);
    assert StreamRegistry.Channels(s.registry + [entry]) == StreamRegistry.Channels(s.registry) + [m.name];
  }

  lemma {:induction false} PushResult(cfg: Config, s: State, cs: seq<ConverterSettings>, id: int)
    requires WeakOk(s) && 0 <= id < |s.paths|
    ensures !Early(PushAll(cfg, s, cs, id).1)
    decreases |cs|
  {
    hide WeakOk, ParseInto, LiveInstance;
    if cs != [] && DoPush(cfg, s, cs[0], id).1 == Added {
      PushResult(cfg, DoPush(cfg, s, cs[0], id).0, cs[1..], id);
    }
  }

  function NamesOf(ms: seq<StreamSettings>): (names: seq<string>)
    ensures |names| == |ms| && forall i :: 0 <= i < |ms| ==> names[i] == ms[i].name
  {
    seq(|ms|, i requires 0 <= i < |ms| => ms[i].name)
  }

  lemma ExtendsTrans(s: State, t: State, u: State)
    requires Extends(s, t) && Extends(t, u)
    ensures Extends(s, u)
  {
  }

  /** The failures that come before the stream is registered. */
  predicate Early(r: AddResult) {
    r == AlreadyExists || r == ClientFailed
  }

  /** How many mappings at the start of the list are registered. */
  function Registering(cfg: Config, s: State, ms: seq<StreamSettings>, clients: set<string>): (n: nat)
    requires WeakOk(s)
    ensures n <= |ms|
    decreases |ms|
  {
    if ms == [] then 0 else
    var first := DoAdd(cfg, s, ms[0], ms[0].name in clients);
    if first.1 == Added then 1 + Registering(cfg, first.0, ms[1..], clients) else if Early(first.1) then 0 else 1
  }

  lemma {:induction false} RegisteringIs(cfg: Config, s: State, ms: seq<StreamSettings>, clients: set<string>)
    requires WeakOk(s)
    ensures var n, r := Succeeding(cfg, s, ms, clients), AddAll(cfg, s, ms, clients).1;
            Registering(cfg, s, ms, clients) == if r == Added || Early(r) then n else n + 1
    decreases |ms|
  {
    hide DoAdd, WeakOk;
    if ms != [] {
      var first := DoAdd(cfg, s, ms[0], ms[0].name in clients);
      if first.1 == Added {
        RegisteringIs(cfg, first.0, ms[1..], clients);
      }
    }
  }

  lemma NamesStep(before: seq<string>, ms: seq<StreamSettings>, n: nat)
    requires ms != [] && n < |ms|
    ensures before + NamesOf(ms[..n + 1]) == before + [ms[0].name] + NamesOf(ms[1..][..n])
  {
    assert NamesOf(ms[..n + 1]) == [ms[0].name] + NamesOf(ms[1..][..n]);
  }

  lemma NoNames(before: seq<string>, ms: seq<StreamSettings>)
    ensures before + NamesOf(ms[..0]) == before
  {
  }

  lemma ChannelsSnoc(entries: seq<Entry>, e: Entry)
    ensures Channels(entries + [e]) == Channels(entries) + [e.channel]
  {
  }

  lemma ExtendsSelf(s: State)
    ensures Extends(s, s)
  {
  }

  lemma {:induction false} AddAllChannels(cfg: Config, s: State, ms: seq<StreamSettings>, clients: set<string>)
    requires WeakOk(s)
    ensures var t := AddAll(cfg, s, ms, clients).0;
            && Extends(s, t)
            && Channels(t.registry) == Channels(s.registry) + NamesOf(ms[..Registering(cfg, s, ms, clients)])
    decreases |ms|
  {
    hide DoAdd, WeakOk, Extends, Channels, NamesOf, Early;
    if ms == [] {
      ExtendsSelf(s);
      NoNames(Channels(s.registry), ms);
    } else {
      var first := DoAdd(cfg, s, ms[0], ms[0].name in clients);
      AddExtends(cfg, s, ms[0], ms[0].name in clients);
      ChannelsSnoc(s.registry, Entry(ms[0].name, |s.paths|));
      if first.1 == Added {
        var n := Registering(cfg, first.0, ms[1..], clients);
        AddAllChannels(cfg, first.0, ms[1..], clients);
        ExtendsTrans(s, first.0, AddAll(cfg, first.0, ms[1..], clients).0);
        AddedIsNotEarly();
        NamesStep(Channels(s.registry), ms, n);
      } else {
        NoNames(Channels(s.registry), ms);
        NamesStep(Channels(s.registry), ms, 0);
        NoNames(Channels(s.registry) + [ms[0].name], ms[1..]);
      }
    }
  }

  lemma AddedIsNotEarly()
    ensures !Early(Added)
  {
  }

  /**
    What an add command registers: the channels before the first failing mapping, in order, and the
    channel of the failing one if the failure came after its stream was registered. No other stream is
    touched.
   */
  lemma AddAllRegisters(cfg: Config, s: State, ms: seq<StreamSettings>, clients: set<string>)
    requires WeakOk(s)
    ensures var n, r := Succeeding(cfg, s, ms, clients), AddAll(cfg, s, ms, clients);
            var count := if r.1 == Added || Early(r.1) then n else n + 1;
            && count <= |ms| && Extends(s, r.0)
            && Channels(r.0.registry) == Channels(s.registry) + NamesOf(ms[..count])
  {
    hide *;
    RegisteringIs(cfg, s, ms, clients);
    AddAllChannels(cfg, s, ms, clients);
  }

  // When everything succeeds, and how to undo it

  /** Nothing about a path with this converter can fail. */
  predicate GoodConverter(cfg: Config, c: ConverterSettings) {
    && c.schema in cfg.schemas
    && var uri := ParseInto(UriValue(cfg.broker.hostPort, cfg.broker.port, ""), c.topic);
       uri.1 == Parsed && uri.0.topic !in cfg.refused
  }

  predicate GoodMapping(cfg: Config, m: StreamSettings) {
    && (forall k :: 0 <= k < |m.converters| ==> GoodConverter(cfg, m.converters[k]))
    && StatusTopic(cfg, m) == Added
  }

  lemma PushSucceeds(cfg: Config, s: State, c: ConverterSettings, id: int)
    requires WeakOk(s) && 0 <= id < |s.paths|
    ensures DoPush(cfg, s, c, id).1 == Added <==> GoodConverter(cfg, c)
  {
    hide PickConverter, ParseInto, WeakOk, WithPath;
  }

  lemma {:induction false} PushAllSucceeds(cfg: Config, s: State, cs: seq<ConverterSettings>, id: int)
    requires WeakOk(s) && 0 <= id < |s.paths|
    ensures PushAll(cfg, s, cs, id).1 == Added <==> forall k :: 0 <= k < |cs| ==> GoodConverter(cfg, cs[k])
    decreases |cs|
  {
    hide DoPush, WeakOk, GoodConverter;
    if cs != [] {
      var first := DoPush(cfg, s, cs[0], id);
      PushSucceeds(cfg, s, cs[0], id);
      if first.1 == Added {
        PushAllSucceeds(cfg, first.0, cs[1..], id);
        assert forall k :: 0 < k < |cs| ==> cs[k] == cs[1..][k - 1];
        assert forall k :: 0 <= k < |cs| - 1 ==> cs[1..][k] == cs[k + 1];
      }
    }
  }

  /** One mapping succeeds exactly if its channel is new, its client can be made and its converters are good. */
  lemma AddSucceeds(cfg: Config, s: State, m: StreamSettings, clientOk: bool)
    requires WeakOk(s)
    ensures DoAdd(cfg, s, m, clientOk).1 == Added <==>
      m.name !in Channels(s.registry) && clientOk && GoodMapping(cfg, m)
  {
    LookupAgrees(s.registry, m.name);
    PushAllSucceeds(cfg, WithStream(s, m.name), m.converters, |s.paths|);
    hide PushAll, Lookup, StatusTopic, GoodConverter, Ids, WeakOk;
  }

  ghost predicate AllGood(cfg: Config, ms: seq<StreamSettings>, clients: set<string>) {
    forall i :: 0 <= i < |ms| ==> GoodMapping(cfg, ms[i]) && ms[i].name in clients
  }

  ghost predicate AllNew(before: seq<string>, names: seq<string>) {
    Distinct(names) && forall i :: 0 <= i < |names| ==> names[i] !in before
  }

  lemma AllNewStep(before: seq<string>, name: string, rest: seq<string>)
    ensures AllNew(before, [name] + rest) <==> name !in before && AllNew(before + [name], rest)
  {
    var all := [name] + rest;
    assert forall i :: 0 <= i < |rest| ==> all[i + 1] == rest[i];
    if AllNew(before, all) {
      assert all[0] == name;
      forall i | 0 <= i < |rest| ensures rest[i] !in before + [name] {
        assert all[i + 1] !in before && all[0] != all[i + 1];
      }
      forall i, j | 0 <= i < j < |rest| ensures rest[i] != rest[j] {
        assert all[i + 1] != all[j + 1];
      }
    }
  }

  /**
    An add command succeeds as a whole exactly if its channels are pairwise distinct and new, all
    clients can be made, and all converters are good.
   */
  lemma {:induction false} AddAllSucceeds(cfg: Config, s: State, ms: seq<StreamSettings>, clients: set<string>)
    requires WeakOk(s)
    ensures AddAll(cfg, s, ms, clients).1 == Added <==>
      AllGood(cfg, ms, clients) && AllNew(Channels(s.registry), NamesOf(ms))
    decreases |ms|
  {
    hide DoAdd, WeakOk, AllGood, AllNew, NamesOf, Channels;
    if ms == [] {
      NothingToAdd(cfg, Channels(s.registry), clients);
    } else {
      var m, rest := ms[0], ms[1..];
      var first := DoAdd(cfg, s, m, m.name in clients);
      AddSucceeds(cfg, s, m, m.name in clients);
      AllGoodStep(cfg, ms, clients);
      AllNewStep(Channels(s.registry), m.name, NamesOf(rest));
      if first.1 == Added {
        AddExtends(cfg, s, m, m.name in clients);
        AddedIsNotEarly();
        ChannelsSnoc(s.registry, Entry(m.name, |s.paths|));
        AddAllSucceeds(cfg, first.0, rest, clients);
      }
    }
  }

  lemma NothingToAdd(cfg: Config, before: seq<string>, clients: set<string>)
    ensures AllGood(cfg, [], clients) && AllNew(before, NamesOf([]))
  {
  }

  lemma AllGoodStep(cfg: Config, ms: seq<StreamSettings>, clients: set<string>)
    requires ms != []
    ensures AllGood(cfg, ms, clients) <==>
      GoodMapping(cfg, ms[0]) && ms[0].name in clients && AllGood(cfg, ms[1..], clients)
    ensures NamesOf(ms) == [ms[0].name] + NamesOf(ms[1..])
  {
    hide GoodMapping;
    assert forall i :: 0 < i < |ms| ==> ms[i] == ms[1..][i - 1];
    assert forall i :: 0 <= i < |ms| - 1 ==> ms[1..][i] == ms[i + 1];
  }

  lemma {:induction false} AddAllKeeps(cfg: Config, s: State, ms: seq<StreamSettings>, clients: set<string>)
    requires Inv(s) && WeakOk(s)
    ensures Inv(AddAll(cfg, s, ms, clients).0)
    decreases |ms|
  {
    hide Inv, WeakOk, DoAdd;
    if ms != [] {
      AddKeeps(cfg, s, ms[0], ms[0].name in clients);
      if DoAdd(cfg, s, ms[0], ms[0].name in clients).1 == Added {
        AddAllKeeps(cfg, DoAdd(cfg, s, ms[0], ms[0].name in clients).0, ms[1..], clients);
      }
    }
  }

  /** One stop command for each name. */
  function StopEach(s: State, names: seq<string>): (t: State)
    decreases |names|
  {
    if names == [] then s else StopEach(DoRemove(s, {names[0]}), names[1..])
  }

  lemma {:induction false} RemoveOne(entries: seq<Entry>, k: nat)
    requires StreamRegistry.Valid(entries) && k < |entries|
    ensures Remaining(entries, {entries[k].channel}) == entries[..k] + entries[k + 1..]
  {
    var keys := Channels(entries);
    if k == 0 {
      assert keys[0] == entries[0].channel;
      forall i | 0 <= i < |entries[1..]| ensures entries[1..][i].channel != entries[0].channel {
        assert keys[i + 1] == entries[i + 1].channel && keys[0] != keys[i + 1];
      }
      RemoveNone(entries[1..], entries[0].channel);
    } else {
      ValidRest(entries);
      RemoveOne(entries[1..], k - 1);
      assert keys[0] != keys[k];
      assert entries[..k] + entries[k + 1..] == [entries[0]] + (entries[1..][..k - 1] + entries[1..][k..]);
    }
  }

  lemma ValidRest(entries: seq<Entry>)
    requires StreamRegistry.Valid(entries) && entries != []
    ensures StreamRegistry.Valid(entries[1..])
  {
    assert forall i :: 0 <= i < |entries| - 1 ==> Channels(entries[1..])[i] == Channels(entries)[i + 1];
  }

  lemma {:induction false} RemoveNone(entries: seq<Entry>, channel: string)
    requires forall i :: 0 <= i < |entries| ==> entries[i].channel != channel
    ensures Remaining(entries, {channel}) == entries
  {
    if entries != [] {
      RemoveNone(entries[1..], channel);
    }
  }

  /** Stopping the channels from position k on, one after the other, leaves the first k. */
  lemma {:induction false} StopTail(s: State, k: nat)
    requires StreamRegistry.Valid(s.registry) && k <= |s.registry|
    ensures StopEach(s, Channels(s.registry)[k..]).registry == s.registry[..k]
    decreases |s.registry| - k
  {
    var names := Channels(s.registry)[k..];
    if k < |s.registry| {
      var t := DoRemove(s, {names[0]});
      RemoveOne(s.registry, k);
      RemoveRefines(s.registry, {names[0]});
      assert t.registry == s.registry[..k] + s.registry[k + 1..];
      assert Channels(t.registry)[k..] == names[1..];
      StopTail(t, k);
      assert t.registry[..k] == s.registry[..k];
    } else {
      assert s.registry[..k] == s.registry;
    }
  }

  /**
    An add command that succeeded, followed by a stop command for each of its channels, leaves the
    registry as it was.
   */
  lemma AddThenStop(cfg: Config, s: State, ms: seq<StreamSettings>, clients: set<string>)
    requires Inv(s) && WeakOk(s) && AddAll(cfg, s, ms, clients).1 == Added
    ensures StopEach(AddAll(cfg, s, ms, clients).0, NamesOf(ms)).registry == s.registry
  {
    var t := AddAll(cfg, s, ms, clients).0;
    AddAllKeeps(cfg, s, ms, clients);
    AddAllRegisters(cfg, s, ms, clients);
    AddAllStops(cfg, s, ms, clients);
    assert ms[..|ms|] == ms;
    assert StreamRegistry.Valid(t.registry) && s.registry <= t.registry;
    hide Inv, WeakOk, AddAll, StreamRegistry.Valid;
    StopTail(t, |s.registry|);
    assert Channels(t.registry)[|s.registry|..] == NamesOf(ms);
  }
}
