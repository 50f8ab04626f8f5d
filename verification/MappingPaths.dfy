/**
  Which conversion paths an add command makes: a reference that knows nothing of converter instances and
  weak pointers, only which names belong to live converters and of which schema.
 */
module MappingPaths {
  import opened Basics
  import opened Mappings
  import opened StreamRegistry
  import opened Uri

  // The reference

  /** What can be seen of a path. */
  datatype Made = Made(topic: string, schema: string, name: string)

  /** The topic of a new path. */
  function TopicFor(cfg: Config, c: ConverterSettings): string {
    ParseInto(UriValue(cfg.broker.hostPort, cfg.broker.port, ""), c.topic).0.topic
  }

  /** The schema of a new path, if `env` has the names of the live converters. */
  function SchemaIn(env: map<string, string>, c: ConverterSettings): string {
    if c.name in env then env[c.name] else c.schema
  }

  predicate Has(ps: seq<Made>, topic: string, schema: string) {
    exists k :: 0 <= k < |ps| && ps[k].topic == topic && ps[k].schema == schema
  }

  /** One more converter: a path that the stream has already is not made again, and settles no name. */
  function OneMore(cfg: Config, env: map<string, string>, ps: seq<Made>, c: ConverterSettings)
    : (r: (map<string, string>, seq<Made>))
  {
    var topic, schema := TopicFor(cfg, c), SchemaIn(env, c);
    if Has(ps, topic, schema) then (env, ps)
    else (if c.name != "" then env[c.name := schema] else env, ps + [Made(topic, schema, c.name)])
  }

  function StreamPaths(cfg: Config, env: map<string, string>, ps: seq<Made>, cs: seq<ConverterSettings>)
    : (r: (map<string, string>, seq<Made>))
    decreases |cs|
  {
    if cs == [] then (env, ps) else
    var first := OneMore(cfg, env, ps, cs[0]);
    StreamPaths(cfg, first.0, first.1, cs[1..])
  }

  function CommandPaths(cfg: Config, env: map<string, string>, ms: seq<StreamSettings>)
    : (r: (map<string, string>, seq<seq<Made>>))
    ensures |r.1| == |ms|
    decreases |ms|
  {
    if ms == [] then (env, []) else
    var first := StreamPaths(cfg, env, [], ms[0].converters);
    var rest := CommandPaths(cfg, first.0, ms[1..]);
    (rest.0, [first.1] + rest.1)
  }

  // The paths of a state

  function Shown(ps: seq<Path>): (r: seq<Made>)
    ensures |r| == |ps|
    ensures forall k :: 0 <= k < |ps| ==> r[k] == Made(ps[k].topic, ps[k].schema, ps[k].name)
  {
    seq(|ps|, k requires 0 <= k < |ps| => Made(ps[k].topic, ps[k].schema, ps[k].name))
  }

  function ShownFrom(paths: seq<seq<Path>>, first: nat): (r: seq<seq<Made>>)
    requires first <= |paths|
    ensures |r| == |paths| - first
    ensures forall i :: 0 <= i < |r| ==> r[i] == Shown(paths[first + i])
  {
    seq(|paths| - first, i requires 0 <= i < |paths| - first => Shown(paths[first + i]))
  }

  /** The schema of the live converter with this name, if there is one. */
  function LiveSchema(s: State, name: string): (r: Option<string>)
    requires WeakOk(s)
  {
    if name != "" && name in s.weak && LiveInstance(s, s.weak[name]) then Some(s.instances[s.weak[name]].schema)
    else None
  }

  ghost predicate Knows(s: State, env: map<string, string>)
    requires WeakOk(s)
  {
    forall name :: LiveSchema(s, name) == if name in env then Some(env[name]) else None
  }

  function LiveNames(s: State): (env: map<string, string>)
    requires WeakOk(s)
  {
    map name | name in s.weak && name != "" && LiveInstance(s, s.weak[name]) :: s.instances[s.weak[name]].schema
  }

  lemma LiveNamesKnow(s: State)
    requires WeakOk(s)
    ensures Knows(s, LiveNames(s))
  {
    hide LiveInstance;
  }

  // One push

  lemma PickLive(s: State, c: ConverterSettings, name: string)
    requires Inv(s) && WeakOk(s)
    ensures var r := PickConverter(s, c);
            && LiveSchema(r.0, name) == LiveSchema(s, name)
            && r.0.instances[r.1].schema == (if LiveSchema(s, c.name).Some? then LiveSchema(s, c.name).value
                                             else c.schema)
            && (LiveSchema(s, c.name).Some? ==> r.0 == s)
            && (c.name != "" ==> c.name in r.0.weak && r.0.weak[c.name] == r.1)
  {
    var r := PickConverter(s, c);
    forall x ensures LiveInstance(r.0, x) == LiveInstance(s, x) {
      LiveSame(s, r.0, x);
    }
    NotLive(s);
    hide LiveInstance, StreamRegistry.Valid;
  }

  lemma StaysLive(s: State, id: int, path: Path, c: int)
    requires 0 <= id < |s.paths| && LiveInstance(s, c)
    ensures LiveInstance(WithPath(s, id, path), c)
  {
    var t := WithPath(s, id, path);
    var i :| 0 <= i < |s.paths| && LiveStream(s, i) && Uses(s.paths[i], c);
    var k :| 0 <= k < |s.paths[i]| && s.paths[i][k].converter == c;
    assert LiveStream(t, i) && t.paths[i][k].converter == c;
    assert Uses(t.paths[i], c);
  }

  lemma BecomesLive(s: State, id: int, path: Path)
    requires LiveStream(s, id) && !HasPath(s.paths[id], path.topic, path.schema)
    ensures LiveInstance(WithPath(s, id, path), path.converter)
  {
    var t := WithPath(s, id, path);
    assert LiveStream(t, id) && t.paths[id][|s.paths[id]|].converter == path.converter;
    assert Uses(t.paths[id], path.converter);
  }

  lemma WithPathSchema(s: State, id: int, path: Path, name: string)
    requires WeakOk(s) && LiveStream(s, id) && PathOk(s, path)
    requires path.name != "" ==> path.name in s.weak && s.weak[path.name] == path.converter
    ensures LiveSchema(WithPath(s, id, path), name) ==
            if !HasPath(s.paths[id], path.topic, path.schema) && name == path.name != "" then Some(path.schema)
            else LiveSchema(s, name)
  {
    var t := WithPath(s, id, path);
    assert t.weak == s.weak && t.instances == s.instances;
    if !HasPath(s.paths[id], path.topic, path.schema) {
      BecomesLive(s, id, path);
      if name in s.weak {
        var c := s.weak[name];
        assert 0 <= c < |s.instances| && s.instances[c].name == name;
        assert s.instances[path.converter] == Instance(path.schema, path.name);
        if LiveInstance(s, c) {
          StaysLive(s, id, path, c);
        } else if LiveInstance(t, c) {
          WithPathLive(s, id, path, c);
        }
      }
    }
    hide LiveInstance, HasPath, LiveStream;
  }

  lemma HasIsHas(ps: seq<Path>, topic: string, schema: string)
    ensures HasPath(ps, topic, schema) <==> Has(Shown(ps), topic, schema)
  {
    if HasPath(ps, topic, schema) {
      var k :| 0 <= k < |ps| && ps[k].topic == topic && ps[k].schema == schema;
      assert Shown(ps)[k].topic == topic && Shown(ps)[k].schema == schema;
    }
  }

  /** The states that a push can end in. */
  lemma PushIs(cfg: Config, s: State, c: ConverterSettings, id: int)
    requires WeakOk(s) && 0 <= id < |s.paths| && DoPush(cfg, s, c, id).1 == Added
    ensures var picked := PickConverter(s, c);
            var path := Path(TopicFor(cfg, c), picked.0.instances[picked.1].schema, picked.1, c.name);
            DoPush(cfg, s, c, id).0 == WithPath(picked.0, id, path)
  {
    hide WeakOk, ParseInto, PickConverter, WithPath;
  }

  lemma PickedFacts(s: State, c: ConverterSettings, id: int)
    requires Inv(s) && WeakOk(s) && LiveStream(s, id)
    ensures var r := PickConverter(s, c);
            && LiveStream(r.0, id) && r.0.paths == s.paths
            && forall topic :: PathOk(r.0, Path(topic, r.0.instances[r.1].schema, r.1, c.name))
  {
    hide LiveInstance;
  }

  lemma MoreIs(cfg: Config, env: map<string, string>, ps: seq<Path>, c: ConverterSettings, path: Path)
    requires path.topic == TopicFor(cfg, c) && path.schema == SchemaIn(env, c) && path.name == c.name
    ensures var r := OneMore(cfg, env, Shown(ps), c);
            && r.1 == Shown(if HasPath(ps, path.topic, path.schema) then ps else ps + [path])
            && r.0 == if !HasPath(ps, path.topic, path.schema) && c.name != "" then env[c.name := path.schema] else env
  {
    HasIsHas(ps, path.topic, path.schema);
    hide TopicFor, SchemaIn, Has, HasPath;
    assert Shown(ps + [path]) == Shown(ps) + [Made(path.topic, path.schema, path.name)];
  }

  /** The path that a push makes, if the names of live converters are those of `env`. */
  ghost function NewPath(cfg: Config, s: State, c: ConverterSettings): (path: Path)
    requires WeakOk(s)
  {
    var picked := PickConverter(s, c);
    Path(TopicFor(cfg, c), picked.0.instances[picked.1].schema, picked.1, c.name)
  }

  /** On a live stream, with the picked converter, everything is in place for the path. */
  lemma NewPathFits(cfg: Config, s: State, c: ConverterSettings, id: int, env: map<string, string>)
    requires Inv(s) && WeakOk(s) && LiveStream(s, id) && Knows(s, env)
    ensures var path, t := NewPath(cfg, s, c), PickConverter(s, c).0;
            && path.topic == TopicFor(cfg, c) && path.schema == SchemaIn(env, c) && path.name == c.name
            && WeakOk(t) && LiveStream(t, id) && PathOk(t, path) && t.paths == s.paths
            && (path.name != "" ==> path.name in t.weak && t.weak[path.name] == path.converter)
  {
    PickedFacts(s, c, id);
    PickLive(s, c, c.name);
    assert LiveSchema(s, c.name) == if c.name in env then Some(env[c.name]) else None;
    hide Inv, WeakOk, PickConverter, LiveSchema, LiveStream, PathOk, TopicFor;
  }

  /** What happens to the name of a live converter. */
  lemma PushName(cfg: Config, s: State, c: ConverterSettings, id: int, env: map<string, string>, name: string)
    requires Inv(s) && WeakOk(s) && LiveStream(s, id) && Knows(s, env)
    requires 0 <= id < |s.paths| == |PickConverter(s, c).0.paths|
    requires WeakOk(WithPath(PickConverter(s, c).0, id, NewPath(cfg, s, c)))
    ensures var path := NewPath(cfg, s, c);
            LiveSchema(WithPath(PickConverter(s, c).0, id, path), name) ==
              if !HasPath(s.paths[id], path.topic, path.schema) && name == path.name != "" then Some(path.schema)
              else if name in env then Some(env[name]) else None
  {
    hide *;
    NewPathFits(cfg, s, c, id, env);
    PickLive(s, c, name);
    WithPathSchema(PickConverter(s, c).0, id, NewPath(cfg, s, c), name);
    KnowsName(s, env, name);
  }

  lemma KnowsName(s: State, env: map<string, string>, name: string)
    requires WeakOk(s) && Knows(s, env)
    ensures LiveSchema(s, name) == if name in env then Some(env[name]) else None
  {
    hide WeakOk;
  }

  /** What happens to the names of live converters. */
  lemma PushNames(cfg: Config, s: State, c: ConverterSettings, id: int, env: map<string, string>)
    requires Inv(s) && WeakOk(s) && LiveStream(s, id) && Knows(s, env)
    requires 0 <= id < |s.paths| == |PickConverter(s, c).0.paths|
    requires WeakOk(WithPath(PickConverter(s, c).0, id, NewPath(cfg, s, c)))
    ensures var path := NewPath(cfg, s, c);
            var r := if !HasPath(s.paths[id], path.topic, path.schema) && path.name != ""
                     then env[path.name := path.schema] else env;
            Knows(WithPath(PickConverter(s, c).0, id, path), r)
  {
    hide Inv, WeakOk, PickConverter, LiveSchema, LiveStream, PathOk, NewPath, HasPath, WithPath, TopicFor, SchemaIn;
    var path, t := NewPath(cfg, s, c), WithPath(PickConverter(s, c).0, id, NewPath(cfg, s, c));
    forall name
      ensures LiveSchema(t, name) ==
        if !HasPath(s.paths[id], path.topic, path.schema) && name == path.name != "" then Some(path.schema)
        else if name in env then Some(env[name]) else None
    {
      hide Knows;
      PushName(cfg, s, c, id, env, name);
    }
  }

  lemma PushIsNew(cfg: Config, s: State, c: ConverterSettings, id: int)
    requires WeakOk(s) && 0 <= id < |s.paths| && DoPush(cfg, s, c, id).1 == Added
    ensures |PickConverter(s, c).0.paths| == |s.paths|
    ensures DoPush(cfg, s, c, id).0 == WithPath(PickConverter(s, c).0, id, NewPath(cfg, s, c))
    ensures WeakOk(DoPush(cfg, s, c, id).0)
  {
    PushIs(cfg, s, c, id);
    hide DoPush, WithPath, TopicFor;
  }

  lemma WithPathPaths(s: State, id: int, path: Path)
    requires 0 <= id < |s.paths|
    ensures WithPath(s, id, path).paths[id] ==
            if HasPath(s.paths[id], path.topic, path.schema) then s.paths[id] else s.paths[id] + [path]
  {
    hide HasPath;
  }

  /** One successful push does to the paths and the names what the reference says. */
  lemma PushMakes(cfg: Config, s: State, c: ConverterSettings, id: int, env: map<string, string>)
    requires Inv(s) && WeakOk(s) && LiveStream(s, id) && Knows(s, env) && DoPush(cfg, s, c, id).1 == Added
    ensures var t, r := DoPush(cfg, s, c, id).0, OneMore(cfg, env, Shown(s.paths[id]), c);
            |t.paths| == |s.paths| && Shown(t.paths[id]) == r.1 && Knows(t, r.0)
  {
    hide *;
    LiveIds(s, id);
    PushIsNew(cfg, s, c, id);
    NewPathFits(cfg, s, c, id, env);
    PushNames(cfg, s, c, id, env);
    WithPathPaths(PickConverter(s, c).0, id, NewPath(cfg, s, c));
    MoreIs(cfg, env, s.paths[id], c, NewPath(cfg, s, c));
  }

  lemma PushKeepsLive(cfg: Config, s: State, c: ConverterSettings, id: int)
    requires WeakOk(s) && LiveStream(s, id)
    ensures LiveStream(DoPush(cfg, s, c, id).0, id)
  {
    PushChangesOne(cfg, s, c, id);
    hide DoPush, WeakOk;
  }

  lemma {:induction false} PushAllMakes(cfg: Config, s: State, cs: seq<ConverterSettings>, id: int,
      env: map<string, string>)
    requires Inv(s) && WeakOk(s) && LiveStream(s, id) && Knows(s, env) && PushAll(cfg, s, cs, id).1 == Added
    ensures var t, r := PushAll(cfg, s, cs, id).0, StreamPaths(cfg, env, Shown(s.paths[id]), cs);
            |t.paths| == |s.paths| && Shown(t.paths[id]) == r.1 && Knows(t, r.0)
    decreases |cs|
  {
    LiveIds(s, id);
    hide Inv, WeakOk, DoPush, LiveStream, Knows, OneMore;
    if cs != [] {
      PushMakes(cfg, s, cs[0], id, env);
      PushKeeps(cfg, s, cs[0], id);
      PushKeepsLive(cfg, s, cs[0], id);
      var r := OneMore(cfg, env, Shown(s.paths[id]), cs[0]);
      PushAllMakes(cfg, DoPush(cfg, s, cs[0], id).0, cs[1..], id, r.0);
    }
  }

  // One mapping

  lemma WithStreamLive(s: State, channel: string, c: int)
    requires EntriesOk(s)
    ensures LiveInstance(WithStream(s, channel), c) <==> LiveInstance(s, c)
  {
    var t := WithStream(s, channel);
    if i :| 0 <= i < |t.paths| && LiveStream(t, i) && Uses(t.paths[i], c) {
      assert i < |s.paths|;
      assert Registered(t.registry, i) ==> Registered(s.registry, i);
      assert LiveStream(s, i);
    }
    if i :| 0 <= i < |s.paths| && LiveStream(s, i) && Uses(s.paths[i], c) {
      if k :| 0 <= k < |s.registry| && s.registry[k].id == i {
        assert t.registry[k].id == i;
      }
      assert LiveStream(t, i) && t.paths[i] == s.paths[i];
    }
  }

  lemma WithStreamKnows(s: State, channel: string, env: map<string, string>)
    requires Inv(s) && WeakOk(s) && WeakOk(WithStream(s, channel)) && Knows(s, env)
    ensures Knows(WithStream(s, channel), env)
  {
    forall name ensures LiveSchema(WithStream(s, channel), name) == LiveSchema(s, name) {
      if name in s.weak {
        WithStreamLive(s, channel, s.weak[name]);
      }
    }
    hide LiveSchema;
  }

  lemma NewStream(s: State, channel: string)
    ensures var t := WithStream(s, channel);
            && |t.paths| == |s.paths| + 1 && t.paths[|s.paths|] == [] && t.paths[..|s.paths|] == s.paths
            && LiveStream(t, |s.paths|) && Shown(t.paths[|s.paths|]) == []
  {
    assert WithStream(s, channel).registry[|s.registry|].id == |s.paths|;
  }

  lemma AddedIs(cfg: Config, s: State, m: StreamSettings, clientOk: bool)
    requires WeakOk(s) && DoAdd(cfg, s, m, clientOk).1 == Added
    ensures Lookup(s.registry, m.name) == None
    ensures DoAdd(cfg, s, m, clientOk) == PushAll(cfg, WithStream(s, m.name), m.converters, |s.paths|)
  {
    hide PushAll, StatusTopic, Lookup, WeakOk;
  }

  lemma AddMakes(cfg: Config, s: State, m: StreamSettings, clientOk: bool, env: map<string, string>)
    requires Inv(s) && WeakOk(s) && Knows(s, env) && DoAdd(cfg, s, m, clientOk).1 == Added
    ensures var t, r := DoAdd(cfg, s, m, clientOk).0, StreamPaths(cfg, env, [], m.converters);
            && t.registry == s.registry + [Entry(m.name, |s.paths|)]
            && |t.paths| == |s.paths| + 1 && t.paths[..|s.paths|] == s.paths
            && Shown(t.paths[|s.paths|]) == r.1 && Knows(t, r.0)
  {
    AddExtends(cfg, s, m, clientOk);
    hide *;
    var t := WithStream(s, m.name);
    AddedIs(cfg, s, m, clientOk);
    AddedNotEarly(DoAdd(cfg, s, m, clientOk).1);
    WithStreamKeeps(s, m.name);
    WeakOf(t);
    NewStream(s, m.name);
    WithStreamKnows(s, m.name, env);
    PushAllMakes(cfg, t, m.converters, |s.paths|, env);
    OldPaths(s, DoAdd(cfg, s, m, clientOk).0);
  }

  lemma AddedNotEarly(r: AddResult)
    requires r == Added
    ensures !Early(r)
  {
  }

  lemma OldPaths(s: State, t: State)
    requires Mappings.Extends(s, t)
    ensures |s.paths| <= |t.paths| && t.paths[..|s.paths|] == s.paths
  {
  }

  // A whole command

  /** The entries of the new streams, which are numbered from `next` on. */
  function EntriesOf(ms: seq<StreamSettings>, next: int): (entries: seq<Entry>)
    ensures |entries| == |ms|
    ensures forall i :: 0 <= i < |ms| ==> entries[i] == Entry(ms[i].name, next + i)
  {
    seq(|ms|, i requires 0 <= i < |ms| => Entry(ms[i].name, next + i))
  }

  lemma EntriesStep(before: seq<Entry>, ms: seq<StreamSettings>, next: int)
    requires ms != []
    ensures before + EntriesOf(ms, next) == before + [Entry(ms[0].name, next)] + EntriesOf(ms[1..], next + 1)
  {
    assert EntriesOf(ms, next) == [Entry(ms[0].name, next)] + EntriesOf(ms[1..], next + 1);
  }

  lemma NoEntries(before: seq<Entry>, ms: seq<StreamSettings>, next: int)
    requires ms == []
    ensures before + EntriesOf(ms, next) == before
  {
  }

  lemma PathsJoin(s: State, t: State, paths: seq<seq<Path>>)
    requires |t.paths| == |s.paths| + 1 <= |paths| && t.paths[..|s.paths|] == s.paths
    requires paths[..|t.paths|] == t.paths
    ensures paths[..|s.paths|] == s.paths
    ensures ShownFrom(paths, |s.paths|) == [Shown(t.paths[|s.paths|])] + ShownFrom(paths, |t.paths|)
  {
    hide Shown;
    assert paths[|s.paths|] == paths[..|t.paths|][|s.paths|];
  }

  lemma NoneMade(s: State)
    ensures ShownFrom(s.paths, |s.paths|) == [] && s.paths[..|s.paths|] == s.paths
  {
  }

  /**
    A successful add command, with any mappings: old streams stay as they are, the new ones are
    registered in order, and each has exactly the paths of the reference. The names of live converters
    after the command are those of the reference, too.
   */
  lemma {:induction false} AddAllPaths(cfg: Config, s: State, ms: seq<StreamSettings>, clients: set<string>,
      env: map<string, string>)
    requires Inv(s) && WeakOk(s) && Knows(s, env) && AddAll(cfg, s, ms, clients).1 == Added
    ensures var t, r := AddAll(cfg, s, ms, clients).0, CommandPaths(cfg, env, ms);
            && |s.paths| <= |t.paths| && t.paths[..|s.paths|] == s.paths
            && t.registry == s.registry + EntriesOf(ms, |s.paths|)
            && ShownFrom(t.paths, |s.paths|) == r.1 && Knows(t, r.0)
    decreases |ms|
  {
    hide Inv, WeakOk, DoAdd, Knows, EntriesOf, ShownFrom, Shown, StreamPaths;
    if ms == [] {
      NoEntries(s.registry, ms, |s.paths|);
      NoneMade(s);
    } else {
      var first, r := DoAdd(cfg, s, ms[0], ms[0].name in clients).0, StreamPaths(cfg, env, [], ms[0].converters);
      AddKeeps(cfg, s, ms[0], ms[0].name in clients);
      AddMakes(cfg, s, ms[0], ms[0].name in clients, env);
      AddAllPaths(cfg, first, ms[1..], clients, r.0);
      EntriesStep(s.registry, ms, |s.paths|);
      PathsJoin(s, first, AddAll(cfg, s, ms, clients).0.paths);
    }
  }

  /** A path of a live stream settles the schema of every later path with its name. */
  lemma LivePathSettles(s: State, id: int, k: int)
    requires Inv(s) && WeakOk(s) && LiveStream(s, id) && 0 <= k < |s.paths[id]| && s.paths[id][k].name != ""
    ensures LiveSchema(s, s.paths[id][k].name) == Some(s.paths[id][k].schema)
  {
    var path := s.paths[id][k];
    assert PathOk(s, path) && Uses(s.paths[id], path.converter);
    assert LiveInstance(s, path.converter);
    hide LiveInstance, LiveStream, Uses, EntriesOk;
  }
}
