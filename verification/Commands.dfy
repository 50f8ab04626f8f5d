/**
  The commands that come in as JSON: src/ConfigParser.cpp, src/CommandHandler.cpp, and the printer of
  commands in system-tests/helpers/forwarderconfig.py.
 */
module Commands {
  import opened Basics
  import opened Decimal
  import opened Mappings
  import opened MappingPaths
  import opened ForwarderHeap
  import StopFlag
  import StreamRegistry
  import Uri

  datatype Json =
    | JsonNull
    | JsonBool(flag: bool)
    | JsonNumber(number: real)
    | JsonString(text: string)
    | JsonArray(items: seq<Json>)
    | JsonObject(fields: map<string, Json>)

  // Reading

  function Find(key: string, json: Json): (r: Option<Json>) {
    if json.JsonObject? && key in json.fields then Some(json.fields[key]) else None
  }

  /** A string under this key; anything else there counts as missing. */
  function FindString(key: string, json: Json): (r: Option<string>) {
    var value := Find(key, json);
    if value.Some? && value.value.JsonString? then Some(value.value.text) else None
  }

  datatype CommandType = AddCommand | StopChannelCommand | StopAllCommand | ExitCommand | UnknownCommand

  function FindCommand(document: Json): (c: CommandType) {
    var cmd := FindString("cmd", document);
    if cmd == Some("add") then AddCommand
    else if cmd == Some("stop_channel") then StopChannelCommand
    else if cmd == Some("stop_all") then StopAllCommand
    else if cmd == Some("exit") then ExitCommand
    else UnknownCommand
  }

  function AutoName(index: int): (name: string)
    requires index >= 0
  {
    "converter_" + Dec(index)
  }

  /** One converter, and the counter for generated names after it; None stands for the exception. */
  function ReadConverter(json: Json, index: uint32): (r: Option<(ConverterSettings, uint32)>) {
    var schema, topic, name := FindString("schema", json), FindString("topic", json), FindString("name", json);
    if schema.None? || topic.None? then None
    else if name.Some? then Some((ConverterSettings(schema.value, topic.value, name.value), index))
    else Some((ConverterSettings(schema.value, topic.value, AutoName(index)), Plus32(index, 1)))
  }

  function ReadConverters(items: seq<Json>, index: uint32): (r: Option<(seq<ConverterSettings>, uint32)>) {
    if items == [] then Some(([], index)) else
    var first := ReadConverter(items[0], index);
    if first.None? then None else
    var rest := ReadConverters(items[1..], first.value.1);
    if rest.None? then None else Some(([first.value.0] + rest.value.0, rest.value.1))
  }

  /** A converter may be an object or an array of them; anything else is ignored. */
  function ConverterItems(json: Json): (items: seq<Json>) {
    var converter := Find("converter", json);
    if converter.None? then []
    else if converter.value.JsonObject? then [converter.value]
    else if converter.value.JsonArray? then converter.value.items
    else []
  }

  function Protocol(json: Json): (p: string) {
    var given := FindString("channel_provider_type", json);
    if given == Some("ca") then "ca" else "pva"
  }

  function ReadStream(json: Json, index: uint32): (r: Option<(StreamSettings, uint32)>) {
    var channel := FindString("channel", json);
    if channel.None? then None else
    var converters := ReadConverters(ConverterItems(json), index);
    if converters.None? then None
    else Some((StreamSettings(channel.value, Protocol(json), converters.value.0), converters.value.1))
  }

  function ReadStreams(items: seq<Json>, index: uint32): (r: Option<seq<StreamSettings>>) {
    if items == [] then Some([]) else
    var first := ReadStream(items[0], index);
    if first.None? then None else
    var rest := ReadStreams(items[1..], first.value.1);
    if rest.None? then None else Some([first.value.0] + rest.value)
  }

  function StreamItems(json: Json): (items: seq<Json>) {
    var streams := Find("streams", json);
    if streams.Some? && streams.value.JsonArray? then streams.value.items else []
  }

  /** extractStreamInfo on a fresh parser. */
  function ReadSettings(json: Json): (r: Option<seq<StreamSettings>>) {
    ReadStreams(StreamItems(json), 0)
  }

  // What is malformed

  predicate ConverterOk(json: Json) {
    FindString("schema", json).Some? && FindString("topic", json).Some?
  }

  ghost predicate StreamOk(json: Json) {
    && FindString("channel", json).Some?
    && forall k :: 0 <= k < |ConverterItems(json)| ==> ConverterOk(ConverterItems(json)[k])
  }

  lemma {:induction false} ReadConvertersFails(items: seq<Json>, index: uint32)
    ensures ReadConverters(items, index).Some? <==> forall k :: 0 <= k < |items| ==> ConverterOk(items[k])
  {
    if items != [] && ConverterOk(items[0]) {
      ReadConvertersFails(items[1..], ReadConverter(items[0], index).value.1);
      assert forall k :: 0 < k < |items| ==> items[k] == items[1..][k - 1];
    }
  }

  lemma {:induction false} ReadStreamsFails(items: seq<Json>, index: uint32)
    ensures ReadStreams(items, index).Some? <==> forall k :: 0 <= k < |items| ==> StreamOk(items[k])
  {
    if items != [] {
      ReadConvertersFails(ConverterItems(items[0]), index);
      hide ReadConverters, ConverterItems, Protocol, FindString;
      assert ReadStream(items[0], index).Some? <==> StreamOk(items[0]);
      if StreamOk(items[0]) {
        ReadStreamsFails(items[1..], ReadStream(items[0], index).value.1);
        assert forall k :: 0 < k < |items| ==> items[k] == items[1..][k - 1];
      }
      hide StreamOk, ReadStream;
    }
  }

  /** An add command is rejected as a whole exactly if one of its entries is malformed. */
  lemma RejectedExactly(json: Json)
    ensures ReadSettings(json) == None <==> exists k :: 0 <= k < |StreamItems(json)| && !StreamOk(StreamItems(json)[k])
  {
    ReadStreamsFails(StreamItems(json), 0);
  }

  /** A single converter object and an array of one converter read the same. */
  lemma ObjectOrArray(fields: map<string, Json>, converter: Json, index: uint32)
    requires converter.JsonObject?
    ensures ReadStream(JsonObject(fields["converter" := converter]), index)
         == ReadStream(JsonObject(fields["converter" := JsonArray([converter])]), index)
  {
    var a, b := JsonObject(fields["converter" := converter]), JsonObject(fields["converter" := JsonArray([converter])]);
    assert ConverterItems(a) == [converter] == ConverterItems(b);
    assert FindString("channel", a) == FindString("channel", b);
    assert Protocol(a) == Protocol(b);
    hide ReadConverters, ConverterItems, FindString, Protocol;
  }

  // The parser object

  class ConfigParser {
    const json: Json
    var converterIndex: uint32

    constructor (json: Json)
      ensures this.json == json && converterIndex == 0
    {
      this.json, converterIndex := json, 0;
    }

    method ExtractConverterSettings(mapping: Json) returns (settings: Option<ConverterSettings>)
      modifies this
      ensures var r := ReadConverter(mapping, old(converterIndex));
              if r.Some? then settings == Some(r.value.0) && converterIndex == r.value.1 else settings == None
    {
      var schema := FindString("schema", mapping);
      if schema.None? {
        return None;
      }
      var topic := FindString("topic", mapping);
      if topic.None? {
        return None;
      }
      var name := FindString("name", mapping);
      if name.Some? {
        return Some(ConverterSettings(schema.value, topic.value, name.value));
      }
      var generated := "converter_" + Dec(converterIndex);
      converterIndex := Plus32(converterIndex, 1);
      return Some(ConverterSettings(schema.value, topic.value, generated));
    }

    /** The channel and the protocol; None if there is no channel. */
    static method ExtractMappingInfo(mapping: Json) returns (info: Option<(string, string)>)
      ensures info == var channel := FindString("channel", mapping);
                      if channel.Some? then Some((channel.value, Protocol(mapping))) else None
    {
      if !mapping.JsonObject? {
        return None;
      }
      var channel := FindString("channel", mapping);
      if channel.None? {
        return None;
      }
      var protocol := "pva";
      var given := FindString("channel_provider_type", mapping);
      if given.Some? && (given.value == "ca" || given.value == "pva") {
        protocol := given.value;
      }
      return Some((channel.value, protocol));
    }

    method ExtractConverters(items: seq<Json>) returns (r: Option<seq<ConverterSettings>>)
      modifies this
      ensures var read := ReadConverters(items, old(converterIndex));
              if read.Some? then r == Some(read.value.0) && converterIndex == read.value.1 else r == None
    {
      hide ReadConverter;
      var out: seq<ConverterSettings> := [];
      ghost var index := converterIndex;
      var i := 0;
      assert items[0..] == items;
      PrependEnds(out, ReadConverters(items, index), 0);
      while i < |items|
        invariant 0 <= i <= |items|
        invariant ReadConverters(items, index) == Prepend(out, ReadConverters(items[i..], converterIndex))
      {
        assert items[i..][0] == items[i] && items[i..][1..] == items[i + 1..];
        ghost var before := converterIndex;
        var settings := ExtractConverterSettings(items[i]);
        if settings.None? {
          return None;
        }
        PrependStep(out, settings.value, ReadConverters(items[i + 1..], converterIndex));
        out := out + [settings.value];
        i := i + 1;
      }
      PrependEnds(out, None, converterIndex);
      return Some(out);
    }

    method ExtractStreamInfo() returns (r: Option<seq<StreamSettings>>)
      requires converterIndex == 0
      modifies this
      ensures r == ReadSettings(json)
    {
      hide ReadConverters, FindString, Protocol;
      var streams := Find("streams", json);
      if streams.None? || !streams.value.JsonArray? {
        return Some([]);
      }
      var items := streams.value.items;
      var out: seq<StreamSettings> := [];
      var i := 0;
      assert items[0..] == items;
      PrependStreamsEnds(out, ReadStreams(items, 0));
      while i < |items|
        invariant 0 <= i <= |items|
        invariant ReadStreams(items, 0) == PrependStreams(out, ReadStreams(items[i..], converterIndex))
      {
        assert items[i..][0] == items[i] && items[i..][1..] == items[i + 1..];
        var info := ExtractMappingInfo(items[i]);
        if info.None? {
          return None;
        }
        var converters := ExtractConverters(ConverterItems(items[i]));
        if converters.None? {
          return None;
        }
        ghost var stream := StreamSettings(info.value.0, info.value.1, converters.value);
        PrependStreamsStep(out, stream, ReadStreams(items[i + 1..], converterIndex));
        out := out + [StreamSettings(info.value.0, info.value.1, converters.value)];
        i := i + 1;
      }
      PrependStreamsEnds(out, None);
      return Some(out);
    }
  }

  ghost function Prepend(a: seq<ConverterSettings>, r: Option<(seq<ConverterSettings>, uint32)>)
    : (all: Option<(seq<ConverterSettings>, uint32)>)
  {
    if r.None? then None else Some((a + r.value.0, r.value.1))
  }

  lemma PrependEnds(a: seq<ConverterSettings>, r: Option<(seq<ConverterSettings>, uint32)>, index: uint32)
    ensures Prepend([], r) == r && Prepend(a, Some(([], index))) == Some((a, index))
  {
    assert r.Some? ==> [] + r.value.0 == r.value.0;
    assert a + [] == a;
  }

  lemma PrependStep(a: seq<ConverterSettings>, c: ConverterSettings, r: Option<(seq<ConverterSettings>, uint32)>)
    ensures Prepend(a + [c], r) == Prepend(a, if r.None? then None else Some(([c] + r.value.0, r.value.1)))
  {
    if r.Some? {
      assert a + [c] + r.value.0 == a + ([c] + r.value.0);
    }
  }

  ghost function PrependStreams(a: seq<StreamSettings>, r: Option<seq<StreamSettings>>): Option<seq<StreamSettings>> {
    if r.None? then None else Some(a + r.value)
  }

  lemma PrependStreamsEnds(a: seq<StreamSettings>, r: Option<seq<StreamSettings>>)
    ensures PrependStreams([], r) == r && PrependStreams(a, Some([])) == Some(a)
  {
    assert r.Some? ==> [] + r.value == r.value;
    assert a + [] == a;
  }

  lemma PrependStreamsStep(a: seq<StreamSettings>, m: StreamSettings, r: Option<seq<StreamSettings>>)
    ensures PrependStreams(a + [m], r) == PrependStreams(a, if r.None? then None else Some([m] + r.value))
  {
    if r.Some? {
      assert a + [m] + r.value == a + ([m] + r.value);
    }
  }

  // The printer

  datatype EpicsProtocol = Pva | Ca

  function ProtocolText(p: EpicsProtocol): (t: string) {
    match p case Pva => "pva" case Ca => "ca"
  }

  const BROKER_PREFIX := "//localhost:9092/"

  function ConverterJson(schema: string, topic: string): Json {
    JsonObject(map["schema" := JsonString(schema), "topic" := JsonString(BROKER_PREFIX + topic)])
  }

  function StreamJson(pv: string, schema: string, topic: string, protocol: EpicsProtocol): Json {
    JsonObject(map[
      "channel" := JsonString(pv),
      "converter" := ConverterJson(schema, topic),
      "channel_provider_type" := JsonString(ProtocolText(protocol))])
  }

  function StreamsJson(pvs: seq<string>, schema: string, topic: string, protocol: EpicsProtocol): (items: seq<Json>)
    ensures |items| == |pvs|
    ensures forall i :: 0 <= i < |pvs| ==> items[i] == StreamJson(pvs[i], schema, topic, protocol)
  {
    seq(|pvs|, i requires 0 <= i < |pvs| => StreamJson(pvs[i], schema, topic, protocol))
  }

  /** create_forwarder_configuration. */
  function AddJson(pvs: seq<string>, schema: string, topic: string, protocol: EpicsProtocol): Json {
    JsonObject(map["cmd" := JsonString("add"), "streams" := JsonArray(StreamsJson(pvs, schema, topic, protocol))])
  }

  function StopJson(pv: string): Json {
    JsonObject(map["cmd" := JsonString("stop_channel"), "channel" := JsonString(pv)])
  }

  /** remove_forwarder_configuration. */
  method RemoveConfiguration(pvs: seq<string>) returns (commands: seq<Json>)
    ensures |commands| == |pvs|
    ensures forall i :: 0 <= i < |pvs| ==>
        FindCommand(commands[i]) == StopChannelCommand && FindString("channel", commands[i]) == Some(pvs[i])
  {
    commands := [];
    for i := 0 to |pvs|
      invariant |commands| == i
      invariant forall k :: 0 <= k < i ==>
        FindCommand(commands[k]) == StopChannelCommand && FindString("channel", commands[k]) == Some(pvs[k])
    {
      commands := commands + [StopJson(pvs[i])];
    }
  }

  // Round trip

  /** The settings that the printed command stands for; i is the position from which names are generated. */
  function Settings(pv: string, schema: string, topic: string, protocol: EpicsProtocol, index: uint32): StreamSettings {
    StreamSettings(pv, ProtocolText(protocol), [ConverterSettings(schema, BROKER_PREFIX + topic, AutoName(index))])
  }

  function AllSettings(pvs: seq<string>, schema: string, topic: string, protocol: EpicsProtocol, first: uint32)
    : (ms: seq<StreamSettings>)
    ensures |ms| == |pvs|
    ensures forall i :: 0 <= i < |pvs| ==> ms[i] == Settings(pvs[i], schema, topic, protocol, Plus32(first, i))
  {
    seq(|pvs|, i requires 0 <= i < |pvs| => Settings(pvs[i], schema, topic, protocol, Plus32(first, i)))
  }

  lemma ReadPrintedStream(pv: string, schema: string, topic: string, protocol: EpicsProtocol, index: uint32)
    ensures ReadStream(StreamJson(pv, schema, topic, protocol), index)
         == Some((Settings(pv, schema, topic, protocol, index), Plus32(index, 1)))
  {
    var json, converter := StreamJson(pv, schema, topic, protocol), ConverterJson(schema, topic);
    assert FindString("channel", json) == Some(pv) && Protocol(json) == ProtocolText(protocol);
    assert ConverterItems(json) == [converter];
    assert FindString("schema", converter) == Some(schema) && FindString("topic", converter) ==
        Some(BROKER_PREFIX + topic);
    assert FindString("name", converter) == None;
    hide FindString, Protocol, ConverterItems, ConverterJson, AutoName, Plus32;
    assert ReadConverters([converter][1..], Plus32(index, 1)) == Some(([], Plus32(index, 1)));
    assert [ConverterSettings(schema, BROKER_PREFIX + topic, AutoName(index))] + [] == [ConverterSettings(schema,
        BROKER_PREFIX + topic, AutoName(index))];
  }

  lemma {:induction false} ReadPrintedStreams(pvs: seq<string>, schema: string, topic: string,
      protocol: EpicsProtocol, first: uint32)
    ensures ReadStreams(StreamsJson(pvs, schema, topic, protocol), first) == Some(AllSettings(pvs, schema, topic,
        protocol, first))
  {
    hide ReadStream, Settings, StreamJson;
    if pvs == [] {
      assert AllSettings(pvs, schema, topic, protocol, first) == [];
    } else {
      ReadPrintedStream(pvs[0], schema, topic, protocol, first);
      ReadPrintedStreams(pvs[1..], schema, topic, protocol, Plus32(first, 1));
      assert StreamsJson(pvs, schema, topic, protocol)[1..] == StreamsJson(pvs[1..], schema, topic, protocol);
      SettingsStep(pvs, schema, topic, protocol, first);
    }
  }

  lemma SettingsStep(pvs: seq<string>, schema: string, topic: string, protocol: EpicsProtocol, first: uint32)
    requires pvs != []
    ensures AllSettings(pvs, schema, topic, protocol, first)
         == [Settings(pvs[0], schema, topic, protocol, first)] + AllSettings(pvs[1..], schema, topic, protocol,
             Plus32(first, 1))
  {
    hide Settings;
    assert Plus32(first, 0) == first;
    forall i | 0 < i < |pvs|
      ensures Plus32(first, i) == Plus32(Plus32(first, 1), i - 1)
    {
      PlusOne(first, i);
    }
  }

  lemma PlusOne(first: uint32, i: int)
    requires i > 0
    ensures Plus32(Plus32(first, 1), i - 1) == Plus32(first, i)
  {
    Wraps32(first + 1, i - 1);
  }

  /** Reading back a printed add command gives its channels in order, with its protocol, schema and topic. */
  lemma CommandRoundTrip(pvs: seq<string>, schema: string, topic: string, protocol: EpicsProtocol)
    ensures var json := AddJson(pvs, schema, topic, protocol);
            FindCommand(json) == AddCommand && ReadSettings(json) == Some(AllSettings(pvs, schema, topic, protocol, 0))
  {
    var json := AddJson(pvs, schema, topic, protocol);
    assert FindString("cmd", json) == Some("add");
    assert StreamItems(json) == StreamsJson(pvs, schema, topic, protocol);
    ReadPrintedStreams(pvs, schema, topic, protocol, 0);
  }

  lemma AutoNames(i: nat, j: nat)
    ensures AutoName(i) == AutoName(j) <==> i == j
  {
    ValueOfDec(i);
    ValueOfDec(j);
    assert AutoName(i)[|"converter_"|..] == Dec(i) && AutoName(j)[|"converter_"|..] == Dec(j);
  }

  /** The first converter of a mapping. */
  function FirstOf(m: StreamSettings): ConverterSettings {
    if m.converters == [] then ConverterSettings("", "", "") else m.converters[0]
  }

  /** The generated names are pairwise distinct exactly if the counter does not come around. */
  lemma NamesDistinctExactly(pvs: seq<string>, schema: string, topic: string, protocol: EpicsProtocol)
    ensures var ms := AllSettings(pvs, schema, topic, protocol, 0);
            (forall i, j :: 0 <= i < j < |ms| ==> FirstOf(ms[i]).name != FirstOf(ms[j]).name) <==> |pvs| <= UINT32_LIMIT
  {
    var ms := AllSettings(pvs, schema, topic, protocol, 0);
    forall i, j | 0 <= i < j < |ms|
      ensures FirstOf(ms[i]).name == FirstOf(ms[j]).name <==> Plus32(0, i) == Plus32(0, j)
    {
      assert FirstOf(ms[i]).name == AutoName(Plus32(0, i)) && FirstOf(ms[j]).name == AutoName(Plus32(0, j));
      AutoNames(Plus32(0, i), Plus32(0, j));
    }
    hide FirstOf;
    if |pvs| > UINT32_LIMIT {
      assert Plus32(0, 0) == Plus32(0, UINT32_LIMIT);
    }
  }

  // The printed commands on a forwarder

  lemma LocalhostValue()
    ensures Value("9092") == 9092
  {
    assert "9092"[..3] == "909" && "909"[..2] == "90" && "90"[..1] == "9" && "9"[..0] == "";
    assert Value("9") == 9;
    assert Value("90") == 90;
    assert Value("909") == 909;
  }

  /** The characters at the start of a printed topic that become the topic; the rest has to be space. */
  function TopicOf(topic: string): (t: string) {
    topic[..Uri.Leading(topic, Uri.Topic)]
  }

  function EndOf(topic: string): (t: string) {
    topic[Uri.Leading(topic, Uri.Topic)..]
  }

  ghost predicate TopicOk(topic: string) {
    Uri.All(EndOf(topic), Uri.Space)
  }

  function Localhost(topic: string): (w: Uri.Written) {
    Uri.Written("localhost", Some("9092"), Some(TopicOf(topic)), EndOf(topic))
  }

  lemma LocalhostText(topic: string)
    requires TopicOk(topic)
    ensures Uri.WrittenOk(Localhost(topic)) && Uri.HostPortOf(Localhost(topic)) == "localhost:9092"
    ensures Uri.WrittenText(Localhost(topic)) == "localhost:9092/" + topic
  {
    var t, e := TopicOf(topic), EndOf(topic);
    assert Uri.All(t, Uri.Topic);
    assert t + e == topic;
    hide Uri.Leading, TopicOf, EndOf;
    assert "localhost" + (":" + "9092" + ("/" + t + e)) == "localhost:9092/" + (t + e);
  }

  lemma LocalhostExpected(u: Uri.UriValue, topic: string)
    requires TopicOk(topic)
    ensures var t := TopicOf(topic);
            Uri.Expected(u, Localhost(topic))
              == (Uri.UriValue("localhost:9092", 9092, if t != "" then t else u.topic), Uri.Parsed)
  {
    LocalhostValue();
    LocalhostText(topic);
    hide Value, Uri.HostPortOf, Uri.All, TopicOf, EndOf;
  }

  lemma LocalhostParts(topic: string)
    ensures Localhost(topic).host == "localhost"
  {
  }

  // The only way to cut a printed topic into parts

  /** Every character belongs to the topic or to the space at the end. */
  lemma TopicChars(p: Uri.TopicPart, t: string)
    requires Uri.TopicOk(p) && Uri.TopicText(p) == t
    ensures forall i :: 0 <= i < |t| ==> Uri.In(t[i], Uri.Topic) || Uri.In(t[i], Uri.Space)
    ensures TopicOk(t)
  {
    var topic := if p.topic.Some? then p.topic.value else "";
    assert t == topic + p.end;
    assert p.end != "" ==> Uri.In(p.end[0], Uri.Space);
    Uri.StartExactly(topic, Uri.Topic, p.end);
    assert forall i :: 0 <= i < |topic| ==> t[i] == topic[i];
    assert forall i :: |topic| <= i < |t| ==> t[i] == p.end[i - |topic|];
    hide Uri.Leading;
  }

  /** Without a slash at the start it is all topic and space. */
  lemma SlashChars(p: Uri.SlashPart, t: string)
    requires Uri.SlashOk(p) && Uri.SlashText(p) == t
    ensures t == "" || t[0] != '/' ==>
      forall i :: 0 <= i < |t| ==> Uri.In(t[i], Uri.Topic) || Uri.In(t[i], Uri.Space)
    ensures t != "" && t[0] == '/' ==> TopicOk(t[1..])
  {
    var rest := Uri.TopicText(p.rest);
    TopicChars(p.rest, rest);
    hide Uri.TopicText, Uri.TopicOk, TopicOk;
    if p.slash == "" {
      assert t == rest;
      assert t != "" && t[0] == '/' ==> !Uri.In(t[0], Uri.Topic) && !Uri.In(t[0], Uri.Space);
    } else {
      assert t == "/" + rest && t[1..] == rest;
    }
  }

  lemma NeitherTopicNorSpace()
    ensures forall c :: c == ':' || c == '/' ==> !Uri.In(c, Uri.Topic) && !Uri.In(c, Uri.Space)
    ensures !Uri.In('/', Uri.Digit) && !Uri.In(':', Uri.Host)
  {
  }

  /** A slash is only behind a slash. */
  lemma SlashFirst(p: Uri.SlashPart, t: string, k: int)
    requires Uri.SlashOk(p) && Uri.SlashText(p) == t && 0 <= k < |t| && t[k] == '/'
    ensures t[0] == '/'
  {
    hide *;
    SlashChars(p, t);
    NeitherTopicNorSpace();
  }

  lemma PortSplits(p: Uri.PortPart, t: string)
    requires Uri.TailOk(p) && Uri.TailText(p) == t
    ensures Uri.SlashOk(p.rest)
    ensures p.port.None? ==> Uri.SlashText(p.rest) == t
    ensures p.port.Some? ==>
      var n := |p.port.value|;
      && n + 1 <= |t| && Uri.SlashText(p.rest) == t[n + 1..] && forall i :: 0 < i <= n ==> Uri.In(t[i], Uri.Digit)
  {
    hide Uri.SlashText, Uri.SlashOk, Uri.In;
    if p.port.Some? {
      var digits, rest := p.port.value, Uri.SlashText(p.rest);
      assert t == ":" + digits + rest;
      assert forall i :: 0 < i <= |digits| ==> t[i] == digits[i - 1];
    }
  }

  lemma ColonIsPort(p: Uri.PortPart, t: string)
    requires Uri.TailOk(p) && Uri.TailText(p) == t && t != "" && t[0] == ':'
    ensures p.port.Some?
  {
    hide *;
    PortSplits(p, t);
    NeitherTopicNorSpace();
    if p.port.None? {
      SlashChars(p.rest, t);
    }
  }

  lemma Digits(topic: string)
    ensures var t := ":9092/" + topic;
            && t[0] == ':' && t[5] == '/' && t[5..] == "/" + topic && t[5..][1..] == topic
            && forall k :: 0 < k < 5 ==> t[k] != '/'
  {
  }

  /** After the host: the port is taken whole, and a topic follows its slash. */
  lemma PortChars(p: Uri.PortPart, topic: string)
    requires Uri.TailOk(p) && Uri.TailText(p) == ":9092/" + topic
    ensures TopicOk(topic)
  {
    hide *;
    var t := ":9092/" + topic;
    Digits(topic);
    NeitherTopicNorSpace();
    ColonIsPort(p, t);
    PortSplits(p, t);
    var n := |p.port.value|;
    assert n + 1 <= 5;
    assert t[n + 1..][4 - n] == t[5] && t[n + 1..][0] == t[n + 1];
    SlashFirst(p.rest, t[n + 1..], 4 - n);
    assert n == 4;
    SlashChars(p.rest, t[5..]);
  }

  /** A colon is only in what starts with it, or behind a slash. */
  lemma ColonAfter(p: Uri.PortPart, t: string, k: int)
    requires Uri.TailOk(p) && Uri.TailText(p) == t && 0 <= k < |t| && t[k] == ':'
    ensures t[0] == ':' || t[0] == '/'
  {
    hide *;
    NeitherTopicNorSpace();
    PortSplits(p, t);
    if p.port.None? {
      SlashChars(p.rest, t);
    } else {
      PortColon(p);
    }
  }

  lemma PortColon(p: Uri.PortPart)
    requires p.port.Some?
    ensures Uri.TailText(p) != "" && Uri.TailText(p)[0] == ':'
  {
  }

  lemma Letters(topic: string)
    ensures var t := "localhost:9092/" + topic;
            t[9] == ':' && t[9..] == ":9092/" + topic && forall k :: 0 <= k < 9 ==> t[k] != ':' && t[k] != '/'
  {
  }

  lemma HostSplits(p: Uri.HostPart, t: string)
    requires Uri.HostOk(p) && Uri.HostText(p) == t
    ensures |p.host| <= |t| && Uri.TailOk(p.rest) && Uri.TailText(p.rest) == t[|p.host|..]
    ensures forall i :: 0 <= i < |p.host| ==> Uri.In(t[i], Uri.Host)
  {
    hide Uri.TailText, Uri.TailOk, Uri.In;
    assert t == p.host + Uri.TailText(p.rest);
    assert forall i :: 0 <= i < |p.host| ==> t[i] == p.host[i];
  }

  lemma HostChars(p: Uri.HostPart, topic: string)
    requires Uri.HostOk(p) && Uri.HostText(p) == "localhost:9092/" + topic
    ensures TopicOk(topic)
  {
    hide *;
    var t, n := "localhost:9092/" + topic, |p.host|;
    Letters(topic);
    HostSplits(p, t);
    NeitherTopicNorSpace();
    assert n <= 9;
    assert t[n..][9 - n] == t[9] && t[n..][0] == t[n];
    ColonAfter(p.rest, t[n..], 9 - n);
    assert n == 9;
    PortChars(p.rest, topic);
  }

  /** A string of one kind in front is empty or shows in the first character. */
  lemma Starts(a: string, kind: Uri.CharClass, b: string)
    requires Uri.All(a, kind)
    ensures a == "" || Uri.In((a + b)[0], kind)
  {
    hide Uri.In;
  }

  lemma PrefixStarts(prefix: string, host: string)
    requires Uri.IsPrefix(prefix) && host != "" && Uri.In(host[0], Uri.Host)
    ensures prefix == "//" || Uri.In((prefix + host)[0], Uri.Host) || Uri.In((prefix + host)[0], Uri.Scheme)
  {
    hide Uri.In;
    if prefix == "" {
      assert prefix + host == host;
    }
  }

  /** Before the host: no space and the two slashes. */
  lemma PrefixChars(p: Uri.Parts, t: string)
    requires Uri.Cut(p, "//" + t)
    ensures Uri.HostOk(p.rest.rest) && Uri.HostText(p.rest.rest) == t
  {
    var s, prefix, host := "//" + t, p.rest.prefix, Uri.HostText(p.rest.rest);
    HostStarts(p.rest.rest);
    hide Uri.HostText;
    assert s == p.space + (prefix + host) && s[0] == '/';
    Starts(p.space, Uri.Space, prefix + host);
    assert p.space == "" && s == prefix + host;
    PrefixStarts(prefix, host);
    assert prefix == "//" && s[2..] == host && s[2..] == t;
  }

  lemma HostStarts(p: Uri.HostPart)
    requires Uri.HostOk(p)
    ensures Uri.HostText(p) != "" && Uri.In(Uri.HostText(p)[0], Uri.Host)
  {
  }

  /**
    The printed topic is parsed back to the broker on localhost and the characters of a topic that it
    starts with, exactly if only space comes after them.
   */
  lemma PrintedTopic(u: Uri.UriValue, topic: string)
    ensures Uri.ParseInto(u, BROKER_PREFIX + topic) ==
            if TopicOk(topic) then
              var t := TopicOf(topic);
              (Uri.UriValue("localhost:9092", 9092, if t != "" then t else u.topic), Uri.Parsed)
            else (u, Uri.NoHost)
  {
    var t := "localhost:9092/" + topic;
    assert Uri.All("", Uri.Space) && Uri.IsPrefix("//") && Uri.Kept("//", "localhost");
    assert "" + "//" + t == BROKER_PREFIX + topic == "//" + t && t[0] == 'l';
    hide *;
    if TopicOk(topic) {
      LocalhostText(topic);
      LocalhostExpected(u, topic);
      LocalhostParts(topic);
      Uri.WrittenRoundTrip(u, "", "//", Localhost(topic));
    } else {
      forall p ensures !Uri.Cut(p, "//" + t) {
        if Uri.Cut(p, "//" + t) {
          PrefixChars(p, t);
          HostChars(p.rest.rest, topic);
        }
      }
      Uri.ParseFailsExactly(u, "//" + t);
      NoHostNothing(u, "//" + t);
    }
  }

  lemma NoHostNothing(u: Uri.UriValue, s: string)
    requires Uri.ParseInto(u, s).1 == Uri.NoHost
    ensures Uri.ParseInto(u, s).0 == u
  {
  }

  // What a printed add command does

  /** Nothing about a printed mapping can fail. */
  ghost predicate PrintedOk(cfg: Config, schema: string, topic: string) {
    schema in cfg.schemas && TopicOk(topic) && TopicOf(topic) !in cfg.refused
  }

  lemma PrintedIsGood(cfg: Config, pv: string, schema: string, topic: string, protocol: EpicsProtocol, index: uint32)
    ensures GoodMapping(cfg, Settings(pv, schema, topic, protocol, index)) <==> PrintedOk(cfg, schema, topic)
  {
    PrintedTopic(Uri.UriValue("", 0, ""), topic);
    PrintedTopic(Uri.UriValue(cfg.broker.hostPort, cfg.broker.port, ""), topic);
    hide Uri.ParseInto, AutoName, TopicOk, TopicOf;
    var m := Settings(pv, schema, topic, protocol, index);
    assert m.converters[0] == ConverterSettings(schema, BROKER_PREFIX + topic, AutoName(index));
  }

  ghost predicate AllIn(pvs: seq<string>, clients: set<string>) {
    forall i :: 0 <= i < |pvs| ==> pvs[i] in clients
  }

  lemma PrintedNames(cfg: Config, pvs: seq<string>, schema: string, topic: string, protocol: EpicsProtocol,
      clients: set<string>)
    ensures var ms := AllSettings(pvs, schema, topic, protocol, 0);
            && NamesOf(ms) == pvs
            && (AllGood(cfg, ms, clients) <==> AllIn(pvs, clients) && (pvs == [] || PrintedOk(cfg, schema, topic)))
  {
    var ms := AllSettings(pvs, schema, topic, protocol, 0);
    forall i | 0 <= i < |ms|
      ensures ms[i].name == pvs[i] && (GoodMapping(cfg, ms[i]) <==> PrintedOk(cfg, schema, topic))
    {
      PrintedIsGood(cfg, pvs[i], schema, topic, protocol, Plus32(0, i));
    }
    hide GoodMapping, Settings, PrintedOk;
    if pvs != [] {
      assert GoodMapping(cfg, ms[0]) <==> PrintedOk(cfg, schema, topic);
    }
  }

  /**
    A printed add command, for any schema and topic: it succeeds exactly if its channels are pairwise
    distinct, not yet registered and can be reached and, unless it has no channels, the schema is known,
    the topic is one and Kafka does not refuse it. Then the printed stop commands bring the registry back
    to what it was.
   */
  lemma PrintedCommands(cfg: Config, s: State, pvs: seq<string>, schema: string, topic: string, protocol: EpicsProtocol,
                        clients: set<string>)
    requires Inv(s) && WeakOk(s)
    ensures var r := AddAll(cfg, s, AllSettings(pvs, schema, topic, protocol, 0), clients);
            && (r.1 == Added <==>
                  && AllNew(StreamRegistry.Channels(s.registry), pvs) && AllIn(pvs, clients)
                  && (pvs == [] || PrintedOk(cfg, schema, topic)))
            && (r.1 == Added ==> StreamRegistry.Channels(r.0.registry) == StreamRegistry.Channels(s.registry) + pvs)
            && (r.1 == Added ==> StopEach(r.0, pvs).registry == s.registry)
  {
    hide *;
    var ms := AllSettings(pvs, schema, topic, protocol, 0);
    PrintedNames(cfg, pvs, schema, topic, protocol, clients);
    AddAllSucceeds(cfg, s, ms, clients);
    if AddAll(cfg, s, ms, clients).1 == Added {
      AddThenStop(cfg, s, ms, clients);
      AddAllRegisters(cfg, s, ms, clients);
      AddAllStops(cfg, s, ms, clients);
      assert ms[..|ms|] == ms;
    }
  }

  // The paths of its streams

  /** The only path of a stream that a printed command makes, if `env` has the names of live converters. */
  function OnlyPath(cfg: Config, env: map<string, string>, schema: string, topic: string, index: uint32): Made {
    var c := ConverterSettings(schema, BROKER_PREFIX + topic, AutoName(index));
    Made(TopicFor(cfg, c), SchemaIn(env, c), AutoName(index))
  }

  lemma NotEmpty(index: nat)
    ensures AutoName(index) != ""
  {
  }

  lemma OneStream(cfg: Config, env: map<string, string>, pv: string, schema: string, topic: string,
      protocol: EpicsProtocol, index: uint32)
    ensures var m, made := Settings(pv, schema, topic, protocol, index), OnlyPath(cfg, env, schema, topic, index);
            StreamPaths(cfg, env, [], m.converters) == (env[AutoName(index) := made.schema], [made])
  {
    var c := ConverterSettings(schema, BROKER_PREFIX + topic, AutoName(index));
    assert Settings(pv, schema, topic, protocol, index).converters == [c];
    assert OnlyPath(cfg, env, schema, topic, index) == Made(TopicFor(cfg, c), SchemaIn(env, c), AutoName(index));
    hide *;
    NotEmpty(index);
    OneConverter(cfg, env, c);
  }

  lemma OneConverter(cfg: Config, env: map<string, string>, c: ConverterSettings)
    requires c.name != ""
    ensures var schema := SchemaIn(env, c);
            StreamPaths(cfg, env, [], [c]) == (env[c.name := schema], [Made(TopicFor(cfg, c), schema, c.name)])
  {
    hide TopicFor, SchemaIn;
    var later, made := env[c.name := SchemaIn(env, c)], Made(TopicFor(cfg, c), SchemaIn(env, c), c.name);
    assert OneMore(cfg, env, [], c).0 == later && OneMore(cfg, env, [], c).1 == [made] by {
      assert [] + [made] == [made];
    }
    hide OneMore;
    assert [c][1..] == [] && StreamPaths(cfg, later, [made], []) == (later, [made]);
  }

  lemma SameOnlyPath(cfg: Config, env: map<string, string>, schema: string, topic: string, index: uint32, i: uint32)
    ensures var later := env[AutoName(index) := OnlyPath(cfg, env, schema, topic, index).schema];
            OnlyPath(cfg, later, schema, topic, i) == OnlyPath(cfg, env, schema, topic, i)
  {
    hide AutoName, TopicFor;
  }

  lemma {:induction false} PrintedReference(cfg: Config, env: map<string, string>, pvs: seq<string>, schema: string,
      topic: string, protocol: EpicsProtocol, first: uint32, i: int)
    requires 0 <= i < |pvs|
    ensures CommandPaths(cfg, env, AllSettings(pvs, schema, topic, protocol, first)).1[i]
         == [OnlyPath(cfg, env, schema, topic, Plus32(first, i))]
    decreases |pvs|
  {
    var ms := AllSettings(pvs, schema, topic, protocol, first);
    hide Settings, StreamPaths, OnlyPath, AutoName;
    SettingsStep(pvs, schema, topic, protocol, first);
    OneStream(cfg, env, pvs[0], schema, topic, protocol, first);
    var made := OnlyPath(cfg, env, schema, topic, first);
    if i > 0 {
      assert ms[1..] == AllSettings(pvs[1..], schema, topic, protocol, Plus32(first, 1));
      PlusOne(first, i);
      PrintedReference(cfg, env[AutoName(first) := made.schema], pvs[1..], schema, topic, protocol, Plus32(first, 1),
                       i - 1);
      SameOnlyPath(cfg, env, schema, topic, first, Plus32(first, i));
    }
  }

  /** Some live converter of another schema was made under this name. */
  predicate Foreign(s: State, name: string, schema: string)
    requires WeakOk(s)
  {
    LiveSchema(s, name).Some? && LiveSchema(s, name).value != schema
  }

  /**
    The streams that a successful printed add command makes: one path each, with the topic and a
    generated name. All names start again from converter_0 in every command, so the path's schema is the
    one asked for if and only if no live converter of another schema has its name.
   */
  lemma PrintedPaths(cfg: Config, s: State, pvs: seq<string>, schema: string, topic: string, protocol: EpicsProtocol,
                     clients: set<string>, i: int)
    requires Inv(s) && WeakOk(s) && 0 <= i < |pvs|
    requires AddAll(cfg, s, AllSettings(pvs, schema, topic, protocol, 0), clients).1 == Added
    ensures var t, id, k := AddAll(cfg, s, AllSettings(pvs, schema, topic, protocol, 0), clients).0, |s.paths| + i,
                |s.registry| + i;
            var name := AutoName(Plus32(0, i));
            && k < |t.registry| && t.registry[k] == StreamRegistry.Entry(pvs[i], id)
            && id < |t.paths| == |s.paths| + |pvs| && |t.paths[id]| == 1
            && t.paths[id][0].topic == TopicOf(topic) && t.paths[id][0].name == name
            && t.paths[id][0].schema == (if LiveSchema(s, name).Some? then LiveSchema(s, name).value else schema)
            && (t.paths[id][0].schema == schema <==> !Foreign(s, name, schema))
  {
    hide *;
    var ms := AllSettings(pvs, schema, topic, protocol, 0);
    var t, env := AddAll(cfg, s, ms, clients).0, LiveNames(s);
    LiveNamesKnow(s);
    AddAllPaths(cfg, s, ms, clients, env);
    PrintedReference(cfg, env, pvs, schema, topic, protocol, 0, i);
    PrintedCommands(cfg, s, pvs, schema, topic, protocol, clients);
    OnlyPathIs(cfg, s, env, schema, topic, Plus32(0, i));
    PathAt(s.paths, t.paths, CommandPaths(cfg, env, ms).1, i, OnlyPath(cfg, env, schema, topic, Plus32(0, i)));
    ForeignIs(s, AutoName(Plus32(0, i)), schema);
    assert ms[i].name == pvs[i] by {
      SettingsAt(pvs, schema, topic, protocol, i);
    }
  }

  lemma SettingsAt(pvs: seq<string>, schema: string, topic: string, protocol: EpicsProtocol, i: int)
    requires 0 <= i < |pvs|
    ensures AllSettings(pvs, schema, topic, protocol, 0)[i].name == pvs[i]
  {
  }

  lemma PathAt(before: seq<seq<Path>>, paths: seq<seq<Path>>, r: seq<seq<Made>>, i: int, made: Made)
    requires |before| <= |paths| && ShownFrom(paths, |before|) == r && 0 <= i < |r| && r[i] == [made]
    ensures |before| + i < |paths| == |before| + |r| && |paths[|before| + i]| == 1
    ensures var path := paths[|before| + i][0];
            path.topic == made.topic && path.name == made.name && path.schema == made.schema
  {
    assert ShownFrom(paths, |before|)[i] == Shown(paths[|before| + i]);
    assert Shown(paths[|before| + i])[0] == made;
  }

  lemma OnlyPathIs(cfg: Config, s: State, env: map<string, string>, schema: string, topic: string, index: uint32)
    requires WeakOk(s) && Knows(s, env) && PrintedOk(cfg, schema, topic)
    ensures var made, known := OnlyPath(cfg, env, schema, topic, index), LiveSchema(s, AutoName(index));
            && made.topic == TopicOf(topic) && made.name == AutoName(index)
            && made.schema == if known.Some? then known.value else schema
  {
    PrintedTopic(Uri.UriValue(cfg.broker.hostPort, cfg.broker.port, ""), topic);
    hide AutoName, LiveSchema, Uri.ParseInto, TopicOf, WeakOk;
    assert LiveSchema(s, AutoName(index)) == if AutoName(index) in env then Some(env[AutoName(index)]) else None;
  }

  lemma ForeignIs(s: State, name: string, schema: string)
    requires WeakOk(s)
    ensures Foreign(s, name, schema) <==>
      (if LiveSchema(s, name).Some? then LiveSchema(s, name).value else schema) != schema
  {
    hide LiveSchema;
  }

  /**
    Two printed add commands, one after the other: as far as both have channels, the streams of the second
    one get the schemas of the first one's, whatever schema the second command asks for.
   */
  lemma SchemasAreReused(cfg: Config, s: State, pvs: seq<string>, pvs': seq<string>, schema: string, schema': string,
                         topic: string, topic': string, protocol: EpicsProtocol, clients: set<string>, i: int)
    requires Inv(s) && WeakOk(s) && 0 <= i < |pvs| && i < |pvs'|
    requires var r := AddAll(cfg, s, AllSettings(pvs, schema, topic, protocol, 0), clients);
             && r.1 == Added
             && AddAll(cfg, r.0, AllSettings(pvs', schema', topic', protocol, 0), clients).1 == Added
    ensures var t := AddAll(cfg, s, AllSettings(pvs, schema, topic, protocol, 0), clients).0;
            var u := AddAll(cfg, t, AllSettings(pvs', schema', topic', protocol, 0), clients).0;
            && |t.paths| == |s.paths| + |pvs| && |t.paths[|s.paths| + i]| == 1
            && |u.paths| == |t.paths| + |pvs'| && |u.paths[|t.paths| + i]| == 1
            && u.paths[|t.paths| + i][0].schema == t.paths[|s.paths| + i][0].schema
  {
    hide *;
    var t := AddAll(cfg, s, AllSettings(pvs, schema, topic, protocol, 0), clients).0;
    PrintedPaths(cfg, s, pvs, schema, topic, protocol, clients, i);
    AddAllKeeps(cfg, s, AllSettings(pvs, schema, topic, protocol, 0), clients);
    NextCommand(cfg, t, |s.registry| + i, |s.paths| + i, pvs', schema', topic', protocol, clients, i);
  }

  /** A stream whose only path has the generated name i settles the schema of channel i of any later command. */
  lemma NextCommand(cfg: Config, t: State, k: int, id: int, pvs: seq<string>, schema: string, topic: string,
                    protocol: EpicsProtocol, clients: set<string>, i: int)
    requires Inv(t) && WeakOk(t) && 0 <= k < |t.registry| && t.registry[k].id == id
    requires 0 <= i < |pvs|
    requires 0 <= id < |t.paths| && |t.paths[id]| == 1 && t.paths[id][0].name == AutoName(Plus32(0, i))
    requires AddAll(cfg, t, AllSettings(pvs, schema, topic, protocol, 0), clients).1 == Added
    ensures var u := AddAll(cfg, t, AllSettings(pvs, schema, topic, protocol, 0), clients).0;
            && |u.paths| == |t.paths| + |pvs| && |u.paths[|t.paths| + i]| == 1
            && u.paths[|t.paths| + i][0].schema == t.paths[id][0].schema
  {
    assert LiveStream(t, id);
    hide *;
    NotEmpty(Plus32(0, i));
    LivePathSettles(t, id, 0);
    PrintedPaths(cfg, t, pvs, schema, topic, protocol, clients, i);
  }

  /** The first command on a new forwarder. */
  lemma FirstCommand(cfg: Config, a: string, schema: string, topic: string, protocol: EpicsProtocol,
      clients: set<string>) returns (t: State)
    requires a in clients && PrintedOk(cfg, schema, topic)
    ensures WeakOk(INIT) && (t, Added) == AddAll(cfg, INIT, AllSettings([a], schema, topic, protocol, 0), clients)
    ensures Inv(t) && WeakOk(t) && StreamRegistry.Channels(t.registry) == [a] && |t.paths| == 1 && |t.paths[0]| == 1
    ensures |t.registry| == 1 && t.registry[0].id == 0
    ensures t.paths[0][0].schema == schema && t.paths[0][0].name == AutoName(Plus32(0, 0))
  {
    hide *;
    InitOk();
    NoneLive(AutoName(Plus32(0, 0)));
    AllNewOne([], a, clients);
    assert [] + [a] == [a];
    var ms := AllSettings([a], schema, topic, protocol, 0);
    t := AddAll(cfg, INIT, ms, clients).0;
    PrintedCommands(cfg, INIT, [a], schema, topic, protocol, clients);
    PrintedPaths(cfg, INIT, [a], schema, topic, protocol, clients, 0);
    AddAllKeeps(cfg, INIT, ms, clients);
    ChannelsLength(t.registry);
  }

  lemma ChannelsLength(entries: seq<StreamRegistry.Entry>)
    ensures |StreamRegistry.Channels(entries)| == |entries|
  {
  }

  lemma NoneLive(name: string)
    ensures WeakOk(INIT) && LiveSchema(INIT, name) == None
    ensures StreamRegistry.Channels(INIT.registry) == [] && INIT.paths == [] && INIT.registry == []
  {
  }

  lemma AllNewOne(before: seq<string>, channel: string, clients: set<string>)
    requires channel !in before && channel in clients
    ensures AllNew(before, [channel]) && AllIn([channel], clients)
  {
  }

  /** On a new forwarder both of two commands succeed, and the second channel has the schema of the first. */
  lemma TwoCommands(cfg: Config, a: string, b: string, schema: string, schema': string, topic: string,
                    protocol: EpicsProtocol, clients: set<string>)
    requires a != b && a in clients && b in clients
    requires PrintedOk(cfg, schema, topic) && PrintedOk(cfg, schema', topic)
    ensures var first := AddAll(cfg, INIT, AllSettings([a], schema, topic, protocol, 0), clients);
            var second := AddAll(cfg, first.0, AllSettings([b], schema', topic, protocol, 0), clients);
            && first.1 == second.1 == Added
            && |second.0.paths| == 2 && |second.0.paths[1]| == 1 && second.0.paths[1][0].schema == schema
  {
    hide *;
    var t := FirstCommand(cfg, a, schema, topic, protocol, clients);
    AllNewOne([a], b, clients);
    PrintedCommands(cfg, t, [b], schema', topic, protocol, clients);
    NextCommand(cfg, t, 0, 0, [b], schema', topic, protocol, clients, 0);
  }

  /** For instance, a channel that is to be TdcTime becomes f142. */
  lemma SecondSchemaIsIgnored(cfg: Config, topic: string, protocol: EpicsProtocol)
    requires PrintedOk(cfg, "f142", topic) && PrintedOk(cfg, "TdcTime", topic)
    ensures var first := AddAll(cfg, INIT, AllSettings(["a"], "f142", topic, protocol, 0), {"a", "b"});
            var second := AddAll(cfg, first.0, AllSettings(["b"], "TdcTime", topic, protocol, 0), {"a", "b"});
            && first.1 == second.1 == Added
            && |second.0.paths| == 2 && |second.0.paths[1]| == 1 && second.0.paths[1][0].schema == "f142"
  {
    hide *;
    TwoCommands(cfg, "a", "b", "f142", "TdcTime", topic, protocol, {"a", "b"});
  }

  // The handler

  /** The document is an object that has this text under this key. */
  predicate Says(document: Json, key: string, text: string) {
    document.JsonObject? && key in document.fields && document.fields[key] == JsonString(text)
  }

  /** Which command a document is, by its text. */
  lemma CommandExactly(document: Json)
    ensures FindCommand(document) == AddCommand <==> Says(document, "cmd", "add")
    ensures FindCommand(document) == StopChannelCommand <==> Says(document, "cmd", "stop_channel")
    ensures FindCommand(document) == StopAllCommand <==> Says(document, "cmd", "stop_all")
    ensures FindCommand(document) == ExitCommand <==> Says(document, "cmd", "exit")
  {
    StringExactly("cmd", document, "add");
    StringExactly("cmd", document, "stop_channel");
    StringExactly("cmd", document, "stop_all");
    StringExactly("cmd", document, "exit");
    hide FindString, Says;
  }

  lemma StringExactly(key: string, document: Json, text: string)
    ensures FindString(key, document) == Some(text) <==> Says(document, key, text)
  {
  }

  lemma SomeCommand(document: Json)
    ensures FindCommand(document) != UnknownCommand ==>
      exists text :: Says(document, "cmd", text) && text in {"add", "stop_channel", "stop_all", "exit"}
  {
    if FindCommand(document) != UnknownCommand {
      assert Says(document, "cmd", document.fields["cmd"].text);
    }
  }

  /** Without the channels of all entries, no entry remains. */
  lemma NothingRemains(entries: seq<StreamRegistry.Entry>)
    ensures StreamRegistry.Remaining(entries, set e | e in entries :: e.channel) == []
  {
    AllGone(entries, set e | e in entries :: e.channel);
  }

  datatype Outcome = Done(result: AddResult) | Malformed | UnknownType

  class ConfigCallback {
    const main: Forwarder

    constructor (main: Forwarder)
      ensures this.main == main
    {
      this.main := main;
    }

    method HandleCommandAdd(document: Json, clients: set<string>) returns (r: Outcome)
      requires WeakOk(main.State())
      modifies main, main.streams
      ensures match ReadSettings(document)
              case None => r == Malformed && main.State() == old(main.State())
              case Some(ms) => (main.State(), r) == (AddAll(main.config, old(main.State()), ms, clients).0,
                                                     Done(AddAll(main.config, old(main.State()), ms, clients).1))
    {
      hide ReadSettings, AddAll, WeakOk;
      var parser := new ConfigParser(document);
      var settings := parser.ExtractStreamInfo();
      if settings.None? {
        return Malformed;
      }
      var added := main.AddMappings(settings.value, clients);
      return Done(added);
    }

    method HandleCommandStopChannel(document: Json)
      modifies main, main.streams
      ensures forall channel :: Says(document, "channel", channel) ==>
        main.State() == DoRemove(old(main.State()), {channel})
      ensures (forall channel :: !Says(document, "channel", channel)) ==> main.State() == old(main.State())
    {
      var channel := FindString("channel", document);
      if channel.Some? {
        assert Says(document, "channel", channel.value);
        main.StopChannel(channel.value);
      }
    }

    /** What each command does, by its text; `others` is what other threads do to the flag; STOP is 1. */
    method HandleCommand(msg: Json, clients: set<string>, others: seq<StopFlag.Interference>) returns (r: Outcome)
      requires WeakOk(main.State())
      modifies main, main.streams, main.runFlag
      ensures Says(msg, "cmd", "add") ==>
        match ReadSettings(msg)
        case None => r == Malformed && main.State() == old(main.State())
        case Some(ms) => (main.State(), r) == (AddAll(main.config, old(main.State()), ms, clients).0,
                                               Done(AddAll(main.config, old(main.State()), ms, clients).1))
      ensures Says(msg, "cmd", "stop_channel") ==>
        && r == Done(Added)
        && (forall channel :: Says(msg, "channel", channel) ==> main.State() == DoRemove(old(main.State()), {channel}))
        && ((forall channel :: !Says(msg, "channel", channel)) ==> main.State() == old(main.State()))
      ensures Says(msg, "cmd", "stop_all") ==>
        && r == Done(Added) && main.streams.streamPointers == []
        && main.paths == old(main.paths) && main.converters == old(main.converters)
        && main.instances == old(main.instances)
      ensures Says(msg, "cmd", "exit") ==>
        && r == Done(Added) && main.State() == old(main.State())
        && exists turns :: 0 <= turns <= |others| && main.runFlag.value ==
             old(main.runFlag.value) | StopFlag.Others(others[..turns]) | 1
      ensures !Says(msg, "cmd", "exit") ==> main.runFlag.value == old(main.runFlag.value)
      ensures (forall text :: Says(msg, "cmd", text) ==> text !in {"add", "stop_channel", "stop_all", "exit"}) ==>
        r == UnknownType && main.State() == old(main.State())
    {
      CommandExactly(msg);
      SomeCommand(msg);
      NothingRemains(main.streams.streamPointers);
      hide ReadSettings, AddAll, WeakOk, FindString, Says, StreamRegistry.Remaining;
      var command := FindCommand(msg);
      hide FindCommand;
      match command {
        case AddCommand =>
          r := HandleCommandAdd(msg, clients);
        case StopChannelCommand =>
          HandleCommandStopChannel(msg);
          r := Done(Added);
        case StopAllCommand =>
          main.StopAll();
          r := Done(Added);
        case ExitCommand =>
          var failures;
          ghost var turns;
          failures, turns := main.runFlag.Raise(StopFlag.STOP, others);
          r := Done(Added);
        case UnknownCommand =>
          r := UnknownType;
      }
    }
  }
}
