/**
  What the documents of add commands mean, from the list of streams that they show: in
  documentation/commands.md a converter may have a name or not, and be alone or in an array.
 */
module CommandDocuments {
  import opened Basics
  import opened Commands
  import opened Decimal
  import opened Mappings

  datatype ConverterEntry = ConverterEntry(schema: string, topic: string, name: Option<string>)

  datatype StreamEntry = StreamEntry(channel: string, protocol: Option<string>, converters: seq<ConverterEntry>)

  // What a document shows, whatever else is in it

  /** The text under this key, if there is one. */
  ghost predicate SaysIf(json: Json, key: string, text: Option<string>) {
    if text.Some? then Says(json, key, text.value) else forall other :: !Says(json, key, other)
  }

  ghost predicate ShowsConverter(json: Json, e: ConverterEntry) {
    Says(json, "schema", e.schema) && Says(json, "topic", e.topic) && SaysIf(json, "name", e.name)
  }

  /** No converter, a converter object, or an array of them. */
  ghost predicate ShowsConverters(json: Json, es: seq<ConverterEntry>)
    requires json.JsonObject?
  {
    if "converter" !in json.fields then es == [] else
    match json.fields["converter"]
    case JsonObject(_) => |es| == 1 && ShowsConverter(json.fields["converter"], es[0])
    case JsonArray(items) => |es| == |items| && forall k :: 0 <= k < |es| ==> ShowsConverter(items[k], es[k])
    case _ => es == []
  }

  ghost predicate ShowsStream(json: Json, e: StreamEntry) {
    && Says(json, "channel", e.channel) && SaysIf(json, "channel_provider_type", e.protocol)
    && ShowsConverters(json, e.converters)
  }

  ghost predicate ShowsDocument(json: Json, es: seq<StreamEntry>) {
    && json.JsonObject? && "streams" in json.fields && json.fields["streams"].JsonArray?
    && var items := json.fields["streams"].items;
       |es| == |items| && forall i :: 0 <= i < |es| ==> ShowsStream(items[i], es[i])
  }

  // What it is read as

  /** How many of the converters have no name. */
  function Unnamed(es: seq<ConverterEntry>): (n: nat) {
    if es == [] then 0 else Unnamed(es[..|es| - 1]) + if es[|es| - 1].name.None? then 1 else 0
  }

  function AllUnnamed(es: seq<StreamEntry>): (n: nat) {
    if es == [] then 0 else AllUnnamed(es[..|es| - 1]) + Unnamed(es[|es| - 1].converters)
  }

  /** The converter with its own name, or the generated one with this number. */
  ghost predicate ReadsAs(c: ConverterSettings, e: ConverterEntry, number: int) {
    && c.schema == e.schema && c.topic == e.topic
    && c.name == match e.name
                 case Some(name) => name
                 case None => "converter_" + Dec(number % UINT32_LIMIT)
  }

  ghost predicate ReadsAll(cs: seq<ConverterSettings>, es: seq<ConverterEntry>, first: int) {
    && |cs| == |es|
    && forall k :: 0 <= k < |es| ==> ReadsAs(cs[k], es[k], first + Unnamed(es[..k]))
  }

  ghost predicate ReadsStream(m: StreamSettings, e: StreamEntry, first: int) {
    && m.name == e.channel && m.protocol == (if e.protocol == Some("ca") then "ca" else "pva")
    && ReadsAll(m.converters, e.converters, first)
  }

  ghost predicate ReadsDocument(ms: seq<StreamSettings>, es: seq<StreamEntry>, first: int) {
    && |ms| == |es|
    && forall i :: 0 <= i < |es| ==> ReadsStream(ms[i], es[i], first + AllUnnamed(es[..i]))
  }

  // Counting from the front

  lemma {:induction false} UnnamedFront(e: ConverterEntry, es: seq<ConverterEntry>)
    ensures Unnamed([e] + es) == (if e.name.None? then 1 else 0) + Unnamed(es)
  {
    var all := [e] + es;
    if es == [] {
      assert all == [e] && all[..0] == [];
    } else {
      UnnamedFront(e, es[..|es| - 1]);
      assert all[..|all| - 1] == [e] + es[..|es| - 1];
    }
  }

  lemma {:induction false} AllUnnamedFront(e: StreamEntry, es: seq<StreamEntry>)
    ensures AllUnnamed([e] + es) == Unnamed(e.converters) + AllUnnamed(es)
  {
    hide Unnamed;
    var all := [e] + es;
    if es == [] {
      assert all == [e] && all[..0] == [];
    } else {
      AllUnnamedFront(e, es[..|es| - 1]);
      assert all[..|all| - 1] == [e] + es[..|es| - 1];
    }
  }

  // Reading back

  lemma SaysFinds(json: Json, key: string, text: Option<string>)
    requires SaysIf(json, key, text)
    ensures FindString(key, json) == text
  {
    if text.None? && FindString(key, json).Some? {
      assert Says(json, key, FindString(key, json).value);
    }
  }

  lemma ConverterReads(json: Json, e: ConverterEntry, index: uint32)
    requires ShowsConverter(json, e)
    ensures var r := ReadConverter(json, index);
            && r.Some? && ReadsAs(r.value.0, e, index)
            && r.value.1 == (index + Unnamed([e])) % UINT32_LIMIT
  {
    SaysFinds(json, "schema", Some(e.schema));
    SaysFinds(json, "topic", Some(e.topic));
    SaysFinds(json, "name", e.name);
    UnnamedOne(e);
    hide FindString, Says, SaysIf, Dec, Unnamed;
  }

  lemma UnnamedOne(e: ConverterEntry)
    ensures Unnamed([e]) == if e.name.None? then 1 else 0
  {
    assert [e][..0] == [];
  }

  lemma Later(first: int, index: int, n: int)
    requires index == first % UINT32_LIMIT
    ensures (index + n) % UINT32_LIMIT == (first + n) % UINT32_LIMIT
  {
    Wraps32(first, n);
  }

  /** A number may be replaced by one that differs by wrap-arounds. */
  lemma SameNumber(c: ConverterSettings, e: ConverterEntry, a: int, b: int)
    requires ReadsAs(c, e, a) && a % UINT32_LIMIT == b % UINT32_LIMIT
    ensures ReadsAs(c, e, b)
  {
    hide Dec;
  }

  lemma {:induction false} ConvertersRead(items: seq<Json>, es: seq<ConverterEntry>, index: uint32, first: int)
    requires |items| == |es| && index == first % UINT32_LIMIT
    requires forall k :: 0 <= k < |es| ==> ShowsConverter(items[k], es[k])
    ensures var r := ReadConverters(items, index);
            && r.Some? && ReadsAll(r.value.0, es, first) && r.value.1 == (first + Unnamed(es)) % UINT32_LIMIT
  {
    hide *;
    if es == [] {
      NothingRead(index, first);
    } else {
      ShownRest(items, es);
      ConverterReads(items[0], es[0], index);
      var one := ReadConverter(items[0], index).value;
      var next := first + Unnamed([es[0]]);
      LaterRange(first, index, Unnamed([es[0]]), one.1);
      ConvertersRead(items[1..], es[1..], one.1, next);
      var rest := ReadConverters(items[1..], one.1).value;
      SameNumber(one.0, es[0], index, first);
      PutFirst(one.0, rest.0, es, first);
      UnnamedTwo(es);
      ReadFirst(items, index, one, rest);
    }
  }

  lemma ShownRest(items: seq<Json>, es: seq<ConverterEntry>)
    requires |items| == |es| && es != [] && forall k :: 0 <= k < |es| ==> ShowsConverter(items[k], es[k])
    ensures ShowsConverter(items[0], es[0])
    ensures forall k :: 0 <= k < |es| - 1 ==> ShowsConverter(items[1..][k], es[1..][k])
  {
    hide ShowsConverter;
  }

  lemma NothingRead(index: uint32, first: int)
    requires index == first % UINT32_LIMIT
    ensures ReadConverters([], index) == Some(([], index)) && ReadsAll([], [], first) && Unnamed([]) == 0
  {
  }

  lemma LaterRange(first: int, index: uint32, n: int, next: uint32)
    requires index == first % UINT32_LIMIT && next == (index + n) % UINT32_LIMIT
    ensures next == (first + n) % UINT32_LIMIT && index % UINT32_LIMIT == first % UINT32_LIMIT
  {
    Later(first, index, n);
  }

  lemma UnnamedTwo(es: seq<ConverterEntry>)
    requires es != []
    ensures Unnamed(es) == Unnamed([es[0]]) + Unnamed(es[1..])
  {
    UnnamedFront(es[0], es[1..]);
    UnnamedFront(es[0], []);
    assert [es[0]] + es[1..] == es && [es[0]] + [] == [es[0]];
  }

  lemma ReadFirst(items: seq<Json>, index: uint32, one: (ConverterSettings, uint32),
      rest: (seq<ConverterSettings>, uint32))
    requires items != [] && ReadConverter(items[0], index) == Some(one)
    requires ReadConverters(items[1..], one.1) == Some(rest)
    ensures ReadConverters(items, index) == Some(([one.0] + rest.0, rest.1))
  {
    hide ReadConverter;
  }

  lemma PutFirst(c: ConverterSettings, cs: seq<ConverterSettings>, es: seq<ConverterEntry>, first: int)
    requires es != [] && ReadsAs(c, es[0], first) && ReadsAll(cs, es[1..], first + Unnamed([es[0]]))
    ensures ReadsAll([c] + cs, es, first)
  {
    hide ReadsAs, Unnamed;
    forall k | 0 <= k < |es| ensures ReadsAs(([c] + cs)[k], es[k], first + Unnamed(es[..k])) {
      CountFrom(es, k);
      if k > 0 {
        assert ([c] + cs)[k] == cs[k - 1] && es[1..][k - 1] == es[k];
      }
    }
  }

  lemma CountFrom(es: seq<ConverterEntry>, k: int)
    requires 0 <= k < |es|
    ensures Unnamed(es[..k]) == if k == 0 then 0 else Unnamed([es[0]]) + Unnamed(es[1..][..k - 1])
  {
    if k > 0 {
      assert es[..k] == [es[0]] + es[1..][..k - 1] && [es[0]] + [] == [es[0]];
      UnnamedFront(es[0], es[1..][..k - 1]);
      UnnamedFront(es[0], []);
    }
  }

  lemma ItemsShown(json: Json, es: seq<ConverterEntry>)
    requires json.JsonObject? && ShowsConverters(json, es)
    ensures |ConverterItems(json)| == |es|
    ensures forall k :: 0 <= k < |es| ==> ShowsConverter(ConverterItems(json)[k], es[k])
  {
    hide ShowsConverter;
  }

  lemma StreamReads(json: Json, e: StreamEntry, index: uint32, first: int)
    requires ShowsStream(json, e) && index == first % UINT32_LIMIT
    ensures var r := ReadStream(json, index);
            && r.Some? && ReadsStream(r.value.0, e, first)
            && r.value.1 == (first + Unnamed(e.converters)) % UINT32_LIMIT
  {
    hide *;
    HeadReads(json, e);
    ItemsShown(json, e.converters);
    ConvertersRead(ConverterItems(json), e.converters, index, first);
    PutTogether(json, e, index, first);
  }

  lemma PutTogether(json: Json, e: StreamEntry, index: uint32, first: int)
    requires FindString("channel", json) == Some(e.channel)
    requires Protocol(json) == if e.protocol == Some("ca") then "ca" else "pva"
    requires var r := ReadConverters(ConverterItems(json), index); r.Some? && ReadsAll(r.value.0, e.converters, first)
    ensures var r := ReadStream(json, index);
            && r.Some? && ReadsStream(r.value.0, e, first)
            && r.value.1 == ReadConverters(ConverterItems(json), index).value.1
  {
    hide FindString, Protocol, ReadConverters, ConverterItems, ReadsAll;
  }

  lemma HeadReads(json: Json, e: StreamEntry)
    requires ShowsStream(json, e)
    ensures json.JsonObject? && ShowsConverters(json, e.converters)
    ensures FindString("channel", json) == Some(e.channel)
    ensures Protocol(json) == if e.protocol == Some("ca") then "ca" else "pva"
  {
    SaysFinds(json, "channel", Some(e.channel));
    SaysFinds(json, "channel_provider_type", e.protocol);
    hide FindString, ShowsConverters, SaysIf;
  }

  lemma {:induction false} StreamsRead(items: seq<Json>, es: seq<StreamEntry>, index: uint32, first: int)
    requires |items| == |es| && index == first % UINT32_LIMIT
    requires forall i :: 0 <= i < |es| ==> ShowsStream(items[i], es[i])
    ensures var r := ReadStreams(items, index); r.Some? && ReadsDocument(r.value, es, first)
  {
    hide ReadStream, ShowsStream, ReadsStream;
    if es != [] {
      StreamReads(items[0], es[0], index, first);
      var one := ReadStream(items[0], index).value;
      StreamsRead(items[1..], es[1..], one.1, first + Unnamed(es[0].converters));
      PutStreamFirst(one.0, ReadStreams(items[1..], one.1).value, es, first);
    }
  }

  lemma PutStreamFirst(m: StreamSettings, ms: seq<StreamSettings>, es: seq<StreamEntry>, first: int)
    requires es != [] && ReadsStream(m, es[0], first)
    requires ReadsDocument(ms, es[1..], first + Unnamed(es[0].converters))
    ensures ReadsDocument([m] + ms, es, first)
  {
    hide ReadsStream, Unnamed, AllUnnamed;
    forall i | 0 <= i < |es| ensures ReadsStream(([m] + ms)[i], es[i], first + AllUnnamed(es[..i])) {
      CountAllFrom(es, i);
      if i > 0 {
        assert ([m] + ms)[i] == ms[i - 1] && es[1..][i - 1] == es[i];
      }
    }
  }

  lemma CountAllFrom(es: seq<StreamEntry>, i: int)
    requires 0 <= i < |es|
    ensures AllUnnamed(es[..i]) == if i == 0 then 0 else Unnamed(es[0].converters) + AllUnnamed(es[1..][..i - 1])
  {
    if i > 0 {
      assert es[..i] == [es[0]] + es[1..][..i - 1];
      AllUnnamedFront(es[0], es[1..][..i - 1]);
    }
  }

  /**
    Every document that shows these streams reads as these streams, in order: channels, schemas, topics and
    given names as they are, protocol pva unless it is ca, and the converters without a name numbered one
    after the other, over all streams.
   */
  lemma ReadBack(json: Json, es: seq<StreamEntry>)
    requires ShowsDocument(json, es)
    ensures var r := ReadSettings(json); r.Some? && ReadsDocument(r.value, es, 0)
  {
    hide ShowsStream, ReadStreams, ReadsDocument;
    StreamsRead(json.fields["streams"].items, es, 0, 0);
  }

  /** What the printer prints shows its arguments. */
  lemma PrintedShows(pvs: seq<string>, schema: string, topic: string, protocol: EpicsProtocol)
    ensures var json := AddJson(pvs, schema, topic, protocol);
            && Says(json, "cmd", "add")
            && ShowsDocument(json, seq(|pvs|, i requires 0 <= i < |pvs| =>
                 StreamEntry(pvs[i], Some(if protocol == Pva then "pva" else "ca"),
                             [ConverterEntry(schema, "//localhost:9092/" + topic, None)])))
  {
    forall i | 0 <= i < |pvs|
      ensures ShowsStream(StreamJson(pvs[i], schema, topic, protocol),
                          StreamEntry(pvs[i], Some(if protocol == Pva then "pva" else "ca"),
                                      [ConverterEntry(schema, "//localhost:9092/" + topic, None)]))
    {
      StreamShows(pvs[i], schema, topic, protocol);
    }
    hide StreamJson, ShowsStream;
  }

  lemma StreamShows(pv: string, schema: string, topic: string, protocol: EpicsProtocol)
    ensures ShowsStream(StreamJson(pv, schema, topic, protocol),
                        StreamEntry(pv, Some(if protocol == Pva then "pva" else "ca"),
                                    [ConverterEntry(schema, "//localhost:9092/" + topic, None)]))
  {
  }

  /** The command that stops a channel says so. */
  lemma StopSays(pv: string)
    ensures Says(StopJson(pv), "cmd", "stop_channel") && Says(StopJson(pv), "channel", pv)
  {
  }
}
