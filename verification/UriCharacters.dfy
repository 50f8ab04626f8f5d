/**
  Which characters the parts of a URI have, written out, and what a string with any other character
  in such a part is parsed as.
 */
module UriCharacters {
  import opened Basics
  import opened Decimal
  import Commands
  import Uri

  const LOWER := "abcdefghijklm" + "nopqrstuvwxyz"
  const UPPER := "ABCDEFGHIJKLM" + "NOPQRSTUVWXYZ"
  const DIGITS := "0123456789"
  const SPACES := " \t\n\U{0B}\U{0C}\r"

  /** Letters, digits, dot, underscore and hyphen. */
  const TOPIC_CHARS := LOWER + UPPER + DIGITS + "._-"

  ghost predicate Only(t: string, chars: string) {
    forall i :: 0 <= i < |t| ==> t[i] in chars
  }

  ghost predicate NoneOf(t: string, chars: string) {
    forall i :: 0 <= i < |t| ==> t[i] !in chars
  }

  // The classes, character by character

  lemma LowerIs(c: char)
    ensures c in LOWER <==> 'a' <= c <= 'z'
  {
    if 'a' <= c <= 'z' {
      assert LOWER[c as int - 'a' as int] == c;
    }
  }

  lemma UpperIs(c: char)
    ensures c in UPPER <==> 'A' <= c <= 'Z'
  {
    if 'A' <= c <= 'Z' {
      assert UPPER[c as int - 'A' as int] == c;
    }
  }

  lemma DigitIs(c: char)
    ensures c in DIGITS <==> Uri.In(c, Uri.Digit)
  {
    if '0' <= c <= '9' {
      assert DIGITS[c as int - '0' as int] == c;
    }
  }

  lemma SpaceIs(c: char)
    ensures c in SPACES <==> Uri.In(c, Uri.Space)
  {
    if 9 <= c as int <= 13 {
      assert SPACES[c as int - 8] == c;
    } else if c == ' ' {
      assert SPACES[0] == c;
    }
  }

  lemma TopicIs(c: char)
    ensures c in TOPIC_CHARS <==> Uri.In(c, Uri.Topic)
  {
    LowerIs(c);
    UpperIs(c);
    DigitIs(c);
    MarkIs(c);
    InOneOf(LOWER, UPPER, DIGITS, "._-", c);
    hide LOWER, UPPER, DIGITS;
  }

  lemma MarkIs(c: char)
    ensures c in "._-" <==> c == '.' || c == '_' || c == '-'
  {
    assert "._-"[0] == '.' && "._-"[1] == '_' && "._-"[2] == '-';
  }

  lemma InOneOf(s: string, t: string, u: string, v: string, c: char)
    ensures c in s + t + u + v <==> c in s || c in t || c in u || c in v
  {
  }

  lemma HostIs(c: char)
    ensures c !in "/?#:" <==> Uri.In(c, Uri.Host)
    ensures c !in "/?#:" <==> Uri.In(c, Uri.Scheme)
  {
    assert "/?#:"[0] == '/' && "/?#:"[1] == '?' && "/?#:"[2] == '#' && "/?#:"[3] == ':';
  }

  lemma AllIs(t: string)
    ensures Uri.All(t, Uri.Topic) <==> Only(t, TOPIC_CHARS)
    ensures Uri.All(t, Uri.Space) <==> Only(t, SPACES)
    ensures Uri.All(t, Uri.Digit) <==> Only(t, DIGITS)
    ensures Uri.All(t, Uri.Host) <==> NoneOf(t, "/?#:")
    ensures Uri.All(t, Uri.Scheme) <==> NoneOf(t, "/?#:")
  {
    hide Uri.In, TOPIC_CHARS, SPACES, DIGITS;
    forall i | 0 <= i < |t|
      ensures Uri.In(t[i], Uri.Topic) <==> t[i] in TOPIC_CHARS
      ensures Uri.In(t[i], Uri.Space) <==> t[i] in SPACES
      ensures Uri.In(t[i], Uri.Digit) <==> t[i] in DIGITS
      ensures Uri.In(t[i], Uri.Host) <==> t[i] !in "/?#:"
      ensures Uri.In(t[i], Uri.Scheme) <==> t[i] !in "/?#:"
    {
      TopicIs(t[i]);
      SpaceIs(t[i]);
      DigitIs(t[i]);
      HostIs(t[i]);
    }
  }

  // Topics and space at the end

  lemma TopicSplits(t: string, end: string)
    requires Uri.All(t, Uri.Topic) && Uri.All(end, Uri.Space)
    ensures Commands.TopicOf(t + end) == t && Commands.TopicOk(t + end)
  {
    assert end != "" ==> Uri.In(end[0], Uri.Space);
    Uri.StartExactly(t, Uri.Topic, end);
  }

  lemma NoOtherChar(t: string, i: int)
    requires Commands.TopicOk(t) && 0 <= i < |t|
    ensures Uri.In(t[i], Uri.Topic) || Uri.In(t[i], Uri.Space)
  {
    var n := Uri.Leading(t, Uri.Topic);
    if i < n {
      assert t[..n][i] == t[i];
    } else {
      assert Commands.EndOf(t)[i - n] == t[i];
    }
    hide Uri.In, Uri.Leading;
  }

  /**
    A topic is made of these characters, and space may come after it; any other character anywhere in it,
    and the string has no host. An empty topic leaves the old one.
   */
  lemma TopicCharacters(u: Uri.UriValue, t: string, end: string)
    ensures Only(t, TOPIC_CHARS) && Only(end, SPACES) ==>
      Uri.ParseInto(u, "//localhost:9092/" + (t + end))
        == (Uri.UriValue("localhost:9092", 9092, if t != "" then t else u.topic), Uri.Parsed)
    ensures (exists i :: 0 <= i < |t| && t[i] !in TOPIC_CHARS && t[i] !in SPACES) ==>
      Uri.ParseInto(u, "//localhost:9092/" + t) == (u, Uri.NoHost)
  {
    Prefix();
    hide *;
    Commands.PrintedTopic(u, t + end);
    Commands.PrintedTopic(u, t);
    AllIs(t);
    AllIs(end);
    if Only(t, TOPIC_CHARS) && Only(end, SPACES) {
      TopicSplits(t, end);
    }
    if Commands.TopicOk(t) {
      forall i | 0 <= i < |t| ensures t[i] in TOPIC_CHARS || t[i] in SPACES {
        NoOtherChar(t, i);
        TopicIs(t[i]);
        SpaceIs(t[i]);
      }
    }
  }

  lemma Prefix()
    ensures Commands.BROKER_PREFIX == "//localhost:9092/"
  {
  }

  /** For instance the topic of the system tests, with its underscore. */
  lemma UnderscoreIsKept(u: Uri.UriValue)
    ensures Uri.ParseInto(u, "//localhost:9092/TEST_forwarderData")
         == (Uri.UriValue("localhost:9092", 9092, "TEST_forwarderData"), Uri.Parsed)
  {
    hide *;
    SystemTestTopic();
    AllIs("TEST_forwarderData");
    AllIs("");
    TopicCharacters(u, "TEST_forwarderData", "");
  }

  lemma SystemTestTopic()
    ensures Uri.All("TEST_forwarderData", Uri.Topic) && Uri.All("", Uri.Space)
    ensures "//localhost:9092/" + ("TEST_forwarderData" + "") == "//localhost:9092/TEST_forwarderData"
  {
    assert "TEST_forwarderData" + "" == "TEST_forwarderData";
  }

  // Hosts, with space and any scheme in front

  lemma PlainOk(host: string, topic: string)
    requires host != "" && Uri.All(host, Uri.Host) && Uri.All(topic, Uri.Topic)
    ensures var w := Uri.Written(host, None, Some(topic), "");
            && Uri.WrittenOk(w) && Uri.WrittenText(w) == host + ("/" + topic) && Uri.HostPortOf(w) == host
            && forall u :: Uri.Expected(u, w) == (Uri.UriValue(host, u.port, if topic != "" then topic else u.topic),
                                                  Uri.Parsed)
  {
    hide Uri.In;
    assert "" + ("/" + topic + "") == "/" + topic;
    assert host + "" == host;
  }

  lemma PrefixOf(scheme: string)
    requires scheme != "" && Uri.All(scheme, Uri.Scheme)
    ensures Uri.IsPrefix(scheme + "://")
  {
    var prefix := scheme + "://";
    assert prefix[|prefix| - 3..] == "://" && prefix[..|prefix| - 3] == scheme;
    hide Uri.In;
  }

  lemma KeptBehind(prefix: string, host: string)
    requires prefix != "" && host != ""
    ensures Uri.Kept(prefix, host)
  {
  }

  /** Any other character than these four is one of a host, and so it is in a scheme. */
  lemma HostCharacters(u: Uri.UriValue, space: string, host: string, topic: string)
    requires Only(space, SPACES) && host != "" && NoneOf(host, "/?#:") && Only(topic, TOPIC_CHARS)
    ensures Uri.ParseInto(u, space + "//" + (host + ("/" + topic)))
         == (Uri.UriValue(host, u.port, if topic != "" then topic else u.topic), Uri.Parsed)
    ensures forall scheme :: scheme != "" && NoneOf(scheme, "/?#:") ==>
      Uri.ParseInto(u, space + (scheme + "://") + (host + ("/" + topic)))
        == (Uri.UriValue(host, u.port, if topic != "" then topic else u.topic), Uri.Parsed)
  {
    hide *;
    AllIs(space);
    AllIs(host);
    AllIs(topic);
    PlainOk(host, topic);
    SlashesPrefix();
    KeptBehind("//", host);
    Uri.WrittenRoundTrip(u, space, "//", Uri.Written(host, None, Some(topic), ""));
    forall scheme | scheme != "" && NoneOf(scheme, "/?#:")
      ensures Uri.ParseInto(u, space + (scheme + "://") + (host + ("/" + topic)))
        == (Uri.UriValue(host, u.port, if topic != "" then topic else u.topic), Uri.Parsed)
    {
      AllIs(scheme);
      PrefixOf(scheme);
      KeptBehind(scheme + "://", host);
      Uri.WrittenRoundTrip(u, space, scheme + "://", Uri.Written(host, None, Some(topic), ""));
    }
  }

  lemma SlashesPrefix()
    ensures Uri.IsPrefix("//")
  {
  }

  // Characters that nothing matches

  lemma {:induction false} TextChars(p: Uri.Parts, i: int)
    requires Uri.WellFormed(p) && 0 <= i < |Uri.Text(p)|
    ensures Uri.Text(p)[i] != '?' && Uri.Text(p)[i] != '#'
  {
    var q := p.rest;
    var prefix, host, port, slash := q.prefix, q.rest.host, Uri.PortText(q.rest.rest.port), q.rest.rest.rest.slash;
    var topic := Uri.TopicText(q.rest.rest.rest.rest);
    assert Uri.Text(p) == p.space + (prefix + (host + (port + (slash + topic))));
    Plain(p.space, Uri.Space);
    PlainPrefix(prefix);
    Plain(host, Uri.Host);
    PlainPort(q.rest.rest.port);
    PlainTopic(q.rest.rest.rest.rest);
    hide Uri.Text, Uri.TopicText, Uri.PortText, Uri.WellFormed, Uri.In;
    Joined(slash, topic);
    Joined(port, slash + topic);
    Joined(host, port + (slash + topic));
    Joined(prefix, host + (port + (slash + topic)));
    Joined(p.space, prefix + (host + (port + (slash + topic))));
  }

  ghost predicate Unmarked(t: string) {
    forall i :: 0 <= i < |t| ==> t[i] != '?' && t[i] != '#'
  }

  lemma Plain(t: string, kind: Uri.CharClass)
    requires Uri.All(t, kind)
    ensures Unmarked(t)
  {
  }

  lemma Joined(a: string, b: string)
    requires Unmarked(a) && Unmarked(b)
    ensures Unmarked(a + b)
  {
  }

  lemma PlainPrefix(prefix: string)
    requires Uri.IsPrefix(prefix)
    ensures Unmarked(prefix)
  {
    if |prefix| > 3 {
      var n := |prefix| - 3;
      assert prefix == prefix[..n] + "://";
      Plain(prefix[..n], Uri.Scheme);
    }
  }

  lemma PlainPort(port: Option<string>)
    requires port.Some? ==> Uri.All(port.value, Uri.Digit)
    ensures Unmarked(Uri.PortText(port))
  {
    if port.Some? {
      Plain(port.value, Uri.Digit);
      Joined(":", port.value);
    }
  }

  lemma PlainTopic(p: Uri.TopicPart)
    requires Uri.TopicOk(p)
    ensures Unmarked(Uri.TopicText(p))
  {
    var topic := if p.topic.Some? then p.topic.value else "";
    Plain(topic, Uri.Topic);
    Plain(p.end, Uri.Space);
    Joined(topic, p.end);
  }

  /** A question mark or a hash mark anywhere, and there is no host. */
  lemma NoMarks(u: Uri.UriValue, s: string, i: int)
    requires 0 <= i < |s| && (s[i] == '?' || s[i] == '#')
    ensures Uri.ParseInto(u, s) == (u, Uri.NoHost)
  {
    forall p ensures !Uri.Cut(p, s) {
      if Uri.Cut(p, s) {
        TextChars(p, i);
      }
    }
    hide Uri.Cut, Uri.ParseInto;
    Uri.ParseFailsExactly(u, s);
    Commands.NoHostNothing(u, s);
  }

  // Ports

  lemma PortSplit(p: Uri.HostPart, port: string)
    requires Uri.HostOk(p) && Uri.HostText(p) == "h" + (":" + port + "/t")
    ensures port != "" && Uri.All(port, Uri.Digit)
  {
    hide *;
    var tail := ":" + port + "/t";
    var t := "h" + tail;
    PortLetters(port);
    Commands.HostSplits(p, t);
    Commands.NeitherTopicNorSpace();
    var n := |p.host|;
    HostNotEmpty(p);
    assert n == 1;
    Commands.ColonIsPort(p.rest, tail);
    Commands.PortSplits(p.rest, tail);
    var m := |p.rest.port.value|;
    assert m <= |port|;
    assert tail[m + 1..][|port| - m] == '/' && tail[m + 1..][0] == tail[m + 1];
    Commands.SlashFirst(p.rest.rest, tail[m + 1..], |port| - m);
    if m < |port| {
      Commands.SlashChars(p.rest.rest, tail[m + 1..]);
      assert tail[m + 1..][1..][|port| - m - 1] == '/';
      NoOtherChar(tail[m + 1..][1..], |port| - m - 1);
    }
    PortOnly(p.rest, port, tail);
  }

  lemma HostNotEmpty(p: Uri.HostPart)
    requires Uri.HostOk(p)
    ensures p.host != ""
  {
  }

  lemma PortLetters(port: string)
    ensures var tail := ":" + port + "/t"; var t := "h" + tail;
            && t[0] == 'h' && t[1] == ':' && t[1..] == tail && tail[0] == ':' && |tail| == |port| + 3
            && tail[|port| + 1] == '/'
  {
  }

  lemma PortOnly(p: Uri.PortPart, port: string, tail: string)
    requires Uri.TailOk(p) && p.port.Some? && |p.port.value| == |port| && tail == ":" + port + "/t"
    requires Uri.TailText(p) == tail
    ensures port != "" && Uri.All(port, Uri.Digit)
  {
    var digits := p.port.value;
    assert tail == ":" + digits + Uri.SlashText(p.rest);
    assert forall i :: 0 <= i < |port| ==> digits[i] == tail[i + 1] == port[i];
    hide Uri.SlashText, Uri.In;
  }

  lemma PortWritten(port: string)
    requires port != "" && Uri.All(port, Uri.Digit)
    ensures var w := Uri.Written("h", Some(port), Some("t"), "");
            && Uri.WrittenOk(w) && Uri.WrittenText(w) == "h" + (":" + port + "/t")
            && forall u :: Uri.Expected(u, w) ==
                 if Value(port) >= INT32_LIMIT then (u.(hostPort := "h:" + port), Uri.PortOutOfRange)
                 else (Uri.UriValue("h:" + port, Value(port), "t"), Uri.Parsed)
  {
    var w := Uri.Written("h", Some(port), Some("t"), "");
    assert "/" + "t" + "" == "/t" && Uri.WrittenText(w) == "h" + (":" + port + "/t");
    assert "h" + (":" + port) == "h:" + port;
    hide Value;
  }

  /** A port is made of digits, at least one; anything else in its place, and the string has no host. */
  lemma PortCharacters(u: Uri.UriValue, port: string)
    ensures Uri.ParseInto(u, "//" + ("h" + (":" + port + "/t"))) ==
            if port != "" && Only(port, DIGITS) then
              if Value(port) >= INT32_LIMIT then (u.(hostPort := "h:" + port), Uri.PortOutOfRange)
              else (Uri.UriValue("h:" + port, Value(port), "t"), Uri.Parsed)
            else (u, Uri.NoHost)
  {
    hide *;
    AllIs(port);
    var t := "h" + (":" + port + "/t");
    if port != "" && Only(port, DIGITS) {
      PortWritten(port);
      SlashesPrefix();
      KeptBehind("//", "h");
      NoSpace();
      assert "" + "//" + t == "//" + t;
      Uri.WrittenRoundTrip(u, "", "//", Uri.Written("h", Some(port), Some("t"), ""));
    } else {
      forall p ensures !Uri.Cut(p, "//" + t) {
        if Uri.Cut(p, "//" + t) {
          Commands.PrefixChars(p, t);
          PortSplit(p.rest.rest, port);
        }
      }
      Uri.ParseFailsExactly(u, "//" + t);
      Commands.NoHostNothing(u, "//" + t);
    }
  }

  lemma NoSpace()
    ensures Uri.All("", Uri.Space)
  {
  }

  // Schemes

  /** Where the colon of a scheme is. */
  lemma SchemeColon(p: Uri.Parts, scheme: string)
    requires Uri.WellFormed(p) && Uri.Text(p) == scheme + "://h/t"
    ensures |p.rest.prefix| > 3 && |scheme| == |p.space| + |p.rest.prefix| - 3
  {
    var q, k := p.rest, |scheme|;
    var prefix, host, tail := q.prefix, q.rest.host, Uri.TailText(q.rest.rest);
    assert Uri.Text(p) == p.space + (prefix + (host + tail));
    ColonNotIn();
    PrefixColons(prefix);
    TailColons(q.rest.rest);
    var t := scheme + "://h/t";
    assert t[k] == ':' && t[k + 1] == '/';
    hide Uri.In, Uri.TailText, Uri.Text, Uri.HostOk, Uri.TailOk, Uri.IsPrefix;
    JoinedAt(p.space, prefix, host, tail, k);
    JoinedAt(p.space, prefix, host, tail, k + 1);
  }

  /** A character of four strings is in one of them. */
  lemma JoinedAt(a: string, b: string, c: string, d: string, k: int)
    requires 0 <= k < |a| + |b| + |c| + |d|
    ensures var t, i, j, m := a + (b + (c + d)), k - |a|, k - |a| - |b|, k - |a| - |b| - |c|;
            || (k < |a| && t[k] == a[k])
            || (0 <= i < |b| && t[k] == b[i])
            || (0 <= j < |c| && t[k] == c[j])
            || (0 <= m < |d| && t[k] == d[m])
  {
  }

  lemma ColonNotIn()
    ensures !Uri.In(':', Uri.Space) && !Uri.In(':', Uri.Host) && !Uri.In(':', Uri.Scheme) && !Uri.In(':', Uri.Topic)
    ensures !Uri.In(':', Uri.Digit) && !Uri.In('/', Uri.Digit)
  {
  }

  lemma PrefixColons(prefix: string)
    requires Uri.IsPrefix(prefix)
    ensures forall i :: 0 <= i < |prefix| && prefix[i] == ':' ==> |prefix| > 3 && i == |prefix| - 3
  {
    ColonNotIn();
    hide Uri.In;
    if |prefix| > 3 {
      var n := |prefix| - 3;
      assert prefix[n..] == "://" && prefix[n + 1] == prefix[n..][1] && prefix[n + 2] == prefix[n..][2];
      assert forall i :: 0 <= i < n ==> prefix[i] == prefix[..n][i];
    }
  }

  /** A colon behind the host is followed by a digit. */
  lemma TailColons(p: Uri.PortPart)
    requires Uri.TailOk(p)
    ensures var tail := Uri.TailText(p);
            forall i :: 0 <= i && i + 1 < |tail| && tail[i] == ':' ==> tail[i + 1] != '/'
  {
    var rest := Uri.SlashText(p.rest);
    ColonNotIn();
    NoColon(p.rest);
    if p.port.Some? {
      var digits := p.port.value;
      var tail := ":" + digits + rest;
      assert forall i :: 0 < i <= |digits| ==> tail[i] == digits[i - 1];
      assert forall i :: |digits| < i < |tail| ==> tail[i] == rest[i - 1 - |digits|];
    } else {
      assert "" + rest == rest;
    }
    hide Uri.In, Uri.SlashText, Uri.SlashOk;
  }

  lemma NoColon(p: Uri.SlashPart)
    requires Uri.SlashOk(p)
    ensures forall i :: 0 <= i < |Uri.SlashText(p)| ==> Uri.SlashText(p)[i] != ':'
  {
    ColonNotIn();
    hide Uri.In;
    var topic := if p.rest.topic.Some? then p.rest.topic.value else "";
    assert Uri.SlashText(p) == p.slash + (topic + p.rest.end);
  }

  /** A scheme is made of any characters but these four, at least one; otherwise there is no host. */
  lemma SchemeCharacters(u: Uri.UriValue, scheme: string)
    ensures Uri.ParseInto(u, scheme + "://h/t") ==
            if scheme != "" && NoneOf(scheme, "/?#:") then (Uri.UriValue("h", u.port, "t"), Uri.Parsed)
            else (u, Uri.NoHost)
  {
    if scheme != "" && NoneOf(scheme, "/?#:") {
      assert "" + (scheme + "://") + ("h" + ("/" + "t")) == scheme + "://h/t";
      TopicIs('t');
      HostCharacters(u, "", "h", "t");
    } else {
      hide *;
      forall p ensures !Uri.Cut(p, scheme + "://h/t") {
        if Uri.Cut(p, scheme + "://h/t") {
          CutIs(p, scheme + "://h/t");
          SchemeColon(p, scheme);
          SchemeOnly(p, scheme);
        }
      }
      Uri.ParseFailsExactly(u, scheme + "://h/t");
      Commands.NoHostNothing(u, scheme + "://h/t");
    }
  }

  lemma CutIs(p: Uri.Parts, s: string)
    requires Uri.Cut(p, s)
    ensures Uri.WellFormed(p) && Uri.Text(p) == s
  {
  }

  lemma SchemeOnly(p: Uri.Parts, scheme: string)
    requires Uri.WellFormed(p) && Uri.Text(p) == scheme + "://h/t"
    requires |p.rest.prefix| > 3 && |scheme| == |p.space| + |p.rest.prefix| - 3
    ensures scheme != "" && NoneOf(scheme, "/?#:")
  {
    var prefix, t := p.rest.prefix, Uri.Text(p);
    var n := |prefix| - 3;
    assert t == p.space + (prefix + Uri.HostText(p.rest.rest));
    assert scheme == p.space + prefix[..n] by {
      assert scheme == t[..|scheme|];
      assert t[..|scheme|] == p.space + prefix[..n];
    }
    SpacesAreScheme(p.space);
    hide Uri.In, Uri.HostText, Uri.Text;
    assert Uri.All(scheme, Uri.Scheme);
    AllIs(scheme);
  }

  lemma SpacesAreScheme(t: string)
    requires Uri.All(t, Uri.Space)
    ensures Uri.All(t, Uri.Scheme)
  {
  }

  // Space in front

  /** Only these six characters may stand before the slashes. */
  lemma SpaceCharacters(u: Uri.UriValue, c: char)
    ensures Uri.ParseInto(u, [c] + "//h") ==
            if c in SPACES then (Uri.UriValue("h", u.port, u.topic), Uri.Parsed) else (u, Uri.NoHost)
  {
    SpaceIs(c);
    var s := [c] + "//h";
    if c in SPACES {
      var w := Uri.Written("h", None, None, "");
      assert "" + "" == "" && "h" + "" == "h" && Uri.WrittenText(w) == "h" && Uri.HostPortOf(w) == "h";
      assert Uri.WrittenOk(w) && Uri.All([c], Uri.Space) && [c] + "//" + "h" == s;
      SlashesPrefix();
      KeptBehind("//", "h");
      hide Uri.In, Uri.WrittenOk, Uri.WrittenText, Uri.All;
      Uri.WrittenRoundTrip(u, [c], "//", w);
    } else {
      forall p ensures !Uri.Cut(p, s) {
        if Uri.Cut(p, s) {
          NoOtherStart(p, c);
        }
      }
      hide Uri.In, Uri.Cut, Uri.ParseInto;
      Uri.ParseFailsExactly(u, s);
      Commands.NoHostNothing(u, s);
    }
  }

  lemma NoOtherStart(p: Uri.Parts, c: char)
    requires Uri.WellFormed(p) && Uri.Text(p) == [c] + "//h"
    ensures Uri.In(c, Uri.Space)
  {
    var q, t := p.rest, [c] + "//h";
    var prefix, host := q.prefix, Uri.HostText(q.rest);
    assert t == p.space + (prefix + host) && t[0] == c;
    NoSuchStart(q, c);
    hide Uri.In, Uri.Text, Uri.HostText, Uri.PrefixOk;
    assert p.space == "" ==> t == prefix + host;
    assert p.space != "" ==> p.space[0] == t[0];
  }

  lemma NoSuchStart(q: Uri.PrefixPart, c: char)
    requires Uri.PrefixOk(q)
    ensures q.prefix + Uri.HostText(q.rest) != [c] + "//h"
  {
    var host, tail, s := q.rest.host, Uri.TailText(q.rest.rest), [c] + "//h";
    var t := q.prefix + Uri.HostText(q.rest);
    assert s[1] == '/' && s[2] == '/' && |s| == 4 && s[1..] == "//h";
    NoSlashes(q.rest.rest);
    SlashNotIn();
    hide Uri.In, Uri.TailText, Uri.TailOk;
    if q.prefix == "" {
      assert t == host + tail;
      if |host| == 1 {
        assert t[1..] == tail;
      } else {
        assert t[1] == host[1];
      }
    } else if q.prefix == "//" {
      assert t[2] == host[0];
    } else {
      assert |t| > 4;
    }
  }

  lemma SlashNotIn()
    ensures !Uri.In('/', Uri.Host)
  {
  }

  lemma NoSlashes(p: Uri.PortPart)
    requires Uri.TailOk(p)
    ensures Uri.TailText(p) != "//h"
  {
    var text := Uri.TopicText(p.rest.rest);
    TopicStarts(p.rest.rest);
    hide Uri.In, Uri.TopicText, Uri.TopicOk;
    if p.port.Some? {
      assert Uri.TailText(p)[0] == ':';
    } else {
      var t := p.rest.slash + text;
      assert Uri.TailText(p) == "" + t == t;
      assert "//h"[0] == '/' && "//h"[1] == '/';
      if p.rest.slash == "" {
        assert t == text;
      } else {
        assert t[1..] == text;
      }
    }
  }

  lemma TopicStarts(p: Uri.TopicPart)
    requires Uri.TopicOk(p)
    ensures Uri.TopicText(p) == "" || Uri.TopicText(p)[0] != '/'
  {
  }
}
