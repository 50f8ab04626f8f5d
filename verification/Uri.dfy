/**
  The URI parser of src/URI.cpp. Its regular expression, a form of the one in appendix B of RFC 3986,
  is matched by ordered choice: every part takes as much as it can, and gives back when the rest
  does not match.
 */
module Uri {
  import opened Basics
  import BrokerList
  import opened Decimal

  datatype CharClass = Space | Scheme | Host | Digit | Topic

  predicate In(c: char, kind: CharClass) {
    match kind
    case Space => c == ' ' || 9 <= c as int <= 13
    case Scheme => c != ':' && c != '/' && c != '?' && c != '#'
    case Host => c != '/' && c != '?' && c != '#' && c != ':'
    case Digit => '0' <= c <= '9'
    case Topic => 'a' <= c <= 'z' || 'A' <= c <= 'Z' || '0' <= c <= '9' || c == '.' || c == '_' || c == '-'
  }

  ghost predicate All(t: string, kind: CharClass) {
    forall i :: 0 <= i < |t| ==> In(t[i], kind)
  }

  /** How many characters at the start of t are of this kind. */
  function Leading(t: string, kind: CharClass): (n: nat)
    ensures n <= |t| && All(t[..n], kind) && (n < |t| ==> !In(t[n], kind))
  {
    if t == "" || !In(t[0], kind) then 0 else
    var n := 1 + Leading(t[1..], kind);
    assert forall i :: 0 < i < n ==> t[i] == t[1..][i - 1];
    n
  }

  // What the groups match, from the end of the expression to its start

  /** The topic, and the space at the end. */
  datatype TopicPart = TopicPart(topic: Option<string>, end: string)

  datatype SlashPart = SlashPart(slash: string, rest: TopicPart)

  /** The digits of the port. */
  datatype PortPart = PortPart(port: Option<string>, rest: SlashPart)

  datatype HostPart = HostPart(host: string, rest: PortPart)

  /** `scheme://`, `//` or nothing. */
  datatype PrefixPart = PrefixPart(prefix: string, rest: HostPart)

  datatype Parts = Parts(space: string, rest: PrefixPart)

  function TopicText(p: TopicPart): string {
    (if p.topic.Some? then p.topic.value else "") + p.end
  }

  function SlashText(p: SlashPart): string {
    p.slash + TopicText(p.rest)
  }

  function PortText(port: Option<string>): string {
    if port.Some? then ":" + port.value else ""
  }

  function TailText(p: PortPart): string {
    PortText(p.port) + SlashText(p.rest)
  }

  function HostText(p: HostPart): string {
    p.host + TailText(p.rest)
  }

  function PrefixText(p: PrefixPart): string {
    p.prefix + HostText(p.rest)
  }

  function Text(p: Parts): string {
    p.space + PrefixText(p.rest)
  }

  // What the regular expression wants of the parts

  ghost predicate TopicOk(p: TopicPart) {
    (p.topic.Some? ==> p.topic.value != "" && All(p.topic.value, Topic)) && All(p.end, Space)
  }

  ghost predicate SlashOk(p: SlashPart) {
    (p.slash == "" || p.slash == "/") && TopicOk(p.rest)
  }

  ghost predicate TailOk(p: PortPart) {
    (p.port.Some? ==> p.port.value != "" && All(p.port.value, Digit)) && SlashOk(p.rest)
  }

  ghost predicate HostOk(p: HostPart) {
    p.host != "" && All(p.host, Host) && TailOk(p.rest)
  }

  ghost predicate IsPrefix(prefix: string) {
    || prefix == "" || prefix == "//"
    || (|prefix| > 3 && prefix[|prefix| - 3..] == "://" && All(prefix[..|prefix| - 3], Scheme))
  }

  ghost predicate PrefixOk(p: PrefixPart) {
    IsPrefix(p.prefix) && HostOk(p.rest)
  }

  ghost predicate WellFormed(p: Parts) {
    All(p.space, Space) && PrefixOk(p.rest)
  }

  // The match: every function first tries to take as much as it may

  /** The topic, at most n characters of it, and the space at the end. */
  function MatchTopic(t: string, n: nat): (p: Option<TopicPart>)
    requires n <= |t|
    decreases n
  {
    if Leading(t[n..], Space) == |t| - n then Some(TopicPart(if n > 0 then Some(t[..n]) else None, t[n..]))
    else if n > 0 then MatchTopic(t, n - 1)
    else None
  }

  function TopicFrom(t: string): (p: Option<TopicPart>) {
    MatchTopic(t, Leading(t, Topic))
  }

  function MatchSlash(t: string): (p: Option<SlashPart>) {
    var taken := if t != "" && t[0] == '/' then TopicFrom(t[1..]) else None;
    if taken.Some? then Some(SlashPart("/", taken.value)) else
    var skipped := TopicFrom(t);
    if skipped.Some? then Some(SlashPart("", skipped.value)) else None
  }

  /** The port, at most n digits of it; t is what comes after its colon. */
  function MatchDigits(t: string, n: nat): (p: Option<PortPart>)
    requires n <= |t|
    decreases n
  {
    if n == 0 then None else
    var rest := MatchSlash(t[n..]);
    if rest.Some? then Some(PortPart(Some(t[..n]), rest.value)) else MatchDigits(t, n - 1)
  }

  function DigitsFrom(t: string): (p: Option<PortPart>) {
    MatchDigits(t, Leading(t, Digit))
  }

  function MatchPort(t: string): (p: Option<PortPart>) {
    var taken := if t != "" && t[0] == ':' then DigitsFrom(t[1..]) else None;
    if taken.Some? then taken else
    var skipped := MatchSlash(t);
    if skipped.Some? then Some(PortPart(None, skipped.value)) else None
  }

  function MatchHost(t: string, n: nat): (p: Option<HostPart>)
    requires n <= |t|
    decreases n
  {
    if n == 0 then None else
    var rest := MatchPort(t[n..]);
    if rest.Some? then Some(HostPart(t[..n], rest.value)) else MatchHost(t, n - 1)
  }

  function HostFrom(t: string): (p: Option<HostPart>) {
    MatchHost(t, Leading(t, Host))
  }

  function MatchScheme(t: string, n: nat): (p: Option<PrefixPart>)
    requires n <= |t|
    decreases n
  {
    if n == 0 then None else
    var rest := if n + 3 <= |t| && t[n..n + 3] == "://" then HostFrom(t[n + 3..]) else None;
    if rest.Some? then Some(PrefixPart(t[..n + 3], rest.value)) else MatchScheme(t, n - 1)
  }

  function SchemeFrom(t: string): (p: Option<PrefixPart>) {
    MatchScheme(t, Leading(t, Scheme))
  }

  function MatchPrefix(t: string): (p: Option<PrefixPart>) {
    var scheme := SchemeFrom(t);
    if scheme.Some? then scheme else
    var slashes := if |t| >= 2 && t[..2] == "//" then HostFrom(t[2..]) else None;
    if slashes.Some? then Some(PrefixPart("//", slashes.value)) else
    var bare := HostFrom(t);
    if bare.Some? then Some(PrefixPart("", bare.value)) else None
  }

  function MatchSpace(t: string, n: nat): (p: Option<Parts>)
    requires n <= |t|
    decreases n
  {
    var rest := MatchPrefix(t[n..]);
    if rest.Some? then Some(Parts(t[..n], rest.value))
    else if n > 0 then MatchSpace(t, n - 1)
    else None
  }

  function Match(s: string): (p: Option<Parts>) {
    MatchSpace(s, Leading(s, Space))
  }

  // The match is sound

  /** A shorter start of t is of the same kind. */
  lemma Shorter(t: string, n: nat, kind: CharClass)
    requires 0 < n <= |t| && All(t[..n], kind)
    ensures All(t[..n - 1], kind)
  {
    assert t[..n][..n - 1] == t[..n - 1];
  }

  lemma {:induction false} TopicSound(t: string, n: nat)
    requires n <= |t| && All(t[..n], Topic)
    ensures var p := MatchTopic(t, n); p.Some? ==> TopicOk(p.value) && TopicText(p.value) == t
    decreases n
  {
    if Leading(t[n..], Space) == |t| - n {
      assert t[n..][..|t| - n] == t[n..] && t[..n] + t[n..] == t;
      hide All;
    } else if n > 0 {
      Shorter(t, n, Topic);
      hide All;
      TopicSound(t, n - 1);
    }
  }

  lemma TopicFromSound(t: string)
    ensures var p := TopicFrom(t); p.Some? ==> TopicOk(p.value) && TopicText(p.value) == t
  {
    hide MatchTopic, TopicOk, TopicText;
    TopicSound(t, Leading(t, Topic));
  }

  lemma SlashSound(t: string)
    ensures var p := MatchSlash(t); p.Some? ==> SlashOk(p.value) && SlashText(p.value) == t
  {
    hide TopicFrom, TopicOk, TopicText;
    TopicFromSound(t);
    if t != "" && t[0] == '/' {
      TopicFromSound(t[1..]);
      assert "/" + t[1..] == t;
    }
    assert "" + t == t;
  }

  lemma {:induction false} DigitsSound(t: string, n: nat)
    requires n <= |t| && All(t[..n], Digit)
    ensures var p := MatchDigits(t, n); p.Some? ==> TailOk(p.value) && TailText(p.value) == ":" + t
    decreases n
  {
    hide MatchSlash, SlashOk, SlashText, Leading;
    if n > 0 {
      SlashSound(t[n..]);
      Shorter(t, n, Digit);
      hide All;
      assert ":" + t[..n] + t[n..] == ":" + t;
      DigitsSound(t, n - 1);
    }
  }

  lemma PortSound(t: string)
    ensures var p := MatchPort(t); p.Some? ==> TailOk(p.value) && TailText(p.value) == t
  {
    SlashSound(t);
    if t != "" && t[0] == ':' {
      DigitsSound(t[1..], Leading(t[1..], Digit));
      assert ":" + t[1..] == t;
    }
    hide MatchSlash, MatchDigits, SlashOk, SlashText, Leading;
  }

  lemma {:induction false} HostSound(t: string, n: nat)
    requires n <= |t| && All(t[..n], Host)
    ensures var p := MatchHost(t, n); p.Some? ==> HostOk(p.value) && HostText(p.value) == t
    decreases n
  {
    hide MatchPort, TailOk, TailText, Leading;
    if n > 0 {
      PortSound(t[n..]);
      Shorter(t, n, Host);
      hide All;
      assert t[..n] + t[n..] == t;
      HostSound(t, n - 1);
    }
  }

  lemma HostFromSound(t: string)
    ensures var p := HostFrom(t); p.Some? ==> HostOk(p.value) && HostText(p.value) == t
  {
    hide MatchHost, HostOk, HostText;
    HostSound(t, Leading(t, Host));
  }

  lemma SchemeIsPrefix(t: string, n: nat)
    requires 0 < n && n + 3 <= |t| && All(t[..n], Scheme) && t[n..n + 3] == "://"
    ensures IsPrefix(t[..n + 3]) && t[..n + 3] + t[n + 3..] == t
  {
    assert t[..n + 3][..n] == t[..n] && t[..n + 3][n..] == t[n..n + 3];
  }

  lemma {:induction false} SchemeSound(t: string, n: nat)
    requires n <= |t| && All(t[..n], Scheme)
    ensures var p := MatchScheme(t, n); p.Some? ==> PrefixOk(p.value) && PrefixText(p.value) == t
    decreases n
  {
    hide HostFrom, HostOk, HostText, Leading;
    if n > 0 {
      Shorter(t, n, Scheme);
      if n + 3 <= |t| && t[n..n + 3] == "://" {
        HostFromSound(t[n + 3..]);
        SchemeIsPrefix(t, n);
      }
      hide All, IsPrefix;
      SchemeSound(t, n - 1);
    }
  }

  lemma PrefixSound(t: string)
    ensures var p := MatchPrefix(t); p.Some? ==> PrefixOk(p.value) && PrefixText(p.value) == t
  {
    hide HostFrom, HostOk, HostText, MatchScheme, Leading;
    SchemeSound(t, Leading(t, Scheme));
    HostFromSound(t);
    if |t| >= 2 && t[..2] == "//" {
      HostFromSound(t[2..]);
      assert "//" + t[2..] == t;
    }
    assert "" + t == t;
    hide All;
  }

  lemma {:induction false} SpaceSound(t: string, n: nat)
    requires n <= |t| && All(t[..n], Space)
    ensures var p := MatchSpace(t, n); p.Some? ==> WellFormed(p.value) && Text(p.value) == t
    decreases n
  {
    hide MatchPrefix, PrefixOk, PrefixText, Leading;
    PrefixSound(t[n..]);
    assert t[..n] + t[n..] == t;
    if n > 0 {
      Shorter(t, n, Space);
      hide All;
      SpaceSound(t, n - 1);
    }
  }

  // The match is complete

  lemma {:induction false} LeadingMost(t: string, kind: CharClass, k: nat)
    requires k <= |t| && All(t[..k], kind)
    ensures k <= Leading(t, kind)
  {
    if k > 0 {
      assert t[..k][0] == t[0] && t[1..][..k - 1] == t[..k][1..];
      LeadingMost(t[1..], kind, k - 1);
    }
  }

  /** A string of one kind at the start is found again. */
  lemma Start(a: string, kind: CharClass, b: string)
    requires All(a, kind)
    ensures |a| <= Leading(a + b, kind) && (a + b)[..|a|] == a && (a + b)[|a|..] == b
  {
    assert (a + b)[..|a|] == a && (a + b)[|a|..] == b;
    LeadingMost(a + b, kind, |a|);
  }

  lemma {:induction false} TopicFinds(t: string, n: nat, k: nat)
    requires k <= n <= |t| && All(t[k..], Space)
    ensures MatchTopic(t, n).Some?
    decreases n
  {
    hide Leading;
    if k < n {
      TopicFinds(t, n - 1, k);
    } else {
      assert t[n..][..|t[n..]|] == t[n..];
      LeadingMost(t[n..], Space, |t[n..]|);
    }
  }

  lemma TopicFromFinds(p: TopicPart)
    requires TopicOk(p)
    ensures TopicFrom(TopicText(p)).Some?
  {
    var topic := if p.topic.Some? then p.topic.value else "";
    assert TopicText(p) == topic + p.end && All(topic, Topic);
    hide MatchTopic, Leading, All, TopicText;
    Start(topic, Topic, p.end);
    TopicFinds(topic + p.end, Leading(topic + p.end, Topic), |topic|);
  }

  lemma SlashFinds(p: SlashPart)
    requires SlashOk(p)
    ensures MatchSlash(SlashText(p)).Some?
  {
    hide TopicFrom, TopicText, TopicOk;
    TopicFromFinds(p.rest);
    if p.slash == "" {
      assert SlashText(p) == TopicText(p.rest);
    } else {
      assert SlashText(p)[0] == '/' && SlashText(p)[1..] == TopicText(p.rest);
    }
  }

  lemma {:induction false} DigitsFind(t: string, n: nat, k: nat)
    requires 0 < k <= n <= |t| && MatchSlash(t[k..]).Some?
    ensures MatchDigits(t, n).Some?
    decreases n
  {
    hide MatchSlash;
    if k < n {
      DigitsFind(t, n - 1, k);
    }
  }

  lemma DigitsFromFinds(digits: string, rest: string)
    requires digits != "" && All(digits, Digit) && MatchSlash(rest).Some?
    ensures DigitsFrom(digits + rest).Some?
  {
    hide MatchSlash, MatchDigits, Leading, All;
    Start(digits, Digit, rest);
    DigitsFind(digits + rest, Leading(digits + rest, Digit), |digits|);
  }

  lemma PortFinds(p: PortPart)
    requires TailOk(p)
    ensures MatchPort(TailText(p)).Some?
  {
    hide MatchSlash, SlashText, SlashOk, DigitsFrom, All;
    SlashFinds(p.rest);
    if p.port.Some? {
      DigitsFromFinds(p.port.value, SlashText(p.rest));
      assert TailText(p)[0] == ':' && TailText(p)[1..] == p.port.value + SlashText(p.rest);
    } else {
      assert TailText(p) == SlashText(p.rest);
    }
  }

  lemma {:induction false} HostFindsFrom(t: string, n: nat, k: nat)
    requires 0 < k <= n <= |t| && MatchPort(t[k..]).Some?
    ensures MatchHost(t, n).Some?
    decreases n
  {
    hide MatchPort;
    if k < n {
      HostFindsFrom(t, n - 1, k);
    }
  }

  lemma HostFinds(p: HostPart)
    requires HostOk(p)
    ensures HostFrom(HostText(p)).Some?
  {
    hide MatchPort, TailText, TailOk, MatchHost, Leading, All;
    PortFinds(p.rest);
    Start(p.host, Host, TailText(p.rest));
    HostFindsFrom(HostText(p), Leading(HostText(p), Host), |p.host|);
  }

  lemma {:induction false} SchemeFinds(t: string, n: nat, k: nat)
    requires 0 < k <= n <= |t| && k + 3 <= |t| && t[k..k + 3] == "://" && HostFrom(t[k + 3..]).Some?
    ensures MatchScheme(t, n).Some?
    decreases n
  {
    hide HostFrom;
    if k < n {
      SchemeFinds(t, n - 1, k);
    }
  }

  lemma SchemeFromFinds(scheme: string, t: string)
    requires scheme != "" && All(scheme, Scheme) && HostFrom(t).Some?
    ensures SchemeFrom(scheme + "://" + t).Some?
  {
    hide HostFrom, MatchScheme, Leading, All;
    var all := scheme + ("://" + t);
    Start(scheme, Scheme, "://" + t);
    assert all[|scheme|..|scheme| + 3] == "://" && all[|scheme| + 3..] == t;
    SchemeFinds(all, Leading(all, Scheme), |scheme|);
    assert scheme + "://" + t == all;
  }

  lemma PrefixFinds(p: PrefixPart)
    requires PrefixOk(p)
    ensures MatchPrefix(PrefixText(p)).Some?
  {
    hide HostFrom, HostText, HostOk, SchemeFrom, All;
    HostFinds(p.rest);
    var t, host := PrefixText(p), HostText(p.rest);
    if p.prefix == "" {
      assert t == host;
    } else if p.prefix == "//" {
      assert t[..2] == "//" && t[2..] == host;
    } else {
      var scheme := p.prefix[..|p.prefix| - 3];
      assert p.prefix == scheme + "://";
      SchemeFromFinds(scheme, host);
    }
  }

  lemma {:induction false} SpaceFinds(t: string, n: nat, k: nat)
    requires k <= n <= |t| && MatchPrefix(t[k..]).Some?
    ensures MatchSpace(t, n).Some?
    decreases n
  {
    hide MatchPrefix;
    if k < n {
      SpaceFinds(t, n - 1, k);
    }
  }

  lemma MatchFinds(p: Parts)
    requires WellFormed(p)
    ensures Match(Text(p)).Some?
  {
    hide MatchPrefix, PrefixText, PrefixOk, MatchSpace, Leading, All;
    PrefixFinds(p.rest);
    Start(p.space, Space, PrefixText(p.rest));
    SpaceFinds(Text(p), Leading(Text(p), Space), |p.space|);
  }

  /** A string matches exactly if it can be cut into well-formed parts, and what matches are such parts. */
  lemma MatchExactly(s: string)
    ensures Match(s).Some? <==> exists p :: WellFormed(p) && Text(p) == s
    ensures Match(s).Some? ==> WellFormed(Match(s).value) && Text(Match(s).value) == s
  {
    SpaceSound(s, Leading(s, Space));
    hide MatchSpace, WellFormed, Text, Leading;
    if p :| WellFormed(p) && Text(p) == s {
      MatchFinds(p);
    }
  }

  // What a host and whatever comes after it match

  /** Something that can follow a whole host. */
  ghost predicate TailGood(tail: string) {
    && MatchPort(tail).Some?
    && (tail == "" || !In(tail[0], Host))
    && !(|tail| >= 2 && tail[..2] == "//")
    && !(|tail| >= 3 && tail[..3] == "://")
  }

  ghost predicate IsHost(host: string) {
    host != "" && All(host, Host)
  }

  function Found(host: string, tail: string): (p: HostPart)
    requires MatchPort(tail).Some?
  {
    HostPart(host, MatchPort(tail).value)
  }

  /** A string of one kind in front of a character of another kind is all that is taken. */
  lemma {:induction false} StartExactly(a: string, kind: CharClass, b: string)
    requires All(a, kind) && (b == "" || !In(b[0], kind))
    ensures Leading(a + b, kind) == |a| && (a + b)[..|a|] == a && (a + b)[|a|..] == b
  {
    if a == "" {
      assert a + b == b;
    } else {
      StartExactly(a[1..], kind, b);
      assert (a + b)[1..] == a[1..] + b;
    }
  }

  lemma HostMatches(host: string, tail: string)
    requires IsHost(host) && TailGood(tail)
    ensures HostFrom(host + tail) == Some(Found(host, tail))
  {
    StartExactly(host, Host, tail);
    hide Leading, All, MatchPort;
  }

  /** A scheme of n characters could end here. */
  predicate SchemeAt(t: string, n: nat) {
    n + 3 <= |t| && t[n..n + 3] == "://"
  }

  lemma {:induction false} NoSchemeUpTo(t: string, n: nat)
    requires n <= |t| && forall k: nat :: 0 < k <= n ==> !SchemeAt(t, k)
    ensures MatchScheme(t, n) == None
    decreases n
  {
    hide HostFrom;
    if n > 0 {
      assert !SchemeAt(t, n);
      NoSchemeUpTo(t, n - 1);
    }
  }

  lemma NoSchemeAt(host: string, tail: string, k: nat)
    requires IsHost(host) && TailGood(tail) && 0 < k <= |host|
    ensures !SchemeAt(host + tail, k)
  {
    hide MatchPort;
    var t := host + tail;
    if k < |host| {
      assert t[k] == host[k] && In(host[k], Host);
      assert k + 3 <= |t| ==> t[k..k + 3][0] == t[k];
    } else {
      assert k + 3 <= |t| ==> t[k..k + 3] == tail[..3];
    }
  }

  lemma SameClass(t: string)
    ensures All(t, Host) <==> All(t, Scheme)
    ensures Leading(t, Host) == Leading(t, Scheme)
  {
    LeadingMost(t, Host, Leading(t, Scheme));
    LeadingMost(t, Scheme, Leading(t, Host));
  }

  lemma BareLeads(host: string, tail: string)
    requires IsHost(host) && TailGood(tail)
    ensures Leading(host + tail, Scheme) == |host| && (host + tail != "" && (host + tail)[0] != '/')
  {
    hide Leading, MatchPort;
    StartExactly(host, Host, tail);
    SameClass(host + tail);
    assert (host + tail)[0] == host[0] && In(host[0], Host);
  }

  lemma NoSchemeAnywhere(host: string, tail: string)
    requires IsHost(host) && TailGood(tail)
    ensures MatchScheme(host + tail, |host|) == None
  {
    hide MatchScheme, IsHost, TailGood, SchemeAt;
    forall k: nat | 0 < k <= |host| ensures !SchemeAt(host + tail, k) {
      NoSchemeAt(host, tail, k);
    }
    NoSchemeUpTo(host + tail, |host|);
  }

  /** Without a prefix, nothing is taken for a scheme. */
  lemma BareMatches(host: string, tail: string)
    requires IsHost(host) && TailGood(tail)
    ensures MatchPrefix(host + tail) == Some(PrefixPart("", Found(host, tail)))
  {
    hide MatchScheme, HostFrom, IsHost, MatchPort;
    BareLeads(host, tail);
    NoSchemeAnywhere(host, tail);
    HostMatches(host, tail);
    hide TailGood;
    PrefixIsBare(host + tail, Found(host, tail));
  }

  lemma PrefixIsBare(t: string, p: HostPart)
    requires MatchScheme(t, Leading(t, Scheme)) == None && HostFrom(t) == Some(p) && t != "" && t[0] != '/'
    ensures MatchPrefix(t) == Some(PrefixPart("", p))
  {
    hide MatchScheme, HostFrom, Leading;
    assert |t| >= 2 ==> t[..2][0] == t[0];
  }

  lemma SlashesMatch(host: string, tail: string)
    requires IsHost(host) && TailGood(tail)
    ensures MatchPrefix("//" + (host + tail)) == Some(PrefixPart("//", Found(host, tail)))
  {
    HostMatches(host, tail);
    hide HostFrom, Found, All, MatchPort;
    var t := host + tail;
    assert ("//" + t)[0] == '/' && ("//" + t)[..2] == "//" && ("//" + t)[2..] == t;
    assert Leading("//" + t, Scheme) == 0;
    assert SchemeFrom("//" + t) == None;
  }

  lemma SchemeMatches(scheme: string, host: string, tail: string)
    requires IsHost(host) && TailGood(tail) && scheme != "" && All(scheme, Scheme)
    ensures MatchPrefix(scheme + "://" + (host + tail)) == Some(PrefixPart(scheme + "://", Found(host, tail)))
  {
    hide HostFrom, All, MatchPort;
    HostMatches(host, tail);
    var t := host + tail;
    StartExactly(scheme, Scheme, "://" + t);
    assert scheme + "://" + t == scheme + ("://" + t);
    hide Found;
    SchemeTaken(scheme, t, Found(host, tail));
  }

  lemma SchemeTaken(scheme: string, t: string, p: HostPart)
    requires scheme != "" && Leading(scheme + "://" + t, Scheme) == |scheme| && HostFrom(t) == Some(p)
    ensures MatchPrefix(scheme + "://" + t) == Some(PrefixPart(scheme + "://", p))
  {
    hide HostFrom, Leading;
    var all, n := scheme + "://" + t, |scheme|;
    assert all[n..n + 3] == "://" && all[n + 3..] == t && all[..n + 3] == scheme + "://";
  }

  /** Where no host can start, nothing matches. */
  lemma NoMatch(t: string)
    requires t == "" || (!In(t[0], Host) && !(|t| >= 2 && t[..2] == "//"))
    ensures MatchPrefix(t) == None
  {
    SameClass(t);
    assert Leading(t, Host) == 0;
    hide Leading;
    assert MatchScheme(t, 0) == None && MatchHost(t, 0) == None;
    hide MatchHost, MatchScheme;
  }

  // Leading space

  lemma {:induction false} LeadingWithin(a: string, kind: CharClass, b: string)
    requires b == "" || !In(b[0], kind)
    ensures Leading(a + b, kind) <= |a|
  {
    hide In;
    if a == "" {
      assert a + b == b;
    } else {
      assert (a + b)[1..] == a[1..] + b;
      LeadingWithin(a[1..], kind, b);
    }
  }

  lemma SpaceStep(t: string, n: nat)
    requires n <= |t|
    ensures MatchSpace(t, n) ==
      var rest := MatchPrefix(t[n..]);
      if rest.Some? then Some(Parts(t[..n], rest.value)) else if n > 0 then MatchSpace(t, n - 1) else None
  {
    hide MatchPrefix;
  }

  /** Where the host starts that is found in a host with n characters of space in front. */
  function HostStart(host: string, n: nat): (j: nat)
    requires host != "" && n <= |host|
    ensures j < |host| && j <= n
  {
    if n == |host| then n - 1 else n
  }

  lemma HostSlices(host: string, tail: string, j: nat)
    requires j <= |host|
    ensures (host + tail)[j..] == host[j..] + tail && (host + tail)[..j] == host[..j]
    ensures (host + tail)[|host|..] == tail
  {
  }

  lemma RestOfHost(host: string, j: nat)
    requires IsHost(host) && j < |host|
    ensures IsHost(host[j..])
  {
  }

  lemma NoMatchAtTail(tail: string)
    requires TailGood(tail)
    ensures MatchPrefix(tail) == None
  {
    hide MatchPrefix, MatchPort;
    NoMatch(tail);
  }

  /** Without a prefix, space at the start of the host is skipped, all but the last character of it. */
  lemma BareSpace(host: string, tail: string, n: nat)
    requires IsHost(host) && TailGood(tail) && n <= |host|
    ensures host != "" && MatchPort(tail).Some?
    ensures var j := HostStart(host, n);
            && IsHost(host[j..])
            && MatchSpace(host + tail, n) == Some(Parts(host[..j], PrefixPart("", Found(host[j..], tail))))
  {
    hide MatchSpace, MatchPrefix, MatchPort, All, In;
    var j, t := HostStart(host, n), host + tail;
    HostSlices(host, tail, j);
    RestOfHost(host, j);
    SpaceStep(t, n);
    SpaceStep(t, j);
    BareMatches(host[j..], tail);
    NoMatchAtTail(tail);
    hide Found, TailGood;
  }

  lemma SchemeSlices(scheme: string, rest: string, j: nat)
    requires j < |scheme|
    ensures (scheme + "://" + rest)[j..] == scheme[j..] + "://" + rest
    ensures (scheme + "://" + rest)[|scheme|..] == "://" + rest
  {
  }

  lemma RestOfScheme(scheme: string, j: nat)
    requires j < |scheme| && All(scheme, Scheme)
    ensures All(scheme[j..], Scheme)
  {
  }

  lemma NoMatchAtColon(rest: string)
    ensures MatchPrefix("://" + rest) == None
  {
    hide MatchPrefix;
    assert ("://" + rest)[0] == ':' && ("://" + rest)[..2][0] == ':';
    NoMatch("://" + rest);
  }

  lemma SchemeSpace(scheme: string, host: string, tail: string, n: nat)
    requires IsHost(host) && TailGood(tail) && scheme != "" && All(scheme, Scheme) && n <= |scheme|
    ensures MatchPort(tail).Some?
    ensures var p := MatchSpace(scheme + "://" + (host + tail), n);
            p.Some? && p.value.rest.rest == Found(host, tail)
  {
    hide MatchSpace, MatchPrefix, MatchPort, IsHost, All;
    var j, t := HostStart(scheme, n), scheme + "://" + (host + tail);
    SchemeSlices(scheme, host + tail, j);
    RestOfScheme(scheme, j);
    SpaceStep(t, n);
    SpaceStep(t, j);
    SchemeMatches(scheme[j..], host, tail);
    NoMatchAtColon(host + tail);
    hide Found, TailGood;
  }

  lemma SpaceIsScheme(space: string, scheme: string)
    requires All(space, Space) && All(scheme, Scheme)
    ensures All(space + scheme, Scheme)
  {
  }

  lemma MatchIs(t: string)
    ensures Match(t) == MatchSpace(t, Leading(t, Space))
  {
    hide MatchSpace, Leading;
  }

  /** With // or a scheme in front, the host is found whole. */
  lemma PrefixedMatch(space: string, prefix: string, host: string, tail: string)
    requires All(space, Space) && IsPrefix(prefix) && prefix != "" && IsHost(host) && TailGood(tail)
    ensures var m := Match(space + prefix + (host + tail)); m.Some? && m.value.rest.rest == Found(host, tail)
  {
    var all := space + prefix + (host + tail);
    hide MatchSpace, MatchPrefix, MatchPort, IsHost, TailGood;
    MatchIs(all);
    if prefix == "//" {
      assert all == space + ("//" + (host + tail));
      StartExactly(space, Space, "//" + (host + tail));
      SpaceStep(all, |space|);
      SlashesMatch(host, tail);
    } else {
      var scheme := prefix[..|prefix| - 3];
      assert prefix == scheme + "://";
      SpaceIsScheme(space, scheme);
      assert all == space + scheme + "://" + (host + tail) == space + scheme + ("://" + (host + tail));
      LeadingWithin(space + scheme, Space, "://" + (host + tail));
      SchemeSpace(space + scheme, host, tail, Leading(all, Space));
    }
  }

  /** Nothing of the host is taken for leading space. */
  predicate Kept(prefix: string, host: string)
    requires host != ""
  {
    prefix != "" || !In(host[0], Space) || |host| == 1
  }

  /** Without one, it is found whole exactly if it does not start with space, or is one character long. */
  lemma BareMatch(space: string, host: string, tail: string) returns (j: nat)
    requires All(space, Space) && IsHost(host) && TailGood(tail)
    ensures j < |host| && (j == 0 <==> Kept("", host))
    ensures var m := Match(space + host + tail); m.Some? && m.value.rest.rest == Found(host[j..], tail)
  {
    hide MatchSpace, MatchPort, IsHost, TailGood, Leading, All;
    var whole := space + host;
    SpaceAndHost(space, host, tail);
    var all := whole + tail;
    var n := Leading(all, Space);
    assert all[..|space|] == space && all[|space|] == host[0];
    LeadingMost(all, Space, |space|);
    LeadsPast(all, |space|);
    LeadingWithin(whole, Space, tail);
    var k := HostStart(whole, n);
    j := k - |space|;
    assert whole[k..] == host[j..];
    BareSpace(whole, tail, n);
    MatchIs(all);
    hide In;
  }

  lemma SpaceAndHost(space: string, host: string, tail: string)
    requires All(space, Space) && IsHost(host) && TailGood(tail)
    ensures host != "" && IsHost(space + host) && (tail == "" || !In(tail[0], Space))
  {
    hide MatchPort;
  }

  lemma LeadsPast(t: string, k: nat)
    requires k < |t| && k <= Leading(t, Space)
    ensures Leading(t, Space) > k <==> In(t[k], Space)
  {
    var n := Leading(t, Space);
    assert n > k ==> t[..n][k] == t[k];
  }

  // The URI object

  /** The fields of a URI. */
  datatype UriValue = UriValue(hostPort: string, port: int, topic: string)

  datatype ParseResult = Parsed | NoHost | PortOutOfRange

  /** getURIString. */
  function UriString(u: UriValue): (s: string) {
    u.hostPort + "/" + u.topic
  }

  /**
    What `parse` makes of an object: a port or a topic that is not there leaves the old one, and a
    port too large for stoi stops it with only the host replaced.
   */
  function ParseInto(u: UriValue, s: string): (r: (UriValue, ParseResult)) {
    var m := Match(s);
    if m.None? then (u, NoHost) else
    var p := m.value.rest.rest;
    var u1 := u.(hostPort := p.host + PortText(p.rest.port));
    if p.rest.port.Some? && Value(p.rest.port.value) >= INT32_LIMIT then (u1, PortOutOfRange) else
    (UriValue(u1.hostPort,
              if p.rest.port.Some? then Value(p.rest.port.value) else u.port,
              if p.rest.rest.rest.topic.Some? then p.rest.rest.rest.topic.value else u.topic), Parsed)
  }

  class URI {
    var hostPort: string
    var port: int
    var topic: string

    constructor ()
      ensures State() == UriValue("", 0, "")
    {
      hostPort, port, topic := "", 0, "";
    }

    function State(): UriValue
      reads this
    {
      UriValue(hostPort, port, topic)
    }

    method Parse(s: string) returns (r: ParseResult)
      modifies this
      ensures (State(), r) == ParseInto(old(State()), s)
    {
      var m := Match(s);
      if m.None? {
        return NoHost;
      }
      var parts := m.value.rest.rest;
      hostPort := parts.host + PortText(parts.rest.port);
      if parts.rest.port.Some? {
        var value := Value(parts.rest.port.value);
        if value >= INT32_LIMIT {
          return PortOutOfRange;
        }
        port := value;
      }
      if parts.rest.rest.rest.topic.Some? {
        topic := parts.rest.rest.rest.topic.value;
      }
      return Parsed;
    }
  }

  // Round trip

  /** What can be written behind a host: a port, a slash with a topic that may be empty, and space. */
  datatype Written = Written(host: string, port: Option<string>, topic: Option<string>, end: string)

  function RestText(w: Written): string {
    (if w.topic.Some? then "/" + w.topic.value else "") + w.end
  }

  function TailOf(w: Written): string {
    PortText(w.port) + RestText(w)
  }

  function HostPortOf(w: Written): string {
    w.host + PortText(w.port)
  }

  function WrittenText(w: Written): string {
    w.host + TailOf(w)
  }

  /** Space at the end counts as a part of the host if nothing stands between them. */
  ghost predicate WrittenOk(w: Written) {
    && IsHost(w.host)
    && (w.port.Some? ==> w.port.value != "" && All(w.port.value, Digit))
    && (w.topic.Some? ==> All(w.topic.value, Topic))
    && All(w.end, Space) && (w.end == "" || w.port.Some? || w.topic.Some?)
  }

  function TopicPartOf(w: Written): TopicPart {
    TopicPart(if w.topic.Some? && w.topic.value != "" then w.topic else None, w.end)
  }

  function PortPartOf(w: Written): PortPart {
    PortPart(w.port, SlashPart(if w.topic.Some? then "/" else "", TopicPartOf(w)))
  }

  lemma TopicMatches(topic: string, end: string)
    requires All(topic, Topic) && All(end, Space)
    ensures TopicFrom(topic + end) == Some(TopicPart(if topic != "" then Some(topic) else None, end))
  {
    StartExactly(topic, Topic, end);
    StartExactly(end, Space, "");
    assert end + "" == end;
    hide Leading, All;
  }

  lemma EndMatches(end: string)
    requires All(end, Space)
    ensures TopicFrom(end) == Some(TopicPart(None, end)) && (end == "" || In(end[0], Space))
  {
    TopicMatches("", end);
    assert "" + end == end;
    hide TopicFrom;
  }

  lemma SlashTaken(t: string)
    requires TopicFrom(t).Some?
    ensures MatchSlash("/" + t) == Some(SlashPart("/", TopicFrom(t).value))
  {
    hide TopicFrom;
    assert ("/" + t)[1..] == t;
  }

  lemma SlashMissing(t: string)
    requires TopicFrom(t).Some? && (t == "" || t[0] != '/')
    ensures MatchSlash(t) == Some(SlashPart("", TopicFrom(t).value))
  {
    hide TopicFrom;
  }

  lemma RestMatches(w: Written)
    requires WrittenOk(w)
    ensures MatchSlash(RestText(w)) == Some(PortPartOf(w).rest)
    ensures RestText(w) == "" || !In(RestText(w)[0], Digit)
  {
    hide TopicFrom, MatchSlash, All;
    EndMatches(w.end);
    if w.topic.Some? {
      TopicMatches(w.topic.value, w.end);
      SlashTaken(w.topic.value + w.end);
      assert RestText(w) == "/" + (w.topic.value + w.end);
    } else {
      SlashMissing(w.end);
      assert RestText(w) == w.end;
    }
  }

  lemma DigitsMatch(digits: string, tail: string)
    requires digits != "" && All(digits, Digit) && (tail == "" || !In(tail[0], Digit)) && MatchSlash(tail).Some?
    ensures DigitsFrom(digits + tail) == Some(PortPart(Some(digits), MatchSlash(tail).value))
  {
    StartExactly(digits, Digit, tail);
    hide Leading, All, MatchSlash;
  }

  lemma PortMatches(w: Written)
    requires WrittenOk(w)
    ensures MatchPort(TailOf(w)) == Some(PortPartOf(w))
  {
    hide MatchSlash, All, In, DigitsFrom, RestText, TopicPartOf;
    RestMatches(w);
    if w.port.Some? {
      DigitsMatch(w.port.value, RestText(w));
      assert TailOf(w) == ":" + (w.port.value + RestText(w));
    } else {
      assert TailOf(w) == RestText(w);
      RestStart(w);
    }
  }

  lemma RestStart(w: Written)
    requires WrittenOk(w)
    ensures RestText(w) == "" || (RestText(w)[0] != ':' && !(|RestText(w)| >= 2 && RestText(w)[1] == '/'))
    ensures RestText(w) != "" && w.port.None? ==> RestText(w)[0] == '/'
  {
    assert w.end == "" || In(w.end[0], Space);
    assert |w.end| > 1 ==> In(w.end[1], Space);
    if w.topic.Some? && w.topic.value != "" {
      assert In(w.topic.value[0], Topic) && RestText(w)[1] == w.topic.value[0];
    }
  }

  lemma TailIsGood(w: Written)
    requires WrittenOk(w)
    ensures TailGood(TailOf(w)) && Found(w.host, TailOf(w)) == HostPart(w.host, PortPartOf(w))
  {
    hide MatchPort, All, RestText, PortPartOf;
    PortMatches(w);
    TailStart(w);
  }

  lemma TailStart(w: Written)
    requires WrittenOk(w)
    ensures var t := TailOf(w);
            && (t == "" || !In(t[0], Host))
            && !(|t| >= 2 && t[..2] == "//") && !(|t| >= 3 && t[..3] == "://")
  {
    hide RestText;
    RestStart(w);
    var t := TailOf(w);
    if w.port.Some? {
      assert In(w.port.value[0], Digit) && t[0] == ':' && t[1] == w.port.value[0];
    } else {
      assert t == RestText(w);
    }
    assert |t| >= 2 ==> t[..2][0] == t[0] && t[..2][1] == t[1];
    assert |t| >= 3 ==> t[..3][0] == t[0] && t[..3][1] == t[1];
  }

  /** What parsing gives if the parts written are the ones that match. */
  function Expected(u: UriValue, w: Written): (r: (UriValue, ParseResult)) {
    if w.port.Some? && Value(w.port.value) >= INT32_LIMIT then (u.(hostPort := HostPortOf(w)), PortOutOfRange)
    else (UriValue(HostPortOf(w), if w.port.Some? then Value(w.port.value) else u.port,
                   if w.topic.Some? && w.topic.value != "" then w.topic.value else u.topic), Parsed)
  }

  lemma ParsedAs(u: UriValue, s: string, w: Written)
    requires Match(s).Some? && Match(s).value.rest.rest == HostPart(w.host, PortPartOf(w))
    ensures ParseInto(u, s) == Expected(u, w)
  {
    hide Match;
  }

  lemma ExpectedHost(u: UriValue, w: Written, part: string)
    ensures Expected(u, w).0.hostPort == HostPortOf(w)
    ensures |part| != |w.host| ==> Expected(u, w.(host := part)).0.hostPort != HostPortOf(w)
  {
  }

  /**
    Whatever was written is parsed back: any host, port and topic, present or not, with space, // or any
    scheme in front. Without a prefix, exactly if the host does not start with space or is one character
    long; and where that fails, the host itself comes out wrong.
   */
  lemma WrittenRoundTrip(u: UriValue, space: string, prefix: string, w: Written)
    requires All(space, Space) && IsPrefix(prefix) && WrittenOk(w)
    ensures var r := ParseInto(u, space + prefix + WrittenText(w));
            && (Kept(prefix, w.host) ==> r == Expected(u, w))
            && (r.0.hostPort == HostPortOf(w) <==> Kept(prefix, w.host))
  {
    hide *;
    HostOf(w);
    if prefix != "" {
      PrefixedWritten(u, space, prefix, w);
    } else {
      BareWritten(u, space, w);
      assert space + "" + WrittenText(w) == space + WrittenText(w);
    }
    KeptIs(prefix, w.host);
    ExpectedHost(u, w, w.host);
  }

  lemma HostOf(w: Written)
    requires WrittenOk(w)
    ensures w.host != "" && IsHost(w.host)
  {
  }

  lemma KeptIs(prefix: string, host: string)
    requires host != ""
    ensures Kept(prefix, host) <==> prefix != "" || Kept("", host)
  {
  }

  lemma PrefixedWritten(u: UriValue, space: string, prefix: string, w: Written)
    requires All(space, Space) && IsPrefix(prefix) && prefix != "" && WrittenOk(w)
    ensures ParseInto(u, space + prefix + WrittenText(w)) == Expected(u, w)
  {
    assert WrittenText(w) == w.host + TailOf(w);
    hide *;
    HostOf(w);
    TailIsGood(w);
    PrefixedMatch(space, prefix, w.host, TailOf(w));
    ParsedAs(u, space + prefix + WrittenText(w), w);
  }

  lemma BareWritten(u: UriValue, space: string, w: Written)
    requires All(space, Space) && WrittenOk(w)
    ensures w.host != "" && (Kept("", w.host) ==> ParseInto(u, space + WrittenText(w)) == Expected(u, w))
    ensures ParseInto(u, space + WrittenText(w)).0.hostPort == HostPortOf(w) <==> Kept("", w.host)
  {
    assert space + WrittenText(w) == space + w.host + TailOf(w);
    hide *;
    HostOf(w);
    TailIsGood(w);
    var j := BareMatch(space, w.host, TailOf(w));
    var part := w.host[j..];
    SameTail(w, part);
    ParsedAs(u, space + WrittenText(w), w.(host := part));
    ExpectedHost(u, w, part);
    assert j == 0 ==> part == w.host;
  }

  lemma SameTail(w: Written, part: string)
    requires MatchPort(TailOf(w)).Some? && Found(w.host, TailOf(w)) == HostPart(w.host, PortPartOf(w))
    ensures Found(part, TailOf(w)) == HostPart(part, PortPartOf(w)) && PortPartOf(w.(host := part)) == PortPartOf(w)
  {
    hide MatchPort, TailOf;
  }

  /** What getURIString prints, with a topic that may be empty. */
  function PrintedUri(host: string, port: Option<string>, topic: string): Written {
    Written(host, port, Some(topic), "")
  }

  lemma PrintedText(u: UriValue, host: string, port: Option<string>, topic: string)
    requires u.hostPort == HostPortOf(PrintedUri(host, port, topic)) && u.topic == topic
    ensures UriString(u) == WrittenText(PrintedUri(host, port, topic))
  {
    assert host + PortText(port) + "/" + topic == host + (PortText(port) + ("/" + topic + ""));
  }

  /** Any URI that getURIString prints for a host, port and topic is parsed back behind // or any scheme. */
  lemma PrefixedRoundTrip(u: UriValue, v: UriValue, scheme: string, host: string, port: Option<string>, topic: string)
    requires WrittenOk(PrintedUri(host, port, topic)) && All(scheme, Scheme)
    requires v.hostPort == HostPortOf(PrintedUri(host, port, topic)) && v.topic == topic
    ensures ParseInto(u, "//" + UriString(v)) == Expected(u, PrintedUri(host, port, topic))
    ensures scheme != "" ==> ParseInto(u, scheme + "://" + UriString(v)) == Expected(u, PrintedUri(host, port, topic))
  {
    var w := PrintedUri(host, port, topic);
    PrintedText(v, host, port, topic);
    assert (scheme + "://")[..|scheme|] == scheme && (scheme + "://")[|scheme|..] == "://";
    assert All("", Space) && (scheme != "" ==> IsPrefix(scheme + "://")) && IsPrefix("//");
    hide ParseInto, WrittenText, Expected, All, IsPrefix, WrittenOk, UriString, PrintedUri;
    assert "" + "//" == "//" && "" + (scheme + "://") == scheme + "://";
    WrittenRoundTrip(u, "", "//", w);
    if scheme != "" {
      WrittenRoundTrip(u, "", scheme + "://", w);
    }
  }

  /** Without a prefix, exactly if the host does not start with space or is one character long. */
  lemma BareRoundTrip(u: UriValue, v: UriValue, host: string, port: Option<string>, topic: string)
    requires WrittenOk(PrintedUri(host, port, topic))
    requires v.hostPort == HostPortOf(PrintedUri(host, port, topic)) && v.topic == topic
    ensures !In(host[0], Space) || |host| == 1 ==>
      ParseInto(u, UriString(v)) == Expected(u, PrintedUri(host, port, topic))
    ensures ParseInto(u, UriString(v)).0.hostPort == v.hostPort <==> !In(host[0], Space) || |host| == 1
  {
    var w := PrintedUri(host, port, topic);
    PrintedText(v, host, port, topic);
    assert All("", Space) && "" + "" + WrittenText(w) == WrittenText(w);
    hide ParseInto, WrittenText, Expected, All, WrittenOk, UriString, HostPortOf, In;
    WrittenRoundTrip(u, "", "", w);
  }

  // What a parse fails on

  lemma {:induction false} DigitsAreGreedy(t: string, n: nat, k: nat) returns (m: nat)
    requires 0 < k <= n <= |t| && MatchSlash(t[k..]).Some?
    ensures k <= m <= n && MatchDigits(t, n).Some? && MatchDigits(t, n).value.port == Some(t[..m])
    decreases n
  {
    hide MatchSlash;
    if MatchSlash(t[n..]).Some? {
      m := n;
    } else {
      m := DigitsAreGreedy(t, n - 1, k);
    }
  }

  /** The port that is found goes on from the port of any cut. */
  lemma PortIsGreedy(p: PortPart)
    requires TailOk(p) && p.port.Some?
    ensures var found := MatchPort(TailText(p));
            && found.Some? && found.value.port.Some?
            && All(found.value.port.value, Digit) && p.port.value <= found.value.port.value
  {
    hide MatchSlash, SlashText, SlashOk, MatchDigits, Leading;
    SlashFinds(p.rest);
    var digits, rest := p.port.value, SlashText(p.rest);
    var t := digits + rest;
    assert TailText(p)[0] == ':' && TailText(p)[1..] == t;
    Start(digits, Digit, rest);
    LeadingAll(t, Digit);
    var m := DigitsAreGreedy(t, Leading(t, Digit), |digits|);
    assert t[..m][..|digits|] == digits;
    assert forall i :: 0 <= i < m ==> t[..m][i] == t[..Leading(t, Digit)][i];
  }

  lemma LeadingAll(t: string, kind: CharClass)
    ensures Leading(t, kind) <= |t| && All(t[..Leading(t, kind)], kind)
  {
  }

  lemma CutIsGood(p: PortPart)
    requires TailOk(p) && p.port.Some?
    ensures TailGood(TailText(p))
  {
    hide MatchPort, SlashText, SlashOk;
    PortIsGreedy(p);
    var t := TailText(p);
    assert t[0] == ':' && t[1] == p.port.value[0] && In(p.port.value[0], Digit);
    assert t[..2][0] == t[0] && (|t| >= 3 ==> t[..3][1] == t[1]);
  }

  /** If a string can be cut so that it has a port, a port is found, and no smaller one. */
  lemma PortIsFound(p: Parts)
    requires WellFormed(p) && p.rest.rest.rest.port.Some?
    ensures var m := Match(Text(p));
            && m.Some? && m.value.rest.rest.rest.port.Some?
            && Value(p.rest.rest.rest.port.value) <= Value(m.value.rest.rest.rest.port.value)
  {
    hide *;
    var host, tail := p.rest.rest.host, TailText(p.rest.rest.rest);
    CutParts(p);
    PortIsGreedy(p.rest.rest.rest);
    CutIsGood(p.rest.rest.rest);
    FoundValue(p.rest.rest.rest.port.value, MatchPort(tail).value.port.value);
    if p.rest.prefix != "" {
      PrefixedMatch(p.space, p.rest.prefix, host, tail);
      FoundRest(host, tail);
    } else {
      var j := BareMatch(p.space, host, tail);
      FoundRest(host[j..], tail);
    }
  }

  lemma CutParts(p: Parts)
    requires WellFormed(p)
    ensures All(p.space, Space) && IsPrefix(p.rest.prefix) && IsHost(p.rest.rest.host) && TailOk(p.rest.rest.rest)
    ensures var host, tail := p.rest.rest.host, TailText(p.rest.rest.rest);
            && Text(p) == p.space + p.rest.prefix + (host + tail)
            && (p.rest.prefix == "" ==> Text(p) == p.space + host + tail)
  {
    hide TailText, TailOk, All, IsPrefix;
  }

  lemma FoundRest(host: string, tail: string)
    requires MatchPort(tail).Some?
    ensures Found(host, tail).rest == MatchPort(tail).value
  {
    hide MatchPort;
  }

  lemma FoundValue(a: string, b: string)
    requires All(b, Digit) && a <= b
    ensures 0 <= Value(a) <= Value(b)
  {
    assert forall i :: 0 <= i < |b| ==> In(b[i], Digit);
    ValueGrows(b, |a|);
    assert b[..|a|] == a;
  }

  /** A way to cut a string into well-formed parts. */
  ghost predicate Cut(p: Parts, s: string) {
    WellFormed(p) && Text(p) == s
  }

  ghost predicate HasPort(s: string) {
    exists p :: Cut(p, s) && p.rest.rest.rest.port.Some?
  }

  ghost predicate HasLargePort(s: string) {
    exists p :: Cut(p, s) && p.rest.rest.rest.port.Some? && Value(p.rest.rest.rest.port.value) >= INT32_LIMIT
  }

  lemma PortFound(s: string)
    ensures HasPort(s) <==> Match(s).Some? && Match(s).value.rest.rest.rest.port.Some?
    ensures HasLargePort(s) <==> HasPort(s) && Value(Match(s).value.rest.rest.rest.port.value) >= INT32_LIMIT
  {
    MatchExactly(s);
    hide Match, WellFormed, Text, Value;
    assert Match(s).Some? ==> Cut(Match(s).value, s);
    forall p | Cut(p, s) && p.rest.rest.rest.port.Some?
      ensures Match(s).Some? && Match(s).value.rest.rest.rest.port.Some?
      ensures Value(p.rest.rest.rest.port.value) <= Value(Match(s).value.rest.rest.rest.port.value)
    {
      PortIsFound(p);
    }
  }

  /**
    Whatever the object held before: there is no host exactly if the string cannot be cut into
    well-formed parts, and the port is out of range exactly if it can be cut so that the port is 2^31 or
    more; nothing else fails.
   */
  lemma ParseFailsExactly(u: UriValue, s: string)
    ensures ParseInto(u, s).1 == NoHost <==> !exists p :: Cut(p, s)
    ensures ParseInto(u, s).1 == PortOutOfRange <==> HasLargePort(s)
  {
    MatchExactly(s);
    PortFound(s);
    hide Match, WellFormed, Text, Value, HasPort, HasLargePort;
    assert (exists p :: Cut(p, s)) <==> exists p :: WellFormed(p) && Text(p) == s by {
      if p :| WellFormed(p) && Text(p) == s {
        assert Cut(p, s);
      }
    }
  }

  /** A port stays within 32 bits. */
  lemma PortIsUint32(u: UriValue, s: string)
    requires 0 <= u.port < UINT32_LIMIT
    ensures 0 <= ParseInto(u, s).0.port < UINT32_LIMIT
  {
    MatchExactly(s);
    hide Match, Text, Value;
    if Match(s).Some? && Match(s).value.rest.rest.rest.port.Some? {
      var digits := Match(s).value.rest.rest.rest.port.value;
      assert All(digits, Digit) && "" <= digits;
      FoundValue("", digits);
      NoDigits();
    }
  }

  lemma NoDigits()
    ensures Value("") == 0
  {
  }

  // What the documentation of HostPort promises

  ghost predicate HostWithPort(hostPort: string, port: int) {
    exists host, digits ::
      IsHost(host) && digits != "" && All(digits, Digit) && hostPort == host + ":" + digits && Value(digits) == port
  }

  /** HostPort contains the host and the port, if there is a port. */
  ghost predicate AsDocumented(u: UriValue) {
    u.port == 0 || HostWithPort(u.hostPort, u.port)
  }

  lemma NoColon(host: string, port: int)
    requires IsHost(host)
    ensures !HostWithPort(host, port)
  {
    assert forall i :: 0 <= i < |host| ==> In(host[i], Host);
    forall h: string, d: string ensures host != h + ":" + d {
      assert (h + ":" + d)[|h|] == ':';
    }
  }

  /** After a parse that succeeds it does exactly if the string has a port or none was set before. */
  lemma DocumentedExactly(u: UriValue, s: string)
    requires ParseInto(u, s).1 == Parsed
    ensures AsDocumented(ParseInto(u, s).0) <==> HasPort(s) || u.port == 0
  {
    MatchExactly(s);
    PortFound(s);
    hide Match, Text, Value, HasPort;
    var p := Match(s).value.rest.rest;
    assert HostOk(p) && IsHost(p.host);
    if p.rest.port.Some? {
      assert p.host + PortText(p.rest.port) == p.host + ":" + p.rest.port.value;
    } else {
      NoColon(p.host, u.port);
      assert p.host + "" == p.host;
    }
  }

  /** A port that is set before, as from the broker, does not get into HostPort. */
  lemma PresetPortIsLost()
    ensures ParseInto(UriValue("", 9092, ""), "//h/t") == (UriValue("h", 9092, "t"), Parsed)
    ensures !AsDocumented(UriValue("h", 9092, "t"))
  {
    var w := Written("h", None, Some("t"), "");
    assert WrittenOk(w) && IsPrefix("//") && All("", Space) && "" + "//" + WrittenText(w) == "//h/t";
    assert "h" + "" == "h";
    assert Expected(UriValue("", 9092, ""), w) == (UriValue("h", 9092, "t"), Parsed) && Kept("//", w.host);
    hide *;
    WrittenRoundTrip(UriValue("", 9092, ""), "", "//", w);
    NotDocumented();
  }

  lemma NotDocumented()
    ensures !AsDocumented(UriValue("h", 9092, "t"))
  {
    assert IsHost("h");
    NoColon("h", 9092);
    hide HostWithPort;
  }

  /** A port that stoi refuses: the host is replaced, port and topic are not. */
  lemma LargePortFails(u: UriValue)
    ensures ParseInto(u, "//h:2147483648/t") == (u.(hostPort := "h:2147483648"), PortOutOfRange)
  {
    var w := Written("h", Some("2147483648"), Some("t"), "");
    LargeValue();
    assert WrittenOk(w) && IsPrefix("//") && All("", Space) && Kept("//", w.host);
    LargeText(w);
    hide *;
    WrittenRoundTrip(u, "", "//", w);
    LargeExpected(u, w);
  }

  lemma LargeText(w: Written)
    requires w == Written("h", Some("2147483648"), Some("t"), "")
    ensures "" + "//" + WrittenText(w) == "//h:2147483648/t"
  {
    assert "h" + (":" + "2147483648" + ("/" + "t" + "")) == "h:2147483648/t";
  }

  lemma LargeExpected(u: UriValue, w: Written)
    requires w == Written("h", Some("2147483648"), Some("t"), "") && Value("2147483648") == INT32_LIMIT
    ensures Expected(u, w) == (u.(hostPort := "h:2147483648"), PortOutOfRange)
  {
    hide Value;
    assert "h" + (":" + "2147483648") == "h:2147483648";
  }

  lemma LargeValue()
    ensures Value("2147483648") == INT32_LIMIT
  {
    var s := "2147483648";
    assert s[..9] == "214748364" && s[..9][..8] == "21474836" && s[..9][..8][..7] == "2147483";
    assert Value("2147483") == 2147483 by {
      var t := "2147483";
      assert t[..6] == "214748" && t[..6][..5] == "21474" && t[..6][..5][..4] == "2147";
      assert Value("2147") == 2147 by {
        assert "2147"[..3] == "214" && "214"[..2] == "21" && "21"[..1] == "2" && "2"[..0] == "";
        assert Value("2") == 2;
        assert Value("21") == 21;
        assert Value("214") == 214;
      }
      assert Value("21474") == 21474;
      assert Value("214748") == 214748;
    }
    assert Value("21474836") == 21474836;
    assert Value("214748364") == 214748364;
  }

  // The list of brokers

  /** One fresh URI for every string, up to the first that cannot be parsed. */
  function ParseList(xs: seq<string>): (r: (seq<UriValue>, ParseResult)) {
    if xs == [] then ([], Parsed) else
    var first := ParseInto(UriValue("", 0, ""), xs[0]);
    if first.1 != Parsed then ([], first.1) else
    var rest := ParseList(xs[1..]);
    ([first.0] + rest.0, rest.1)
  }

  lemma {:induction false} ParseListSnoc(xs: seq<string>, x: string)
    requires ParseList(xs).1 == Parsed
    ensures var next := ParseInto(UriValue("", 0, ""), x);
            ParseList(xs + [x]) == if next.1 == Parsed then (ParseList(xs).0 + [next.0], Parsed)
                else (ParseList(xs).0, next.1)
  {
    hide ParseInto;
    if xs == [] {
      assert xs + [x] == [x] && [x][1..] == [];
      var next := ParseInto(UriValue("", 0, ""), x);
      assert [next.0] + ParseList([x][1..]).0 == [next.0] == ParseList(xs).0 + [next.0];
    } else {
      ParseListSnoc(xs[1..], x);
      assert (xs + [x])[1..] == xs[1..] + [x];
      var first, next := ParseInto(UriValue("", 0, ""), xs[0]), ParseInto(UriValue("", 0, ""), x);
      assert [first.0] + ParseList(xs[1..]).0 + [next.0] == [first.0] + (ParseList(xs[1..]).0 + [next.0]);
    }
  }

  lemma {:induction false} ParseListStops(xs: seq<string>, n: nat)
    requires n <= |xs| && ParseList(xs[..n]).1 != Parsed
    ensures ParseList(xs) == ParseList(xs[..n])
  {
    hide ParseInto;
    var first := ParseInto(UriValue("", 0, ""), xs[0]);
    if first.1 == Parsed {
      assert xs[..n][1..] == xs[1..][..n - 1];
      ParseListStops(xs[1..], n - 1);
    }
  }

  class BrokerSettings {
    var brokers: seq<UriValue>

    constructor ()
      ensures brokers == []
    {
      brokers := [];
    }

    /** An entry that cannot be parsed ends it, with the entries before it in the list. */
    method SetBrokers(text: string) returns (r: ParseResult)
      modifies this
      ensures (brokers, r) == ParseList(BrokerList.NonEmpty(BrokerList.Fields(text)))
    {
      hide ParseInto;
      brokers := [];
      var entries := BrokerList.Split(text);
      var i := 0;
      assert entries[..0] == [];
      while i < |entries|
        invariant 0 <= i <= |entries|
        invariant ParseList(entries[..i]) == (brokers, Parsed)
      {
        var uri := new URI();
        r := uri.Parse(entries[i]);
        ParseListSnoc(entries[..i], entries[i]);
        assert entries[..i + 1] == entries[..i] + [entries[i]];
        if r != Parsed {
          ParseListStops(entries, i + 1);
          return;
        }
        brokers := brokers + [uri.State()];
        i := i + 1;
      }
      assert entries[..i] == entries;
      return Parsed;
    }
  }

  /** A broker as it may be written in the list. */
  datatype Broker = Broker(space: string, prefix: string, written: Written)

  ghost predicate BrokerOk(b: Broker) {
    && All(b.space, Space) && IsPrefix(b.prefix) && WrittenOk(b.written)
    && ',' !in b.prefix && ',' !in b.written.host
    && Kept(b.prefix, b.written.host)
    && (b.written.port.Some? ==> Value(b.written.port.value) < INT32_LIMIT)
  }

  function BrokerText(b: Broker): string {
    b.space + b.prefix + WrittenText(b.written)
  }

  function BrokerValue(b: Broker): UriValue {
    Expected(UriValue("", 0, ""), b.written).0
  }

  lemma BrokerParses(b: Broker)
    requires BrokerOk(b)
    ensures ParseInto(UriValue("", 0, ""), BrokerText(b)) == (BrokerValue(b), Parsed)
    ensures BrokerText(b) != "" && ',' !in BrokerText(b)
  {
    NoComma(b);
    hide ParseInto, WrittenText;
    WrittenRoundTrip(UriValue("", 0, ""), b.space, b.prefix, b.written);
  }

  lemma NoComma(b: Broker)
    requires BrokerOk(b)
    ensures BrokerText(b) != "" && ',' !in BrokerText(b)
  {
    var w := b.written;
    assert ',' !in b.space && ',' !in w.end;
    assert w.topic.Some? ==> forall i :: 0 <= i < |w.topic.value| ==> In(w.topic.value[i], Topic);
    assert w.port.Some? ==> forall i :: 0 <= i < |w.port.value| ==> In(w.port.value[i], Digit);
  }

  /** The entries between the commas: brokers, and places where nothing is written. */
  function TextsOf(bs: seq<Option<Broker>>): (ts: seq<string>)
    ensures |ts| == |bs|
    ensures forall i :: 0 <= i < |bs| ==> ts[i] == if bs[i].Some? then BrokerText(bs[i].value) else ""
  {
    seq(|bs|, i requires 0 <= i < |bs| => if bs[i].Some? then BrokerText(bs[i].value) else "")
  }

  function ValuesOf(bs: seq<Option<Broker>>): (vs: seq<UriValue>) {
    if bs == [] then []
    else (if bs[0].Some? then [BrokerValue(bs[0].value)] else []) + ValuesOf(bs[1..])
  }

  ghost predicate BrokersOk(bs: seq<Option<Broker>>) {
    forall i :: 0 <= i < |bs| && bs[i].Some? ==> BrokerOk(bs[i].value)
  }

  lemma {:induction false} ParseTexts(bs: seq<Option<Broker>>)
    requires BrokersOk(bs)
    ensures ParseList(BrokerList.NonEmpty(TextsOf(bs))) == (ValuesOf(bs), Parsed)
  {
    hide ParseInto, BrokerOk, BrokerText, BrokerValue;
    if bs != [] {
      ParseTexts(bs[1..]);
      assert TextsOf(bs)[1..] == TextsOf(bs[1..]);
      if bs[0].Some? {
        BrokerParses(bs[0].value);
        var rest := BrokerList.NonEmpty(TextsOf(bs[1..]));
        assert ([BrokerText(bs[0].value)] + rest)[1..] == rest;
      } else {
        assert [] + BrokerList.NonEmpty(TextsOf(bs[1..])) == BrokerList.NonEmpty(TextsOf(bs[1..]));
        assert [] + ValuesOf(bs[1..]) == ValuesOf(bs[1..]);
      }
    }
  }

  /**
    A list of brokers with commas between them, and any number of commas too many, is read back as that
    list: every broker with or without space, prefix, port, slash and topic.
   */
  lemma BrokersRoundTrip(bs: seq<Option<Broker>>)
    requires BrokersOk(bs)
    ensures ParseList(BrokerList.NonEmpty(BrokerList.Fields(BrokerList.Join(TextsOf(bs))))) == (ValuesOf(bs), Parsed)
  {
    hide ParseInto, BrokerOk, BrokerText, BrokerValue;
    var ts := TextsOf(bs);
    forall i | 0 <= i < |ts| ensures ',' !in ts[i] {
      if bs[i].Some? {
        BrokerParses(bs[i].value);
      }
    }
    ParseTexts(bs);
    if bs == [] {
      assert BrokerList.Fields("") == [""] && [""][1..] == [];
    } else {
      BrokerList.FieldsOfJoin(ts);
    }
  }
}
