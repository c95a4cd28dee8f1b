/**
 * apps/scanner/scanner.go: banner-based service identification (probeService)
 * and the port enumeration of ScanPorts. Dialing, the read deadline and the
 * socket reads are abstracted: what the peer sends is given as input.
 */
module Scanner {
  import opened Wrappers
  import opened Text

  /** A substring rule of probeService's switch: keyword in the lowercased banner gives service and protocol. */
  datatype Rule = Rule(keyword: string, service: string, protocol: string)

  /** The switch cases, in the order they are tested. */
  const Rules: seq<Rule> := [
    Rule("ssh", "SSH", "SSH"),
    Rule("ftp", "FTP", "FTP"),
    Rule("http", "HTTP", "HTTP/1.1"),
    Rule("smtp", "SMTP", "SMTP"),
    Rule("mysql", "MySQL", "MySQL"),
    Rule("redis", "Redis", "Redis"),
    Rule("mongodb", "MongoDB", "MongoDB"),
    Rule("postgresql", "PostgreSQL", "PostgreSQL")
  ]

  const Unknown: string := "unknown"

  /** The index of the first rule at or after `from` whose keyword occurs in the banner. */
  function FirstMatch(banner: string, rules: seq<Rule>, from: nat): (m: Option<nat>)
    requires from <= |rules|
    ensures m.Some? ==> from <= m.value < |rules| && Contains(banner, rules[m.value].keyword)
    ensures m.Some? ==> forall j :: from <= j < m.value ==> !Contains(banner, rules[j].keyword)
    ensures m.None? ==> forall j :: from <= j < |rules| ==> !Contains(banner, rules[j].keyword)
    decreases |rules| - from
  {
    if from == |rules| then None
    else if Contains(banner, rules[from].keyword) then Some(from)
    else FirstMatch(banner, rules, from + 1)
  }

  /** The (service, protocol) pair the switch assigns to an already lowercased banner. */
  function Classify(banner: string): (string, string) {
    if Contains(banner, "ssh") then ("SSH", "SSH")
    else if Contains(banner, "ftp") then ("FTP", "FTP")
    else if Contains(banner, "http") then ("HTTP", "HTTP/1.1")
    else if Contains(banner, "smtp") then ("SMTP", "SMTP")
    else if Contains(banner, "mysql") then ("MySQL", "MySQL")
    else if Contains(banner, "redis") then ("Redis", "Redis")
    else if Contains(banner, "mongodb") then ("MongoDB", "MongoDB")
    else if Contains(banner, "postgresql") then ("PostgreSQL", "PostgreSQL")
    else (Unknown, Unknown)
  }

  /** The pair of the first rule (from the front of the table) whose keyword occurs in the banner. */
  function ClassifyBy(banner: string, rules: seq<Rule>): (string, string) {
    match FirstMatch(banner, rules, 0)
    case Some(i) => (rules[i].service, rules[i].protocol)
    case None => (Unknown, Unknown)
  }

  /** The switch is the rule table read from the front. */
  lemma ClassifyIsTable(banner: string)
    ensures Classify(banner) == ClassifyBy(banner, Rules)
  {
    var r := Rules;
    assert FirstMatch(banner, r, 8) == None;
    assert FirstMatch(banner, r, 7) == if Contains(banner, "postgresql") then Some(7) else None;
    assert FirstMatch(banner, r, 6) == if Contains(banner, "mongodb") then Some(6) else FirstMatch(banner, r, 7);
    assert FirstMatch(banner, r, 5) == if Contains(banner, "redis") then Some(5) else FirstMatch(banner, r, 6);
    assert FirstMatch(banner, r, 4) == if Contains(banner, "mysql") then Some(4) else FirstMatch(banner, r, 5);
    assert FirstMatch(banner, r, 3) == if Contains(banner, "smtp") then Some(3) else FirstMatch(banner, r, 4);
    assert FirstMatch(banner, r, 2) == if Contains(banner, "http") then Some(2) else FirstMatch(banner, r, 3);
    assert FirstMatch(banner, r, 1) == if Contains(banner, "ftp") then Some(1) else FirstMatch(banner, r, 2);
    assert FirstMatch(banner, r, 0) == if Contains(banner, "ssh") then Some(0) else FirstMatch(banner, r, 1);
  }

  /**
   * The first matching rule wins: the banner is classified by rule i exactly when
   * rule i's keyword occurs in it and no earlier keyword does.
   */
  lemma ClassifyFirstMatchWins(banner: string, i: nat)
    requires i < |Rules|
    ensures Classify(banner) == (Rules[i].service, Rules[i].protocol)
        <==> Contains(banner, Rules[i].keyword) && forall j :: 0 <= j < i ==> !Contains(banner, Rules[j].keyword)
  {
    var m := FirstMatch(banner, Rules, 0);
    if m.Some? && m.value != i {
      assert Rules[m.value].service != Rules[i].service;
    }
    if m.None? {
      assert Rules[i].service != Unknown;
    }
  }

  /** A banner no keyword occurs in is "unknown"/"unknown", and only such a banner is. */
  lemma ClassifyUnknown(banner: string)
    ensures Classify(banner) == (Unknown, Unknown)
        <==> forall j :: 0 <= j < |Rules| ==> !Contains(banner, Rules[j].keyword)
  {
    var m := FirstMatch(banner, Rules, 0);
    if m.Some? {
      assert Rules[m.value].service != Unknown;
    }
  }

  /** Every rule but http names its protocol after its service; http reports HTTP/1.1. */
  lemma ClassifyProtocol(banner: string)
    ensures var (service, protocol) := Classify(banner);
      && (service != "HTTP" ==> protocol == service)
      && (service == "HTTP" ==> protocol == "HTTP/1.1")
  {
  }

  /** What probeService returns: the service, the banner and the protocol. */
  datatype ServiceInfo = ServiceInfo(service: string, banner: string, protocol: string)

  /** A probe that fails, at dial or read, reports this. */
  const Failed: ServiceInfo := ServiceInfo(Unknown, "", Unknown)

  /** The ports probeService sends an HTTP request to before reading. */
  predicate IsHttpPort(port: int) {
    port == 80 || port == 443 || port == 8080 || port == 8443
  }

  const HttpRequest: string := "GET / HTTP/1.0\r\n\r\n"

  /**
   * reader.ReadString('\n') on the bytes the peer sent before its deadline or
   * close: the data up to and including the first newline, or an error (None)
   * when no newline arrived.
   */
  function ReadLine(data: string): (line: Option<string>)
    ensures line.None? <==> '\n' !in data
    ensures line.Some? ==> && HasPrefix(data, line.value) && line.value != []
                           && line.value[|line.value| - 1] == '\n'
                           && '\n' !in line.value[..|line.value| - 1]
  {
    if data == [] then None
    else if data[0] == '\n' then Some(['\n'])
    else match ReadLine(data[1..])
      case None => None
      case Some(rest) => Some([data[0]] + rest)
  }

  /** What probeService does: what it writes on the connection, and what it returns. */
  datatype Probe = Probe(written: string, info: ServiceInfo)

  /**
   * probeService, given whether its own dial succeeds and what the peer sends.
   * The banner is trimmed and lowercased before the rules are tried and is
   * returned in that form.
   */
  function ProbeService(port: int, dialed: bool, data: string): (p: Probe)
    ensures !dialed ==> p == Probe("", Failed)
    ensures dialed ==> p.written == (if IsHttpPort(port) then HttpRequest else "")
    ensures dialed && '\n' !in data ==> p.info == Failed
    ensures dialed && '\n' in data ==>
      && p.info.banner == ToLower(TrimSpace(ReadLine(data).value))
      && (p.info.service, p.info.protocol) == Classify(p.info.banner)
  {
    if !dialed then Probe("", Failed)
    else
      var written := if IsHttpPort(port) then HttpRequest else "";
      match ReadLine(data)
      case None => Probe(written, Failed)
      case Some(line) =>
        var banner := ToLower(TrimSpace(line));
        var (service, protocol) := Classify(banner);
        Probe(written, ServiceInfo(service, banner, protocol))
  }

  /** ToLower leaves white space and newlines alone, and lowercasing twice changes nothing. */
  lemma LowerCharFacts(c: char)
    ensures IsSpace(LowerChar(c)) == IsSpace(c)
    ensures (LowerChar(c) == '\n') == (c == '\n')
    ensures LowerChar(LowerChar(c)) == LowerChar(c)
  {
  }

  lemma ToLowerAppend(a: string, b: string)
    ensures ToLower(a + b) == ToLower(a) + ToLower(b)
  {
    var l, r := ToLower(a + b), ToLower(a) + ToLower(b);
    forall i | 0 <= i < |a + b|
      ensures l[i] == r[i]
    {
      if i < |a| {
        assert (a + b)[i] == a[i];
      } else {
        assert (a + b)[i] == b[i - |a|];
      }
    }
  }

  lemma {:induction false} ReadLineLower(data: string)
    ensures ReadLine(ToLower(data)) == (match ReadLine(data) case None => None case Some(l) => Some(ToLower(l)))
  {
    if data != [] {
      LowerCharFacts(data[0]);
      assert ToLower(data)[1..] == ToLower(data[1..]);
      ReadLineLower(data[1..]);
      assert ToLower([data[0]]) == [LowerChar(data[0])];
      if data[0] != '\n' && ReadLine(data[1..]).Some? {
        ToLowerAppend([data[0]], ReadLine(data[1..]).value);
      }
    }
  }

  /** Lowercasing keeps the white space at the start of a string. */
  lemma LeadingSpacesLower(s: string)
    ensures LeadingSpaces(ToLower(s)) == LeadingSpaces(s)
  {
    var a := LeadingSpaces(s);
    var b := LeadingSpaces(ToLower(s));
    if a < |s| {
      LowerCharFacts(s[a]);
    }
    if b < |s| {
      LowerCharFacts(s[b]);
    }
  }

  /** Lowercasing keeps the white space at the end of a string. */
  lemma TrailingStartLower(s: string)
    ensures TrailingStart(ToLower(s)) == TrailingStart(s)
  {
    var e := TrailingStart(s);
    var f := TrailingStart(ToLower(s));
    if e > 0 {
      LowerCharFacts(s[e - 1]);
    }
    if f > 0 {
      LowerCharFacts(s[f - 1]);
    }
  }

  lemma TrimLeftLower(s: string)
    ensures TrimLeft(ToLower(s)) == ToLower(TrimLeft(s))
  {
    LeadingSpacesLower(s);
    var a := LeadingSpaces(s);
    assert ToLower(s)[a..] == ToLower(s[a..]);
  }

  lemma TrimRightLower(s: string)
    ensures TrimRight(ToLower(s)) == ToLower(TrimRight(s))
  {
    TrailingStartLower(s);
    var e := TrailingStart(s);
    assert ToLower(s)[..e] == ToLower(s[..e]);
  }

  /**
   * Classification is case-insensitive: the probe's result does not change when
   * the peer's bytes are lowercased first.
   */
  lemma CaseInsensitive(port: int, dialed: bool, data: string)
    ensures ProbeService(port, dialed, ToLower(data)) == ProbeService(port, dialed, data)
  {
    ReadLineLower(data);
    assert ('\n' in data) == ('\n' in ToLower(data)) by {
      forall i | 0 <= i < |data| ensures (data[i] == '\n') == (ToLower(data)[i] == '\n') {
        LowerCharFacts(data[i]);
      }
    }
    if dialed && '\n' in data {
      var line := ReadLine(data).value;
      TrimLeftLower(line);
      TrimRightLower(TrimLeft(line));
      var b := ToLower(TrimSpace(line));
      assert ToLower(b) == b by {
        forall i | 0 <= i < |b| ensures ToLower(b)[i] == b[i] {
          LowerCharFacts(TrimSpace(line)[i]);
        }
      }
    }
  }

  lemma SliceEnds(s: string, t: string, i: nat)
    requires t != [] && i + |t| <= |s| && s[i..i + |t|] == t
    ensures s[i] == t[0] && s[i + |t| - 1] == t[|t| - 1]
  {
    assert s[i..i + |t|][0] == s[i];
    assert s[i..i + |t|][|t| - 1] == s[i + |t| - 1];
  }

  /** An occurrence of t survives trimming when t neither starts nor ends with white space. */
  lemma ContainsTrimmed(s: string, t: string)
    requires Contains(s, t) && t != [] && !IsSpace(t[0]) && !IsSpace(t[|t| - 1])
    ensures Contains(TrimSpace(s), t)
  {
    var i := ContainsWitness(s, t);
    SliceEnds(s, t, i);
    var j := TrimKeepsInner(s, i, |t|);
    var r := TrimSpace(s);
    assert r[j..j + |t|] == t;
    ContainsAt(r, t, j);
  }

  /** An occurrence of t in s is an occurrence of ToLower(t) in ToLower(s), and so is each prefix of it. */
  lemma ContainsLowerPrefix(s: string, t: string, n: nat)
    requires Contains(s, t) && n <= |t|
    ensures Contains(ToLower(s), ToLower(t)[..n])
  {
    var i := ContainsWitness(s, t);
    assert ToLower(s)[i..i + n] == ToLower(t)[..n];
    ContainsAt(ToLower(s), ToLower(t)[..n], i);
  }

  /** A greeting line containing "SSH-2.0" is identified as SSH. */
  lemma SshGreeting(port: int, data: string, greeting: string)
    requires greeting == "SSH-2.0"
    requires '\n' in data && Contains(ReadLine(data).value, greeting)
    ensures ProbeService(port, true, data).info.service == "SSH"
  {
    var line := ReadLine(data).value;
    ContainsTrimmed(line, greeting);
    ContainsLowerPrefix(TrimSpace(line), greeting, 3);
    assert ToLower(greeting)[..3] == "ssh";
  }

  /**
   * Lowercasing follows Go's on the two non-ASCII capitals whose lower case
   * is ASCII: a banner written with U+0130 for its I is still Redis.
   */
  lemma DottedCapitalIBanner(port: int)
    ensures ProbeService(port, true, "RED\U{0130}S\n").info.service == "Redis"
  {
    assert ToLower("RED\U{0130}S\n") == "redis\n";
    CaseInsensitive(port, true, "RED\U{0130}S\n");
    RedisBanner(port);
  }

  /** The lowercase banner "redis" reaches the redis case: no earlier keyword occurs in it. */
  lemma RedisBanner(port: int)
    ensures ProbeService(port, true, "redis\n").info.service == "Redis"
  {
    RedisLine();
    RedisClassify();
  }

  lemma RedisLine()
    ensures ReadLine("redis\n") == Some("redis\n")
    ensures ToLower(TrimSpace("redis\n")) == "redis"
  {
    ReadLineSingle("redis\n");
    RedisLeading();
    RedisTrailing();
    RedisLower();
  }

  lemma RedisLeading()
    ensures LeadingSpaces("redis\n") == 0
  {
  }

  lemma RedisTrailing()
    ensures TrailingStart("redis\n") == 5
  {
  }

  lemma RedisLower()
    ensures ToLower("redis") == "redis"
  {
  }

  /** A greeting of one line, its only newline at its end, is read whole. */
  lemma {:induction false} ReadLineSingle(d: string)
    requires |d| > 0 && d[|d| - 1] == '\n' && '\n' !in d[..|d| - 1]
    ensures ReadLine(d) == Some(d)
    decreases |d|
  {
    if |d| > 1 {
      assert d[0] == d[..|d| - 1][0] != '\n';
      assert d[1..][..|d| - 2] == d[..|d| - 1][1..];
      ReadLineSingle(d[1..]);
      assert ReadLine(d) == Some([d[0]] + d[1..]);
      assert [d[0]] + d[1..] == d;
    } else {
      assert d == ['\n'];
    }
  }

  lemma RedisClassify()
    ensures Classify("redis") == ("Redis", "Redis")
  {
    var b := "redis";
    MissingLetter(b, "ssh", 2);
    MissingLetter(b, "ftp", 0);
    MissingLetter(b, "http", 0);
    MissingLetter(b, "smtp", 1);
    MissingLetter(b, "mysql", 0);
    assert HasPrefix(b, "redis");
  }

  /** A keyword with a letter the banner lacks does not occur in it. */
  lemma MissingLetter(s: string, t: string, k: nat)
    requires k < |t| && t[k] !in s
    ensures !Contains(s, t)
  {
    if Contains(s, t) {
      var i := ContainsWitness(s, t);
    }
  }

  // ---------------------------------------------------------------- ScanPorts

  /** The outcome of ScanPorts' connect to one port, and, if open, of probeService's own dial and read. */
  datatype PortEnv = Refused | Accepted(probeDialed: bool, data: string)

  datatype PortInfo = PortInfo(port: int, service: string, banner: string, protocol: string)

  const FirstPort: int := 1
  const LastPort: int := 65535

  /** The callback payload for an open port: probeService's result for it. */
  function InfoFor(port: int, probeDialed: bool, data: string): PortInfo {
    var info := ProbeService(port, probeDialed, data).info;
    PortInfo(port, info.service, info.banner, info.protocol)
  }

  /** The ports lo..hi-1 whose connect succeeded, in port order; each is in the range and accepted. */
  function OpenPorts(env: int -> PortEnv, lo: int, hi: int): (ports: seq<int>)
    ensures forall i :: 0 <= i < |ports| ==> lo <= ports[i] < hi && env(ports[i]).Accepted?
    decreases hi - lo
  {
    if hi <= lo then []
    else OpenPorts(env, lo, hi - 1) + (if env(hi - 1).Accepted? then [hi - 1] else [])
  }

  /** The open ports come in strictly increasing order, so no port is reported twice. */
  lemma {:induction false} OpenPortsIncreasing(env: int -> PortEnv, lo: int, hi: int)
    ensures forall i, j :: 0 <= i < j < |OpenPorts(env, lo, hi)| ==> OpenPorts(env, lo, hi)[i] < OpenPorts(env, lo, hi)[j]
    decreases hi - lo
  {
    if hi > lo {
      OpenPortsIncreasing(env, lo, hi - 1);
    }
  }

  /** Every accepted port of the range is among the open ports. */
  lemma {:induction false} OpenPortsComplete(env: int -> PortEnv, lo: int, hi: int, p: int)
    requires lo <= p < hi && env(p).Accepted?
    ensures p in OpenPorts(env, lo, hi)
    decreases hi - lo
  {
    if p < hi - 1 {
      OpenPortsComplete(env, lo, hi - 1, p);
    }
  }

  /** A port is open exactly when it is in the range and its connect succeeded. */
  lemma OpenPortsExactly(env: int -> PortEnv, lo: int, hi: int, p: int)
    ensures p in OpenPorts(env, lo, hi) <==> lo <= p < hi && env(p).Accepted?
  {
    if lo <= p < hi && env(p).Accepted? {
      OpenPortsComplete(env, lo, hi, p);
    }
  }

  /** One callback per open port, in the same order. */
  function Reports(env: int -> PortEnv, ports: seq<int>): (r: seq<PortInfo>)
    requires forall i :: 0 <= i < |ports| ==> env(ports[i]).Accepted?
    ensures |r| == |ports|
    ensures forall i :: 0 <= i < |ports| ==> r[i].port == ports[i]
  {
    if ports == [] then []
    else
      var p := ports[|ports| - 1];
      Reports(env, ports[..|ports| - 1]) + [InfoFor(p, env(p).probeDialed, env(p).data)]
  }

  lemma ReportsAppend(env: int -> PortEnv, ports: seq<int>, p: int)
    requires forall i :: 0 <= i < |ports| ==> env(ports[i]).Accepted?
    requires env(p).Accepted?
    ensures Reports(env, ports + [p]) == Reports(env, ports) + [InfoFor(p, env(p).probeDialed, env(p).data)]
  {
    var q := ports + [p];
    assert q[..|q| - 1] == ports;
    assert q[|q| - 1] == p;
  }

  /** The ports lo..hi-1 in increasing order, each once. */
  function Range(lo: int, hi: int): (r: seq<int>)
    ensures |r| == if hi <= lo then 0 else hi - lo
    ensures forall i :: 0 <= i < |r| ==> r[i] == lo + i
    decreases hi - lo
  {
    if hi <= lo then [] else Range(lo, hi - 1) + [hi - 1]
  }

  /**
   * ScanPorts, one sequential step per port: every port 1..65535 is attempted
   * once, in order, and the callback runs once for each port whose connect
   * succeeded, with probeService's result.
   */
  method ScanPorts(env: int -> PortEnv) returns (attempted: seq<int>, callbacks: seq<PortInfo>)
    ensures attempted == Range(FirstPort, LastPort + 1)
    ensures callbacks == Reports(env, OpenPorts(env, FirstPort, LastPort + 1))
  {
    attempted, callbacks := [], [];
    var port := FirstPort;
    while port <= LastPort
      invariant FirstPort <= port <= LastPort + 1
      invariant attempted == Range(FirstPort, port)
      invariant callbacks == Reports(env, OpenPorts(env, FirstPort, port))
    {
      attempted := attempted + [port];
      ghost var before := OpenPorts(env, FirstPort, port);
      match env(port) {
        case Refused =>
          assert OpenPorts(env, FirstPort, port + 1) == before;
        case Accepted(dialed, data) =>
          assert OpenPorts(env, FirstPort, port + 1) == before + [port];
          ReportsAppend(env, before, port);
          callbacks := callbacks + [InfoFor(port, dialed, data)];
      }
      port := port + 1;
    }
  }
}
