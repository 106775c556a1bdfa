/** The host argument of yasetnode: `node_id` or `[user@]host[:port][~ncpus]` (entrypoints/cli/manage_node.py). */
module HostSpecs {
  import opened Prelude

  datatype HostSpec = HostSpec(host: string, username: Option<string>, port: int, ncpus: Option<int>)

  datatype Error = MalformedHostSpec(raw: string) | NodeIdNotPositive

  datatype NodeTarget = ById(id: int) | ByHost(spec: HostSpec)

  const MAX_PORT: int := 65535
  const DEFAULT_PORT: int := 22

  // ---- string helpers with Python's meaning ----

  /** Position of the first c, |s| if there is none. */
  function Find(s: string, c: char): (k: nat)
    ensures k <= |s| && c !in s[..k] && (k < |s| ==> s[k] == c)
    ensures k == |s| <==> c !in s
  {
    if s == "" || s[0] == c then 0 else 1 + Find(s[1..], c)
  }

  function Count(s: string, c: char): (n: nat)
    ensures n == 0 <==> c !in s
  {
    if s == "" then 0 else (if s[0] == c then 1 else 0) + Count(s[1..], c)
  }

  lemma {:induction false} CountConcat(a: string, b: string, c: char)
    ensures Count(a + b, c) == Count(a, c) + Count(b, c)
  {
    if a == "" {
      assert a + b == b;
    } else {
      assert (a + b)[1..] == a[1..] + b;
      CountConcat(a[1..], b, c);
    }
  }

  lemma {:induction false} FindSplit(a: string, c: char, b: string)
    requires c !in a
    ensures Find(a + [c] + b, c) == |a|
    ensures (a + [c] + b)[..|a|] == a && (a + [c] + b)[|a| + 1..] == b
  {
    var s := a + [c] + b;
    assert s[|a|] == c;
    assert forall i :: 0 <= i < |a| ==> s[i] == a[i];
    assert forall k :: |a| < k <= |s| ==> s[..k][|a|] == c;
  }

  predicate IsDigit(c: char) {
    '0' <= c <= '9'
  }

  /** str.isdigit on ASCII. */
  predicate AllDigits(s: string) {
    s != "" && forall i :: 0 <= i < |s| ==> IsDigit(s[i])
  }

  predicate IsSpace(c: char) {
    c == ' ' || '\t' <= c <= '\r' || '\U{1c}' <= c <= '\U{1f}'
  }

  function Strip(s: string): string {
    if s == "" then ""
    else if IsSpace(s[0]) then Strip(s[1..])
    else if IsSpace(s[|s| - 1]) then Strip(s[..|s| - 1])
    else s
  }

  /** Digits with single underscores between them. */
  function Digits(s: string): Option<nat> {
    if s == "" || !IsDigit(s[|s| - 1]) then None
    else
      var d := (s[|s| - 1] - '0') as nat;
      if |s| == 1 then Some(d)
      else
        match Digits(if s[|s| - 2] == '_' then s[..|s| - 2] else s[..|s| - 1])
        case None => None
        case Some(front) => Some(front * 10 + d)
  }

  /** int(s), None for ValueError. */
  function ParseInt(s: string): Option<int> {
    var t := Strip(s);
    if t == "" then None
    else if t[0] == '+' || t[0] == '-' then
      match Digits(t[1..])
      case None => None
      case Some(n) => Some(if t[0] == '-' then -(n as int) else n)
    else
      match Digits(t)
      case None => None
      case Some(n) => Some(n)
  }

  // ---- the parser ----

  function ParseUser(s: string): Result<(Option<string>, string), ()> {
    var n := Count(s, '@');
    if n > 1 then Err(())
    else if n == 0 then Ok((None, s))
    else
      var k := Find(s, '@');
      if k == 0 then Err(()) else Ok((Some(s[..k]), s[k + 1..]))
  }

  function ParseNcpus(s: string): Result<(Option<int>, string), ()> {
    var n := Count(s, '~');
    if n > 1 then Err(())
    else if n == 0 then Ok((None, s))
    else
      var k := Find(s, '~');
      match ParseInt(s[k + 1..])
      case None => Err(())
      case Some(v) => if v < 0 then Err(()) else Ok((if v == 0 then None else Some(v), s[..k]))
  }

  function WithPort(host: string, port: Option<int>): Result<(string, int), ()> {
    match port
    case None => Err(())
    case Some(p) => Ok((host, p))
  }

  function ParseHostPort(s: string): Result<(string, int), ()> {
    if s != "" && s[0] == '[' then
      var close := Find(s, ']');
      if close == |s| then Err(())
      else
        var rest := s[close + 1..];
        if rest == "" then Ok((s[1..close], DEFAULT_PORT))
        else if rest[0] == ':' && ':' !in rest[1..] then WithPort(s[1..close], ParseInt(rest[1..]))
        else Err(())
    else
      var n := Count(s, ':');
      if n > 1 then Err(())
      else if n == 0 then Ok((s, DEFAULT_PORT))
      else WithPort(s[..Find(s, ':')], ParseInt(s[Find(s, ':') + 1..]))
  }

  function ParseHostSpec(raw: string): Result<HostSpec, Error> {
    match ParseUser(raw)
    case Err(_) => Err(MalformedHostSpec(raw))
    case Ok((username, rest)) =>
      match ParseNcpus(rest)
      case Err(_) => Err(MalformedHostSpec(raw))
      case Ok((ncpus, hostPort)) =>
        match ParseHostPort(hostPort)
        case Err(_) => Err(MalformedHostSpec(raw))
        case Ok((host, port)) =>
          if host == "" || port < 1 || port > MAX_PORT then Err(MalformedHostSpec(raw))
          else Ok(HostSpec(host, username, port, ncpus))
  }

  function ParseNodeTarget(s: string): Result<NodeTarget, Error> {
    if AllDigits(s) then
      match ParseInt(s)
      case None => Err(NodeIdNotPositive)
      case Some(n) => if n <= 0 then Err(NodeIdNotPositive) else Ok(ById(n))
    else
      match ParseHostSpec(s)
      case Err(e) => Err(e)
      case Ok(spec) => Ok(ByHost(spec))
  }

  // ---- the printer ----

  function Decimal(n: nat): (s: string)
    ensures AllDigits(s)
  {
    if n < 10 then [('0' as int + n) as char] else Decimal(n / 10) + [('0' as int + n % 10) as char]
  }

  function PrintInt(i: int): string {
    if i < 0 then "-" + Decimal(-i) else Decimal(i)
  }

  function PrintHost(host: string): string {
    if ':' in host then "[" + host + "]" else host
  }

  function PrintUser(username: Option<string>): string {
    if username.Some? then username.value + "@" else ""
  }

  function PrintNcpus(ncpus: Option<int>): string {
    if ncpus.Some? then "~" + PrintInt(ncpus.value) else ""
  }

  function PrintHostPort(host: string, port: int): string {
    PrintHost(host) + ":" + PrintInt(port)
  }

  function Print(spec: HostSpec): string {
    PrintUser(spec.username) + (PrintHostPort(spec.host, spec.port) + PrintNcpus(spec.ncpus))
  }

  // ---- integers survive printing and parsing ----

  lemma {:induction false} DigitsOfDecimal(n: nat)
    ensures Digits(Decimal(n)) == Some(n)
  {
    if n >= 10 {
      DigitsOfDecimal(n / 10);
      var s := Decimal(n);
      assert s[..|s| - 1] == Decimal(n / 10);
      assert s[|s| - 2] == Decimal(n / 10)[|s| - 2];
    }
  }

  lemma ParsePrintInt(i: int)
    ensures ParseInt(PrintInt(i)) == Some(i)
    ensures forall c :: c in PrintInt(i) ==> IsDigit(c) || c == '-'
  {
    var n: nat := if i < 0 then -i else i;
    DigitsOfDecimal(n);
    var d := Decimal(n);
    assert IsDigit(d[0]) && IsDigit(d[|d| - 1]);
    if i < 0 {
      assert PrintInt(i)[1..] == d;
    }
  }

  /** The number a string of digits denotes, leading zeros included. */
  function DecimalValue(s: string): nat
    requires forall i :: 0 <= i < |s| ==> IsDigit(s[i])
  {
    if s == "" then 0 else
      assert IsDigit(s[|s| - 1]);
      DecimalValue(s[..|s| - 1]) * 10 + (s[|s| - 1] - '0') as nat
  }

  lemma {:induction false} DigitsValue(s: string)
    requires AllDigits(s)
    ensures Digits(s) == Some(DecimalValue(s))
  {
    if |s| > 1 {
      assert s[|s| - 2] != '_' && AllDigits(s[..|s| - 1]);
      DigitsValue(s[..|s| - 1]);
    } else {
      assert DecimalValue(s[..|s| - 1]) == 0;
    }
  }

  lemma {:induction false} StripTrailing(s: string, c: char)
    requires IsSpace(c)
    ensures Strip(s + [c]) == Strip(s)
    decreases |s|
  {
    if s == "" {
      assert Strip([c]) == Strip([c][1..]);
    } else if IsSpace(s[0]) {
      assert (s + [c])[1..] == s[1..] + [c];
      StripTrailing(s[1..], c);
    } else {
      assert (s + [c])[..|s|] == s;
    }
  }

  lemma StripLeading(s: string, c: char)
    requires IsSpace(c)
    ensures Strip([c] + s) == Strip(s)
  {
    assert ([c] + s)[1..] == s;
  }

  /** A single underscore between digits does not count. */
  lemma {:induction false} UnderscoreSkipped(a: string, b: string)
    requires AllDigits(a) && AllDigits(b)
    ensures Digits(a + "_" + b) == Digits(a + b)
    decreases |b|
  {
    var s, plain := a + "_" + b, a + b;
    if |b| == 1 {
      assert s[|s| - 2] == '_' && s[..|s| - 2] == a;
      assert plain[|plain| - 2] == a[|a| - 1] && plain[..|plain| - 1] == a;
    } else {
      var front := b[..|b| - 1];
      assert s[|s| - 2] == b[|b| - 2] && s[..|s| - 1] == a + "_" + front;
      assert plain[|plain| - 2] == b[|b| - 2] && plain[..|plain| - 1] == a + front;
      UnderscoreSkipped(a, front);
    }
  }

  lemma SignsAccepted(s: string)
    requires AllDigits(s)
    ensures ParseInt(s) == Some(DecimalValue(s)) == ParseInt("+" + s)
    ensures ParseInt("-" + s) == Some(-(DecimalValue(s) as int))
  {
    hide Digits, DecimalValue;
    DigitsValue(s);
    assert IsDigit(s[0]) && IsDigit(s[|s| - 1]);
    assert ("+" + s)[1..] == s && ("-" + s)[1..] == s;
  }

  lemma UnderscoreAccepted(s: string, k: nat)
    requires AllDigits(s) && 0 < k < |s|
    ensures ParseInt(s[..k] + "_" + s[k..]) == ParseInt(s)
  {
    hide Digits;
    UnderscoreSkipped(s[..k], s[k..]);
    assert s[..k] + s[k..] == s;
    var t := s[..k] + "_" + s[k..];
    assert IsDigit(s[0]) && IsDigit(s[|s| - 1]);
    assert t[0] == s[0] && t[|t| - 1] == s[|s| - 1];
  }

  /** What int() makes of decimal digits, with a sign, with white space around, and with an underscore inside. */
  lemma IntegersAccepted(s: string, c: char, k: nat)
    ensures AllDigits(s) ==> ParseInt(s) == Some(DecimalValue(s)) == ParseInt("+" + s)
    ensures AllDigits(s) ==> ParseInt("-" + s) == Some(-(DecimalValue(s) as int))
    ensures AllDigits(s) && 0 < k < |s| ==> ParseInt(s[..k] + "_" + s[k..]) == ParseInt(s)
    ensures IsSpace(c) ==> ParseInt([c] + s) == ParseInt(s) == ParseInt(s + [c])
  {
    hide Digits, Strip, DecimalValue;
    if AllDigits(s) {
      hide ParseInt;
      SignsAccepted(s);
      if 0 < k < |s| {
        UnderscoreAccepted(s, k);
      }
    }
    if IsSpace(c) {
      SpaceAccepted(s, c);
    }
  }

  lemma SpaceAccepted(s: string, c: char)
    requires IsSpace(c)
    ensures ParseInt([c] + s) == ParseInt(s) == ParseInt(s + [c])
  {
    hide Digits, Strip;
    StripLeading(s, c);
    StripTrailing(s, c);
  }

  /** The host can be told apart from the rest: no separator of an outer part, no bracket that would end it early. */
  predicate PrintableHost(host: string) {
    && host != "" && '@' !in host && '~' !in host
    && (if ':' in host then ']' !in host else host[0] != '[')
  }

  predicate ValidSpec(spec: HostSpec) {
    && PrintableHost(spec.host)
    && (spec.username.Some? ==> spec.username.value != "" && '@' !in spec.username.value)
    && 1 <= spec.port <= 65535
    && (spec.ncpus.Some? ==> spec.ncpus.value > 0)
  }

  /** Whatever is accepted has a host, a port in range, and ncpus absent or positive. */
  lemma AcceptedSpecsAreInBounds(s: string)
    ensures ParseHostSpec(s).Ok? ==>
              var spec := ParseHostSpec(s).value;
              && spec.host != "" && 1 <= spec.port <= 65535
              && (spec.ncpus.Some? ==> spec.ncpus.value > 0)
              && (spec.username.Some? ==> spec.username.value != "" && '@' !in spec.username.value)
  {
  }

  // ---- printing and parsing back, stage by stage ----

  lemma OneCounted(a: string, c: char, b: string)
    requires c !in a && c !in b
    ensures Count(a + [c] + b, c) == 1
  {
    CountConcat(a + [c], b, c);
    CountConcat(a, [c], c);
    assert Count([c], c) == 1 + Count([c][1..], c);
  }

  lemma UserStage(username: Option<string>, rest: string)
    requires '@' !in rest && (username.Some? ==> username.value != "" && '@' !in username.value)
    ensures ParseUser(PrintUser(username) + rest) == Ok((username, rest))
  {
    if username.Some? {
      OneCounted(username.value, '@', rest);
      FindSplit(username.value, '@', rest);
    } else {
      assert PrintUser(username) + rest == rest;
    }
  }

  lemma NcpusGiven(hostPort: string, digits: string, ncpus: int)
    requires '~' !in hostPort && '~' !in digits && ParseInt(digits) == Some(ncpus) && ncpus > 0
    ensures ParseNcpus(hostPort + ['~'] + digits) == Ok((Some(ncpus), hostPort))
  {
    hide ParseInt;
    OneCounted(hostPort, '~', digits);
    FindSplit(hostPort, '~', digits);
  }

  lemma NcpusStage(hostPort: string, ncpus: Option<int>)
    requires '~' !in hostPort && (ncpus.Some? ==> ncpus.value > 0)
    ensures ParseNcpus(hostPort + PrintNcpus(ncpus)) == Ok((ncpus, hostPort))
  {
    hide ParseInt, PrintInt;
    if ncpus.Some? {
      var digits := PrintInt(ncpus.value);
      ParsePrintInt(ncpus.value);
      NcpusGiven(hostPort, digits, ncpus.value);
      hide ParseNcpus;
      assert hostPort + PrintNcpus(ncpus) == hostPort + ['~'] + digits;
    } else {
      assert hostPort + PrintNcpus(ncpus) == hostPort;
    }
  }

  lemma BracketedStage(host: string, digits: string, port: int)
    requires ']' !in host && ':' !in digits && ParseInt(digits) == Some(port)
    ensures ParseHostPort("[" + host + "]" + ":" + digits) == Ok((host, port))
  {
    hide ParseInt;
    var rest := ":" + digits;
    var s := "[" + host + "]" + ":" + digits;
    assert s == ("[" + host) + [']'] + rest;
    FindSplit("[" + host, ']', rest);
    assert rest[1..] == digits && s[1..|host| + 1] == host;
  }

  lemma PlainStage(host: string, digits: string, port: int)
    requires host != "" && host[0] != '[' && ':' !in host && ':' !in digits && ParseInt(digits) == Some(port)
    ensures ParseHostPort(host + ":" + digits) == Ok((host, port))
  {
    hide ParseInt;
    OneCounted(host, ':', digits);
    FindSplit(host, ':', digits);
    assert host + ":" + digits == host + [':'] + digits;
  }

  lemma HostStage(host: string, port: int)
    requires PrintableHost(host)
    ensures ParseHostPort(PrintHostPort(host, port)) == Ok((host, port))
  {
    hide ParseInt, PrintInt, ParseHostPort;
    ParsePrintInt(port);
    if ':' in host {
      BracketedStage(host, PrintInt(port), port);
    } else {
      PlainStage(host, PrintInt(port), port);
    }
  }

  lemma PrintedHostPortHasNo(host: string, port: int, c: char)
    requires c !in host && c in {'@', '~'}
    ensures c !in PrintHostPort(host, port)
  {
    ParsePrintInt(port);
    assert forall x :: x in PrintHostPort(host, port) ==> x in host || x in {'[', ']', ':'} || x in PrintInt(port);
  }

  lemma PrintedTailHasNoAt(spec: HostSpec)
    requires '@' !in spec.host
    ensures '@' !in PrintHostPort(spec.host, spec.port) + PrintNcpus(spec.ncpus)
  {
    PrintedHostPortHasNo(spec.host, spec.port, '@');
    if spec.ncpus.Some? {
      ParsePrintInt(spec.ncpus.value);
    }
  }

  lemma RoundTrip(spec: HostSpec)
    requires ValidSpec(spec)
    ensures ParseHostSpec(Print(spec)) == Ok(spec)
  {
    hide ParseUser, ParseNcpus, ParseHostPort;
    var hostPort := PrintHostPort(spec.host, spec.port);
    PrintedHostPortHasNo(spec.host, spec.port, '~');
    PrintedTailHasNoAt(spec);
    UserStage(spec.username, hostPort + PrintNcpus(spec.ncpus));
    NcpusStage(hostPort, spec.ncpus);
    HostStage(spec.host, spec.port);
  }

  // ---- what an accepted argument looks like ----

  lemma {:induction false} SingleSplit(s: string, c: char)
    requires Count(s, c) == 1
    ensures Find(s, c) < |s| && c !in s[..Find(s, c)] && c !in s[Find(s, c) + 1..]
  {
    var k := Find(s, c);
    assert s == s[..k] + [c] + s[k + 1..];
    CountConcat(s[..k] + [c], s[k + 1..], c);
    CountConcat(s[..k], [c], c);
    assert Count([c], c) == 1 + Count([c][1..], c);
  }

  /** The host of an accepted argument holds no separator; if it came without brackets it holds no colon either. */
  lemma AcceptedHost(s: string)
    ensures ParseHostSpec(s).Ok? ==>
              var host := ParseHostSpec(s).value.host;
              '@' !in host && '~' !in host && (if ':' in host then ']' !in host else true)
  {
    if ParseHostSpec(s).Ok? {
      if Count(s, '@') == 1 {
        SingleSplit(s, '@');
      }
      var rest := ParseUser(s).value.1;
      assert '@' !in rest;
      if Count(rest, '~') == 1 {
        SingleSplit(rest, '~');
      }
      var hostPort := ParseNcpus(rest).value.1;
      assert '~' !in hostPort && forall c :: c in hostPort ==> c in rest;
      HostFrom(hostPort);
    }
  }

  lemma HostFrom(s: string)
    ensures ParseHostPort(s).Ok? ==>
              var host := ParseHostPort(s).value.0;
              (forall c :: c in host ==> c in s) && (':' in host ==> ']' !in host)
  {
    if s != "" && s[0] == '[' {
      var close := Find(s, ']');
      if close < |s| {
        assert close > 0;
        assert forall c :: c in s[1..close] ==> c in s[..close];
      }
    } else if Count(s, ':') == 1 {
      SingleSplit(s, ':');
    }
  }

  /** A host without colon that starts with a bracket is cut short when it is parsed back. */
  lemma BracketWithoutColon(host: string, port: int)
    requires host != "" && host[0] == '[' && ':' !in host
    ensures ParseHostPort(PrintHostPort(host, port)) != Ok((host, port))
  {
    var s := PrintHostPort(host, port);
    ParsePrintInt(port);
    assert s == host + ":" + PrintInt(port);
    var close := Find(s, ']');
    if close < |s| {
      assert s[close] == ']';
      assert close < |host| by {
        assert forall i :: |host| <= i < |s| ==> s[i] == ':' || s[i] in PrintInt(port);
      }
      assert |s[1..close]| < |host|;
    }
  }

  /** Printing a spec and parsing it gives the spec back exactly when the spec is valid. */
  lemma PrintParseIff(spec: HostSpec)
    ensures ParseHostSpec(Print(spec)) == Ok(spec) <==> ValidSpec(spec)
  {
    if ValidSpec(spec) {
      RoundTrip(spec);
    } else if ParseHostSpec(Print(spec)) == Ok(spec) {
      AcceptedSpecsAreInBounds(Print(spec));
      AcceptedHost(Print(spec));
      hide ParseUser, ParseNcpus, ParseHostPort;
      var hostPort := PrintHostPort(spec.host, spec.port);
      PrintedHostPortHasNo(spec.host, spec.port, '~');
      PrintedTailHasNoAt(spec);
      UserStage(spec.username, hostPort + PrintNcpus(spec.ncpus));
      NcpusStage(hostPort, spec.ncpus);
      BracketWithoutColon(spec.host, spec.port);
      assert false;
    }
  }

  /** A refusal names the argument it refuses. */
  lemma RefusalNamesArgument(s: string)
    ensures ParseHostSpec(s).Ok? || ParseHostSpec(s) == Err(MalformedHostSpec(s))
    ensures !AllDigits(s) ==> ParseNodeTarget(s).Ok? || ParseNodeTarget(s) == Err(MalformedHostSpec(s))
  {
  }

  lemma PortlessHost(host: string)
    requires PrintableHost(host)
    ensures ParseHostPort(PrintHost(host)) == Ok((host, 22))
  {
    if ':' in host {
      var s := "[" + host + "]";
      assert s == ("[" + host) + [']'] + "";
      FindSplit("[" + host, ']', "");
      assert s[1..|host| + 1] == host;
    }
  }

  /** Without a port the spec means port 22, and zero ncpus mean that none are given. */
  lemma DefaultsApply(spec: HostSpec)
    requires ValidSpec(spec)
    ensures ParseHostSpec(PrintUser(spec.username) + (PrintHost(spec.host) + PrintNcpus(spec.ncpus)))
            == Ok(spec.(port := 22))
    ensures ParseHostSpec(PrintUser(spec.username) + (PrintHost(spec.host) + "~0"))
            == Ok(spec.(port := 22, ncpus := None))
  {
    hide ParseUser, ParseNcpus, ParseHostPort;
    var host := PrintHost(spec.host);
    assert '@' !in host && '~' !in host;
    if spec.ncpus.Some? {
      ParsePrintInt(spec.ncpus.value);
    }
    assert '@' !in host + PrintNcpus(spec.ncpus) && '@' !in host + "~0";
    UserStage(spec.username, host + PrintNcpus(spec.ncpus));
    UserStage(spec.username, host + "~0");
    NcpusStage(host, spec.ncpus);
    ZeroNcpus(host);
    PortlessHost(spec.host);
  }

  lemma ZeroNcpus(hostPort: string)
    requires '~' !in hostPort
    ensures ParseNcpus(hostPort + "~0") == Ok((None, hostPort))
  {
    ParsePrintInt(0);
    hide ParseInt;
    OneCounted(hostPort, '~', "0");
    FindSplit(hostPort, '~', "0");
    assert hostPort + "~0" == hostPort + ['~'] + "0";
  }

  /** A printed valid spec is never taken for a node id, whatever its host looks like. */
  lemma PrintedSpecIsNotAnId(spec: HostSpec)
    requires ValidSpec(spec)
    ensures ParseNodeTarget(Print(spec)) == Ok(ByHost(spec))
  {
    RoundTrip(spec);
    var colon := |PrintUser(spec.username)| + |PrintHost(spec.host)|;
    assert Print(spec)[colon] == ':';
  }

  /** Any accepted argument can be printed in canonical form, unless brackets hid a host that starts with a bracket. */
  lemma AcceptedSpecsReprint(s: string)
    ensures ParseHostSpec(s).Ok? ==>
              var spec := ParseHostSpec(s).value;
              ParseHostSpec(Print(spec)) == Ok(spec) <==> (':' in spec.host || spec.host[0] != '[')
  {
    if ParseHostSpec(s).Ok? {
      AcceptedSpecsAreInBounds(s);
      AcceptedHost(s);
      PrintParseIff(ParseHostSpec(s).value);
    }
  }

  /** An argument names a node by id exactly when it is all digits with a positive value, which is then the id; all
      digits with value zero is refused, and everything else goes to the host parser. */
  lemma NodeIdBranch(s: string)
    ensures (ParseNodeTarget(s).Ok? && ParseNodeTarget(s).value.ById?) <==> AllDigits(s) && DecimalValue(s) > 0
    ensures AllDigits(s) ==>
              ParseNodeTarget(s) == if DecimalValue(s) > 0 then Ok(ById(DecimalValue(s))) else Err(NodeIdNotPositive)
    ensures !AllDigits(s) && ParseHostSpec(s).Ok? ==> ParseNodeTarget(s) == Ok(ByHost(ParseHostSpec(s).value))
  {
    if AllDigits(s) {
      DigitsValue(s);
      assert IsDigit(s[0]) && IsDigit(s[|s| - 1]);
    }
  }
}
