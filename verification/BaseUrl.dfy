/** The base-URL parser of the LLM client. */
module BaseUrl {
  import opened Common
  import opened Decimal
  import opened Strings

  datatype Scheme = Http | Https

  datatype Parts = Parts(host: string, port: int, path: string)

  /** The parser returns true or false, or std::stoi throws. */
  datatype Outcome = Accepted | UnknownScheme | InvalidArgument | OutOfRange

  const INT_LIMIT := 0x8000_0000

  function Prefix(scheme: Scheme): string {
    match scheme
    case Http => "http://"
    case Https => "https://"
  }

  function DefaultPort(scheme: Scheme): int {
    match scheme
    case Http => 80
    case Https => 443
  }

  function SkipSpace(s: string): string {
    if s != [] && IsSpace(s[0]) then SkipSpace(s[1..]) else s
  }

  function DigitPrefix(s: string): (d: string)
    ensures AllDigits(d)
  {
    if s != [] && IsDigit(s[0]) then [s[0]] + DigitPrefix(s[1..]) else []
  }

  datatype Number = Number(value: int) | NotANumber | TooBig

  function InRange(n: int): Number {
    if -INT_LIMIT <= n < INT_LIMIT then Number(n) else TooBig
  }

  /** std::stoi: white space, a sign, digits, and anything after them. */
  function Stoi(s: string): Number {
    var t := SkipSpace(s);
    var signed := t != [] && (t[0] == '-' || t[0] == '+');
    var d := DigitPrefix(if signed then t[1..] else t);
    if d == [] then NotANumber
    else InRange(if signed && t[0] == '-' then -(Value(d) as int) else Value(d))
  }

  /** What the parser does to the three out-parameters, `before` being what they hold on entry. */
  function Split(authority: string, path: string, port: int): (Outcome, Parts) {
    var colon := Find(authority, ':');
    if colon == |authority| then (Accepted, Parts(authority, port, path))
    else
      match Stoi(authority[colon + 1..])
      case Number(n) => (Accepted, Parts(authority[..colon], n, path))
      case NotANumber => (InvalidArgument, Parts(authority[..colon], port, path))
      case TooBig => (OutOfRange, Parts(authority[..colon], port, path))
  }

  function SchemeOf(url: string): (r: (bool, Scheme))
    ensures r.0 ==> Prefix(r.1) <= url
  {
    if Prefix(Https) <= url then (true, Https) else if Prefix(Http) <= url then (true, Http) else (false, Http)
  }

  function Parse(url: string, before: Parts): (Outcome, Parts) {
    var (known, scheme) := SchemeOf(url);
    if !known then (UnknownScheme, before)
    else
      var s := url[|Prefix(scheme)|..];
      var slash := Find(s, '/');
      Split(s[..slash], s[slash..], DefaultPort(scheme))
  }

  method ParseBaseUrl(url: string, before: Parts) returns (outcome: Outcome, out: Parts)
    ensures (outcome, out) == Parse(url, before)
  {
    hide Find, Split;
    outcome, out := Accepted, before;
    var s := url;
    var schemeLen := 0;
    if "https://" <= s {
      schemeLen := 8;
      out := out.(port := 443);
    } else if "http://" <= s {
      schemeLen := 7;
      out := out.(port := 80);
    } else {
      return UnknownScheme, out;
    }
    s := s[schemeLen..];

    var slash := Find(s, '/');
    var hostPort := s;
    if slash == |s| {
      out := out.(path := "");
      assert s[..slash] == s && s[slash..] == [];
    } else {
      hostPort := s[..slash];
      out := out.(path := s[slash..]);
    }

    outcome, out := ParseAuthority(hostPort, out);
  }

  method ParseAuthority(hostPort: string, before: Parts) returns (outcome: Outcome, out: Parts)
    ensures (outcome, out) == Split(hostPort, before.path, before.port)
  {
    hide Find, Stoi;
    outcome, out := Accepted, before;
    var colon := Find(hostPort, ':');
    if colon == |hostPort| {
      out := out.(host := hostPort);
    } else {
      out := out.(host := hostPort[..colon]);
      match Stoi(hostPort[colon + 1..])
      case Number(n) => out := out.(port := n);
      case NotANumber => outcome := InvalidArgument;
      case TooBig => outcome := OutOfRange;
    }
  }

  // ---- the URLs the parser accepts, and what it takes them for ----

  datatype Port = Default | Text(text: string)

  function Join(scheme: Scheme, host: string, port: Port, path: string): string {
    Prefix(scheme) + (host + (if port.Text? then [':'] + port.text else []) + path)
  }

  /** The three parts as the text of a URL spells them. */
  predicate WellFormed(host: string, port: Port, path: string) {
    && '/' !in host && ':' !in host
    && (port.Text? ==> '/' !in port.text)
    && (path == [] || path[0] == '/')
  }

  predicate Spells(scheme: Scheme, port: Port, n: int) {
    if port.Default? then n == DefaultPort(scheme) else Stoi(port.text) == Number(n)
  }

  /** The scheme is read off its prefix, whatever follows. */
  lemma SchemeOfJoin(scheme: Scheme, s: string)
    ensures SchemeOf(Prefix(scheme) + s) == (true, scheme)
    ensures (Prefix(scheme) + s)[|Prefix(scheme)|..] == s
  {
    if scheme == Http {
      assert (Prefix(Http) + s)[4] == ':';
      assert Prefix(Https)[4] == 's';
    }
  }

  lemma SplitJoin(host: string, port: Port, path: string)
    requires WellFormed(host, port, path)
    ensures var authority := host + (if port.Text? then [':'] + port.text else []);
            && Find(authority + path, '/') == |authority| && (authority + path)[..|authority|] == authority
            && (authority + path)[|authority|..] == path
            && Find(authority, ':') == |host| && authority[..|host|] == host
            && (port.Text? ==> authority[|host| + 1..] == port.text)
  {
    var authority := host + (if port.Text? then [':'] + port.text else []);
    var s := authority + path;
    assert s[..|authority|] == authority && s[|authority|..] == path;
    assert '/' !in authority;
    FindUnique(s, '/', |authority|);
    assert authority[..|host|] == host;
    FindUnique(authority, ':', |host|);
  }

  /** A URL spelled from well-formed parts is accepted just when its port text is a number, and then
      it is parsed into those parts. */
  lemma ParseJoin(scheme: Scheme, host: string, port: Port, path: string, before: Parts)
    requires WellFormed(host, port, path)
    ensures Parse(Join(scheme, host, port, path), before) ==
            if port.Default? then (Accepted, Parts(host, DefaultPort(scheme), path))
            else match Stoi(port.text)
                 case Number(n) => (Accepted, Parts(host, n, path))
                 case NotANumber => (InvalidArgument, Parts(host, DefaultPort(scheme), path))
                 case TooBig => (OutOfRange, Parts(host, DefaultPort(scheme), path))
  {
    var authority := host + (if port.Text? then [':'] + port.text else []);
    hide Find, Stoi, SchemeOf, Prefix, DefaultPort;
    SchemeOfJoin(scheme, authority + path);
    SplitJoin(host, port, path);
    hide WellFormed;
    assert Parse(Join(scheme, host, port, path), before) == Split(authority, path, DefaultPort(scheme)) by { hide Split; }
    SplitSpelled(host, port, path, DefaultPort(scheme));
  }

  lemma SplitSpelled(host: string, port: Port, path: string, n: int)
    requires var authority := host + (if port.Text? then [':'] + port.text else []);
             Find(authority, ':') == |host| && authority[..|host|] == host && (port.Text? ==> authority[|host| + 1..] == port.text)
    ensures Split(host + (if port.Text? then [':'] + port.text else []), path, n) ==
            if port.Default? then (Accepted, Parts(host, n, path))
            else match Stoi(port.text)
                 case Number(m) => (Accepted, Parts(host, m, path))
                 case NotANumber => (InvalidArgument, Parts(host, n, path))
                 case TooBig => (OutOfRange, Parts(host, n, path))
  {
    hide Find, Stoi;
    assert host + [] == host;
  }

  /** Every accepted URL is spelled that way: nothing is dropped or added between the parts. */
  lemma AcceptedIsJoin(url: string, before: Parts) returns (scheme: Scheme, port: Port)
    requires Parse(url, before).0 == Accepted
    ensures var p := Parse(url, before).1;
            && WellFormed(p.host, port, p.path) && Spells(scheme, port, p.port)
            && url == Join(scheme, p.host, port, p.path)
  {
    hide Find, Stoi, Prefix, Split;
    scheme := SchemeOf(url).1;
    var s := url[|Prefix(scheme)|..];
    var slash := Find(s, '/');
    SplitKeepsPath(s[..slash], s[slash..], DefaultPort(scheme));
    port := SplitIsJoin(s[..slash], s[slash..], DefaultPort(scheme));
    Halves(url, |Prefix(scheme)|);
    Halves(s, slash);
  }

  lemma Halves(s: string, i: nat)
    requires i <= |s|
    ensures s == s[..i] + s[i..]
  {
  }

  lemma SplitKeepsPath(authority: string, path: string, n: int)
    ensures Split(authority, path, n).1.path == path
  {
  }

  lemma SplitIsJoin(authority: string, path: string, n: int) returns (port: Port)
    requires Split(authority, path, n).0 == Accepted && '/' !in authority
    ensures var p := Split(authority, path, n).1;
            && ':' !in p.host && '/' !in p.host && (port.Text? ==> '/' !in port.text)
            && (if port.Default? then p.port == n else Stoi(port.text) == Number(p.port))
            && authority == p.host + (if port.Text? then [':'] + port.text else [])
  {
    var colon := Find(authority, ':');
    hide Find, Stoi;
    if colon == |authority| {
      port := Default;
      assert authority[..colon] == authority == authority + [];
    } else {
      port := Text(authority[colon + 1..]);
      assert authority == authority[..colon] + ([':'] + port.text);
    }
  }

  /** The grammar is exact: parts p are the result of parsing a URL if and only if it is spelled from
      them with some scheme and port text. */
  lemma ParseIff(url: string, before: Parts, p: Parts)
    ensures Parse(url, before) == (Accepted, p) <==>
            exists scheme, port ::
              && WellFormed(p.host, port, p.path) && Spells(scheme, port, p.port)
              && url == Join(scheme, p.host, port, p.path)
  {
    if Parse(url, before) == (Accepted, p) {
      var scheme, port := AcceptedIsJoin(url, before);
      assert WellFormed(p.host, port, p.path) && Spells(scheme, port, p.port);
    }
    if scheme: Scheme, port: Port :|
      && WellFormed(p.host, port, p.path) && Spells(scheme, port, p.port)
      && url == Join(scheme, p.host, port, p.path)
    {
      ParseJoin(scheme, p.host, port, p.path, before);
    }
  }

  lemma DigitPrefixAll(d: string)
    requires AllDigits(d)
    ensures DigitPrefix(d) == d
  {
    if d != [] {
      DigitPrefixAll(d[1..]);
      assert d == [d[0]] + d[1..];
    }
  }

  /** A decimal port is read as its value, up to the largest int; the next one throws. */
  lemma DecimalPort(n: nat)
    ensures Stoi(Print(n)) == if n < INT_LIMIT then Number(n) else TooBig
  {
    var d := Print(n);
    assert IsDigit(d[0]);
    DigitPrefixAll(d);
    ValueOfPrint(n);
  }

  lemma NoSlashInDigits(d: string)
    requires AllDigits(d)
    ensures '/' !in d && ':' !in d
  {
  }

  lemma Regrouped(a: string, b: string, port: string, c: string)
    ensures a + b + c == a + (b + [] + c)
    ensures a + b + ":" + port + c == a + (b + ([':'] + port) + c)
  {
    assert a + b + ":" + port + c == a + (b + (":" + port) + c);
  }

  lemma SchemeUrl(scheme: Scheme, host: string, port: nat, path: string, before: Parts)
    requires '/' !in host && ':' !in host && (path == [] || path[0] == '/')
    ensures Parse(Prefix(scheme) + host + path, before) == (Accepted, Parts(host, DefaultPort(scheme), path))
    ensures Parse(Prefix(scheme) + host + ":" + Print(port) + path, before) == (Accepted, Parts(host, port, path)) <==>
            port < INT_LIMIT
  {
    hide Parse, Prefix, DefaultPort, Stoi, Print;
    Regrouped(Prefix(scheme), host, Print(port), path);
    ParseJoin(scheme, host, Default, path, before);
    DecimalPort(port);
    NoSlashInDigits(Print(port));
    ParseJoin(scheme, host, Text(Print(port)), path, before);
  }

  /** Both schemes with their default ports, for every host and path. */
  lemma DefaultPorts(host: string, path: string, before: Parts)
    requires '/' !in host && ':' !in host && (path == [] || path[0] == '/')
    ensures Parse("https://" + host + path, before) == (Accepted, Parts(host, 443, path))
    ensures Parse("http://" + host + path, before) == (Accepted, Parts(host, 80, path))
  {
    hide Parse, Print;
    SchemeUrl(Https, host, 0, path, before);
    SchemeUrl(Http, host, 0, path, before);
  }

  /** Anything else is refused, and the out-parameters stay as they were. */
  lemma RefusedIff(url: string, before: Parts)
    ensures Parse(url, before).0 == UnknownScheme <==> !("https://" <= url) && !("http://" <= url)
    ensures Parse(url, before).0 == UnknownScheme ==> Parse(url, before).1 == before
  {
    hide Find, Stoi;
  }

  /** Printing then parsing is the identity, with 80 or 443 for a port left out, if and only if the
      port fits an int. */
  lemma PrintThenParse(https: bool, host: string, port: nat, path: string, before: Parts)
    requires '/' !in host && ':' !in host && (path == [] || path[0] == '/')
    ensures var scheme := if https then "https://" else "http://";
            && Parse(scheme + host + path, before) == (Accepted, Parts(host, if https then 443 else 80, path))
            && (Parse(scheme + host + ":" + Print(port) + path, before) == (Accepted, Parts(host, port, path))
                <==> port <= 2147483647)
  {
    hide Parse, Print;
    SchemeUrl(if https then Https else Http, host, port, path, before);
  }

  // ---- what std::stoi reads ----

  /** s is white space, a sign or none, at least one digit, and then something else. */
  predicate Numeral(s: string, space: string, sign: string, digits: string, rest: string) {
    && s == space + (sign + (digits + rest)) && sign in {"", "+", "-"}
    && (forall i :: 0 <= i < |space| ==> space[i] as int in {9, 10, 11, 12, 13, 32})
    && digits != "" && (forall i :: 0 <= i < |digits| ==> '0' <= digits[i] <= '9')
    && (rest == "" || !('0' <= rest[0] <= '9'))
  }

  lemma {:induction false} SkipsSpace(space: string, t: string)
    requires forall i :: 0 <= i < |space| ==> space[i] as int in {9, 10, 11, 12, 13, 32}
    requires t == "" || t[0] as int !in {9, 10, 11, 12, 13, 32}
    ensures SkipSpace(space + t) == t
    decreases space
  {
    if space == "" {
      assert space + t == t;
    } else {
      assert (space + t)[1..] == space[1..] + t;
      SkipsSpace(space[1..], t);
    }
  }

  lemma {:induction false} TakesDigits(digits: string, rest: string)
    requires AllDigits(digits) && (rest == "" || !IsDigit(rest[0]))
    ensures DigitPrefix(digits + rest) == digits
    decreases digits
  {
    if digits == "" {
      assert digits + rest == rest;
    } else {
      assert (digits + rest)[1..] == digits[1..] + rest;
      TakesDigits(digits[1..], rest);
      assert digits == [digits[0]] + digits[1..];
    }
  }

  /** The value of the digits, negated by a minus sign, if it fits 32 bits; whatever follows is ignored. */
  lemma StoiReads(s: string, space: string, sign: string, digits: string, rest: string)
    requires Numeral(s, space, sign, digits, rest)
    ensures var n := if sign == "-" then -(Value(digits) as int) else Value(digits);
            Stoi(s) == if -2147483648 <= n <= 2147483647 then Number(n) else TooBig
  {
    var t := sign + (digits + rest);
    var u := digits + rest;
    assert u[0] == digits[0];
    assert t[0] == if sign == "" then u[0] else sign[0];
    assert t[|sign|..] == u;
    SkipsSpace(space, t);
    TakesDigits(digits, rest);
    hide SkipSpace, DigitPrefix, Value;
    assert t[0..] == t;
  }

  lemma {:induction false} SpaceSplit(s: string) returns (space: string)
    ensures s == space + SkipSpace(s)
    ensures forall i :: 0 <= i < |space| ==> space[i] as int in {9, 10, 11, 12, 13, 32}
  {
    if s != [] && IsSpace(s[0]) {
      space := SpaceSplit(s[1..]);
      space := [s[0]] + space;
    } else {
      space := [];
    }
  }

  lemma {:induction false} DigitsSplit(s: string) returns (rest: string)
    ensures s == DigitPrefix(s) + rest && (rest == "" || !('0' <= rest[0] <= '9'))
  {
    if s != [] && IsDigit(s[0]) {
      rest := DigitsSplit(s[1..]);
      assert s == [s[0]] + s[1..];
    } else {
      rest := s;
      assert s == [] + s;
    }
  }

  lemma StoiFinds(s: string) returns (space: string, sign: string, digits: string, rest: string)
    requires Stoi(s) != NotANumber
    ensures Numeral(s, space, sign, digits, rest)
  {
    space := SpaceSplit(s);
    var t := SkipSpace(s);
    sign := if t != [] && (t[0] == '-' || t[0] == '+') then [t[0]] else "";
    var u := t[|sign|..];
    digits := DigitPrefix(u);
    rest := DigitsSplit(u);
    assert t == sign + u;
    assert sign == "" ==> u == t;
  }

  /** std::stoi throws invalid_argument exactly for texts that no numeral begins. */
  lemma NotANumberIff(s: string)
    ensures Stoi(s) == NotANumber <==> !exists space, sign, digits, rest :: Numeral(s, space, sign, digits, rest)
  {
    if Stoi(s) != NotANumber {
      var space, sign, digits, rest := StoiFinds(s);
    }
    if space, sign, digits, rest :| Numeral(s, space, sign, digits, rest) {
      StoiReads(s, space, sign, digits, rest);
    }
  }
}
