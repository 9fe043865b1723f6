/** Fake-TLS links: how they are built, and a reader that takes them apart - the query string of
    a URL (sections 2.1 and 3.4 of RFC 3986, a plus standing for a space) and base 16 (section 8
    of RFC 4648). Strings here are byte strings, one character a byte. */
module Link {
  import opened Wrappers
  import opened Entities
  import opened Decimal

  predicate IsBytes(s: string) { forall i :: 0 <= i < |s| ==> s[i] as int < 256 }

  // ---- Base 16 ----

  function HexValue(c: char): Option<nat> {
    if '0' <= c <= '9' then Some(c as int - '0' as int)
    else if 'a' <= c <= 'f' then Some(c as int - 'a' as int + 10)
    else if 'A' <= c <= 'F' then Some(c as int - 'A' as int + 10)
    else None
  }

  predicate IsHex(s: string) { forall i :: 0 <= i < |s| ==> HexValue(s[i]).Some? }

  function LowerDigit(n: nat): (c: char)
    requires n < 16
    ensures HexValue(c) == Some(n)
  {
    if n < 10 then ('0' as int + n) as char else ('a' as int + n - 10) as char
  }

  function UpperDigit(n: nat): (c: char)
    requires n < 16
    ensures HexValue(c) == Some(n)
  {
    if n < 10 then ('0' as int + n) as char else ('A' as int + n - 10) as char
  }

  function HexEncode(s: string): string
    requires IsBytes(s)
  {
    if s == "" then "" else [LowerDigit(s[0] as int / 16), LowerDigit(s[0] as int % 16)] + HexEncode(s[1..])
  }

  function HexByte(a: char, b: char): Option<char> {
    match (HexValue(a), HexValue(b))
    case (Some(h), Some(l)) => ByteOf(h, l)
    case _ => None
  }

  function ByteOf(h: nat, l: nat): Option<char> { if h < 16 && l < 16 then Some((16 * h + l) as char) else None }

  function HexDecode(s: string): Option<string> {
    if s == "" then Some("")
    else if |s| == 1 then None
    else
      match (HexByte(s[0], s[1]), HexDecode(s[2..]))
      case (Some(c), Some(rest)) => Some([c] + rest)
      case _ => None
  }

  lemma {:induction false} HexReadsBack(s: string)
    requires IsBytes(s)
    ensures HexDecode(HexEncode(s)) == Some(s) && IsHex(HexEncode(s)) && IsBytes(HexEncode(s))
  {
    if s != "" {
      HexReadsBack(s[1..]);
      assert HexEncode(s)[2..] == HexEncode(s[1..]);
      assert [s[0]] + s[1..] == s;
    }
  }

  // ---- Escaping in a query ----

  predicate Unreserved(c: char) {
    'a' <= c <= 'z' || 'A' <= c <= 'Z' || IsDigit(c) || c == '-' || c == '_' || c == '.' || c == '~'
  }

  function EscapeByte(c: char): string
    requires c as int < 256
  {
    if Unreserved(c) then [c]
    else if c == ' ' then "+"
    else ['%', UpperDigit(c as int / 16), UpperDigit(c as int % 16)]
  }

  function QueryEscape(s: string): string
    requires IsBytes(s)
  {
    if s == "" then "" else EscapeByte(s[0]) + QueryEscape(s[1..])
  }

  function Unescape(s: string): Option<string> {
    if s == "" then Some("")
    else if s[0] == '%' then
      if |s| < 3 then None
      else
        match (HexByte(s[1], s[2]), Unescape(s[3..]))
        case (Some(c), Some(rest)) => Some([c] + rest)
        case _ => None
    else
      match Unescape(s[1..])
      case None => None
      case Some(rest) => Some([if s[0] == '+' then ' ' else s[0]] + rest)
  }

  // What a value in a query must not hold unescaped.
  predicate Inert(s: string) { forall i :: 0 <= i < |s| ==> Unreserved(s[i]) || s[i] == '+' || s[i] == '%' }

  lemma ByteReadsBack(c: char, rest: string, x: string)
    requires c as int < 256 && Unescape(rest) == Some(x)
    ensures Unescape(EscapeByte(c) + rest) == Some([c] + x)
  {
    var e := EscapeByte(c);
    assert (e + rest)[|e|..] == rest;
  }

  lemma {:induction false} EscapeReadsBack(s: string)
    requires IsBytes(s)
    ensures Unescape(QueryEscape(s)) == Some(s) && Inert(QueryEscape(s))
  {
    if s != "" {
      EscapeReadsBack(s[1..]);
      ByteReadsBack(s[0], QueryEscape(s[1..]), s[1..]);
      assert [s[0]] + s[1..] == s;
    }
  }

  lemma {:induction false} UnreservedReadsBack(s: string)
    requires forall i :: 0 <= i < |s| ==> Unreserved(s[i])
    ensures Unescape(s) == Some(s) && Inert(s)
  {
    if s != "" {
      UnreservedReadsBack(s[1..]);
      assert [s[0]] + s[1..] == s;
    }
  }

  // ---- Building ----

  const TG := "tg://proxy"
  const HTTPS := "https://t.me/proxy"

  datatype Fault = BadSecret | NoHost | PortOutOfRange | NoDomain

  function LowerChar(c: char): char { if 'A' <= c <= 'Z' then (c as int + 32) as char else c }

  function ToLower(s: string): (r: string)
    ensures |r| == |s| && forall i :: 0 <= i < |s| ==> r[i] == LowerChar(s[i])
  {
    seq(|s|, i requires 0 <= i < |s| => LowerChar(s[i]))
  }

  function NormalizeSecret(s: string): Result<string, Fault> {
    if |s| != 32 || !IsHex(ToLower(s)) then Failure(BadSecret) else Success(ToLower(s))
  }

  function Build(base: string, host: string, port: int, secretHex: string, domain: string): Result<string, Fault>
    requires IsBytes(host) && IsBytes(domain)
  {
    match NormalizeSecret(secretHex)
    case Failure(e) => Failure(e)
    case Success(secret) =>
      if host == "" then Failure(NoHost)
      else if !(1 <= port <= 65535) then Failure(PortOutOfRange)
      else if domain == "" then Failure(NoDomain)
      else Success(base + "?server=" + QueryEscape(host) + "&port=" + Itoa(port)
                     + "&secret=ee" + secret + HexEncode(domain))
  }

  function FakeTLS(host: string, port: int, secretHex: string, domain: string): Result<string, Fault>
    requires IsBytes(host) && IsBytes(domain)
  {
    Build(TG, host, port, secretHex, domain)
  }

  function FakeTLSHTTPS(host: string, port: int, secretHex: string, domain: string): Result<string, Fault>
    requires IsBytes(host) && IsBytes(domain)
  {
    Build(HTTPS, host, port, secretHex, domain)
  }

  // ---- Taking apart ----

  function IndexOf(s: string, c: char): (k: nat)
    ensures k <= |s| && (k < |s| ==> s[k] == c) && forall i :: 0 <= i < k ==> s[i] != c
  {
    if s == "" || s[0] == c then 0 else 1 + IndexOf(s[1..], c)
  }

  function UpTo(s: string, c: char): string { s[..IndexOf(s, c)] }

  function Beyond(s: string, c: char): string { var k := IndexOf(s, c); if k < |s| then s[k + 1..] else "" }

  // The query of a URL: after the first `?`, before any fragment.
  function Query(url: string): string { Beyond(UpTo(url, '#'), '?') }

  // The first well-formed value under a name.
  function QueryGet(q: string, name: string): Option<string>
    decreases |q|
  {
    if q == "" then None
    else
      var part, rest := UpTo(q, '&'), Beyond(q, '&');
      var key, value := Unescape(UpTo(part, '=')), Unescape(Beyond(part, '='));
      if part != "" && ';' !in part && key == Some(name) && value.Some? then value
      else QueryGet(rest, name)
  }

  datatype Target = Target(host: string, port: int, secret: string, domain: string)

  function Decode(url: string): Option<Target> {
    var q := Query(url);
    match (QueryGet(q, "server"), QueryGet(q, "port"), QueryGet(q, "secret"))
    case (Some(host), Some(port), Some(secret)) =>
      if |secret| < 34 || secret[..2] != "ee" || !IsHex(secret[2..34]) then None
      else (match (Atoi(port), HexDecode(secret[34..]))
            case (Some(p), Some(domain)) => Some(Target(host, p, secret[2..34], domain))
            case _ => None)
    case _ => None
  }

  // ---- A built link, taken apart ----

  lemma CutHere(a: string, c: char, b: string)
    requires c !in a
    ensures UpTo(a + [c] + b, c) == a && Beyond(a + [c] + b, c) == b
  {
    var s := a + [c] + b;
    assert s[|a|] == c;
    assert forall i :: 0 <= i < |a| ==> s[i] == a[i];
    assert IndexOf(s, c) == |a|;
    assert s[..|a|] == a && s[|a| + 1..] == b;
  }

  lemma CutNowhere(a: string, c: char)
    requires c !in a
    ensures UpTo(a, c) == a && Beyond(a, c) == ""
  {
    assert IndexOf(a, c) == |a|;
    assert a[..|a|] == a;
  }

  predicate IsName(n: string) { n != "" && forall i :: 0 <= i < |n| ==> Unreserved(n[i]) }

  function Param(name: string, v: string): string { name + ['='] + v }

  // The characters that part a query are in none of its parts.
  lemma ParamIsInert(name: string, v: string)
    requires IsName(name) && Inert(v)
    ensures forall i :: 0 <= i < |Param(name, v)| ==> Param(name, v)[i] !in ['&', ';', '#', '?']
  {
    var p := Param(name, v);
    forall i | 0 <= i < |p| ensures p[i] !in ['&', ';', '#', '?'] {
      if i < |name| { assert Unreserved(name[i]); } else if i > |name| { assert p[i] == v[i - |name| - 1]; }
    }
  }

  // A part of a query on its own: its name and value, unescaped.
  lemma ParamRead(name: string, v: string)
    requires IsName(name) && Inert(v)
    ensures var p := Param(name, v);
      p != "" && Unescape(UpTo(p, '=')) == Some(name) && Unescape(Beyond(p, '=')) == Unescape(v)
  {
    assert '=' !in name;
    CutHere(name, '=', v);
    UnreservedReadsBack(name);
  }

  lemma GetFirst(name: string, v: string, rest: string)
    requires IsName(name) && Inert(v) && Unescape(v).Some?
    ensures QueryGet(Param(name, v) + ['&'] + rest, name) == Unescape(v)
  {
    ParamIsInert(name, v);
    ParamRead(name, v);
    CutHere(Param(name, v), '&', rest);
  }

  lemma GetLater(other: string, v: string, rest: string, name: string)
    requires IsName(other) && Inert(v) && other != name
    ensures QueryGet(Param(other, v) + ['&'] + rest, name) == QueryGet(rest, name)
  {
    ParamIsInert(other, v);
    ParamRead(other, v);
    CutHere(Param(other, v), '&', rest);
  }

  lemma GetLast(name: string, v: string)
    requires IsName(name) && Inert(v) && Unescape(v).Some?
    ensures QueryGet(Param(name, v), name) == Unescape(v)
  {
    ParamIsInert(name, v);
    ParamRead(name, v);
    CutNowhere(Param(name, v), '&');
  }

  lemma Opened(literal: string, mark: char, name: string, more: string, v: string)
    requires literal == [mark] + name + ['='] + more
    ensures literal + v == [mark] + (name + ['='] + (more + v))
  {
  }

  lemma Literals()
    ensures "?server=" == ['?'] + "server" + ['='] + ""
    ensures "&port=" == ['&'] + "port" + ['='] + ""
    ensures "&secret=ee" == ['&'] + "secret" + ['='] + "ee"
  {
  }

  lemma Regroup(a: string, b: string, c: string)
    ensures a + b + c == a + (b + c)
  {
  }

  lemma RegroupQuery(a: string, q: string, b: string, m: string, c: string, d: string)
    ensures a + (q + b) + (m + c) + (m + d) == a + q + (b + m + (c + m + d))
  {
  }

  // The text of a link, h, p, s and d being its four values as printed.
  lemma LinkIsQuery(base: string, h: string, p: string, s: string, d: string)
    ensures base + "?server=" + h + "&port=" + p + "&secret=ee" + s + d
      == base + ['?'] + (Param("server", h) + ['&'] + (Param("port", p) + ['&'] + Param("secret", "ee" + s + d)))
  {
    Literals();
    assert "" + p == p && "" + h == h;
    Opened("?server=", '?', "server", "", h);
    Opened("&port=", '&', "port", "", p);
    Opened("&secret=ee", '&', "secret", "ee", s + d);
    Regroup("ee", s, d);
    var a := base + "?server=" + h;
    var b := a + "&port=" + p;
    Regroup(base, "?server=", h);
    Regroup(a, "&port=", p);
    Regroup(b, "&secret=ee", s);
    Regroup(b, "&secret=ee" + s, d);
    Regroup("&secret=ee", s, d);
    RegroupQuery(base, ['?'], Param("server", h), ['&'], Param("port", p), Param("secret", "ee" + s + d));
  }

  lemma HexIsUnreserved(s: string)
    requires IsHex(s)
    ensures forall i :: 0 <= i < |s| ==> Unreserved(s[i])
  {
  }

  lemma DigitsAreUnreserved(n: int)
    requires n >= 0
    ensures forall i :: 0 <= i < |Itoa(n)| ==> Unreserved(Itoa(n)[i])
  {
  }

  lemma Names()
    ensures IsName("server") && IsName("port") && IsName("secret")
    ensures "server" != "port" && "server" != "secret" && "port" != "secret"
  {
    assert "server"[2] != "secret"[2] && |"port"| == 4 && |"server"| == 6 && |"secret"| == 6;
  }

  // The values a query of three parts holds, under their names.
  lemma QueryRead(n1: string, v1: string, n2: string, v2: string, n3: string, v3: string)
    requires IsName(n1) && IsName(n2) && IsName(n3) && n1 != n2 && n1 != n3 && n2 != n3
    requires Inert(v1) && Inert(v2) && Inert(v3) && Unescape(v1).Some? && Unescape(v2).Some? && Unescape(v3).Some?
    ensures var q := Param(n1, v1) + ['&'] + (Param(n2, v2) + ['&'] + Param(n3, v3));
      QueryGet(q, n1) == Unescape(v1) && QueryGet(q, n2) == Unescape(v2) && QueryGet(q, n3) == Unescape(v3)
  {
    var r := Param(n2, v2) + ['&'] + Param(n3, v3);
    GetFirst(n1, v1, r);
    GetLater(n1, v1, r, n2);
    GetFirst(n2, v2, Param(n3, v3));
    GetLater(n1, v1, r, n3);
    GetLater(n2, v2, Param(n3, v3), n3);
    GetLast(n3, v3);
  }

  predicate PlainBase(base: string) { '?' !in base && '#' !in base }

  lemma QueryFound(base: string, q: string)
    requires PlainBase(base) && '#' !in q
    ensures Query(base + ['?'] + q) == q
  {
    CutNowhere(base + ['?'] + q, '#');
    CutHere(base, '?', q);
  }

  lemma NoneInJoin(c: char, x: string, y: string, z: string)
    requires c != '&' && c !in x && c !in y && c !in z
    ensures c !in x + ['&'] + (y + ['&'] + z)
  {
  }

  lemma NoFragment(h: string, p: string, x: string)
    requires Inert(h) && Inert(p) && Inert(x)
    ensures '#' !in Param("server", h) + ['&'] + (Param("port", p) + ['&'] + Param("secret", x))
  {
    Names();
    ParamIsInert("server", h);
    ParamIsInert("port", p);
    ParamIsInert("secret", x);
    NoneInJoin('#', Param("server", h), Param("port", p), Param("secret", x));
  }

  lemma BuiltQueryRead(base: string, host: string, port: int, secretHex: string, domain: string)
    requires IsBytes(host) && IsBytes(domain) && PlainBase(base) && Build(base, host, port, secretHex, domain).Success?
    ensures var q := Query(Build(base, host, port, secretHex, domain).value);
      && QueryGet(q, "server") == Some(host) && QueryGet(q, "port") == Some(Itoa(port))
      && QueryGet(q, "secret") == Some("ee" + ToLower(secretHex) + HexEncode(domain))
  {
    var h, p, s, d := QueryEscape(host), Itoa(port), ToLower(secretHex), HexEncode(domain);
    var x := "ee" + s + d;
    EscapeReadsBack(host);
    HexReadsBack(domain);
    DigitsAreUnreserved(port);
    UnreservedReadsBack(p);
    assert IsHex(x) by { assert IsHex("ee"); }
    HexIsUnreserved(x);
    UnreservedReadsBack(x);
    LinkIsQuery(base, h, p, s, d);
    NoFragment(h, p, x);
    QueryFound(base, Param("server", h) + ['&'] + (Param("port", p) + ['&'] + Param("secret", x)));
    Names();
    QueryRead("server", h, "port", p, "secret", x);
  }

  /** Whatever a link was built from is what it says: the host and the domain byte for byte, the
      port, and the secret in lower case. */
  lemma LinkRoundTrip(base: string, host: string, port: int, secretHex: string, domain: string)
    requires IsBytes(host) && IsBytes(domain) && PlainBase(base) && Build(base, host, port, secretHex, domain).Success?
    ensures Decode(Build(base, host, port, secretHex, domain).value)
      == Some(Target(host, port, ToLower(secretHex), domain))
  {
    var s, d := ToLower(secretHex), HexEncode(domain);
    var x := "ee" + s + d;
    BuiltQueryRead(base, host, port, secretHex, domain);
    AtoiInvertsItoa(port);
    HexReadsBack(domain);
    assert x[..2] == "ee" && x[2..34] == s && x[34..] == d;
  }

  // ---- Which links there are ----

  predicate IsSecret(s: string) {
    |s| == 32 && forall i :: 0 <= i < 32 ==> s[i] in "0123456789abcdefABCDEF"
  }

  lemma HexIsDigits(c: char)
    ensures HexValue(c).Some? <==> c in "0123456789abcdefABCDEF"
  {
    var s := "0123456789abcdefABCDEF";
    assert |s| == 22;
    if HexValue(c).Some? {
      var k := if c <= '9' then c as int - '0' as int else if c >= 'a' then c as int - 'a' as int + 10
               else c as int - 'A' as int + 16;
      assert s[k] == c;
    }
  }

  // The same digit, in lower case.
  lemma LowerIsHex(c: char)
    ensures HexValue(LowerChar(c)) == HexValue(c)
    ensures HexValue(c).Some? ==> LowerChar(c) in "0123456789abcdef"
  {
    var s := "0123456789abcdef";
    if HexValue(c).Some? {
      var d := LowerChar(c);
      var k := if d <= '9' then d as int - '0' as int else d as int - 'a' as int + 10;
      assert s[k] == d;
    }
  }

  lemma SecretIsNormal(s: string)
    ensures NormalizeSecret(s).Success? <==> IsSecret(s)
    ensures IsSecret(s) ==> IsHex(s)
  {
    forall i | 0 <= i < |s| ensures HexValue(ToLower(s)[i]).Some? <==> s[i] in "0123456789abcdefABCDEF" {
      LowerIsHex(s[i]);
      HexIsDigits(s[i]);
    }
    forall i | 0 <= i < |s| ensures HexValue(s[i]).Some? <==> s[i] in "0123456789abcdefABCDEF" { HexIsDigits(s[i]); }
  }

  /** A link can be built exactly for a secret of 32 hexadecimal digits, a host, a port in range and a
      domain, and otherwise the error names the first of them that is wrong. It is a tg link or the
      https one, and the secret in it has the digits it was given, in lower case. */
  lemma LinkExists(host: string, port: int, secretHex: string, domain: string)
    requires IsBytes(host) && IsBytes(domain)
    ensures var r := FakeTLS(host, port, secretHex, domain);
      && (r.Success? <==> IsSecret(secretHex) && host != "" && 1 <= port <= 65535 && domain != "")
      && (r.Failure? ==> r.error == if !IsSecret(secretHex) then BadSecret else if host == "" then NoHost
                                    else if port < 1 || port > 65535 then PortOutOfRange else NoDomain)
      && (r.Success? ==> "tg://proxy?" <= r.value)
    ensures var r := FakeTLSHTTPS(host, port, secretHex, domain);
      r.Success? ==> "https://t.me/proxy?" <= r.value
    ensures IsSecret(secretHex) ==> forall i :: 0 <= i < 32 ==>
      HexValue(ToLower(secretHex)[i]) == HexValue(secretHex[i]) && ToLower(secretHex)[i] in "0123456789abcdef"
  {
    SecretIsNormal(secretHex);
    if IsSecret(secretHex) {
      forall i | 0 <= i < 32
        ensures HexValue(ToLower(secretHex)[i]) == HexValue(secretHex[i])
        ensures ToLower(secretHex)[i] in "0123456789abcdef"
      {
        LowerIsHex(secretHex[i]);
      }
    }
    if FakeTLS(host, port, secretHex, domain).Success? {
      Begun(TG, host, port, secretHex, domain);
      Begun(HTTPS, host, port, secretHex, domain);
      assert TG + "?" == "tg://proxy?" && HTTPS + "?" == "https://t.me/proxy?";
    }
  }

  lemma Begun(base: string, host: string, port: int, secretHex: string, domain: string)
    requires IsBytes(host) && IsBytes(domain) && Build(base, host, port, secretHex, domain).Success?
    ensures base + "?" <= Build(base, host, port, secretHex, domain).value
  {
    var l := Build(base, host, port, secretHex, domain).value;
    assert l[..|base|] == base && l[|base|] == '?';
  }

  lemma KnownBases()
    ensures PlainBase(TG) && PlainBase(HTTPS)
  {
  }

  /** Two links are the same text exactly when they are for the same host, port and domain and
      the same secret up to its letters' case. */
  lemma LinksAreInjective(h1: string, p1: int, s1: string, d1: string, h2: string, p2: int, s2: string, d2: string)
    requires IsBytes(h1) && IsBytes(d1) && IsBytes(h2) && IsBytes(d2)
    requires FakeTLS(h1, p1, s1, d1).Success? && FakeTLS(h2, p2, s2, d2).Success?
    ensures FakeTLS(h1, p1, s1, d1) == FakeTLS(h2, p2, s2, d2) <==>
      h1 == h2 && p1 == p2 && d1 == d2 && ToLower(s1) == ToLower(s2)
  {
    KnownBases();
    LinkRoundTrip(TG, h1, p1, s1, d1);
    LinkRoundTrip(TG, h2, p2, s2, d2);
  }

  /** The two forms of a link say the same. */
  lemma FormsAgree(host: string, port: int, secretHex: string, domain: string)
    requires IsBytes(host) && IsBytes(domain)
    ensures FakeTLS(host, port, secretHex, domain).Success? <==> FakeTLSHTTPS(host, port, secretHex, domain).Success?
    ensures FakeTLS(host, port, secretHex, domain).Success? ==>
      Decode(FakeTLS(host, port, secretHex, domain).value) == Decode(FakeTLSHTTPS(host, port, secretHex, domain).value)
  {
    KnownBases();
    if FakeTLS(host, port, secretHex, domain).Success? {
      LinkRoundTrip(TG, host, port, secretHex, domain);
      LinkRoundTrip(HTTPS, host, port, secretHex, domain);
    }
  }

  // ---- Which link is shown, and the host beside it ----

  const PLACEHOLDER := "SERVER-IP"

  // The service's own link; empty when it cannot be built.
  function LocalLink(publicHost: string, p: Proxy): string
    requires IsBytes(publicHost) && IsBytes(p.tlsDomain)
  {
    LocalHostIsBytes(publicHost);
    match FakeTLS(if publicHost == "" then PLACEHOLDER else publicHost, p.port, p.secret, p.tlsDomain)
    case Failure(_) => ""
    case Success(l) => l
  }

  lemma LocalHostIsBytes(publicHost: string)
    requires IsBytes(publicHost)
    ensures IsBytes(if publicHost == "" then PLACEHOLDER else publicHost)
  {
  }

  function ReconcileLink(local: string, publicHostSet: bool, telemtLinks: seq<string>): (string, bool) {
    if !publicHostSet && telemtLinks != [] && telemtLinks[0] != "" then (telemtLinks[0], true) else (local, false)
  }

  function LinkFor(publicHost: string, p: Proxy, telemtLinks: seq<string>): (string, bool)
    requires IsBytes(publicHost) && IsBytes(p.tlsDomain)
  {
    var local := if publicHost != "" then LocalLink(publicHost, p) else "";
    var (l, fromTelemt) := ReconcileLink(local, publicHost != "", telemtLinks);
    (l, fromTelemt || l != "")
  }

  function DisplayHost(publicHost: string, link: string, ok: bool): string {
    var fallback := if publicHost != "" then publicHost else PLACEHOLDER;
    if !ok then fallback
    else
      match QueryGet(Query(link), "server")
      case Some(h) => if h != "" then h else fallback
      case None => fallback
  }

  /** The host shown beside a link the panel built is the host the link was built with. */
  lemma DisplayedHostIsTheLinks(publicHost: string, base: string, host: string, port: int, secretHex: string,
      domain: string)
    requires IsBytes(host) && IsBytes(domain) && PlainBase(base) && Build(base, host, port, secretHex, domain).Success?
    ensures DisplayHost(publicHost, Build(base, host, port, secretHex, domain).value, true) == host
  {
    BuiltQueryRead(base, host, port, secretHex, domain);
  }

  /** What the operator is shown. With a public host configured: a link for that host and the
      row's own port, secret and domain, whatever telemt reports, or none if one cannot be built.
      Without: telemt's own link or none, never one for the placeholder host. */
  lemma ShownLink(publicHost: string, p: Proxy, telemtLinks: seq<string>)
    requires IsBytes(publicHost) && IsBytes(p.tlsDomain)
    ensures var (l, ok) := LinkFor(publicHost, p, telemtLinks);
      && (ok && publicHost != "" ==> Decode(l) == Some(Target(publicHost, p.port, ToLower(p.secret), p.tlsDomain))
                                     && DisplayHost(publicHost, l, ok) == publicHost)
      && (ok && publicHost == "" ==> telemtLinks != [] && l == telemtLinks[0] && l != "")
      && (!ok ==> DisplayHost(publicHost, l, ok) == if publicHost == "" then "SERVER-IP" else publicHost)
      && (!ok ==> l == "" && if publicHost == "" then telemtLinks == [] || telemtLinks[0] == ""
                             else FakeTLS(publicHost, p.port, p.secret, p.tlsDomain).Failure?)
  {
    KnownBases();
    if publicHost != "" && FakeTLS(publicHost, p.port, p.secret, p.tlsDomain).Success? {
      LinkRoundTrip(TG, publicHost, p.port, p.secret, p.tlsDomain);
      DisplayedHostIsTheLinks(publicHost, TG, publicHost, p.port, p.secret, p.tlsDomain);
    }
  }
}
