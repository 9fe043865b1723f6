/** config.toml: the guard in front of it, the text it is, and the reader that gets the spec back. */
module Tconfig {
  import opened Wrappers
  import opened Entities
  import opened Lines
  import opened Toml
  import opened Tables

  // ---- The guard ----

  datatype Complaint =
    | UsernameEmpty | SecretNotHex | AdTagNotHex | PortOutOfRange
    | DomainEmpty | TokenEmpty | WhitelistEmpty | Unquotable(value: string)

  predicate IsHexDigit(c: char) { '0' <= c <= '9' || 'a' <= c <= 'f' || 'A' <= c <= 'F' }

  predicate Hex32(v: string) { |v| == 32 && forall i :: 0 <= i < 32 ==> IsHexDigit(v[i]) }

  // None of the characters `"`, `\` and newline.
  predicate Quotable(v: string) { AllPlain(v, false) }

  function FirstUnquotable(values: seq<string>): Option<string> {
    if values == [] then None
    else if !Quotable(values[0]) then Some(values[0])
    else FirstUnquotable(values[1..])
  }

  function Validate(s: Spec): Option<Complaint> {
    if s.username == "" then Some(UsernameEmpty)
    else if !Hex32(s.secret) then Some(SecretNotHex)
    else if s.adTag != "" && !Hex32(s.adTag) then Some(AdTagNotHex)
    else if !(1 <= s.port <= 65535) then Some(PortOutOfRange)
    else if s.tlsDomain == "" then Some(DomainEmpty)
    else if s.apiToken == "" then Some(TokenEmpty)
    else if s.apiWhitelist == [] then Some(WhitelistEmpty)
    else
      match FirstUnquotable([s.tlsDomain, s.apiToken, s.publicHost, s.username] + s.apiWhitelist)
      case Some(v) => Some(Unquotable(v))
      case None => None
  }

  // ---- The text ----

  const GENERAL := "general"
  const MODES := "general.modes"
  const LINKS := "general.links"
  const SERVER := "server"
  const API := "server.api"
  const LISTENERS := "server.listeners"
  const CENSORSHIP := "censorship"
  const USERS := "access.users"
  const AD_TAGS := "access.user_ad_tags"
  const MAX_CONNS := "access.user_max_tcp_conns"
  const EXPIRATIONS := "access.user_expirations"
  const QUOTAS := "access.user_data_quota"
  const MAX_IPS := "access.user_max_unique_ips"

  // The tables in the order the template writes them.
  const NAMES := [GENERAL, MODES, LINKS, SERVER, API, LISTENERS, CENSORSHIP, USERS,
                  AD_TAGS, MAX_CONNS, EXPIRATIONS, QUOTAS, MAX_IPS]

  function Host(s: Spec): seq<(string, Value)> {
    if s.publicHost == "" then [] else [("public_host", Str(s.publicHost))]
  }

  function Fixed(s: Spec): seq<Section> {
    [Section(false, GENERAL, [("use_middle_proxy", Bool(true)), ("log_level", Str("normal"))]),
     Section(false, MODES, [("classic", Bool(false)), ("secure", Bool(false)), ("tls", Bool(true))]),
     Section(false, LINKS, [("show", Str("*"))] + Host(s) + [("public_port", Int(s.port))]),
     Section(false, SERVER, [("port", Int(s.port))]),
     Section(false, API, [("enabled", Bool(true)), ("listen", Str("0.0.0.0:9091")), ("whitelist", Strs(s.apiWhitelist)),
                          ("auth_header", Str(s.apiToken)), ("minimal_runtime_enabled", Bool(true)),
                          ("minimal_runtime_cache_ttl_ms", Int(1000))]),
     Section(true, LISTENERS, [("ip", Str("0.0.0.0")), ("port", Int(s.port))]),
     Section(false, CENSORSHIP, [("tls_domain", Str(s.tlsDomain)), ("mask", Bool(true)), ("tls_emulation", Bool(true)),
                                 ("tls_front_dir", Str("tlsfront")), ("unknown_sni_action", Str("reject_handshake"))]),
     Section(false, USERS, [(s.username, Str(s.secret))])]
  }

  // A limit's table, left out altogether when there is no limit.
  function Limit(name: string, user: string, v: Option<Value>): seq<Section> {
    match v case None => [] case Some(x) => [Section(false, name, [(user, x)])]
  }

  function OfStr(v: Option<string>): Option<Value> { match v case None => None case Some(x) => Some(Str(x)) }
  function OfInt(v: Option<int>): Option<Value> { match v case None => None case Some(n) => Some(Int(n)) }

  function LimitValue(s: Spec, name: string): Option<Value> {
    if name == AD_TAGS then (if s.adTag == "" then None else Some(Str(s.adTag)))
    else if name == MAX_CONNS then OfInt(s.maxConns)
    else if name == EXPIRATIONS then OfStr(s.expiration)
    else if name == QUOTAS then OfInt(s.quota)
    else if name == MAX_IPS then OfInt(s.maxIps)
    else None
  }

  function Limits(s: Spec, names: seq<string>): seq<Section> {
    if names == [] then [] else Limit(names[0], s.username, LimitValue(s, names[0])) + Limits(s, names[1..])
  }

  function Sections(s: Spec): seq<Section> { Fixed(s) + Limits(s, NAMES[8..]) }

  const NOTICE := " Generated by telemt-panel." + " Edits here are overwritten" + " when the proxy is"
  const ADVICE := " recreated; change" + " settings through the" + " panel instead."

  const PREAMBLE := [Comment(NOTICE), Comment(ADVICE)]

  function Text(s: Spec): string { Print(PREAMBLE + Flatten(Sections(s))) }

  function Render(s: Spec): Result<string, Complaint> {
    match Validate(s) case Some(c) => Failure(c) case None => Success(Text(s))
  }

  // ---- The reader ----

  function ReadSections(text: string, strict: bool): Option<seq<Section>> {
    match ReadLines(SplitLines(text), strict) case None => None case Some(ls) => Group([ROOT], ls)
  }

  predicate IsStr(v: Option<Value>) { v.Some? && v.value.Str? }
  predicate IsInt(v: Option<Value>, lo: int, hi: int) { v.Some? && v.value.Int? && lo <= v.value.n < hi }

  // The user is the first one the users' table names; every other field is looked up, by the names
  // telemt has for them. The port must be the same in the three places that give it.
  function Extract(secs: seq<Section>): Option<Spec> {
    match Find(secs, "access.users")
    case None => None
    case Some(users) =>
      if users.pairs == [] then None
      else
        var user := users.pairs[0].0;
        var secret, port := At(secs, "access.users", user), At(secs, "server", "port");
        var domain, token := At(secs, "censorship", "tls_domain"), At(secs, "server.api", "auth_header");
        var list, host := At(secs, "server.api", "whitelist"), At(secs, "general.links", "public_host");
        var adTag, conns := At(secs, "access.user_ad_tags", user), At(secs, "access.user_max_tcp_conns", user);
        var exp, quota := At(secs, "access.user_expirations", user), At(secs, "access.user_data_quota", user);
        var ips := At(secs, "access.user_max_unique_ips", user);
        if && IsStr(secret) && port.Some? && port.value.Int? && IsStr(domain) && IsStr(token)
           && At(secs, "general.links", "public_port") == port && At(secs, "server.listeners", "port") == port
           && list.Some? && list.value.Strs? && (host.None? || IsStr(host)) && (adTag.None? || IsStr(adTag))
           && (conns.None? || IsInt(conns, -TWO63, TWO63)) && (exp.None? || IsStr(exp))
           && (quota.None? || IsInt(quota, 0, TWO64)) && (ips.None? || IsInt(ips, -TWO63, TWO63))
        then Some(Spec(user, secret.value.s, port.value.n, domain.value.s,
                       if adTag.None? then "" else adTag.value.s, token.value.s, list.value.ss,
                       if host.None? then "" else host.value.s,
                       if quota.None? then None else Some(quota.value.n), if exp.None? then None else Some(exp.value.s),
                       if conns.None? then None else Some(conns.value.n),
                       if ips.None? then None else Some(ips.value.n)))
        else None
  }

  function ReadSpec(text: string, strict: bool): Option<Spec> {
    match ReadSections(text, strict) case None => None case Some(secs) => Extract(secs)
  }
}
