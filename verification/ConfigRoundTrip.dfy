/** Reading a rendered config.toml gives the spec back: exactly when. */
module ConfigRoundTrip {
  import opened Wrappers
  import opened Entities
  import opened Lines
  import opened Toml
  import opened Tables
  import opened Tconfig

  // ---- The tables' names and keys ----

  predicate Distinct(names: seq<string>) { forall i, j :: 0 <= i < j < |names| ==> names[i] != names[j] }

  lemma NamesDiffer()
    ensures |NAMES| == 13 && Distinct(NAMES)
  {
    assert MODES[8] != LINKS[8];
    assert API[0] != CENSORSHIP[0];
    assert |NAMES[0]| == 7 && |NAMES[1]| == 13 && |NAMES[2]| == 13 && |NAMES[3]| == 6 && |NAMES[4]| == 10;
    assert |NAMES[5]| == 16 && |NAMES[6]| == 10 && |NAMES[7]| == 12 && |NAMES[8]| == 19;
    assert |NAMES[9]| == 25 && |NAMES[10]| == 23 && |NAMES[11]| == 22 && |NAMES[12]| == 26;
  }

  lemma FixedNames()
    ensures IsName(GENERAL) && IsName(MODES) && IsName(LINKS) && IsName(SERVER)
    ensures IsName(API) && IsName(LISTENERS) && IsName(CENSORSHIP) && IsName(USERS)
  {
  }

  lemma LimitNames()
    ensures IsName(AD_TAGS) && IsName(EXPIRATIONS) && IsName(QUOTAS)
  {
  }

  lemma CountLimitNames()
    ensures IsName(MAX_CONNS) && IsName(MAX_IPS)
  {
  }

  lemma FixedKeys(s: Spec)
    ensures WellKeyed(Fixed(s))
  {
  }

  // ---- Which documents are printable ----

  predicate SectionFits(sec: Section, strict: bool) {
    && IsName(sec.name)
    && forall i :: 0 <= i < |sec.pairs| ==> IsBareKey(sec.pairs[i].0) && FitsValue(sec.pairs[i].1, strict)
  }

  predicate AllFit(secs: seq<Section>, strict: bool) { forall i :: 0 <= i < |secs| ==> SectionFits(secs[i], strict) }

  predicate LinesFit(ls: seq<Line>, strict: bool) { forall i :: 0 <= i < |ls| ==> Fits(ls[i], strict) }

  lemma LinesFitAppend(a: seq<Line>, b: seq<Line>, strict: bool)
    ensures LinesFit(a + b, strict) <==> LinesFit(a, strict) && LinesFit(b, strict)
  {
    assert LinesFit(a + b, strict) ==> LinesFit(b, strict) by {
      if LinesFit(a + b, strict) {
        forall i | 0 <= i < |b| ensures Fits(b[i], strict) { assert (a + b)[|a| + i] == b[i]; }
      }
    }
    assert LinesFit(a + b, strict) ==> LinesFit(a, strict) by {
      if LinesFit(a + b, strict) {
        forall i | 0 <= i < |a| ensures Fits(a[i], strict) { assert (a + b)[i] == a[i]; }
      }
    }
  }

  predicate PairsFit(pairs: seq<(string, Value)>, strict: bool) {
    forall i :: 0 <= i < |pairs| ==> IsBareKey(pairs[i].0) && FitsValue(pairs[i].1, strict)
  }

  lemma {:induction false} PairLinesFit(pairs: seq<(string, Value)>, strict: bool)
    ensures LinesFit(PairLines(pairs), strict) <==> PairsFit(pairs, strict)
  {
    if pairs != [] {
      PairLinesFit(pairs[1..], strict);
      var first := [Pair(pairs[0].0, pairs[0].1)];
      LinesFitAppend(first, PairLines(pairs[1..]), strict);
      assert first[0] == Pair(pairs[0].0, pairs[0].1);
      assert PairsFit(pairs, strict) <==> Fits(first[0], strict) && PairsFit(pairs[1..], strict);
    }
  }

  lemma {:induction false} FlattenFits(secs: seq<Section>, strict: bool)
    ensures LinesFit(Flatten(secs), strict) <==> AllFit(secs, strict)
  {
    if secs != [] {
      var sec := secs[0];
      var head := [Blank, HeaderLine(sec)];
      FlattenFits(secs[1..], strict);
      PairLinesFit(sec.pairs, strict);
      LinesFitAppend(head + PairLines(sec.pairs), Flatten(secs[1..]), strict);
      LinesFitAppend(head, PairLines(sec.pairs), strict);
      assert LinesFit(head, strict) <==> IsName(sec.name) by { assert head[1] == HeaderLine(sec) && head[0] == Blank; }
      assert AllFit(secs, strict) <==> SectionFits(sec, strict) && AllFit(secs[1..], strict);
    }
  }

  // The fields a template prints as they are, and the quota, are ones the reader can take.
  predicate Clean(s: Spec, strict: bool) { FixedClean(s, strict) && LimitsClean(s, strict) }

  predicate FixedClean(s: Spec, strict: bool) {
    && AllPlain(s.publicHost, strict) && AllPlain(s.apiToken, strict) && AllPlain(s.tlsDomain, strict)
    && (forall i :: 0 <= i < |s.apiWhitelist| ==> AllPlain(s.apiWhitelist[i], strict))
  }

  predicate LimitsClean(s: Spec, strict: bool) {
    && (s.expiration.Some? ==> AllPlain(s.expiration.value, strict))
    && (strict && s.quota.Some? ==> s.quota.value < TWO63)
  }

  lemma HexIsPlain(v: string, strict: bool)
    requires Hex32(v)
    ensures AllPlain(v, strict)
  {
  }

  lemma GeneralKeys()
    ensures IsBareKey("use_middle_proxy") && IsBareKey("log_level")
    ensures IsBareKey("classic") && IsBareKey("secure") && IsBareKey("tls")
  {
  }

  lemma LinkKeys()
    ensures IsBareKey("show") && IsBareKey("public_host") && IsBareKey("public_port")
    ensures IsBareKey("port") && IsBareKey("ip")
  {
  }

  lemma ApiKeys()
    ensures IsBareKey("enabled") && IsBareKey("listen") && IsBareKey("whitelist") && IsBareKey("auth_header")
  {
  }

  lemma RuntimeKeys()
    ensures IsBareKey("minimal_runtime_enabled") && IsBareKey("minimal_runtime_cache_ttl_ms")
  {
  }

  lemma CensorshipKeys()
    ensures IsBareKey("tls_domain") && IsBareKey("mask") && IsBareKey("tls_emulation")
    ensures IsBareKey("tls_front_dir") && IsBareKey("unknown_sni_action")
  {
  }

  lemma PlainSettings(strict: bool)
    ensures AllPlain("normal", strict) && AllPlain("*", strict) && AllPlain("0.0.0.0:9091", strict)
    ensures AllPlain("0.0.0.0", strict) && AllPlain("tlsfront", strict) && AllPlain("reject_handshake", strict)
  {
  }

  lemma GeneralFits(s: Spec, strict: bool)
    ensures SectionFits(Fixed(s)[0], strict) && SectionFits(Fixed(s)[1], strict)
  {
    FixedNames();
    GeneralKeys();
    PlainSettings(strict);
  }

  lemma ServerFits(s: Spec, strict: bool)
    requires 1 <= s.port <= 65535
    ensures SectionFits(Fixed(s)[3], strict) && SectionFits(Fixed(s)[5], strict)
  {
    FixedNames();
    LinkKeys();
    PlainSettings(strict);
  }

  lemma LinksFit(s: Spec, strict: bool)
    requires 1 <= s.port <= 65535
    ensures SectionFits(Fixed(s)[2], strict) <==> AllPlain(s.publicHost, strict)
  {
    FixedNames();
    LinkKeys();
    PlainSettings(strict);
    var pairs := Fixed(s)[2].pairs;
    if s.publicHost != "" { assert pairs[1] == ("public_host", Str(s.publicHost)); }
  }

  lemma ApiFits(s: Spec, strict: bool)
    ensures SectionFits(Fixed(s)[4], strict) <==>
      AllPlain(s.apiToken, strict) && forall i :: 0 <= i < |s.apiWhitelist| ==> AllPlain(s.apiWhitelist[i], strict)
  {
    FixedNames();
    ApiKeys();
    RuntimeKeys();
    PlainSettings(strict);
    var pairs := Fixed(s)[4].pairs;
    assert pairs[2] == ("whitelist", Strs(s.apiWhitelist)) && pairs[3] == ("auth_header", Str(s.apiToken));
  }

  lemma CensorshipFits(s: Spec, strict: bool)
    ensures SectionFits(Fixed(s)[6], strict) <==> AllPlain(s.tlsDomain, strict)
  {
    FixedNames();
    CensorshipKeys();
    PlainSettings(strict);
    var pairs := Fixed(s)[6].pairs;
    assert pairs[0] == ("tls_domain", Str(s.tlsDomain));
  }

  lemma UsersFit(s: Spec, strict: bool)
    requires IsBareKey(s.username) && Hex32(s.secret)
    ensures SectionFits(Fixed(s)[7], strict)
  {
    FixedNames();
    HexIsPlain(s.secret, strict);
  }

  lemma FixedFits(s: Spec, strict: bool)
    requires IsBareKey(s.username) && Hex32(s.secret) && 1 <= s.port <= 65535
    ensures AllFit(Fixed(s), strict) <==> FixedClean(s, strict)
  {
    GeneralFits(s, strict);
    ServerFits(s, strict);
    LinksFit(s, strict);
    ApiFits(s, strict);
    CensorshipFits(s, strict);
    UsersFit(s, strict);
    var f := Fixed(s);
    assert |f| == 8;
    assert AllFit(f, strict) ==> SectionFits(f[2], strict) && SectionFits(f[4], strict) && SectionFits(f[6], strict);
  }

  predicate LimitFits(s: Spec, name: string, strict: bool) {
    LimitValue(s, name).Some? ==> FitsValue(LimitValue(s, name).value, strict)
  }

  lemma AllFitAppend(a: seq<Section>, b: seq<Section>, strict: bool)
    ensures AllFit(a + b, strict) <==> AllFit(a, strict) && AllFit(b, strict)
  {
    if AllFit(a + b, strict) {
      forall i | 0 <= i < |a| ensures SectionFits(a[i], strict) { assert (a + b)[i] == a[i]; }
      forall i | 0 <= i < |b| ensures SectionFits(b[i], strict) { assert (a + b)[|a| + i] == b[i]; }
    }
  }

  lemma OneLimitFits(name: string, user: string, v: Option<Value>, strict: bool)
    requires IsName(name) && IsBareKey(user)
    ensures AllFit(Limit(name, user, v), strict) <==> (v.Some? ==> FitsValue(v.value, strict))
  {
    if v.Some? {
      var sec := Section(false, name, [(user, v.value)]);
      assert Limit(name, user, v) == [sec];
      assert SectionFits(sec, strict) <==> FitsValue(v.value, strict) by { assert sec.pairs[0] == (user, v.value); }
      assert AllFit([sec], strict) <==> SectionFits(sec, strict) by { assert [sec][0] == sec; }
    }
  }

  lemma {:induction false} LimitsFit(s: Spec, names: seq<string>, strict: bool)
    requires IsBareKey(s.username) && forall i :: 0 <= i < |names| ==> IsName(names[i])
    ensures AllFit(Limits(s, names), strict) <==> forall i :: 0 <= i < |names| ==> LimitFits(s, names[i], strict)
  {
    if names != [] {
      OneLimitFits(names[0], s.username, LimitValue(s, names[0]), strict);
      LimitsFit(s, names[1..], strict);
      AllFitAppend(Limit(names[0], s.username, LimitValue(s, names[0])), Limits(s, names[1..]), strict);
    }
  }

  lemma LimitsAreClean(s: Spec, strict: bool)
    requires s.adTag != "" ==> Hex32(s.adTag)
    ensures (forall i :: 8 <= i < 13 ==> LimitFits(s, NAMES[i], strict)) <==> LimitsClean(s, strict)
  {
    NamesDiffer();
    if s.adTag != "" { HexIsPlain(s.adTag, strict); }
    assert LimitFits(s, AD_TAGS, strict) && LimitFits(s, MAX_CONNS, strict) && LimitFits(s, MAX_IPS, strict);
    assert LimitFits(s, NAMES[10], strict) <==> (s.expiration.Some? ==> AllPlain(s.expiration.value, strict));
    assert LimitFits(s, NAMES[11], strict) <==> (strict && s.quota.Some? ==> s.quota.value < TWO63);
  }

  // A spec the guard lets through, for a user whose name is a bare key.
  predicate Accepted(s: Spec) { Validate(s).None? && IsBareKey(s.username) }

  /** The whole text is printable lines exactly when the spec is clean. */
  lemma TextFits(s: Spec, strict: bool)
    requires Accepted(s)
    ensures LinesFit(PREAMBLE + Flatten(Sections(s)), strict) <==> Clean(s, strict)
  {
    var names := NAMES[8..];
    LimitNames();
    CountLimitNames();
    assert forall i :: 0 <= i < 5 ==> IsName(names[i]) by {
      assert names == [AD_TAGS, MAX_CONNS, EXPIRATIONS, QUOTAS, MAX_IPS];
    }
    LimitsFit(s, names, strict);
    assert (forall i :: 0 <= i < |names| ==> LimitFits(s, names[i], strict))
      <==> (forall i :: 8 <= i < 13 ==> LimitFits(s, NAMES[i], strict)) by {
      assert forall i :: 8 <= i < 13 ==> NAMES[i] == names[i - 8];
    }
    LimitsAreClean(s, strict);
    FixedFits(s, strict);
    AllFitAppend(Fixed(s), Limits(s, names), strict);
    FlattenFits(Sections(s), strict);
    LinesFitAppend(PREAMBLE, Flatten(Sections(s)), strict);
    PreambleFits(strict);
  }

  lemma NoticeIsOneLine()
    ensures '\n' !in NOTICE
  {
    assert '\n' !in " Generated by telemt-panel.";
    assert '\n' !in " Edits here are overwritten";
    assert '\n' !in " when the proxy is";
  }

  lemma AdviceIsOneLine()
    ensures '\n' !in ADVICE
  {
    assert '\n' !in " recreated; change";
    assert '\n' !in " settings through the";
    assert '\n' !in " panel instead.";
  }

  lemma PreambleFits(strict: bool)
    ensures LinesFit(PREAMBLE, strict)
  {
    NoticeIsOneLine();
    AdviceIsOneLine();
  }

  // ---- Looking the fields up ----

  lemma {:induction false} LimitsAreNamed(s: Spec, names: seq<string>)
    requires Distinct(names)
    ensures var l := Limits(s, names);
      NamesDistinct(l) && WellKeyed(l) && forall i :: 0 <= i < |l| ==> l[i].name in names
  {
    if names != [] { LimitsAreNamed(s, names[1..]); }
  }

  lemma {:induction false} LimitFound(s: Spec, names: seq<string>, k: nat)
    requires Distinct(names) && k < |names|
    ensures var v := LimitValue(s, names[k]);
      Find(Limits(s, names), names[k]) ==
        if v.Some? then Some(Section(false, names[k], [(s.username, v.value)])) else None
  {
    var first, rest := Limit(names[0], s.username, LimitValue(s, names[0])), Limits(s, names[1..]);
    if k > 0 {
      FindAppend(first, rest, names[k]);
      LimitFound(s, names[1..], k - 1);
    } else if LimitValue(s, names[0]).None? {
      assert first + rest == rest;
      LimitsAreNamed(s, names[1..]);
      FindNone(rest, names[0]);
    }
  }

  function Read(s: Spec): seq<Section> { [ROOT] + Fixed(s) + Limits(s, NAMES[8..]) }

  lemma RootUnlike(i: nat)
    requires i < 13
    ensures NAMES[i] != ""
  {
    NamesDiffer();
  }

  lemma FixedIsNamed(s: Spec)
    ensures |Fixed(s)| == 8 && forall i :: 0 <= i < 8 ==> Fixed(s)[i].name == NAMES[i]
  {
  }

  lemma ReadIsDistinct(s: Spec)
    ensures NamesDistinct(Read(s)) && WellKeyed(Read(s))
  {
    NamesDiffer();
    FixedIsNamed(s);
    FixedKeys(s);
    LimitsAreNamed(s, NAMES[8..]);
    var r, l := Read(s), Limits(s, NAMES[8..]);
    forall i, j | 0 <= i < j < |r| ensures r[i].name != r[j].name {
      if i == 0 {
        assert r[j].name in NAMES;
        var k :| 0 <= k < 13 && NAMES[k] == r[j].name;
        RootUnlike(k);
      } else if j <= 8 {
        assert r[i].name == NAMES[i - 1] && r[j].name == NAMES[j - 1];
      } else if i <= 8 {
        var k :| 0 <= k < |NAMES[8..]| && NAMES[8..][k] == l[j - 9].name;
        assert r[i].name == NAMES[i - 1] && r[j].name == NAMES[8 + k];
      } else {
        assert r[i] == l[i - 9] && r[j] == l[j - 9];
      }
    }
    forall i | 0 <= i < |r| ensures KeysDistinct(r[i].pairs) {
      if i > 8 { assert r[i] == l[i - 9]; } else if i > 0 { assert r[i] == Fixed(s)[i - 1]; }
    }
  }

  lemma FixedAt(s: Spec, i: nat, j: nat)
    requires i < 8 && j < |Fixed(s)[i].pairs|
    ensures At(Read(s), Fixed(s)[i].name, Fixed(s)[i].pairs[j].0) == Some(Fixed(s)[i].pairs[j].1)
  {
    ReadIsDistinct(s);
    assert Read(s)[i + 1] == Fixed(s)[i];
    AtIs(Read(s), i + 1, j);
  }

  lemma LimitAt(s: Spec, k: nat)
    requires 8 <= k < 13
    ensures At(Read(s), NAMES[k], s.username) == LimitValue(s, NAMES[k])
  {
    NamesDiffer();
    FixedIsNamed(s);
    RootUnlike(k);
    var names := NAMES[8..];
    assert names[k - 8] == NAMES[k] && Distinct(names);
    forall i | 0 <= i < 9 ensures ([ROOT] + Fixed(s))[i].name != NAMES[k] {
      if i > 0 { assert ([ROOT] + Fixed(s))[i] == Fixed(s)[i - 1]; }
    }
    FindAppend([ROOT] + Fixed(s), Limits(s, names), NAMES[k]);
    LimitFound(s, names, k - 8);
  }

  lemma HostAt(s: Spec)
    ensures At(Read(s), LINKS, "public_host") == if s.publicHost == "" then None else Some(Str(s.publicHost))
    ensures At(Read(s), LINKS, "public_port") == Some(Int(s.port))
  {
    ReadIsDistinct(s);
    assert Read(s)[3] == Fixed(s)[2];
    var pairs := Fixed(s)[2].pairs;
    FixedAt(s, 2, |pairs| - 1);
    if s.publicHost == "" {
      FindIs(Read(s), 3);
      assert pairs == [("show", Str("*")), ("public_port", Int(s.port))];
      assert |"public_host"| == 11 && |"show"| == 4 && "public_host"[7] != "public_port"[7];
      assert Lookup(pairs, "public_host") == Lookup(pairs[1..], "public_host")
        == Lookup(pairs[1..][1..], "public_host");
    } else {
      FixedAt(s, 2, 1);
    }
  }

  lemma UserFound(s: Spec)
    ensures Find(Read(s), USERS) == Some(Section(false, USERS, [(s.username, Str(s.secret))]))
    ensures At(Read(s), USERS, s.username) == Some(Str(s.secret))
  {
    ReadIsDistinct(s);
    assert Read(s)[8] == Fixed(s)[7];
    FindIs(Read(s), 8);
  }

  lemma LimitValues(s: Spec)
    ensures LimitValue(s, AD_TAGS) == if s.adTag == "" then None else Some(Str(s.adTag))
    ensures LimitValue(s, MAX_CONNS) == OfInt(s.maxConns) && LimitValue(s, EXPIRATIONS) == OfStr(s.expiration)
    ensures LimitValue(s, QUOTAS) == OfInt(s.quota) && LimitValue(s, MAX_IPS) == OfInt(s.maxIps)
  {
    NamesDiffer();
    assert NAMES[8] == AD_TAGS && NAMES[9] == MAX_CONNS && NAMES[10] == EXPIRATIONS;
    assert NAMES[11] == QUOTAS && NAMES[12] == MAX_IPS;
  }

  ghost predicate HoldsFixed(secs: seq<Section>, s: Spec) {
    && Find(secs, USERS) == Some(Section(false, USERS, [(s.username, Str(s.secret))]))
    && At(secs, USERS, s.username) == Some(Str(s.secret))
    && At(secs, SERVER, "port") == At(secs, LINKS, "public_port") == At(secs, LISTENERS, "port") == Some(Int(s.port))
    && At(secs, CENSORSHIP, "tls_domain") == Some(Str(s.tlsDomain))
      && At(secs, API, "auth_header") == Some(Str(s.apiToken))
    && At(secs, API, "whitelist") == Some(Strs(s.apiWhitelist))
    && At(secs, LINKS, "public_host") == if s.publicHost == "" then None else Some(Str(s.publicHost))
  }

  ghost predicate HoldsLimits(secs: seq<Section>, s: Spec) {
    && At(secs, AD_TAGS, s.username) == (if s.adTag == "" then None else Some(Str(s.adTag)))
    && At(secs, MAX_CONNS, s.username) == OfInt(s.maxConns) && At(secs, MAX_IPS, s.username) == OfInt(s.maxIps)
    && At(secs, EXPIRATIONS, s.username) == OfStr(s.expiration) && At(secs, QUOTAS, s.username) == OfInt(s.quota)
  }

  lemma Extracted(secs: seq<Section>, s: Spec)
    requires HoldsFixed(secs, s) && HoldsLimits(secs, s)
    ensures Extract(secs) == Some(s)
  {
  }

  lemma ReadHoldsFixed(s: Spec)
    ensures HoldsFixed(Read(s), s)
  {
    UserFound(s);
    HostAt(s);
    FixedAt(s, 3, 0);
    FixedAt(s, 4, 2);
    FixedAt(s, 4, 3);
    FixedAt(s, 5, 1);
    FixedAt(s, 6, 0);
  }

  lemma ReadHoldsLimits(s: Spec)
    ensures HoldsLimits(Read(s), s)
  {
    LimitValues(s);
    LimitAt(s, 8);
    LimitAt(s, 9);
    LimitAt(s, 10);
    LimitAt(s, 11);
    LimitAt(s, 12);
  }

  /** The sections of a rendered spec hold the spec, absent limits and limits of zero told apart. */
  lemma FieldsExtract(s: Spec)
    ensures Extract(Read(s)) == Some(s)
  {
    ReadHoldsFixed(s);
    ReadHoldsLimits(s);
    Extracted(Read(s), s);
  }

  // ---- Reading the text ----

  lemma PreambleGroups(rest: seq<Line>)
    ensures Group([ROOT], PREAMBLE + rest) == Group([ROOT], rest)
  {
    var ls := PREAMBLE + rest;
    assert ls[1..][1..] == rest;
    assert Group([ROOT], ls) == Group([ROOT], ls[1..]);
  }

  lemma EmptyReads(strict: bool)
    ensures ReadLines(SplitLines(""), strict) == Some([Blank])
  {
    assert SplitLines("") == [""] && [""][1..] == [];
    ReadFirst("", [], Blank, strict);
    assert [""] + [] == [""] && [Blank] + [] == [Blank];
  }

  lemma SectionsAreKeyed(s: Spec)
    ensures [ROOT] + Sections(s) == Read(s) && NamesDistinct(Read(s)) && WellKeyed(Sections(s))
  {
    ReadIsDistinct(s);
    assert [ROOT] + Sections(s) == Read(s);
    forall i | 0 <= i < |Sections(s)|
      ensures KeysDistinct(Sections(s)[i].pairs)
    {
      assert Read(s)[i + 1] == Sections(s)[i];
    }
  }

  lemma TextGroups(s: Spec)
    ensures Group([ROOT], PREAMBLE + Flatten(Sections(s)) + [Blank]) == Some(Read(s))
  {
    var body := Flatten(Sections(s)) + [Blank];
    assert PREAMBLE + Flatten(Sections(s)) + [Blank] == PREAMBLE + body;
    PreambleGroups(body);
    SectionsAreKeyed(s);
    SectionsGroup([ROOT], Sections(s), [Blank]);
    assert [Blank][1..] == [];
  }

  lemma SectionsReadBack(s: Spec, strict: bool)
    requires Accepted(s) && Clean(s, strict)
    ensures ReadSections(Text(s), strict) == Some(Read(s))
  {
    var ls := PREAMBLE + Flatten(Sections(s));
    TextFits(s, strict);
    DocumentReadsBack(ls, "", strict);
    assert Print(ls) + "" == Print(ls);
    EmptyReads(strict);
    TextGroups(s);
  }

  lemma CleanReadsBack(s: Spec, strict: bool)
    requires Accepted(s) && Clean(s, strict)
    ensures ReadSpec(Text(s), strict) == Some(s)
  {
    SectionsReadBack(s, strict);
    FieldsExtract(s);
  }

  // ---- What every proxy is told alike ----

  // Telemt's own names and the values the panel relies on.
  ghost predicate HoldsCommon(secs: seq<Section>) {
    && At(secs, "general", "use_middle_proxy") == Some(Bool(true))
    && At(secs, "general", "log_level") == Some(Str("normal"))
    && At(secs, "general.modes", "classic") == Some(Bool(false))
    && At(secs, "general.modes", "secure") == Some(Bool(false))
    && At(secs, "general.modes", "tls") == Some(Bool(true))
    && At(secs, "general.links", "show") == Some(Str("*"))
  }

  ghost predicate HoldsServices(secs: seq<Section>) {
    && At(secs, "server.api", "enabled") == Some(Bool(true))
    && At(secs, "server.api", "listen") == Some(Str("0.0.0.0:9091"))
    && At(secs, "server.api", "minimal_runtime_enabled") == Some(Bool(true))
    && At(secs, "server.api", "minimal_runtime_cache_ttl_ms") == Some(Int(1000))
    && At(secs, "server.listeners", "ip") == Some(Str("0.0.0.0"))
    && At(secs, "censorship", "mask") == Some(Bool(true))
    && At(secs, "censorship", "tls_emulation") == Some(Bool(true))
    && At(secs, "censorship", "tls_front_dir") == Some(Str("tlsfront"))
    && At(secs, "censorship", "unknown_sni_action") == Some(Str("reject_handshake"))
  }

  lemma CommonAt(s: Spec)
    ensures HoldsCommon(Read(s))
  {
    FixedAt(s, 0, 0);
    FixedAt(s, 0, 1);
    FixedAt(s, 1, 0);
    FixedAt(s, 1, 1);
    FixedAt(s, 1, 2);
    FixedAt(s, 2, 0);
  }

  lemma ServicesAt(s: Spec)
    ensures HoldsServices(Read(s))
  {
    FixedAt(s, 4, 0);
    FixedAt(s, 4, 1);
    FixedAt(s, 4, 4);
    FixedAt(s, 4, 5);
    FixedAt(s, 5, 0);
    FixedAt(s, 6, 1);
    FixedAt(s, 6, 2);
    FixedAt(s, 6, 3);
    FixedAt(s, 6, 4);
  }

  /** Whatever the row, its file turns on the TLS mode and no other, the control API on its port, and
      the masking of a handshake that is not the proxy's. */
  lemma CommonSettings(s: Spec, strict: bool)
    requires Validate(s).None? && IsBareKey(s.username) && Clean(s, strict)
    ensures var secs := ReadSections(Text(s), strict);
      secs.Some? && HoldsCommon(secs.value) && HoldsServices(secs.value)
  {
    SectionsReadBack(s, strict);
    CommonAt(s);
    ServicesAt(s);
  }

  // ---- What the guard lets through ----

  predicate IsHexText(v: string) {
    |v| == 32 && forall i :: 0 <= i < 32 ==> '0' <= v[i] <= '9' || 'a' <= v[i] <= 'f' || 'A' <= v[i] <= 'F'
  }

  // Nothing that ends a quoted string or escapes in it.
  predicate StaysQuoted(v: string) { forall i :: 0 <= i < |v| ==> v[i] != '"' && v[i] != '\\' && v[i] != '\n' }

  predicate AllStayQuoted(vs: seq<string>) { forall i :: 0 <= i < |vs| ==> StaysQuoted(vs[i]) }

  lemma {:induction false} FirstUnquotableIs(vs: seq<string>)
    ensures FirstUnquotable(vs).None? <==> AllStayQuoted(vs)
  {
    if vs != [] {
      FirstUnquotableIs(vs[1..]);
      assert StaysQuoted(vs[0]) <==> Quotable(vs[0]);
      assert AllStayQuoted(vs) <==> StaysQuoted(vs[0]) && AllStayQuoted(vs[1..]);
    }
  }

  lemma QuotedParts(s: Spec)
    ensures AllStayQuoted([s.tlsDomain, s.apiToken, s.publicHost, s.username] + s.apiWhitelist) <==>
      && StaysQuoted(s.tlsDomain) && StaysQuoted(s.apiToken) && StaysQuoted(s.publicHost)
      && StaysQuoted(s.username) && AllStayQuoted(s.apiWhitelist)
  {
    var four := [s.tlsDomain, s.apiToken, s.publicHost, s.username];
    var vs := four + s.apiWhitelist;
    assert vs[0] == s.tlsDomain && vs[1] == s.apiToken && vs[2] == s.publicHost && vs[3] == s.username;
    assert forall i :: 0 <= i < |s.apiWhitelist| ==> vs[4 + i] == s.apiWhitelist[i];
    if AllStayQuoted(vs) {
      forall i | 0 <= i < |s.apiWhitelist| ensures StaysQuoted(s.apiWhitelist[i]) { assert StaysQuoted(vs[4 + i]); }
    }
  }

  /** The guard lets exactly these specs through. */
  lemma GuardAccepts(s: Spec)
    ensures Render(s).Success? <==>
      && s.username != "" && IsHexText(s.secret) && (s.adTag == "" || IsHexText(s.adTag)) && 1 <= s.port <= 65535
      && s.tlsDomain != "" && s.apiToken != "" && s.apiWhitelist != []
      && StaysQuoted(s.tlsDomain) && StaysQuoted(s.apiToken) && StaysQuoted(s.publicHost)
      && StaysQuoted(s.username) && AllStayQuoted(s.apiWhitelist)
  {
    FirstUnquotableIs([s.tlsDomain, s.apiToken, s.publicHost, s.username] + s.apiWhitelist);
    QuotedParts(s);
    assert Hex32(s.secret) <==> IsHexText(s.secret);
    assert Hex32(s.adTag) <==> IsHexText(s.adTag);
  }

  // ---- A text that is not clean ----

  lemma FixedIsQuotable(s: Spec)
    requires Validate(s).None?
    ensures FixedClean(s, false)
  {
    var values := [s.tlsDomain, s.apiToken, s.publicHost, s.username] + s.apiWhitelist;
    AllQuotable(values);
    assert values[0] == s.tlsDomain && values[1] == s.apiToken && values[2] == s.publicHost;
    forall i | 0 <= i < |s.apiWhitelist| ensures AllPlain(s.apiWhitelist[i], false) {
      assert values[4 + i] == s.apiWhitelist[i];
    }
  }

  lemma {:induction false} AllQuotable(values: seq<string>)
    requires FirstUnquotable(values).None?
    ensures forall i :: 0 <= i < |values| ==> Quotable(values[i])
  {
    if values != [] { AllQuotable(values[1..]); }
  }

  lemma {:induction false} FlattenAppend(a: seq<Section>, b: seq<Section>)
    ensures Flatten(a + b) == Flatten(a) + Flatten(b)
  {
    if a == [] {
      assert a + b == b;
    } else {
      assert (a + b)[1..] == a[1..] + b;
      FlattenAppend(a[1..], b);
    }
  }

  lemma {:induction false} PrintAppend(a: seq<Line>, b: seq<Line>)
    ensures Print(a + b) == Print(a) + Print(b)
  {
    if a == [] {
      assert a + b == b;
    } else {
      assert (a + b)[1..] == a[1..] + b;
      PrintAppend(a[1..], b);
    }
  }

  lemma {:induction false} LimitsAppend(s: Spec, a: seq<string>, b: seq<string>)
    ensures Limits(s, a + b) == Limits(s, a) + Limits(s, b)
  {
    if a == [] {
      assert a + b == b;
    } else {
      assert (a + b)[1..] == a[1..] + b;
      LimitsAppend(s, a[1..], b);
    }
  }

  // What comes before the expiration's table, and after it.
  function Before(s: Spec): seq<Section> { Fixed(s) + Limits(s, [AD_TAGS, MAX_CONNS]) }
  function After(s: Spec): seq<Section> { Limits(s, [QUOTAS, MAX_IPS]) }

  function LinesBefore(s: Spec): seq<Line> { PREAMBLE + Flatten(Before(s)) + [Blank, Header(EXPIRATIONS)] }

  lemma SplitAtExpiration(s: Spec)
    requires s.expiration.Some?
    ensures Sections(s) == Before(s) + [Section(false, EXPIRATIONS, [(s.username, Str(s.expiration.value))])] + After(s)
  {
    var names := NAMES[8..];
    assert names == [AD_TAGS, MAX_CONNS] + ([EXPIRATIONS] + [QUOTAS, MAX_IPS]);
    LimitsAppend(s, [AD_TAGS, MAX_CONNS], [EXPIRATIONS] + [QUOTAS, MAX_IPS]);
    LimitsAppend(s, [EXPIRATIONS], [QUOTAS, MAX_IPS]);
    LimitValues(s);
    assert [EXPIRATIONS][1..] == [];
    assert Limits(s, [EXPIRATIONS]) == [Section(false, EXPIRATIONS, [(s.username, Str(s.expiration.value))])] + [];
  }

  lemma TextAtExpiration(s: Spec)
    requires s.expiration.Some?
    ensures Text(s) == Print(LinesBefore(s)) +
      (ShowLine(Pair(s.username, Str(s.expiration.value))) + "\n" + Print(Flatten(After(s))))
  {
    var sec := Section(false, EXPIRATIONS, [(s.username, Str(s.expiration.value))]);
    SplitAtExpiration(s);
    FlattenAppend(Before(s) + [sec], After(s));
    FlattenAppend(Before(s), [sec]);
    var line := Pair(s.username, Str(s.expiration.value));
    assert sec.pairs[1..] == [] && [sec][1..] == [];
    assert PairLines(sec.pairs) == [line] + [];
    assert Flatten([sec]) == [Blank, Header(EXPIRATIONS)] + [line];
    assert PREAMBLE + Flatten(Sections(s)) == LinesBefore(s) + ([line] + Flatten(After(s)));
    PrintAppend(LinesBefore(s), [line] + Flatten(After(s)));
    assert ([line] + Flatten(After(s)))[1..] == Flatten(After(s));
  }

  lemma LinesBeforeFit(s: Spec)
    requires Accepted(s)
    ensures LinesFit(LinesBefore(s), false)
  {
    FixedIsQuotable(s);
    FixedFits(s, false);
    LimitNames();
    CountLimitNames();
    LimitValues(s);
    if s.adTag != "" { HexIsPlain(s.adTag, false); }
    LimitsFit(s, [AD_TAGS, MAX_CONNS], false);
    AllFitAppend(Fixed(s), Limits(s, [AD_TAGS, MAX_CONNS]), false);
    FlattenFits(Before(s), false);
    PreambleFits(false);
    LinesFitAppend(PREAMBLE, Flatten(Before(s)), false);
    LinesFitAppend(PREAMBLE + Flatten(Before(s)), [Blank, Header(EXPIRATIONS)], false);
  }

  lemma BeforeIsDistinct(s: Spec)
    ensures var b := [ROOT] + Before(s);
      && NamesDistinct(b) && WellKeyed(Before(s)) && |b| >= 9 && b[8].name == USERS
      && (forall i :: 0 <= i < |b| ==> b[i].name != EXPIRATIONS)
      && (forall i :: 0 <= i < 8 ==> b[i].name != USERS)
      && b[8] == Section(false, USERS, [(s.username, Str(s.secret))])
  {
    // Read(t) with a t that has an expiration has Before(s) as a part.
    var t := s.(expiration := Some(""));
    SplitAtExpiration(t);
    assert Before(t) == Before(s) by {
      LimitValues(s);
      LimitValues(t);
      assert [AD_TAGS, MAX_CONNS][1..] == [MAX_CONNS] && [MAX_CONNS][1..] == [];
      assert Limits(s, [MAX_CONNS]) == Limits(t, [MAX_CONNS]);
      assert Limits(s, [AD_TAGS, MAX_CONNS]) == Limits(t, [AD_TAGS, MAX_CONNS]);
    }
    ReadIsDistinct(t);
    var b, r := [ROOT] + Before(s), Read(t);
    assert r == [ROOT] + Sections(t);
    assert r[..|b|] == b && r[|b|].name == EXPIRATIONS;
    forall i | 0 <= i < |b| ensures b[i].name != EXPIRATIONS { assert r[i] == b[i]; }
    forall i, j | 0 <= i < j < |b| ensures b[i].name != b[j].name { assert r[i] == b[i] && r[j] == b[j]; }
    forall i | 0 <= i < |Before(s)| ensures KeysDistinct(Before(s)[i].pairs) { assert r[i + 1] == Before(s)[i]; }
    assert b[8] == Fixed(s)[7];
  }

  lemma ExpirationGroups(s: Spec, w: string, more: seq<Line>)
    ensures Group([ROOT], LinesBefore(s) + ([Pair(s.username, Str(w))] + more))
      == Group([ROOT] + Before(s) + [Section(false, EXPIRATIONS, [(s.username, Str(w))])], more)
  {
    var l := Pair(s.username, Str(w));
    var tail := [Blank, Header(EXPIRATIONS)] + ([l] + more);
    BeforeIsDistinct(s);
    assert LinesBefore(s) + ([l] + more) == PREAMBLE + (Flatten(Before(s)) + tail);
    PreambleGroups(Flatten(Before(s)) + tail);
    SectionsGroup([ROOT], Before(s), tail);
    ExpirationTable([ROOT] + Before(s), s.username, w, more);
  }

  lemma ExpirationTable(b: seq<Section>, user: string, w: string, more: seq<Line>)
    requires b != [] && forall i :: 0 <= i < |b| ==> b[i].name != EXPIRATIONS
    ensures Group(b, [Blank, Header(EXPIRATIONS)] + ([Pair(user, Str(w))] + more))
      == Group(b + [Section(false, EXPIRATIONS, [(user, Str(w))])], more)
  {
    var sec := Section(false, EXPIRATIONS, []);
    var pairs := [(user, Str(w))];
    HeaderGroups(b, sec, [Pair(user, Str(w))] + more);
    assert pairs[1..] == [] && PairLines(pairs) == [Pair(user, Str(w))] + [];
    assert sec.pairs + pairs == pairs;
    PairsGroup(b, sec, pairs, more);
  }

  // Whatever lines follow it, the value the expirations' table was first given is the one found.
  lemma WrongExpiration(s: Spec, w: string, more: seq<Line>)
    requires s.expiration.Some? && w != s.expiration.value
    ensures var r := Group([ROOT], LinesBefore(s) + ([Pair(s.username, Str(w))] + more));
      r.Some? ==> Extract(r.value) != Some(s)
  {
    var b := [ROOT] + Before(s);
    var c := b + [Section(false, EXPIRATIONS, [(s.username, Str(w))])];
    BeforeIsDistinct(s);
    ExpirationGroups(s, w, more);
    GroupExtends(c, more);
    var r := Group(c, more);
    if r.Some? { FirstExpiration(s, w, b, r.value); }
  }

  lemma FirstExpiration(s: Spec, w: string, b: seq<Section>, r: seq<Section>)
    requires s.expiration.Some? && w != s.expiration.value
    requires |b| >= 9 && b[8] == Section(false, USERS, [(s.username, Str(s.secret))])
    requires (forall i :: 0 <= i < 8 ==> b[i].name != USERS) && forall i :: 0 <= i < |b| ==> b[i].name != EXPIRATIONS
    requires Extends(r, b + [Section(false, EXPIRATIONS, [(s.username, Str(w))])])
    ensures Extract(r) != Some(s)
  {
    var c := b + [Section(false, EXPIRATIONS, [(s.username, Str(w))])];
    assert c[..|b|] == b;
    assert forall i :: 0 <= i < |b| ==> r[i] == b[i] by { assert r[..|b|] == b; }
    FindIs(r, 8);
    FindIs(r, |b|);
    assert r[|b|].pairs[0] == (s.username, Str(w));
    LookupIs(r[|b|].pairs, 0);
    assert At(r, EXPIRATIONS, s.username) == Some(Str(w));
  }

  lemma UncleanExpiration(s: Spec, strict: bool)
    requires Accepted(s) && s.expiration.Some? && !AllPlain(s.expiration.value, strict)
    ensures ReadSpec(Text(s), strict) != Some(s)
  {
    var before, rest := LinesBefore(s), Print(Flatten(After(s)));
    var tail := ShowLine(Pair(s.username, Str(s.expiration.value))) + "\n" + rest;
    TextAtExpiration(s);
    LinesBeforeFit(s);
    if LinesFit(before, strict) {
      DocumentReadsBack(before, tail, strict);
      UnfitFirstLine(s.username, s.expiration.value, rest, strict);
      var read := ReadLines(SplitLines(tail), strict);
      if read.Some? {
        var l := ReadLine(SplitLines(tail)[0], strict).value;
        assert read.value == [l] + read.value[1..];
        WrongExpiration(s, l.value.s, read.value[1..]);
      }
    } else {
      DocumentUnread(before, tail);
    }
  }

  lemma UncleanMisread(s: Spec, strict: bool)
    requires Accepted(s) && !Clean(s, strict)
    ensures ReadSpec(Text(s), strict) != Some(s)
  {
    if s.expiration.Some? && !AllPlain(s.expiration.value, strict) {
      UncleanExpiration(s, strict);
    } else {
      FixedIsQuotable(s);
      TextFits(s, false);
      TextFits(s, strict);
      var ls := PREAMBLE + Flatten(Sections(s));
      DocumentUnread(ls, "");
      assert Print(ls) + "" == Print(ls);
    }
  }

  // ---- A username that is no bare key ----

  predicate BareLine(l: Line) { l.Pair? ==> IsBareKey(l.key) }

  predicate BareKeys(sec: Section) { forall i :: 0 <= i < |sec.pairs| ==> IsBareKey(sec.pairs[i].0) }

  lemma PairIsBare(x: string, strict: bool)
    ensures var r := ReadPair(x, strict); r.Some? ==> BareLine(r.value)
  {
    var k := KeyRun(x);
    assert forall i :: 0 <= i < k ==> IsBare(x[..k][i]);
  }

  lemma LineIsBare(x: string, strict: bool)
    ensures var r := ReadLine(x, strict); r.Some? ==> BareLine(r.value)
  {
    PairIsBare(x, strict);
  }

  lemma {:induction false} LinesAreBare(xs: seq<string>, strict: bool)
    ensures var r := ReadLines(xs, strict); r.Some? ==> forall i :: 0 <= i < |r.value| ==> BareLine(r.value[i])
  {
    if xs != [] {
      LineIsBare(xs[0], strict);
      LinesAreBare(xs[1..], strict);
      assert xs == [xs[0]] + xs[1..];
      match ReadLine(xs[0], strict)
      case Some(l) => ReadFirst(xs[0], xs[1..], l, strict);
      case None => ReadNone(xs[0], xs[1..], strict);
    }
  }

  lemma AddedIsBare(secs: seq<Section>, l: Line)
    requires secs != [] && (forall i :: 0 <= i < |secs| ==> BareKeys(secs[i])) && BareLine(l)
    ensures var r := AddLine(secs, l); r.Some? ==> forall i :: 0 <= i < |r.value| ==> BareKeys(r.value[i])
  {
  }

  lemma {:induction false} GroupIsBare(secs: seq<Section>, ls: seq<Line>)
    requires secs != [] && forall i :: 0 <= i < |secs| ==> BareKeys(secs[i])
    requires forall i :: 0 <= i < |ls| ==> BareLine(ls[i])
    ensures var r := Group(secs, ls); r.Some? ==> forall i :: 0 <= i < |r.value| ==> BareKeys(r.value[i])
    decreases |ls|
  {
    if ls != [] && AddLine(secs, ls[0]).Some? {
      AddedIsBare(secs, ls[0]);
      GroupIsBare(AddLine(secs, ls[0]).value, ls[1..]);
    }
  }

  lemma {:induction false} FoundIsBare(secs: seq<Section>, name: string)
    requires forall i :: 0 <= i < |secs| ==> BareKeys(secs[i])
    ensures Find(secs, name).Some? ==> BareKeys(Find(secs, name).value)
  {
    if secs != [] { FoundIsBare(secs[1..], name); }
  }

  /** Whatever the text, the user a reader gets is a bare key. */
  lemma UserIsBare(text: string, strict: bool)
    ensures var r := ReadSpec(text, strict); r.Some? ==> IsBareKey(r.value.username)
  {
    LinesAreBare(SplitLines(text), strict);
    var ls := ReadLines(SplitLines(text), strict);
    if ls.Some? {
      GroupIsBare([ROOT], ls.value);
      var secs := Group([ROOT], ls.value);
      if secs.Some? { FoundIsBare(secs.value, USERS); }
    }
  }

  /** A spec the guard lets through is what a reader of its config.toml gets back - every field,
      limits that are absent and limits of zero told apart, one port in all three places - if
      and only if its username is a bare key and it is clean. For the lenient reader clean says
      one thing only: the expiration, which the guard does not look at, has no quote, backslash
      or newline. A reader that holds to the standard also needs the printed strings free of
      control characters and the quota below 2^63, which the guard does not see to either. */
  lemma RenderRoundTrip(s: Spec, strict: bool)
    requires Validate(s).None?
    ensures Render(s) == Success(Text(s))
    ensures ReadSpec(Text(s), strict) == Some(s) <==> IsBareKey(s.username) && Clean(s, strict)
    ensures Clean(s, false) <==> (s.expiration.Some? ==> Quotable(s.expiration.value))
  {
    FixedIsQuotable(s);
    if !IsBareKey(s.username) { UserIsBare(Text(s), strict); }
    else if Clean(s, strict) { CleanReadsBack(s, strict); }
    else { UncleanMisread(s, strict); }
  }
}
