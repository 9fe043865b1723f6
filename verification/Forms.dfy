/** The two forms: what the create form and the limits form are read as, what the limits form is
    pre-filled with, and which rows survive being submitted unchanged. */
module Forms {
  import opened Wrappers
  import opened Entities
  import opened Decimal
  import opened Store
  import Machine
  import Toml

  const GB := 1024 * 1024 * 1024

  // The limits form's five fields, as text.
  datatype Form = Form(adTag: string, quotaGb: string, expires: string, maxConns: string, maxIps: string)

  // The create form: the same five and three of its own.
  datatype CreateForm = CreateForm(port: string, name: string, tlsDomain: string, limits: Form)

  datatype FormError = BadPort | BadQuota | BadDate | BadConns | BadIps

  // ---- Text helpers ----

  // unicode.IsSpace.
  predicate IsSpace(c: char) {
    '\t' <= c <= '\r' || c == ' ' || c == '\U{85}' || c == '\U{A0}' || c == '\U{1680}' || '\U{2000}' <= c <= '\U{200A}'
    || c == '\U{2028}' || c == '\U{2029}' || c == '\U{202F}' || c == '\U{205F}' || c == '\U{3000}'
  }

  function TrimLeft(s: string): string { if s != "" && IsSpace(s[0]) then TrimLeft(s[1..]) else s }

  function TrimRight(s: string): string { if s != "" && IsSpace(s[|s| - 1]) then TrimRight(s[..|s| - 1]) else s }

  function TrimSpace(s: string): string { TrimRight(TrimLeft(s)) }

  predicate AllSpace(s: string) { forall i :: 0 <= i < |s| ==> IsSpace(s[i]) }

  lemma {:induction false} TrimLeftCuts(s: string) returns (a: string)
    ensures s == a + TrimLeft(s) && AllSpace(a)
    ensures TrimLeft(s) != "" ==> !IsSpace(TrimLeft(s)[0])
  {
    if s != "" && IsSpace(s[0]) {
      var b := TrimLeftCuts(s[1..]);
      a := [s[0]] + b;
      assert s == [s[0]] + s[1..];
    } else {
      a := "";
    }
  }

  lemma {:induction false} TrimRightCuts(s: string) returns (b: string)
    ensures s == TrimRight(s) + b && AllSpace(b)
    ensures TrimRight(s) != "" ==> !IsSpace(TrimRight(s)[|TrimRight(s)| - 1])
  {
    if s != "" && IsSpace(s[|s| - 1]) {
      var c := TrimRightCuts(s[..|s| - 1]);
      b := c + [s[|s| - 1]];
      assert s == s[..|s| - 1] + [s[|s| - 1]];
    } else {
      b := "";
    }
  }

  /** Trimming takes the space off both ends, all of it and nothing else. */
  lemma TrimSpaceTrims(s: string) returns (a: string, b: string)
    ensures s == a + TrimSpace(s) + b && AllSpace(a) && AllSpace(b)
    ensures TrimSpace(s) != "" ==> !IsSpace(TrimSpace(s)[0]) && !IsSpace(TrimSpace(s)[|TrimSpace(s)| - 1])
  {
    a := TrimLeftCuts(s);
    b := TrimRightCuts(TrimLeft(s));
  }

  // ---- Dates ----

  predicate LeapYear(y: int) { y % 4 == 0 && (y % 100 != 0 || y % 400 == 0) }

  function DaysIn(y: int, m: int): int {
    if m == 2 then (if LeapYear(y) then 29 else 28) else if m == 4 || m == 6 || m == 9 || m == 11 then 30 else 31
  }

  // YYYY-MM-DD, a date there is.
  predicate IsDate(s: string) {
    && |s| == 10 && s[4] == '-' && s[7] == '-' && Digits(s[..4]) && Digits(s[5..7]) && Digits(s[8..])
    && 1 <= ValueOf(s[5..7]) <= 12 && 1 <= ValueOf(s[8..]) <= DaysIn(ValueOf(s[..4]), ValueOf(s[5..7]))
  }

  // The leap days of the years up to `y`, and the days of a year before its m-th month, counted from March.
  function LeapDays(y: int): int { y / 4 - y / 100 + y / 400 }

  function Elapsed(m: int): int { (153 * m + 2) / 5 }

  // The number of a day in the Gregorian calendar.
  function DayNumber(y: int, m: int, d: int): int {
    var (y', m') := if m <= 2 then (y - 1, m + 9) else (y, m - 3);
    365 * y' + LeapDays(y') + Elapsed(m') + d
  }

  function FirstOfNext(y: int, m: int): int { if m == 12 then DayNumber(y + 1, 1, 1) else DayNumber(y, m + 1, 1) }

  lemma CenturiesNest(y: int)
    ensures (y % 400 == 0 ==> y % 100 == 0) && (y % 100 == 0 ==> y % 4 == 0)
  {
  }

  lemma QuotientStep(y: int)
    ensures (y - 1) / 4 == y / 4 - if y % 4 == 0 then 1 else 0
    ensures (y - 1) / 100 == y / 100 - if y % 100 == 0 then 1 else 0
    ensures (y - 1) / 400 == y / 400 - if y % 400 == 0 then 1 else 0
  {
  }

  lemma LeapStep(y: int)
    ensures LeapDays(y) == LeapDays(y - 1) + if LeapYear(y) then 1 else 0
  {
    QuotientStep(y);
    CenturiesNest(y);
  }

  lemma MonthEnds(y: int, m: int, m': int)
    requires 1 <= m <= 12 && m != 2 && m' == if m < 3 then m + 9 else m - 3
    ensures Elapsed(m') + DaysIn(y, m) == Elapsed(m' + 1)
  {
  }

  /** The months are those of the calendar: each ends on the day before the next begins. */
  lemma MonthsFollow(y: int, m: int)
    requires 1 <= m <= 12
    ensures DayNumber(y, m, DaysIn(y, m)) + 1 == FirstOfNext(y, m)
  {
    if m == 2 { LeapStep(y); } else { MonthEnds(y, m, if m < 3 then m + 9 else m - 3); }
  }

  const MIDNIGHT := "T00:00:00Z"

  predicate IsBelow(s: string, bound: int) { |s| == 2 && Digits(s) && ValueOf(s) < bound }

  predicate IsZone(s: string) {
    s == "Z" || (|s| == 6 && (s[0] == '+' || s[0] == '-') && s[3] == ':' && IsBelow(s[1..3], 24) && IsBelow(s[4..], 60))
  }

  function SkipDigits(s: string): string { if s != "" && IsDigit(s[0]) then SkipDigits(s[1..]) else s }

  // The time of day and zone of an RFC 3339 date-time (section 5.6), from its T on.
  predicate IsTime(s: string) {
    && |s| >= 10 && s[0] == 'T' && s[3] == ':' && s[6] == ':'
    && IsBelow(s[1..3], 24) && IsBelow(s[4..6], 60) && IsBelow(s[7..9], 60)
    && (IsZone(s[9..]) || (s[9] == '.' && |s| > 10 && IsDigit(s[10]) && IsZone(SkipDigits(s[10..]))))
  }

  // The date a date-time shows in its own zone.
  function DateOf(s: string): Option<string> {
    if |s| >= 10 && IsDate(s[..10]) && IsTime(s[10..]) then Some(s[..10]) else None
  }

  // ---- Reading the form ----

  function OptionalGB(v: string): Result<Option<u64>, FormError> {
    if TrimSpace(v) == "" then Success(None)
    else
      match ParseUint(v)
      case None => Failure(BadQuota)
      case Some(gb) => Success(Some(gb * GB % TWO64))
  }

  function OptionalInt(v: string, e: FormError): Result<Option<i64>, FormError> {
    if TrimSpace(v) == "" then Success(None)
    else match Atoi(v) case None => Failure(e) case Some(n) => Success(Some(n))
  }

  function OptionalDate(v: string): Result<Option<string>, FormError> {
    if TrimSpace(v) == "" then Success(None)
    else if IsDate(v) then Success(Some(v + MIDNIGHT))
    else Failure(BadDate)
  }

  // Every field of the patch is set: a blank field clears its limit.
  function Submitted(f: Form): Result<LimitsPatch, FormError> {
    match OptionalGB(f.quotaGb)
    case Failure(e) => Failure(e)
    case Success(quota) =>
      match OptionalDate(f.expires)
      case Failure(e) => Failure(e)
      case Success(exp) =>
        match OptionalInt(f.maxConns, BadConns)
        case Failure(e) => Failure(e)
        case Success(conns) =>
          match OptionalInt(f.maxIps, BadIps)
          case Failure(e) => Failure(e)
          case Success(ips) =>
            Success(LimitsPatch(Some(TrimSpace(f.adTag)), Some(quota), Some(exp), Some(conns), Some(ips)))
  }

  // ---- What a row owes to the forms ----

  // A row the forms could have left: a trimmed ad tag, a quota of whole gigabytes and an expiry
  // at midnight UTC, where there are any.
  predicate FormBorn(p: Proxy) {
    && TrimSpace(p.adTag) == p.adTag
    && (p.quota.Some? ==> p.quota.value % 0x4000_0000 == 0)
    && (p.expiration.Some? ==> MidnightOf(p.expiration.value))
  }

  predicate MidnightOf(x: string) { |x| == 20 && IsDate(x[..10]) && x[10..] == "T00:00:00Z" }

  // A patch that leaves such rows such.
  predicate FormPatch(patch: LimitsPatch) {
    && (patch.adTag.Some? ==> TrimSpace(patch.adTag.value) == patch.adTag.value)
    && (patch.quota.Some? && patch.quota.value.Some? ==> patch.quota.value.value % GB == 0)
    && (patch.expiration.Some? && patch.expiration.value.Some? ==> MidnightOf(patch.expiration.value.value))
  }

  lemma PatchKeepsFormBorn(p: Proxy, patch: LimitsPatch)
    requires FormBorn(p) && FormPatch(patch)
    ensures FormBorn(ApplyPatch(p, patch))
  {
  }

  lemma WrappedGigabytes(gb: u64)
    ensures gb * GB % TWO64 % GB == 0
  {
    var k := gb * GB / TWO64;
    assert gb * GB % TWO64 == GB * (gb - k * (TWO64 / GB));
  }

  lemma GigabytesRead(v: string)
    ensures OptionalGB(v).Success? && OptionalGB(v).value.Some? ==> OptionalGB(v).value.value % GB == 0
  {
    if ParseUint(v).Some? { WrappedGigabytes(ParseUint(v).value); }
  }

  lemma DateRead(v: string)
    ensures OptionalDate(v).Success? && OptionalDate(v).value.Some? ==> MidnightOf(OptionalDate(v).value.value)
  {
    var x := v + MIDNIGHT;
    if IsDate(v) { assert x[..10] == v && x[10..] == MIDNIGHT; }
  }

  // Whatever is submitted, overflowing quotas included.
  lemma SubmittedIsFormPatch(f: Form)
    requires Submitted(f).Success?
    ensures FormPatch(Submitted(f).value)
  {
    TrimTwice(f.adTag);
    GigabytesRead(f.quotaGb);
    DateRead(f.expires);
  }

  /** Whatever is submitted leaves a row the forms could have left. */
  lemma SubmittedIsFormBorn(p: Proxy, f: Form)
    requires Submitted(f).Success?
    ensures FormBorn(ApplyPatch(p, Submitted(f).value))
  {
    SubmittedIsFormPatch(f);
  }

  // ---- The limits form ----

  predicate Blank(v: string) { TrimSpace(v) == "" }

  predicate QuotaFits(v: string) { Blank(v) || (v != "" && Digits(v) && ValueOf(v) < TWO64) }

  predicate DateFits(v: string) { Blank(v) || IsDate(v) }

  predicate CountFits(v: string) { Blank(v) || Atoi(v).Some? }

  // The first field of the limits form that is not acceptable.
  function FirstUnfit(f: Form): Option<FormError> {
    if !QuotaFits(f.quotaGb) then Some(BadQuota)
    else if !DateFits(f.expires) then Some(BadDate)
    else if !CountFits(f.maxConns) then Some(BadConns)
    else if !CountFits(f.maxIps) then Some(BadIps)
    else None
  }

  // Blank clears the limit; anything else sets it, a quota in gigabytes modulo 2^64 bytes.
  predicate SaysQuota(v: string, q: Option<u64>) {
    && QuotaFits(v) && (q.None? <==> Blank(v))
    && (q.Some? ==> Digits(v) && (q.value - ValueOf(v) * 0x4000_0000) % TWO64 == 0)
  }

  predicate SaysDate(v: string, x: Option<string>) {
    DateFits(v) && (x.None? <==> Blank(v)) && (x.Some? ==> MidnightOf(x.value) && DateOf(x.value) == Some(v))
  }

  predicate SaysCount(v: string, n: Option<i64>) {
    CountFits(v) && (n.None? <==> Blank(v)) && (n.Some? ==> Atoi(v) == n)
  }

  // The limits a form asks for.
  predicate Says(f: Form, adTag: string, quota: Option<u64>, exp: Option<string>, conns: Option<i64>,
      ips: Option<i64>) {
    && adTag == TrimSpace(f.adTag) && SaysQuota(f.quotaGb, quota) && SaysDate(f.expires, exp)
    && SaysCount(f.maxConns, conns) && SaysCount(f.maxIps, ips)
  }

  lemma QuotaSaid(v: string)
    ensures OptionalGB(v).Success? <==> QuotaFits(v)
    ensures OptionalGB(v).Success? ==> SaysQuota(v, OptionalGB(v).value)
    ensures OptionalGB(v).Failure? ==> OptionalGB(v).error == BadQuota
  {
    if OptionalGB(v).Success? && !Blank(v) {
      var b: int := ValueOf(v) * GB;
      assert b - b % TWO64 == b / TWO64 * TWO64;
      assert (b % TWO64 - b) % TWO64 == 0 by { MultipleOf64(b / TWO64); }
    }
  }

  lemma MultipleOf64(k: int)
    ensures -k * TWO64 % TWO64 == 0
  {
  }

  lemma DateSaid(v: string)
    ensures OptionalDate(v).Success? <==> DateFits(v)
    ensures OptionalDate(v).Success? ==> SaysDate(v, OptionalDate(v).value)
    ensures OptionalDate(v).Failure? ==> OptionalDate(v).error == BadDate
  {
    DateRead(v);
    if IsDate(v) { DateShown(v); }
  }

  /** The limits form is accepted when every field fits; the patch then sets every limit to what
      its field says and, whatever row it is applied to, leaves one the forms could have left.
      Otherwise the error names the first field that does not fit. */
  method PostLimits(f: Form) returns (r: Result<LimitsPatch, FormError>)
    ensures r.Success? <==> FirstUnfit(f).None?
    ensures r.Failure? ==> FirstUnfit(f) == Some(r.error)
    ensures r.Success? ==> forall p :: var q := ApplyPatch(p, r.value);
      FormBorn(q) && Says(f, q.adTag, q.quota, q.expiration, q.maxConns, q.maxIps)
    ensures r == Submitted(f)
  {
    QuotaSaid(f.quotaGb);
    DateSaid(f.expires);
    var patch := LimitsPatch(None, None, None, None, None);
    patch := patch.(adTag := Some(TrimSpace(f.adTag)));
    var quota := OptionalGB(f.quotaGb);
    if quota.Failure? { return Failure(quota.error); }
    patch := patch.(quota := Some(quota.value));
    var exp := OptionalDate(f.expires);
    if exp.Failure? { return Failure(exp.error); }
    patch := patch.(expiration := Some(exp.value));
    var conns := OptionalInt(f.maxConns, BadConns);
    if conns.Failure? { return Failure(conns.error); }
    patch := patch.(maxConns := Some(conns.value));
    var ips := OptionalInt(f.maxIps, BadIps);
    if ips.Failure? { return Failure(ips.error); }
    patch := patch.(maxIps := Some(ips.value));
    r := Success(patch);
    SubmittedIsFormPatch(f);
  }

  // ---- The create form ----

  // Here only the empty field means no limit: one of spaces is refused.
  predicate FilledIn(v: string) { v == "" || !Blank(v) }

  // The first field of the create form that is not acceptable.
  function FirstCreateUnfit(f: CreateForm): Option<FormError> {
    if Atoi(f.port).None? then Some(BadPort)
    else if !(FilledIn(f.limits.quotaGb) && QuotaFits(f.limits.quotaGb)) then Some(BadQuota)
    else if !(FilledIn(f.limits.expires) && DateFits(f.limits.expires)) then Some(BadDate)
    else if !(FilledIn(f.limits.maxConns) && CountFits(f.limits.maxConns)) then Some(BadConns)
    else if !(FilledIn(f.limits.maxIps) && CountFits(f.limits.maxIps)) then Some(BadIps)
    else None
  }

  // The request is what the form says: the port, the trimmed texts and the limits.
  predicate Asks(f: CreateForm, req: Machine.CreateRequest) {
    && Atoi(f.port) == Some(req.port) && req.name == TrimSpace(f.name) && req.tlsDomain == TrimSpace(f.tlsDomain)
    && Says(f.limits, req.adTag, req.quota, req.expiration, req.maxConns, req.maxIps)
  }

  lemma SpacesAreNoNumber(v: string)
    requires v != "" && Blank(v)
    ensures ParseUint(v).None? && Atoi(v).None? && !IsDate(v)
  {
    if Digits(v) || IsDate(v) || Atoi(v).Some? {
      if IsDate(v) { DateNoSpace(v); } else if Digits(v) { DigitsNoSpace(v); } else { DigitsNoSpace(v[1..]); }
      Untrimmed(v);
    }
  }

  lemma CreateQuota(v: string)
    requires v != ""
    ensures FilledIn(v) && QuotaFits(v) <==> ParseUint(v).Some?
    ensures ParseUint(v).Some? ==> SaysQuota(v, Some(ParseUint(v).value * GB % TWO64))
  {
    if Blank(v) { SpacesAreNoNumber(v); }
    QuotaSaid(v);
  }

  lemma CreateDate(v: string)
    requires v != ""
    ensures FilledIn(v) && DateFits(v) <==> IsDate(v)
    ensures IsDate(v) ==> SaysDate(v, Some(v + MIDNIGHT))
  {
    if Blank(v) { SpacesAreNoNumber(v); }
    DateSaid(v);
  }

  lemma CreateCount(v: string)
    requires v != ""
    ensures FilledIn(v) && CountFits(v) <==> Atoi(v).Some?
    ensures Atoi(v).Some? ==> SaysCount(v, Atoi(v))
  {
    if Blank(v) { SpacesAreNoNumber(v); }
  }

  lemma NothingFilledIn()
    ensures FilledIn("") && QuotaFits("") && DateFits("") && CountFits("")
    ensures SaysQuota("", None) && SaysDate("", None) && SaysCount("", None)
  {
  }

  /** The create form is accepted when the port is a number and every other field fits, and the
      request then is what the form says; otherwise the error names the first field that does not
      fit. */
  method PostCreate(f: CreateForm) returns (r: Result<Machine.CreateRequest, FormError>)
    ensures r.Success? <==> FirstCreateUnfit(f).None?
    ensures r.Failure? ==> FirstCreateUnfit(f) == Some(r.error)
    ensures r.Success? ==> Asks(f, r.value)
  {
    NothingFilledIn();
    var port := Atoi(f.port);
    if port.None? { return Failure(BadPort); }
    var req := Machine.CreateRequest(TrimSpace(f.name), port.value, TrimSpace(f.tlsDomain), TrimSpace(f.limits.adTag),
                                     None, None, None, None);
    if f.limits.quotaGb != "" {
      CreateQuota(f.limits.quotaGb);
      var gb := ParseUint(f.limits.quotaGb);
      if gb.None? { return Failure(BadQuota); }
      req := req.(quota := Some(gb.value * GB % TWO64));
    }
    if f.limits.expires != "" {
      CreateDate(f.limits.expires);
      if !IsDate(f.limits.expires) { return Failure(BadDate); }
      req := req.(expiration := Some(f.limits.expires + MIDNIGHT));
    }
    if f.limits.maxConns != "" {
      CreateCount(f.limits.maxConns);
      var n := Atoi(f.limits.maxConns);
      if n.None? { return Failure(BadConns); }
      req := req.(maxConns := n);
    }
    if f.limits.maxIps != "" {
      CreateCount(f.limits.maxIps);
      var n := Atoi(f.limits.maxIps);
      if n.None? { return Failure(BadIps); }
      req := req.(maxIps := n);
    }
    r := Success(req);
  }

  lemma QuotaIsWhole(v: string, q: Option<u64>)
    requires SaysQuota(v, q)
    ensures q.Some? ==> q.value % GB == 0
  {
    if q.Some? { WholeMultiple(q.value, ValueOf(v)); }
  }

  lemma WholeMultiple(q: int, n: int)
    requires (q - n * GB) % TWO64 == 0
    ensures q % GB == 0
  {
    var k := (q - n * GB) / TWO64;
    assert TWO64 == 0x4_0000_0000 * GB;
    assert q == (n + k * 0x4_0000_0000) * GB;
  }

  /** The row a create form asks for, whatever id, secret and token it is given, says what the form says
      of its port, name, domain and limits, has that id, secret and token, and is one the forms could have
      left. */
  lemma CreatedIsFormBorn(f: CreateForm, req: Machine.CreateRequest, id: Id, secret: string, token: string,
      name: string)
    requires Asks(f, req)
    ensures var row := Machine.NewRow(id, secret, token, name, req);
      && FormBorn(row) && row.id == id && row.secret == secret && row.apiToken == token
      && Atoi(f.port) == Some(row.port) && row.tlsDomain == TrimSpace(f.tlsDomain)
      && row.name == (if TrimSpace(f.name) == "" then name else TrimSpace(f.name))
      && Says(f.limits, row.adTag, row.quota, row.expiration, row.maxConns, row.maxIps)
      && row.containerId.None? && row.state == Creating && row.message == ""
  {
    TrimTwice(f.limits.adTag);
    QuotaIsWhole(f.limits.quotaGb, req.quota);
  }

  // ---- Filling it ----

  function Prefilled(p: Proxy): Form {
    Form(p.adTag,
         match p.quota { case None => "" case Some(q) => FormatUint(q / GB) },
         match p.expiration { case None => "" case Some(x) => (match DateOf(x) case None => "" case Some(d) => d) },
         match p.maxConns { case None => "" case Some(n) => Itoa(n) },
         match p.maxIps { case None => "" case Some(n) => Itoa(n) })
  }

  // ---- Submitting the form unchanged ----

  predicate NoSpace(s: string) { forall i :: 0 <= i < |s| ==> !IsSpace(s[i]) }

  lemma Untrimmed(s: string)
    requires NoSpace(s)
    ensures TrimSpace(s) == s
  {
  }

  lemma {:induction false} TrimRightIs(s: string)
    ensures TrimRight(s) <= s && TrimRight(TrimRight(s)) == TrimRight(s)
    ensures s != "" && !IsSpace(s[0]) ==> TrimRight(s) != ""
  {
    if s != "" && IsSpace(s[|s| - 1]) { TrimRightIs(s[..|s| - 1]); }
  }

  lemma {:induction false} TrimLeftIs(s: string)
    ensures TrimLeft(s) != "" ==> !IsSpace(TrimLeft(s)[0])
  {
    if s != "" && IsSpace(s[0]) { TrimLeftIs(s[1..]); }
  }

  lemma TrimTwice(s: string)
    ensures TrimSpace(TrimSpace(s)) == TrimSpace(s)
  {
    TrimLeftIs(s);
    TrimRightIs(TrimLeft(s));
    assert TrimLeft(TrimSpace(s)) == TrimSpace(s);
  }

  lemma DigitsNoSpace(s: string)
    requires Digits(s)
    ensures NoSpace(s)
  {
  }

  lemma WholeGigabytesFit(q: u64)
    ensures 0 <= q / GB && q / GB * GB <= q
  {
  }

  lemma QuotaResubmitted(q: u64)
    ensures OptionalGB(FormatUint(q / GB)) == Success(Some(q / GB * GB))
  {
    var gb := q / GB;
    WholeGigabytesFit(q);
    QuotaReads(gb);
  }

  lemma QuotaReads(gb: nat)
    requires gb * GB < TWO64
    ensures OptionalGB(FormatUint(gb)) == Success(Some(gb * GB))
  {
    DigitsNoSpace(FormatUint(gb));
    Untrimmed(FormatUint(gb));
    ParseUintInvertsFormat(gb);
  }

  lemma IntResubmitted(n: i64, e: FormError)
    ensures OptionalInt(Itoa(n), e) == Success(Some(n))
  {
    AtoiInvertsItoa(n);
    assert NoSpace(Itoa(n)) by {
      if n < 0 { var m: int := n; DigitsNoSpace(FormatUint(-m)); } else { DigitsNoSpace(FormatUint(n)); }
    }
    Untrimmed(Itoa(n));
  }

  lemma DateNoSpace(d: string)
    requires IsDate(d)
    ensures NoSpace(d)
  {
    assert d == d[..4] + ['-'] + d[5..7] + ['-'] + d[8..];
  }

  lemma DateResubmitted(d: string)
    requires IsDate(d)
    ensures OptionalDate(d) == Success(Some(d + MIDNIGHT))
  {
    DateNoSpace(d);
    Untrimmed(d);
  }

  lemma MidnightIsTime()
    ensures IsTime(MIDNIGHT)
  {
    var m := MIDNIGHT;
    assert m[1..3] == "00" && m[4..6] == "00" && m[7..9] == "00" && m[9..] == "Z";
    assert "00"[..1] == "0" && "0"[..0] == "";
    assert ValueOf("0") == 0 && ValueOf("00") == 0;
  }

  lemma DateShown(d: string)
    requires IsDate(d)
    ensures DateOf(d + MIDNIGHT) == Some(d)
  {
    MidnightIsTime();
    assert (d + MIDNIGHT)[..10] == d && (d + MIDNIGHT)[10..] == MIDNIGHT;
  }

  /** A date-time shows the date it begins with, whatever its time of day and zone; nothing else shows
      any. */
  lemma DateTimesShowTheirDate(x: string)
    ensures DateOf(x).Some? <==> exists d, t :: x == d + t && IsDate(d) && IsTime(t)
    ensures forall d, t :: x == d + t && IsDate(d) && IsTime(t) ==> DateOf(x) == Some(d)
  {
    forall d, t | x == d + t && IsDate(d) && IsTime(t) ensures DateOf(x) == Some(d) {
      assert x[..10] == d && x[10..] == t;
    }
    if DateOf(x).Some? { assert x == x[..10] + x[10..]; }
  }

  // The n-th two-digit number.
  function TwoDigits(n: nat): string
    requires n < 100
  {
    [DigitOf(n / 10), DigitOf(n % 10)]
  }

  lemma TwoDigitsRead(n: nat, bound: int)
    requires n < 100
    ensures IsBelow(TwoDigits(n), bound) <==> n < bound
  {
    var s := TwoDigits(n);
    assert s[..1] == [DigitOf(n / 10)] && s[..1][..0] == [];
    assert ValueOf(s[..1]) == n / 10;
  }

  /** The times of day are those of a clock of 24 hours. */
  lemma ClockTimes(h: nat, m: nat, s: nat)
    requires h < 100 && m < 100 && s < 100
    ensures IsTime("T" + TwoDigits(h) + ":" + TwoDigits(m) + ":" + TwoDigits(s) + "Z") <==> h < 24 && m < 60 && s < 60
  {
    var t := "T" + TwoDigits(h) + ":" + TwoDigits(m) + ":" + TwoDigits(s) + "Z";
    assert t[1..3] == TwoDigits(h) && t[4..6] == TwoDigits(m) && t[7..9] == TwoDigits(s) && t[9..] == "Z";
    TwoDigitsRead(h, 24);
    TwoDigitsRead(m, 60);
    TwoDigitsRead(s, 60);
  }

  lemma ExpirationShown(x: string)
    ensures var d := DateOf(x);
      && (d.Some? ==> IsDate(d.value))
      && (d.Some? && d.value + MIDNIGHT == x <==> MidnightOf(x))
  {
    if DateOf(x).Some? {
      var y := x[..10] + MIDNIGHT;
      assert y[..10] == x[..10] && y[10..] == MIDNIGHT;
    }
    if MidnightOf(x) {
      DateShown(x[..10]);
      assert x == x[..10] + MIDNIGHT;
    }
  }

  // What viewing and saving makes of a quota and of an expiry.
  function WholeGigabytes(q: Option<u64>): Option<u64> {
    match q case None => None case Some(n) => Some(n / GB * GB)
  }

  function AtMidnight(x: Option<string>): Option<string> {
    match x
    case None => None
    case Some(s) => (match DateOf(s) case None => None case Some(d) => Some(d + MIDNIGHT))
  }

  lemma ExpirationResubmitted(p: Proxy)
    ensures OptionalDate(Prefilled(p).expires) == Success(AtMidnight(p.expiration))
    ensures AtMidnight(p.expiration) == p.expiration <==> (p.expiration.Some? ==> MidnightOf(p.expiration.value))
  {
    if p.expiration.Some? {
      ExpirationShown(p.expiration.value);
      if DateOf(p.expiration.value).Some? { DateResubmitted(DateOf(p.expiration.value).value); }
    }
  }

  lemma NumbersResubmitted(p: Proxy)
    ensures OptionalGB(Prefilled(p).quotaGb) == Success(WholeGigabytes(p.quota))
    ensures OptionalInt(Prefilled(p).maxConns, BadConns) == Success(p.maxConns)
    ensures OptionalInt(Prefilled(p).maxIps, BadIps) == Success(p.maxIps)
  {
    if p.quota.Some? { QuotaResubmitted(p.quota.value); }
    if p.maxConns.Some? { IntResubmitted(p.maxConns.value, BadConns); }
    if p.maxIps.Some? { IntResubmitted(p.maxIps.value, BadIps); }
  }

  /** The page pre-fills a form that is accepted, and that keeps all of the row but what it cannot
      show: space around the ad tag, part of a gigabyte, a time of day. */
  method DetailPage(p: Proxy) returns (f: Form)
    ensures Submitted(f).Success?
    ensures ApplyPatch(p, Submitted(f).value) ==
      p.(adTag := TrimSpace(p.adTag), quota := WholeGigabytes(p.quota), expiration := AtMidnight(p.expiration))
    ensures f == Prefilled(p)
  {
    NumbersResubmitted(p);
    ExpirationResubmitted(p);
    f := Form(p.adTag, "", "", "", "");
    if p.quota.Some? { f := f.(quotaGb := FormatUint(p.quota.value / GB)); }
    if p.expiration.Some? {
      var d := DateOf(p.expiration.value);
      if d.Some? { f := f.(expires := d.value); }
    }
    if p.maxConns.Some? { f := f.(maxConns := Itoa(p.maxConns.value)); }
    if p.maxIps.Some? { f := f.(maxIps := Itoa(p.maxIps.value)); }
  }

  /** The pre-filled form is always accepted, and submitting it unchanged - the row having been
      through the table's signed columns - changes nothing if and only if the row is one the forms
      could have left. */
  lemma ResubmittingUnchanged(p: Proxy)
    ensures var r := Submitted(Prefilled(Scan(p.id, Encode(p))));
      r.Success? && (ApplyPatch(p, r.value) == p <==> FormBorn(p))
  {
    ScanInvertsEncode(p);
    NumbersResubmitted(p);
    ExpirationResubmitted(p);
    assert WholeGigabytes(p.quota) == p.quota <==> (p.quota.Some? ==> p.quota.value % GB == 0);
  }

  /** So a row last edited through the form is a fixed point of viewing and saving. */
  lemma EditedThenResubmitted(p: Proxy, f: Form)
    requires Submitted(f).Success?
    ensures var q := ApplyPatch(p, Submitted(f).value);
      var r := Submitted(Prefilled(Scan(q.id, Encode(q))));
      r.Success? && ApplyPatch(q, r.value) == q
  {
    SubmittedIsFormBorn(p, f);
    ResubmittingUnchanged(ApplyPatch(p, Submitted(f).value));
  }

  /** An expiry the forms could have left is one config.toml can carry, for any reader. */
  lemma FormExpirationIsPlain(x: string, strict: bool)
    requires MidnightOf(x)
    ensures Toml.AllPlain(x, strict)
  {
    var d := x[..10];
    assert x == d + MIDNIGHT;
    assert d == d[..4] + ['-'] + d[5..7] + ['-'] + d[8..];
    assert Toml.AllPlain(d, strict);
    assert Toml.AllPlain(MIDNIGHT, strict);
  }
}
