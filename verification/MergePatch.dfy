/** The hot-apply payload: a tri-state patch marshalled as a JSON Merge Patch, and what a server
    that follows section 2 of RFC 7396 makes of it. */
module MergePatch {
  import opened Wrappers
  import opened Entities

  datatype Json = Null | Str(s: string) | Num(n: int) | Bool(b: bool) | Obj(members: map<string, Json>)

  // Section 2 of RFC 7396; a member the target does not have counts as null.
  function Merge(target: Json, patch: Json): Json
    decreases patch
  {
    if !patch.Obj? then patch
    else
      var base := if target.Obj? then target.members else map[];
      Obj(map k | k in base.Keys + patch.members.Keys && (k in patch.members ==> !patch.members[k].Null?) ::
            if k in patch.members then Merge(if k in base then base[k] else Null, patch.members[k]) else base[k])
  }

  // ---- The client's patch ----

  // Absent from the payload, or present: null when `val` is None.
  datatype Opt<+T> = Unset | Set(val: Option<T>)

  datatype PatchUser = PatchUser(
    userAdTag: Opt<string>, quota: Opt<u64>, expiration: Opt<string>,
    maxConns: Opt<i64>, maxIps: Opt<i64>, enabled: Opt<bool>)

  const AD_TAG := "user_ad_tag"
  const QUOTA := "data_quota_bytes"
  const EXPIRATION := "expiration_rfc3339"
  const MAX_CONNS := "max_tcp_conns"
  const MAX_IPS := "max_unique_ips"
  const ENABLED := "enabled"

  // The members a row has a say in.
  const LIMITS := {AD_TAG, QUOTA, EXPIRATION, MAX_CONNS, MAX_IPS}

  function StrOrNull(v: Option<string>): Json { match v case None => Null case Some(s) => Str(s) }
  function NumOrNull(v: Option<int>): Json { match v case None => Null case Some(n) => Num(n) }
  function BoolOrNull(v: Option<bool>): Json { match v case None => Null case Some(b) => Bool(b) }

  // What a payload says of one member: nothing, remove it, or set it.
  function Said(m: map<string, Json>, k: string): Opt<Json> {
    if k !in m then Unset else if m[k].Null? then Set(None) else Set(Some(m[k]))
  }

  function SaidStr(o: Opt<string>): Opt<Json> {
    match o case Unset => Unset case Set(None) => Set(None) case Set(Some(s)) => Set(Some(Str(s)))
  }

  function SaidNum(o: Opt<int>): Opt<Json> {
    match o case Unset => Unset case Set(None) => Set(None) case Set(Some(n)) => Set(Some(Num(n)))
  }

  // The payload says of every member what the patch says of its field, and of nothing else.
  predicate Tells(m: map<string, Json>, p: PatchUser) {
    && m.Keys <= LIMITS + {"enabled"}
    && Said(m, AD_TAG) == SaidStr(p.userAdTag) && Said(m, QUOTA) == SaidNum(p.quota)
    && Said(m, EXPIRATION) == SaidStr(p.expiration) && Said(m, MAX_CONNS) == SaidNum(p.maxConns)
    && Said(m, MAX_IPS) == SaidNum(p.maxIps)
    && (p.enabled.Unset? <==> "enabled" !in m) && (p.enabled.Set? ==> m["enabled"] == BoolOrNull(p.enabled.val))
  }

  method MarshalJSON(p: PatchUser) returns (m: map<string, Json>)
    ensures Tells(m, p)
  {
    m := map[];
    if p.userAdTag.Set? { m := m[AD_TAG := StrOrNull(p.userAdTag.val)]; }
    if p.quota.Set? { m := m[QUOTA := NumOrNull(p.quota.val)]; }
    if p.expiration.Set? { m := m[EXPIRATION := StrOrNull(p.expiration.val)]; }
    if p.maxConns.Set? { m := m[MAX_CONNS := NumOrNull(p.maxConns.val)]; }
    if p.maxIps.Set? { m := m[MAX_IPS := NumOrNull(p.maxIps.val)]; }
    if p.enabled.Set? { m := m[ENABLED := BoolOrNull(p.enabled.val)]; }
  }

  function From<T>(o: Option<Option<T>>): Opt<T> { match o case None => Unset case Some(v) => Set(v) }

  // An empty ad tag means no ad tag: it is sent as null.
  function ApiPatch(patch: LimitsPatch): PatchUser {
    PatchUser(
      match patch.adTag { case None => Unset case Some(t) => Set(if t == "" then None else Some(t)) },
      From(patch.quota), From(patch.expiration), From(patch.maxConns), From(patch.maxIps), Unset)
  }

  /** Two patches are sent alike if and only if they mean the same. */
  lemma PayloadDeterminesPatch(m: map<string, Json>, n: map<string, Json>, p: PatchUser, q: PatchUser)
    requires Tells(m, p) && Tells(n, q)
    ensures m == n <==> p == q
  {
  }

  // ---- The row as the server shows it ----

  // Under the names of telemt's API, written out: the client's own are not consulted.
  function Limit(p: Proxy, k: string): Option<Json> {
    if k == "user_ad_tag" then (if p.adTag == "" then None else Some(Str(p.adTag)))
    else if k == "data_quota_bytes" then (match p.quota case None => None case Some(n) => Some(Num(n)))
    else if k == "expiration_rfc3339" then (match p.expiration case None => None case Some(s) => Some(Str(s)))
    else if k == "max_tcp_conns" then (match p.maxConns case None => None case Some(n) => Some(Num(n)))
    else if k == "max_unique_ips" then (match p.maxIps case None => None case Some(n) => Some(Num(n)))
    else None
  }

  const SERVED := {"user_ad_tag", "data_quota_bytes", "expiration_rfc3339", "max_tcp_conns", "max_unique_ips"}

  // The user object on the server: the row's limits among whatever else it holds.
  function View(p: Proxy, others: map<string, Json>): Json {
    Obj(map k | k in others.Keys + SERVED && (k in SERVED ==> Limit(p, k).Some?) ::
          if k in SERVED then Limit(p, k).value else others[k])
  }

  // The limit a patch field leaves, from the limit there was.
  function After(was: Option<Json>, said: Opt<Json>): Option<Json> {
    match said case Unset => was case Set(v) => v
  }

  lemma PatchedLimit(p: Proxy, patch: LimitsPatch, m: map<string, Json>, k: string)
    requires Tells(m, ApiPatch(patch)) && k in LIMITS
    ensures Limit(ApplyPatch(p, patch), k) == After(Limit(p, k), Said(m, k))
  {
  }

  lemma MergedMember(base: map<string, Json>, m: map<string, Json>, k: string)
    requires k in m ==> !m[k].Obj?
    ensures var r := Merge(Obj(base), Obj(m)).members;
      && (k in r <==> (k in m && !m[k].Null?) || (k !in m && k in base))
      && (k in r ==> r[k] == if k in m then m[k] else base[k])
  {
  }

  lemma SentMember(patch: LimitsPatch, m: map<string, Json>, k: string)
    requires Tells(m, ApiPatch(patch)) && k in m
    ensures k in LIMITS && !m[k].Obj?
  {
    assert Said(m, k) != Unset;
  }

  lemma SquareAt(p: Proxy, patch: LimitsPatch, m: map<string, Json>, others: map<string, Json>, k: string)
    requires Tells(m, ApiPatch(patch))
    ensures Member(Merge(View(p, others), Obj(m)), k) == Member(View(ApplyPatch(p, patch), others), k)
  {
    if k in m { SentMember(patch, m, k); }
    MergedMember(View(p, others).members, m, k);
    if k in LIMITS { PatchedLimit(p, patch, m, k); }
  }

  function Member(j: Json, k: string): Option<Json> {
    if j.Obj? && k in j.members then Some(j.members[k]) else None
  }

  lemma SameMembers(a: Json, b: Json)
    requires a.Obj? && b.Obj? && forall k: string :: Member(a, k) == Member(b, k)
    ensures a == b
  {
    assert forall k: string :: k in a.members <==> Member(a, k).Some?;
    assert forall k: string :: k in b.members <==> Member(b, k).Some?;
    assert forall k: string :: k in a.members ==> a.members[k] == Member(a, k).value;
    assert a.members == b.members;
  }

  /** Applying a patch to the row and then viewing it is merging the marshalled patch into the
      old view: for every row, every tri-state patch and every other member the server holds. */
  lemma CommutingSquare(p: Proxy, patch: LimitsPatch, m: map<string, Json>, others: map<string, Json>)
    requires Tells(m, ApiPatch(patch))
    ensures Merge(View(p, others), Obj(m)) == View(ApplyPatch(p, patch), others)
  {
    forall k: string
      ensures Member(Merge(View(p, others), Obj(m)), k) == Member(View(ApplyPatch(p, patch), others), k)
    {
      SquareAt(p, patch, m, others, k);
    }
    SameMembers(Merge(View(p, others), Obj(m)), View(ApplyPatch(p, patch), others));
  }

  function ApplyAll(p: Proxy, patches: seq<LimitsPatch>): Proxy {
    if patches == [] then p else ApplyPatch(ApplyAll(p, patches[..|patches| - 1]), patches[|patches| - 1])
  }

  function MergeAll(j: Json, ms: seq<map<string, Json>>): Json {
    if ms == [] then j else Merge(MergeAll(j, ms[..|ms| - 1]), Obj(ms[|ms| - 1]))
  }

  /** ... and so for any number of patches, one after the other. */
  lemma {:induction false} CommutingRun(p: Proxy, patches: seq<LimitsPatch>, ms: seq<map<string, Json>>,
      others: map<string, Json>)
    requires |ms| == |patches| && forall i :: 0 <= i < |ms| ==> Tells(ms[i], ApiPatch(patches[i]))
    ensures MergeAll(View(p, others), ms) == View(ApplyAll(p, patches), others)
  {
    if ms != [] {
      var n := |ms| - 1;
      CommutingRun(p, patches[..n], ms[..n], others);
      CommutingSquare(ApplyAll(p, patches[..n]), patches[n], ms[n], others);
    }
  }
}
